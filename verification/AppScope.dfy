/**
 * App-scoped secrets: the gate that annotates a grant from an origin-bound
 * manifest, and the statement that renders the annotated grant. Letter case
 * and white space are ASCII.
 */
module AppScope {
  import opened Wrappers
  import opened Search

  datatype Family = SecretRead | SecretMutation | OtherFamily

  datatype Severity = Standard | Attention | Sensitive

  datatype Secret = Secret(name: string, scope: string)

  datatype Grant = Grant(
    family: Family,
    service: string,
    space: string,
    path: string,
    resourceService: Option<string>,
    serviceMismatch: bool,
    abilities: seq<string>,
    severity: Severity,
    appScopedSecret: Option<Secret>,
    nearMiss: bool)

  datatype Declared = Declared(name: string, scope: Option<string>, actions: seq<string>)

  datatype Signer = Signer(address: string, chainId: string)

  datatype Trust = Verified | OriginBound | Untrusted

  // ---- text ----

  predicate EndsWith(s: string, t: string) {
    |t| <= |s| && s[|s| - |t|..] == t
  }

  predicate At(s: string, t: string, i: nat) {
    i + |t| <= |s| && s[i..i + |t|] == t
  }

  predicate Has(s: string, t: string) {
    exists i :: 0 <= i <= |s| && At(s, t, i)
  }

  function LowerChar(c: char): char {
    if 'A' <= c <= 'Z' then 'a' + (c - 'A') else c
  }

  function Lower(s: string): (r: string)
    ensures |r| == |s|
  {
    seq(|s|, i requires 0 <= i < |s| => LowerChar(s[i]))
  }

  /** The part after the first slash. */
  function VerbOf(ability: string): string {
    var slash := Find(ability, '/');
    if slash < |ability| then ability[slash + 1..] else ability
  }

  // ---- spaces ----

  /** The loose shape: any space named `secrets`. */
  predicate IsSecretsSpace(space: string) {
    space == "secrets" || EndsWith(space, ":secrets") || Has(space, ":secrets/") || Has(space, ":secrets:")
  }

  predicate IsHexChar(c: char) {
    '0' <= c <= '9' || 'a' <= c <= 'f' || 'A' <= c <= 'F'
  }

  predicate AddressShape(s: string) {
    |s| == 42 && s[..2] == "0x" && forall i :: 2 <= i < 42 ==> IsHexChar(s[i])
  }

  /** The signer's own secrets space, exact but for the case of the address. */
  predicate IsSignerOwnedSecretsSpace(space: string, signer: Signer) {
    var front := "tinycloud:pkh:eip155:" + signer.chainId + ":";
    && front <= space && EndsWith(space, ":secrets")
    && |front| <= |space| - 8
    && AddressShape(space[|front|..|space| - 8])
    && Lower(space[|front|..|space| - 8]) == Lower(signer.address)
  }

  // ---- scopes, names and actions of a declaration ----

  predicate NameShape(s: string) {
    s != "" && 'A' <= s[0] <= 'Z' && forall i :: 0 <= i < |s| ==> 'A' <= s[i] <= 'Z' || '0' <= s[i] <= '9' || s[i] == '_'
  }

  predicate ScopeChar(c: char) {
    'a' <= c <= 'z' || '0' <= c <= '9' || c == '-'
  }

  predicate ScopeShape(s: string) {
    s != "" && forall i :: 0 <= i < |s| ==> ScopeChar(s[i])
  }

  predicate Reserved(s: string) { s == "default" || s == "global" }

  predicate White(c: char) {
    c == ' ' || c == '\t' || c == '\n' || c == '\r'
  }

  function TrimStart(s: string): string {
    if s != "" && White(s[0]) then TrimStart(s[1..]) else s
  }

  function TrimEnd(s: string): string {
    if s != "" && White(s[|s| - 1]) then TrimEnd(s[..|s| - 1]) else s
  }

  function Dashed(s: string): string {
    seq(|s|, i requires 0 <= i < |s| => if ScopeChar(LowerChar(s[i])) then LowerChar(s[i]) else '-')
  }

  function Collapsed(s: string): string {
    if |s| >= 2 && s[0] == '-' && s[1] == '-' then Collapsed(s[1..])
    else if s == "" then ""
    else [s[0]] + Collapsed(s[1..])
  }

  function Stripped(s: string): string {
    var t := if s != "" && s[0] == '-' then s[1..] else s;
    if t != "" && t[|t| - 1] == '-' then t[..|t| - 1] else t
  }

  /** The scope as the resolver spells it in a path; None when it has no such spelling. */
  function CanonicalScope(scope: string): Option<string> {
    var trimmed := TrimEnd(TrimStart(scope));
    var canonical := Stripped(Collapsed(Dashed(trimmed)));
    if trimmed == "" || canonical == "" || Reserved(canonical) then None else Some(canonical)
  }

  predicate RecognizedManifestAction(a: string) {
    a in {"read", "write", "delete", "get", "put", "del", "list", "metadata",
          "tinycloud.kv/get", "tinycloud.kv/put", "tinycloud.kv/del", "tinycloud.kv/list", "tinycloud.kv/metadata"}
  }

  function NormalizedVerb(verb: string): string {
    if verb == "read" || verb == "get" then "get"
    else if verb == "write" || verb == "put" then "put"
    else if verb == "delete" || verb == "del" then "del"
    else verb
  }

  predicate CanonicalAbility(a: string) {
    a in {"tinycloud.kv/get", "tinycloud.kv/put", "tinycloud.kv/del"}
  }

  predicate AllCanonical(abilities: seq<string>) {
    forall i :: 0 <= i < |abilities| ==> CanonicalAbility(abilities[i])
  }

  // ---- the declaration a grant matches ----

  function SecretPath(scope: string, name: string): string {
    "vault/secrets/scoped/" + scope + "/" + name
  }

  predicate DeclaresVerb(d: Declared, verb: string) {
    exists i :: 0 <= i < |d.actions| && NormalizedVerb(Lower(d.actions[i])) == verb
  }

  /** One turn of the loop in findMatchingDeclaredSecret. */
  predicate Matches(g: Grant, d: Declared) {
    && NameShape(d.name) && d.scope.GetOr("") != ""
    && ScopeShape(d.scope.value) && !Reserved(d.scope.value)
    && CanonicalScope(d.scope.value) == Some(d.scope.value)
    && (forall i :: 0 <= i < |d.actions| ==> RecognizedManifestAction(d.actions[i]))
    && g.path == SecretPath(d.scope.value, d.name)
    && forall i :: 0 <= i < |g.abilities| ==> DeclaresVerb(d, VerbOf(g.abilities[i]))
  }

  function FirstMatch(g: Grant, secrets: seq<Declared>): (r: Option<Declared>)
    ensures r.Some? ==> r.value in secrets && Matches(g, r.value)
    ensures r.None? ==> forall d :: d in secrets ==> !Matches(g, d)
  {
    if secrets == [] then None else if Matches(g, secrets[0]) then Some(secrets[0]) else FirstMatch(g, secrets[1..])
  }

  method FindMatchingDeclaredSecret(g: Grant, secrets: seq<Declared>) returns (r: Option<Declared>)
    ensures r == if AllCanonical(g.abilities) then FirstMatch(g, secrets) else None
  {
    for i := 0 to |g.abilities|
      invariant forall k :: 0 <= k < i ==> CanonicalAbility(g.abilities[k])
    {
      if !CanonicalAbility(g.abilities[i]) {
        return None;
      }
    }
    assert secrets[0..] == secrets;
    for i := 0 to |secrets|
      invariant FirstMatch(g, secrets[i..]) == FirstMatch(g, secrets)
    {
      if Matches(g, secrets[i]) {
        return Some(secrets[i]);
      }
      assert secrets[i..][1..] == secrets[i + 1..];
    }
    r := None;
  }

  // ---- fingerprints ----

  function TrimSlashStart(s: string): string {
    if s != "" && s[0] == '/' then TrimSlashStart(s[1..]) else s
  }

  function TrimSlashEnd(s: string): string {
    if s != "" && s[|s| - 1] == '/' then TrimSlashEnd(s[..|s| - 1]) else s
  }

  /** `part` is one or more whole segments of the path. */
  predicate WholeSegments(path: string, part: string) {
    path == part || EndsWith(path, "/" + part) || Has(path, "/" + part + "/") || part + "/" <= path
  }

  predicate NamesFragment(path: string, d: Declared) {
    && d.scope.GetOr("") != "" && NameShape(d.name) && CanonicalScope(d.scope.value).Some?
    && WholeSegments(path, CanonicalScope(d.scope.value).value + "/" + d.name)
  }

  predicate NamesSecret(path: string, d: Declared) {
    NameShape(d.name) && (d.scope.None? || CanonicalScope(d.scope.value).Some?) && WholeSegments(path, d.name)
  }

  predicate PathContainsDeclaredSecretFragment(path: string, secrets: seq<Declared>) {
    path != "" && exists i :: 0 <= i < |secrets| && NamesFragment(TrimSlashEnd(TrimSlashStart(path)), secrets[i])
  }

  predicate PathContainsDeclaredSecretName(path: string, secrets: seq<Declared>) {
    path != "" && exists i :: 0 <= i < |secrets| && NamesSecret(TrimSlashEnd(TrimSlashStart(path)), secrets[i])
  }

  // ---- the annotation gate ----

  predicate KvService(service: string) { service == "tinycloud.kv" || service == "kv" }

  predicate NamedSecretsService(service: string) { service == "tinycloud.secrets" || service == "secrets" }

  predicate MetadataOnly(abilities: seq<string>) {
    abilities != [] && forall i :: 0 <= i < |abilities| ==> VerbOf(abilities[i]) == "list" || VerbOf(abilities[i]) == "metadata"
  }

  function NearMiss(g: Grant): Grant {
    g.(severity := Sensitive, nearMiss := true)
  }

  function Proven(g: Grant, d: Declared): Grant
    requires d.scope.Some?
  {
    g.(severity := Sensitive, appScopedSecret := Some(Secret(d.name, d.scope.value)))
  }

  predicate Candidate(g: Grant, secrets: seq<Declared>) {
    || (KvService(g.service) && (g.family == SecretRead || g.family == SecretMutation))
    || ((KvService(g.service) || NamedSecretsService(g.service)) && PathContainsDeclaredSecretFragment(g.path, secrets))
    || PathContainsDeclaredSecretName(g.path, secrets)
  }

  predicate DeclaredVerbsRecognized(d: Declared) {
    forall i :: 0 <= i < |d.actions| ==>
      RecognizedManifestAction(d.actions[i]) && NormalizedVerb(Lower(d.actions[i])) in {"get", "put", "del"}
  }

  function Annotated(g: Grant, secrets: seq<Declared>, signer: Signer): Grant {
    if MetadataOnly(g.abilities) && !g.serviceMismatch && (IsSecretsSpace(g.space) || NamedSecretsService(g.service)) then g
    else if !Candidate(g, secrets) then g
    else if g.serviceMismatch || !AllCanonical(g.abilities) || g.service != "tinycloud.kv" then NearMiss(g)
    else if g.resourceService.Some? && g.resourceService.value != "kv" then NearMiss(g)
    else if !IsSignerOwnedSecretsSpace(g.space, signer) then NearMiss(g)
    else
      var d := FirstMatch(g, secrets);
      if d.None? || d.value.scope.GetOr("") == "" || !DeclaredVerbsRecognized(d.value) then NearMiss(g) else Proven(g, d.value)
  }

  function AnnotatedGrants(grants: seq<Grant>, secrets: Option<seq<Declared>>, trust: Trust, signer: Signer): (r: seq<Grant>)
    ensures |r| == |grants|
  {
    if secrets.None? || trust == Untrusted then grants
    else seq(|grants|, i requires 0 <= i < |grants| => Annotated(grants[i], secrets.value, signer))
  }

  // ---- the statement gate ----

  datatype Row = AppSecret(text: string) | Fallback | Elsewhere

  predicate Any(abilities: seq<string>, verbs: set<string>) {
    exists i :: 0 <= i < |abilities| && VerbOf(abilities[i]) in verbs
  }

  const READ_VERBS: set<string> := {"read", "get", "peek", "list"}
  const MUTATION_VERBS: set<string> := {"put", "post", "write", "delete", "del", "admin", "grant", "revoke", "update"}
  const DECRYPT_VERBS: set<string> := {"decrypt", "unwrap"}
  const CREATE_VERBS: set<string> := {"create", "network.create"}
  const SCHEMA_VERBS: set<string> := {"schema"}
  const REVOKE_VERBS: set<string> := {"network.revoke"}

  datatype Verbs = Verbs(read: bool, write: bool, decrypt: bool, create: bool, schema: bool, revoke: bool)

  function VerbsOf(abilities: seq<string>): Verbs {
    Verbs(Any(abilities, READ_VERBS), Any(abilities, MUTATION_VERBS), Any(abilities, DECRYPT_VERBS),
          Any(abilities, CREATE_VERBS), Any(abilities, SCHEMA_VERBS), Any(abilities, REVOKE_VERBS))
  }

  /** The sentence of a secret by what may be done with it. */
  function SecretRow(v: Verbs, name: string): Row {
    if v.read && v.write then AppSecret("Read and update the app secret " + name)
    else if v.write && !v.read && !v.decrypt && !v.create && !v.revoke then AppSecret("Update the app secret " + name)
    else if v.read && !v.write && !v.decrypt && !v.create && !v.schema && !v.revoke then AppSecret("Read the app secret " + name)
    else Fallback
  }

  predicate EncryptionService(service: string) { service == "tinycloud.encryption" || service == "encryption" }

  predicate SqlService(service: string) { service == "tinycloud.sql" || service == "sql" }

  predicate KeyDelete(ability: string) {
    ability == "tinycloud.encryption/key.delete" || ability == "encryption/key.delete"
  }

  /** The branches of buildStatement that a KV grant can reach; ConsentRows models the other services. */
  function KvStatement(g: Grant): Row {
    if EncryptionService(g.service) || (exists i :: 0 <= i < |g.abilities| && KeyDelete(g.abilities[i])) then Elsewhere
    else if g.serviceMismatch then Fallback
    else if Any(g.abilities, SCHEMA_VERBS) && (exists i :: 0 <= i < |g.abilities| && VerbOf(g.abilities[i]) != "schema") then Fallback
    else if g.nearMiss then Fallback
    else if SqlService(g.service) && Any(g.abilities, SCHEMA_VERBS) then Elsewhere
    else if g.appScopedSecret.None? then Elsewhere
    else if g.abilities == [] || !AllCanonical(g.abilities) || g.service != "tinycloud.kv" then Fallback
    else if g.resourceService.Some? && g.resourceService.value != "kv" then Fallback
    else if !IsSecretsSpace(g.space) then Fallback
    else
      var s := g.appScopedSecret.value;
      if s.scope != "" && g.path != SecretPath(s.scope, s.name) then Fallback else SecretRow(VerbsOf(g.abilities), s.name)
  }

  /** buildStatements, whose splits (encryption, deletes and SQL schema) are none of a KV grant's. */
  function KvStatements(g: Grant): seq<Row> {
    if EncryptionService(g.service) || (exists i :: 0 <= i < |g.abilities| && KeyDelete(g.abilities[i])) then [Elsewhere]
    else if SqlService(g.service) then [Elsewhere]
    else [KvStatement(g)]
  }

  // ---- the two gates agree ----

  /** A KV grant as the parser builds it: some abilities, all of its own service, nothing annotated yet. */
  predicate ParsedKv(g: Grant) {
    && KvService(g.service) && g.abilities != [] && g.appScopedSecret.None? && !g.nearMiss
    && forall i :: 0 <= i < |g.abilities| ==> g.service + "/" <= g.abilities[i]
  }

  lemma NoKeyDelete(g: Grant, i: nat)
    requires KvService(g.service) && i < |g.abilities| && g.service + "/" <= g.abilities[i]
    ensures !KeyDelete(g.abilities[i])
  {
    assert g.abilities[i][0] == g.service[0];
    assert "encryption/key.delete"[0] == 'e' && "tinycloud.encryption/key.delete"[10] == 'e';
    if g.service == "tinycloud.kv" {
      assert g.abilities[i][10] == (g.service + "/")[10] == 'k';
    }
  }

  lemma KvIsNeither(g: Grant)
    requires ParsedKv(g)
    ensures !EncryptionService(g.service) && !SqlService(g.service)
    ensures !(exists i :: 0 <= i < |g.abilities| && KeyDelete(g.abilities[i]))
  {
    forall i | 0 <= i < |g.abilities|
      ensures !KeyDelete(g.abilities[i])
    {
      NoKeyDelete(g, i);
    }
  }

  lemma OwnedIsSecrets(space: string, signer: Signer)
    requires IsSignerOwnedSecretsSpace(space, signer)
    ensures IsSecretsSpace(space)
  {
  }

  lemma VerbAfter(service: string, verb: string)
    requires '/' !in service
    ensures VerbOf(service + "/" + verb) == verb
  {
    FindAt(service, '/', verb);
    assert (service + "/" + verb)[|service| + 1..] == verb;
  }

  lemma KvHasNoSlash()
    ensures '/' !in "tinycloud.kv"
  {
  }

  lemma KvVerb(ability: string, verb: string)
    requires ability == "tinycloud.kv" + "/" + verb
    ensures VerbOf(ability) == verb
  {
    KvHasNoSlash();
    VerbAfter("tinycloud.kv", verb);
  }

  /** The wire verb of a canonical ability. */
  function WireVerb(a: string): string {
    if a == "tinycloud.kv/get" then "get" else if a == "tinycloud.kv/put" then "put" else "del"
  }

  lemma CanonicalVerb(a: string)
    requires CanonicalAbility(a)
    ensures VerbOf(a) == WireVerb(a)
  {
    assert a == "tinycloud.kv" + "/" + WireVerb(a);
    KvVerb(a, WireVerb(a));
  }

  lemma WireVerbKinds(a: string)
    requires CanonicalAbility(a)
    ensures WireVerb(a) in READ_VERBS <==> a == "tinycloud.kv/get"
    ensures WireVerb(a) in MUTATION_VERBS <==> a != "tinycloud.kv/get"
    ensures WireVerb(a) !in DECRYPT_VERBS && WireVerb(a) !in CREATE_VERBS && WireVerb(a) !in SCHEMA_VERBS
    ensures WireVerb(a) !in REVOKE_VERBS && WireVerb(a) != "schema"
  {
  }

  lemma VerbKinds(a: string)
    requires CanonicalAbility(a)
    ensures VerbOf(a) in READ_VERBS <==> a == "tinycloud.kv/get"
    ensures VerbOf(a) in MUTATION_VERBS <==> a != "tinycloud.kv/get"
    ensures VerbOf(a) !in DECRYPT_VERBS && VerbOf(a) !in CREATE_VERBS && VerbOf(a) !in SCHEMA_VERBS
    ensures VerbOf(a) !in REVOKE_VERBS && VerbOf(a) != "schema"
  {
    CanonicalVerb(a);
    WireVerbKinds(a);
  }

  predicate Reads(abilities: seq<string>) {
    exists i :: 0 <= i < |abilities| && abilities[i] == "tinycloud.kv/get"
  }

  predicate Updates(abilities: seq<string>) {
    exists i :: 0 <= i < |abilities| && abilities[i] != "tinycloud.kv/get"
  }

  lemma NoneOf(abilities: seq<string>, verbs: set<string>)
    requires forall i :: 0 <= i < |abilities| ==> VerbOf(abilities[i]) !in verbs
    ensures !Any(abilities, verbs)
  {
  }

  /** Canonical abilities are reads, writes or both, and nothing else. */
  lemma CanonicalVerbs(abilities: seq<string>)
    requires abilities != [] && AllCanonical(abilities)
    ensures VerbsOf(abilities) == Verbs(Reads(abilities), Updates(abilities), false, false, false, false)
    ensures Reads(abilities) || Updates(abilities)
    ensures forall i :: 0 <= i < |abilities| ==> VerbOf(abilities[i]) != "schema"
  {
    ReadsAndUpdates(abilities);
    OtherVerbs(abilities);
    assert abilities[0] == "tinycloud.kv/get" || abilities[0] != "tinycloud.kv/get";
  }

  lemma ReadsAndUpdates(abilities: seq<string>)
    requires AllCanonical(abilities)
    ensures Any(abilities, READ_VERBS) == Reads(abilities) && Any(abilities, MUTATION_VERBS) == Updates(abilities)
  {
    forall i | 0 <= i < |abilities|
      ensures VerbOf(abilities[i]) in READ_VERBS <==> abilities[i] == "tinycloud.kv/get"
      ensures VerbOf(abilities[i]) in MUTATION_VERBS <==> abilities[i] != "tinycloud.kv/get"
    {
      VerbKinds(abilities[i]);
    }
  }

  lemma OtherVerbs(abilities: seq<string>)
    requires AllCanonical(abilities)
    ensures !Any(abilities, DECRYPT_VERBS) && !Any(abilities, CREATE_VERBS) && !Any(abilities, SCHEMA_VERBS) && !Any(abilities, REVOKE_VERBS)
    ensures forall i :: 0 <= i < |abilities| ==> VerbOf(abilities[i]) != "schema"
  {
    forall i | 0 <= i < |abilities|
      ensures VerbOf(abilities[i]) !in DECRYPT_VERBS && VerbOf(abilities[i]) !in CREATE_VERBS
      ensures VerbOf(abilities[i]) !in SCHEMA_VERBS && VerbOf(abilities[i]) !in REVOKE_VERBS && VerbOf(abilities[i]) != "schema"
    {
      VerbKinds(abilities[i]);
    }
    NoneOf(abilities, DECRYPT_VERBS);
    NoneOf(abilities, CREATE_VERBS);
    NoneOf(abilities, SCHEMA_VERBS);
    NoneOf(abilities, REVOKE_VERBS);
  }

  /** The sentence a proven secret gets. */
  function Sentence(abilities: seq<string>, name: string): string {
    (if Reads(abilities) && Updates(abilities) then "Read and update the app secret "
     else if Updates(abilities) then "Update the app secret " else "Read the app secret ") + name
  }

  lemma SecretRowReads(abilities: seq<string>, name: string)
    requires abilities != [] && AllCanonical(abilities)
    ensures SecretRow(VerbsOf(abilities), name) == AppSecret(Sentence(abilities, name))
  {
    CanonicalVerbs(abilities);
  }

  lemma CanonicalIsNotDelete(ability: string)
    requires CanonicalAbility(ability)
    ensures !KeyDelete(ability)
  {
  }

  lemma NoDeletes(abilities: seq<string>)
    requires AllCanonical(abilities)
    ensures !(exists i :: 0 <= i < |abilities| && KeyDelete(abilities[i]))
  {
    forall i | 0 <= i < |abilities|
      ensures !KeyDelete(abilities[i])
    {
      CanonicalIsNotDelete(abilities[i]);
    }
  }

  lemma KvIsNotEncryption(service: string)
    requires KvService(service)
    ensures !EncryptionService(service) && !SqlService(service)
  {
  }

  /** A grant that carries a proof passes every check the statement makes again. */
  lemma ProofHolds(a: Grant)
    requires KvService(a.service) && a.abilities != [] && a.appScopedSecret.Some? && !a.nearMiss && !a.serviceMismatch
    requires AllCanonical(a.abilities) && a.service == "tinycloud.kv" && IsSecretsSpace(a.space)
    requires a.resourceService.Some? ==> a.resourceService.value == "kv"
    requires a.path == SecretPath(a.appScopedSecret.value.scope, a.appScopedSecret.value.name)
    ensures KvStatement(a) == SecretRow(VerbsOf(a.abilities), a.appScopedSecret.value.name)
  {
    CanonicalVerbs(a.abilities);
    NoDeletes(a.abilities);
    KvIsNotEncryption(a.service);
  }

  /**
   * What a proof means: some declaration of the manifest names this secret
   * and scope, its path is the grant's, it declares every verb the grant has,
   * and the space is the signer's own.
   */
  lemma ProvenIsDeclared(g: Grant, secrets: seq<Declared>, signer: Signer)
    requires g.appScopedSecret.None? && Annotated(g, secrets, signer).appScopedSecret.Some?
    ensures var s := Annotated(g, secrets, signer).appScopedSecret.value;
      && IsSignerOwnedSecretsSpace(g.space, signer) && !g.serviceMismatch && AllCanonical(g.abilities)
      && g.path == SecretPath(s.scope, s.name) && s.scope != "" && !Reserved(s.scope)
      && exists d :: d in secrets && d.name == s.name && d.scope == Some(s.scope)
           && forall i :: 0 <= i < |g.abilities| ==> DeclaresVerb(d, VerbOf(g.abilities[i]))
  {
    var d := FirstMatch(g, secrets);
    assert d.value in secrets && Matches(g, d.value);
  }

  /** Annotation never changes what is granted, never makes it look milder, and never marks a grant both ways. */
  lemma AnnotationKeepsAuthority(g: Grant, secrets: seq<Declared>, signer: Signer)
    requires g.appScopedSecret.None? && !g.nearMiss
    ensures var a := Annotated(g, secrets, signer);
      && g == a.(severity := g.severity, appScopedSecret := None, nearMiss := false)
      && (a.severity == g.severity || a.severity == Sensitive)
      && !(a.appScopedSecret.Some? && a.nearMiss)
  {
  }

  lemma ProvenRenders(g: Grant, secrets: seq<Declared>, signer: Signer)
    requires ParsedKv(g) && Annotated(g, secrets, signer).appScopedSecret.Some?
    ensures var a := Annotated(g, secrets, signer);
      KvStatement(a) == AppSecret(Sentence(g.abilities, a.appScopedSecret.value.name))
  {
    var a := Annotated(g, secrets, signer);
    AnnotationKeepsAuthority(g, secrets, signer);
    ProvenIsDeclared(g, secrets, signer);
    OwnedIsSecrets(g.space, signer);
    assert a.(appScopedSecret := None, severity := g.severity) == g;
    ProofHolds(a);
    SecretRowReads(g.abilities, a.appScopedSecret.value.name);
  }

  lemma NearMissFallsBack(g: Grant, secrets: seq<Declared>, signer: Signer)
    requires ParsedKv(g) && Annotated(g, secrets, signer).nearMiss
    ensures KvStatement(Annotated(g, secrets, signer)) == Fallback
  {
    KvIsNeither(g);
  }

  lemma UnprovenHasNoSecretRow(g: Grant, secrets: seq<Declared>, signer: Signer)
    requires ParsedKv(g) && Annotated(g, secrets, signer).appScopedSecret.None?
    ensures !KvStatement(Annotated(g, secrets, signer)).AppSecret?
  {
  }

  lemma AnnotatedGatesAgree(g: Grant, secrets: seq<Declared>, signer: Signer)
    requires ParsedKv(g)
    ensures var a := Annotated(g, secrets, signer);
      && |KvStatements(a)| == 1
      && (KvStatements(a)[0].AppSecret? <==> a.appScopedSecret.Some?)
      && (a.appScopedSecret.Some? ==>
            KvStatements(a)[0] == AppSecret(Sentence(g.abilities, a.appScopedSecret.value.name)))
      && (a.nearMiss ==> KvStatements(a)[0] == Fallback)
  {
    var a := Annotated(g, secrets, signer);
    KvIsNeither(g);
    if a.appScopedSecret.Some? { ProvenRenders(g, secrets, signer); } else { UnprovenHasNoSecretRow(g, secrets, signer); }
    if a.nearMiss { NearMissFallsBack(g, secrets, signer); }
  }

  /**
   * For every parsed KV grant of a review and every manifest: the review shows
   * one row; it is the app-secret sentence, of the very secret the gate
   * proved, exactly when the gate proved one, which needs a trusted manifest;
   * and a near miss shows the fallback.
   */
  lemma GatesAgree(grants: seq<Grant>, secrets: Option<seq<Declared>>, trust: Trust, signer: Signer, i: nat)
    requires i < |grants| && ParsedKv(grants[i])
    ensures var a := AnnotatedGrants(grants, secrets, trust, signer)[i];
      && |KvStatements(a)| == 1
      && (KvStatements(a)[0].AppSecret? <==> a.appScopedSecret.Some?)
      && (a.appScopedSecret.Some? ==> secrets.Some? && trust != Untrusted)
      && (a.appScopedSecret.Some? ==>
            KvStatements(a)[0] == AppSecret(Sentence(grants[i].abilities, a.appScopedSecret.value.name)))
      && (a.nearMiss ==> KvStatements(a)[0] == Fallback)
  {
    KvIsNeither(grants[i]);
    if secrets.Some? && trust != Untrusted { AnnotatedGatesAgree(grants[i], secrets.value, signer); }
  }
}
