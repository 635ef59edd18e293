/**
 * Which consent rows a grant becomes, and which of its actions each row
 * speaks for. Rows carry a kind instead of their wording.
 *
 * Deletions of keys are split off first, each to a row of its own; then a grant
 * on one named key goes action by action, key actions leave decryption, and
 * `schema` leaves the other table actions. Grants under `apps/` have their own
 * rows, one for each of five abilities in a fixed order.
 */
module ConsentRows {
  import opened Wrappers
  import opened Search
  import AppScope
  import EncryptionResource

  /** Whether the resource is under `apps/`, and whether it parses as a key or prefix there. */
  datatype AppsKey = NotApps | Unparsed | Parsed

  datatype View = NoUrn | InvalidUrn | NetworkUrn | KeyUrn

  /**
   * What the row building asks of a grant besides its actions: `apps` for the
   * grant as given, `canonicalApps` for its canonical form, and whether the
   * copy tables have words for a lone named-key action (`namedKeyWords`), for
   * a schema-only row (`schemaWords`) and for the rest (`words`).
   */
  datatype Facts = Facts(
    service: string,
    serviceMismatch: bool,
    nearMiss: bool,
    appScoped: bool,
    apps: AppsKey,
    canonicalApps: AppsKey,
    view: View,
    namedKeyWords: string -> bool,
    schemaWords: bool,
    words: seq<string> -> bool)

  datatype Kind = AppKey(name: AppName) | KeyDelete | NamedKey | SchemaOnly | Words | Fallback

  datatype Row = Row(kind: Kind, abilities: seq<string>)

  // ---- actions ----

  datatype AppName = KeyCreate | Decrypt | KeyBlock | KeyUnblock | KeyDelete

  /** The order of the app key rows. */
  const APP_KEY_ABILITIES: seq<AppName> := [KeyCreate, Decrypt, KeyBlock, KeyUnblock, AppName.KeyDelete]

  function NameText(name: AppName): string {
    match name
    case KeyCreate => "key.create"
    case Decrypt => "decrypt"
    case KeyBlock => "key.block"
    case KeyUnblock => "key.unblock"
    case KeyDelete => "key.delete"
  }

  predicate Names(ability: string, verb: string) {
    ability == "tinycloud.encryption/" + verb || ability == "encryption/" + verb
  }

  /** The app key ability a wire ability names, in either namespace. */
  function AppKeyAbility(ability: string): Option<AppName> {
    if Names(ability, NameText(KeyCreate)) then Some(KeyCreate)
    else if Names(ability, NameText(Decrypt)) then Some(Decrypt)
    else if Names(ability, NameText(KeyBlock)) then Some(KeyBlock)
    else if Names(ability, NameText(KeyUnblock)) then Some(KeyUnblock)
    else if Names(ability, NameText(AppName.KeyDelete)) then Some(AppName.KeyDelete)
    else None
  }

  predicate IsSchema(ability: string) { AppScope.VerbOf(ability) == "schema" }

  predicate KeyAction(ability: string) {
    "tinycloud.encryption/key." <= ability || "encryption/key." <= ability
  }

  predicate EncryptionRecognized(ability: string) {
    AppKeyAbility(ability).Some? || Names(ability, "network.create") || Names(ability, "network.revoke")
  }

  predicate SqlRecognized(ability: string) {
    ability in {"tinycloud.sql/read", "sql/read", "tinycloud.sql/write", "sql/write", "tinycloud.sql/schema", "sql/schema"}
  }

  function Keep(s: seq<string>, p: string -> bool): (r: seq<string>)
    ensures forall i :: 0 <= i < |r| ==> p(r[i])
  {
    if s == [] then [] else if p(s[0]) then [s[0]] + Keep(s[1..], p) else Keep(s[1..], p)
  }

  function Reject(s: seq<string>, p: string -> bool): (r: seq<string>)
    ensures forall i :: 0 <= i < |r| ==> !p(r[i])
  {
    if s == [] then [] else if p(s[0]) then Reject(s[1..], p) else [s[0]] + Reject(s[1..], p)
  }

  lemma {:induction false} KeepReject(s: seq<string>, p: string -> bool)
    ensures multiset(Keep(s, p)) + multiset(Reject(s, p)) == multiset(s)
    ensures |Keep(s, p)| + |Reject(s, p)| == |s|
  {
    if s != [] {
      KeepReject(s[1..], p);
      assert s == [s[0]] + s[1..];
    }
  }

  function Each(abilities: seq<string>, f: string -> Row): (r: seq<Row>)
    ensures |r| == |abilities| && forall i :: 0 <= i < |r| ==> r[i] == f(abilities[i])
  {
    seq(|abilities|, i requires 0 <= i < |abilities| => f(abilities[i]))
  }

  // ---- rows ----

  function Named(name: AppName): string -> bool {
    (a: string) => AppKeyAbility(a) == Some(name)
  }

  /** One row for each of the names that some action carries. */
  function NamedRows(abilities: seq<string>, names: seq<AppName>): seq<Row>
    decreases |names|
  {
    if names == [] then []
    else
      var mine := Keep(abilities, Named(names[0]));
      (if mine == [] then [] else [Row(AppKey(names[0]), mine)]) + NamedRows(Reject(abilities, Named(names[0])), names[1..])
  }

  /** The actions that carry none of the names. */
  function Unnamed(abilities: seq<string>, names: seq<AppName>): seq<string>
    decreases |names|
  {
    if names == [] then abilities else Unnamed(Reject(abilities, Named(names[0])), names[1..])
  }

  function SingleRow(ability: string): Row {
    Row(if AppScope.KeyDelete(ability) then Kind.KeyDelete else Fallback, [ability])
  }

  /** appKeyStatements; None for every other grant. */
  function AppKeyRows(f: Facts, apps: AppsKey, abilities: seq<string>): Option<seq<Row>> {
    if !AppScope.EncryptionService(f.service) || f.serviceMismatch || apps == NotApps then None
    else if apps == Unparsed then Some(Each(abilities, SingleRow))
    else
      var rows := NamedRows(abilities, APP_KEY_ABILITIES);
      var unrecognised := Unnamed(abilities, APP_KEY_ABILITIES);
      if rows == [] || unrecognised != [] then Some(rows + [Row(Fallback, unrecognised)]) else Some(rows)
  }

  /** buildStatement: one row for all the actions given. */
  function BuildStatement(f: Facts, apps: AppsKey, abilities: seq<string>): Row {
    var appRows := AppKeyRows(f, apps, abilities);
    if appRows.Some? && appRows.value != [] then appRows.value[0]
    else if exists i :: 0 <= i < |abilities| && AppScope.KeyDelete(abilities[i]) then
      Row(if |abilities| == 1 then Kind.KeyDelete else Fallback, abilities)
    else if f.view == InvalidUrn || f.serviceMismatch then Row(Fallback, abilities)
    else if f.view == KeyUrn then Row(if |abilities| == 1 && f.namedKeyWords(abilities[0]) then NamedKey else Fallback, abilities)
    else if Mixed(abilities) || f.nearMiss then Row(Fallback, abilities)
    else if SchemaOnlyWords(f, abilities) then Row(SchemaOnly, abilities)
    else Row(if f.words(abilities) then Words else Fallback, abilities)
  }

  predicate Mixed(abilities: seq<string>) {
    (exists i :: 0 <= i < |abilities| && IsSchema(abilities[i])) && (exists i :: 0 <= i < |abilities| && !IsSchema(abilities[i]))
  }

  predicate SchemaOnlyWords(f: Facts, abilities: seq<string>) {
    && AppScope.SqlService(f.service) && f.schemaWords && abilities != []
    && forall i :: 0 <= i < |abilities| ==> SqlRecognized(abilities[i]) && IsSchema(abilities[i])
  }

  predicate SplitsKeys(f: Facts, abilities: seq<string>) {
    && AppScope.EncryptionService(f.service) && !f.serviceMismatch
    && Keep(abilities, KeyAction) != [] && |Keep(abilities, KeyAction)| < |abilities|
    && forall i :: 0 <= i < |abilities| ==> EncryptionRecognized(abilities[i])
  }

  predicate SplitsSchema(f: Facts, abilities: seq<string>) {
    && Keep(abilities, IsSchema) != [] && Reject(abilities, IsSchema) != []
    && AppScope.SqlService(f.service) && !f.serviceMismatch && !f.nearMiss && !f.appScoped
    && (forall i :: 0 <= i < |abilities| ==> SqlRecognized(abilities[i])) && f.schemaWords
  }

  function Deletes(abilities: seq<string>): seq<string> {
    Keep(abilities, AppScope.KeyDelete)
  }

  function Others(abilities: seq<string>): (r: seq<string>)
    ensures multiset(Deletes(abilities)) + multiset(r) == multiset(abilities) && |Deletes(abilities)| + |r| == |abilities|
  {
    KeepReject(abilities, AppScope.KeyDelete);
    Reject(abilities, AppScope.KeyDelete)
  }

  /** buildStatements: a delete has a row of its own, and neither key actions nor `schema` share a row of words. */
  function BuildStatements(f: Facts, abilities: seq<string>): seq<Row>
    decreases |abilities|
  {
    if AppKeyRows(f, f.apps, abilities).Some? then AppKeyRows(f, f.apps, abilities).value
    else if Deletes(abilities) != [] then
      (if Others(abilities) != [] then BuildStatements(f, Others(abilities)) else [])
      + Each(Deletes(abilities), (a: string) => BuildStatement(f, f.apps, [a]))
    else Undeleted(f, abilities)
  }

  /** The rows of a grant without deletes. */
  function Undeleted(f: Facts, abilities: seq<string>): seq<Row> {
    if f.view == InvalidUrn then [BuildStatement(f, f.apps, abilities)]
    else if f.view == KeyUrn && |abilities| > 1 then
      Each(abilities, (a: string) => BuildStatement(f, f.canonicalApps, [a]))
    else if SplitsKeys(f, abilities) then
      [BuildStatement(f, f.canonicalApps, Reject(abilities, KeyAction)),
       BuildStatement(f, f.canonicalApps, Keep(abilities, KeyAction))]
    else if SplitsSchema(f, abilities) then
      [BuildStatement(f, f.canonicalApps, Reject(abilities, IsSchema)),
       BuildStatement(f, f.canonicalApps, Keep(abilities, IsSchema))]
    else [BuildStatement(f, f.canonicalApps, abilities)]
  }

  // ---- every action is in exactly one row ----

  function Spoken(rows: seq<Row>): multiset<string> {
    if rows == [] then multiset{} else multiset(rows[0].abilities) + Spoken(rows[1..])
  }

  lemma {:induction false} SpokenAppend(a: seq<Row>, b: seq<Row>)
    ensures Spoken(a + b) == Spoken(a) + Spoken(b)
  {
    if a == [] {
      assert a + b == b;
    } else {
      SpokenAppend(a[1..], b);
      assert a + b == [a[0]] + (a[1..] + b);
      FrontSpeaks(a[0], a[1..] + b);
      SumsAssociate(multiset(a[0].abilities), Spoken(a[1..]), Spoken(b));
    }
  }

  lemma SumsAssociate(a: multiset<string>, b: multiset<string>, c: multiset<string>)
    ensures a + (b + c) == a + b + c
  {
  }

  /**
   * The canonical form of a grant is under `apps/` only for a key or prefix
   * URN; every other canonical resource is the one the grant came with.
   */
  predicate Possible(f: Facts) {
    f.view != KeyUrn ==> f.canonicalApps == f.apps
  }

  lemma {:induction false} EachSpeaks(abilities: seq<string>, rows: seq<Row>)
    requires |rows| == |abilities| && forall i :: 0 <= i < |rows| ==> rows[i].abilities == [abilities[i]]
    ensures Spoken(rows) == multiset(abilities)
  {
    if rows != [] {
      EachSpeaks(abilities[1..], rows[1..]);
      assert abilities == [abilities[0]] + abilities[1..];
    }
  }

  /** A lone action's row speaks for it. */
  lemma LoneRow(f: Facts, apps: AppsKey, ability: string)
    ensures BuildStatement(f, apps, [ability]).abilities == [ability]
  {
    if AppKeyRows(f, apps, [ability]).Some? {
      AppKeyRowsSpeak(f, apps, [ability]);
      var rows := AppKeyRows(f, apps, [ability]).value;
      FirstSpeaks(rows, ability);
    }
  }

  lemma FirstSpeaks(rows: seq<Row>, ability: string)
    requires rows != [] && rows[0].abilities != [] && Spoken(rows) == multiset{ability}
    ensures rows[0].abilities == [ability]
  {
    var first := multiset(rows[0].abilities);
    assert first <= multiset{ability} && |first| == |rows[0].abilities|;
    assert rows[0].abilities[0] in first;
    assert |first| <= 1;
  }

  lemma {:induction false} NamedRowsSpeak(abilities: seq<string>, names: seq<AppName>)
    ensures Spoken(NamedRows(abilities, names)) + multiset(Unnamed(abilities, names)) == multiset(abilities)
    decreases |names|
  {
    if names != [] {
      var mine, rest := Keep(abilities, Named(names[0])), Reject(abilities, Named(names[0]));
      var rows, left := NamedRows(rest, names[1..]), Unnamed(rest, names[1..]);
      NamedRowsSpeak(rest, names[1..]);
      KeepReject(abilities, Named(names[0]));
      if mine == [] {
        assert NamedRows(abilities, names) == rows;
      } else {
        FrontSpeaks(Row(AppKey(names[0]), mine), rows);
      }
      SumsAssociate(multiset(mine), Spoken(rows), multiset(left));
    }
  }

  lemma {:induction false} NamedRowsNotEmpty(abilities: seq<string>, names: seq<AppName>)
    ensures forall i :: 0 <= i < |NamedRows(abilities, names)| ==> NamedRows(abilities, names)[i].abilities != []
    decreases |names|
  {
    if names != [] {
      NamedRowsNotEmpty(Reject(abilities, Named(names[0])), names[1..]);
    }
  }

  lemma FrontSpeaks(row: Row, rows: seq<Row>)
    ensures Spoken([row] + rows) == multiset(row.abilities) + Spoken(rows)
  {
    assert ([row] + rows)[1..] == rows;
  }

  lemma AppKeyRowsSpeak(f: Facts, apps: AppsKey, abilities: seq<string>)
    requires AppKeyRows(f, apps, abilities).Some?
    ensures Spoken(AppKeyRows(f, apps, abilities).value) == multiset(abilities)
    ensures abilities != [] ==>
      AppKeyRows(f, apps, abilities).value != [] && AppKeyRows(f, apps, abilities).value[0].abilities != []
  {
    if apps == Unparsed {
      EachSpeaks(abilities, Each(abilities, SingleRow));
    } else {
      ParsedRowsSpeak(abilities);
    }
  }

  lemma ParsedRowsSpeak(abilities: seq<string>)
    ensures var rows, rest := NamedRows(abilities, APP_KEY_ABILITIES), Unnamed(abilities, APP_KEY_ABILITIES);
      && Spoken(rows + [Row(Fallback, rest)]) == multiset(abilities)
      && (rest == [] ==> Spoken(rows) == multiset(abilities))
      && (rows == [] ==> multiset(rest) == multiset(abilities))
      && (abilities != [] && rows == [] ==> rest != [])
      && (rows != [] ==> rows[0].abilities != [])
  {
    var rows, rest := NamedRows(abilities, APP_KEY_ABILITIES), Unnamed(abilities, APP_KEY_ABILITIES);
    NamedRowsSpeak(abilities, APP_KEY_ABILITIES);
    NamedRowsNotEmpty(abilities, APP_KEY_ABILITIES);
    SpokenAppend(rows, [Row(Fallback, rest)]);
    FrontSpeaks(Row(Fallback, rest), []);
    assert [Row(Fallback, rest)] + [] == [Row(Fallback, rest)];
    if abilities != [] && rows == [] {
      assert abilities[0] in multiset(abilities);
    }
  }

  /** The rows of a grant speak for each of its actions exactly once. */
  lemma {:induction false} RowsConserveActions(f: Facts, abilities: seq<string>)
    requires Possible(f)
    ensures Spoken(BuildStatements(f, abilities)) == multiset(abilities)
    decreases |abilities|
  {
    if AppKeyRows(f, f.apps, abilities).Some? {
      AppKeyRowsSpeak(f, f.apps, abilities);
    } else if Deletes(abilities) != [] {
      var rows := if Others(abilities) != [] then BuildStatements(f, Others(abilities)) else [];
      var lone := Each(Deletes(abilities), (a: string) => BuildStatement(f, f.apps, [a]));
      if Others(abilities) != [] { RowsConserveActions(f, Others(abilities)); }
      LoneRowsSpeak(f, f.apps, Deletes(abilities), lone);
      SpokenAppend(rows, lone);
    } else {
      UndeletedConserve(f, abilities);
    }
  }

  lemma LoneRowsSpeak(f: Facts, apps: AppsKey, abilities: seq<string>, rows: seq<Row>)
    requires |rows| == |abilities| && forall i :: 0 <= i < |rows| ==> rows[i] == BuildStatement(f, apps, [abilities[i]])
    ensures Spoken(rows) == multiset(abilities)
  {
    forall i | 0 <= i < |rows|
      ensures rows[i].abilities == [abilities[i]]
    {
      LoneRow(f, apps, abilities[i]);
    }
    EachSpeaks(abilities, rows);
  }

  lemma WholeRow(f: Facts, apps: AppsKey, abilities: seq<string>)
    requires AppKeyRows(f, apps, abilities).None? || |abilities| <= 1
    ensures Spoken([BuildStatement(f, apps, abilities)]) == multiset(abilities)
  {
    var row := BuildStatement(f, apps, abilities);
    FrontSpeaks(row, []);
    assert [row] + [] == [row];
    if |abilities| == 1 {
      LoneRow(f, apps, abilities[0]);
      assert abilities == [abilities[0]];
    } else if AppKeyRows(f, apps, abilities).Some? {
      AppKeyRowsSpeak(f, apps, abilities);
      var rows := AppKeyRows(f, apps, abilities).value;
      if rows != [] {
        FrontSpeaks(rows[0], rows[1..]);
        assert rows == [rows[0]] + rows[1..];
      }
    }
  }

  lemma TwoRows(f: Facts, abilities: seq<string>, p: string -> bool)
    requires f.canonicalApps == f.apps && forall s :: AppKeyRows(f, f.apps, s).None?
    ensures Spoken([BuildStatement(f, f.canonicalApps, Reject(abilities, p)), BuildStatement(f, f.canonicalApps, Keep(abilities, p))])
         == multiset(abilities)
  {
    var a, b := BuildStatement(f, f.canonicalApps, Reject(abilities, p)), BuildStatement(f, f.canonicalApps, Keep(abilities, p));
    WholeRow(f, f.canonicalApps, Reject(abilities, p));
    WholeRow(f, f.canonicalApps, Keep(abilities, p));
    KeepReject(abilities, p);
    SpokenAppend([a], [b]);
    assert [a] + [b] == [a, b];
  }

  lemma UndeletedConserve(f: Facts, abilities: seq<string>)
    requires Possible(f) && AppKeyRows(f, f.apps, abilities).None?
    ensures Spoken(Undeleted(f, abilities)) == multiset(abilities)
  {
    assert forall s :: AppKeyRows(f, f.apps, s).None?;
    if f.view == InvalidUrn {
      WholeRow(f, f.apps, abilities);
    } else if f.view == KeyUrn && |abilities| > 1 {
      LoneRowsSpeak(f, f.canonicalApps, abilities, Undeleted(f, abilities));
    } else if SplitsKeys(f, abilities) {
      KeepReject(abilities, KeyAction);
      TwoRows(f, abilities, KeyAction);
    } else if SplitsSchema(f, abilities) {
      KeepReject(abilities, IsSchema);
      TwoRows(f, abilities, IsSchema);
    } else {
      WholeRow(f, f.canonicalApps, abilities);
    }
  }

  // ---- the facts of a grant ----

  datatype Wire = Wire(service: string, space: string, path: string, resourceService: Option<string>)

  /** The resource as the wire spelled it. */
  function ResourceOf(w: Wire): string {
    var service := w.resourceService.GetOr("");
    w.space + (if service != "" then "/" + service else "") + (if w.path != "" then "/" + w.path else "")
  }

  /** An encryption resource, in any letter case, whose first path segment is `apps`. */
  predicate IsAppsKeyResource(uri: string) {
    && |EncryptionResource.PREFIX| <= |uri|
    && AppScope.Lower(uri[..|EncryptionResource.PREFIX|]) == EncryptionResource.PREFIX
    && var rest := uri[|EncryptionResource.PREFIX|..];
       var slash := Find(rest, '/');
       && slash < |rest|
       && var path := rest[slash + 1..];
          AppScope.Lower(path[..Find(path, '/')]) == "apps"
  }

  /** `parses` stands for parseKeyResource. */
  function AppsOf(uri: string, parses: string -> bool): AppsKey {
    if !IsAppsKeyResource(uri) then NotApps else if parses(uri) then Parsed else Unparsed
  }

  /** canonicalEncryptionUrn: the view of the grant, and the grant its rows are built from. */
  function CanonicalEncryptionUrn(w: Wire): (View, Wire) {
    var service := w.resourceService.GetOr("");
    var inSpace, inPath := EncryptionResource.PREFIX <= w.space, EncryptionResource.PREFIX <= w.path;
    var inService := EncryptionResource.PREFIX <= service;
    if !AppScope.EncryptionService(w.service) || (!inSpace && !inPath && !inService) then (NoUrn, w)
    else
      var resource := if inSpace then w.space else if inPath then w.path else service;
      var shapeOk := !inService && service == "" && (if inSpace then !inPath else w.space == "encryption");
      var parsed := if shapeOk then EncryptionResource.Parse(resource) else None;
      if parsed.None? then (InvalidUrn, w)
      else if inSpace && w.path != "" && !parsed.value.Network? then (InvalidUrn, w)
      else
        (if parsed.value.Network? then NetworkUrn else KeyUrn,
         w.(space := resource, path := if inSpace then w.path else "", resourceService := None))
  }

  /** The facts of a grant, with what other modules say of it in `rest`. */
  function FactsOf(w: Wire, parses: string -> bool, rest: Facts): Facts {
    var canonical := CanonicalEncryptionUrn(w);
    rest.(service := w.service, apps := AppsOf(ResourceOf(w), parses), view := canonical.0,
          canonicalApps := AppsOf(ResourceOf(canonical.1), parses))
  }

  lemma NetworkHasNoPath(uri: string)
    requires EncryptionResource.Parse(uri).Some? && EncryptionResource.Parse(uri).value.Network?
    ensures !IsAppsKeyResource(uri)
  {
  }

  lemma BareServiceIsNotApps(path: string)
    ensures !IsAppsKeyResource("encryption" + "/" + path)
  {
    var uri := "encryption" + "/" + path;
    if |EncryptionResource.PREFIX| <= |uri| {
      assert AppScope.Lower(uri[..|EncryptionResource.PREFIX|])[0] == 'e';
      assert EncryptionResource.PREFIX[0] == 'u';
    }
  }

  lemma CanonicalResource(w: Wire)
    requires CanonicalEncryptionUrn(w).0 == NetworkUrn
    ensures ResourceOf(CanonicalEncryptionUrn(w).1) == ResourceOf(w)
      || (w.space == "encryption" && w.resourceService.GetOr("") == "" && w.path != ""
          && ResourceOf(CanonicalEncryptionUrn(w).1) == w.path
          && EncryptionResource.Parse(w.path).Some? && EncryptionResource.Parse(w.path).value.Network?)
  {
  }

  lemma CanonicalKeepsApps(w: Wire, parses: string -> bool)
    requires CanonicalEncryptionUrn(w).0 != KeyUrn
    ensures AppsOf(ResourceOf(CanonicalEncryptionUrn(w).1), parses) == AppsOf(ResourceOf(w), parses)
  {
    if CanonicalEncryptionUrn(w).0 == NetworkUrn {
      CanonicalResource(w);
      if ResourceOf(CanonicalEncryptionUrn(w).1) != ResourceOf(w) {
        NetworkHasNoPath(w.path);
        BareServiceIsNotApps(w.path);
        assert ResourceOf(w) == "encryption" + "/" + w.path;
      }
    }
  }

  /** Whatever a grant is spelled like: each of its actions is in exactly one of its rows, once. */
  lemma EveryGrantConserves(w: Wire, parses: string -> bool, rest: Facts, abilities: seq<string>)
    ensures Spoken(BuildStatements(FactsOf(w, parses, rest), abilities)) == multiset(abilities)
  {
    if CanonicalEncryptionUrn(w).0 != KeyUrn { CanonicalKeepsApps(w, parses); }
    RowsConserveActions(FactsOf(w, parses, rest), abilities);
  }

  // ---- what may share a row ----

  predicate HasDelete(abilities: seq<string>) {
    exists i :: 0 <= i < |abilities| && AppScope.KeyDelete(abilities[i])
  }

  /** A row that is never offered for approval and speaks for deletes alone. */
  predicate RefusedRow(row: Row) {
    && (row.kind == Kind.KeyDelete || row.kind == AppKey(AppName.KeyDelete))
    && forall i :: 0 <= i < |row.abilities| ==> AppScope.KeyDelete(row.abilities[i])
  }

  predicate RowOk(row: Row) {
    (Mixed(row.abilities) ==> row.kind == Fallback) && (HasDelete(row.abilities) ==> RefusedRow(row))
  }

  predicate RowsOk(rows: seq<Row>) {
    forall i :: 0 <= i < |rows| ==> RowOk(rows[i])
  }

  lemma SlashlessServices()
    ensures '/' !in "tinycloud.encryption" && '/' !in "encryption"
  {
  }

  lemma NamedVerb(ability: string, verb: string)
    requires Names(ability, verb)
    ensures AppScope.VerbOf(ability) == verb
  {
    SlashlessServices();
    AppScope.VerbAfter("tinycloud.encryption", verb);
    AppScope.VerbAfter("encryption", verb);
    assert "tinycloud.encryption/" == "tinycloud.encryption" + "/" && "encryption/" == "encryption" + "/";
  }

  /** An app key ability is not `schema`, and is the delete exactly when it is named so. */
  lemma AppKeyVerbs(ability: string)
    ensures AppKeyAbility(ability).Some? ==> !IsSchema(ability)
    ensures AppScope.KeyDelete(ability) <==> AppKeyAbility(ability) == Some(AppName.KeyDelete)
  {
    if AppKeyAbility(ability).Some? {
      NamedVerb(ability, NameText(AppKeyAbility(ability).value));
    }
    DeleteNames(ability);
  }

  lemma DeleteNames(ability: string)
    ensures AppScope.KeyDelete(ability) <==> Names(ability, "key.delete")
  {
    assert "tinycloud.encryption/" + "key.delete" == "tinycloud.encryption/key.delete";
    assert "encryption/" + "key.delete" == "encryption/key.delete";
  }

  lemma NamedRowOk(name: AppName, mine: seq<string>)
    requires forall i :: 0 <= i < |mine| ==> AppKeyAbility(mine[i]) == Some(name)
    ensures RowOk(Row(AppKey(name), mine))
  {
    forall i | 0 <= i < |mine|
      ensures !IsSchema(mine[i]) && (AppScope.KeyDelete(mine[i]) <==> name == AppName.KeyDelete)
    {
      AppKeyVerbs(mine[i]);
    }
  }

  lemma {:induction false} NamedRowsOk(abilities: seq<string>, names: seq<AppName>)
    ensures RowsOk(NamedRows(abilities, names))
    decreases |names|
  {
    if names != [] {
      NamedRowOk(names[0], Keep(abilities, Named(names[0])));
      NamedRowsOk(Reject(abilities, Named(names[0])), names[1..]);
    }
  }

  lemma {:induction false} UnnamedHaveNone(abilities: seq<string>, names: seq<AppName>)
    ensures forall i :: 0 <= i < |Unnamed(abilities, names)| ==>
      Unnamed(abilities, names)[i] in abilities && AppKeyAbility(Unnamed(abilities, names)[i]) !in Somes(names)
    decreases |names|
  {
    if names != [] {
      var rest := Reject(abilities, Named(names[0]));
      UnnamedHaveNone(rest, names[1..]);
      KeepReject(abilities, Named(names[0]));
      forall i | 0 <= i < |Unnamed(abilities, names)|
        ensures Unnamed(abilities, names)[i] in abilities
        ensures AppKeyAbility(Unnamed(abilities, names)[i]) !in Somes(names)
      {
        var a := Unnamed(abilities, names)[i];
        assert a in rest && a in multiset(rest) && a in multiset(abilities);
        var k :| 0 <= k < |rest| && rest[k] == a;
        assert !Named(names[0])(rest[k]);
      }
    }
  }

  function Somes(names: seq<AppName>): set<Option<AppName>> {
    if names == [] then {} else {Some(names[0])} + Somes(names[1..])
  }

  lemma UnrecognisedHasNoDelete(abilities: seq<string>)
    ensures !HasDelete(Unnamed(abilities, APP_KEY_ABILITIES))
  {
    UnnamedHaveNone(abilities, APP_KEY_ABILITIES);
    AllNames();
    forall i | 0 <= i < |Unnamed(abilities, APP_KEY_ABILITIES)|
      ensures !AppScope.KeyDelete(Unnamed(abilities, APP_KEY_ABILITIES)[i])
    {
      AppKeyVerbs(Unnamed(abilities, APP_KEY_ABILITIES)[i]);
    }
  }

  lemma AllNames()
    ensures Some(AppName.KeyDelete) in Somes(APP_KEY_ABILITIES)
  {
    var names := APP_KEY_ABILITIES;
    assert names[1..][1..][1..][1..][0] == AppName.KeyDelete;
    assert Some(AppName.KeyDelete) in Somes(names[1..][1..][1..][1..]);
  }

  lemma SingleRowOk(ability: string)
    ensures RowOk(SingleRow(ability))
  {
  }

  lemma {:induction false} RowsOkAppend(rows: seq<Row>, row: Row)
    requires RowsOk(rows) && RowOk(row)
    ensures RowsOk(rows + [row])
  {
  }

  lemma ParsedRowsOk(abilities: seq<string>)
    ensures RowsOk(NamedRows(abilities, APP_KEY_ABILITIES))
    ensures RowOk(Row(Fallback, Unnamed(abilities, APP_KEY_ABILITIES)))
  {
    NamedRowsOk(abilities, APP_KEY_ABILITIES);
    UnrecognisedHasNoDelete(abilities);
  }

  lemma AppKeyRowsOk(f: Facts, apps: AppsKey, abilities: seq<string>)
    requires AppKeyRows(f, apps, abilities).Some?
    ensures RowsOk(AppKeyRows(f, apps, abilities).value)
  {
    if apps == Unparsed {
      SinglesOk(abilities);
    } else {
      ParsedRowsOk(abilities);
      RowsOkAppend(NamedRows(abilities, APP_KEY_ABILITIES), Row(Fallback, Unnamed(abilities, APP_KEY_ABILITIES)));
    }
  }

  lemma SinglesOk(abilities: seq<string>)
    ensures RowsOk(Each(abilities, SingleRow))
  {
    forall i | 0 <= i < |abilities|
      ensures RowOk(Each(abilities, SingleRow)[i])
    {
      SingleRowOk(abilities[i]);
    }
  }

  /** buildStatement on a lone action, or on actions without deletes. */
  lemma StatementOk(f: Facts, apps: AppsKey, abilities: seq<string>)
    requires |abilities| <= 1 || !HasDelete(abilities)
    ensures RowOk(BuildStatement(f, apps, abilities))
  {
    var appRows := AppKeyRows(f, apps, abilities);
    if appRows.Some? && appRows.value != [] {
      AppKeyRowsOk(f, apps, abilities);
    } else if HasDelete(abilities) {
      LoneDeleteOk(abilities);
    } else if Mixed(abilities) {
      MixedFallsBack(f, apps, abilities);
    } else {
      StatementSpeaks(f, apps, abilities);
    }
  }

  lemma LoneDeleteOk(abilities: seq<string>)
    requires HasDelete(abilities) && |abilities| == 1
    ensures RowOk(Row(Kind.KeyDelete, abilities))
  {
    assert abilities == [abilities[0]];
  }

  lemma MixedFallsBack(f: Facts, apps: AppsKey, abilities: seq<string>)
    requires Mixed(abilities) && !HasDelete(abilities)
    requires AppKeyRows(f, apps, abilities).None? || AppKeyRows(f, apps, abilities).value == []
    ensures BuildStatement(f, apps, abilities) == Row(Fallback, abilities)
  {
    assert |abilities| != 1;
  }

  lemma StatementSpeaks(f: Facts, apps: AppsKey, abilities: seq<string>)
    requires AppKeyRows(f, apps, abilities).None? || AppKeyRows(f, apps, abilities).value == []
    ensures BuildStatement(f, apps, abilities).abilities == abilities
  {
  }

  lemma SubsetHasNoDelete(abilities: seq<string>, p: string -> bool)
    requires !HasDelete(abilities)
    ensures !HasDelete(Keep(abilities, p)) && !HasDelete(Reject(abilities, p))
  {
    KeepReject(abilities, p);
    forall a | a in Keep(abilities, p) || a in Reject(abilities, p)
      ensures !AppScope.KeyDelete(a)
    {
      assert a in multiset(Keep(abilities, p)) || a in multiset(Reject(abilities, p));
      assert a in multiset(abilities);
    }
  }

  /**
   * In every row list a grant becomes: `schema` shares a row with another
   * action only in a fallback row, and a row with a key deletion is never
   * approvable and speaks for nothing else.
   */
  lemma {:induction false} RowsSeparateSchemaAndDeletes(f: Facts, abilities: seq<string>)
    ensures RowsOk(BuildStatements(f, abilities))
    decreases |abilities|
  {
    if AppKeyRows(f, f.apps, abilities).Some? {
      AppKeyRowsOk(f, f.apps, abilities);
    } else if Deletes(abilities) != [] {
      if Others(abilities) != [] { RowsSeparateSchemaAndDeletes(f, Others(abilities)); }
      LoneRowsOk(f, f.apps, Deletes(abilities), Each(Deletes(abilities), (a: string) => BuildStatement(f, f.apps, [a])));
    } else {
      NoDeletesKept(abilities);
      UndeletedOk(f, abilities);
    }
  }

  lemma WholeRowOk(f: Facts, apps: AppsKey, abilities: seq<string>)
    requires !HasDelete(abilities)
    ensures RowsOk([BuildStatement(f, apps, abilities)])
  {
    StatementOk(f, apps, abilities);
  }

  lemma TwoRowsOk(f: Facts, apps: AppsKey, abilities: seq<string>, p: string -> bool)
    requires !HasDelete(abilities)
    ensures RowsOk([BuildStatement(f, apps, Reject(abilities, p)), BuildStatement(f, apps, Keep(abilities, p))])
  {
    SubsetHasNoDelete(abilities, p);
    StatementOk(f, apps, Reject(abilities, p));
    StatementOk(f, apps, Keep(abilities, p));
  }

  lemma LoneRowsOk(f: Facts, apps: AppsKey, abilities: seq<string>, rows: seq<Row>)
    requires |rows| == |abilities| && forall i :: 0 <= i < |rows| ==> rows[i] == BuildStatement(f, apps, [abilities[i]])
    ensures RowsOk(rows)
  {
    forall i | 0 <= i < |rows|
      ensures RowOk(rows[i])
    {
      StatementOk(f, apps, [abilities[i]]);
    }
  }

  lemma UndeletedOk(f: Facts, abilities: seq<string>)
    requires !HasDelete(abilities)
    ensures RowsOk(Undeleted(f, abilities))
  {
    if f.view == InvalidUrn {
      WholeRowOk(f, f.apps, abilities);
    } else if f.view == KeyUrn && |abilities| > 1 {
      LoneRowsOk(f, f.canonicalApps, abilities, Undeleted(f, abilities));
    } else if SplitsKeys(f, abilities) {
      TwoRowsOk(f, f.canonicalApps, abilities, KeyAction);
    } else if SplitsSchema(f, abilities) {
      TwoRowsOk(f, f.canonicalApps, abilities, IsSchema);
    } else {
      WholeRowOk(f, f.canonicalApps, abilities);
    }
  }

  lemma {:induction false} NoDeletesKept(abilities: seq<string>)
    requires Deletes(abilities) == []
    ensures !HasDelete(abilities)
  {
    if abilities != [] {
      NoDeletesKept(abilities[1..]);
      forall i | 0 <= i < |abilities|
        ensures !AppScope.KeyDelete(abilities[i])
      {
        if i > 0 { assert abilities[i] == abilities[1..][i - 1]; }
      }
    }
  }
}
