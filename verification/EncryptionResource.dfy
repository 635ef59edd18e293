/**
 * Encryption resource URNs: the strict grammar, and which granted resource
 * covers which requested one.
 */
module EncryptionResource {
  import opened Wrappers
  import opened Search

  const PREFIX: string := "urn:tinycloud:encryption:"
  const MAX_KEY_PATH: nat := 255

  datatype Resource =
    | Network(owner: string, network: string)
    | Key(owner: string, network: string, path: string)
    | Prefix(owner: string, network: string, path: string)  // the path keeps its trailing slash

  // ---- the grammar ----

  predicate LowerOrDigit(c: char) { 'a' <= c <= 'z' || '0' <= c <= '9' }

  predicate OwnerChar(c: char) {
    LowerOrDigit(c) || 'A' <= c <= 'Z' || c == '.' || c == '_' || c == ':' || c == '-'
  }

  predicate NetworkChar(c: char) { LowerOrDigit(c) || c == '-' }

  predicate SegmentChar(c: char) { LowerOrDigit(c) || c == '.' || c == '_' || c == '-' }

  /** `did:[a-z0-9]+:[A-Za-z0-9._:-]+` */
  predicate OwnerOk(s: string) {
    && "did:" <= s
    && var rest := s[4..];
       var colon := Find(rest, ':');
       && 0 < colon < |rest| - 1
       && (forall i :: 0 <= i < colon ==> LowerOrDigit(rest[i]))
       && (forall i :: colon < i < |rest| ==> OwnerChar(rest[i]))
  }

  /** `[a-z0-9][a-z0-9-]*` */
  predicate NetworkOk(s: string) {
    s != "" && LowerOrDigit(s[0]) && forall i :: 0 <= i < |s| ==> NetworkChar(s[i])
  }

  /** `[a-z0-9][a-z0-9._-]{0,63}` */
  predicate SegmentOk(s: string) {
    1 <= |s| <= 64 && LowerOrDigit(s[0]) && forall i :: 0 <= i < |s| ==> SegmentChar(s[i])
  }

  function Segments(path: string): (r: seq<string>)
    ensures r != []
  {
    var slash := Find(path, '/');
    if slash == |path| then [path] else [path[..slash]] + Segments(path[slash + 1..])
  }

  /** One to eight segments between slashes. */
  predicate SegmentsOk(path: string) {
    |Segments(path)| <= 8 && forall i :: 0 <= i < |Segments(path)| ==> SegmentOk(Segments(path)[i])
  }

  predicate PathOk(path: string) {
    SegmentsOk(path) && |path| <= MAX_KEY_PATH
  }

  /** The last `:` of a string, with the length for none. */
  function LastColon(s: string): (i: nat)
    ensures i <= |s| && (i < |s| ==> s[i] == ':' && ':' !in s[i + 1..])
    ensures i == |s| ==> ':' !in s
  {
    if s == "" then 0
    else if s[|s| - 1] == ':' then |s| - 1
    else
      var i := LastColon(s[..|s| - 1]);
      if i == |s| - 1 then
        assert s == s[..|s| - 1] + [s[|s| - 1]];
        |s|
      else
        assert s[i + 1..] == s[..|s| - 1][i + 1..] + [s[|s| - 1]];
        i
  }

  /** `^(OWNER):(NETWORK)$`: the network has no colon, so the last one splits. */
  function SplitHead(head: string): Option<(string, string)> {
    var colon := LastColon(head);
    if colon < |head| && OwnerOk(head[..colon]) && NetworkOk(head[colon + 1..])
    then Some((head[..colon], head[colon + 1..])) else None
  }

  datatype Parts = Parts(owner: string, network: string, path: string)

  /** `^(OWNER):(NETWORK)/(PATH)$`: owner and network have no slash, so the first one splits. */
  function KeyParts(keyBody: string): Option<Parts> {
    var slash := Find(keyBody, '/');
    if slash == |keyBody| then None
    else
      var head, path := SplitHead(keyBody[..slash]), keyBody[slash + 1..];
      if head.None? || !PathOk(path) then None else Some(Parts(head.value.0, head.value.1, path))
  }

  function ParseBody(body: string): Option<Resource> {
    if Find(body, '/') == |body| then
      var head := SplitHead(body);
      if head.None? then None else Some(Network(head.value.0, head.value.1))
    else if body[|body| - 1] == '/' then
      var parts := KeyParts(body[..|body| - 1]);
      if parts.None? then None else Some(Prefix(parts.value.owner, parts.value.network, parts.value.path + "/"))
    else
      var parts := KeyParts(body);
      if parts.None? then None else Some(Key(parts.value.owner, parts.value.network, parts.value.path))
  }

  function Parse(uri: string): Option<Resource> {
    if PREFIX <= uri then ParseBody(uri[|PREFIX|..]) else None
  }

  function PrintBody(r: Resource): string {
    match r
    case Network(o, n) => o + ":" + n
    case Key(o, n, p) => o + ":" + n + "/" + p
    case Prefix(o, n, p) => o + ":" + n + "/" + p
  }

  function Print(r: Resource): string {
    PREFIX + PrintBody(r)
  }

  predicate Valid(r: Resource) {
    && OwnerOk(r.owner) && NetworkOk(r.network)
    && match r
       case Network(_, _) => true
       case Key(_, _, p) => PathOk(p)
       case Prefix(_, _, p) => p != "" && p[|p| - 1] == '/' && PathOk(p[..|p| - 1])
  }

  // ---- parsing and printing invert each other ----

  lemma {:induction false} LastColonAt(a: string, b: string)
    requires ':' !in b
    ensures LastColon(a + ":" + b) == |a|
  {
    var s := a + ":" + b;
    if b != "" {
      var b' := b[..|b| - 1];
      assert b == b' + [b[|b| - 1]];
      LastColonAt(a, b');
      assert s[..|s| - 1] == a + ":" + b';
    }
  }

  lemma HeadHasNoSlash(o: string, n: string)
    requires OwnerOk(o) && NetworkOk(n)
    ensures '/' !in o + ":" + n && ':' !in n
  {
    forall i | 0 <= i < |o|
      ensures o[i] != '/'
    {
      assert i >= 4 ==> o[i] == o[4..][i - 4];
    }
  }

  lemma HeadSplits(o: string, n: string)
    requires OwnerOk(o) && NetworkOk(n)
    ensures SplitHead(o + ":" + n) == Some((o, n))
  {
    HeadHasNoSlash(o, n);
    LastColonAt(o, n);
    assert (o + ":" + n)[..|o|] == o && (o + ":" + n)[|o| + 1..] == n;
  }

  lemma SplitHeadPrints(head: string)
    requires SplitHead(head).Some?
    ensures head == SplitHead(head).value.0 + ":" + SplitHead(head).value.1
  {
  }

  /** A valid path is not empty and does not end in a slash. */
  lemma {:induction false} PathEnd(path: string)
    requires forall i :: 0 <= i < |Segments(path)| ==> SegmentOk(Segments(path)[i])
    ensures path != "" && path[|path| - 1] != '/'
  {
    var slash := Find(path, '/');
    if slash == |path| {
      assert Segments(path)[0] == path;
      assert path == path[..slash];
    } else {
      var rest := path[slash + 1..];
      forall i | 0 <= i < |Segments(rest)|
        ensures SegmentOk(Segments(rest)[i])
      {
        assert Segments(path)[i + 1] == Segments(rest)[i];
      }
      PathEnd(rest);
    }
  }

  lemma KeyPartsPrint(keyBody: string)
    requires KeyParts(keyBody).Some?
    ensures var k := KeyParts(keyBody).value;
      keyBody == k.owner + ":" + k.network + "/" + k.path && OwnerOk(k.owner) && NetworkOk(k.network) && PathOk(k.path)
  {
    var slash := Find(keyBody, '/');
    SplitHeadPrints(keyBody[..slash]);
    assert keyBody == keyBody[..slash] + "/" + keyBody[slash + 1..];
  }

  lemma PartsParse(o: string, n: string, p: string)
    requires OwnerOk(o) && NetworkOk(n) && PathOk(p)
    ensures KeyParts(o + ":" + n + "/" + p) == Some(Parts(o, n, p))
    ensures Find(o + ":" + n + "/" + p, '/') < |o + ":" + n + "/" + p|
  {
    var head := o + ":" + n;
    HeadSplits(o, n);
    HeadHasNoSlash(o, n);
    FindAt(head, '/', p);
    assert (head + "/" + p)[..|head|] == head && (head + "/" + p)[|head| + 1..] == p;
  }

  lemma KeyPrintsBack(body: string)
    requires Find(body, '/') < |body| && body[|body| - 1] != '/' && ParseBody(body).Some?
    ensures Valid(ParseBody(body).value) && PrintBody(ParseBody(body).value) == body
  {
    KeyPartsPrint(body);
  }

  lemma PrefixPrintsBack(front: string)
    requires Find(front + "/", '/') < |front + "/"| && KeyParts(front).Some?
    ensures ParseBody(front + "/").Some?
    ensures Valid(ParseBody(front + "/").value) && PrintBody(ParseBody(front + "/").value) == front + "/"
  {
    var parts := KeyParts(front).value;
    FinalSlash(front);
    KeyPartsPrint(front);
    assert (parts.path + "/")[..|parts.path|] == parts.path;
    var head := parts.owner + ":" + parts.network + "/";
    assert head + (parts.path + "/") == head + parts.path + "/";
  }

  lemma BodyPrintsBack(body: string)
    requires ParseBody(body).Some?
    ensures Valid(ParseBody(body).value) && PrintBody(ParseBody(body).value) == body
  {
    if Find(body, '/') == |body| {
      SplitHeadPrints(body);
    } else if body[|body| - 1] == '/' {
      assert body == body[..|body| - 1] + "/";
      PrefixPrintsBack(body[..|body| - 1]);
    } else {
      KeyPrintsBack(body);
    }
  }

  lemma NetworkParses(o: string, n: string)
    requires OwnerOk(o) && NetworkOk(n)
    ensures ParseBody(o + ":" + n) == Some(Network(o, n))
  {
    HeadSplits(o, n);
    HeadHasNoSlash(o, n);
    FindAt(o + ":" + n, '/', "");
  }

  lemma KeyParses(o: string, n: string, p: string)
    requires OwnerOk(o) && NetworkOk(n) && PathOk(p)
    ensures ParseBody(o + ":" + n + "/" + p) == Some(Key(o, n, p))
  {
    PartsParse(o, n, p);
    PathEnd(p);
  }

  /** A body with a final slash is a prefix whose path, without that slash, is the rest's. */
  lemma FinalSlash(front: string)
    requires KeyParts(front).Some? && Find(front + "/", '/') < |front + "/"|
    ensures var parts := KeyParts(front).value;
      ParseBody(front + "/") == Some(Prefix(parts.owner, parts.network, parts.path + "/"))
  {
    assert (front + "/")[..|front + "/"| - 1] == front;
  }

  lemma PrefixParses(o: string, n: string, q: string)
    requires OwnerOk(o) && NetworkOk(n) && PathOk(q)
    ensures ParseBody(o + ":" + n + "/" + q + "/") == Some(Prefix(o, n, q + "/"))
  {
    var head := o + ":" + n;
    PartsParse(o, n, q);
    HeadHasNoSlash(o, n);
    FindAt(head, '/', q + "/");
    assert head + "/" + (q + "/") == head + "/" + q + "/";
    FinalSlash(head + "/" + q);
  }

  lemma PrefixCase(o: string, n: string, p: string)
    requires Valid(Prefix(o, n, p))
    ensures ParseBody(o + ":" + n + "/" + p) == Some(Prefix(o, n, p))
  {
    var q := p[..|p| - 1];
    PrefixParses(o, n, q);
    assert p == q + "/";
    assert o + ":" + n + "/" + p == o + ":" + n + "/" + q + "/";
  }

  lemma BodyParsesBack(r: Resource)
    requires Valid(r)
    ensures ParseBody(PrintBody(r)) == Some(r)
  {
    match r
    case Network(o, n) => NetworkParses(o, n);
    case Key(o, n, p) => KeyParses(o, n, p);
    case Prefix(o, n, p) => PrefixCase(o, n, p);
  }

  /** Parsing then printing gives the URN back. */
  lemma ParsePrintsBack(uri: string)
    requires Parse(uri).Some?
    ensures Valid(Parse(uri).value) && Print(Parse(uri).value) == uri
  {
    BodyPrintsBack(uri[|PREFIX|..]);
    assert uri == PREFIX + uri[|PREFIX|..];
  }

  /** Printing then parsing gives the resource back. */
  lemma PrintParsesBack(r: Resource)
    requires Valid(r)
    ensures Parse(Print(r)) == Some(r)
  {
    BodyParsesBack(r);
    assert (PREFIX + PrintBody(r))[|PREFIX|..] == PrintBody(r);
  }

  // ---- containment ----

  predicate Contains(granted: string, requested: string) {
    var g, r := Parse(granted), Parse(requested);
    if g.None? || r.None? then false
    else if g.value.owner != r.value.owner || g.value.network != r.value.network then false
    else if g.value.Network? || r.value.Network? then g.value.Network? && r.value.Network?
    else if g.value.Key? then r.value.Key? && r.value.path == g.value.path
    else g.value.path <= r.value.path
  }

  /** The keys a granted key or prefix reaches; a network by itself reaches none. */
  predicate Reaches(g: Resource, key: Resource)
    requires key.Key?
  {
    && !g.Network? && g.owner == key.owner && g.network == key.network
    && (if g.Key? then g.path == key.path else g.path <= key.path)
  }

  lemma ContainsIsReflexive(uri: string)
    ensures Contains(uri, uri) <==> Parse(uri).Some?
  {
  }

  lemma ContainsIsTransitive(a: string, b: string, c: string)
    requires Contains(a, b) && Contains(b, c)
    ensures Contains(a, c)
  {
  }

  /** Two URNs that cover each other are the same text. */
  lemma ContainsIsAntisymmetric(a: string, b: string)
    requires Contains(a, b) && Contains(b, a)
    ensures a == b
  {
    ParsePrintsBack(a);
    ParsePrintsBack(b);
    var r, s := Parse(a).value, Parse(b).value;
    if r.Key? { PathEnd(r.path); }
    if s.Key? { PathEnd(s.path); }
  }

  /** A covered resource reaches no key its grant does not; a covered key is exactly a reached one. */
  lemma ContainsIsSound(granted: string, requested: string, key: Resource)
    requires Parse(granted).Some? && Parse(requested).Some? && key.Key?
    ensures Contains(granted, requested) && Reaches(Parse(requested).value, key) ==> Reaches(Parse(granted).value, key)
    ensures Parse(requested).value == key ==> (Contains(granted, requested) <==> Reaches(Parse(granted).value, key))
  {
  }

  // ---- the key-resource grammar ----

  /** Under `apps` a path needs some segments more. */
  predicate PathValid(path: string, underApps: nat) {
    |path| <= MAX_KEY_PATH && SegmentsOk(path) && (Segments(path)[0] != "apps" || |Segments(path)| >= underApps)
  }

  predicate IsKeyPath(path: string) { PathValid(path, 3) }

  predicate IsPrefixPath(path: string) {
    path != "" && path[|path| - 1] == '/' && PathValid(path[..|path| - 1], 2)
  }

  predicate PrefixCovers(prefix: string, key: string) {
    IsPrefixPath(prefix) && IsKeyPath(key) && prefix <= key
  }

  /** On paths both grammars accept, the two coverage tests agree, whoever owns the network. */
  lemma CoverageTestsAgree(owner: string, network: string, prefix: string, key: string)
    requires OwnerOk(owner) && NetworkOk(network) && IsPrefixPath(prefix) && IsKeyPath(key)
    ensures PrefixCovers(prefix, key) <==>
      Contains(Print(Prefix(owner, network, prefix)), Print(Key(owner, network, key)))
  {
    PrintParsesBack(Prefix(owner, network, prefix));
    PrintParsesBack(Key(owner, network, key));
  }
}
