/**
 * The canonical key of a caveat: JSON text with object keys sorted at every
 * level. Strings are UTF-16 code units; a number is the text JSON.stringify
 * gives it.
 */
module CanonicalJson {
  import opened Bytes

  type Text = seq<Unit>

  datatype Json =
    | Null
    | Bool(value: bool)
    | Num(text: Text)
    | Str(units: Text)
    | Arr(items: seq<Json>)
    | Obj(fields: seq<Field>)

  datatype Field = Field(name: Text, value: Json)

  // ---- what a value means: objects are maps ----

  datatype Value =
    | VNull
    | VBool(value: bool)
    | VNum(text: Text)
    | VStr(units: Text)
    | VArr(items: seq<Value>)
    | VObj(fields: map<Text, Value>)

  function Meaning(v: Json): Value {
    match v
    case Null => VNull
    case Bool(b) => VBool(b)
    case Num(t) => VNum(t)
    case Str(s) => VStr(s)
    case Arr(items) => VArr(Meanings(items))
    case Obj(fields) => VObj(FieldMeanings(fields))
  }

  function Meanings(items: seq<Json>): (r: seq<Value>)
    ensures |r| == |items|
    ensures forall i :: 0 <= i < |items| ==> r[i] == Meaning(items[i])
  {
    if items == [] then [] else [Meaning(items[0])] + Meanings(items[1..])
  }

  function FieldMeanings(fields: seq<Field>): map<Text, Value> {
    if fields == [] then map[] else FieldMeanings(fields[1..])[fields[0].name := Meaning(fields[0].value)]
  }

  predicate NumUnit(u: Unit) {
    0x30 <= u <= 0x39 || u == 0x2B || u == 0x2D || u == 0x2E || u == 0x65
  }

  predicate Distinct(fields: seq<Field>) {
    forall i, j :: 0 <= i < j < |fields| ==> fields[i].name != fields[j].name
  }

  /** What JSON.parse can produce: numbers have a number's text, an object's keys differ. */
  predicate Valid(v: Json) {
    match v
    case Num(t) => t != [] && forall i :: 0 <= i < |t| ==> NumUnit(t[i])
    case Arr(items) => forall i :: 0 <= i < |items| ==> Valid(items[i])
    case Obj(fields) => Distinct(fields) && forall i :: 0 <= i < |fields| ==> Valid(fields[i].value)
    case _ => true
  }

  // ---- sorting ----

  /** Lexicographic order on code units, the order of `sort()`. */
  predicate Below(a: Text, b: Text) {
    b != [] && (a == [] || a[0] < b[0] || (a[0] == b[0] && Below(a[1..], b[1..])))
  }

  lemma {:induction false} BelowIsTotal(a: Text, b: Text)
    ensures a == b || Below(a, b) || Below(b, a)
    ensures !(Below(a, b) && Below(b, a)) && (Below(a, b) ==> a != b)
  {
    if a != [] && b != [] {
      BelowIsTotal(a[1..], b[1..]);
      assert a == [a[0]] + a[1..] && b == [b[0]] + b[1..];
    }
  }

  lemma {:induction false} BelowIsTransitive(a: Text, b: Text, c: Text)
    requires Below(a, b) && Below(b, c)
    ensures Below(a, c)
  {
    if a != [] && a[0] == b[0] == c[0] {
      BelowIsTransitive(a[1..], b[1..], c[1..]);
    }
  }

  function Insert(f: Field, sorted: seq<Field>): seq<Field> {
    if sorted == [] || Below(f.name, sorted[0].name) then [f] + sorted else [sorted[0]] + Insert(f, sorted[1..])
  }

  function SortFields(fields: seq<Field>): seq<Field> {
    if fields == [] then [] else Insert(fields[0], SortFields(fields[1..]))
  }

  // ---- the key ----

  /** Keys sorted at every level. */
  function Canon(v: Json): Json {
    match v
    case Arr(items) => Arr(CanonItems(items))
    case Obj(fields) => Obj(SortFields(CanonFields(fields)))
    case _ => v
  }

  function CanonItems(items: seq<Json>): (r: seq<Json>)
    ensures |r| == |items|
    ensures forall i :: 0 <= i < |items| ==> r[i] == Canon(items[i])
  {
    if items == [] then [] else [Canon(items[0])] + CanonItems(items[1..])
  }

  function CanonFields(fields: seq<Field>): (r: seq<Field>)
    ensures |r| == |fields|
    ensures forall i :: 0 <= i < |fields| ==> r[i] == Field(fields[i].name, Canon(fields[i].value))
  {
    if fields == [] then [] else [Field(fields[0].name, Canon(fields[0].value))] + CanonFields(fields[1..])
  }

  predicate IsHigh(u: Unit) { 0xD800 <= u < 0xDC00 }

  predicate IsLow(u: Unit) { 0xDC00 <= u < 0xE000 }

  /** One code unit inside a JSON string; a surrogate is escaped unless it is half of a pair. */
  function QuoteUnit(u: Unit): Text {
    if u == 0x22 || u == 0x5C then [0x5C, u]
    else if u == 0x08 then [0x5C, 0x62]
    else if u == 0x09 then [0x5C, 0x74]
    else if u == 0x0A then [0x5C, 0x6E]
    else if u == 0x0C then [0x5C, 0x66]
    else if u == 0x0D then [0x5C, 0x72]
    else if u < 0x20 || IsHigh(u) || IsLow(u) then HexEscape(u)
    else [u]
  }

  function Quote(s: Text): Text {
    if s == [] then [0x22]
    else if IsHigh(s[0]) && |s| > 1 && IsLow(s[1]) then [s[0], s[1]] + Quote(s[2..])
    else QuoteUnit(s[0]) + Quote(s[1..])
  }

  /** JSON.stringify of a value whose keys are in order. */
  function Write(v: Json): Text {
    match v
    case Null => [0x6E, 0x75, 0x6C, 0x6C]
    case Bool(b) => if b then [0x74, 0x72, 0x75, 0x65] else [0x66, 0x61, 0x6C, 0x73, 0x65]
    case Num(t) => t
    case Str(s) => [0x22] + Quote(s)
    case Arr(items) => [0x5B] + WriteItems(items)
    case Obj(fields) => [0x7B] + WriteFields(fields)
  }

  /** The items, each after the first with a comma ahead, and the closing bracket. */
  function WriteItems(items: seq<Json>): Text {
    if items == [] then [0x5D] else Write(items[0]) + MoreItems(items[1..])
  }

  function MoreItems(items: seq<Json>): Text {
    if items == [] then [0x5D] else [0x2C] + Write(items[0]) + MoreItems(items[1..])
  }

  function WriteFields(fields: seq<Field>): Text {
    if fields == [] then [0x7D] else WriteField(fields[0]) + MoreFields(fields[1..])
  }

  function MoreFields(fields: seq<Field>): Text {
    if fields == [] then [0x7D] else [0x2C] + WriteField(fields[0]) + MoreFields(fields[1..])
  }

  function WriteField(f: Field): Text {
    [0x22] + Quote(f.name) + [0x3A] + Write(f.value)
  }

  function CanonicalJsonKey(v: Json): Text {
    Write(Canon(v))
  }

  // ---- the text determines the value ----

  datatype Read = Read(unit: Unit, length: nat)

  /** The code unit at the front of the inside of a JSON string. */
  function ReadUnit(t: Text): (r: Read)
    requires t != []
    ensures r.length > 0
  {
    if t[0] != 0x5C || |t| < 2 then Read(t[0], 1)
    else if t[1] == 0x62 then Read(0x08, 2)
    else if t[1] == 0x74 then Read(0x09, 2)
    else if t[1] == 0x6E then Read(0x0A, 2)
    else if t[1] == 0x66 then Read(0x0C, 2)
    else if t[1] == 0x72 then Read(0x0D, 2)
    else if t[1] == 0x75 && |t| >= 6 then
      Read(HexValue(t[2]) * 4096 + HexValue(t[3]) * 256 + HexValue(t[4]) * 16 + HexValue(t[5]), 6)
    else Read(t[1], 2)
  }

  lemma HexEscapeReads(u: Unit, rest: Text)
    ensures ReadUnit(HexEscape(u) + rest) == Read(u, 6)
  {
    var high: int := u / 16 / 16;
    HexDigitReads(high / 16);
    HexDigitReads(high % 16);
    HexDigitReads(u / 16 % 16);
    HexDigitReads(u % 16);
    HexParts(u);
  }

  lemma QuoteUnitReads(u: Unit, rest: Text)
    ensures ReadUnit(QuoteUnit(u) + rest) == Read(u, |QuoteUnit(u)|)
    ensures QuoteUnit(u)[0] != 0x22
  {
    if u < 0x20 || IsHigh(u) || IsLow(u) {
      HexEscapeReads(u, rest);
    }
  }

  lemma Cancel(a: Text, x: Text, y: Text)
    requires a + x == a + y
    ensures x == y
  {
    assert (a + x)[|a|..] == x && (a + y)[|a|..] == y;
  }

  datatype Unquoted = Unquoted(units: Text, rest: Text)

  function ReadQuote(t: Text): Unquoted {
    if t == [] then Unquoted([], [])
    else if t[0] == 0x22 then Unquoted([], t[1..])
    else
      var u := ReadUnit(t);
      if u.length > |t| then Unquoted([], [])
      else
        var more := ReadQuote(t[u.length..]);
        Unquoted([u.unit] + more.units, more.rest)
  }

  lemma PairReads(a: Unit, b: Unit, rest: Text)
    requires IsHigh(a) && IsLow(b)
    ensures var t, more := [a, b] + rest, ReadQuote(rest);
      ReadQuote(t) == Unquoted([a, b] + more.units, more.rest)
  {
    var t := [a, b] + rest;
    assert t[1..] == [b] + rest && t[1..][1..] == rest;
    assert [a] + ([b] + ReadQuote(rest).units) == [a, b] + ReadQuote(rest).units;
  }

  lemma UnitReads(u: Unit, rest: Text)
    ensures var t, more := QuoteUnit(u) + rest, ReadQuote(rest);
      ReadQuote(t) == Unquoted([u] + more.units, more.rest)
  {
    QuoteUnitReads(u, rest);
    assert (QuoteUnit(u) + rest)[|QuoteUnit(u)|..] == rest;
  }

  lemma Reassociate(a: Text, b: Text, c: Text)
    ensures a + b + c == a + (b + c)
  {
  }

  lemma QuotePair(s: Text, rest: Text)
    requires |s| > 1 && IsHigh(s[0]) && IsLow(s[1]) && ReadQuote(Quote(s[2..]) + rest) == Unquoted(s[2..], rest)
    ensures ReadQuote(Quote(s) + rest) == Unquoted(s, rest)
  {
    PairReads(s[0], s[1], Quote(s[2..]) + rest);
    Reassociate([s[0], s[1]], Quote(s[2..]), rest);
    assert s == [s[0], s[1]] + s[2..];
  }

  lemma QuoteOne(s: Text, rest: Text)
    requires s != [] && !(IsHigh(s[0]) && |s| > 1 && IsLow(s[1]))
    requires ReadQuote(Quote(s[1..]) + rest) == Unquoted(s[1..], rest)
    ensures ReadQuote(Quote(s) + rest) == Unquoted(s, rest)
  {
    UnitReads(s[0], Quote(s[1..]) + rest);
    Reassociate(QuoteUnit(s[0]), Quote(s[1..]), rest);
    assert s == [s[0]] + s[1..];
  }

  /** A quoted string and what follows it are told apart. */
  lemma {:induction false} QuoteReads(s: Text, rest: Text)
    ensures ReadQuote(Quote(s) + rest) == Unquoted(s, rest)
    decreases |s|
  {
    if s == [] {
      assert ([0x22] + rest)[1..] == rest;
    } else if IsHigh(s[0]) && |s| > 1 && IsLow(s[1]) {
      QuoteReads(s[2..], rest);
      QuotePair(s, rest);
    } else {
      QuoteReads(s[1..], rest);
      QuoteOne(s, rest);
    }
  }

  /** Text that cannot continue a value: a comma, a closing bracket or brace, or nothing. */
  predicate Ends(rest: Text) {
    rest == [] || rest[0] == 0x2C || rest[0] == 0x5D || rest[0] == 0x7D
  }

  /** Two texts that start with values and agree. */
  predicate Agree(v: Json, r: Text, w: Json, q: Text) {
    Valid(v) && Valid(w) && Ends(r) && Ends(q) && Write(v) + r == Write(w) + q
  }

  lemma StartsAs(v: Json, r: Text)
    requires Valid(v)
    ensures Write(v) + r != [] && !Ends(Write(v) + r)
    ensures v.Null? <==> (Write(v) + r)[0] == 0x6E
    ensures v.Bool? <==> (Write(v) + r)[0] == 0x74 || (Write(v) + r)[0] == 0x66
    ensures v.Num? <==> NumUnit((Write(v) + r)[0])
    ensures v.Str? <==> (Write(v) + r)[0] == 0x22
    ensures v.Arr? <==> (Write(v) + r)[0] == 0x5B
    ensures v.Obj? <==> (Write(v) + r)[0] == 0x7B
  {
  }

  lemma NumberGoesOn(t: Text, r: Text, u: Text, q: Text)
    requires (forall i :: 0 <= i < |u| ==> NumUnit(u[i])) && t + r == u + q
    ensures |t| < |u| ==> r != [] && NumUnit(r[0])
  {
    if |t| < |u| {
      assert r[0] == (t + r)[|t|] == (u + q)[|t|] == u[|t|];
    }
  }

  lemma NumbersDiffer(t: Text, r: Text, u: Text, q: Text)
    requires (forall i :: 0 <= i < |t| ==> NumUnit(t[i])) && (forall i :: 0 <= i < |u| ==> NumUnit(u[i]))
    requires Ends(r) && Ends(q) && t + r == u + q
    ensures t == u && r == q
  {
    NumberGoesOn(t, r, u, q);
    NumberGoesOn(u, q, t, r);
    assert |t| == |u|;
    assert (t + r)[..|t|] == t && (u + q)[..|u|] == u;
    Cancel(t, r, q);
  }

  lemma Opened(open: Unit, a: Text, r: Text, b: Text, q: Text)
    requires [open] + a + r == [open] + b + q
    ensures a + r == b + q
  {
    assert [open] + a + r == [open] + (a + r) && [open] + b + q == [open] + (b + q);
    Cancel([open], a + r, b + q);
  }

  lemma MoreItemsEnds(items: seq<Json>, r: Text)
    ensures Ends(MoreItems(items) + r)
  {
  }

  lemma {:induction false} WriteIsInjective(v: Json, r: Text, w: Json, q: Text)
    requires Agree(v, r, w, q)
    ensures v == w && r == q
    decreases v, 0
  {
    StartsAs(v, r);
    StartsAs(w, q);
    match v
    case Null =>
      Cancel(Write(v), r, q);
    case Bool(b) =>
      Cancel(Write(v), r, q);
    case Num(t) =>
      NumbersDiffer(t, r, w.text, q);
    case Str(s) =>
      Opened(0x22, Quote(s), r, Quote(w.units), q);
      QuoteReads(s, r);
      QuoteReads(w.units, q);
    case Arr(items) =>
      Opened(0x5B, WriteItems(items), r, WriteItems(w.items), q);
      ItemsAreInjective(items, r, w.items, q);
    case Obj(fields) =>
      Opened(0x7B, WriteFields(fields), r, WriteFields(w.fields), q);
      FieldsAreInjective(fields, r, w.fields, q);
  }

  predicate ValidItems(items: seq<Json>) {
    forall i :: 0 <= i < |items| ==> Valid(items[i])
  }

  lemma {:induction false} ItemsAreInjective(a: seq<Json>, r: Text, b: seq<Json>, q: Text)
    requires ValidItems(a) && ValidItems(b) && WriteItems(a) + r == WriteItems(b) + q
    ensures a == b && r == q
    decreases a, 1
  {
    if a != [] { FirstItem(a, r); }
    if b != [] { FirstItem(b, q); }
    if a == [] || b == [] {
      Cancel([0x5D], r, q);
    } else {
      WriteIsInjective(a[0], MoreItems(a[1..]) + r, b[0], MoreItems(b[1..]) + q);
      MoreAreInjective(a[1..], r, b[1..], q);
      assert a == [a[0]] + a[1..] && b == [b[0]] + b[1..];
    }
  }

  lemma FirstItem(a: seq<Json>, r: Text)
    requires a != [] && ValidItems(a)
    ensures WriteItems(a) + r == Write(a[0]) + (MoreItems(a[1..]) + r)
    ensures Ends(MoreItems(a[1..]) + r) && !Ends(WriteItems(a) + r)
  {
    MoreItemsEnds(a[1..], r);
    StartsAs(a[0], MoreItems(a[1..]) + r);
    assert Write(a[0]) + MoreItems(a[1..]) + r == Write(a[0]) + (MoreItems(a[1..]) + r);
  }

  lemma {:induction false} MoreAreInjective(a: seq<Json>, r: Text, b: seq<Json>, q: Text)
    requires ValidItems(a) && ValidItems(b) && MoreItems(a) + r == MoreItems(b) + q
    ensures a == b && r == q
    decreases a, 1
  {
    assert a == [] <==> (MoreItems(a) + r)[0] == 0x5D;
    assert b == [] <==> (MoreItems(b) + q)[0] == 0x5D;
    if a == [] || b == [] {
      Cancel([0x5D], r, q);
    } else {
      NextItem(a, r);
      NextItem(b, q);
      Cancel([0x2C], Write(a[0]) + (MoreItems(a[1..]) + r), Write(b[0]) + (MoreItems(b[1..]) + q));
      WriteIsInjective(a[0], MoreItems(a[1..]) + r, b[0], MoreItems(b[1..]) + q);
      MoreAreInjective(a[1..], r, b[1..], q);
      assert a == [a[0]] + a[1..] && b == [b[0]] + b[1..];
    }
  }

  lemma NextItem(a: seq<Json>, r: Text)
    requires a != []
    ensures MoreItems(a) + r == [0x2C] + (Write(a[0]) + (MoreItems(a[1..]) + r))
    ensures Ends(MoreItems(a[1..]) + r)
  {
    assert [0x2C] + Write(a[0]) + MoreItems(a[1..]) + r == [0x2C] + (Write(a[0]) + (MoreItems(a[1..]) + r));
  }

  predicate ValidFields(fields: seq<Field>) {
    forall i :: 0 <= i < |fields| ==> Valid(fields[i].value)
  }

  /** A field and what follows it, in the order they are read. */
  lemma FieldReads(f: Field, r: Text)
    ensures WriteField(f) + r == [0x22] + (Quote(f.name) + ([0x3A] + (Write(f.value) + r)))
  {
  }

  lemma FieldIsInjective(f: Field, r: Text, g: Field, q: Text)
    requires WriteField(f) + r == WriteField(g) + q
    ensures f.name == g.name && Write(f.value) + r == Write(g.value) + q
  {
    var x, y := [0x3A] + (Write(f.value) + r), [0x3A] + (Write(g.value) + q);
    FieldReads(f, r);
    FieldReads(g, q);
    Cancel([0x22], Quote(f.name) + x, Quote(g.name) + y);
    QuoteReads(f.name, x);
    QuoteReads(g.name, y);
    Cancel([0x3A], Write(f.value) + r, Write(g.value) + q);
  }

  lemma {:induction false} FieldsAreInjective(a: seq<Field>, r: Text, b: seq<Field>, q: Text)
    requires ValidFields(a) && ValidFields(b) && WriteFields(a) + r == WriteFields(b) + q
    ensures a == b && r == q
    decreases a, 1
  {
    FieldsStart(a, r);
    FieldsStart(b, q);
    if a == [] || b == [] {
      Cancel([0x7D], r, q);
    } else {
      FieldIsInjective(a[0], MoreFields(a[1..]) + r, b[0], MoreFields(b[1..]) + q);
      WriteIsInjective(a[0].value, MoreFields(a[1..]) + r, b[0].value, MoreFields(b[1..]) + q);
      MoreFieldsAreInjective(a[1..], r, b[1..], q);
      assert a == [a[0]] + a[1..] && b == [b[0]] + b[1..];
    }
  }

  lemma FieldsStart(a: seq<Field>, r: Text)
    ensures WriteFields(a) + r != [] && (a == [] <==> (WriteFields(a) + r)[0] == 0x7D)
    ensures a != [] ==> WriteFields(a) + r == WriteField(a[0]) + (MoreFields(a[1..]) + r) && Ends(MoreFields(a[1..]) + r)
  {
    if a != [] {
      assert WriteField(a[0]) + MoreFields(a[1..]) + r == WriteField(a[0]) + (MoreFields(a[1..]) + r);
      assert WriteField(a[0])[0] == 0x22;
    }
  }

  lemma {:induction false} MoreFieldsAreInjective(a: seq<Field>, r: Text, b: seq<Field>, q: Text)
    requires ValidFields(a) && ValidFields(b) && MoreFields(a) + r == MoreFields(b) + q
    ensures a == b && r == q
    decreases a, 1
  {
    MoreFieldsStart(a, r);
    MoreFieldsStart(b, q);
    if a == [] || b == [] {
      Cancel([0x7D], r, q);
    } else {
      Cancel([0x2C], WriteField(a[0]) + (MoreFields(a[1..]) + r), WriteField(b[0]) + (MoreFields(b[1..]) + q));
      FieldIsInjective(a[0], MoreFields(a[1..]) + r, b[0], MoreFields(b[1..]) + q);
      WriteIsInjective(a[0].value, MoreFields(a[1..]) + r, b[0].value, MoreFields(b[1..]) + q);
      MoreFieldsAreInjective(a[1..], r, b[1..], q);
      assert a == [a[0]] + a[1..] && b == [b[0]] + b[1..];
    }
  }

  lemma MoreFieldsStart(a: seq<Field>, r: Text)
    ensures MoreFields(a) + r != [] && (a == [] <==> (MoreFields(a) + r)[0] == 0x7D)
    ensures a != [] ==> MoreFields(a) + r == [0x2C] + (WriteField(a[0]) + (MoreFields(a[1..]) + r))
    ensures a != [] ==> Ends(MoreFields(a[1..]) + r)
  {
  }

  // ---- sorting makes the order of keys irrelevant ----

  predicate Ordered(fields: seq<Field>) {
    forall i, j :: 0 <= i < j < |fields| ==> Below(fields[i].name, fields[j].name)
  }

  predicate Has(fields: seq<Field>, name: Text) {
    exists i :: 0 <= i < |fields| && fields[i].name == name
  }

  lemma {:induction false} InsertMembers(f: Field, s: seq<Field>)
    ensures forall g :: g in Insert(f, s) <==> g == f || g in s
  {
    if s != [] {
      InsertMembers(f, s[1..]);
      assert s == [s[0]] + s[1..];
    }
  }

  lemma {:induction false} InsertOrders(f: Field, s: seq<Field>)
    requires Ordered(s) && !Has(s, f.name)
    ensures Ordered(Insert(f, s))
  {
    if s == [] {
    } else if Below(f.name, s[0].name) {
      forall i | 0 <= i < |s|
        ensures Below(f.name, s[i].name)
      {
        if i > 0 { BelowIsTransitive(f.name, s[0].name, s[i].name); }
      }
    } else {
      BelowIsTotal(f.name, s[0].name);
      assert s[0].name != f.name;
      assert !Has(s[1..], f.name) by {
        forall i | 0 <= i < |s[1..]|
          ensures s[1..][i].name != f.name
        {
          assert s[1..][i] == s[i + 1];
        }
      }
      InsertOrders(f, s[1..]);
      InsertMembers(f, s[1..]);
      var r := Insert(f, s[1..]);
      forall j | 0 <= j < |r|
        ensures Below(s[0].name, r[j].name)
      {
        assert r[j] in r;
      }
    }
  }

  lemma {:induction false} SortMembers(fields: seq<Field>)
    ensures forall g :: g in SortFields(fields) <==> g in fields
  {
    if fields != [] {
      SortMembers(fields[1..]);
      InsertMembers(fields[0], SortFields(fields[1..]));
      assert fields == [fields[0]] + fields[1..];
    }
  }

  lemma {:induction false} SortOrders(fields: seq<Field>)
    requires Distinct(fields)
    ensures Ordered(SortFields(fields))
  {
    if fields != [] {
      var rest := SortFields(fields[1..]);
      SortOrders(fields[1..]);
      SortMembers(fields[1..]);
      forall i | 0 <= i < |rest|
        ensures rest[i].name != fields[0].name
      {
        assert rest[i] in rest && rest[i] in fields[1..];
      }
      InsertOrders(fields[0], rest);
    }
  }

  /** Two ordered lists of the same fields are the same list. */
  lemma {:induction false} OrderedIsUnique(a: seq<Field>, b: seq<Field>)
    requires Ordered(a) && Ordered(b) && forall f :: f in a <==> f in b
    ensures a == b
  {
    assert b != [] ==> b[0] in b;
    if a != [] {
      assert a[0] in b;
      SameFirst(a, b);
      forall f
        ensures f in a[1..] <==> f in b[1..]
      {
        FirstOnce(a, f);
        FirstOnce(b, f);
      }
      OrderedIsUnique(a[1..], b[1..]);
      assert a == [a[0]] + a[1..] && b == [b[0]] + b[1..];
    }
  }

  lemma FirstOnce(a: seq<Field>, f: Field)
    requires Ordered(a) && a != []
    ensures f in a[1..] <==> f in a && f != a[0]
  {
    BelowIsTotal(a[0].name, a[0].name);
    assert a == [a[0]] + a[1..];
    if f in a[1..] {
      var i :| 0 <= i < |a[1..]| && a[1..][i] == f;
      assert Below(a[0].name, a[i + 1].name);
    }
  }

  lemma SameFirst(a: seq<Field>, b: seq<Field>)
    requires Ordered(a) && Ordered(b) && a != [] && b != [] && a[0] in b && b[0] in a
    ensures a[0] == b[0]
  {
    var i :| 0 <= i < |a| && a[i] == b[0];
    var j :| 0 <= j < |b| && b[j] == a[0];
    BelowIsTotal(a[0].name, b[0].name);
  }

  // ---- meaning ----

  lemma {:induction false} FieldMeaningsOf(fields: seq<Field>)
    requires Distinct(fields)
    ensures forall n :: n in FieldMeanings(fields) <==> Has(fields, n)
    ensures forall i :: 0 <= i < |fields| ==>
      fields[i].name in FieldMeanings(fields) && FieldMeanings(fields)[fields[i].name] == Meaning(fields[i].value)
  {
    if fields != [] {
      var rest := fields[1..];
      FieldMeaningsOf(rest);
      forall n
        ensures n in FieldMeanings(fields) <==> Has(fields, n)
      {
        if Has(fields, n) {
          var i :| 0 <= i < |fields| && fields[i].name == n;
          if i > 0 { assert rest[i - 1].name == n; }
        }
        if Has(rest, n) {
          var i :| 0 <= i < |rest| && rest[i].name == n;
          assert fields[i + 1].name == n;
        }
        assert fields[0].name == n ==> Has(fields, n);
      }
      forall i | 0 <= i < |fields|
        ensures fields[i].name in FieldMeanings(fields) && FieldMeanings(fields)[fields[i].name] == Meaning(fields[i].value)
      {
        if i > 0 { assert fields[i] == rest[i - 1]; }
      }
    }
  }

  lemma SameObjectMatches(a: seq<Field>, b: seq<Field>)
    requires Distinct(a) && Distinct(b) && FieldMeanings(a) == FieldMeanings(b)
    ensures forall i :: 0 <= i < |a| ==> Matched(a[i], b)
  {
    FieldMeaningsOf(a);
    FieldMeaningsOf(b);
    forall i | 0 <= i < |a|
      ensures Matched(a[i], b)
    {
      assert Has(b, a[i].name);
    }
  }

  lemma MatchedName(a: seq<Field>, b: seq<Field>, n: Text)
    requires Distinct(a) && Distinct(b) && n in FieldMeanings(a)
    requires forall i :: 0 <= i < |a| ==> Matched(a[i], b)
    ensures n in FieldMeanings(b) && FieldMeanings(a)[n] == FieldMeanings(b)[n]
  {
    FieldMeaningsOf(a);
    FieldMeaningsOf(b);
    var i :| 0 <= i < |a| && a[i].name == n;
    assert Matched(a[i], b);
  }

  lemma MatchesSameObject(a: seq<Field>, b: seq<Field>)
    requires Distinct(a) && Distinct(b)
    requires (forall i :: 0 <= i < |a| ==> Matched(a[i], b)) && (forall j :: 0 <= j < |b| ==> Matched(b[j], a))
    ensures FieldMeanings(a) == FieldMeanings(b)
  {
    forall n
      ensures n in FieldMeanings(a) <==> n in FieldMeanings(b)
      ensures n in FieldMeanings(a) ==> FieldMeanings(a)[n] == FieldMeanings(b)[n]
    {
      if n in FieldMeanings(a) { MatchedName(a, b, n); }
      if n in FieldMeanings(b) { MatchedName(b, a, n); }
    }
  }

  predicate Matched(f: Field, fields: seq<Field>) {
    exists j :: 0 <= j < |fields| && fields[j].name == f.name && Meaning(fields[j].value) == Meaning(f.value)
  }

  lemma CanonDistinct(fields: seq<Field>)
    requires Distinct(fields)
    ensures Distinct(CanonFields(fields)) && Ordered(SortFields(CanonFields(fields)))
    ensures Distinct(SortFields(CanonFields(fields)))
  {
    SortOrders(CanonFields(fields));
    var s := SortFields(CanonFields(fields));
    forall i, j | 0 <= i < j < |s|
      ensures s[i].name != s[j].name
    {
      BelowIsTotal(s[i].name, s[j].name);
    }
  }

  /** The sorted value is valid and means what the value means. */
  lemma {:induction false} CanonMeansTheSame(v: Json)
    requires Valid(v)
    ensures Valid(Canon(v)) && Meaning(Canon(v)) == Meaning(v)
  {
    match v
    case Arr(items) =>
      forall i | 0 <= i < |items|
        ensures Valid(Canon(items[i])) && Meaning(Canon(items[i])) == Meaning(items[i])
      {
        CanonMeansTheSame(items[i]);
      }
      assert Meanings(CanonItems(items)) == Meanings(items);
    case Obj(fields) =>
      forall i | 0 <= i < |fields|
        ensures Valid(Canon(fields[i].value)) && Meaning(Canon(fields[i].value)) == Meaning(fields[i].value)
      {
        CanonMeansTheSame(fields[i].value);
      }
      CanonObject(fields);
    case _ =>
  }

  lemma CanonObject(fields: seq<Field>)
    requires Distinct(fields)
    requires forall i :: 0 <= i < |fields| ==>
      Valid(Canon(fields[i].value)) && Meaning(Canon(fields[i].value)) == Meaning(fields[i].value)
    ensures Valid(Obj(SortFields(CanonFields(fields))))
    ensures FieldMeanings(SortFields(CanonFields(fields))) == FieldMeanings(fields)
  {
    var c := CanonFields(fields);
    var s := SortFields(c);
    CanonDistinct(fields);
    SortMembers(c);
    forall j | 0 <= j < |s|
      ensures Valid(s[j].value) && Matched(s[j], fields)
    {
      assert s[j] in s && s[j] in c;
      var i :| 0 <= i < |c| && c[i] == s[j];
      assert fields[i].name == s[j].name;
    }
    forall i | 0 <= i < |fields|
      ensures Matched(fields[i], s)
    {
      assert c[i] in c && c[i] in s;
      var j :| 0 <= j < |s| && s[j] == c[i];
      assert s[j].name == fields[i].name;
    }
    MatchesSameObject(s, fields);
  }

  /** Values with one meaning sort to one value. */
  lemma {:induction false} MeaningFixesCanon(v: Json, w: Json)
    requires Valid(v) && Valid(w) && Meaning(v) == Meaning(w)
    ensures Canon(v) == Canon(w)
  {
    match v
    case Arr(items) =>
      assert |items| == |w.items| by { assert |Meanings(items)| == |Meanings(w.items)|; }
      forall i | 0 <= i < |items|
        ensures Canon(items[i]) == Canon(w.items[i])
      {
        assert Meanings(items)[i] == Meanings(w.items)[i];
        MeaningFixesCanon(items[i], w.items[i]);
      }
      assert CanonItems(items) == CanonItems(w.items);
    case Obj(fields) =>
      forall i, j | 0 <= i < |fields| && 0 <= j < |w.fields|
          && Meaning(fields[i].value) == Meaning(w.fields[j].value)
        ensures Canon(fields[i].value) == Canon(w.fields[j].value)
      {
        MeaningFixesCanon(fields[i].value, w.fields[j].value);
      }
      SameSorted(fields, w.fields);
    case _ =>
  }

  lemma SameSorted(a: seq<Field>, b: seq<Field>)
    requires Distinct(a) && Distinct(b) && FieldMeanings(a) == FieldMeanings(b)
    requires forall i, j :: 0 <= i < |a| && 0 <= j < |b| && Meaning(a[i].value) == Meaning(b[j].value) ==>
      Canon(a[i].value) == Canon(b[j].value)
    ensures SortFields(CanonFields(a)) == SortFields(CanonFields(b))
  {
    SameObjectMatches(a, b);
    SameObjectMatches(b, a);
    CanonDistinct(a);
    CanonDistinct(b);
    SortMembers(CanonFields(a));
    SortMembers(CanonFields(b));
    forall f
      ensures f in CanonFields(a) <==> f in CanonFields(b)
    {
      if f in CanonFields(a) { CanonFieldMatched(a, b, f); }
      if f in CanonFields(b) { CanonFieldMatched(b, a, f); }
    }
    OrderedIsUnique(SortFields(CanonFields(a)), SortFields(CanonFields(b)));
  }

  lemma CanonFieldMatched(a: seq<Field>, b: seq<Field>, f: Field)
    requires forall i, j :: 0 <= i < |a| && 0 <= j < |b| && Meaning(a[i].value) == Meaning(b[j].value) ==>
      Canon(a[i].value) == Canon(b[j].value)
    requires (forall i :: 0 <= i < |a| ==> Matched(a[i], b)) && f in CanonFields(a)
    ensures f in CanonFields(b)
  {
    var i :| 0 <= i < |a| && CanonFields(a)[i] == f;
    assert Matched(a[i], b);
    var j :| 0 <= j < |b| && b[j].name == a[i].name && Meaning(b[j].value) == Meaning(a[i].value);
    assert CanonFields(b)[j] == f;
  }

  /** Two caveats have one key exactly when they are the same value up to the order of object keys. */
  lemma KeyIsMeaning(v: Json, w: Json)
    requires Valid(v) && Valid(w)
    ensures CanonicalJsonKey(v) == CanonicalJsonKey(w) <==> Meaning(v) == Meaning(w)
  {
    CanonMeansTheSame(v);
    CanonMeansTheSame(w);
    if CanonicalJsonKey(v) == CanonicalJsonKey(w) {
      assert Write(Canon(v)) + [] == Write(Canon(w)) + [];
      WriteIsInjective(Canon(v), [], Canon(w), []);
    }
    if Meaning(v) == Meaning(w) {
      MeaningFixesCanon(v, w);
    }
  }
}
