/**
 * From the ReCap lines of a SIWE message to the entries a review shows:
 * (resource, ability) pairs are grouped by service, space, path and resource
 * segment, and the groups sorted.
 */
module RecapGrouping {
  import opened Wrappers
  import opened Bytes
  import opened CanonicalJson
  import opened Caveats
  import opened Search

  // ---- from lines to pairs ----

  datatype Ability = Ability(name: Text, caveats: Option<seq<Json>>)

  /** One key of the `att` map; None when its value is not an object. */
  datatype Resource = Resource(uri: Text, abilities: Option<seq<Ability>>)

  datatype Line =
    | Recap(att: seq<Resource>)
    | Undecodable
    | Legacy(raw: Text)

  datatype Place = Place(space: Text, path: Text, segment: Option<Text>)

  /** A pair with a service/verb separator, as the grouping sees it. */
  datatype Pair = Pair(service: Text, place: Place, ability: Text, caveats: seq<Json>, legacy: bool)

  const SLASH: Unit := 0x2F
  const COLON: Unit := 0x3A
  const NUL: Unit := 0

  /** "tinycloud" */
  const TINYCLOUD: Text := [0x74, 0x69, 0x6E, 0x79, 0x63, 0x6C, 0x6F, 0x75, 0x64]

  /** splitResourceUri: `<space>/<segment>/<path>`, for TinyCloud URIs. */
  function SplitUri(uri: Text): Place {
    var slash := Find(uri, SLASH);
    if !(TINYCLOUD + [COLON] <= uri) || slash == |uri| then Place(uri, [], None)
    else
      var space, rest := uri[..slash], uri[slash + 1..];
      var second := Find(rest, SLASH);
      if second == |rest| then Place(space, [], Some(rest)) else Place(space, rest[second + 1..], Some(rest[..second]))
  }

  function AbilityPairs(place: Place): Ability -> seq<Pair> {
    (a: Ability) =>
      var slash := Find(a.name, SLASH);
      if slash == |a.name| then []
      else [Pair(a.name[..slash], place, a.name, if a.caveats.Some? then a.caveats.value else [], false)]
  }

  function Flat<T>(items: seq<T>, f: T -> seq<Pair>): seq<Pair> {
    if items == [] then [] else f(items[0]) + Flat(items[1..], f)
  }

  function ResourcePairs(r: Resource): seq<Pair> {
    if r.abilities.None? then [] else Flat(r.abilities.value, AbilityPairs(SplitUri(r.uri)))
  }

  /** `<service>/<verb>:<space>[/<path>]` */
  function LegacyPairs(raw: Text): seq<Pair> {
    var colon := Find(raw, COLON);
    if colon == |raw| then []
    else
      var head, rest := raw[..colon], raw[colon + 1..];
      var slash, cut := Find(head, SLASH), Find(rest, SLASH);
      if slash == |head| then []
      else
        var place := if TINYCLOUD + [COLON] <= rest && cut < |rest| then Place(rest[..cut], rest[cut + 1..], None)
                     else Place(rest, [], None);
        [Pair(head[..slash], place, head, [], true)]
  }

  function LinePairs(line: Line): seq<Pair> {
    match line
    case Recap(att) => Flat(att, ResourcePairs)
    case Undecodable => []
    case Legacy(raw) => LegacyPairs(raw)
  }

  function Pairs(lines: seq<Line>): seq<Pair> {
    Flat(lines, LinePairs)
  }

  // ---- grouping ----

  datatype Entry = Entry(service: Text, place: Place, actions: seq<Text>, caveats: map<Text, seq<Json>>, mismatch: bool)

  /** The Map key: the four parts with NUL between them, an absent segment as the empty one. */
  function Key(service: Text, place: Place): Text {
    service + [NUL] + place.space + [NUL] + place.path + [NUL] + place.segment.GetOr([])
  }

  function PairKey(p: Pair): Text { Key(p.service, p.place) }

  function EntryKey(e: Entry): Text { Key(e.service, e.place) }

  function ShortService(service: Text): Text {
    if TINYCLOUD + [0x2E] <= service then service[10..] else service
  }

  /** The resource names another service than the ability does. */
  predicate Mismatch(p: Pair) {
    p.place.segment.Some? && p.place.segment.value != [] && p.place.segment.value != ShortService(p.service)
  }

  function FindEntry(entries: seq<Entry>, key: Text): (i: nat)
    ensures i <= |entries| && (i < |entries| ==> EntryKey(entries[i]) == key)
    ensures forall k :: 0 <= k < i ==> EntryKey(entries[k]) != key
  {
    if entries == [] || EntryKey(entries[0]) == key then 0 else 1 + FindEntry(entries[1..], key)
  }

  function Extended(e: Entry, p: Pair): Entry {
    e.(actions := if p.ability in e.actions then e.actions else e.actions + [p.ability],
       caveats := if p.legacy && p.ability in e.caveats then e.caveats else e.caveats[p.ability := p.caveats],
       mismatch := e.mismatch || Mismatch(p))
  }

  function Added(entries: seq<Entry>, p: Pair): seq<Entry> {
    var i := FindEntry(entries, PairKey(p));
    if i < |entries| then entries[i := Extended(entries[i], p)]
    else entries + [Extended(Entry(p.service, p.place, [], map[], false), p)]
  }

  function Grouped(pairs: seq<Pair>): seq<Entry> {
    if pairs == [] then [] else Added(Grouped(pairs[..|pairs| - 1]), pairs[|pairs| - 1])
  }

  // ---- sorting ----

  function Compare(a: Text, b: Text): int {
    if a == b then 0 else if Below(a, b) then -1 else 1
  }

  /** Negative when `a` sorts before `b`, zero when they tie on service, space and path. */
  function CompareEntries(a: Entry, b: Entry): int {
    if a.service != b.service then Compare(a.service, b.service)
    else if a.place.space != b.place.space then Compare(a.place.space, b.place.space)
    else Compare(a.place.path, b.place.path)
  }

  function InsertEntry(e: Entry, sorted: seq<Entry>): seq<Entry> {
    if sorted == [] || CompareEntries(e, sorted[0]) <= 0 then [e] + sorted else [sorted[0]] + InsertEntry(e, sorted[1..])
  }

  /** A stable sort. */
  function SortEntries(entries: seq<Entry>): seq<Entry> {
    if entries == [] then [] else InsertEntry(entries[0], SortEntries(entries[1..]))
  }

  function ActionsSorted(entries: seq<Entry>): (r: seq<Entry>)
    ensures |r| == |entries|
    ensures forall i :: 0 <= i < |r| ==> r[i] == entries[i].(actions := SortTexts(entries[i].actions))
  {
    seq(|entries|, i requires 0 <= i < |entries| => entries[i].(actions := SortTexts(entries[i].actions)))
  }

  function EntriesOf(pairs: seq<Pair>): seq<Entry> {
    SortEntries(ActionsSorted(Grouped(pairs)))
  }

  // ---- the grouping loops ----

  lemma GroupedOneMore(pairs: seq<Pair>, p: Pair)
    ensures Grouped(pairs + [p]) == Added(Grouped(pairs), p)
  {
    assert (pairs + [p])[..|pairs|] == pairs;
  }

  lemma TakeOneMore<T>(before: seq<T>, items: seq<T>, i: nat)
    requires i < |items|
    ensures before + items[..i + 1] == before + items[..i] + [items[i]]
  {
  }

  method AddPairs(grouped: seq<Entry>, ghost before: seq<Pair>, pairs: seq<Pair>) returns (r: seq<Entry>)
    requires grouped == Grouped(before)
    ensures r == Grouped(before + pairs)
  {
    r := grouped;
    assert before + pairs[..0] == before;
    for i := 0 to |pairs|
      invariant r == Grouped(before + pairs[..i])
    {
      TakeOneMore(before, pairs, i);
      GroupedOneMore(before + pairs[..i], pairs[i]);
      r := Added(r, pairs[i]);
    }
    assert pairs[..|pairs|] == pairs;
  }

  lemma NextLine(lines: seq<Line>, i: nat, before: seq<Pair>)
    requires i < |lines|
    ensures before + Pairs(lines[i..]) == before + LinePairs(lines[i]) + Pairs(lines[i + 1..])
  {
    assert lines[i..][1..] == lines[i + 1..];
    Reassociated(before, LinePairs(lines[i]), Pairs(lines[i + 1..]));
  }

  lemma Reassociated<T>(a: seq<T>, b: seq<T>, c: seq<T>)
    ensures a + (b + c) == a + b + c
  {
  }

  method ParseRecapResources(lines: seq<Line>) returns (entries: seq<Entry>)
    ensures entries == EntriesOf(Pairs(lines))
  {
    var grouped: seq<Entry> := [];
    ghost var before: seq<Pair> := [];
    assert lines[0..] == lines && [] + Pairs(lines) == Pairs(lines);
    for i := 0 to |lines|
      invariant grouped == Grouped(before) && before + Pairs(lines[i..]) == Pairs(lines)
    {
      var pairs := LinePairs(lines[i]);
      NextLine(lines, i, before);
      grouped := AddPairs(grouped, before, pairs);
      before := before + pairs;
    }
    assert before + [] == before;
    entries := SortEntries(ActionsSorted(grouped));
  }

  // ---- what the groups hold ----

  /** Some pair of `pairs` goes under `key` with this ability. */
  predicate Granted(pairs: seq<Pair>, key: Text, ability: Text) {
    exists p :: p in pairs && PairKey(p) == key && p.ability == ability
  }

  predicate NoRepeat(texts: seq<Text>) {
    forall i, j :: 0 <= i < j < |texts| ==> texts[i] != texts[j]
  }

  /** Some ReCap pair, not a legacy line, goes under `key` with this ability. */
  predicate GrantedByRecap(pairs: seq<Pair>, key: Text, ability: Text) {
    exists p :: p in pairs && PairKey(p) == key && p.ability == ability && !p.legacy
  }

  /** A caveat list an entry holds is some pair's, and a legacy line's only when no ReCap pair has one. */
  predicate CaveatsFrom(e: Entry, pairs: seq<Pair>, a: Text)
    requires a in e.caveats
  {
    exists p :: p in pairs && PairKey(p) == EntryKey(e) && p.ability == a && p.caveats == e.caveats[a]
      && (p.legacy ==> !GrantedByRecap(pairs, EntryKey(e), a))
  }

  ghost predicate NamedBy(e: Entry, pairs: seq<Pair>) {
    exists p :: p in pairs && p.service == e.service && p.place == e.place
  }

  ghost predicate HoldsActions(e: Entry, pairs: seq<Pair>) {
    NoRepeat(e.actions) && forall a :: a in e.actions <==> Granted(pairs, EntryKey(e), a)
  }

  ghost predicate HoldsCaveats(e: Entry, pairs: seq<Pair>) {
    && (forall a :: a in e.actions <==> a in e.caveats)
    && (forall a :: a in e.caveats ==> CaveatsFrom(e, pairs, a))
  }

  ghost predicate HoldsMismatch(e: Entry, pairs: seq<Pair>) {
    e.mismatch <==> exists p :: p in pairs && PairKey(p) == EntryKey(e) && Mismatch(p)
  }

  /** The entry is named by one of its pairs, and holds exactly its pairs' abilities, each once, with one of their caveats. */
  ghost predicate Describes(e: Entry, pairs: seq<Pair>) {
    NamedBy(e, pairs) && HoldsActions(e, pairs) && HoldsCaveats(e, pairs) && HoldsMismatch(e, pairs)
  }

  ghost predicate DistinctKeys(entries: seq<Entry>) {
    forall i, j :: 0 <= i < j < |entries| ==> EntryKey(entries[i]) != EntryKey(entries[j])
  }

  predicate HasKey(entries: seq<Entry>, key: Text) {
    exists i :: 0 <= i < |entries| && EntryKey(entries[i]) == key
  }

  /** Every pair has its group, every group its pairs. */
  ghost predicate Groups(entries: seq<Entry>, pairs: seq<Pair>) {
    && DistinctKeys(entries)
    && (forall p :: p in pairs ==> HasKey(entries, PairKey(p)))
    && (forall i :: 0 <= i < |entries| ==> Describes(entries[i], pairs))
  }

  /** An entry of another key is not touched by a new pair. */
  lemma DescribesStays(e: Entry, pairs: seq<Pair>, p: Pair)
    requires Describes(e, pairs) && EntryKey(e) != PairKey(p)
    ensures Describes(e, pairs + [p])
  {
    forall q
      ensures q in pairs + [p] <==> q in pairs || q == p
    {
    }
    assert forall a :: Granted(pairs + [p], EntryKey(e), a) <==> Granted(pairs, EntryKey(e), a);
    assert forall a :: GrantedByRecap(pairs + [p], EntryKey(e), a) <==> GrantedByRecap(pairs, EntryKey(e), a);
    forall a | a in e.caveats
      ensures CaveatsFrom(e, pairs + [p], a)
    {
      assert CaveatsFrom(e, pairs, a);
    }
  }

  lemma DescribesExtended(e: Entry, pairs: seq<Pair>, p: Pair)
    requires EntryKey(e) == PairKey(p)
    requires Describes(e, pairs) ||
      (e == Entry(p.service, p.place, [], map[], false) && forall q :: q in pairs ==> PairKey(q) != PairKey(p))
    ensures Describes(Extended(e, p), pairs + [p])
  {
    var r, more, key := Extended(e, p), pairs + [p], PairKey(p);
    assert forall q :: q in more <==> q in pairs || q == p;
    assert p in more;
    forall a
      ensures a in r.actions <==> Granted(more, key, a)
    {
      assert a in r.actions <==> a in e.actions || a == p.ability;
    }
    forall a | a in r.caveats
      ensures CaveatsFrom(r, more, a)
    {
      assert a !in e.caveats ==> !Granted(pairs, key, a);
      ExtendedCaveats(e, pairs, p, a);
    }
  }

  lemma ExtendedCaveats(e: Entry, pairs: seq<Pair>, p: Pair, a: Text)
    requires a in Extended(e, p).caveats && EntryKey(e) == PairKey(p)
    requires if a in e.caveats then CaveatsFrom(e, pairs, a) else !Granted(pairs, PairKey(p), a)
    ensures CaveatsFrom(Extended(e, p), pairs + [p], a)
  {
    assert forall q :: q in pairs + [p] <==> q in pairs || q == p;
    if !(a == p.ability && !(p.legacy && a in e.caveats)) {
      var q :| q in pairs && PairKey(q) == PairKey(p) && q.ability == a && q.caveats == e.caveats[a]
        && (q.legacy ==> !GrantedByRecap(pairs, PairKey(p), a));
      assert q in pairs + [p];
    } else {
      assert p in pairs + [p];
    }
  }

  /** Adding a pair changes or adds one entry, the one with its key. */
  lemma AddedKeys(entries: seq<Entry>, p: Pair)
    requires DistinctKeys(entries)
    ensures var r := Added(entries, p);
      && DistinctKeys(r) && |entries| <= |r| && HasKey(r, PairKey(p))
      && (forall k :: 0 <= k < |entries| ==> EntryKey(r[k]) == EntryKey(entries[k]))
      && (forall k :: 0 <= k < |r| && EntryKey(r[k]) != PairKey(p) ==> k < |entries| && r[k] == entries[k])
  {
    var i, r := FindEntry(entries, PairKey(p)), Added(entries, p);
    assert EntryKey(r[i]) == PairKey(p);
  }

  lemma AddedDescribes(entries: seq<Entry>, pairs: seq<Pair>, p: Pair, k: nat)
    requires Groups(entries, pairs) && k < |Added(entries, p)|
    ensures Describes(Added(entries, p)[k], pairs + [p])
  {
    var i, r := FindEntry(entries, PairKey(p)), Added(entries, p);
    if k != i {
      assert r[k] == entries[k];
      assert i < |entries| ==> EntryKey(entries[k]) != EntryKey(entries[i]);
      DescribesStays(entries[k], pairs, p);
    } else if i < |entries| {
      DescribesExtended(entries[i], pairs, p);
    } else {
      forall q | q in pairs
        ensures PairKey(q) != PairKey(p)
      {
        assert HasKey(entries, PairKey(q));
      }
      DescribesExtended(Entry(p.service, p.place, [], map[], false), pairs, p);
    }
  }

  lemma AddedGroups(entries: seq<Entry>, pairs: seq<Pair>, p: Pair)
    requires Groups(entries, pairs)
    ensures Groups(Added(entries, p), pairs + [p])
  {
    var r := Added(entries, p);
    AddedKeys(entries, p);
    forall k | 0 <= k < |r|
      ensures Describes(r[k], pairs + [p])
    {
      AddedDescribes(entries, pairs, p, k);
    }
    forall q | q in pairs + [p]
      ensures HasKey(r, PairKey(q))
    {
      if q in pairs {
        var k :| 0 <= k < |entries| && EntryKey(entries[k]) == PairKey(q);
        assert EntryKey(r[k]) == PairKey(q);
      }
    }
  }

  lemma {:induction false} GroupedGroups(pairs: seq<Pair>)
    ensures Groups(Grouped(pairs), pairs)
  {
    if pairs != [] {
      var before, p := pairs[..|pairs| - 1], pairs[|pairs| - 1];
      GroupedGroups(before);
      OneMoreGroups(pairs, before, p);
    }
  }

  lemma OneMoreGroups(pairs: seq<Pair>, before: seq<Pair>, p: Pair)
    requires pairs == before + [p] && Groups(Grouped(before), before)
    ensures Groups(Grouped(pairs), pairs)
  {
    GroupedOneMore(before, p);
    AddedGroups(Grouped(before), before, p);
  }

  // ---- sorting loses nothing ----

  lemma {:induction false} InsertKeeps(e: Entry, s: seq<Entry>)
    requires DistinctKeys(s) && !HasKey(s, EntryKey(e))
    ensures DistinctKeys(InsertEntry(e, s))
    ensures forall x :: x in InsertEntry(e, s) <==> x == e || x in s
  {
    if s != [] && CompareEntries(e, s[0]) > 0 {
      var rest := s[1..];
      forall k | 0 <= k < |rest|
        ensures EntryKey(rest[k]) != EntryKey(e)
      {
        assert rest[k] == s[k + 1];
      }
      InsertKeeps(e, rest);
      assert s == [s[0]] + rest;
      var r := InsertEntry(e, rest);
      forall k | 0 <= k < |r|
        ensures EntryKey(r[k]) != EntryKey(s[0])
      {
        assert r[k] in r;
        if r[k] != e {
          var m :| 0 <= m < |rest| && rest[m] == r[k];
          assert s[m + 1] == r[k];
        }
      }
    }
  }

  lemma {:induction false} SortKeeps(entries: seq<Entry>)
    requires DistinctKeys(entries)
    ensures DistinctKeys(SortEntries(entries))
    ensures forall x :: x in SortEntries(entries) <==> x in entries
  {
    if entries != [] {
      var rest := SortEntries(entries[1..]);
      SortKeeps(entries[1..]);
      forall k | 0 <= k < |rest|
        ensures EntryKey(rest[k]) != EntryKey(entries[0])
      {
        assert rest[k] in rest;
        var m :| 0 <= m < |entries[1..]| && entries[1..][m] == rest[k];
        assert entries[m + 1] == rest[k];
      }
      InsertKeeps(entries[0], rest);
      assert entries == [entries[0]] + entries[1..];
    }
  }

  lemma SortedActionsHeld(e: Entry, pairs: seq<Pair>)
    requires HoldsActions(e, pairs)
    ensures HoldsActions(e.(actions := SortTexts(e.actions)), pairs)
    ensures forall a :: a in SortTexts(e.actions) <==> a in e.actions
  {
    var sorted := SortTexts(e.actions);
    SameLength(sorted, e.actions);
    NoRepeatIsSet(e.actions, sorted);
  }

  lemma SortedActionsDescribe(e: Entry, pairs: seq<Pair>)
    requires Describes(e, pairs)
    ensures Describes(e.(actions := SortTexts(e.actions)), pairs)
  {
    var r := e.(actions := SortTexts(e.actions));
    SortedActionsHeld(e, pairs);
    forall a | a in r.caveats
      ensures CaveatsFrom(r, pairs, a)
    {
      assert CaveatsFrom(e, pairs, a);
    }
  }

  /** Repetition is a matter of the multiset. */
  lemma NoRepeatIsSet(a: seq<Text>, b: seq<Text>)
    requires NoRepeat(a) && multiset(a) == multiset(b)
    ensures NoRepeat(b)
  {
    forall i, j | 0 <= i < j < |b|
      ensures b[i] != b[j]
    {
      if b[i] == b[j] {
        Twice(b, i, j);
        NoRepeatOnce(a, b[i]);
      }
    }
  }

  lemma Twice(b: seq<Text>, i: nat, j: nat)
    requires i < j < |b| && b[i] == b[j]
    ensures multiset(b)[b[i]] >= 2
  {
    assert b == b[..i] + [b[i]] + b[i + 1..j] + [b[j]] + b[j + 1..];
  }

  lemma {:induction false} NoRepeatOnce(a: seq<Text>, t: Text)
    requires NoRepeat(a)
    ensures multiset(a)[t] == if t in a then 1 else 0
  {
    if a != [] {
      NoRepeatOnce(a[1..], t);
      assert a == [a[0]] + a[1..];
      if a[0] in a[1..] {
        var k :| 0 <= k < |a[1..]| && a[1..][k] == a[0];
        assert a[k + 1] == a[0];
      }
    }
  }

  /**
   * Grouping is lossless: the entries have distinct keys, every pair with a
   * separator is in the one with its key, and an entry holds nothing else.
   */
  lemma GroupingIsLossless(lines: seq<Line>)
    ensures Groups(EntriesOf(Pairs(lines)), Pairs(lines))
  {
    PairsAreGrouped(Pairs(lines));
  }

  lemma PairsAreGrouped(pairs: seq<Pair>)
    ensures Groups(EntriesOf(pairs), pairs)
  {
    GroupedGroups(pairs);
    ActionsSortedGroups(Grouped(pairs), pairs);
    SortGroups(ActionsSorted(Grouped(pairs)), pairs);
  }

  lemma ActionsSortedGroups(entries: seq<Entry>, pairs: seq<Pair>)
    requires Groups(entries, pairs)
    ensures Groups(ActionsSorted(entries), pairs)
  {
    var r := ActionsSorted(entries);
    forall i | 0 <= i < |r|
      ensures Describes(r[i], pairs)
    {
      SortedActionsDescribe(entries[i], pairs);
    }
    forall p | p in pairs
      ensures HasKey(r, PairKey(p))
    {
      var k :| 0 <= k < |entries| && EntryKey(entries[k]) == PairKey(p);
      assert EntryKey(r[k]) == PairKey(p);
    }
  }

  lemma SortGroups(entries: seq<Entry>, pairs: seq<Pair>)
    requires Groups(entries, pairs)
    ensures Groups(SortEntries(entries), pairs)
  {
    var r := SortEntries(entries);
    SortKeeps(entries);
    forall i | 0 <= i < |r|
      ensures Describes(r[i], pairs)
    {
      assert r[i] in entries;
    }
    forall p | p in pairs
      ensures HasKey(r, PairKey(p))
    {
      var k :| 0 <= k < |entries| && EntryKey(entries[k]) == PairKey(p);
      assert entries[k] in entries && entries[k] in r;
    }
  }

  // ---- order independence ----

  predicate Less(a: Entry, b: Entry) {
    CompareEntries(a, b) < 0
  }

  lemma LessIsTotal(a: Entry, b: Entry)
    ensures CompareEntries(a, b) == -CompareEntries(b, a)
    ensures CompareEntries(a, b) == 0 <==> a.service == b.service && a.place.space == b.place.space && a.place.path == b.place.path
  {
    BelowIsTotal(a.service, b.service);
    BelowIsTotal(a.place.space, b.place.space);
    BelowIsTotal(a.place.path, b.place.path);
  }

  lemma TextTransitive(a: Text, b: Text, c: Text)
    requires a == b || Below(a, b)
    requires b == c || Below(b, c)
    ensures a == c || Below(a, c)
    ensures a == c ==> a == b == c
  {
    BelowIsTotal(a, b);
    BelowIsTotal(b, c);
    if a != b && b != c {
      BelowIsTransitive(a, b, c);
      BelowIsTotal(a, c);
    }
  }

  lemma LessIsTransitive(a: Entry, b: Entry, c: Entry)
    requires Less(a, b) && Less(b, c)
    ensures Less(a, c)
  {
    TextTransitive(a.service, b.service, c.service);
    if a.service == c.service {
      TextTransitive(a.place.space, b.place.space, c.place.space);
      if a.place.space == c.place.space {
        TextTransitive(a.place.path, b.place.path, c.place.path);
        BelowIsTotal(a.place.path, c.place.path);
      } else {
        BelowIsTotal(a.place.space, c.place.space);
      }
    } else {
      BelowIsTotal(a.service, c.service);
    }
  }

  /** No two entries tie on service, space and path. */
  ghost predicate NoTies(entries: seq<Entry>) {
    forall a, b :: a in entries && b in entries && a != b ==> CompareEntries(a, b) != 0
  }

  ghost predicate InOrder(entries: seq<Entry>) {
    forall i, j :: 0 <= i < j < |entries| ==> Less(entries[i], entries[j])
  }

  lemma {:induction false} InsertInOrder(e: Entry, s: seq<Entry>)
    requires InOrder(s) && forall x :: x in s ==> CompareEntries(e, x) != 0
    requires DistinctKeys(s) && !HasKey(s, EntryKey(e))
    ensures InOrder(InsertEntry(e, s))
  {
    if s == [] {
    } else if CompareEntries(e, s[0]) <= 0 {
      forall i | 0 <= i < |s|
        ensures Less(e, s[i])
      {
        if i > 0 { LessIsTransitive(e, s[0], s[i]); }
      }
    } else {
      var rest := s[1..];
      forall k | 0 <= k < |rest|
        ensures EntryKey(rest[k]) != EntryKey(e)
      {
        assert rest[k] == s[k + 1];
      }
      InsertInOrder(e, rest);
      InsertKeeps(e, rest);
      LessIsTotal(e, s[0]);
      var r := InsertEntry(e, rest);
      forall k | 0 <= k < |r|
        ensures Less(s[0], r[k])
      {
        assert r[k] in r;
        if r[k] != e {
          var m :| 0 <= m < |rest| && rest[m] == r[k];
          assert s[m + 1] == r[k];
        }
      }
    }
  }

  lemma {:induction false} SortInOrder(entries: seq<Entry>)
    requires DistinctKeys(entries) && NoTies(entries)
    ensures InOrder(SortEntries(entries))
  {
    if entries != [] {
      var rest := SortEntries(entries[1..]);
      SortKeeps(entries[1..]);
      forall x | x in rest
        ensures x in entries[1..] && EntryKey(x) != EntryKey(entries[0]) && CompareEntries(entries[0], x) != 0
      {
        var m :| 0 <= m < |entries[1..]| && entries[1..][m] == x;
        assert entries[m + 1] == x && x in entries && entries[0] in entries;
      }
      SortInOrder(entries[1..]);
      InsertInOrder(entries[0], rest);
    }
  }

  /** Two lists in order with the same entries are the same list. */
  lemma {:induction false} InOrderIsUnique(a: seq<Entry>, b: seq<Entry>)
    requires InOrder(a) && InOrder(b) && forall x :: x in a <==> x in b
    ensures a == b
  {
    assert b != [] ==> b[0] in b;
    if a != [] {
      assert a[0] in a;
      SameFirstEntry(a, b);
      forall x
        ensures x in a[1..] <==> x in b[1..]
      {
        FirstEntryOnce(a, x);
        FirstEntryOnce(b, x);
      }
      InOrderIsUnique(a[1..], b[1..]);
      assert a == [a[0]] + a[1..] && b == [b[0]] + b[1..];
    }
  }

  lemma FirstEntryOnce(a: seq<Entry>, x: Entry)
    requires InOrder(a) && a != []
    ensures x in a[1..] <==> x in a && x != a[0]
  {
    LessIsTotal(a[0], a[0]);
    assert a == [a[0]] + a[1..];
    if x in a[1..] {
      var i :| 0 <= i < |a[1..]| && a[1..][i] == x;
      assert Less(a[0], a[i + 1]);
    }
  }

  lemma SameFirstEntry(a: seq<Entry>, b: seq<Entry>)
    requires InOrder(a) && InOrder(b) && a != [] && b != [] && a[0] in b && b[0] in a
    ensures a[0] == b[0]
  {
    var i :| 0 <= i < |a| && a[i] == b[0];
    var j :| 0 <= j < |b| && b[j] == a[0];
    LessIsTotal(a[0], b[0]);
  }

  /** Pairs with one key come from one service and place, the absent segment told apart from the empty one. */
  ghost predicate Coherent(pairs: seq<Pair>) {
    forall p, q :: p in pairs && q in pairs && PairKey(p) == PairKey(q) ==> p.service == q.service && p.place == q.place
  }

  predicate SameSpot(p: Pair, q: Pair) {
    p.service == q.service && p.place.space == q.place.space && p.place.path == q.place.path
  }

  /** Pairs that agree on service, space and path agree on the segment: then nothing ties in the sort. */
  ghost predicate OneSegment(pairs: seq<Pair>) {
    forall p, q :: p in pairs && q in pairs && SameSpot(p, q) ==> p.place.segment == q.place.segment
  }

  /** One ability under one key, with different caveats. */
  predicate CaveatsClash(p: Pair, q: Pair) {
    PairKey(p) == PairKey(q) && p.ability == q.ability && !p.legacy && !q.legacy && p.caveats != q.caveats
  }

  ghost predicate NoCaveatsClash(pairs: seq<Pair>) {
    forall p, q :: p in pairs && q in pairs ==> !CaveatsClash(p, q)
  }

  /** A legacy line has no caveats. */
  ghost predicate LegacyIsBare(pairs: seq<Pair>) {
    forall p :: p in pairs && p.legacy ==> p.caveats == []
  }

  ghost predicate Consistent(pairs: seq<Pair>) {
    Coherent(pairs) && OneSegment(pairs) && NoCaveatsClash(pairs)
  }

  ghost predicate SamePairs(pairs: seq<Pair>, others: seq<Pair>) {
    forall p :: p in pairs <==> p in others
  }

  lemma OnePlace(d: Entry, e: Entry, pairs: seq<Pair>, others: seq<Pair>)
    requires Coherent(pairs) && SamePairs(pairs, others)
    requires NamedBy(d, pairs) && NamedBy(e, others) && EntryKey(d) == EntryKey(e)
    ensures d.service == e.service && d.place == e.place
  {
    var p :| p in pairs && p.service == d.service && p.place == d.place;
    var q :| q in others && q.service == e.service && q.place == e.place;
    assert PairKey(p) == EntryKey(d) && PairKey(q) == EntryKey(e) && q in pairs;
  }

  lemma OneActions(d: Entry, e: Entry, pairs: seq<Pair>, others: seq<Pair>)
    requires SamePairs(pairs, others) && HoldsActions(d, pairs) && HoldsActions(e, others)
    requires EntryKey(d) == EntryKey(e) && Sorted(d.actions) && Sorted(e.actions)
    ensures d.actions == e.actions
  {
    forall a
      ensures a in d.actions <==> a in e.actions
    {
      assert Granted(pairs, EntryKey(d), a) <==> Granted(others, EntryKey(d), a);
    }
    SameSet(d.actions, e.actions);
  }

  lemma OneCaveat(d: Entry, e: Entry, pairs: seq<Pair>, others: seq<Pair>, a: Text)
    requires NoCaveatsClash(pairs) && LegacyIsBare(pairs) && SamePairs(pairs, others) && EntryKey(d) == EntryKey(e)
    requires a in d.caveats && a in e.caveats && CaveatsFrom(d, pairs, a) && CaveatsFrom(e, others, a)
    ensures d.caveats[a] == e.caveats[a]
  {
    var key := EntryKey(d);
    var p :| p in pairs && PairKey(p) == key && p.ability == a && p.caveats == d.caveats[a]
      && (p.legacy ==> !GrantedByRecap(pairs, key, a));
    var q :| q in others && PairKey(q) == key && q.ability == a && q.caveats == e.caveats[a]
      && (q.legacy ==> !GrantedByRecap(others, key, a));
    assert q in pairs && p in others;
    assert !CaveatsClash(p, q);
  }

  lemma OneCaveats(d: Entry, e: Entry, pairs: seq<Pair>, others: seq<Pair>)
    requires NoCaveatsClash(pairs) && LegacyIsBare(pairs) && SamePairs(pairs, others)
    requires EntryKey(d) == EntryKey(e) && d.actions == e.actions
    requires HoldsCaveats(d, pairs) && HoldsCaveats(e, others)
    ensures d.caveats == e.caveats
  {
    forall a
      ensures a in d.caveats <==> a in e.caveats
      ensures a in d.caveats ==> d.caveats[a] == e.caveats[a]
    {
      assert a in d.caveats <==> a in d.actions;
      assert a in e.caveats <==> a in e.actions;
      if a in d.caveats { OneCaveat(d, e, pairs, others, a); }
    }
  }

  /** The pairs of a key fix its entry. */
  lemma OneEntry(d: Entry, e: Entry, pairs: seq<Pair>, others: seq<Pair>)
    requires Coherent(pairs) && NoCaveatsClash(pairs) && LegacyIsBare(pairs) && SamePairs(pairs, others)
    requires Describes(d, pairs) && Describes(e, others) && EntryKey(d) == EntryKey(e)
    requires Sorted(d.actions) && Sorted(e.actions)
    ensures d == e
  {
    OnePlace(d, e, pairs, others);
    OneActions(d, e, pairs, others);
    OneCaveats(d, e, pairs, others);
    OneMismatch(d, e, pairs, others);
  }

  lemma OneMismatch(d: Entry, e: Entry, pairs: seq<Pair>, others: seq<Pair>)
    requires SamePairs(pairs, others) && EntryKey(d) == EntryKey(e)
    requires HoldsMismatch(d, pairs) && HoldsMismatch(e, others)
    ensures d.mismatch == e.mismatch
  {
  }

  lemma SameSet(a: seq<Text>, b: seq<Text>)
    requires NoRepeat(a) && NoRepeat(b) && Sorted(a) && Sorted(b) && forall t :: t in a <==> t in b
    ensures a == b
  {
    forall t
      ensures multiset(a)[t] == multiset(b)[t]
    {
      NoRepeatOnce(a, t);
      NoRepeatOnce(b, t);
    }
    assert multiset(a) == multiset(b);
    SortedIsUnique(a, b);
  }

  lemma EntriesAreSorted(pairs: seq<Pair>)
    ensures forall e :: e in EntriesOf(pairs) ==> Sorted(e.actions)
    ensures NoTies(EntriesOf(pairs)) ==> InOrder(EntriesOf(pairs))
  {
    var named := ActionsSorted(Grouped(pairs));
    GroupedGroups(pairs);
    ActionsSortedGroups(Grouped(pairs), pairs);
    assert DistinctKeys(named);
    SortKeeps(named);
    forall e | e in EntriesOf(pairs)
      ensures Sorted(e.actions)
    {
      ActionsAreSorted(Grouped(pairs), e);
    }
    if NoTies(EntriesOf(pairs)) { SortInOrder(named); }
  }

  lemma ActionsAreSorted(entries: seq<Entry>, e: Entry)
    requires e in ActionsSorted(entries)
    ensures Sorted(e.actions)
  {
    var k :| 0 <= k < |entries| && ActionsSorted(entries)[k] == e;
    SortSorts(entries[k].actions);
  }

  lemma SameEntries(pairs: seq<Pair>, others: seq<Pair>, e: Entry)
    requires Coherent(pairs) && NoCaveatsClash(pairs) && LegacyIsBare(pairs) && SamePairs(pairs, others)
    requires e in EntriesOf(pairs)
    ensures e in EntriesOf(others)
  {
    PairsAreGrouped(pairs);
    PairsAreGrouped(others);
    EntriesAreSorted(pairs);
    EntriesAreSorted(others);
    var i :| 0 <= i < |EntriesOf(pairs)| && EntriesOf(pairs)[i] == e;
    assert Describes(EntriesOf(pairs)[i], pairs);
    var p :| p in pairs && p.service == e.service && p.place == e.place;
    assert p in others && PairKey(p) == EntryKey(e);
    var k :| 0 <= k < |EntriesOf(others)| && EntryKey(EntriesOf(others)[k]) == PairKey(p);
    assert EntriesOf(others)[k] in EntriesOf(others);
    OneEntry(e, EntriesOf(others)[k], pairs, others);
  }

  lemma SameConditions(pairs: seq<Pair>, others: seq<Pair>)
    requires SamePairs(pairs, others) && Consistent(pairs) && LegacyIsBare(pairs)
    ensures SamePairs(others, pairs) && Consistent(others) && LegacyIsBare(others)
  {
  }

  /** One entry a key. */
  lemma OneNameEach(entries: seq<Entry>, d: Entry, e: Entry)
    requires DistinctKeys(entries) && d in entries && e in entries && EntryKey(d) == EntryKey(e)
    ensures d == e
  {
  }

  lemma OneSegmentHasNoTies(pairs: seq<Pair>)
    requires OneSegment(pairs)
    ensures NoTies(EntriesOf(pairs))
  {
    PairsAreGrouped(pairs);
    forall d, e | d in EntriesOf(pairs) && e in EntriesOf(pairs) && CompareEntries(d, e) == 0
      ensures d == e
    {
      LessIsTotal(d, e);
      assert NamedBy(d, pairs) && NamedBy(e, pairs);
      var p :| p in pairs && p.service == d.service && p.place == d.place;
      var q :| q in pairs && q.service == e.service && q.place == e.place;
      assert SameSpot(p, q);
      OneNameEach(EntriesOf(pairs), d, e);
    }
  }

  /** For consistent pairs the entries depend only on which pairs there are, not on their order. */
  lemma OrderDoesNotMatter(pairs: seq<Pair>, others: seq<Pair>)
    requires multiset(pairs) == multiset(others) && Consistent(pairs) && LegacyIsBare(pairs)
    ensures EntriesOf(pairs) == EntriesOf(others)
  {
    SameLength(pairs, others);
    SameConditions(pairs, others);
    forall e
      ensures e in EntriesOf(pairs) <==> e in EntriesOf(others)
    {
      if e in EntriesOf(pairs) { SameEntries(pairs, others, e); }
      if e in EntriesOf(others) { SameEntries(others, pairs, e); }
    }
    OneSegmentHasNoTies(pairs);
    OneSegmentHasNoTies(others);
    EntriesAreSorted(pairs);
    EntriesAreSorted(others);
    InOrderIsUnique(EntriesOf(pairs), EntriesOf(others));
  }

  // ---- reordering lines, resources and abilities ----

  lemma {:induction false} FlatAppend<T>(a: seq<T>, b: seq<T>, f: T -> seq<Pair>)
    ensures Flat(a + b, f) == Flat(a, f) + Flat(b, f)
  {
    if a == [] {
      assert a + b == b;
    } else {
      FlatAppend(a[1..], b, f);
      assert (a + b)[1..] == a[1..] + b;
      Reassociated(f(a[0]), Flat(a[1..], f), Flat(b, f));
    }
  }

  lemma FlatMiddle<T>(front: seq<T>, x: T, back: seq<T>, f: T -> seq<Pair>)
    ensures multiset(Flat(front + ([x] + back), f)) == multiset(f(x)) + multiset(Flat(front + back, f))
  {
    FlatAppend(front, [x] + back, f);
    FlatAppend(front, back, f);
    assert ([x] + back)[1..] == back;
  }

  lemma MovedFront<T>(a: seq<T>, b: seq<T>, j: nat)
    requires a != [] && j < |b| && b[j] == a[0] && multiset(a) == multiset(b)
    ensures b == b[..j] + ([a[0]] + b[j + 1..])
    ensures multiset(a[1..]) == multiset(b[..j] + b[j + 1..])
  {
    assert b == b[..j] + ([b[j]] + b[j + 1..]) && a == [a[0]] + a[1..];
    SameRest(multiset(a[1..]), multiset(b[..j] + b[j + 1..]), a[0]);
  }

  /** Reordered items flatten to reordered pairs. */
  lemma {:induction false} FlatPermutes<T>(a: seq<T>, b: seq<T>, f: T -> seq<Pair>)
    requires multiset(a) == multiset(b)
    ensures multiset(Flat(a, f)) == multiset(Flat(b, f))
  {
    SameLength(a, b);
    if a != [] {
      assert a[0] in a;
      var j :| 0 <= j < |b| && b[j] == a[0];
      MovedFront(a, b, j);
      FlatPermutes(a[1..], b[..j] + b[j + 1..], f);
      FlatMiddle(b[..j], a[0], b[j + 1..], f);
    }
  }

  /** Items each replaced by one with reordered pairs. */
  lemma {:induction false} FlatPointwise<T>(a: seq<T>, b: seq<T>, f: T -> seq<Pair>)
    requires |a| == |b| && forall i :: 0 <= i < |a| ==> multiset(f(a[i])) == multiset(f(b[i]))
    ensures multiset(Flat(a, f)) == multiset(Flat(b, f))
  {
    if a != [] {
      FlatPointwise(a[1..], b[1..], f);
    }
  }

  /** The same resource with its abilities in another order. */
  predicate AbilitiesReordered(r: Resource, q: Resource) {
    && r.uri == q.uri && r.abilities.Some? == q.abilities.Some?
    && (r.abilities.Some? ==> multiset(r.abilities.value) == multiset(q.abilities.value))
  }

  predicate EachReordered(a: seq<Resource>, b: seq<Resource>) {
    |a| == |b| && forall i :: 0 <= i < |a| ==> AbilitiesReordered(a[i], b[i])
  }

  /** The same payload with its resources, and their abilities, in another order. */
  ghost predicate LineReordered(l: Line, m: Line) {
    l == m || (l.Recap? && m.Recap? && exists att :: EachReordered(l.att, att) && multiset(att) == multiset(m.att))
  }

  ghost predicate EachLineReordered(a: seq<Line>, b: seq<Line>) {
    |a| == |b| && forall i :: 0 <= i < |a| ==> LineReordered(a[i], b[i])
  }

  lemma ResourceReorderedPairs(r: Resource, q: Resource)
    requires AbilitiesReordered(r, q)
    ensures multiset(ResourcePairs(r)) == multiset(ResourcePairs(q))
  {
    if r.abilities.Some? {
      FlatPermutes(r.abilities.value, q.abilities.value, AbilityPairs(SplitUri(q.uri)));
    }
  }

  lemma PayloadReorderedPairs(a: seq<Resource>, att: seq<Resource>, b: seq<Resource>)
    requires EachReordered(a, att) && multiset(att) == multiset(b)
    ensures multiset(Flat(a, ResourcePairs)) == multiset(Flat(b, ResourcePairs))
  {
    forall i | 0 <= i < |att|
      ensures multiset(ResourcePairs(a[i])) == multiset(ResourcePairs(att[i]))
    {
      ResourceReorderedPairs(a[i], att[i]);
    }
    FlatPointwise(a, att, ResourcePairs);
    FlatPermutes(att, b, ResourcePairs);
  }

  lemma LineReorderedPairs(l: Line, m: Line)
    requires LineReordered(l, m)
    ensures multiset(LinePairs(l)) == multiset(LinePairs(m))
  {
    if l != m {
      var att :| EachReordered(l.att, att) && multiset(att) == multiset(m.att);
      PayloadReorderedPairs(l.att, att, m.att);
    }
  }

  /** The same request with its lines, and the resources and abilities inside them, in another order. */
  ghost predicate Reordered(lines: seq<Line>, others: seq<Line>) {
    exists middle :: EachLineReordered(lines, middle) && multiset(middle) == multiset(others)
  }

  lemma ReorderedPairs(lines: seq<Line>, others: seq<Line>)
    requires Reordered(lines, others)
    ensures multiset(Pairs(lines)) == multiset(Pairs(others))
  {
    var middle :| EachLineReordered(lines, middle) && multiset(middle) == multiset(others);
    forall i | 0 <= i < |lines|
      ensures multiset(LinePairs(lines[i])) == multiset(LinePairs(middle[i]))
    {
      LineReorderedPairs(lines[i], middle[i]);
    }
    FlatPointwise(lines, middle, LinePairs);
    FlatPermutes(middle, others, LinePairs);
  }

  lemma {:induction false} InFlat<T>(items: seq<T>, f: T -> seq<Pair>, p: Pair)
    requires p in Flat(items, f)
    ensures exists i :: 0 <= i < |items| && p in f(items[i])
  {
    if p !in f(items[0]) {
      InFlat(items[1..], f, p);
      var i :| 0 <= i < |items[1..]| && p in f(items[1..][i]);
      assert items[i + 1] == items[1..][i];
    }
  }

  lemma LegacyPairsAreBare(lines: seq<Line>)
    ensures LegacyIsBare(Pairs(lines))
  {
    forall p | p in Pairs(lines) && p.legacy
      ensures p.caveats == []
    {
      InFlat(lines, LinePairs, p);
      var i :| 0 <= i < |lines| && p in LinePairs(lines[i]);
      if lines[i].Recap? {
        InFlat(lines[i].att, ResourcePairs, p);
        var j :| 0 <= j < |lines[i].att| && p in ResourcePairs(lines[i].att[j]);
        InFlat(lines[i].att[j].abilities.value, AbilityPairs(SplitUri(lines[i].att[j].uri)), p);
      }
    }
  }

  /** Reordering a consistent request leaves the review's entries as they are. */
  lemma ReorderedRequestsAgree(lines: seq<Line>, others: seq<Line>)
    requires Reordered(lines, others) && Consistent(Pairs(lines))
    ensures EntriesOf(Pairs(lines)) == EntriesOf(Pairs(others))
  {
    ReorderedPairs(lines, others);
    LegacyPairsAreBare(lines);
    OrderDoesNotMatter(Pairs(lines), Pairs(others));
  }

  // ---- when one key is one place ----

  predicate NulFree(p: Pair) {
    NUL !in p.service && NUL !in p.place.space && NUL !in p.place.path
  }

  lemma CutAtNul(a: Text, b: Text, r: Text, q: Text)
    requires NUL !in a && NUL !in b && a + [NUL] + r == b + [NUL] + q
    ensures a == b && r == q
  {
    FindAt(a, NUL, r);
    FindAt(b, NUL, q);
    var x, y := a + [NUL] + r, b + [NUL] + q;
    assert a == x[..|a|] && b == y[..|b|] && r == x[|a| + 1..] && q == y[|b| + 1..];
  }

  /** Without NUL characters a key names its service, space and path, and its segment up to absent or empty. */
  lemma KeyNamesPlace(p: Pair, q: Pair)
    requires NulFree(p) && NulFree(q) && PairKey(p) == PairKey(q)
    ensures p.service == q.service && p.place.space == q.place.space && p.place.path == q.place.path
    ensures p.place.segment.GetOr([]) == q.place.segment.GetOr([])
  {
    var r, t := p.place.segment.GetOr([]), q.place.segment.GetOr([]);
    var a, b := p.place.path + [NUL] + r, q.place.path + [NUL] + t;
    var c, d := p.place.space + [NUL] + a, q.place.space + [NUL] + b;
    assert PairKey(p) == p.service + [NUL] + c && PairKey(q) == q.service + [NUL] + d;
    CutAtNul(p.service, q.service, c, d);
    CutAtNul(p.place.space, q.place.space, a, b);
    CutAtNul(p.place.path, q.place.path, r, t);
  }

  /** One service, space and path, the segment absent from one resource and empty in the other. */
  predicate AbsentAndEmpty(p: Pair, q: Pair) {
    && p.service == q.service && p.place.space == q.place.space && p.place.path == q.place.path
    && p.place.segment == None && q.place.segment == Some([])
  }

  predicate BothAbsentAndEmpty(pairs: seq<Pair>) {
    exists p, q :: p in pairs && q in pairs && AbsentAndEmpty(p, q)
  }

  lemma IncoherentPair(p: Pair, q: Pair)
    requires NulFree(p) && NulFree(q) && PairKey(p) == PairKey(q) && !(p.service == q.service && p.place == q.place)
    ensures AbsentAndEmpty(p, q) || AbsentAndEmpty(q, p)
  {
    KeyNamesPlace(p, q);
  }

  /** So the keys of NUL-free pairs are coherent exactly when no service, space and path come with the segment both absent and empty. */
  lemma CoherentExactly(pairs: seq<Pair>)
    requires forall p :: p in pairs ==> NulFree(p)
    ensures Coherent(pairs) <==> !BothAbsentAndEmpty(pairs)
  {
    if BothAbsentAndEmpty(pairs) {
      var p, q :| p in pairs && q in pairs && AbsentAndEmpty(p, q);
      assert PairKey(p) == PairKey(q);
    }
    if !Coherent(pairs) {
      var p, q :| p in pairs && q in pairs && PairKey(p) == PairKey(q) && !(p.service == q.service && p.place == q.place);
      IncoherentPair(p, q);
    }
  }

  // ---- any pair can come first, or last ----

  /** The same items, the one at `i` first or last. */
  function Placed<T>(items: seq<T>, i: nat, first: bool): seq<T>
    requires i < |items|
  {
    if first then [items[i]] + (items[..i] + items[i + 1..]) else items[..i] + items[i + 1..] + [items[i]]
  }

  lemma PlacedIsReordered<T>(items: seq<T>, i: nat, first: bool)
    requires i < |items|
    ensures multiset(Placed(items, i, first)) == multiset(items)
  {
    assert items == items[..i] + [items[i]] + items[i + 1..];
  }

  /** `p` is the first, or the last, of the pairs. */
  predicate Ends(pairs: seq<Pair>, p: Pair, first: bool) {
    pairs != [] && p == if first then pairs[0] else pairs[|pairs| - 1]
  }

  lemma FlatPlaced<T>(items: seq<T>, i: nat, first: bool, f: T -> seq<Pair>, p: Pair)
    requires i < |items| && Ends(f(items[i]), p, first)
    ensures Ends(Flat(Placed(items, i, first), f), p, first)
  {
    var rest, x := items[..i] + items[i + 1..], items[i];
    assert Flat([x], f) == f(x) + Flat([x][1..], f) == f(x);
    if first { FlatAppend([x], rest, f); } else { FlatAppend(rest, [x], f); }
  }

  lemma PlacedInResource(r: Resource, p: Pair, first: bool) returns (q: Resource)
    requires p in ResourcePairs(r)
    ensures AbilitiesReordered(r, q) && Ends(ResourcePairs(q), p, first)
  {
    var f, abilities := AbilityPairs(SplitUri(r.uri)), r.abilities.value;
    InFlat(abilities, f, p);
    var i :| 0 <= i < |abilities| && p in f(abilities[i]);
    PlacedIsReordered(abilities, i, first);
    FlatPlaced(abilities, i, first, f, p);
    q := Resource(r.uri, Some(Placed(abilities, i, first)));
  }

  lemma PlacedInPayload(att: seq<Resource>, p: Pair, first: bool) returns (middle: seq<Resource>, placed: seq<Resource>)
    requires p in Flat(att, ResourcePairs)
    ensures EachReordered(att, middle) && multiset(middle) == multiset(placed) && Ends(Flat(placed, ResourcePairs), p, first)
  {
    InFlat(att, ResourcePairs, p);
    var j :| 0 <= j < |att| && p in ResourcePairs(att[j]);
    var r := PlacedInResource(att[j], p, first);
    middle := att[j := r];
    PlacedIsReordered(middle, j, first);
    FlatPlaced(middle, j, first, ResourcePairs, p);
    placed := Placed(middle, j, first);
  }

  lemma PlacedInLine(l: Line, p: Pair, first: bool) returns (m: Line)
    requires p in LinePairs(l)
    ensures LineReordered(l, m) && Ends(LinePairs(m), p, first)
  {
    m := l;
    if l.Recap? {
      var middle, placed := PlacedInPayload(l.att, p, first);
      m := Recap(placed);
    }
  }

  lemma OneLineReordered(lines: seq<Line>, i: nat, m: Line)
    requires i < |lines| && LineReordered(lines[i], m)
    ensures EachLineReordered(lines, lines[i := m])
  {
  }

  /** Some order of the request puts the pair first, and some order puts it last. */
  lemma PlacedInRequest(lines: seq<Line>, p: Pair, first: bool) returns (others: seq<Line>)
    requires p in Pairs(lines)
    ensures Reordered(lines, others) && Ends(Pairs(others), p, first)
  {
    InFlat(lines, LinePairs, p);
    var i :| 0 <= i < |lines| && p in LinePairs(lines[i]);
    var m := PlacedInLine(lines[i], p, first);
    var middle := lines[i := m];
    OneLineReordered(lines, i, m);
    PlacedIsReordered(middle, i, first);
    FlatPlaced(middle, i, first, LinePairs, p);
    others := Placed(middle, i, first);
  }

  // ---- when the order matters ----

  predicate NamedAfter(e: Entry, p: Pair) {
    e.service == p.service && e.place == p.place
  }

  lemma AddedKeepsFirst(entries: seq<Entry>, p: Pair)
    requires entries != []
    ensures Added(entries, p) != [] && Added(entries, p)[0].service == entries[0].service && Added(entries, p)[0].place == entries[0].place
  {
  }

  /** The first group is named after the first pair, whatever follows. */
  lemma {:induction false} FirstNamesGroup(pairs: seq<Pair>)
    requires pairs != []
    ensures Grouped(pairs) != [] && NamedAfter(Grouped(pairs)[0], pairs[0])
  {
    var before := pairs[..|pairs| - 1];
    if before == [] {
      assert Grouped(before) == [];
    } else {
      FirstNamesGroup(before);
      AddedKeepsFirst(Grouped(before), pairs[|pairs| - 1]);
    }
  }

  /** Nothing that ties with `e` stands before it. */
  ghost predicate Leads(entries: seq<Entry>, e: Entry) {
    exists i :: 0 <= i < |entries| && entries[i] == e && forall j :: 0 <= j < i ==> CompareEntries(e, entries[j]) != 0
  }

  lemma {:induction false} InsertLeads(e: Entry, s: seq<Entry>) returns (i: nat)
    ensures i < |InsertEntry(e, s)| && InsertEntry(e, s)[i] == e
    ensures forall j :: 0 <= j < i ==> CompareEntries(e, InsertEntry(e, s)[j]) != 0
  {
    i := 0;
    if s != [] && CompareEntries(e, s[0]) > 0 {
      i := InsertLeads(e, s[1..]);
      i := i + 1;
    }
  }

  lemma LeadersAgree(entries: seq<Entry>, d: Entry, e: Entry)
    requires Leads(entries, d) && Leads(entries, e) && CompareEntries(d, e) == 0
    ensures d == e
  {
    LessIsTotal(d, e);
  }

  /** The sort is stable: the first pair's entry leads those it ties with. */
  lemma FirstLeads(pairs: seq<Pair>) returns (e: Entry)
    requires pairs != []
    ensures Leads(EntriesOf(pairs), e) && e in EntriesOf(pairs) && NamedAfter(e, pairs[0])
  {
    FirstNamesGroup(pairs);
    var named := ActionsSorted(Grouped(pairs));
    e := named[0];
    var i := InsertLeads(e, SortEntries(named[1..]));
    assert EntriesOf(pairs)[i] == e;
  }

  /** Two orders that start with pairs of one key or one spot, but of two places, give different entries. */
  lemma FirstsDiffer(a: seq<Pair>, b: seq<Pair>, p: Pair, q: Pair)
    requires Ends(a, p, true) && Ends(b, q, true) && !(p.service == q.service && p.place == q.place)
    requires PairKey(p) == PairKey(q) || SameSpot(p, q)
    ensures EntriesOf(a) != EntriesOf(b)
  {
    var d := FirstLeads(a);
    var e := FirstLeads(b);
    PairsAreGrouped(a);
    if EntriesOf(a) == EntriesOf(b) {
      if PairKey(p) == PairKey(q) {
        OneNameEach(EntriesOf(a), d, e);
      } else {
        LessIsTotal(d, e);
        LeadersAgree(EntriesOf(a), d, e);
      }
    }
  }

  /** The last ReCap pair of a key and ability sets the caveats. */
  lemma LastWins(pairs: seq<Pair>, p: Pair) returns (e: Entry)
    requires Ends(pairs, p, false) && !p.legacy
    ensures e in EntriesOf(pairs) && EntryKey(e) == PairKey(p) && p.ability in e.caveats && e.caveats[p.ability] == p.caveats
  {
    var before := Grouped(pairs[..|pairs| - 1]);
    var i := FindEntry(before, PairKey(p));
    assert Grouped(pairs) == Added(before, p);
    var named := ActionsSorted(Grouped(pairs));
    e := named[i];
    GroupedGroups(pairs);
    ActionsSortedGroups(Grouped(pairs), pairs);
    SortKeeps(named);
    assert e in named;
  }

  lemma LastsDiffer(a: seq<Pair>, b: seq<Pair>, p: Pair, q: Pair)
    requires Ends(a, p, false) && Ends(b, q, false) && CaveatsClash(p, q)
    ensures EntriesOf(a) != EntriesOf(b)
  {
    var d := LastWins(a, p);
    var e := LastWins(b, q);
    PairsAreGrouped(a);
    if EntriesOf(a) == EntriesOf(b) { OneNameEach(EntriesOf(a), d, e); }
  }

  /** The entries do not depend on the order of the request. */
  ghost predicate OrderIndependent(lines: seq<Line>) {
    forall others :: Reordered(lines, others) ==> EntriesOf(Pairs(others)) == EntriesOf(Pairs(lines))
  }

  lemma PlacesMatter(lines: seq<Line>, p: Pair, q: Pair)
    requires p in Pairs(lines) && q in Pairs(lines) && !(p.service == q.service && p.place == q.place)
    requires PairKey(p) == PairKey(q) || SameSpot(p, q)
    ensures !OrderIndependent(lines)
  {
    var a := PlacedInRequest(lines, p, true);
    var b := PlacedInRequest(lines, q, true);
    FirstsDiffer(Pairs(a), Pairs(b), p, q);
  }

  lemma CaveatsMatter(lines: seq<Line>, p: Pair, q: Pair)
    requires p in Pairs(lines) && q in Pairs(lines) && CaveatsClash(p, q)
    ensures !OrderIndependent(lines)
  {
    var a := PlacedInRequest(lines, p, false);
    var b := PlacedInRequest(lines, q, false);
    LastsDiffer(Pairs(a), Pairs(b), p, q);
  }

  lemma TwoPlaces(pairs: seq<Pair>) returns (p: Pair, q: Pair)
    requires !Coherent(pairs) || !OneSegment(pairs)
    ensures p in pairs && q in pairs && !(p.service == q.service && p.place == q.place)
    ensures PairKey(p) == PairKey(q) || SameSpot(p, q)
  {
    if !Coherent(pairs) {
      p, q :| p in pairs && q in pairs && PairKey(p) == PairKey(q) && !(p.service == q.service && p.place == q.place);
    } else {
      p, q :| p in pairs && q in pairs && SameSpot(p, q) && p.place.segment != q.place.segment;
    }
  }

  /** Whenever a request is not consistent, two of its orders give different entries. */
  lemma OrderMatters(lines: seq<Line>)
    requires !Consistent(Pairs(lines))
    ensures !OrderIndependent(lines)
  {
    if NoCaveatsClash(Pairs(lines)) {
      var p, q := TwoPlaces(Pairs(lines));
      PlacesMatter(lines, p, q);
    } else {
      var p, q :| p in Pairs(lines) && q in Pairs(lines) && CaveatsClash(p, q);
      CaveatsMatter(lines, p, q);
    }
  }

  /**
   * For every request: its entries are the same in every order of its lines,
   * resources and abilities if and only if a key names one place, pairs that
   * agree on service, space and path agree on the segment, and no ability
   * comes with two caveat lists under one key.
   */
  lemma OrderIndependentExactly(lines: seq<Line>)
    ensures OrderIndependent(lines) <==> Consistent(Pairs(lines))
  {
    if Consistent(Pairs(lines)) {
      forall others | Reordered(lines, others)
        ensures EntriesOf(Pairs(others)) == EntriesOf(Pairs(lines))
      {
        ReorderedRequestsAgree(lines, others);
      }
    } else {
      OrderMatters(lines);
    }
  }

  /** Without NUL characters, one segment each is enough for the keys. */
  lemma OrderIndependentWithoutNul(lines: seq<Line>)
    requires forall p :: p in Pairs(lines) ==> NulFree(p)
    ensures OrderIndependent(lines) <==> OneSegment(Pairs(lines)) && NoCaveatsClash(Pairs(lines))
  {
    OrderIndependentExactly(lines);
    if OneSegment(Pairs(lines)) {
      forall p, q | p in Pairs(lines) && q in Pairs(lines) && PairKey(p) == PairKey(q)
        ensures p.service == q.service && p.place == q.place
      {
        KeyNamesPlace(p, q);
        assert SameSpot(p, q);
      }
    }
  }

  /** A bare space and the space with a final slash are such a case: any request with both depends on its order. */
  lemma BareSpaceAndSlash(space: Text, p: Pair, q: Pair, lines: seq<Line>)
    requires TINYCLOUD + [COLON] <= space && SLASH !in space
    requires p.place == SplitUri(space) && q.place == SplitUri(space + [SLASH]) && p.service == q.service
    requires p in Pairs(lines) && q in Pairs(lines)
    ensures !OrderIndependent(lines)
  {
    var cut := Find(space + [SLASH], SLASH);
    FindAt(space, SLASH, []);
    assert space + [SLASH] + [] == space + [SLASH];
    assert (space + [SLASH])[..cut] == space && (space + [SLASH])[cut + 1..] == [];
    assert SplitUri(space) == Place(space, [], None) && SplitUri(space + [SLASH]) == Place(space, [], Some([]));
    PlacesMatter(lines, p, q);
  }
}
