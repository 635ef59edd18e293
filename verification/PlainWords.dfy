/**
 * The plain words of a row's known actions: one sentence when they all say the
 * same, else the kinds of action on each thing acted on. What a known action
 * says comes from a table; every other action is shown raw.
 */
module PlainWords {
  import opened Wrappers
  import opened Search
  import AppScope

  datatype Kind =
    | Decrypt | Read | SetUp | Create | Change | Manage | Block | Unblock | Stop | Delete | Share
    | All

  /** The reading order of the kinds. */
  const KIND_ORDER: seq<Kind> := [Decrypt, Read, SetUp, Create, Change, Manage, Block, Unblock, Stop, Delete, Share]

  /** What one action says: its sentence, the kinds it counts as, and what it acts on. */
  datatype Entry = Entry(sentence: string, kinds: seq<Kind>, noun: string)

  /** By short service name and verb. */
  type Table = map<string, map<string, Entry>>

  /** `kinds` on `noun`, in the order they are read out. */
  datatype Part = Part(kinds: seq<Kind>, noun: string)

  datatype Parts = Sentences(sentences: seq<string>) | Kinds(parts: seq<Part>)

  const PREFIX := "tinycloud."

  /** The short name of the service before the first slash. */
  function Head(ability: string): string {
    var slash := Find(ability, '/');
    if slash == |ability| then ""
    else if PREFIX <= ability[..slash] then ability[|PREFIX|..slash]
    else ability[..slash]
  }

  function Lookup(table: Table, ability: string, rawOnly: bool): Option<Entry> {
    if rawOnly || Head(ability) !in table || AppScope.VerbOf(ability) !in table[Head(ability)] then None
    else Some(table[Head(ability)][AppScope.VerbOf(ability)])
  }

  /** The words read out for a set of kinds: everything if `All` is among them, and `Manage` in place of `Change`. */
  function Spoken(kinds: set<Kind>): seq<Kind> {
    if All in kinds then [All] else Ordered(KIND_ORDER, kinds)
  }

  function Ordered(order: seq<Kind>, kinds: set<Kind>): seq<Kind> {
    if order == [] then []
    else if order[0] in kinds && !(order[0] == Change && Manage in kinds) then [order[0]] + Ordered(order[1..], kinds)
    else Ordered(order[1..], kinds)
  }

  /** What the words say about a kind: itself, `Manage` for `Change`, or everything. */
  predicate Says(words: seq<Kind>, kind: Kind) {
    kind in words || (kind == Change && Manage in words) || All in words
  }

  lemma {:induction false} OrderedHas(order: seq<Kind>, kinds: set<Kind>, kind: Kind)
    ensures kind in Ordered(order, kinds) <==> kind in order && kind in kinds && !(kind == Change && Manage in kinds)
  {
    if order != [] { OrderedHas(order[1..], kinds, kind); }
  }

  /** The words say every kind that is there and no kind that is not. */
  lemma SpokenIsExact(kinds: set<Kind>)
    ensures forall kind :: kind in kinds ==> Says(Spoken(kinds), kind)
    ensures forall kind :: kind in Spoken(kinds) ==> kind in kinds
    ensures forall kind :: kind in kinds && kind != All && All !in kinds && kind !in Spoken(kinds) ==> kind == Change && Manage in kinds
  {
    forall kind: Kind
      ensures kind in Ordered(KIND_ORDER, kinds) <==> kind != All && kind in kinds && !(kind == Change && Manage in kinds)
    {
      OrderedHas(KIND_ORDER, kinds, kind);
      EveryKindIsOrdered(kind);
    }
  }

  lemma EveryKindIsOrdered(kind: Kind)
    ensures kind in KIND_ORDER <==> kind != All
  {
    assert KIND_ORDER[0] == Decrypt && KIND_ORDER[1] == Read && KIND_ORDER[2] == SetUp && KIND_ORDER[3] == Create;
    assert KIND_ORDER[4] == Change && KIND_ORDER[5] == Manage && KIND_ORDER[6] == Block && KIND_ORDER[7] == Unblock;
    assert KIND_ORDER[8] == Stop && KIND_ORDER[9] == Delete && KIND_ORDER[10] == Share;
  }

  // ---- a map and a set that keep their insertion order ----

  /** The nouns in the order they were first met, each with its kinds. */
  datatype Tally = Tally(nouns: seq<string>, kinds: map<string, set<Kind>>) {
    predicate Valid() {
      && (forall i, j :: 0 <= i < j < |nouns| ==> nouns[i] != nouns[j])
      && (forall i :: 0 <= i < |nouns| ==> nouns[i] in kinds)
      && (forall noun :: noun in kinds ==> noun in nouns)
    }

    function Of(noun: string): set<Kind> {
      if noun in kinds then kinds[noun] else {}
    }

    function Add(noun: string, more: set<Kind>): Tally {
      Tally(if noun in kinds then nouns else nouns + [noun], kinds[noun := Of(noun) + more])
    }
  }

  lemma AddKeepsOrder(t: Tally, noun: string, more: set<Kind>)
    requires t.Valid()
    ensures t.Add(noun, more).Valid()
  {
    var nouns := t.Add(noun, more).nouns;
    assert t.nouns <= nouns;
    assert forall other :: other in nouns <==> other in t.nouns || other == noun;
  }

  function Once(s: seq<string>, x: string): seq<string> {
    if x in s then s else s + [x]
  }

  predicate Distinct(s: seq<string>) {
    forall i, j :: 0 <= i < j < |s| ==> s[i] != s[j]
  }

  // ---- what the words must account for ----

  predicate Known(table: Table, ability: string, rawOnly: bool) {
    Lookup(table, ability, rawOnly).Some?
  }

  /** The actions that have no words, in order. */
  function Unworded(table: Table, abilities: seq<string>, rawOnly: bool): seq<string> {
    if abilities == [] then []
    else
      var front, last := Unworded(table, abilities[..|abilities| - 1], rawOnly), abilities[|abilities| - 1];
      if Known(table, last, rawOnly) then front else front + [last]
  }

  /** What the other actions say. */
  function Entries(table: Table, abilities: seq<string>, rawOnly: bool): set<Entry> {
    if abilities == [] then {}
    else
      var front, last := Entries(table, abilities[..|abilities| - 1], rawOnly), Lookup(table, abilities[|abilities| - 1], rawOnly);
      if last.Some? then front + {last.value} else front
  }

  predicate Said(entries: set<Entry>, sentence: string) {
    exists e :: e in entries && e.sentence == sentence
  }

  predicate Meant(entries: set<Entry>, noun: string, kind: Kind) {
    exists e :: e in entries && e.noun == noun && kind in e.kinds
  }

  predicate ActedOn(entries: set<Entry>, noun: string) {
    exists e :: e in entries && e.noun == noun
  }

  predicate SaysAll(words: seq<Kind>, kinds: seq<Kind>) {
    forall k :: 0 <= k < |kinds| ==> Says(words, kinds[k])
  }

  /** The words account for the entry: its sentence is there, or each of its kinds is said of its noun. */
  predicate Covers(parts: Parts, entry: Entry) {
    match parts
    case Sentences(sentences) => entry.sentence in sentences
    case Kinds(ps) => exists i :: 0 <= i < |ps| && ps[i].noun == entry.noun && SaysAll(ps[i].kinds, entry.kinds)
  }

  /** The part reads out exactly the kinds some action means, in reading order. */
  ghost predicate ReadsOut(entries: set<Entry>, part: Part) {
    && ActedOn(entries, part.noun)
    && exists kinds: set<Kind> :: (forall kind :: kind in kinds <==> Meant(entries, part.noun, kind)) && part.kinds == Spoken(kinds)
  }

  /** One sentence when the entries share it, otherwise one part for each noun. */
  ghost predicate Meaningful(entries: set<Entry>, parts: Parts) {
    match parts
    case Sentences(sentences) =>
      |sentences| <= 1 && forall k :: 0 <= k < |sentences| ==> Said(entries, sentences[k])
    case Kinds(ps) =>
      && (exists a, b :: a in entries && b in entries && a.sentence != b.sentence)
      && (forall i, j :: 0 <= i < j < |ps| ==> ps[i].noun != ps[j].noun)
      && forall i :: 0 <= i < |ps| ==> ReadsOut(entries, ps[i])
  }

  // ---- the loop ----

  function KindSet(kinds: seq<Kind>): set<Kind> {
    set k | k in kinds
  }

  /** The sentences and the tally of the entries so far. */
  ghost predicate Gathered(entries: set<Entry>, sentences: seq<string>, tally: Tally) {
    && tally.Valid() && Distinct(sentences)
    && (forall s :: s in sentences <==> Said(entries, s))
    && (forall noun, kind :: kind in tally.Of(noun) <==> Meant(entries, noun, kind))
    && (forall noun :: noun in tally.kinds <==> ActedOn(entries, noun))
  }

  lemma OneMoreEntry(entries: set<Entry>, entry: Entry)
    ensures forall s :: Said(entries + {entry}, s) <==> Said(entries, s) || entry.sentence == s
    ensures forall noun, kind ::
      Meant(entries + {entry}, noun, kind) <==> Meant(entries, noun, kind) || (entry.noun == noun && kind in entry.kinds)
    ensures forall noun :: ActedOn(entries + {entry}, noun) <==> ActedOn(entries, noun) || entry.noun == noun
  {
    assert entry in entries + {entry};
  }

  lemma Gather(entries: set<Entry>, sentences: seq<string>, tally: Tally, entry: Entry)
    requires Gathered(entries, sentences, tally)
    ensures Gathered(entries + {entry}, Once(sentences, entry.sentence), tally.Add(entry.noun, KindSet(entry.kinds)))
  {
    OneMoreEntry(entries, entry);
    AddKeepsOrder(tally, entry.noun, KindSet(entry.kinds));
  }

  /** An entry is there exactly when some action says it. */
  lemma {:induction false} EntriesAreSaid(table: Table, abilities: seq<string>, rawOnly: bool, e: Entry)
    ensures e in Entries(table, abilities, rawOnly) <==> Some(e) in Lookups(table, abilities, rawOnly)
  {
    if abilities != [] {
      var front, last := abilities[..|abilities| - 1], abilities[|abilities| - 1];
      EntriesAreSaid(table, front, rawOnly, e);
      assert Lookups(table, abilities, rawOnly) == Lookups(table, front, rawOnly) + [Lookup(table, last, rawOnly)];
    }
  }

  function Lookups(table: Table, abilities: seq<string>, rawOnly: bool): seq<Option<Entry>> {
    seq(|abilities|, i requires 0 <= i < |abilities| => Lookup(table, abilities[i], rawOnly))
  }

  function PartsOf(tally: Tally): (r: seq<Part>)
    ensures |r| == |tally.nouns|
    ensures forall i :: 0 <= i < |r| ==> r[i] == Part(Spoken(tally.Of(tally.nouns[i])), tally.nouns[i])
  {
    seq(|tally.nouns|, i requires 0 <= i < |tally.nouns| => Part(Spoken(tally.Of(tally.nouns[i])), tally.nouns[i]))
  }

  /** The sentences and the tally the loop has after these actions. */
  datatype Notes = Notes(sentences: seq<string>, tally: Tally) {
    function Add(e: Entry): Notes {
      Notes(Once(sentences, e.sentence), tally.Add(e.noun, KindSet(e.kinds)))
    }
  }

  function NotesOn(table: Table, abilities: seq<string>, rawOnly: bool): Notes {
    if abilities == [] then Notes([], Tally([], map[]))
    else
      var front, last := NotesOn(table, abilities[..|abilities| - 1], rawOnly), Lookup(table, abilities[|abilities| - 1], rawOnly);
      if last.Some? then front.Add(last.value) else front
  }

  lemma OneMoreAction(table: Table, abilities: seq<string>, n: nat, rawOnly: bool)
    requires n < |abilities|
    ensures var entry := Lookup(table, abilities[n], rawOnly);
      && Unworded(table, abilities[..n + 1], rawOnly) == Unworded(table, abilities[..n], rawOnly) + (if entry.Some? then [] else [abilities[n]])
      && NotesOn(table, abilities[..n + 1], rawOnly)
         == (if entry.Some? then NotesOn(table, abilities[..n], rawOnly).Add(entry.value) else NotesOn(table, abilities[..n], rawOnly))
  {
    assert abilities[..n + 1][..n] == abilities[..n];
  }

  lemma {:induction false} NotesGather(table: Table, abilities: seq<string>, rawOnly: bool)
    ensures Gathered(Entries(table, abilities, rawOnly), NotesOn(table, abilities, rawOnly).sentences, NotesOn(table, abilities, rawOnly).tally)
  {
    if abilities != [] {
      var front, last := abilities[..|abilities| - 1], Lookup(table, abilities[|abilities| - 1], rawOnly);
      NotesGather(table, front, rawOnly);
      var notes := NotesOn(table, front, rawOnly);
      if last.Some? { Gather(Entries(table, front, rawOnly), notes.sentences, notes.tally, last.value); }
    }
  }

  /**
   * Every action is shown raw or accounted for by the words, and the words say
   * nothing that no action means.
   */
  method Words(table: Table, abilities: seq<string>, rawOnly: bool) returns (parts: Parts, raw: seq<string>)
    ensures raw == Unworded(table, abilities, rawOnly)
    ensures forall e :: e in Entries(table, abilities, rawOnly) ==> Covers(parts, e)
    ensures Meaningful(Entries(table, abilities, rawOnly), parts)
  {
    var notes := Notes([], Tally([], map[]));
    raw := [];
    for n := 0 to |abilities|
      invariant raw == Unworded(table, abilities[..n], rawOnly)
      invariant notes == NotesOn(table, abilities[..n], rawOnly)
    {
      var entry := Lookup(table, abilities[n], rawOnly);
      OneMoreAction(table, abilities, n, rawOnly);
      if entry.None? {
        raw := raw + [abilities[n]];
      } else {
        notes := notes.Add(entry.value);
      }
    }
    assert abilities[..|abilities|] == abilities;
    parts := if |notes.sentences| <= 1 then Sentences(notes.sentences) else Kinds(PartsOf(notes.tally));
    PartsAccount(table, abilities, rawOnly, notes);
  }

  lemma PartsAccount(table: Table, abilities: seq<string>, rawOnly: bool, notes: Notes)
    requires notes == NotesOn(table, abilities, rawOnly)
    ensures var parts := if |notes.sentences| <= 1 then Sentences(notes.sentences) else Kinds(PartsOf(notes.tally));
      && Meaningful(Entries(table, abilities, rawOnly), parts)
      && forall e :: e in Entries(table, abilities, rawOnly) ==> Covers(parts, e)
  {
    NotesGather(table, abilities, rawOnly);
    if |notes.sentences| <= 1 {
      SentencesAccount(Entries(table, abilities, rawOnly), notes.sentences, notes.tally);
    } else {
      KindsAccount(Entries(table, abilities, rawOnly), notes.sentences, notes.tally);
    }
  }

  lemma SentencesAccount(entries: set<Entry>, sentences: seq<string>, tally: Tally)
    requires Gathered(entries, sentences, tally) && |sentences| <= 1
    ensures Meaningful(entries, Sentences(sentences))
    ensures forall e :: e in entries ==> Covers(Sentences(sentences), e)
  {
    forall e | e in entries
      ensures e.sentence in sentences
    {
      assert Said(entries, e.sentence);
    }
  }

  lemma KindsAccount(entries: set<Entry>, sentences: seq<string>, tally: Tally)
    requires Gathered(entries, sentences, tally) && |sentences| > 1
    ensures Meaningful(entries, Kinds(PartsOf(tally)))
    ensures forall e :: e in entries ==> Covers(Kinds(PartsOf(tally)), e)
  {
    assert sentences[0] != sentences[1] && sentences[0] in sentences && sentences[1] in sentences;
    var a :| a in entries && a.sentence == sentences[0];
    var b :| b in entries && b.sentence == sentences[1];
    forall i | 0 <= i < |PartsOf(tally)|
      ensures ReadsOut(entries, PartsOf(tally)[i])
    {
      assert forall kind :: kind in tally.Of(tally.nouns[i]) <==> Meant(entries, tally.nouns[i], kind);
    }
    forall e | e in entries
      ensures Covers(Kinds(PartsOf(tally)), e)
    {
      PartCovers(entries, sentences, tally, e);
    }
  }

  lemma PartCovers(entries: set<Entry>, sentences: seq<string>, tally: Tally, e: Entry)
    requires Gathered(entries, sentences, tally) && e in entries
    ensures Covers(Kinds(PartsOf(tally)), e)
  {
    assert ActedOn(entries, e.noun);
    var n :| 0 <= n < |tally.nouns| && tally.nouns[n] == e.noun;
    SpokenIsExact(tally.Of(e.noun));
    forall k | 0 <= k < |e.kinds|
      ensures Says(PartsOf(tally)[n].kinds, e.kinds[k])
    {
      assert Meant(entries, e.noun, e.kinds[k]);
    }
  }
}
