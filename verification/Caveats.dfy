/** Caveat lists compared as multisets, by sorting their canonical keys. */
module Caveats {
  import opened CanonicalJson

  function Keys(caveats: seq<Json>): (r: seq<Text>)
    ensures |r| == |caveats| && forall i :: 0 <= i < |r| ==> r[i] == CanonicalJsonKey(caveats[i])
  {
    seq(|caveats|, i requires 0 <= i < |caveats| => CanonicalJsonKey(caveats[i]))
  }

  function InsertText(t: Text, sorted: seq<Text>): (r: seq<Text>)
    ensures multiset(r) == multiset{t} + multiset(sorted)
  {
    if sorted == [] || Below(t, sorted[0]) then [t] + sorted
    else
      assert sorted == [sorted[0]] + sorted[1..];
      [sorted[0]] + InsertText(t, sorted[1..])
  }

  function SortTexts(texts: seq<Text>): (r: seq<Text>)
    ensures multiset(r) == multiset(texts)
  {
    if texts == [] then []
    else
      assert texts == [texts[0]] + texts[1..];
      InsertText(texts[0], SortTexts(texts[1..]))
  }

  predicate Sorted(texts: seq<Text>) {
    forall i, j :: 0 <= i < j < |texts| ==> !Below(texts[j], texts[i])
  }

  lemma AtMost(a: Text, b: Text, c: Text)
    requires !Below(b, a) && !Below(c, b)
    ensures !Below(c, a)
  {
    BelowIsTotal(a, b);
    BelowIsTotal(b, c);
    BelowIsTotal(a, c);
    if a != b && b != c { BelowIsTransitive(a, b, c); }
  }

  lemma {:induction false} InsertSorts(t: Text, sorted: seq<Text>)
    requires Sorted(sorted)
    ensures Sorted(InsertText(t, sorted))
  {
    var r := InsertText(t, sorted);
    if sorted == [] {
    } else if Below(t, sorted[0]) {
      BelowIsTotal(t, sorted[0]);
      forall j | 0 <= j < |sorted|
        ensures !Below(sorted[j], t)
      {
        if j > 0 { AtMost(t, sorted[0], sorted[j]); }
      }
    } else {
      InsertSorts(t, sorted[1..]);
      var rest := InsertText(t, sorted[1..]);
      forall j | 0 <= j < |rest|
        ensures !Below(rest[j], sorted[0])
      {
        assert rest[j] in multiset(rest);
        if rest[j] != t {
          assert rest[j] in sorted[1..];
          var k :| 0 <= k < |sorted[1..]| && sorted[1..][k] == rest[j];
          assert sorted[k + 1] == rest[j];
        }
      }
    }
  }

  lemma {:induction false} SortSorts(texts: seq<Text>)
    ensures Sorted(SortTexts(texts))
  {
    if texts != [] {
      SortSorts(texts[1..]);
      InsertSorts(texts[0], SortTexts(texts[1..]));
    }
  }

  /** A list without its `j`-th element. */
  function Without<T>(s: seq<T>, j: nat): (r: seq<T>)
    requires j < |s|
    ensures multiset(s) == multiset{s[j]} + multiset(r) && |r| == |s| - 1
  {
    assert s == s[..j] + [s[j]] + s[j + 1..];
    s[..j] + s[j + 1..]
  }

  lemma SameLength<T>(a: seq<T>, b: seq<T>)
    requires multiset(a) == multiset(b)
    ensures |a| == |b| && forall x :: x in a <==> x in b
  {
    assert |multiset(a)| == |a| && |multiset(b)| == |b|;
    forall x
      ensures x in a <==> x in b
    {
      assert x in multiset(a) <==> x in a;
      assert x in multiset(b) <==> x in b;
    }
  }

  lemma SameRest<T>(a: multiset<T>, b: multiset<T>, x: T)
    requires multiset{x} + a == multiset{x} + b
    ensures a == b
  {
    assert multiset{x} + a - multiset{x} == a && multiset{x} + b - multiset{x} == b;
  }

  lemma {:induction false} SortedIsUnique(a: seq<Text>, b: seq<Text>)
    requires Sorted(a) && Sorted(b) && multiset(a) == multiset(b)
    ensures a == b
  {
    SameLength(a, b);
    if a != [] {
      assert a[0] in a && b[0] in b;
      SameLeast(a, b);
      assert a == [a[0]] + a[1..] && b == [b[0]] + b[1..];
      SameRest(multiset(a[1..]), multiset(b[1..]), a[0]);
      SortedIsUnique(a[1..], b[1..]);
    }
  }

  lemma SameLeast(a: seq<Text>, b: seq<Text>)
    requires Sorted(a) && Sorted(b) && a != [] && b != [] && a[0] in b && b[0] in a
    ensures a[0] == b[0]
  {
    var i :| 0 <= i < |a| && a[i] == b[0];
    var j :| 0 <= j < |b| && b[j] == a[0];
    BelowIsTotal(a[0], b[0]);
  }

  /** Lists matched element by element through `ka` and `kb` match the same way through `ma` and `mb`. */
  lemma {:induction false} Transfer<T, U>(ka: seq<T>, ma: seq<U>, kb: seq<T>, mb: seq<U>)
    requires |ka| == |ma| && |kb| == |mb| && multiset(ka) == multiset(kb)
    requires forall i, j :: 0 <= i < |ka| && 0 <= j < |kb| && ka[i] == kb[j] ==> ma[i] == mb[j]
    ensures multiset(ma) == multiset(mb)
  {
    SameLength(ka, kb);
    if ka != [] {
      assert ka[0] in ka;
      var j :| 0 <= j < |kb| && kb[j] == ka[0];
      SameRest(multiset(Without(ka, 0)), multiset(Without(kb, j)), ka[0]);
      Transfer(Without(ka, 0), Without(ma, 0), Without(kb, j), Without(mb, j));
    }
  }

  lemma SortedEqual(a: seq<Text>, b: seq<Text>)
    ensures SortTexts(a) == SortTexts(b) <==> multiset(a) == multiset(b)
    ensures |SortTexts(a)| == |a|
  {
    SortSorts(a);
    SortSorts(b);
    SameLength(SortTexts(a), a);
    if multiset(a) == multiset(b) { SortedIsUnique(SortTexts(a), SortTexts(b)); }
    if SortTexts(a) == SortTexts(b) { assert multiset(SortTexts(a)) == multiset(SortTexts(b)); }
  }

  ghost predicate SameCaveats(a: seq<Json>, b: seq<Json>) {
    multiset(Meanings(a)) == multiset(Meanings(b))
  }

  lemma KeysAreMeanings(a: seq<Json>, b: seq<Json>)
    requires (forall i :: 0 <= i < |a| ==> Valid(a[i])) && (forall i :: 0 <= i < |b| ==> Valid(b[i]))
    ensures multiset(Keys(a)) == multiset(Keys(b)) <==> SameCaveats(a, b)
  {
    forall i, j | 0 <= i < |a| && 0 <= j < |b|
      ensures Keys(a)[i] == Keys(b)[j] <==> Meanings(a)[i] == Meanings(b)[j]
    {
      KeyIsMeaning(a[i], b[j]);
    }
    if multiset(Keys(a)) == multiset(Keys(b)) { Transfer(Keys(a), Meanings(a), Keys(b), Meanings(b)); }
    if SameCaveats(a, b) { Transfer(Meanings(a), Keys(a), Meanings(b), Keys(b)); }
  }

  /** Sorting the keys and comparing them in order is multiset equality, up to the order of object keys. */
  method CanonicalMultisetEqual(a: seq<Json>, b: seq<Json>) returns (equal: bool)
    requires (forall i :: 0 <= i < |a| ==> Valid(a[i])) && (forall i :: 0 <= i < |b| ==> Valid(b[i]))
    ensures equal <==> SameCaveats(a, b)
  {
    KeysAreMeanings(a, b);
    if multiset(Keys(a)) == multiset(Keys(b)) { SameLength(Keys(a), Keys(b)); }
    if |a| != |b| {
      return false;
    }
    var sa, sb := SortTexts(Keys(a)), SortTexts(Keys(b));
    SortedEqual(Keys(a), Keys(b));
    SortedEqual(Keys(b), Keys(a));
    equal := SameTexts(sa, sb);
  }

  method SameTexts(a: seq<Text>, b: seq<Text>) returns (same: bool)
    requires |a| == |b|
    ensures same <==> a == b
  {
    for i := 0 to |a|
      invariant forall k :: 0 <= k < i ==> a[k] == b[k]
    {
      if a[i] != b[i] {
        return false;
      }
    }
    same := true;
  }
}
