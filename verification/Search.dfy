/** `indexOf` over any sequence. */
module Search {
  /** The first place of `x`, or the length when there is none. */
  function Find<T(==)>(s: seq<T>, x: T): (i: nat)
    ensures i <= |s| && (i < |s| ==> s[i] == x) && forall k :: 0 <= k < i ==> s[k] != x
  {
    if s == [] || s[0] == x then 0 else 1 + Find(s[1..], x)
  }

  lemma {:induction false} FindAt<T>(a: seq<T>, x: T, rest: seq<T>)
    requires x !in a
    ensures Find(a + [x] + rest, x) == |a|
    ensures Find(a, x) == |a|
  {
    if a != [] {
      assert a == [a[0]] + a[1..];
      FindAt(a[1..], x, rest);
      assert (a + [x] + rest)[1..] == a[1..] + [x] + rest;
    }
  }
}
