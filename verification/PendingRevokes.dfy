/**
 * The pending-revoke record: grants whose revoke failed transiently, kept
 * with what a retry needs. The functions say what each storage-queue task
 * does to the record.
 */
module PendingRevokes {
  import opened GrantServer

  const MAX_REVOKE_ATTEMPTS: nat := 20

  datatype Entry = Entry(token: Token, attempts: nat, expiresAt: nat)

  /** Some entry of the record is for `t`. */
  predicate Contains(entries: seq<Entry>, t: Token) {
    exists i :: 0 <= i < |entries| && entries[i].token == t
  }

  ghost predicate DistinctTokens(entries: seq<Entry>) {
    forall i, j :: 0 <= i < j < |entries| ==> entries[i].token != entries[j].token
  }

  /** Distinct tokens, and every entry still within its attempt bound. */
  ghost predicate WellFormed(entries: seq<Entry>) {
    && DistinctTokens(entries)
    && forall i :: 0 <= i < |entries| ==> 1 <= entries[i].attempts < MAX_REVOKE_ATTEMPTS
  }

  /** appendPendingRevoke: a second entry for the same token is not added. */
  function Append(entries: seq<Entry>, t: Token, expiresAt: nat): seq<Entry> {
    if Contains(entries, t) then entries else entries + [Entry(t, 1, expiresAt)]
  }

  function Bump(e: Entry, bumped: map<Token, nat>): Entry {
    if e.token in bumped then e.(attempts := bumped[e.token]) else e
  }

  /** The write-back of a retry pass: drop what is done, keep the rest with its new count. */
  function Merge(entries: seq<Entry>, done: set<Token>, bumped: map<Token, nat>): seq<Entry> {
    if entries == [] then []
    else
      var rest := Merge(entries[1..], done, bumped);
      if entries[0].token in done then rest else [Bump(entries[0], bumped)] + rest
  }

  /** What one entry of a retry pass comes to. */
  datatype Verdict = Done | Dropped | Kept(attempts: nat)

  /**
   * An entry past its expiry or its attempts is dropped unasked; one whose
   * revoke was answered for good is done; a transient failure counts, and the
   * twentieth drops the entry.
   */
  function Judge(e: Entry, now: nat, transient: bool): Verdict {
    if now >= e.expiresAt || e.attempts >= MAX_REVOKE_ATTEMPTS then Dropped
    else if !transient then Done
    else if e.attempts + 1 >= MAX_REVOKE_ATTEMPTS then Dropped
    else Kept(e.attempts + 1)
  }

  lemma AppendContains(entries: seq<Entry>, t: Token, expiresAt: nat)
    ensures forall u :: Contains(Append(entries, t, expiresAt), u) <==> Contains(entries, u) || u == t
  {
    if !Contains(entries, t) {
      var r := entries + [Entry(t, 1, expiresAt)];
      forall u
        ensures Contains(r, u) <==> Contains(entries, u) || u == t
      {
        if Contains(entries, u) {
          var i :| 0 <= i < |entries| && entries[i].token == u;
          assert r[i].token == u;
        }
        assert r[|entries|].token == t;
      }
    }
  }

  lemma AppendKeepsWellFormed(entries: seq<Entry>, t: Token, expiresAt: nat)
    requires WellFormed(entries)
    ensures WellFormed(Append(entries, t, expiresAt))
  {
  }

  /** An entry is in the merged record exactly when it was in the re-read record and is not done. */
  lemma {:induction false} MergeContains(entries: seq<Entry>, done: set<Token>, bumped: map<Token, nat>, t: Token)
    ensures Contains(Merge(entries, done, bumped), t) <==> Contains(entries, t) && t !in done
  {
    if entries != [] {
      var rest := Merge(entries[1..], done, bumped);
      MergeContains(entries[1..], done, bumped, t);
      ContainsCons(entries[0], entries[1..], t);
      assert entries == [entries[0]] + entries[1..];
      ContainsCons(Bump(entries[0], bumped), rest, t);
    }
  }

  lemma ContainsCons(e: Entry, rest: seq<Entry>, t: Token)
    ensures Contains([e] + rest, t) <==> e.token == t || Contains(rest, t)
  {
    var all := [e] + rest;
    if Contains(rest, t) {
      var i :| 0 <= i < |rest| && rest[i].token == t;
      assert all[i + 1].token == t;
    }
    if e.token == t {
      assert all[0].token == t;
    }
    if Contains(all, t) && e.token != t {
      var i :| 0 <= i < |all| && all[i].token == t;
      assert rest[i - 1].token == t;
    }
  }

  /** Every merged entry is a re-read one with its count replaced by the pass's count, if it has one. */
  lemma {:induction false} MergeOrigin(entries: seq<Entry>, done: set<Token>, bumped: map<Token, nat>, k: nat)
    requires k < |Merge(entries, done, bumped)|
    ensures exists i :: 0 <= i < |entries| && entries[i].token !in done
              && Merge(entries, done, bumped)[k] == Bump(entries[i], bumped)
  {
    var rest := Merge(entries[1..], done, bumped);
    if entries[0].token in done {
      MergeOrigin(entries[1..], done, bumped, k);
      var i :| 0 <= i < |entries[1..]| && entries[1..][i].token !in done && rest[k] == Bump(entries[1..][i], bumped);
      assert entries[i + 1] == entries[1..][i];
    } else if k == 0 {
      assert Merge(entries, done, bumped)[0] == Bump(entries[0], bumped);
    } else {
      MergeOrigin(entries[1..], done, bumped, k - 1);
      var i :| 0 <= i < |entries[1..]| && entries[1..][i].token !in done && rest[k - 1] == Bump(entries[1..][i], bumped);
      assert entries[i + 1] == entries[1..][i];
    }
  }

  lemma {:induction false} MergeKeepsDistinct(entries: seq<Entry>, done: set<Token>, bumped: map<Token, nat>)
    requires DistinctTokens(entries)
    ensures DistinctTokens(Merge(entries, done, bumped))
  {
    if entries != [] {
      var rest := Merge(entries[1..], done, bumped);
      MergeKeepsDistinct(entries[1..], done, bumped);
      MergeContains(entries[1..], done, bumped, entries[0].token);
      assert !Contains(entries[1..], entries[0].token) by {
        forall i | 0 <= i < |entries[1..]|
          ensures entries[1..][i].token != entries[0].token
        {
          assert entries[1..][i] == entries[i + 1];
        }
      }
      assert !Contains(rest, entries[0].token);
    }
  }

  lemma MergeKeepsWellFormed(entries: seq<Entry>, done: set<Token>, bumped: map<Token, nat>)
    requires WellFormed(entries)
    requires forall t :: t in bumped ==> 1 <= bumped[t] < MAX_REVOKE_ATTEMPTS
    ensures WellFormed(Merge(entries, done, bumped))
  {
    MergeKeepsDistinct(entries, done, bumped);
    forall k | 0 <= k < |Merge(entries, done, bumped)|
      ensures 1 <= Merge(entries, done, bumped)[k].attempts < MAX_REVOKE_ATTEMPTS
    {
      MergeOrigin(entries, done, bumped, k);
    }
  }

  lemma {:induction false} MergeAppend(xs: seq<Entry>, ys: seq<Entry>, done: set<Token>, bumped: map<Token, nat>)
    ensures Merge(xs + ys, done, bumped) == Merge(xs, done, bumped) + Merge(ys, done, bumped)
  {
    if xs == [] {
      assert xs + ys == ys;
    } else {
      MergeAppend(xs[1..], ys, done, bumped);
      assert (xs + ys)[1..] == xs[1..] + ys;
      FrontJoins(Bump(xs[0], bumped), Merge(xs[1..], done, bumped), Merge(ys, done, bumped));
    }
  }

  lemma FrontJoins(e: Entry, a: seq<Entry>, b: seq<Entry>)
    ensures [e] + (a + b) == [e] + a + b
  {
  }

  // ---- a pass and the record it writes back to ----

  /** The record holds entry `e` with the count it has. */
  ghost predicate Unchanged(entries: seq<Entry>, e: Entry) {
    exists j :: 0 <= j < |entries| && entries[j].token == e.token && entries[j].attempts == e.attempts
  }

  ghost predicate AllUnchanged(entries: seq<Entry>, snapshot: seq<Entry>) {
    forall i :: 0 <= i < |snapshot| ==> Unchanged(entries, snapshot[i])
  }

  /** Every count a pass has raised, over the first `k` entries it read, is one above the count it read. */
  ghost predicate Bumped(snapshot: seq<Entry>, k: nat, bumped: map<Token, nat>)
    requires k <= |snapshot|
  {
    forall t :: t in bumped ==>
      bumped[t] < MAX_REVOKE_ATTEMPTS
      && exists i :: 0 <= i < k && snapshot[i].token == t && bumped[t] == snapshot[i].attempts + 1
  }

  lemma SelfUnchanged(entries: seq<Entry>)
    ensures AllUnchanged(entries, entries)
  {
    forall i | 0 <= i < |entries|
      ensures Unchanged(entries, entries[i])
    {
    }
  }

  lemma AppendKeepsUnchanged(entries: seq<Entry>, t: Token, expiresAt: nat, snapshot: seq<Entry>)
    requires AllUnchanged(entries, snapshot)
    ensures AllUnchanged(Append(entries, t, expiresAt), snapshot)
  {
    forall i | 0 <= i < |snapshot|
      ensures Unchanged(Append(entries, t, expiresAt), snapshot[i])
    {
      assert Unchanged(entries, snapshot[i]);
      var j :| 0 <= j < |entries| && entries[j].token == snapshot[i].token && entries[j].attempts == snapshot[i].attempts;
      assert Append(entries, t, expiresAt)[j] == entries[j];
    }
  }

  lemma BumpedOnward(snapshot: seq<Entry>, k: nat, bumped: map<Token, nat>)
    requires k < |snapshot| && Bumped(snapshot, k, bumped)
    ensures Bumped(snapshot, k + 1, bumped)
    ensures snapshot[k].attempts + 1 < MAX_REVOKE_ATTEMPTS ==>
      Bumped(snapshot, k + 1, bumped[snapshot[k].token := snapshot[k].attempts + 1])
  {
    forall t | t in bumped
      ensures exists i :: 0 <= i < k + 1 && snapshot[i].token == t && bumped[t] == snapshot[i].attempts + 1
    {
      var i :| 0 <= i < k && snapshot[i].token == t && bumped[t] == snapshot[i].attempts + 1;
    }
    assert snapshot[k].token == snapshot[k].token;
  }

  /** If the record still has what the pass read, the write-back adds exactly one to each entry the pass raised. */
  lemma MergeRaises(entries: seq<Entry>, snapshot: seq<Entry>, k: nat, done: set<Token>, bumped: map<Token, nat>, i: nat, j: nat)
    requires DistinctTokens(entries) && AllUnchanged(entries, snapshot) && k <= |snapshot| && Bumped(snapshot, k, bumped)
    requires i < |entries| && entries[i].token in bumped
    requires j < |Merge(entries, done, bumped)| && Merge(entries, done, bumped)[j].token == entries[i].token
    ensures Merge(entries, done, bumped)[j].attempts == entries[i].attempts + 1
  {
    var t := entries[i].token;
    var n :| 0 <= n < k && snapshot[n].token == t && bumped[t] == snapshot[n].attempts + 1;
    assert Unchanged(entries, snapshot[n]);
    MergeOrigin(entries, done, bumped, j);
  }

  /**
   * The loop of a retry pass over the entries it read. `now[i]` is the clock
   * and `transient[i]` the answer when entry `i` is tried.
   */
  method RunPass(entries: seq<Entry>, now: seq<nat>, transient: seq<bool>)
    returns (done: set<Token>, bumped: map<Token, nat>)
    requires |now| == |transient| == |entries|
    requires DistinctTokens(entries)
    ensures forall i :: 0 <= i < |entries| ==>
      match Judge(entries[i], now[i], transient[i])
      case Kept(n) => entries[i].token !in done && entries[i].token in bumped && bumped[entries[i].token] == n
      case _ => entries[i].token in done && entries[i].token !in bumped
    ensures forall t :: t in done || t in bumped ==> Contains(entries, t)
  {
    done, bumped := {}, map[];
    for i := 0 to |entries|
      invariant forall k :: 0 <= k < i ==>
        match Judge(entries[k], now[k], transient[k])
        case Kept(n) => entries[k].token !in done && entries[k].token in bumped && bumped[entries[k].token] == n
        case _ => entries[k].token in done && entries[k].token !in bumped
      invariant forall t :: t in done || t in bumped ==> exists k :: 0 <= k < i && entries[k].token == t
    {
      var e := entries[i];
      match Judge(e, now[i], transient[i])
      case Kept(n) => bumped := bumped[e.token := n];
      case _ => done := done + {e.token};
    }
  }
}
