/** When the lock lets a second process in. */
module DirectoryLockRace {
  import opened Wrappers
  import opened DirectoryLock

  // A waiter finds a lock stale and only then renames away whatever lock is
  // there: JoinedExactly says that this is the one way past a lock that is
  // held, and TwoCanBeInside that it happens. No running holder's lease is ever
  // stale in either.

  // ---- paths with fresh runners ----

  /** Where a path starts, and who stays inside on it. */
  datatype Origin = Origin(start: State, stay: set<Pid>, stale: nat)

  ghost predicate Fair(o: Origin, s: State) {
    RunnersFresh(s, o.stale) && forall p :: p in o.stay ==> At(s, p, Inside)
  }

  ghost predicate FairPath(o: Origin, states: seq<State>, steps: seq<Step>) {
    && IsPath(states, steps, o.stale) && states[0] == o.start
    && forall k :: 0 <= k < |states| ==> Fair(o, states[k])
  }

  /** A path leads to `s` on which every running holder's lease stays fresh and those who should stay inside do. */
  ghost predicate Reached(o: Origin, s: State) {
    exists states, steps :: FairPath(o, states, steps) && states[|states| - 1] == s
  }

  lemma StartReached(o: Origin)
    requires Fair(o, o.start)
    ensures Reached(o, o.start)
  {
    assert FairPath(o, [o.start], []);
  }

  lemma Go(o: Origin, s: State, step: Step, s': State)
    requires Reached(o, s) && Enabled(s, step) && Apply(s, step, o.stale) == s' && Fair(o, s')
    ensures Reached(o, s')
  {
    var states, steps :| FairPath(o, states, steps) && states[|states| - 1] == s;
    assert FairPath(o, states + [s'], steps + [step]);
  }

  // ---- what one process does on the way ----

  /** A process's directory with its two files. */
  function Full(p: Pid, now: nat): Dir {
    Dir(map[Owner(p) := now, Lease(p) := now], now)
  }

  function Prepared(s: State, p: Pid): State {
    Goto(s.(candidates := s.candidates[p := Full(p, s.now)]), p, Renaming)
  }

  /** `p` moves on, outside the operation, and leaves the lock as it is. */
  lemma FairElsewhere(o: Origin, s: State, s': State, p: Pid, pc: Pc)
    requires Fair(o, s) && pc != Inside && p !in o.stay
    requires s'.lock == s.lock && s'.now == s.now && s'.procs == s.procs[p := pc]
    ensures Fair(o, s')
  {
    forall q | At(s', q, Inside) && Holds(s', q)
      ensures s'.now - s'.lock.value.files[Lease(q)] < o.stale
    {
      assert At(s, q, Inside) && Holds(s, q);
    }
  }

  function WithCandidate(s: State, p: Pid, files: map<File, nat>, pc: Pc): State {
    Goto(s.(candidates := s.candidates[p := Dir(files, s.now)]), p, pc)
  }

  lemma Writes(s: State, p: Pid, stale: nat)
    requires At(s, p, Starting)
    ensures Apply(s, MakeCandidate(p), stale) == WithCandidate(s, p, map[], WritingOwner)
    ensures Apply(WithCandidate(s, p, map[], WritingOwner), WriteOwner(p), stale) == WithCandidate(s, p, map[Owner(p) := s.now], WritingLease)
    ensures Apply(WithCandidate(s, p, map[Owner(p) := s.now], WritingLease), WriteLease(p), stale) == Prepared(s, p)
  {
  }

  /** The process makes its candidate directory. */
  lemma Prepares(o: Origin, s: State, p: Pid)
    requires Reached(o, s) && Fair(o, s) && At(s, p, Starting) && p !in o.stay
    ensures Reached(o, Prepared(s, p)) && Fair(o, Prepared(s, p))
  {
    Writes(s, p, o.stale);
    var s1, s2 := WithCandidate(s, p, map[], WritingOwner), WithCandidate(s, p, map[Owner(p) := s.now], WritingLease);
    FairElsewhere(o, s, s1, p, WritingOwner);
    FairElsewhere(o, s, s2, p, WritingLease);
    FairElsewhere(o, s, Prepared(s, p), p, Renaming);
    Go(o, s, MakeCandidate(p), s1);
    Go(o, s1, WriteOwner(p), s2);
    Go(o, s2, WriteLease(p), Prepared(s, p));
  }

  /** A new process, up to its candidate. */
  lemma Arrives(o: Origin, s: State, p: Pid)
    requires Reached(o, s) && Fair(o, s) && p !in s.procs && p !in o.stay
    ensures Reached(o, Prepared(s, p)) && Fair(o, Prepared(s, p))
  {
    var s1 := Goto(s, p, Starting);
    FairElsewhere(o, s, s1, p, Starting);
    Go(o, s, Start(p), s1);
    Prepares(o, s1, p);
    assert Prepared(s1, p).procs == Prepared(s, p).procs;
  }

  /** A rename onto a full lock is refused, and the candidate is removed. */
  lemma Refused(s: State, p: Pid, stale: nat)
    requires p !in s.candidates && s.lock.Some? && s.lock.value.files != map[]
    ensures Apply(Prepared(s, p), Rename(p), stale) == Goto(Prepared(s, p), p, RemovingCandidate)
    ensures Apply(Goto(Prepared(s, p), p, RemovingCandidate), RemoveCandidate(p), stale) == Goto(s, p, Checking)
  {
    assert Prepared(s, p).candidates - {p} == s.candidates;
  }

  /** A new process, from its start to its refused rename and the check that follows. */
  lemma Waits(o: Origin, s: State, p: Pid)
    requires Reached(o, s) && Fair(o, s) && p !in s.procs && p !in s.candidates && p !in o.stay
    requires s.lock.Some? && s.lock.value.files != map[]
    ensures Reached(o, Goto(s, p, Checking)) && Fair(o, Goto(s, p, Checking))
  {
    Arrives(o, s, p);
    Refused(s, p, o.stale);
    var s1 := Goto(Prepared(s, p), p, RemovingCandidate);
    FairElsewhere(o, Prepared(s, p), s1, p, RemovingCandidate);
    FairElsewhere(o, s, Goto(s, p, Checking), p, Checking);
    Go(o, Prepared(s, p), Rename(p), s1);
    Go(o, s1, RemoveCandidate(p), Goto(s, p, Checking));
  }

  predicate Free(s: State) {
    s.lock.None? || s.lock.value.files == map[]
  }

  /** A process with its candidate ready takes a free lock. */
  lemma Enters(o: Origin, s: State, p: Pid)
    requires 0 < o.stale && Reached(o, s) && Fair(o, s) && Free(s)
    requires At(s, p, Renaming) && p in s.candidates && Only(s.candidates[p], p) && s.candidates[p].files.Values <= {s.now}
    ensures Reached(o, ApplyRename(s, p)) && Fair(o, ApplyRename(s, p)) && At(ApplyRename(s, p), p, Inside)
  {
    var s' := ApplyRename(s, p);
    forall q | At(s', q, Inside) && Holds(s', q)
      ensures s'.now - s'.lock.value.files[Lease(q)] < o.stale
    {
      assert s'.lock.value.files[Lease(q)] in s.candidates[p].files.Values;
    }
    Go(o, s, Rename(p), s');
  }

  /** A process at its start takes a free lock. */
  lemma Takes(o: Origin, s: State, p: Pid)
    requires 0 < o.stale && Reached(o, s) && Fair(o, s) && At(s, p, Starting) && p !in o.stay && p !in s.candidates && Free(s)
    ensures var s' := Goto(s.(lock := Some(Full(p, s.now))), p, Inside); Reached(o, s') && Fair(o, s')
  {
    Prepares(o, s, p);
    assert Prepared(s, p).candidates - {p} == s.candidates;
    Enters(o, Prepared(s, p), p);
    assert ApplyRename(Prepared(s, p), p) == Goto(s.(lock := Some(Full(p, s.now))), p, Inside);
  }

  /** While no runner holds the lock, time may pass. */
  lemma {:induction false} TimePasses(o: Origin, s: State, n: nat)
    requires Reached(o, s) && Fair(o, s) && forall p :: At(s, p, Inside) ==> !Holds(s, p)
    ensures Reached(o, s.(now := s.now + n)) && Fair(o, s.(now := s.now + n))
  {
    if n > 0 {
      TimePasses(o, s, n - 1);
      Go(o, s.(now := s.now + n - 1), Tick, s.(now := s.now + n));
    } else {
      assert s.(now := s.now + 0) == s;
    }
  }

  /** A waiter finds the lock stale. */
  lemma Finds(o: Origin, s: State, p: Pid)
    requires Reached(o, s) && Fair(o, s) && At(s, p, Checking) && p !in o.stay
    requires Age(s).Some? && Age(s).value >= o.stale
    ensures Reached(o, Goto(s, p, Displacing)) && Fair(o, Goto(s, p, Displacing))
  {
    FairElsewhere(o, s, Goto(s, p, Displacing), p, Displacing);
    Go(o, s, Check(p), Goto(s, p, Displacing));
  }

  // ---- what a lock that is held keeps out ----

  ghost predicate AloneInside(s: State, h: Pid) {
    At(s, h, Inside) && forall p :: At(s, p, Inside) ==> p == h
  }

  /** From here on a second process can come to be inside beside `h`, with every running lease fresh all along. */
  ghost predicate Joinable(s: State, h: Pid, stale: nat) {
    exists s', p :: Reached(Origin(s, {h}, stale), s') && p != h && At(s', p, Inside)
  }

  /** `h` holds the lock, alone, and nobody is about to rename it away. */
  ghost predicate Guarded(s: State, h: Pid) {
    Inv(s) && AloneInside(s, h) && Holds(s, h) && forall p :: !At(s, p, Displacing)
  }

  lemma NobodyEnters(s: State, step: Step, stale: nat, h: Pid, p: Pid)
    requires Enabled(s, step) && !step.Displace? && Holds(s, h) && !At(s, p, Inside)
    ensures !At(Apply(s, step, stale), p, Inside)
  {
    if step.Rename? { assert Lease(h) in s.lock.value.files; }
  }

  lemma NobodyDecides(s: State, step: Step, stale: nat, h: Pid, p: Pid)
    requires Inv(s) && Enabled(s, step) && Holds(s, h) && s.now - s.lock.value.files[Lease(h)] < stale && !At(s, p, Displacing)
    ensures !At(Apply(s, step, stale), p, Displacing)
  {
    AgeOfHolder(s, h);
  }

  lemma StaysGuarded(s: State, step: Step, stale: nat, h: Pid)
    requires Guarded(s, h) && RunnersFresh(s, stale) && Enabled(s, step) && At(Apply(s, step, stale), h, Inside)
    ensures Guarded(Apply(s, step, stale), h)
  {
    var s' := Apply(s, step, stale);
    StepKeeps(s, step, stale);
    StaysInside(s, step, stale, h);
    forall p | p != h
      ensures !At(s', p, Inside)
    {
      NobodyEnters(s, step, stale, h, p);
    }
    forall p
      ensures !At(s', p, Displacing)
    {
      NobodyDecides(s, step, stale, h, p);
    }
  }

  lemma {:induction false} PathStaysGuarded(o: Origin, states: seq<State>, steps: seq<Step>, h: Pid, k: nat)
    requires FairPath(o, states, steps) && k < |states| && h in o.stay && Guarded(o.start, h)
    ensures Guarded(states[k], h)
  {
    if k > 0 {
      PathStaysGuarded(o, states, steps, h, k - 1);
      assert Fair(o, states[k - 1]) && Fair(o, states[k]);
      StaysGuarded(states[k - 1], steps[k - 1], o.stale, h);
    }
  }

  lemma GuardedIsNotJoinable(s: State, h: Pid, stale: nat)
    requires Guarded(s, h)
    ensures !Joinable(s, h, stale)
  {
    var o := Origin(s, {h}, stale);
    forall s', p | Reached(o, s') && At(s', p, Inside)
      ensures p == h
    {
      var states, steps :| FairPath(o, states, steps) && states[|states| - 1] == s';
      PathStaysGuarded(o, states, steps, h, |states| - 1);
    }
  }

  // ---- how a second process gets in ----

  lemma {:induction false} Above(numbers: set<nat>) returns (n: nat)
    ensures forall k :: k in numbers ==> k < n
    decreases |numbers|
  {
    if numbers == {} {
      n := 0;
    } else {
      var k :| k in numbers;
      var m := Above(numbers - {k});
      n := if k < m then m else k + 1;
      assert forall j :: j in numbers ==> j == k || j in numbers - {k};
    }
  }

  lemma ReachedInv(o: Origin, s: State)
    requires Inv(o.start) && Reached(o, s)
    ensures Inv(s)
  {
    var states, steps :| FairPath(o, states, steps) && states[|states| - 1] == s;
    PathInv(states, steps, o.stale, |states| - 1);
  }

  lemma {:induction false} PathInv(states: seq<State>, steps: seq<Step>, stale: nat, k: nat)
    requires IsPath(states, steps, stale) && Inv(states[0]) && k < |states|
    ensures Inv(states[k])
  {
    if k > 0 {
      PathInv(states, steps, stale, k - 1);
      StepKeeps(states[k - 1], steps[k - 1], stale);
    }
  }

  /** A waiter that has decided renames the lock away, and a new process takes its place. */
  lemma DisplacerLetsIn(o: Origin, s: State, h: Pid, waiter: Pid)
    requires 0 < o.stale && o.stay == {h} && Inv(o.start) && Reached(o, s) && Fair(o, s) && At(s, waiter, Displacing)
    ensures Joinable(o.start, h, o.stale)
  {
    var p := Above(s.procs.Keys + {h});
    Arrives(o, s, p);
    var s1 := Prepared(s, p);
    ReachedInv(o, s1);
    var q := Above(s.quarantines.Keys);
    assert q !in s1.quarantines;
    LateDisplacementLetsTwoIn(s1, o.stale, h, waiter, p, q);
    var s2 := Apply(s1, Displace(waiter, q), o.stale);
    Go(o, s1, Displace(waiter, q), s2);
    Enters(o, s2, p);
  }

  lemma FreeLockLetsIn(o: Origin, s: State, h: Pid)
    requires 0 < o.stale && o.stay == {h} && Reached(o, s) && Fair(o, s) && Free(s)
    ensures Joinable(o.start, h, o.stale)
  {
    var p := Above(s.procs.Keys + {h});
    Arrives(o, s, p);
    Enters(o, Prepared(s, p), p);
  }

  /** However old a lock has to be to count as stale, there is a time at which it is. */
  lemma BecomesStale(s: State, stale: nat) returns (n: nat)
    requires Inv(s) && s.lock.Some?
    ensures var s' := s.(now := s.now + n); Age(s').Some? && Age(s').value >= stale
  {
    var d := s.lock.value;
    var last := Above(d.files.Values + {d.mtime});
    n := last + stale;
    AgeIsOfAFile(s.(now := s.now + n));
  }

  lemma AgeIsOfAFile(s: State)
    requires s.lock.Some?
    ensures Age(s).Some?
    ensures Age(s).value == s.now - s.lock.value.mtime || exists t :: t in s.lock.value.files.Values && Age(s).value == s.now - t
  {
    var d := s.lock.value;
    if exists p :: Lease(p) in d.files {
      var p :| Lease(p) in d.files && Age(s) == Some(s.now - d.files[Lease(p)]);
      assert d.files[Lease(p)] in d.files.Values;
    }
  }

  /** A lock no runner holds can be waited out. */
  lemma AbandonedLockLetsIn(o: Origin, h: Pid)
    requires 0 < o.stale && o.stay == {h} && Inv(o.start) && Fair(o, o.start) && AloneInside(o.start, h) && !Holds(o.start, h)
    requires o.start.lock.Some? && o.start.lock.value.files != map[]
    ensures Joinable(o.start, h, o.stale)
  {
    var s := o.start;
    StartReached(o);
    var n := BecomesStale(s, o.stale);
    TimePasses(o, s, n);
    var s1 := s.(now := s.now + n);
    var p := Above(s.procs.Keys + s.candidates.Keys + {h});
    Waits(o, s1, p);
    var s2 := Goto(s1, p, Checking);
    assert Age(s2) == Age(s1);
    Finds(o, s2, p);
    DisplacerLetsIn(o, Goto(s2, p, Displacing), h, p);
  }

  lemma CanBeJoined(s: State, h: Pid, stale: nat)
    requires 0 < stale && Inv(s) && RunnersFresh(s, stale) && AloneInside(s, h)
    requires !Holds(s, h) || exists w :: At(s, w, Displacing)
    ensures Joinable(s, h, stale)
  {
    var o := Origin(s, {h}, stale);
    StartReached(o);
    if w :| At(s, w, Displacing) {
      DisplacerLetsIn(o, s, h, w);
    } else if Free(s) {
      FreeLockLetsIn(o, s, h);
    } else {
      AbandonedLockLetsIn(o, h);
    }
  }

  /**
   * At any point of any run at which one process is alone inside and no
   * running lease is stale: a second process can still come to be inside
   * beside it, no running lease ever going stale, if and only if its lock was
   * renamed away or some waiter stands between its age check and its rename.
   */
  lemma JoinedExactly(states: seq<State>, steps: seq<Step>, stale: nat, i: nat, h: Pid)
    requires 0 < stale && IsRun(states, steps, stale) && i < |states|
    requires AloneInside(states[i], h) && RunnersFresh(states[i], stale)
    ensures Joinable(states[i], h, stale) <==> !Holds(states[i], h) || exists w :: At(states[i], w, Displacing)
  {
    ReachableInv(states, steps, stale, i);
    if Holds(states[i], h) && forall w :: !At(states[i], w, Displacing) {
      GuardedIsNotJoinable(states[i], h, stale);
    } else {
      CanBeJoined(states[i], h, stale);
    }
  }

  // ---- a run from the start ----

  /** A process that decided on displacing renames whatever lock is there, cleans up and starts again. */
  lemma Displaces(o: Origin, s: State, p: Pid, holder: Pid)
    requires Reached(o, s) && o.stay == {} && At(s, p, Displacing) && s.quarantines == map[]
    requires s.lock.Some? && s.lock.value.files.Keys == {Owner(holder), Lease(holder)}
    ensures var s' := Goto(s.(lock := None, displaced := s.displaced + {holder}), p, Starting); Reached(o, s') && Fair(o, s')
  {
    var s' := Goto(s.(lock := None, displaced := s.displaced + {holder}), p, Starting);
    var s1 := ApplyDisplace(s, p, 0);
    assert LeaseHolders(s.lock.value) == {holder};
    Go(o, s, Displace(p, 0), s1);
    assert s1.quarantines - {0} == map[];
    assert Apply(s1, Clean(p), o.stale) == s';
    Go(o, s1, Clean(p), s');
  }

  lemma AgeOfFull(s: State, holder: Pid, t: nat)
    requires s.lock == Some(Full(holder, t))
    ensures Age(s) == Some(s.now - t)
  {
    assert Lease(holder) in s.lock.value.files;
    assert forall q :: Lease(q) in s.lock.value.files ==> q == holder;
  }

  /** The first holder dies inside, and two waiters queue up behind its lock. */
  lemma TwoQueueUp(o: Origin)
    requires 0 < o.stale && o.start == Init && o.stay == {}
    ensures var s := Queue(0, Checking, Checking); Reached(o, s) && Fair(o, s)
  {
    StartReached(o);
    Go(o, Init, Start(0), Goto(Init, 0, Starting));
    Takes(o, Goto(Init, 0, Starting), 0);
    var s1 := State(0, Some(Full(0, 0)), map[], map[], map[0 := Inside], {});
    assert Goto(Goto(Init, 0, Starting).(lock := Some(Full(0, 0))), 0, Inside) == s1;
    var s2 := State(0, Some(Full(0, 0)), map[], map[], map[0 := Dead], {});
    assert Apply(s1, Die(0), o.stale) == s2;
    Go(o, s1, Die(0), s2);
    Waits(o, s2, 1);
    Waits(o, Goto(s2, 1, Checking), 2);
    assert Goto(Goto(s2, 1, Checking), 2, Checking).procs == map[0 := Dead, 1 := Checking, 2 := Checking];
  }

  function Queue(now: nat, first: Pc, second: Pc): State {
    State(now, Some(Full(0, 0)), map[], map[], map[0 := Dead, 1 := first, 2 := second], {})
  }

  /** Time passes until the lock is stale, and both find it so. */
  lemma BothWaitersDecide(o: Origin)
    requires 0 < o.stale && o.start == Init && o.stay == {}
    ensures var s := Queue(o.stale, Displacing, Displacing); Reached(o, s) && Fair(o, s)
  {
    TwoQueueUp(o);
    TimePasses(o, Queue(0, Checking, Checking), o.stale);
    var s := Queue(o.stale, Checking, Checking);
    AgeOfFull(s, 0, 0);
    Finds(o, s, 1);
    assert Goto(s, 1, Displacing).procs == Queue(o.stale, Displacing, Checking).procs;
    AgeOfFull(Queue(o.stale, Displacing, Checking), 0, 0);
    Finds(o, Queue(o.stale, Displacing, Checking), 2);
    assert Goto(Queue(o.stale, Displacing, Checking), 2, Displacing).procs == Queue(o.stale, Displacing, Displacing).procs;
  }

  /** For every staleness limit there is such a run. */
  lemma TwoCanBeInside(stale: nat)
    requires 0 < stale
    ensures exists s :: Reached(Origin(Init, {}, stale), s) && At(s, 1, Inside) && At(s, 2, Inside)
  {
    var o := Origin(Init, {}, stale);
    BothWaitersDecide(o);
    var s1 := Queue(stale, Displacing, Displacing);
    Displaces(o, s1, 1, 0);
    var s2 := Goto(s1.(lock := None, displaced := s1.displaced + {0}), 1, Starting);
    Takes(o, s2, 1);
    var s3 := Goto(s2.(lock := Some(Full(1, s2.now))), 1, Inside);
    Displaces(o, s3, 2, 1);
    var s4 := Goto(s3.(lock := None, displaced := s3.displaced + {1}), 2, Starting);
    Takes(o, s4, 2);
    var s5 := Goto(s4.(lock := Some(Full(2, s4.now))), 2, Inside);
    assert At(s5, 1, Inside) && At(s5, 2, Inside);
  }
}
