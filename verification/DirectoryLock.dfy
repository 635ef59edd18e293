/** The build-tooling lock: a directory renamed into place whole, and renamed away when its lease has gone stale. */
module DirectoryLock {
  import opened Wrappers

  /** One call of withPrismaGenerateLock: its token is fresh. */
  type Pid = nat

  datatype File = Owner(pid: Pid) | Lease(pid: Pid)

  datatype Dir = Dir(files: map<File, nat>, mtime: nat)

  datatype Pc =
    | Starting
    | WritingOwner
    | WritingLease
    | Renaming
    | RemovingCandidate
    | Checking
    | Displacing
    | Cleaning(quarantine: nat)
    | Inside
    | UnlinkingOwner
    | UnlinkingLease
    | RemovingLock
    | Done
    | Dead

  /** `displaced` only records history: the processes whose lock was renamed away. */
  datatype State = State(
    now: nat,
    lock: Option<Dir>,
    candidates: map<Pid, Dir>,
    quarantines: map<nat, Dir>,
    procs: map<Pid, Pc>,
    displaced: set<Pid>)

  /** One file-system call of one process; a process may die between any two of its calls. */
  datatype Step =
    | Tick
    | Start(pid: Pid)
    | MakeCandidate(pid: Pid)
    | WriteOwner(pid: Pid)
    | WriteLease(pid: Pid)
    | Rename(pid: Pid)
    | RemoveCandidate(pid: Pid)
    | Check(pid: Pid)
    | Displace(pid: Pid, quarantine: nat)
    | Clean(pid: Pid)
    | Leave(pid: Pid)
    | UnlinkOwner(pid: Pid)
    | UnlinkLease(pid: Pid)
    | RemoveLock(pid: Pid)
    | Heartbeat(pid: Pid)
    | Die(pid: Pid)

  const Init := State(0, None, map[], map[], map[], {})

  predicate At(s: State, p: Pid, pc: Pc) {
    p in s.procs && s.procs[p] == pc
  }

  /** The process took the lock at some time: a heartbeat of its may still be on its way. */
  predicate Entered(pc: Pc) {
    pc.Inside? || pc.UnlinkingOwner? || pc.UnlinkingLease? || pc.RemovingLock? || pc.Done?
  }

  predicate Enabled(s: State, step: Step) {
    match step
    case Tick => true
    case Start(p) => p !in s.procs
    case MakeCandidate(p) => At(s, p, Starting)
    case WriteOwner(p) => At(s, p, WritingOwner)
    case WriteLease(p) => At(s, p, WritingLease)
    case Rename(p) => At(s, p, Renaming)
    case RemoveCandidate(p) => At(s, p, RemovingCandidate)
    case Check(p) => At(s, p, Checking)
    case Displace(p, q) => At(s, p, Displacing) && q !in s.quarantines
    case Clean(p) => p in s.procs && s.procs[p].Cleaning?
    case Leave(p) => At(s, p, Inside)
    case UnlinkOwner(p) => At(s, p, UnlinkingOwner)
    case UnlinkLease(p) => At(s, p, UnlinkingLease)
    case RemoveLock(p) => At(s, p, RemovingLock)
    case Heartbeat(p) => p in s.procs && Entered(s.procs[p])
    case Die(p) => p in s.procs
  }

  function Goto(s: State, p: Pid, pc: Pc): State {
    s.(procs := s.procs[p := pc])
  }

  function Put(d: Dir, f: File, now: nat): Dir {
    Dir(d.files[f := now], now)
  }

  function Drop(d: Dir, f: File, now: nat): Dir {
    if f in d.files then Dir(d.files - {f}, now) else d
  }

  function Touch(d: Dir, f: File, now: nat): Dir {
    if f in d.files then d.(files := d.files[f := now]) else d
  }

  function OnLock(s: State, f: Dir -> Dir): State {
    if s.lock.Some? then s.(lock := Some(f(s.lock.value))) else s
  }

  /** lockAgeMs: from the lease file, or from the directory when it has none. */
  ghost function Age(s: State): Option<int> {
    match s.lock
    case None => None
    case Some(d) =>
      if exists p :: Lease(p) in d.files
      then var p :| Lease(p) in d.files; Some(s.now - d.files[Lease(p)])
      else Some(s.now - d.mtime)
  }

  ghost function LeaseHolders(d: Dir): set<Pid> {
    set f | f in d.files && f.Lease? :: f.pid
  }

  ghost function Apply(s: State, step: Step, stale: nat): State
    requires Enabled(s, step)
  {
    match step
    case Tick => s.(now := s.now + 1)
    case Start(p) => Goto(s, p, Starting)
    case MakeCandidate(p) => Goto(s.(candidates := s.candidates[p := Dir(map[], s.now)]), p, WritingOwner)
    case WriteOwner(p) => WriteFile(s, p, Owner(p), WritingLease)
    case WriteLease(p) => WriteFile(s, p, Lease(p), Renaming)
    case Rename(p) => ApplyRename(s, p)
    case RemoveCandidate(p) => Goto(s.(candidates := s.candidates - {p}), p, Checking)
    case Check(p) =>
      var age := Age(s);
      Goto(s, p, if age.Some? && age.value >= stale then Displacing else Starting)
    case Displace(p, q) => ApplyDisplace(s, p, q)
    case Clean(p) => Goto(s.(quarantines := s.quarantines - {s.procs[p].quarantine}), p, Starting)
    case Leave(p) => Goto(s, p, UnlinkingOwner)
    case UnlinkOwner(p) => Goto(OnLock(s, d => Drop(d, Owner(p), s.now)), p, UnlinkingLease)
    case UnlinkLease(p) => Goto(OnLock(s, d => Drop(d, Lease(p), s.now)), p, RemovingLock)
    case RemoveLock(p) => Goto(if s.lock.Some? && s.lock.value.files == map[] then s.(lock := None) else s, p, Done)
    case Heartbeat(p) => OnLock(s, d => Touch(d, Lease(p), s.now))
    case Die(p) => Goto(s, p, Dead)
  }

  function WriteFile(s: State, p: Pid, f: File, next: Pc): State {
    if p in s.candidates
    then Goto(s.(candidates := s.candidates[p := Put(s.candidates[p], f, s.now)]), p, next)
    else Goto(s, p, RemovingCandidate)
  }

  /** rename(2) onto the lock path: it replaces an empty directory and refuses a full one. */
  function ApplyRename(s: State, p: Pid): State {
    if p in s.candidates && (s.lock.None? || s.lock.value.files == map[])
    then Goto(s.(lock := Some(s.candidates[p]), candidates := s.candidates - {p}), p, Inside)
    else Goto(s, p, RemovingCandidate)
  }

  ghost function ApplyDisplace(s: State, p: Pid, q: nat): State {
    match s.lock
    case None => Goto(s, p, Starting)
    case Some(d) =>
      Goto(s.(lock := None, quarantines := s.quarantines[q := d], displaced := s.displaced + LeaseHolders(d)), p, Cleaning(q))
  }

  ghost predicate IsPath(states: seq<State>, steps: seq<Step>, stale: nat) {
    && |states| == |steps| + 1
    && forall i :: 0 <= i < |steps| ==> Enabled(states[i], steps[i]) && states[i + 1] == Apply(states[i], steps[i], stale)
  }

  ghost predicate IsRun(states: seq<State>, steps: seq<Step>, stale: nat) {
    IsPath(states, steps, stale) && states[0] == Init
  }

  // ---- what the lock directory holds ----

  /** `p`'s own two files are in the lock directory. */
  predicate Holds(s: State, p: Pid) {
    s.lock.Some? && Owner(p) in s.lock.value.files && Lease(p) in s.lock.value.files
  }

  /** Every file of the directory is `p`'s. */
  predicate Only(d: Dir, p: Pid) {
    forall f :: f in d.files ==> f.pid == p
  }

  ghost predicate PcOk(s: State, p: Pid)
    requires p in s.procs
  {
    match s.procs[p]
    case WritingOwner => p in s.candidates
    case WritingLease => p in s.candidates && Owner(p) in s.candidates[p].files
    case Renaming => p in s.candidates && Owner(p) in s.candidates[p].files && Lease(p) in s.candidates[p].files
    case Inside => Holds(s, p) || p in s.displaced
    case _ => true
  }

  ghost predicate Inv(s: State) {
    && (s.lock.Some? ==> exists p :: Only(s.lock.value, p))
    && (forall p :: p in s.candidates ==> Only(s.candidates[p], p))
    && (forall p :: p in s.procs ==> PcOk(s, p))
  }

  predicate CandidateStep(step: Step) {
    step.MakeCandidate? || step.WriteOwner? || step.WriteLease? || step.RemoveCandidate?
  }

  predicate LeavingStep(step: Step) {
    step.UnlinkOwner? || step.UnlinkLease? || step.RemoveLock? || step.Heartbeat?
  }

  /** A process at work on its candidate directory. */
  lemma CandidateKeeps(s: State, s': State, p: Pid)
    requires Inv(s) && p in s.procs && p in s'.procs && !Entered(s'.procs[p])
    requires s' == s.(candidates := s'.candidates, procs := s.procs[p := s'.procs[p]])
    requires forall q :: q != p ==> (q in s.candidates <==> q in s'.candidates)
    requires forall q :: q != p && q in s.candidates ==> s'.candidates[q] == s.candidates[q]
    requires p in s'.candidates ==> Only(s'.candidates[p], p)
    requires PcOk(s', p)
    ensures Inv(s')
  {
    forall q | q in s'.procs
      ensures PcOk(s', q)
    {
      if q != p { assert PcOk(s, q); }
    }
  }

  lemma CandidateStepKeeps(s: State, step: Step, stale: nat)
    requires Inv(s) && Enabled(s, step) && CandidateStep(step)
    ensures Inv(Apply(s, step, stale))
  {
    assert PcOk(s, step.pid);
    CandidateKeeps(s, Apply(s, step, stale), step.pid);
  }

  lemma RenameKeeps(s: State, p: Pid)
    requires Inv(s) && At(s, p, Renaming)
    ensures Inv(ApplyRename(s, p))
  {
    assert PcOk(s, p);
  }

  lemma DisplaceKeeps(s: State, p: Pid, q: nat)
    requires Inv(s) && At(s, p, Displacing)
    ensures Inv(ApplyDisplace(s, p, q))
  {
    var s' := ApplyDisplace(s, p, q);
    forall r | r in s'.procs
      ensures PcOk(s', r)
    {
      if r != p && Holds(s, r) {
        assert Lease(r).pid in LeaseHolders(s.lock.value);
      }
    }
  }

  lemma LeavingStepKeeps(s: State, step: Step, stale: nat)
    requires Inv(s) && Enabled(s, step) && LeavingStep(step)
    ensures Inv(Apply(s, step, stale))
  {
    var s' := Apply(s, step, stale);
    forall r | r in s'.procs
      ensures PcOk(s', r)
    {
      assert r in s.procs && PcOk(s, r);
    }
    if s.lock.Some? {
      var r :| Only(s.lock.value, r);
      assert s'.lock.Some? ==> Only(s'.lock.value, r);
    }
  }

  lemma StepKeeps(s: State, step: Step, stale: nat)
    requires Inv(s) && Enabled(s, step)
    ensures Inv(Apply(s, step, stale))
  {
    if CandidateStep(step) {
      CandidateStepKeeps(s, step, stale);
    } else if LeavingStep(step) {
      LeavingStepKeeps(s, step, stale);
    } else if step.Rename? {
      RenameKeeps(s, step.pid);
    } else if step.Displace? {
      DisplaceKeeps(s, step.pid, step.quarantine);
    }
  }

  lemma {:induction false} ReachableInv(states: seq<State>, steps: seq<Step>, stale: nat, i: nat)
    requires IsRun(states, steps, stale) && i < |states|
    ensures Inv(states[i])
  {
    if i > 0 {
      ReachableInv(states, steps, stale, i - 1);
      StepKeeps(states[i - 1], steps[i - 1], stale);
    }
  }

  // ---- what a process can do to another's lock ----

  /**
   * Short of renaming the directory away, nothing a process does (acquiring,
   * refreshing, releasing or cleaning up) removes or refreshes a file another
   * process has in the lock directory, or the directory that holds it.
   */
  lemma OnlyDisplacingTouchesOthers(s: State, step: Step, stale: nat, f: File)
    requires Enabled(s, step) && !step.Displace?
    requires s.lock.Some? && f in s.lock.value.files && (step.Tick? || step.pid != f.pid)
    ensures var s' := Apply(s, step, stale);
      s'.lock.Some? && f in s'.lock.value.files && s'.lock.value.files[f] == s.lock.value.files[f]
  {
  }

  /** A displaced lock was renamed away at some step. */
  lemma {:induction false} DisplacedAtAStep(states: seq<State>, steps: seq<Step>, stale: nat, i: nat, p: Pid)
    requires IsRun(states, steps, stale) && i < |states| && p in states[i].displaced
    ensures exists j :: 0 <= j < i && steps[j].Displace? && states[j].lock.Some? && Lease(p) in states[j].lock.value.files
  {
    if i > 0 {
      var s := states[i - 1];
      if p in s.displaced {
        DisplacedAtAStep(states, steps, stale, i - 1, p);
      } else {
        NewlyDisplaced(s, steps[i - 1], stale, p);
        assert steps[i - 1].Displace?;
      }
    }
  }

  lemma NewlyDisplaced(s: State, step: Step, stale: nat, p: Pid)
    requires Enabled(s, step) && p !in s.displaced && p in Apply(s, step, stale).displaced
    ensures step.Displace? && s.lock.Some? && Lease(p) in s.lock.value.files
  {
  }

  /** A process inside the operation has its lock, unless a stale waiter renamed it away. */
  lemma InsideHoldsTheLock(states: seq<State>, steps: seq<Step>, stale: nat, i: nat, p: Pid)
    requires IsRun(states, steps, stale) && i < |states| && At(states[i], p, Inside)
    ensures Holds(states[i], p)
      || exists j :: 0 <= j < i && steps[j].Displace? && states[j].lock.Some? && Lease(p) in states[j].lock.value.files
  {
    ReachableInv(states, steps, stale, i);
    assert PcOk(states[i], p);
    if p in states[i].displaced {
      DisplacedAtAStep(states, steps, stale, i, p);
    }
  }

  // ---- mutual exclusion ----

  /** The lease of a process inside the operation is younger than the limit. */
  ghost predicate RunnersFresh(s: State, stale: nat) {
    forall p :: At(s, p, Inside) && Holds(s, p) ==> s.now - s.lock.value.files[Lease(p)] < stale
  }

  /** The age check is made at the rename itself. */
  ghost predicate CheckedAtRename(s: State, step: Step, stale: nat) {
    step.Displace? && s.lock.Some? ==> Age(s).value >= stale
  }

  ghost predicate Disciplined(states: seq<State>, steps: seq<Step>, stale: nat)
    requires |states| == |steps| + 1
  {
    && (forall k :: 0 <= k < |states| ==> RunnersFresh(states[k], stale))
    && (forall k :: 0 <= k < |steps| ==> CheckedAtRename(states[k], steps[k], stale))
  }

  /** At most one lease is in the directory, and the age is read from it. */
  lemma AgeOfHolder(s: State, p: Pid)
    requires Inv(s) && Holds(s, p)
    ensures Age(s) == Some(s.now - s.lock.value.files[Lease(p)])
  {
    var d := s.lock.value;
    var q :| Only(d, q);
    forall r | Lease(r) in d.files
      ensures r == p
    {
      assert Lease(r).pid == q && Lease(p).pid == q;
    }
  }

  predicate InsideHolds(s: State, p: Pid) {
    At(s, p, Inside) ==> Holds(s, p)
  }

  lemma RunnerKeepsTheLock(s: State, step: Step, stale: nat, p: Pid)
    requires Inv(s) && Enabled(s, step) && RunnersFresh(s, stale) && CheckedAtRename(s, step, stale) && InsideHolds(s, p)
    ensures InsideHolds(Apply(s, step, stale), p)
  {
    if At(Apply(s, step, stale), p, Inside) {
      if !At(s, p, Inside) {
        EntersHolding(s, step, stale, p);
      } else if step.Displace? {
        AgeOfHolder(s, p);
      } else {
        StaysInside(s, step, stale, p);
      }
    }
  }

  /** Nobody inside is displaced while the check and the rename are one. */
  lemma {:induction false} RunnersKeepTheLock(states: seq<State>, steps: seq<Step>, stale: nat, i: nat, p: Pid)
    requires IsRun(states, steps, stale) && i < |states|
    requires Disciplined(states, steps, stale)
    ensures InsideHolds(states[i], p)
  {
    if i > 0 {
      ReachableInv(states, steps, stale, i - 1);
      RunnersKeepTheLock(states, steps, stale, i - 1, p);
      RunnerKeepsTheLock(states[i - 1], steps[i - 1], stale, p);
    }
  }

  lemma StaysInside(s: State, step: Step, stale: nat, p: Pid)
    requires Enabled(s, step) && !step.Displace? && Holds(s, p) && At(s, p, Inside)
    requires At(Apply(s, step, stale), p, Inside)
    ensures Holds(Apply(s, step, stale), p)
  {
  }

  lemma EntersHolding(s: State, step: Step, stale: nat, p: Pid)
    requires Inv(s) && Enabled(s, step) && !At(s, p, Inside) && At(Apply(s, step, stale), p, Inside)
    ensures Holds(Apply(s, step, stale), p)
  {
    assert step == Rename(p);
    assert PcOk(s, p);
  }

  /**
   * If a displacing rename only ever moves a lock that is stale at that
   * moment, and no lease of a running holder ever is, at most one process is
   * inside the operation at any point of any run.
   */
  lemma MutualExclusion(states: seq<State>, steps: seq<Step>, stale: nat, i: nat, p: Pid, q: Pid)
    requires IsRun(states, steps, stale) && i < |states| && At(states[i], p, Inside) && At(states[i], q, Inside)
    requires Disciplined(states, steps, stale)
    ensures p == q
  {
    RunnersKeepTheLock(states, steps, stale, i, p);
    RunnersKeepTheLock(states, steps, stale, i, q);
    ReachableInv(states, steps, stale, i);
    var r :| Only(states[i].lock.value, r);
    assert Lease(p).pid == r && Lease(q).pid == r;
  }

  /** A waiter that decided on an older lock renames this one away, and a process with its candidate ready enters. */
  lemma LateDisplacementLetsTwoIn(s: State, stale: nat, holder: Pid, waiter: Pid, next: Pid, q: nat)
    requires Inv(s) && At(s, holder, Inside)
    requires At(s, waiter, Displacing) && At(s, next, Renaming) && q !in s.quarantines
    ensures var s1 := Apply(s, Displace(waiter, q), stale);
      && s1.lock == None && Enabled(s1, Rename(next))
      && At(Apply(s1, Rename(next), stale), holder, Inside) && At(Apply(s1, Rename(next), stale), next, Inside)
  {
    assert PcOk(s, next);
  }
}
