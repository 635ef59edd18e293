/** Retry passes over the pending-revoke record, in the middle of everything else. */
module RnPasses {
  import opened GrantServer
  import opened RnProtocol
  import opened RnInvariant
  import PR = PendingRevokes

  predicate InPass(pc: Pc) {
    pc.PassReading? || pc.Passing?
  }

  ghost predicate PassCounts(pc: Pc)
    requires pc.Passing?
  {
    && pc.k <= |pc.snapshot| && PR.WellFormed(pc.snapshot) && PR.Bumped(pc.snapshot, pc.k, pc.bumped)
    && (forall t :: t in pc.done ==> PR.Contains(pc.snapshot, t))
  }

  /** Passes are single-flight in an instance. */
  ghost predicate OnePassEach(s: State) {
    forall o, p | o in s.ops && p in s.ops && InPass(s.ops[o].pc) && InPass(s.ops[p].pc) ::
      s.ops[o].owner == s.ops[p].owner ==> o == p
  }

  ghost predicate PassesOk(s: State) {
    && PR.WellFormed(s.pending) && OnePassEach(s)
    && (forall o :: o in s.ops && s.ops[o].pc.Passing? ==> PassCounts(s.ops[o].pc))
  }

  // ---- what a step can touch ----

  predicate RecordsOrPasses(step: Step) {
    step.StartPass? || step.PassRead? || step.PassEntry? || step.PassWrite? || step.Record? || step.OutRecord?
  }

  /** Steps that write the pending revokes. */
  predicate Rewrites(step: Step) {
    step.Record? || step.OutRecord? || step.PassWrite?
  }

  /** The step's operation keeps its owner; only some steps write the record, and only a pass's own steps are in a pass. */
  ghost predicate Footprint(s: State, s': State, step: Step)
    requires !step.AddInstance? && !step.ServerKills?
  {
    var o := step.op;
    && OneMoved(s, s', o)
    && (o in s.ops ==> s'.ops[o].owner == s.ops[o].owner)
    && (!Rewrites(step) ==> s'.pending == s.pending)
    && (s'.ops[o].pc.Passing? ==> step.PassRead? || step.PassEntry?)
    && (InPass(s'.ops[o].pc) ==> step.StartPass? || (o in s.ops && InPass(s.ops[o].pc)))
  }

  lemma ElsewhereFootprint(s: State, step: Step)
    requires Enabled(s, step) && !RecordsOrPasses(step) && !SavesOrRenews(step) && !step.AddInstance? && !step.ServerKills?
    ensures Footprint(s, Apply(s, step), step)
  {
  }

  lemma SaveFootprint(s: State, step: Step)
    requires Enabled(s, step) && SavesOrRenews(step)
    ensures Footprint(s, Apply(s, step), step)
  {
  }

  lemma PassFootprint(s: State, step: Step)
    requires Enabled(s, step) && RecordsOrPasses(step)
    ensures Footprint(s, Apply(s, step), step)
  {
  }

  lemma StepFootprint(s: State, step: Step)
    requires Enabled(s, step) && !step.AddInstance? && !step.ServerKills?
    ensures Footprint(s, Apply(s, step), step)
  {
    if RecordsOrPasses(step) {
      PassFootprint(s, step);
    } else if SavesOrRenews(step) {
      SaveFootprint(s, step);
    } else {
      ElsewhereFootprint(s, step);
    }
  }

  // ---- the invariant ----

  lemma OnePassStays(s: State, s': State, step: Step)
    requires !step.AddInstance? && !step.ServerKills? && Footprint(s, s', step) && OnePassEach(s)
    requires step.StartPass? ==> step.op in s'.ops && !PassRunning(s, s'.ops[step.op].owner)
    ensures OnePassEach(s')
  {
    forall o, p | o in s'.ops && p in s'.ops && InPass(s'.ops[o].pc) && InPass(s'.ops[p].pc) && s'.ops[o].owner == s'.ops[p].owner
      ensures o == p
    {
      if !step.StartPass? {
        assert o in s.ops && InPass(s.ops[o].pc) && p in s.ops && InPass(s.ops[p].pc);
      }
    }
  }

  lemma EntryCounts(s: State, o: OpId, now: nat, reply: RevokeReply)
    requires Enabled(s, PassEntry(o, now, reply)) && PassCounts(s.ops[o].pc)
    ensures var s' := ApplyPassEntry(s, o, now, reply); s'.ops[o].pc.Passing? && PassCounts(s'.ops[o].pc)
    ensures ApplyPassEntry(s, o, now, reply).ops[o].pc.snapshot == s.ops[o].pc.snapshot
  {
    var pc := s.ops[o].pc;
    PR.BumpedOnward(pc.snapshot, pc.k, pc.bumped);
    assert PR.Contains(pc.snapshot, pc.snapshot[pc.k].token);
  }

  lemma StepCounts(s: State, step: Step)
    requires PassesOk(s) && Enabled(s, step) && (step.PassRead? || step.PassEntry?)
    ensures var s' := Apply(s, step); s'.pending == s.pending && (s'.ops[step.op].pc.Passing? ==> PassCounts(s'.ops[step.op].pc))
  {
    if step.PassEntry? { EntryCounts(s, step.op, step.now, step.revoke); }
  }

  lemma RecordStaysWellFormed(s: State, step: Step)
    requires PassesOk(s) && Enabled(s, step) && Rewrites(step)
    ensures PR.WellFormed(Apply(s, step).pending)
  {
    var pc := s.ops[step.op].pc;
    if step.PassWrite? {
      assert PassCounts(pc);
      PR.MergeKeepsWellFormed(s.pending, pc.done, pc.bumped);
    } else {
      PR.AppendKeepsWellFormed(s.pending, pc.token, step.expiresAt);
    }
  }

  lemma CountsStay(s: State, s': State, step: Step)
    requires !step.AddInstance? && !step.ServerKills? && Footprint(s, s', step) && PassesOk(s)
    requires s'.ops[step.op].pc.Passing? ==> PassCounts(s'.ops[step.op].pc)
    ensures forall o :: o in s'.ops && s'.ops[o].pc.Passing? ==> PassCounts(s'.ops[o].pc)
  {
  }

  lemma StartsAlone(s: State, step: Step)
    requires Enabled(s, step) && step.StartPass?
    ensures step.op in Apply(s, step).ops && !PassRunning(s, Apply(s, step).ops[step.op].owner)
  {
  }

  lemma StepKeepsPasses(s: State, step: Step)
    requires PassesOk(s) && Enabled(s, step)
    ensures PassesOk(Apply(s, step))
  {
    if !step.AddInstance? && !step.ServerKills? {
      StepFootprint(s, step);
      if step.StartPass? { StartsAlone(s, step); }
      OnePassStays(s, Apply(s, step), step);
      if step.PassRead? || step.PassEntry? { StepCounts(s, step); }
      CountsStay(s, Apply(s, step), step);
      if Rewrites(step) { RecordStaysWellFormed(s, step); }
    }
  }

  lemma {:induction false} ReachablePassesOk(states: seq<State>, steps: seq<Step>, i: nat)
    requires IsRun(states, steps) && i < |states|
    ensures PassesOk(states[i])
  {
    if i > 0 {
      ReachablePassesOk(states, steps, i - 1);
      StepKeepsPasses(states[i - 1], steps[i - 1]);
    }
  }

  // ---- the merge ----

  /**
   * A pass's write-back keeps every entry appended while it ran; one leaves
   * only when the server no longer honours it, or its expiry or attempts
   * dropped it. Tokens stay distinct and every count stays below twenty.
   */
  lemma PassIsAMerge(states: seq<State>, steps: seq<Step>, i: nat, t: Token)
    requires IsRun(states, steps) && i < |steps| && steps[i].PassWrite?
    ensures var s, s', pc := states[i], states[i + 1], states[i].ops[steps[i].op].pc;
      && PR.WellFormed(s'.pending)
      && (PR.Contains(s'.pending, t) ==> PR.Contains(s.pending, t))
      && (PR.Contains(s.pending, t) && !PR.Contains(s'.pending, t) ==>
            PR.Contains(pc.snapshot, t) && (!Honoured(s.server, t) || t in s.dropped))
  {
    ReachableInv(states, steps, i);
    ReachablePassesOk(states, steps, i + 1);
    var s, pc := states[i], states[i].ops[steps[i].op].pc;
    assert PcOk(s, s.ops[steps[i].op]);
    PR.MergeContains(s.pending, pc.done, pc.bumped, t);
  }

  // ---- attempts ----

  /** Operation `o` has read the record, and while it is in its loop the record still has what it read. */
  ghost predicate StillThere(s: State, o: OpId, owner: InstanceId) {
    && o in s.ops && s.ops[o].owner == owner && !s.ops[o].pc.PassReading?
    && (s.ops[o].pc.Passing? ==> PR.AllUnchanged(s.pending, s.ops[o].pc.snapshot))
  }

  /** A write-back of another instance. */
  predicate ForeignWrite(s: State, step: Step, owner: InstanceId) {
    step.PassWrite? && step.op in s.ops && s.ops[step.op].owner != owner
  }

  lemma ReadStarts(s: State, o: OpId)
    requires Enabled(s, PassRead(o))
    ensures StillThere(Apply(s, PassRead(o)), o, s.ops[o].owner)
  {
    PR.SelfUnchanged(s.pending);
  }

  lemma AppendStillThere(s: State, s': State, step: Step, t: Token, expiresAt: nat, o: OpId, owner: InstanceId)
    requires StillThere(s, o, owner) && (step.Record? || step.OutRecord?) && step.op != o && Footprint(s, s', step)
    requires s'.pending == PR.Append(s.pending, t, expiresAt)
    ensures StillThere(s', o, owner)
  {
    if s.ops[o].pc.Passing? { PR.AppendKeepsUnchanged(s.pending, t, expiresAt, s.ops[o].pc.snapshot); }
  }

  lemma ElsewhereStillThere(s: State, s': State, step: Step, o: OpId, owner: InstanceId)
    requires StillThere(s, o, owner) && !step.AddInstance? && !step.ServerKills? && Footprint(s, s', step)
    requires step.op != o && (!Rewrites(step) || (step.PassWrite? && !s.ops[o].pc.Passing?))
    ensures StillThere(s', o, owner)
  {
  }

  /** The operation's own step goes on over what it read, or leaves the loop for good. */
  lemma OwnStep(s: State, step: Step, o: OpId, owner: InstanceId)
    requires StillThere(s, o, owner) && Enabled(s, step) && !step.AddInstance? && !step.ServerKills? && step.op == o
    ensures StillThere(Apply(s, step), o, owner)
  {
    StepFootprint(s, step);
  }

  lemma AppendsStillThere(s: State, step: Step, o: OpId, owner: InstanceId)
    requires StillThere(s, o, owner) && Enabled(s, step) && (step.Record? || step.OutRecord?) && step.op != o
    ensures StillThere(Apply(s, step), o, owner)
  {
    StepFootprint(s, step);
    AppendStillThere(s, Apply(s, step), step, s.ops[step.op].pc.token, step.expiresAt, o, owner);
  }

  lemma StepStillThere(s: State, step: Step, o: OpId, owner: InstanceId)
    requires StillThere(s, o, owner) && OnePassEach(s) && Enabled(s, step) && !ForeignWrite(s, step, owner)
    ensures StillThere(Apply(s, step), o, owner)
  {
    if !step.AddInstance? && !step.ServerKills? {
      if step.op == o {
        OwnStep(s, step, o, owner);
      } else if step.Record? || step.OutRecord? {
        AppendsStillThere(s, step, o, owner);
      } else {
        StepFootprint(s, step);
        ElsewhereStillThere(s, Apply(s, step), step, o, owner);
      }
    }
  }

  lemma {:induction false} SnapshotStays(states: seq<State>, steps: seq<Step>, r: nat, i: nat, o: OpId)
    requires IsRun(states, steps) && r < i < |states| && steps[r] == PassRead(o)
    requires forall n :: r < n < i ==> !ForeignWrite(states[n], steps[n], states[r].ops[o].owner)
    ensures StillThere(states[i], o, states[r].ops[o].owner)
    decreases i
  {
    if r + 1 == i {
      ReadStarts(states[r], o);
    } else {
      SnapshotStays(states, steps, r, i - 1, o);
      ReachablePassesOk(states, steps, i - 1);
      StepStillThere(states[i - 1], steps[i - 1], o, states[r].ops[o].owner);
    }
  }

  predicate InLoop(s: State, o: OpId) {
    o in s.ops && s.ops[o].pc.Passing?
  }

  predicate LoopOn(s: State, step: Step, s': State, o: OpId) {
    InLoop(s', o) ==> step == PassRead(o) || InLoop(s, o)
  }

  lemma LoopOnward(s: State, step: Step, o: OpId)
    requires Enabled(s, step)
    ensures LoopOn(s, step, Apply(s, step), o)
  {
    if !step.AddInstance? && !step.ServerKills? { StepFootprint(s, step); }
  }

  lemma {:induction false} ReadFirst(states: seq<State>, steps: seq<Step>, i: nat, o: OpId)
    requires |states| == |steps| + 1 && i < |states| && !InLoop(states[0], o) && InLoop(states[i], o)
    requires forall k :: 0 <= k < |steps| ==> LoopOn(states[k], steps[k], states[k + 1], o)
    ensures exists r :: 0 <= r < i && steps[r] == PassRead(o)
  {
    assert LoopOn(states[i - 1], steps[i - 1], states[i], o);
    if steps[i - 1] != PassRead(o) { ReadFirst(states, steps, i - 1, o); }
  }

  /** Every pass in its loop has read the record. */
  lemma ReadCameFirst(states: seq<State>, steps: seq<Step>, i: nat, o: OpId)
    requires IsRun(states, steps) && i < |states| && InLoop(states[i], o)
    ensures exists r :: 0 <= r < i && steps[r] == PassRead(o)
  {
    forall k | 0 <= k < |steps|
      ensures LoopOn(states[k], steps[k], states[k + 1], o)
    {
      LoopOnward(states[k], steps[k], o);
    }
    ReadFirst(states, steps, i, o);
  }

  /**
   * Each pass adds exactly one to every entry it attempted and kept, if no
   * other instance's pass wrote the record back since this one read it. Within
   * one instance no two passes overlap, so only other instances matter.
   */
  lemma PassRaisesAttempts(states: seq<State>, steps: seq<Step>, r: nat, i: nat, j: nat, k: nat)
    requires IsRun(states, steps) && r < i < |steps| && steps[i].PassWrite? && steps[r] == PassRead(steps[i].op)
    requires forall n :: r < n < i ==> !ForeignWrite(states[n], steps[n], states[r].ops[steps[i].op].owner)
    requires j < |states[i].pending| && k < |states[i + 1].pending|
    requires states[i].pending[j].token == states[i + 1].pending[k].token
    requires states[i].pending[j].token in states[i].ops[steps[i].op].pc.bumped
    ensures states[i + 1].pending[k].attempts == states[i].pending[j].attempts + 1
  {
    ReachablePassesOk(states, steps, i);
    SnapshotStays(states, steps, r, i, steps[i].op);
    var pc := states[i].ops[steps[i].op].pc;
    PR.MergeRaises(states[i].pending, pc.snapshot, pc.k, pc.done, pc.bumped, j, k);
  }
}
