/** Retry passes over the pending-revoke record, one at a time in the process. */
module CapacitorPasses {
  import opened GrantServer
  import opened CapacitorProtocol
  import opened CapacitorInvariant
  import opened CapacitorSteps
  import opened CapacitorFootprint
  import PR = PendingRevokes

  /** What a pass has read is still in the record, and its counts are one above what it read. */
  ghost predicate PassCounts(s: State, pc: Pc)
    requires pc.Passing?
  {
    && pc.k <= |pc.snapshot| && PR.WellFormed(pc.snapshot) && PR.AllUnchanged(s.pending, pc.snapshot)
    && PR.Bumped(pc.snapshot, pc.k, pc.bumped)
    && (forall t :: t in pc.done ==> PR.Contains(pc.snapshot, t))
  }

  ghost predicate OnePass(s: State) {
    forall o, p :: In(s, o, Pass) && In(s, p, Pass) ==> o == p
  }

  ghost predicate CountsOk(s: State) {
    forall o :: o in s.ops && s.ops[o].pc.Passing? ==> PassCounts(s, s.ops[o].pc)
  }

  ghost predicate PassesOk(s: State) {
    PR.WellFormed(s.pending) && OnePass(s) && CountsOk(s)
  }

  lemma OnePassStays(s: State, s': State, step: Step)
    requires step != Crash && !step.ServerKills? && Footprint(s, s', step) && OnePass(s)
    requires step.StartPass? ==> !Running(s, Pass)
    ensures OnePass(s')
  {
    forall o, p | In(s', o, Pass) && In(s', p, Pass)
      ensures o == p
    {
      if step.StartPass? {
        assert o != step.op ==> In(s, o, Pass);
        assert p != step.op ==> In(s, p, Pass);
      } else {
        assert In(s, o, Pass) && In(s, p, Pass);
      }
    }
  }

  /** A step that leaves the record alone, and its operation outside the loop of a pass. */
  lemma ElsewhereKeeps(s: State, s': State, step: Step)
    requires step != Crash && !step.ServerKills? && Footprint(s, s', step) && PassesOk(s)
    requires !Rewrites(step) && !step.PassRead? && !step.PassEntry?
    ensures PR.WellFormed(s'.pending) && CountsOk(s')
  {
    forall o | o in s'.ops && s'.ops[o].pc.Passing?
      ensures PassCounts(s', s'.ops[o].pc)
    {
      assert o in s.ops && s'.ops[o] == s.ops[o];
    }
  }

  lemma AppendKeeps(s: State, s': State, step: Step, t: Token, expiresAt: nat)
    requires step != Crash && !step.ServerKills? && Footprint(s, s', step) && PassesOk(s)
    requires !step.PassRead? && !step.PassEntry?
    requires s'.pending == s.pending || s'.pending == PR.Append(s.pending, t, expiresAt)
    ensures PR.WellFormed(s'.pending) && CountsOk(s')
  {
    PR.AppendKeepsWellFormed(s.pending, t, expiresAt);
    forall o | o in s'.ops && s'.ops[o].pc.Passing?
      ensures PassCounts(s', s'.ops[o].pc)
    {
      assert o in s.ops && s'.ops[o] == s.ops[o] && PassCounts(s, s.ops[o].pc);
      PR.AppendKeepsUnchanged(s.pending, t, expiresAt, s.ops[o].pc.snapshot);
    }
  }

  lemma ReadKeeps(s: State, o: OpId)
    requires PassesOk(s) && o in s.ops && s.ops[o].pc.PassReading? && s.ops[o].kind == Pass
    requires forall p :: p in s.ops && s.ops[p].pc.Passing? ==> s.ops[p].kind == Pass
    ensures PR.WellFormed(ApplyPassRead(s, o).pending) && CountsOk(ApplyPassRead(s, o))
  {
    PR.SelfUnchanged(s.pending);
    var s' := ApplyPassRead(s, o);
    forall p | p in s'.ops && s'.ops[p].pc.Passing?
      ensures PassCounts(s', s'.ops[p].pc)
    {
      if p != o { assert PassCounts(s, s.ops[p].pc); }
    }
  }

  lemma EntryCounts(s: State, o: OpId, now: nat, reply: RevokeReply)
    requires o in s.ops && s.ops[o].pc.Passing? && s.ops[o].pc.k < |s.ops[o].pc.snapshot|
    requires s.ops[o].pc.snapshot[s.ops[o].pc.k].token.grant in s.server && PassCounts(s, s.ops[o].pc)
    ensures var s' := ApplyPassEntry(s, o, now, reply);
      s'.pending == s.pending && s'.ops[o].pc.Passing? && PassCounts(s', s'.ops[o].pc)
  {
    var pc := s.ops[o].pc;
    PR.BumpedOnward(pc.snapshot, pc.k, pc.bumped);
    assert PR.Contains(pc.snapshot, pc.snapshot[pc.k].token);
  }

  lemma EntryKeeps(s: State, s': State, o: OpId, now: nat, reply: RevokeReply)
    requires PassesOk(s) && Enabled(s, PassEntry(o, now, reply)) && s' == ApplyPassEntry(s, o, now, reply)
    requires Footprint(s, s', PassEntry(o, now, reply))
    ensures PR.WellFormed(s'.pending) && CountsOk(s')
  {
    EntryCounts(s, o, now, reply);
    forall p | p in s'.ops && s'.ops[p].pc.Passing?
      ensures PassCounts(s', s'.ops[p].pc)
    {
      if p != o { assert s'.ops[p] == s.ops[p]; }
    }
  }

  lemma WriteWellFormed(s: State, o: OpId, now: nat)
    requires PR.WellFormed(s.pending) && o in s.ops && s.ops[o].pc.Passing? && PassCounts(s, s.ops[o].pc)
    ensures PR.WellFormed(ApplyPassWrite(s, o, now).pending)
  {
    var pc := s.ops[o].pc;
    PR.MergeKeepsWellFormed(s.pending, pc.done + ExpiredTokens(s.pending, now), pc.bumped);
  }

  /** After the write-back no pass is left in its loop. */
  lemma WriteKeeps(s: State, o: OpId, now: nat)
    requires PassesOk(s) && o in s.ops && s.ops[o].pc.Passing?
    requires forall p :: p in s.ops && s.ops[p].pc.Passing? ==> s.ops[p].kind == Pass
    ensures PR.WellFormed(ApplyPassWrite(s, o, now).pending) && CountsOk(ApplyPassWrite(s, o, now))
  {
    WriteWellFormed(s, o, now);
    var s' := ApplyPassWrite(s, o, now);
    forall p | p in s.ops && s.ops[p].pc.Passing?
      ensures p == o
    {
      assert In(s, p, Pass) && In(s, o, Pass);
    }
  }

  lemma PassKinds(s: State)
    requires Inv(s)
    ensures forall o :: o in s.ops && (s.ops[o].pc.Passing? || s.ops[o].pc.PassReading?) ==> s.ops[o].kind == Pass
  {
    forall o | o in s.ops
      ensures PcKind(s.ops[o].pc, s.ops[o].kind)
    {
      assert OpOk(s, o);
    }
  }

  lemma AppendStepKeeps(s: State, step: Step)
    requires PassesOk(s) && Enabled(s, step) && (step.Record? || step.OutRecord? || step.IntentRecord?)
    ensures PR.WellFormed(Apply(s, step).pending) && CountsOk(Apply(s, step))
  {
    StepFootprint(s, step);
    var pc := s.ops[step.op].pc;
    AppendKeeps(s, Apply(s, step), step, pc.token, if step.IntentRecord? then pc.expiresAt else step.expiresAt);
  }

  lemma LoopStepKeeps(s: State, step: Step)
    requires Inv(s) && PassesOk(s) && Enabled(s, step) && PassStep(step)
    ensures PR.WellFormed(Apply(s, step).pending) && CountsOk(Apply(s, step))
  {
    PassKinds(s);
    StepFootprint(s, step);
    match step
    case PassRead(o) => ReadKeeps(s, o);
    case PassEntry(o, now, reply) => EntryKeeps(s, Apply(s, step), o, now, reply);
    case PassWrite(o, now) => WriteKeeps(s, o, now);
  }

  lemma OtherStepKeeps(s: State, step: Step)
    requires PassesOk(s) && Enabled(s, step) && step != Crash && !step.ServerKills? && !PassStep(step) && !Rewrites(step)
    ensures PR.WellFormed(Apply(s, step).pending) && CountsOk(Apply(s, step))
  {
    StepFootprint(s, step);
    ElsewhereKeeps(s, Apply(s, step), step);
  }

  lemma StepKeepsOnePass(s: State, step: Step)
    requires PassesOk(s) && Enabled(s, step) && step != Crash && !step.ServerKills?
    ensures OnePass(Apply(s, step))
  {
    StepFootprint(s, step);
    OnePassStays(s, Apply(s, step), step);
  }

  lemma OutsideKeepsPasses(s: State, step: Step)
    requires PassesOk(s) && Enabled(s, step) && (step == Crash || step.ServerKills?)
    ensures PassesOk(Apply(s, step))
  {
    var s' := Apply(s, step);
    forall o, p | In(s', o, Pass) && In(s', p, Pass)
      ensures o == p
    {
      assert In(s, o, Pass) && In(s, p, Pass);
    }
  }

  lemma StepKeepsPasses(s: State, step: Step)
    requires Inv(s) && PassesOk(s) && Enabled(s, step)
    ensures PassesOk(Apply(s, step))
  {
    if step == Crash || step.ServerKills? {
      OutsideKeepsPasses(s, step);
    } else {
      StepKeepsOnePass(s, step);
      if PassStep(step) {
        LoopStepKeeps(s, step);
      } else if Rewrites(step) {
        AppendStepKeeps(s, step);
      } else {
        OtherStepKeeps(s, step);
      }
    }
  }

  /** In every run: at most one pass, tokens distinct, counts from one to nineteen, and a pass's counts one above what the record has. */
  lemma {:induction false} ReachablePassesOk(states: seq<State>, steps: seq<Step>, i: nat)
    requires IsRun(states, steps) && i < |states|
    ensures PassesOk(states[i])
  {
    if i > 0 {
      ReachablePassesOk(states, steps, i - 1);
      ReachableInv(states, steps, i - 1);
      StepKeepsPasses(states[i - 1], steps[i - 1]);
    }
  }

  // ---- the merge ----

  /**
   * A pass's write-back keeps every entry appended while it ran; one leaves
   * only when the server no longer honours it, when it was dropped at its
   * expiry or its twentieth attempt, or when it has expired by now. Tokens stay
   * distinct and every count stays below twenty.
   */
  lemma PassIsAMerge(states: seq<State>, steps: seq<Step>, i: nat, t: Token)
    requires IsRun(states, steps) && i < |steps| && steps[i].PassWrite?
    ensures var s, s', pc := states[i], states[i + 1], states[i].ops[steps[i].op].pc;
      && PR.WellFormed(s'.pending)
      && (PR.Contains(s'.pending, t) ==> PR.Contains(s.pending, t))
      && (PR.Contains(s.pending, t) && !PR.Contains(s'.pending, t) ==>
            || (PR.Contains(pc.snapshot, t) && (!Honoured(s.server, t) || t in s.dropped))
            || t in ExpiredTokens(s.pending, steps[i].now))
  {
    ReachableInv(states, steps, i);
    ReachablePassesOk(states, steps, i);
    ReachablePassesOk(states, steps, i + 1);
    MergeLeaves(states[i], steps[i].op, steps[i].now, t);
  }

  lemma MergeLeaves(s: State, o: OpId, now: nat, t: Token)
    requires Inv(s) && PassesOk(s) && o in s.ops && s.ops[o].pc.Passing?
    ensures var s', pc := ApplyPassWrite(s, o, now), s.ops[o].pc;
      && (PR.Contains(s'.pending, t) ==> PR.Contains(s.pending, t))
      && (PR.Contains(s.pending, t) && !PR.Contains(s'.pending, t) ==>
            || (PR.Contains(pc.snapshot, t) && (!Honoured(s.server, t) || t in s.dropped))
            || t in ExpiredTokens(s.pending, now))
  {
    var pc := s.ops[o].pc;
    assert OpOk(s, o) && PassCounts(s, pc);
    PR.MergeContains(s.pending, pc.done + ExpiredTokens(s.pending, now), pc.bumped, t);
  }

  /** Each pass adds exactly one to every entry it attempted and kept. */
  lemma PassRaisesAttempts(states: seq<State>, steps: seq<Step>, i: nat, j: nat, k: nat)
    requires IsRun(states, steps) && i < |steps| && steps[i].PassWrite?
    requires j < |states[i].pending| && k < |states[i + 1].pending|
    requires states[i].pending[j].token == states[i + 1].pending[k].token
    requires states[i].pending[j].token in states[i].ops[steps[i].op].pc.bumped
    ensures states[i + 1].pending[k].attempts == states[i].pending[j].attempts + 1
  {
    ReachablePassesOk(states, steps, i);
    WriteRaises(states[i], steps[i].op, steps[i].now, j, k);
  }

  lemma WriteRaises(s: State, o: OpId, now: nat, j: nat, k: nat)
    requires PassesOk(s) && o in s.ops && s.ops[o].pc.Passing?
    requires j < |s.pending| && s.pending[j].token in s.ops[o].pc.bumped
    requires k < |ApplyPassWrite(s, o, now).pending| && ApplyPassWrite(s, o, now).pending[k].token == s.pending[j].token
    ensures ApplyPassWrite(s, o, now).pending[k].attempts == s.pending[j].attempts + 1
  {
    var pc := s.ops[o].pc;
    assert PassCounts(s, pc);
    PR.MergeRaises(s.pending, pc.snapshot, pc.k, pc.done + ExpiredTokens(s.pending, now), pc.bumped, j, k);
  }
}
