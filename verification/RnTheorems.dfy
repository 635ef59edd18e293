/** What the grant protocol promises about every run. */
module RnTheorems {
  import opened Wrappers
  import opened GrantServer
  import opened RnProtocol
  import opened RnInvariant
  import PR = PendingRevokes
  import opened SessionRecord

  // ---- grant conservation ----

  /**
   * Every refresh token the client has received and the server still honours
   * is the stored session's, in the pending-revoke record, or in the hands of
   * a running operation, unless a retry dropped it or its process stopped.
   */
  lemma GrantConservation(states: seq<State>, steps: seq<Step>, i: nat, t: Token)
    requires IsRun(states, steps) && i < |states|
    requires t in states[i].received && Honoured(states[i].server, t)
    ensures var s := states[i];
      s.session == Some(t) || PR.Contains(s.pending, t) || IsHeld(s, t) || t in s.dropped || t in s.lost
  {
    ReachableInv(states, steps, i);
  }

  /** The two exceptions are exact: expiry or twenty attempts, and a stopped process's own token. */
  lemma ExceptionsAreBounded(s: State, step: Step, t: Token)
    requires Enabled(s, step)
    ensures t in Apply(s, step).dropped && t !in s.dropped ==>
      && step.PassEntry?
      && var e := s.ops[step.op].pc.snapshot[s.ops[step.op].pc.k];
         e.token == t && (step.now >= e.expiresAt || e.attempts + 1 >= PR.MAX_REVOKE_ATTEMPTS)
    ensures t in Apply(s, step).lost && t !in s.lost ==> step.Vanish? && Held(s.ops[step.op].pc) == Some(t)
  {
  }

  // ---- rotation ----

  /** History only grows. */
  lemma StoredGrows(s: State, step: Step)
    requires Enabled(s, step)
    ensures s.stored <= Apply(s, step).stored
  {
  }

  lemma {:induction false} StoredMonotone(states: seq<State>, steps: seq<Step>, i: nat, j: nat)
    requires IsRun(states, steps) && i <= j < |states|
    ensures states[i].stored <= states[j].stored
    decreases j - i
  {
    if i < j {
      StoredMonotone(states, steps, i, j - 1);
      StoredGrows(states[j - 1], steps[j - 1]);
    }
  }

  /** A grant's stored token never goes back to an older one, however much later and whoever saves it. */
  lemma RotationNeverRegresses(states: seq<State>, steps: seq<Step>, i: nat, j: nat)
    requires IsRun(states, steps) && i <= j < |states|
    requires states[i].session.Some? && states[j].session.Some?
    requires states[i].session.value.grant == states[j].session.value.grant
    ensures states[i].session.value.version <= states[j].session.value.version
  {
    ReachableInv(states, steps, i);
    ReachableInv(states, steps, j);
    StoredMonotone(states, steps, i, j);
  }

  /**
   * The stored token is the newest received of its grant, or the newer one is
   * the grant's newest and exactly one operation holds it, or it was abandoned
   * or lost with its process: a rotation never forks.
   */
  lemma RotationNeverForks(states: seq<State>, steps: seq<Step>, i: nat, t: Token)
    requires IsRun(states, steps) && i < |states|
    requires states[i].session.Some? && t in states[i].received
    requires t.grant == states[i].session.value.grant && t.version > states[i].session.value.version
    ensures IsNewest(states[i], t)
    ensures t in states[i].handedOver || t in states[i].lost ||
      exists o :: o in states[i].ops && Fresh(states[i].ops[o].pc) == Some(t)
        && forall p :: p in states[i].ops && Fresh(states[i].ops[p].pc) == Some(t) ==> p == o
  {
    ReachableInv(states, steps, i);
    var s := states[i];
    assert t !in s.stored;
    if t !in s.handedOver && t !in s.lost {
      assert IsFresh(s, t);
      var o :| o in s.ops && Fresh(s.ops[o].pc) == Some(t);
      forall p | p in s.ops && Fresh(s.ops[p].pc) == Some(t)
        ensures p == o
      {
      }
    }
  }

  // ---- sign-out ----

  /**
   * A session is only ever written by an accepted save whose instance has
   * started no sign-out since the operation started, and has none running; a
   * renewal's save replaces only its own session, and with a newer token.
   */
  lemma SignOutWins(states: seq<State>, steps: seq<Step>, i: nat)
    requires IsRun(states, steps) && i < |steps|
    requires states[i + 1].session.Some? && states[i + 1].session != states[i].session
    ensures steps[i].Commit?
    ensures var s, o := states[i], steps[i].op;
      && At(s, o) && Current(s, o) && NoFlight(s, o)
      && s.ops[o].pc.Committing? && states[i + 1].session == Some(s.ops[o].pc.token)
      && (s.session.Some? && s.session.value.grant == s.ops[o].pc.token.grant ==>
            s.session.value.version < s.ops[o].pc.token.version)
      && (s.session.None? || s.session.value.grant != s.ops[o].pc.token.grant ==> s.ops[o].pc.any)
  {
    ReachableInv(states, steps, i);
    SessionWriteIsCommit(states[i], steps[i]);
    var s, o := states[i], steps[i].op;
    assert Fresh(s.ops[o].pc) == Some(s.ops[o].pc.token);
    assert GateOk(s, o);
  }

  lemma SessionWriteIsCommit(s: State, step: Step)
    requires Enabled(s, step)
    requires Apply(s, step).session.Some? && Apply(s, step).session != s.session
    ensures step.Commit? && SaveCommit(s, step.op).Committed?
    ensures Apply(s, step).session == Some(s.ops[step.op].pc.token)
  {
  }

  predicate SameOwner(s: State, s': State, o: OpId) {
    o in s.ops && o in s'.ops && s'.ops[o].owner == s.ops[o].owner && s'.ops[o].generation == s.ops[o].generation
  }

  predicate Saves(step: Step) {
    step.Exchange? || step.Commit? || step.Renew? || step.Remove? || step.Revoke? || step.Record?
  }

  lemma SavesKeepTheirOwner(s: State, step: Step, o: OpId)
    requires Enabled(s, step) && Saves(step) && o in s.ops
    ensures SameOwner(s, Apply(s, step), o)
  {
  }

  lemma OthersKeepTheirOwner(s: State, step: Step, o: OpId)
    requires Enabled(s, step) && !Saves(step) && o in s.ops
    ensures SameOwner(s, Apply(s, step), o)
  {
  }

  /** An operation keeps its owner and the generation it started under. */
  lemma OperationsKeepTheirOwner(s: State, step: Step, o: OpId)
    requires Enabled(s, step) && o in s.ops
    ensures SameOwner(s, Apply(s, step), o)
  {
    if Saves(step) { SavesKeepTheirOwner(s, step, o); } else { OthersKeepTheirOwner(s, step, o); }
  }

  lemma InstancesStay(s: State, step: Step)
    requires Enabled(s, step) && !step.AddInstance? && !step.StartSignOut? && !step.OutRead? && !step.OutRemove?
    ensures Apply(s, step).instances == s.instances
  {
  }

  /** An instance stays, and its generation never decreases. */
  lemma GenerationsGrow(s: State, step: Step, i: InstanceId)
    requires Enabled(s, step) && i in s.instances
    ensures i in Apply(s, step).instances
    ensures Apply(s, step).instances[i].generation >= s.instances[i].generation
  {
    if !step.AddInstance? && !step.StartSignOut? && !step.OutRead? && !step.OutRemove? { InstancesStay(s, step); }
  }

  /** The operation's instance has started a sign-out since the operation did. */
  predicate Passed(s: State, o: OpId) {
    At(s, o) && s.ops[o].generation < s.instances[s.ops[o].owner].generation
  }

  lemma StaysPassed(s: State, step: Step, o: OpId)
    requires Enabled(s, step) && Passed(s, o)
    ensures Passed(Apply(s, step), o)
  {
    OperationsKeepTheirOwner(s, step, o);
    GenerationsGrow(s, step, s.ops[o].owner);
  }

  lemma SignOutPasses(s: State, step: Step, o: OpId)
    requires Enabled(s, step) && step.StartSignOut? && At(s, o) && step.i == s.ops[o].owner
    requires s.ops[o].generation <= s.instances[step.i].generation
    ensures Passed(Apply(s, step), o)
  {
  }

  lemma {:induction false} StaysSuperseded(states: seq<State>, steps: seq<Step>, j: nat, i: nat, o: OpId)
    requires IsRun(states, steps) && j < i < |states|
    requires At(states[j], o) && steps[j].StartSignOut? && steps[j].i == states[j].ops[o].owner
    ensures Passed(states[i], o)
    decreases i
  {
    if j + 1 == i {
      ReachableInv(states, steps, j);
      assert GateOk(states[j], o);
      SignOutPasses(states[j], steps[j], o);
    } else {
      StaysSuperseded(states, steps, j, i - 1, o);
      StaysPassed(states[i - 1], steps[i - 1], o);
    }
  }

  /** Once a signOut() of its instance has started, an operation that was running never writes a session. */
  lemma NoSaveAfterSignOut(states: seq<State>, steps: seq<Step>, j: nat, i: nat, o: OpId)
    requires IsRun(states, steps) && j < i < |steps|
    requires At(states[j], o) && steps[j].StartSignOut? && steps[j].i == states[j].ops[o].owner
    requires steps[i] == Commit(o)
    ensures states[i + 1].session == states[i].session
  {
    StaysSuperseded(states, steps, j, i, o);
  }

  /**
   * Write-ahead: a session leaves the store unreplaced only when its revoke
   * was attempted by a sign-out (and, if the server still honours it, it is
   * already in the pending-revoke record or was dropped from it), or when a
   * terminal answer means the server no longer honours it.
   */
  lemma RemovalIsWriteAhead(states: seq<State>, steps: seq<Step>, i: nat)
    requires IsRun(states, steps) && i < |steps|
    requires states[i].session.Some? && states[i + 1].session == None
    ensures var s, t := states[i], states[i].session.value;
      || (steps[i].Remove? && !Honoured(s.server, t))
      || (steps[i].OutRemove? && s.ops[steps[i].op].pc == OutRemoving(t, s.ops[steps[i].op].pc.transient)
          && t in s.signedOut
          && (Honoured(s.server, t) ==> PR.Contains(s.pending, t) || t in s.dropped))
  {
    ReachableInv(states, steps, i);
    var s, step := states[i], steps[i];
    SessionRemovedBy(s, step);
    if step.Remove? {
      RemovedIsDead(s, step.op);
    } else {
      assert PcOk(s, s.ops[step.op]);
    }
  }

  lemma SessionRemovedBy(s: State, step: Step)
    requires Enabled(s, step)
    requires s.session.Some? && Apply(s, step).session == None
    ensures step.Remove? || step.OutRemove?
    ensures step.Remove? ==> s.session.value.grant == s.ops[step.op].pc.grant
    ensures step.OutRemove? ==> s.session == Some(s.ops[step.op].pc.token)
  {
  }

  /** A sign-out that runs to its end leaves no session stored. */
  lemma SignOutEndsSignedOut(s: State, step: Step, o: OpId)
    requires Enabled(s, step) && At(s, o)
    requires s.ops[o].pc.OutReading? || s.ops[o].pc.OutRevoking? || s.ops[o].pc.OutRecording? || s.ops[o].pc.OutRemoving?
    requires o in Apply(s, step).ops && Apply(s, step).ops[o].pc.Finished? && !step.Vanish?
    ensures Apply(s, step).session == None
  {
    if !step.AddInstance? && !step.ServerKills? {
      OneOpMoves(s, step);
      assert step.op == o;
    }
  }

  // ---- errors ----

  /** An error carries a refresh token only if the operation saved that token and did not abandon it. */
  lemma ErrorTokenIsSaved(states: seq<State>, steps: seq<Step>, i: nat, o: OpId, t: Token)
    requires IsRun(states, steps) && i < |states|
    requires o in states[i].ops && states[i].ops[o].pc == Finished(Reject(Some(t)))
    ensures t in states[i].ops[o].saved && t !in states[i].ops[o].abandoned
  {
    ReachableInv(states, steps, i);
    assert PcOk(states[i], states[i].ops[o]);
  }

  // ---- revokes ----

  /** The SDK never asks to revoke the current session's token, except by signing it out. */
  lemma RevokesSpareTheSession(states: seq<State>, steps: seq<Step>, i: nat)
    requires IsRun(states, steps) && i < |steps|
    ensures steps[i].Revoke? ==> states[i].session != Some(states[i].ops[steps[i].op].pc.token)
    ensures steps[i].PassEntry? ==>
      var t := states[i].ops[steps[i].op].pc.snapshot[states[i].ops[steps[i].op].pc.k].token;
      states[i].session == Some(t) ==> t in states[i].signedOut
  {
    ReachableInv(states, steps, i);
    var s, step := states[i], steps[i];
    if step.Revoke? {
      assert PcOk(s, s.ops[step.op]);
    } else if step.PassEntry? {
      assert PcOk(s, s.ops[step.op]);
      assert LetGo(s, s.ops[step.op].pc.snapshot[s.ops[step.op].pc.k].token);
    }
  }
}
