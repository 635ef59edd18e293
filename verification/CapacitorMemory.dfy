/**
 * Where a token can be: in one of the three records of the store, or in the
 * memory of an operation that may still put it into a record.
 *
 * A step only moves tokens between these places. What its operation and the
 * records hold afterwards they held before, except for a token the server has
 * just issued: the first of a new grant, or the one after the newest of its
 * grant. So a token that was issued once and is in none of these places is
 * never found again, by no step of any operation and after no stop; what a stop
 * forgets stays forgotten.
 *
 * The entries a retry pass has read do not count: it writes back only entries
 * that are in the record when it does.
 */
module CapacitorMemory {
  import opened Wrappers
  import opened GrantServer
  import opened CapacitorProtocol
  import opened CapacitorInvariant
  import opened CapacitorSteps
  import opened CapacitorFootprint
  import PR = PendingRevokes

  predicate WhyHolds(why: Why, t: Token) {
    why.Terminal? && why.rotated == Some(t)
  }

  /** The operation could still put `t` into a record. */
  predicate PcHolds(pc: Pc, t: Token) {
    match pc
    case Marking(u, _) => u == t
    case Committing(u) => u == t
    case CommitWrote(u, previous) => u == t || previous == Some(t)
    case Abandoning(u, why) => u == t || WhyHolds(why, t)
    case Recording(u, why) => u == t || WhyHolds(why, t)
    case Requesting(u) => u == t
    case Writing(u, v, _) => u == t || v == t
    case Written(u, _) => u == t
    case Wiping(u, rotated) => u == t || rotated == Some(t)
    case OutRevoking(u) => u == t
    case OutRecording(u) => u == t
    case OutWiping(expected) => expected == Some(t)
    case IntentRevoking(_, u, _) => u == t
    case IntentRecording(_, u, _) => u == t
    case _ => false
  }

  predicate OpHolds(s: State, o: OpId, t: Token) {
    o in s.ops && (s.ops[o].previous == Some(t) || PcHolds(s.ops[o].pc, t))
  }

  ghost predicate Remembered(s: State, t: Token) {
    InRecords(s, t) || exists o :: OpHolds(s, o, t)
  }

  /** What the step's operation and the records hold afterwards they held before, or the server has just issued. */
  ghost predicate NothingAppears(s: State, s': State, o: OpId, t: Token) {
    InRecords(s', t) || OpHolds(s', o, t) ==> InRecords(s, t) || OpHolds(s, o, t) || !Known(s, t)
  }

  lemma SignInAppears(s: State, step: Step, t: Token)
    requires Enabled(s, step) && (SignInStep(step) || ExchangeStep(step))
    ensures NothingAppears(s, Apply(s, step), step.op, t)
  {
  }

  lemma CommitWriteAppears(s: State, o: OpId, t: Token)
    requires o in s.ops && s.ops[o].pc.Committing?
    ensures NothingAppears(s, ApplyCommitWrite(s, o), o, t)
  {
  }

  lemma CommitFinishAppears(s: State, o: OpId, renewNow: bool, t: Token)
    requires o in s.ops && s.ops[o].pc.CommitWrote?
    ensures NothingAppears(s, ApplyCommitFinish(s, o, renewNow), o, t)
  {
  }

  lemma ClearAppears(s: State, step: Step, t: Token)
    requires Enabled(s, step) && (step.ClearOwn? || step.CheckPrevious?)
    ensures NothingAppears(s, Apply(s, step), step.op, t)
  {
  }

  lemma CommitAppears(s: State, step: Step, t: Token)
    requires Enabled(s, step) && CommitStep(step)
    ensures NothingAppears(s, Apply(s, step), step.op, t)
  {
    if step.CommitWrite? {
      CommitWriteAppears(s, step.op, t);
    } else if step.CommitFinish? {
      CommitFinishAppears(s, step.op, step.renewNow, t);
    } else {
      ClearAppears(s, step, t);
    }
  }

  lemma RenewAppears(s: State, o: OpId, reply: RenewReply, t: Token)
    requires Enabled(s, Renew(o, reply))
    ensures NothingAppears(s, ApplyRenew(s, o, reply), o, t)
  {
  }

  lemma RenewalAppears(s: State, step: Step, t: Token)
    requires Enabled(s, step) && (step.StartRenewal? || step.Read? || step.Write? || step.AfterWrite?)
    ensures NothingAppears(s, Apply(s, step), step.op, t)
  {
  }

  lemma WipeAppears(s: State, step: Step, t: Token)
    requires Enabled(s, step) && (step.Wipe? || step.WipeOwn?)
    ensures NothingAppears(s, Apply(s, step), step.op, t)
  {
  }

  lemma AbandonedAppears(s: State, o: OpId, u: Token, why: Why, settled: bool, renewNow: bool, t: Token)
    requires Leaving(s, o, u, why)
    ensures NothingAppears(s, Abandoned(s, o, why, settled, renewNow), o, t)
  {
  }

  lemma AbandonAppears(s: State, step: Step, t: Token)
    requires Enabled(s, step) && step.Abandon?
    ensures NothingAppears(s, Apply(s, step), step.op, t)
  {
    var pc := s.ops[step.op].pc;
    AbandonedAppears(s.(server := AfterRevoke(s.server, pc.token, step.revoke)), step.op, pc.token, pc.why, true, step.renewNow, t);
  }

  lemma AppendAppears(s: State, u: Token, now: nat, expiresAt: nat, t: Token)
    ensures InRecords(Append(s, u, now, expiresAt), t) ==> InRecords(s, t) || t == u
  {
    PR.AppendContains(s.pending, u, expiresAt);
  }

  lemma RecordAppears(s: State, o: OpId, now: nat, expiresAt: nat, renewNow: bool, t: Token)
    requires o in s.ops && s.ops[o].pc.Recording?
    ensures NothingAppears(s, ApplyRecord(s, o, now, expiresAt, renewNow), o, t)
  {
    var pc := s.ops[o].pc;
    AppendAppears(s, pc.token, now, expiresAt, t);
    AbandonedAppears(Append(s, pc.token, now, expiresAt), o, pc.token, pc.why, false, renewNow, t);
  }

  lemma OutRecordAppears(s: State, o: OpId, now: nat, expiresAt: nat, t: Token)
    requires o in s.ops && s.ops[o].pc.OutRecording?
    ensures NothingAppears(s, ApplyOutRecord(s, o, now, expiresAt), o, t)
  {
    AppendAppears(s, s.ops[o].pc.token, now, expiresAt, t);
  }

  lemma OutAppears(s: State, step: Step, t: Token)
    requires Enabled(s, step) && OutStep(step) && !step.OutRecord?
    ensures NothingAppears(s, Apply(s, step), step.op, t)
  {
  }

  lemma IntentRecordAppears(s: State, o: OpId, now: nat, t: Token)
    requires o in s.ops && s.ops[o].pc.IntentRecording?
    ensures NothingAppears(s, ApplyIntentRecord(s, o, now), o, t)
  {
    AppendAppears(s, s.ops[o].pc.token, now, s.ops[o].pc.expiresAt, t);
  }

  lemma IntentAppears(s: State, step: Step, t: Token)
    requires Enabled(s, step) && IntentStep(step) && !step.IntentRecord?
    ensures NothingAppears(s, Apply(s, step), step.op, t)
  {
  }

  lemma PassWriteAppears(s: State, o: OpId, now: nat, t: Token)
    requires o in s.ops && s.ops[o].pc.Passing?
    ensures NothingAppears(s, ApplyPassWrite(s, o, now), o, t)
  {
    var pc := s.ops[o].pc;
    PR.MergeContains(s.pending, pc.done + ExpiredTokens(s.pending, now), pc.bumped, t);
  }

  lemma PassAppears(s: State, step: Step, t: Token)
    requires Enabled(s, step) && (step.PassRead? || step.PassEntry?)
    ensures NothingAppears(s, Apply(s, step), step.op, t)
  {
  }

  /** The steps that write the pending revokes. */
  lemma RewriteAppears(s: State, step: Step, t: Token)
    requires Enabled(s, step) && Rewrites(step)
    ensures NothingAppears(s, Apply(s, step), step.op, t)
  {
    match step
    case Record(o, now, expiresAt, renewNow) => RecordAppears(s, o, now, expiresAt, renewNow, t);
    case OutRecord(o, now, expiresAt) => OutRecordAppears(s, o, now, expiresAt, t);
    case IntentRecord(o, now) => IntentRecordAppears(s, o, now, t);
    case PassWrite(o, now) => PassWriteAppears(s, o, now, t);
  }

  lemma EndAppears(s: State, step: Step, t: Token)
    requires Enabled(s, step) && (step.StartSignIn? || step.SignInEnds? || step.CommitRefused?)
    ensures NothingAppears(s, Apply(s, step), step.op, t)
  {
  }

  lemma StepAppears(s: State, step: Step, t: Token)
    requires Enabled(s, step) && step != Crash && !step.ServerKills?
    ensures NothingAppears(s, Apply(s, step), step.op, t)
  {
    if Rewrites(step) {
      RewriteAppears(s, step, t);
    } else if SignInStep(step) || ExchangeStep(step) {
      SignInAppears(s, step, t);
    } else if CommitStep(step) {
      CommitAppears(s, step, t);
    } else if step.Renew? {
      RenewAppears(s, step.op, step.renewal, t);
    } else if RenewalStep(step) {
      RenewalAppears(s, step, t);
    } else if step.Wipe? || step.WipeOwn? {
      WipeAppears(s, step, t);
    } else if step.Abandon? {
      AbandonAppears(s, step, t);
    } else if OutStep(step) {
      OutAppears(s, step, t);
    } else if IntentStep(step) {
      IntentAppears(s, step, t);
    } else if PassStep(step) {
      PassAppears(s, step, t);
    } else {
      EndAppears(s, step, t);
    }
  }

  lemma OthersHold(s: State, s': State, o: OpId, t: Token)
    requires o in s'.ops && s'.ops == s.ops[o := s'.ops[o]] && NothingAppears(s, s', o, t)
    requires Known(s, t) && Remembered(s', t)
    ensures Remembered(s, t)
  {
    if !InRecords(s', t) {
      var p :| OpHolds(s', p, t);
      if p != o { assert OpHolds(s, p, t); }
    }
  }

  /** A token the server has issued and nobody has is not found again by any step. */
  lemma StaysForgotten(s: State, step: Step, t: Token)
    requires Enabled(s, step) && Known(s, t) && !Remembered(s, t)
    ensures !Remembered(Apply(s, step), t)
  {
    if step != Crash && !step.ServerKills? {
      StepFootprint(s, step);
      StepAppears(s, step, t);
      if Remembered(Apply(s, step), t) { OthersHold(s, Apply(s, step), step.op, t); }
    } else if Remembered(Apply(s, step), t) && step.ServerKills? {
      var p :| InRecords(s, t) || OpHolds(Apply(s, step), p, t);
      assert OpHolds(s, p, t);
    }
  }
}
