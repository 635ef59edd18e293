/** What the Capacitor SDK guarantees over every run, stops of the process included. */
module CapacitorTheorems {
  import opened Wrappers
  import opened GrantServer
  import opened CapacitorProtocol
  import opened CapacitorInvariant
  import opened CapacitorSteps
  import opened CapacitorFootprint
  import opened CapacitorMemory
  import PR = PendingRevokes

  // ---- what each step may change ----

  /** The session record as the storage queue shows it: a half-done commitSignIn is not seen. */
  function Visible(s: State): Option<Token> {
    if s.lock.Some? && s.lock.value in s.ops && s.ops[s.lock.value].pc.CommitWrote?
    then s.ops[s.lock.value].pc.previous else s.session
  }

  /** Every operation keeps its attempt, and its epoch unless it commits a current attempt; both counters only grow. */
  ghost predicate Stamped(s: State, s': State, step: Step) {
    && s.attempt <= s'.attempt && s.epoch <= s'.epoch && s'.lost == s.lost && s.durable <= s'.durable
    && (forall p :: p in s.ops ==>
          && p in s'.ops && s'.ops[p].attempt == s.ops[p].attempt
          && (s'.ops[p].epoch == s.ops[p].epoch
              || (step.CommitFinish? && step.op == p && s.ops[p].attempt == s.attempt && s'.ops[p].epoch == s'.epoch)))
    && (forall p :: p in s'.ops && p !in s.ops ==> s'.ops[p].attempt <= s'.attempt && s'.ops[p].epoch <= s'.epoch)
    && s.tried <= s'.tried && (forall g :: g in s'.active && g !in s.active ==> g !in s.tried)
  }

  /** The visible session changes only by a commit, a rotation, or a removal. */
  ghost predicate Moves(s: State, s': State, step: Step) {
    || Visible(s') == Visible(s)
    || Visible(s') == None
    || (step.CommitFinish? && step.op in s.ops && s.ops[step.op].attempt == s.attempt && s.ops[step.op].pc.CommitWrote?
        && Visible(s') == Some(s.ops[step.op].pc.token))
    || (step.Write? && step.op in s.ops && s.ops[step.op].epoch == s.epoch
        && Visible(s).Some? && Visible(s') == Some(Next(Visible(s).value)))
  }

  predicate SessionStep(step: Step) {
    step.WriteIntent? || step.CommitWrite? || step.CommitFinish? || step.Write? || step.Wipe? || step.WipeOwn? || step.OutWipe?
  }

  /** Nothing a later commit or removal depends on changes but the operation's own progress. */
  ghost predicate Quiet(s: State, s': State, o: OpId) {
    && o in s'.ops && s'.ops == s.ops[o := s'.ops[o]] && !IsHalfCommitted(s, o)
    && (if o in s.ops then s'.ops[o].attempt == s.ops[o].attempt && s'.ops[o].epoch == s.ops[o].epoch
        else s'.ops[o].attempt == s'.attempt && s'.ops[o].epoch == s'.epoch)
    && s'.session == s.session && s'.lock == s.lock && s'.lost == s.lost && s.durable <= s'.durable
    && s.attempt <= s'.attempt && s.epoch <= s'.epoch && s.tried <= s'.tried && s'.active <= s.active
  }

  lemma QuietMoves(s: State, s': State, step: Step, o: OpId)
    requires StoreOk(s) && Quiet(s, s', o)
    ensures Stamped(s, s', step) && Moves(s, s', step)
  {
  }

  lemma SignInStepQuiet(s: State, step: Step)
    requires Enabled(s, step) && SignInStep(step)
    ensures Quiet(s, Apply(s, step), step.op)
  {
  }

  lemma ExchangeStepQuiet(s: State, step: Step)
    requires Enabled(s, step) && ExchangeStep(step) && !SessionStep(step)
    ensures Quiet(s, Apply(s, step), step.op)
  {
  }

  lemma CommitStepQuiet(s: State, step: Step)
    requires Enabled(s, step) && CommitStep(step) && !SessionStep(step)
    ensures Quiet(s, Apply(s, step), step.op)
  {
  }

  lemma RenewalStepQuiet(s: State, step: Step)
    requires Enabled(s, step) && RenewalStep(step) && !SessionStep(step)
    ensures Quiet(s, Apply(s, step), step.op)
  {
  }

  lemma AbandonedQuiet(s: State, o: OpId, why: Why, settled: bool, renewNow: bool)
    requires o in s.ops && !IsHalfCommitted(s, o)
    ensures Quiet(s, Abandoned(s, o, why, settled, renewNow), o)
  {
  }

  lemma AbandonQuiet(s: State, o: OpId, reply: RevokeReply, renewNow: bool)
    requires o in s.ops && s.ops[o].pc.Abandoning? && s.ops[o].pc.token.grant in s.server
    ensures Quiet(s, ApplyAbandon(s, o, reply, renewNow), o)
  {
    AbandonedQuiet(s.(server := AfterRevoke(s.server, s.ops[o].pc.token, reply)), o, s.ops[o].pc.why, true, renewNow);
  }

  lemma RecordQuiet(s: State, o: OpId, now: nat, expiresAt: nat, renewNow: bool)
    requires o in s.ops && s.ops[o].pc.Recording?
    ensures Quiet(s, ApplyRecord(s, o, now, expiresAt, renewNow), o)
  {
    AbandonedQuiet(Append(s, s.ops[o].pc.token, now, expiresAt), o, s.ops[o].pc.why, false, renewNow);
  }

  lemma WipeStepQuiet(s: State, step: Step)
    requires Enabled(s, step) && WipeStep(step) && !SessionStep(step)
    ensures Quiet(s, Apply(s, step), step.op)
  {
    match step
    case Abandon(o, reply, renewNow) => AbandonQuiet(s, o, reply, renewNow);
    case Record(o, now, expiresAt, renewNow) => RecordQuiet(s, o, now, expiresAt, renewNow);
  }

  lemma OutStepQuiet(s: State, step: Step)
    requires Enabled(s, step) && OutStep(step) && !SessionStep(step)
    ensures Quiet(s, Apply(s, step), step.op)
  {
  }

  lemma IntentStepQuiet(s: State, step: Step)
    requires Enabled(s, step) && IntentStep(step)
    ensures Quiet(s, Apply(s, step), step.op)
  {
  }

  lemma PassStepQuiet(s: State, step: Step)
    requires Enabled(s, step) && PassStep(step)
    ensures Quiet(s, Apply(s, step), step.op)
  {
  }

  lemma EndStepQuiet(s: State, step: Step)
    requires Enabled(s, step) && (step.SignInEnds? || step.CommitRefused?)
    ensures Quiet(s, Apply(s, step), step.op)
  {
  }

  lemma WriteIntentMoves(s: State, o: OpId, expiresAt: nat)
    requires Free(s, o) && s.ops[o].pc.Authorizing? && s.ops[o].grant !in s.tried
    ensures Stamped(s, ApplyWriteIntent(s, o, expiresAt), WriteIntent(o, expiresAt)) && Moves(s, ApplyWriteIntent(s, o, expiresAt), WriteIntent(o, expiresAt))
  {
  }

  lemma CommitWriteMoves(s: State, o: OpId)
    requires Free(s, o) && s.ops[o].pc.Committing?
    ensures Stamped(s, ApplyCommitWrite(s, o), CommitWrite(o)) && Moves(s, ApplyCommitWrite(s, o), CommitWrite(o))
  {
  }

  lemma CommitFinishMoves(s: State, o: OpId, renewNow: bool)
    requires o in s.ops && s.ops[o].pc.CommitWrote?
    requires s.lock == Some(o) && s.session == Some(s.ops[o].pc.token)
    ensures Stamped(s, ApplyCommitFinish(s, o, renewNow), CommitFinish(o, renewNow)) && Moves(s, ApplyCommitFinish(s, o, renewNow), CommitFinish(o, renewNow))
  {
  }

  lemma WriteMoves(s: State, o: OpId)
    requires Free(s, o) && s.ops[o].pc.Writing?
    requires s.ops[o].pc.token == Next(s.ops[o].pc.using)
    ensures Stamped(s, ApplyWrite(s, o), Write(o)) && Moves(s, ApplyWrite(s, o), Write(o))
  {
  }

  lemma WipeMoves(s: State, o: OpId)
    requires Free(s, o) && s.ops[o].pc.Wiping?
    ensures Stamped(s, ApplyWipe(s, o), Wipe(o)) && Moves(s, ApplyWipe(s, o), Wipe(o))
  {
  }

  lemma WipeOwnMoves(s: State, o: OpId)
    requires Free(s, o) && s.ops[o].pc.WipingOwn?
    ensures Stamped(s, ApplyWipeOwn(s, o), WipeOwn(o)) && Moves(s, ApplyWipeOwn(s, o), WipeOwn(o))
  {
  }

  lemma OutWipeMoves(s: State, o: OpId)
    requires Free(s, o) && s.ops[o].pc.OutWiping?
    ensures Stamped(s, ApplyOutWipe(s, o), OutWipe(o)) && Moves(s, ApplyOutWipe(s, o), OutWipe(o))
  {
  }

  lemma StoreStepMoves(s: State, step: Step)
    requires Enabled(s, step) && (step.WriteIntent? || step.CommitWrite? || step.CommitFinish? || step.Write?)
    requires OpOk(s, step.op)
    ensures Stamped(s, Apply(s, step), step) && Moves(s, Apply(s, step), step)
  {
    match step
    case WriteIntent(o, expiresAt) => WriteIntentMoves(s, o, expiresAt);
    case CommitWrite(o) => CommitWriteMoves(s, o);
    case CommitFinish(o, renewNow) => CommitFinishMoves(s, o, renewNow);
    case Write(o) => WriteMoves(s, o);
  }

  lemma RemoveStepMoves(s: State, step: Step)
    requires Enabled(s, step) && (step.Wipe? || step.WipeOwn? || step.OutWipe?)
    ensures Stamped(s, Apply(s, step), step) && Moves(s, Apply(s, step), step)
  {
    match step
    case Wipe(o) => WipeMoves(s, o);
    case WipeOwn(o) => WipeOwnMoves(s, o);
    case OutWipe(o) => OutWipeMoves(s, o);
  }

  lemma OtherStepQuiet(s: State, step: Step)
    requires Enabled(s, step) && !SessionStep(step) && !step.StartSignIn? && !step.ServerKills? && step != Crash
    ensures Quiet(s, Apply(s, step), step.op)
  {
    if SignInStep(step) {
      SignInStepQuiet(s, step);
    } else if ExchangeStep(step) {
      ExchangeStepQuiet(s, step);
    } else if CommitStep(step) {
      CommitStepQuiet(s, step);
    } else if RenewalStep(step) {
      RenewalStepQuiet(s, step);
    } else if WipeStep(step) {
      WipeStepQuiet(s, step);
    } else if OutStep(step) {
      OutStepQuiet(s, step);
    } else if IntentStep(step) {
      IntentStepQuiet(s, step);
    } else if PassStep(step) {
      PassStepQuiet(s, step);
    } else {
      EndStepQuiet(s, step);
    }
  }

  lemma OpeningMoves(s: State, step: Step)
    requires Inv(s) && Enabled(s, step) && (step.StartSignIn? || step.ServerKills?)
    ensures Stamped(s, Apply(s, step), step) && Moves(s, Apply(s, step), step)
  {
  }

  lemma StepMoves(s: State, step: Step)
    requires Inv(s) && Enabled(s, step) && step != Crash
    ensures Stamped(s, Apply(s, step), step) && Moves(s, Apply(s, step), step)
  {
    if step.Wipe? || step.WipeOwn? || step.OutWipe? {
      RemoveStepMoves(s, step);
    } else if SessionStep(step) {
      assert OpOk(s, step.op);
      StoreStepMoves(s, step);
    } else if step.StartSignIn? || step.ServerKills? {
      OpeningMoves(s, step);
    } else {
      OtherStepQuiet(s, step);
      QuietMoves(s, Apply(s, step), step, step.op);
    }
  }

  // ---- crash safety ----

  /** A token in one of the two windows is not in the session record or the intent. */
  lemma WindowIsOutside(s: State, t: Token)
    requires Inv(s) && InWindow(s, t)
    ensures s.session != Some(t) && !InIntent(s, t)
  {
    var o :| o in s.ops && Window(s.ops[o].pc) == Some(t);
    assert OpOk(s, o);
    WindowOutside(s, o, t);
  }

  lemma WindowOutside(s: State, o: OpId, t: Token)
    requires o in s.ops && OpOk(s, o) && Window(s.ops[o].pc) == Some(t)
    requires s.intent.Some? && s.intent.value.token.Some? ==> s.intent.value.token.value.grant == s.intent.value.attempt
    ensures s.session != Some(t) && !InIntent(s, t)
  {
  }

  /** What a stop forgot is nowhere: in no record, in no operation's memory, and of no attempt in progress. */
  ghost predicate LostIsGone(s: State) {
    forall t :: t in s.lost ==> t in s.durable && !Remembered(s, t) && t.grant !in s.active
  }

  lemma StopForgets(s: State)
    requires LostIsGone(s)
    ensures LostIsGone(ApplyCrash(s))
  {
  }

  lemma StepKeepsLostGone(s: State, step: Step)
    requires Inv(s) && LostIsGone(s) && Enabled(s, step)
    ensures LostIsGone(Apply(s, step))
  {
    if step == Crash {
      StopForgets(s);
    } else {
      StepMoves(s, step);
      forall t | t in s.lost
        ensures !Remembered(Apply(s, step), t) && t.grant in s.tried
      {
        StaysForgotten(s, step, t);
      }
    }
  }

  lemma {:induction false} ReachableLostIsGone(states: seq<State>, steps: seq<Step>, i: nat)
    requires IsRun(states, steps) && i < |states|
    ensures LostIsGone(states[i])
  {
    if i > 0 {
      ReachableLostIsGone(states, steps, i - 1);
      ReachableInv(states, steps, i - 1);
      StepKeepsLostGone(states[i - 1], steps[i - 1]);
    }
  }

  /**
   * A stop at any point of any run: a token that was once durable, that the
   * server still honours and that no retry dropped is in one of the three
   * records for the restart to find, if and only if no earlier stop forgot it
   * and it is not, at that point, a replaced or wiped session's token whose
   * revoke is neither settled nor recorded.
   */
  lemma CrashSafety(states: seq<State>, steps: seq<Step>, i: nat, t: Token)
    requires IsRun(states, steps) && i < |states|
    requires t in states[i].durable && Honoured(states[i].server, t) && t !in states[i].dropped
    ensures InRecords(ApplyCrash(states[i]), t)
      <==> t !in states[i].lost && !(InWindow(states[i], t) && !PR.Contains(states[i].pending, t))
  {
    ReachableInv(states, steps, i);
    ReachableLostIsGone(states, steps, i);
    assert Kept(states[i], t) || InIntent(states[i], t);
    if InWindow(states[i], t) {
      WindowIsOutside(states[i], t);
    }
  }

  /** Before its session is replaced or wiped, an exchanged token cannot be lost: no window holds it yet. */
  lemma ExchangedTokenIsRecoverable(states: seq<State>, steps: seq<Step>, i: nat, o: OpId)
    requires IsRun(states, steps) && i < |states|
    requires o in states[i].ops && ActivePc(states[i].ops[o].pc)
    requires Token(states[i].ops[o].grant, 0) in states[i].durable
    requires Honoured(states[i].server, Token(states[i].ops[o].grant, 0))
    ensures var t := Token(states[i].ops[o].grant, 0);
      InRecords(ApplyCrash(states[i]), t) || t in states[i].dropped
  {
    var s := states[i];
    var t := Token(s.ops[o].grant, 0);
    ReachableInv(states, steps, i);
    ReachableLostIsGone(states, steps, i);
    assert OpOk(s, o);
    assert Kept(s, t) || InIntent(s, t);
    if InWindow(s, t) {
      var p :| p in s.ops && Window(s.ops[p].pc) == Some(t);
      assert OpOk(s, p) && OpOk(s, o);
      assert In(s, p, SignIn) && In(s, o, SignIn);
      assert p == o;
    }
  }

  /** Whatever a stop forgets was in one of the two windows, and not yet among the pending revokes. */
  lemma {:induction false} LostInAWindow(states: seq<State>, steps: seq<Step>, i: nat, t: Token)
    requires IsRun(states, steps) && i < |states| && t in states[i].lost
    ensures exists j :: 0 <= j < i && steps[j] == Crash && InWindow(states[j], t) && !PR.Contains(states[j].pending, t)
  {
    if i > 0 {
      if t in states[i - 1].lost {
        LostInAWindow(states, steps, i - 1, t);
      } else {
        ReachableInv(states, steps, i - 1);
        OnlyCrashLoses(states[i - 1], steps[i - 1], t);
        assert steps[i - 1] == Crash && InWindow(states[i - 1], t);
      }
    }
  }

  lemma OnlyCrashLoses(s: State, step: Step, t: Token)
    requires Inv(s) && Enabled(s, step) && t !in s.lost && t in Apply(s, step).lost
    ensures step == Crash && InWindow(s, t) && !PR.Contains(s.pending, t)
  {
    if step != Crash {
      StepMoves(s, step);
    } else {
      assert Kept(s, t) || InIntent(s, t);
    }
  }

  /** `t` is dropped for the expiry `expiresAt` recorded with it. */
  predicate Expired(t: Token, recorded: Token, now: nat, expiresAt: nat) {
    t == recorded && now >= expiresAt
  }

  lemma AbandonedDropsNothing(s: State, o: OpId, why: Why, settled: bool, renewNow: bool)
    requires o in s.ops
    ensures Abandoned(s, o, why, settled, renewNow).dropped == s.dropped
  {
  }

  lemma EntryDrops(s: State, o: OpId, now: nat, reply: RevokeReply, t: Token)
    requires Enabled(s, PassEntry(o, now, reply)) && t in ApplyPassEntry(s, o, now, reply).dropped && t !in s.dropped
    ensures var e := s.ops[o].pc.snapshot[s.ops[o].pc.k];
      Expired(t, e.token, now, e.expiresAt) || (e.token == t && e.attempts + 1 >= PR.MAX_REVOKE_ATTEMPTS)
  {
  }

  /** `t` may be dropped by this step: at or past the expiry recorded with it, or when its twentieth attempt fails. */
  ghost predicate Due(s: State, step: Step, t: Token)
    requires Enabled(s, step)
  {
    match step
    case PassEntry(o, now, _) =>
      var e := s.ops[o].pc.snapshot[s.ops[o].pc.k];
      Expired(t, e.token, now, e.expiresAt) || (e.token == t && e.attempts + 1 >= PR.MAX_REVOKE_ATTEMPTS)
    case PassWrite(_, now) => exists k :: 0 <= k < |s.pending| && Expired(t, s.pending[k].token, now, s.pending[k].expiresAt)
    case IntentRead(_, now) =>
      && s.intent.Some? && s.intent.value.token.Some?
      && Expired(t, s.intent.value.token.value, now, s.intent.value.expiresAt)
      && GrantOf(s.session) != Some(s.intent.value.attempt)
    case IntentRecord(o, now) => Expired(t, s.ops[o].pc.token, now, s.ops[o].pc.expiresAt)
    case Record(o, now, expiresAt, _) => Expired(t, s.ops[o].pc.token, now, expiresAt)
    case OutRecord(o, now, expiresAt) => Expired(t, s.ops[o].pc.token, now, expiresAt)
    case _ => false
  }

  lemma PassDrops(s: State, step: Step, t: Token)
    requires Enabled(s, step) && t in Apply(s, step).dropped && t !in s.dropped
    requires step.PassEntry? || step.PassWrite? || step.IntentRead?
    ensures Due(s, step, t)
  {
    if step.PassEntry? { EntryDrops(s, step.op, step.now, step.revoke, t); }
  }

  lemma AppendDrops(s: State, step: Step, t: Token)
    requires Enabled(s, step) && t in Apply(s, step).dropped && t !in s.dropped
    requires step.Record? || step.OutRecord? || step.IntentRecord?
    ensures Due(s, step, t)
  {
    if step.Record? {
      var pc := s.ops[step.op].pc;
      AbandonedDropsNothing(Append(s, pc.token, step.now, step.expiresAt), step.op, pc.why, false, step.renewNow);
    }
  }

  /** Nothing is dropped before its time, from the intent or from the pending revokes. */
  lemma DropsAreBounded(s: State, step: Step, t: Token)
    requires Enabled(s, step) && t in Apply(s, step).dropped && t !in s.dropped
    ensures Due(s, step, t)
  {
    if step.PassEntry? || step.PassWrite? || step.IntentRead? {
      PassDrops(s, step, t);
    } else if step.Record? || step.OutRecord? || step.IntentRecord? {
      AppendDrops(s, step, t);
    } else if step != Crash && !step.ServerKills? {
      StepFootprint(s, step);
    }
  }

  // ---- sign-out wins ----

  predicate Stamps(s: State, p: OpId) {
    p in s.ops ==> s.ops[p].attempt <= s.attempt && s.ops[p].epoch <= s.epoch
  }

  lemma StepStamps(s: State, step: Step, p: OpId)
    requires Inv(s) && Enabled(s, step) && Stamps(s, p)
    ensures Stamps(Apply(s, step), p)
  {
    if step != Crash { StepMoves(s, step); }
  }

  lemma {:induction false} StampsBounded(states: seq<State>, steps: seq<Step>, i: nat, p: OpId)
    requires IsRun(states, steps) && i < |states|
    ensures Stamps(states[i], p)
  {
    if i > 0 {
      StampsBounded(states, steps, i - 1, p);
      ReachableInv(states, steps, i - 1);
      StepStamps(states[i - 1], steps[i - 1], p);
    }
  }

  /** `p` started before the counters passed `attempt` and `epoch`. */
  predicate Stale(s: State, p: OpId, attempt: nat, epoch: nat) {
    p in s.ops && s.ops[p].attempt <= attempt < s.attempt && s.ops[p].epoch <= epoch < s.epoch
  }

  /** Steps from `i` to `j` within one process. */
  predicate NoCrash(steps: seq<Step>, i: nat, j: nat) {
    forall k :: i <= k < j && k < |steps| ==> steps[k] != Crash
  }

  lemma StepKeepsStale(s: State, step: Step, p: OpId, attempt: nat, epoch: nat)
    requires Inv(s) && Enabled(s, step) && step != Crash && Stale(s, p, attempt, epoch)
    ensures Stale(Apply(s, step), p, attempt, epoch)
  {
    StepMoves(s, step);
  }

  lemma {:induction false} StaleStays(states: seq<State>, steps: seq<Step>, i: nat, j: nat, p: OpId, attempt: nat, epoch: nat)
    requires IsRun(states, steps) && i <= j < |states| && NoCrash(steps, i, j)
    requires Stale(states[i], p, attempt, epoch)
    ensures Stale(states[j], p, attempt, epoch)
  {
    if i < j {
      StaleStays(states, steps, i, j - 1, p, attempt, epoch);
      ReachableInv(states, steps, j - 1);
      StepKeepsStale(states[j - 1], steps[j - 1], p, attempt, epoch);
    }
  }

  /**
   * Once a sign-out has made its first read, no operation that was already
   * running puts a session where others can see it: its steps leave the
   * visible session as it is or remove it.
   */
  lemma SignOutWins(states: seq<State>, steps: seq<Step>, i: nat, j: nat, o: OpId, p: OpId)
    requires IsRun(states, steps) && i < j < |steps| && NoCrash(steps, i, j) && steps[j] != Crash
    requires steps[i] == OutRead(o) && !states[i].ops[o].pc.started
    requires p in states[i].ops && !steps[j].ServerKills? && steps[j].op == p
    ensures Visible(states[j + 1]) == Visible(states[j]) || Visible(states[j + 1]) == None
  {
    StampsBounded(states, steps, i, p);
    OutReadStarts(states[i], o, p);
    StaleStays(states, steps, i + 1, j, p, states[i].attempt, states[i].epoch);
    ReachableInv(states, steps, j);
    StepMoves(states[j], steps[j]);
  }

  lemma OutReadStarts(s: State, o: OpId, p: OpId)
    requires Enabled(s, OutRead(o)) && !s.ops[o].pc.started && p in s.ops
    requires s.ops[p].attempt <= s.attempt && s.ops[p].epoch <= s.epoch
    ensures Stale(Apply(s, OutRead(o)), p, s.attempt, s.epoch)
  {
  }

  // ---- recovery spares the session ----

  /** Grant `g` was tried, is nobody's attempt in progress, and is not the visible session's. */
  ghost predicate Retired(s: State, g: GrantId) {
    g in s.tried && g !in s.active && GrantOf(Visible(s)) != Some(g)
  }

  /** The half-committed session, which a stop would make visible, belongs to an attempt in progress. */
  lemma HalfCommittedIsActive(s: State)
    requires Inv(s) && s.lock.Some?
    ensures s.session.Some? && s.session.value.grant in s.active
  {
    assert OpOk(s, s.lock.value);
  }

  lemma CommittedIsActive(s: State, o: OpId)
    requires Inv(s) && o in s.ops && s.ops[o].pc.CommitWrote?
    ensures s.ops[o].pc.token.grant in s.active
  {
    assert OpOk(s, o);
  }

  lemma RetiredStep(s: State, step: Step, g: GrantId)
    requires Inv(s) && Enabled(s, step) && Retired(s, g)
    ensures Retired(Apply(s, step), g)
  {
    if step == Crash {
      if s.lock.Some? { HalfCommittedIsActive(s); }
    } else {
      StepMoves(s, step);
      if step.CommitFinish? { CommittedIsActive(s, step.op); }
    }
  }

  lemma {:induction false} RetiredStays(states: seq<State>, steps: seq<Step>, i: nat, j: nat, g: GrantId)
    requires IsRun(states, steps) && i <= j < |states| && Retired(states[i], g)
    ensures Retired(states[j], g)
  {
    if i < j {
      RetiredStays(states, steps, i, j - 1, g);
      ReachableInv(states, steps, j - 1);
      RetiredStep(states[j - 1], steps[j - 1], g);
    }
  }

  lemma RecoveryRetires(s: State, o: OpId, reply: RevokeReply)
    requires Inv(s) && Enabled(s, IntentRevoke(o, reply))
    ensures Retired(s, s.ops[o].pc.token.grant)
  {
    assert OpOk(s, o);
  }

  /**
   * The grant an exchange-intent recovery asks the server to revoke is not
   * the visible session's, and never becomes it, through every later step
   * and every later stop.
   */
  lemma RecoverySparesTheSession(states: seq<State>, steps: seq<Step>, i: nat, j: nat, o: OpId, reply: RevokeReply)
    requires IsRun(states, steps) && i < |steps| && i <= j < |states| && steps[i] == IntentRevoke(o, reply)
    ensures GrantOf(Visible(states[j])) != Some(states[i].ops[o].pc.token.grant)
  {
    ReachableInv(states, steps, i);
    RecoveryRetires(states[i], o, reply);
    RetiredStays(states, steps, i, j, states[i].ops[o].pc.token.grant);
  }

  /** Whatever token the session record held, it leaves it dead, recorded, dropped, or held by the operation that settles it. */
  lemma NothingLeavesUnguarded(states: seq<State>, steps: seq<Step>, i: nat, t: Token)
    requires IsRun(states, steps) && i < |steps|
    requires states[i].session == Some(t) && states[i + 1].session != Some(t)
    ensures !Honoured(states[i + 1].server, t) || InRecords(states[i + 1], t) || t in states[i + 1].dropped
      || InWindow(states[i + 1], t)
  {
    ReachableInv(states, steps, i);
    ReachableInv(states, steps, i + 1);
    ReachableLostIsGone(states, steps, i);
    DurableStays(states[i], steps[i], t);
    assert Kept(states[i + 1], t) || InIntent(states[i + 1], t);
  }

  lemma DurableStays(s: State, step: Step, t: Token)
    requires Inv(s) && Enabled(s, step) && s.session == Some(t) && Apply(s, step).session != Some(t)
    ensures t in Apply(s, step).durable && (t in Apply(s, step).lost ==> t in s.lost)
  {
    if step != Crash {
      StepMoves(s, step);
    }
  }

  // ---- what a sign-out removes ----

  /** The sign-out has asked the server to revoke `t` and has not removed its record yet. */
  predicate Asked(s: State, o: OpId, t: Token) {
    o in s.ops && (s.ops[o].pc == OutRecording(t) || s.ops[o].pc == OutWiping(Some(t)))
  }

  lemma OutStepAsks(s: State, step: Step, o: OpId, t: Token)
    requires Enabled(s, step) && OutStep(step) && step.op == o && Asked(Apply(s, step), o, t)
    ensures Asked(s, o, t) || Revokes(s, step, o, t)
  {
  }

  lemma AskedSince(s: State, step: Step, o: OpId, t: Token)
    requires Enabled(s, step) && Asked(Apply(s, step), o, t)
    ensures step != Crash && (Asked(s, o, t) || Revokes(s, step, o, t))
  {
    if step != Crash && !step.ServerKills? {
      StepFootprint(s, step);
      if step.op == o { OutStepAsks(s, step, o, t); }
    }
  }

  lemma AskedBefore(states: seq<State>, steps: seq<Step>, i: nat, o: OpId, t: Token)
    requires IsRun(states, steps) && i < |steps|
    ensures AskedOn(states[i], steps[i], states[i + 1], o, t)
  {
    if Asked(states[i + 1], o, t) { AskedSince(states[i], steps[i], o, t); }
  }

  predicate AskedOn(s: State, step: Step, s': State, o: OpId, t: Token) {
    Asked(s', o, t) ==> step != Crash && (Asked(s, o, t) || Revokes(s, step, o, t))
  }

  lemma {:induction false} AskedFirst(states: seq<State>, steps: seq<Step>, i: nat, o: OpId, t: Token)
    requires |states| == |steps| + 1 && i < |states| && !Asked(states[0], o, t) && Asked(states[i], o, t)
    requires forall k :: 0 <= k < |steps| ==> AskedOn(states[k], steps[k], states[k + 1], o, t)
    ensures exists j :: 0 <= j < i && Revokes(states[j], steps[j], o, t) && NoCrash(steps, j, i)
  {
    assert AskedOn(states[i - 1], steps[i - 1], states[i], o, t);
    if Revokes(states[i - 1], steps[i - 1], o, t) {
      assert NoCrash(steps, i - 1, i);
    } else {
      AskedFirst(states, steps, i - 1, o, t);
      var j :| 0 <= j < i - 1 && Revokes(states[j], steps[j], o, t) && NoCrash(steps, j, i - 1);
      assert NoCrash(steps, j, i);
    }
  }

  lemma RevokeCameFirst(states: seq<State>, steps: seq<Step>, i: nat, o: OpId, t: Token)
    requires IsRun(states, steps) && i < |states| && Asked(states[i], o, t)
    ensures exists j :: 0 <= j < i && Revokes(states[j], steps[j], o, t) && NoCrash(steps, j, i)
  {
    forall k | 0 <= k < |steps|
      ensures AskedOn(states[k], steps[k], states[k + 1], o, t)
    {
      AskedBefore(states, steps, k, o, t);
    }
    AskedFirst(states, steps, i, o, t);
  }

  /** The sign-out `o` asks the server to revoke `t`. */
  predicate Revokes(s: State, step: Step, o: OpId, t: Token) {
    step.OutRevoke? && step.op == o && o in s.ops && s.ops[o].pc == OutRevoking(t)
  }

  /**
   * A sign-out removes a session only if it is the very record whose revoke it
   * asked for, in this same process, and whose token is by now no longer
   * honoured, among the pending revokes, or dropped at its expiry.
   */
  lemma SignOutRemovesTheRevoked(states: seq<State>, steps: seq<Step>, i: nat, t: Token)
    requires IsRun(states, steps) && i < |steps| && steps[i].OutWipe?
    requires states[i].session == Some(t) && states[i + 1].session != Some(t)
    ensures states[i + 1].session == None && LetGo(states[i], t)
    ensures states[i].ops[steps[i].op].pc == OutWiping(Some(t))
    ensures exists j :: 0 <= j < i && Revokes(states[j], steps[j], steps[i].op, t) && NoCrash(steps, j, i)
  {
    ReachableInv(states, steps, i);
    assert OpOk(states[i], steps[i].op);
    RevokeCameFirst(states, steps, i, steps[i].op, t);
  }

  // ---- the restore branch ----

  /** Every half-done commit is of the current attempt. */
  ghost predicate HalfCommitsCurrent(s: State) {
    forall o :: o in s.ops && s.ops[o].pc.CommitWrote? ==> s.ops[o].attempt == s.attempt
  }

  /** While a commit is half done, no sign-in starts and no sign-out reads. */
  lemma CommitsHoldItUp(s: State, step: Step)
    requires Inv(s) && Enabled(s, step) && (step.StartSignIn? || step.OutRead?)
    ensures forall o :: o in s.ops ==> !s.ops[o].pc.CommitWrote?
  {
    forall o | o in s.ops
      ensures !s.ops[o].pc.CommitWrote?
    {
      assert OpOk(s, o);
    }
  }

  lemma CurrentStays(s: State, s': State, step: Step)
    requires step != Crash && !step.ServerKills? && Footprint(s, s', step) && HalfCommitsCurrent(s)
    requires step.StartSignIn? || step.OutRead? ==> forall o :: o in s.ops ==> !s.ops[o].pc.CommitWrote?
    ensures HalfCommitsCurrent(s')
  {
  }

  lemma StepKeepsCurrent(s: State, step: Step)
    requires Inv(s) && Enabled(s, step) && HalfCommitsCurrent(s)
    ensures HalfCommitsCurrent(Apply(s, step))
  {
    if step != Crash && !step.ServerKills? {
      StepFootprint(s, step);
      if step.StartSignIn? || step.OutRead? { CommitsHoldItUp(s, step); }
      CurrentStays(s, Apply(s, step), step);
    }
  }

  /**
   * The second check of commitSignIn never fails, so its restore of the
   * previous session is never carried out: a sign-out moves the attempt on only
   * after a read, which waits for the commit, and a second sign-in is refused.
   */
  lemma {:induction false} RestoreIsNeverNeeded(states: seq<State>, steps: seq<Step>, i: nat)
    requires IsRun(states, steps) && i < |states|
    ensures HalfCommitsCurrent(states[i])
  {
    if i > 0 {
      RestoreIsNeverNeeded(states, steps, i - 1);
      ReachableInv(states, steps, i - 1);
      StepKeepsCurrent(states[i - 1], steps[i - 1]);
    }
  }
}
