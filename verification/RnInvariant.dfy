/**
 * What every step of the grant protocol keeps.
 *
 * A token the client received is in one of four situations: it was stored, it
 * was handed over to abandonGrant, it is fresh in the hands of one operation,
 * or its process stopped (`Accounted`). A fresh token is its grant's newest and
 * nobody else has it (`FreshOk`), the stored session is the newest ever stored
 * of its grant (`SessionNewest`), and everything the server still honours has a
 * place (`Conserved`).
 *
 * Most steps neither receive nor store a token: they are `Quiet`, and one lemma
 * serves them all. The steps that do are an exchange and a renewal (`Issues`),
 * an accepted save, and a rotation whose answer never arrived (`Silent`).
 */
module RnInvariant {
  import opened Wrappers
  import opened GrantServer
  import opened RnProtocol
  import PR = PendingRevokes
  import opened SessionRecord

  // ---- who holds a token ----

  /** No newer token of the grant was ever issued. */
  predicate IsNewest(s: State, t: Token) {
    t.grant in s.server && s.server[t.grant].current == t.version
  }

  ghost predicate IsFresh(s: State, t: Token) {
    exists o :: o in s.ops && Fresh(s.ops[o].pc) == Some(t)
  }

  ghost predicate IsHeld(s: State, t: Token) {
    exists o :: o in s.ops && Held(s.ops[o].pc) == Some(t)
  }

  // ---- the invariant ----

  ghost predicate TokensKnown(s: State) {
    && (forall t :: t in s.received ==> t.grant in s.server && t.version <= s.server[t.grant].current)
    && s.stored <= s.received
    && s.handedOver <= s.received
    && (s.session.Some? ==> s.session.value in s.stored)
    && (s.session.Some? ==> s.session.value !in s.handedOver)
    && (forall i :: 0 <= i < |s.pending| ==> LetGo(s, s.pending[i].token))
  }

  /** `t` was abandoned, or a sign-out attempted its revoke. */
  predicate LetGo(s: State, t: Token) {
    t in s.handedOver || (t in s.signedOut && t in s.stored)
  }

  /** `next` may be carried out: what it names was stored, and an error's token was saved and kept. */
  predicate NextOk(s: State, op: Op, next: Then) {
    match next
    case Resolve => true
    case RenewNow(t) => t in s.stored
    case Reject(carried) => carried.Some? ==> carried.value in op.saved && carried.value !in op.abandoned
  }

  ghost predicate PassOk(s: State, pc: Pc)
    requires pc.Passing?
  {
    && pc.k <= |pc.snapshot|
    && PR.WellFormed(pc.snapshot)
    && (forall i :: 0 <= i < |pc.snapshot| ==> LetGo(s, pc.snapshot[i].token))
    && (forall t :: t in pc.done ==> t in s.received && PR.Contains(pc.snapshot, t) && (!Honoured(s.server, t) || t in s.dropped))
    && (forall t :: t in pc.bumped ==> 1 <= pc.bumped[t] < PR.MAX_REVOKE_ATTEMPTS)
  }

  ghost predicate PcOk(s: State, op: Op) {
    match op.pc
    case AwaitingSignOuts(t, next) =>
      && t.version == 0 && t in s.received
      && (next.RenewNow? ==> next.token == t)
      && (next.Reject? ==> next.carried == Some(t))
    case Committing(t, any, next) =>
      && t in s.received
      && (any ==> t.version == 0)
      && (next.RenewNow? ==> next.token == t)
      && (next.Reject? ==> next.carried == Some(t))
    case Requesting(using, _, _) => using in s.stored
    case Removing(g, rotated) =>
      && g in s.server
      && (rotated.None? ==> !s.server[g].live)
      && (rotated.Some? ==> rotated.value.grant == g && rotated.value in s.received)
    case Revoking(t, next) => t in s.handedOver && NextOk(s, op, next)
    case Recording(t, next) => t in s.handedOver && NextOk(s, op, next)
    case OutRevoking(t) => t in s.stored
    case OutRecording(t) => t in s.stored && t in s.signedOut
    case OutRemoving(t, transient) =>
      && t in s.stored && t in s.signedOut
      && (!Honoured(s.server, t) || (transient && (PR.Contains(s.pending, t) || t in s.dropped)))
    case Passing(_, _, _, _) => PassOk(s, op.pc)
    case Finished(result) => NextOk(s, op, result)
    case _ => true
  }

  /** Past the check that no signOut() of its instance is running. */
  predicate PastGate(pc: Pc) {
    || pc.Committing?
    || pc.Requesting?
    || (pc.Revoking? && pc.next.RenewNow?)
    || (pc.Recording? && pc.next.RenewNow?)
  }

  /** An operation past the gate whose generation is still current runs beside no signOut(). */
  ghost predicate GateOk(s: State, o: OpId)
    requires o in s.ops
  {
    && At(s, o)
    && s.ops[o].generation <= s.instances[s.ops[o].owner].generation
    && (PastGate(s.ops[o].pc) && Current(s, o) ==> NoFlight(s, o))
  }

  ghost predicate OpsOk(s: State) {
    forall o :: o in s.ops ==>
      && GateOk(s, o)
      && PcOk(s, s.ops[o])
      && s.ops[o].abandoned <= s.handedOver
  }

  /** A fresh token is its grant's newest, nobody else has it, and everything stored is older. */
  ghost predicate FreshOk(s: State) {
    && (forall o :: o in s.ops && Fresh(s.ops[o].pc).Some? ==>
          var t := Fresh(s.ops[o].pc).value;
          && t in s.received
          && IsNewest(s, t)
          && t !in s.handedOver
          && (forall u :: u in s.stored && u.grant == t.grant ==> u.version < t.version))
    && (forall o, p |
          o in s.ops && p in s.ops && o != p && Fresh(s.ops[o].pc).Some? && Fresh(s.ops[p].pc).Some? ::
          Fresh(s.ops[o].pc).value.grant != Fresh(s.ops[p].pc).value.grant)
  }

  /** A received token was stored, was handed over, is still fresh, or was lost with its process. */
  ghost predicate Accounted(s: State) {
    forall t :: t in s.received ==> t in s.stored || t in s.handedOver || IsFresh(s, t) || t in s.lost
  }

  /** A token that was never stored is its grant's newest: only stored tokens are renewed. */
  ghost predicate Frontier(s: State) {
    forall t :: t in s.received && t !in s.stored ==> IsNewest(s, t)
  }

  /** The stored session is the newest of its grant ever stored. */
  ghost predicate SessionNewest(s: State) {
    s.session.Some? ==>
      forall u :: u in s.stored && u.grant == s.session.value.grant ==> u.version <= s.session.value.version
  }

  /** Grant conservation. */
  ghost predicate Conserved(s: State) {
    forall t :: t in s.received && Honoured(s.server, t) ==>
      s.session == Some(t) || PR.Contains(s.pending, t) || IsHeld(s, t) || t in s.dropped || t in s.lost
  }

  ghost predicate Inv(s: State) {
    && TokensKnown(s)
    && PR.WellFormed(s.pending)
    && OpsOk(s)
    && FreshOk(s)
    && Accounted(s)
    && Frontier(s)
    && SessionNewest(s)
    && Conserved(s)
  }

  lemma InitInv()
    ensures Inv(Init)
  {
  }

  // ---- steps that neither receive nor store a token ----

  /** The shared state changes only in ways other operations tolerate. */
  ghost predicate Grows(s: State, s': State) {
    && Evolves(s.server, s'.server)
    && s.received <= s'.received
    && s.stored <= s'.stored
    && s.handedOver <= s'.handedOver
    && s.signedOut <= s'.signedOut
    && s.dropped <= s'.dropped
    && s.lost <= s'.lost
    && (forall t | t in s.received && Honoured(s'.server, t) && PR.Contains(s.pending, t) ::
          PR.Contains(s'.pending, t) || t in s'.dropped)
    && (forall i | i in s.instances ::
          && i in s'.instances
          && s.instances[i].generation <= s'.instances[i].generation
          && (s.instances[i].generation == s'.instances[i].generation ==>
                s'.instances[i].flights <= s.instances[i].flights))
  }

  lemma OtherOpKeeps(s: State, s': State, p: OpId)
    requires TokensKnown(s) && Grows(s, s')
    requires p in s.ops && p in s'.ops && s'.ops[p] == s.ops[p]
    requires GateOk(s, p) && PcOk(s, s.ops[p]) && s.ops[p].abandoned <= s.handedOver
    ensures GateOk(s', p) && PcOk(s', s'.ops[p]) && s'.ops[p].abandoned <= s'.handedOver
  {
    forall t | t in s.received && !Honoured(s.server, t)
      ensures !Honoured(s'.server, t)
    {
      NotHonouredIsForever(s.server, s'.server, t);
    }
  }

  function FreshAt(s: State, o: OpId): Option<Token> {
    if o in s.ops then Fresh(s.ops[o].pc) else None
  }

  function HeldAt(s: State, o: OpId): Option<Token> {
    if o in s.ops then Held(s.ops[o].pc) else None
  }

  /** `t` has a place that is not the hands of another operation. */
  ghost predicate PlacedBy(s: State, o: OpId, t: Token) {
    s.session == Some(t) || PR.Contains(s.pending, t) || HeldAt(s, o) == Some(t) || t in s.dropped || t in s.lost
  }

  ghost predicate Quiet(s: State, s': State, o: OpId) {
    && o in s'.ops
    && s'.ops == s.ops[o := s'.ops[o]]
    && Grows(s, s')
    && s'.received == s.received
    && s'.stored == s.stored
    && (forall g | g in s'.server :: g in s.server && s'.server[g].current == s.server[g].current)
    && (s'.session == s.session || s'.session == None)
    && (FreshAt(s', o).Some? ==> FreshAt(s', o) == FreshAt(s, o))
  }

  /** Other operations keep their tokens. */
  lemma HoldersStay(s: State, s': State, o: OpId)
    requires forall p :: p in s.ops && p != o ==> p in s'.ops && s'.ops[p] == s.ops[p]
    ensures forall t :: IsFresh(s, t) && FreshAt(s, o) != Some(t) ==> IsFresh(s', t)
    ensures forall t :: IsHeld(s, t) && HeldAt(s, o) != Some(t) ==> IsHeld(s', t)
  {
    forall t | IsFresh(s, t) && FreshAt(s, o) != Some(t)
      ensures IsFresh(s', t)
    {
      var p :| p in s.ops && Fresh(s.ops[p].pc) == Some(t);
      assert p in s'.ops && Fresh(s'.ops[p].pc) == Some(t);
    }
    forall t | IsHeld(s, t) && HeldAt(s, o) != Some(t)
      ensures IsHeld(s', t)
    {
      var p :| p in s.ops && Held(s.ops[p].pc) == Some(t);
      assert p in s'.ops && Held(s'.ops[p].pc) == Some(t);
    }
  }

  lemma OthersKeep(s: State, s': State, o: OpId)
    requires TokensKnown(s) && OpsOk(s) && Grows(s, s')
    requires forall p :: p in s'.ops && p != o ==> p in s.ops && s'.ops[p] == s.ops[p]
    requires o in s'.ops ==> GateOk(s', o) && PcOk(s', s'.ops[o]) && s'.ops[o].abandoned <= s'.handedOver
    ensures OpsOk(s')
  {
    forall p | p in s'.ops
      ensures GateOk(s', p) && PcOk(s', s'.ops[p]) && s'.ops[p].abandoned <= s'.handedOver
    {
      if p != o { OtherOpKeeps(s, s', p); }
    }
  }

  /** What is left to check for a quiet step of operation `o`. */
  lemma QuietKeeps(s: State, s': State, o: OpId)
    requires Inv(s) && Quiet(s, s', o)
    requires s'.handedOver <= s'.received
    requires s'.session.Some? ==> s'.session.value !in s'.handedOver
    requires PR.WellFormed(s'.pending)
    requires forall i :: 0 <= i < |s'.pending| ==> LetGo(s', s'.pending[i].token)
    requires GateOk(s', o) && PcOk(s', s'.ops[o]) && s'.ops[o].abandoned <= s'.handedOver
    requires FreshAt(s', o) != FreshAt(s, o) ==> FreshAt(s, o).value in s'.handedOver + s'.lost
    requires forall p | p in s.ops && p != o && Fresh(s.ops[p].pc).Some? :: Fresh(s.ops[p].pc).value !in s'.handedOver - s.handedOver
    requires FreshAt(s', o).Some? ==> FreshAt(s', o).value !in s'.handedOver
    requires forall t | t in s.received && Honoured(s'.server, t) && PlacedBy(s, o, t) :: PlacedBy(s', o, t)
    ensures Inv(s')
  {
    OthersKeep(s, s', o);
    QuietFreshOk(s, s', o);
    QuietPlaces(s, s', o);
  }

  lemma QuietFreshOk(s: State, s': State, o: OpId)
    requires FreshOk(s) && Quiet(s, s', o)
    requires forall p | p in s.ops && p != o && Fresh(s.ops[p].pc).Some? :: Fresh(s.ops[p].pc).value !in s'.handedOver - s.handedOver
    requires FreshAt(s', o).Some? ==> FreshAt(s', o).value !in s'.handedOver
    ensures FreshOk(s')
  {
  }

  lemma QuietPlaces(s: State, s': State, o: OpId)
    requires Accounted(s) && Conserved(s) && Quiet(s, s', o)
    requires FreshAt(s', o) != FreshAt(s, o) ==> FreshAt(s, o).value in s'.handedOver + s'.lost
    requires forall t | t in s.received && Honoured(s'.server, t) && PlacedBy(s, o, t) :: PlacedBy(s', o, t)
    ensures Accounted(s') && Conserved(s')
  {
    HoldersStay(s, s', o);
    forall t | t in s'.received
      ensures t in s'.stored || t in s'.handedOver || IsFresh(s', t) || t in s'.lost
    {
      assert FreshAt(s', o) == Some(t) ==> IsFresh(s', t);
    }
    forall t | t in s'.received && Honoured(s'.server, t)
      ensures s'.session == Some(t) || PR.Contains(s'.pending, t) || IsHeld(s', t) || t in s'.dropped || t in s'.lost
    {
      assert Honoured(s.server, t);
      assert HeldAt(s', o) == Some(t) ==> IsHeld(s', t);
    }
  }

  lemma StartKeeps(s: State, step: Step)
    requires Inv(s) && Enabled(s, step)
    requires step.StartSignIn? || step.StartRenew? || step.StartSignOut? || step.StartPass?
    ensures Inv(Apply(s, step))
  {
    var s' := Apply(s, step);
    assert Grows(s, s');
    QuietKeeps(s, s', step.op);
  }

  lemma SignInGateKeeps(s: State, step: Step)
    requires Inv(s) && Enabled(s, step)
    requires step.SignInEnds? || step.SignOutsOver?
    ensures Inv(Apply(s, step))
  {
    var s' := Apply(s, step);
    assert Grows(s, s');
    QuietKeeps(s, s', step.op);
  }

  lemma ReadKeeps(s: State, o: OpId)
    requires Inv(s) && Enabled(s, Read(o))
    ensures Inv(ApplyRead(s, o))
  {
    var s' := ApplyRead(s, o);
    assert Grows(s, s');
    QuietKeeps(s, s', o);
  }

  lemma OutReadKeeps(s: State, o: OpId)
    requires Inv(s) && Enabled(s, OutRead(o))
    ensures Inv(Apply(s, OutRead(o)))
  {
    var s' := Apply(s, OutRead(o));
    assert Grows(s, s');
    QuietKeeps(s, s', o);
  }

  lemma PassReadKeeps(s: State, o: OpId)
    requires Inv(s) && Enabled(s, PassRead(o))
    ensures Inv(Apply(s, PassRead(o)))
  {
    var s' := Apply(s, PassRead(o));
    assert Grows(s, s');
    QuietKeeps(s, s', o);
  }

  lemma RevokeKeeps(s: State, step: Step)
    requires Inv(s) && Enabled(s, step)
    requires step.Revoke? || step.OutRevoke?
    ensures Inv(Apply(s, step))
  {
    var s' := Apply(s, step);
    assert Grows(s, s');
    QuietKeeps(s, s', step.op);
  }

  lemma RecordKeeps(s: State, step: Step)
    requires Inv(s) && Enabled(s, step)
    requires step.Record? || step.OutRecord?
    ensures Inv(Apply(s, step))
  {
    var s' := Apply(s, step);
    var t := s.ops[step.op].pc.token;
    PR.AppendContains(s.pending, t, step.expiresAt);
    PR.AppendKeepsWellFormed(s.pending, t, step.expiresAt);
    assert Grows(s, s');
    QuietKeeps(s, s', step.op);
  }

  /** A stopped process loses exactly the token its operation held. */
  lemma VanishKeeps(s: State, o: OpId)
    requires Inv(s) && Enabled(s, Vanish(o))
    ensures Inv(Apply(s, Vanish(o)))
  {
    var s' := Apply(s, Vanish(o));
    assert GateOk(s, o);
    assert Grows(s, s');
    QuietKeeps(s, s', o);
  }

  /** What a terminal outcome removes is dead, or older than the rotated token in hand. */
  lemma RemovedIsDead(s: State, o: OpId)
    requires TokensKnown(s) && FreshOk(s) && OpsOk(s) && Enabled(s, Remove(o))
    ensures s.session.Some? && s.session.value.grant == s.ops[o].pc.grant ==> !Honoured(s.server, s.session.value)
  {
    assert PcOk(s, s.ops[o]);
    assert Fresh(s.ops[o].pc) == s.ops[o].pc.rotated;
  }

  lemma RemoveKeeps(s: State, o: OpId)
    requires Inv(s) && Enabled(s, Remove(o))
    ensures Inv(ApplyRemove(s, o))
  {
    var s' := ApplyRemove(s, o);
    assert PcOk(s, s.ops[o]) && GateOk(s, o);
    RemovedIsDead(s, o);
    RemoveQuiet(s, o);
    QuietKeeps(s, s', o);
  }

  lemma RemoveQuiet(s: State, o: OpId)
    requires Enabled(s, Remove(o)) && PcOk(s, s.ops[o])
    ensures var s' := ApplyRemove(s, o);
      && Quiet(s, s', o) && s'.pending == s.pending && s'.server == s.server && s'.instances == s.instances
      && (s'.session == s.session || (s.session.Some? && s.session.value.grant == s.ops[o].pc.grant))
      && Fresh(s'.ops[o].pc) == None && Held(s'.ops[o].pc) == s.ops[o].pc.rotated
  {
  }

  lemma OutRemoveKeeps(s: State, o: OpId)
    requires Inv(s) && Enabled(s, OutRemove(o))
    ensures Inv(ApplyOutRemove(s, o))
  {
    var s' := ApplyOutRemove(s, o);
    assert PcOk(s, s.ops[o]) && GateOk(s, o);
    OutRemoveQuiet(s, o);
    QuietKeeps(s, s', o);
  }

  lemma OutRemoveQuiet(s: State, o: OpId)
    requires Enabled(s, OutRemove(o))
    ensures var s' := ApplyOutRemove(s, o);
      && Quiet(s, s', o) && s'.pending == s.pending && s'.server == s.server && s'.handedOver == s.handedOver
      && s'.dropped == s.dropped && s'.lost == s.lost
      && (s'.session == s.session || s.session == Some(s.ops[o].pc.token))
      && (s'.ops[o].pc == OutReading || s'.ops[o].pc == Finished(Resolve))
      && s'.ops[o] == s.ops[o].(pc := s'.ops[o].pc)
  {
  }

  lemma PassEntryPassOk(s: State, o: OpId, now: nat, reply: RevokeReply)
    requires TokensKnown(s) && Enabled(s, PassEntry(o, now, reply)) && PassOk(s, s.ops[o].pc)
    ensures var s' := ApplyPassEntry(s, o, now, reply); s'.ops[o].pc.Passing? && PassOk(s', s'.ops[o].pc)
  {
    var s' := ApplyPassEntry(s, o, now, reply);
    forall t | t in s.received && !Honoured(s.server, t)
      ensures !Honoured(s'.server, t)
    {
      NotHonouredIsForever(s.server, s'.server, t);
    }
  }

  lemma PassEntryQuiet(s: State, o: OpId, now: nat, reply: RevokeReply)
    requires Enabled(s, PassEntry(o, now, reply))
    ensures var s' := ApplyPassEntry(s, o, now, reply);
      && Quiet(s, s', o) && s'.pending == s.pending && s'.session == s.session
      && s'.handedOver == s.handedOver && s'.instances == s.instances
      && s'.ops[o] == s.ops[o].(pc := s'.ops[o].pc) && s'.ops[o].pc.Passing?
  {
  }

  lemma PassEntryKeeps(s: State, o: OpId, now: nat, reply: RevokeReply)
    requires Inv(s) && Enabled(s, PassEntry(o, now, reply))
    ensures Inv(ApplyPassEntry(s, o, now, reply))
  {
    assert PcOk(s, s.ops[o]);
    PassEntryPassOk(s, o, now, reply);
    PassEntryQuiet(s, o, now, reply);
    QuietKeeps(s, ApplyPassEntry(s, o, now, reply), o);
  }

  lemma PassWriteKeeps(s: State, o: OpId)
    requires Inv(s) && Enabled(s, PassWrite(o))
    ensures Inv(Apply(s, PassWrite(o)))
  {
    var s' := Apply(s, PassWrite(o));
    var pc := s.ops[o].pc;
    forall t
      ensures PR.Contains(s'.pending, t) <==> PR.Contains(s.pending, t) && t !in pc.done
    {
      PR.MergeContains(s.pending, pc.done, pc.bumped, t);
    }
    PR.MergeKeepsWellFormed(s.pending, pc.done, pc.bumped);
    forall k | 0 <= k < |s'.pending|
      ensures LetGo(s', s'.pending[k].token)
    {
      PR.MergeOrigin(s.pending, pc.done, pc.bumped, k);
    }
    assert Grows(s, s');
    QuietKeeps(s, s', o);
  }

  /** commitSession refuses: nothing is written and the token is abandoned. */
  lemma RefusedCommitKeeps(s: State, o: OpId)
    requires Inv(s) && Enabled(s, Commit(o)) && SaveCommit(s, o).Superseded?
    ensures Inv(ApplyCommit(s, o))
  {
    var s' := ApplyCommit(s, o);
    assert Grows(s, s');
    QuietKeeps(s, s', o);
  }

  lemma UnrotatedRenewKeeps(s: State, o: OpId, reply: RenewReply)
    requires Inv(s) && Enabled(s, Renew(o, reply))
    requires reply.Declined? || reply.GrantDead?
    ensures Inv(ApplyRenew(s, o, reply))
  {
    var s' := ApplyRenew(s, o, reply);
    assert Grows(s, s');
    QuietKeeps(s, s', o);
  }

  // ---- steps that issue or store a token ----

  /** An accepted save: the fresh token becomes the session, and replaces only older or other grants' tokens. */
  lemma AcceptedCommitKeeps(s: State, o: OpId)
    requires Inv(s) && Enabled(s, Commit(o)) && SaveCommit(s, o).Committed?
    ensures Inv(ApplyCommit(s, o))
  {
    var s' := ApplyCommit(s, o);
    assert Fresh(s.ops[o].pc) == Some(s.ops[o].pc.token);
    assert PcOk(s, s.ops[o]) && GateOk(s, o);
    AcceptedCommitGrows(s, o);
    AcceptedCommitPc(s, o);
    OthersKeep(s, s', o);
    AcceptedCommitPlaces(s, o);
    AcceptedCommitTokens(s, o);
  }

  lemma AcceptedCommitTokens(s: State, o: OpId)
    requires TokensKnown(s) && FreshOk(s) && Frontier(s) && SessionNewest(s)
    requires Enabled(s, Commit(o)) && SaveCommit(s, o).Committed?
    ensures var s' := ApplyCommit(s, o);
      TokensKnown(s') && FreshOk(s') && Frontier(s') && SessionNewest(s')
  {
    assert Fresh(s.ops[o].pc) == Some(s.ops[o].pc.token);
    assert Fresh(ApplyCommit(s, o).ops[o].pc) == None;
  }

  lemma AcceptedCommitPlaces(s: State, o: OpId)
    requires TokensKnown(s) && FreshOk(s) && Accounted(s) && Conserved(s)
    requires Enabled(s, Commit(o)) && SaveCommit(s, o).Committed?
    ensures Accounted(ApplyCommit(s, o)) && Conserved(ApplyCommit(s, o))
  {
    var s' := ApplyCommit(s, o);
    var t := s.ops[o].pc.token;
    assert Fresh(s.ops[o].pc) == Some(t);
    HoldersStay(s, s', o);
    if s.session.Some? && s.session.value.grant != t.grant {
      assert Held(s'.ops[o].pc) == s.session;
    }
  }

  lemma AcceptedCommitGrows(s: State, o: OpId)
    requires Inv(s) && Enabled(s, Commit(o)) && SaveCommit(s, o).Committed?
    ensures Grows(s, ApplyCommit(s, o))
    ensures ApplyCommit(s, o).ops == s.ops[o := ApplyCommit(s, o).ops[o]]
  {
  }

  lemma AcceptedCommitPc(s: State, o: OpId)
    requires Enabled(s, Commit(o)) && SaveCommit(s, o).Committed? && GateOk(s, o) && PcOk(s, s.ops[o])
    requires s.ops[o].pc.token !in s.ops[o].abandoned && s.ops[o].abandoned <= s.handedOver
    requires s.session.Some? ==> s.session.value in s.received
    ensures var s' := ApplyCommit(s, o);
      GateOk(s', o) && PcOk(s', s'.ops[o]) && s'.ops[o].abandoned <= s'.handedOver
    ensures Fresh(ApplyCommit(s, o).ops[o].pc) == None
  {
  }

  lemma ExchangeKeeps(s: State, o: OpId, g: GrantId, reply: ExchangeReply)
    requires Inv(s) && Enabled(s, Exchange(o, g, reply))
    ensures Inv(ApplyExchange(s, o, g, reply))
  {
    var s' := ApplyExchange(s, o, g, reply);
    assert GateOk(s, o);
    assert s'.session == s.session && s'.stored == s.stored && s'.pending == s.pending && s'.dropped == s.dropped;
    IssueKeeps(s, s', o, Token(g, 0));
  }

  lemma RotateKeeps(s: State, o: OpId, reply: RenewReply)
    requires Inv(s) && Enabled(s, Renew(o, reply))
    requires reply.Renewed? || reply.RenewRejected?
    ensures Inv(ApplyRenew(s, o, reply))
  {
    var s' := ApplyRenew(s, o, reply);
    assert PcOk(s, s.ops[o]) && GateOk(s, o);
    assert s'.session == s.session && s'.stored == s.stored && s'.pending == s.pending && s'.dropped == s.dropped;
    NobodyFreshOf(s, s.ops[o].pc.using);
    IssueKeeps(s, s', o, Next(s.ops[o].pc.using));
  }

  /** While the server accepts a stored token, no operation holds a newer one of its grant. */
  lemma NobodyFreshOf(s: State, t: Token)
    requires TokensKnown(s) && FreshOk(s) && Frontier(s) && t in s.stored && Honoured(s.server, t)
    ensures forall p :: p in s.ops && Fresh(s.ops[p].pc).Some? ==> Fresh(s.ops[p].pc).value.grant != t.grant
    ensures forall u :: u in s.received && u !in s.stored ==> u.grant != t.grant
  {
  }

  /** The server issued `t` to operation `o`, which now holds it or is already abandoning it. */
  ghost predicate Issues(s: State, s': State, o: OpId, t: Token) {
    && o in s.ops && o in s'.ops && s'.ops == s.ops[o := s'.ops[o]]
    && Held(s.ops[o].pc) == None
    && Held(s'.ops[o].pc) == Some(t)
    && s'.received == s.received + {t}
    && s'.handedOver == (if Fresh(s'.ops[o].pc) == None then s.handedOver + {t} else s.handedOver)
    && s'.stored == s.stored && s'.session == s.session && s'.pending == s.pending && s'.dropped == s.dropped
    && s'.signedOut == s.signedOut && s'.lost == s.lost
    && s'.instances == s.instances
    && t.grant in s'.server
    && s'.server == s.server[t.grant := Grant(t.version, true)]
    && (t.grant in s.server ==> s.server[t.grant].live && s.server[t.grant].current < t.version)
  }

  lemma IssueKeeps(s: State, s': State, o: OpId, t: Token)
    requires Inv(s) && Issues(s, s', o, t)
    requires forall p :: p in s.ops && Fresh(s.ops[p].pc).Some? ==> Fresh(s.ops[p].pc).value.grant != t.grant
    requires forall u :: u in s.received && u !in s.stored ==> u.grant != t.grant
    requires GateOk(s', o) && PcOk(s', s'.ops[o]) && s'.ops[o].abandoned <= s'.handedOver
    ensures Inv(s')
  {
    assert Grows(s, s');
    OthersKeep(s, s', o);
    IssueFreshOk(s, s', o, t);
    IssuePlaces(s, s', o, t);
    IssueTokens(s, s', o, t);
  }

  lemma IssueTokens(s: State, s': State, o: OpId, t: Token)
    requires TokensKnown(s) && Frontier(s) && SessionNewest(s) && Issues(s, s', o, t)
    requires forall u :: u in s.received && u !in s.stored ==> u.grant != t.grant
    ensures TokensKnown(s') && Frontier(s') && SessionNewest(s')
  {
  }

  lemma IssuePlaces(s: State, s': State, o: OpId, t: Token)
    requires Accounted(s) && Conserved(s) && Issues(s, s', o, t)
    ensures Accounted(s') && Conserved(s')
  {
    HoldersStay(s, s', o);
    assert Fresh(s'.ops[o].pc) == None || IsFresh(s', t);
    assert IsHeld(s', t);
    assert forall u :: u != t && Honoured(s'.server, u) ==> Honoured(s.server, u);
  }

  lemma IssueFreshOk(s: State, s': State, o: OpId, t: Token)
    requires TokensKnown(s) && FreshOk(s) && Issues(s, s', o, t)
    requires forall p :: p in s.ops && Fresh(s.ops[p].pc).Some? ==> Fresh(s.ops[p].pc).value.grant != t.grant
    ensures FreshOk(s')
  {
  }

  /** The server changed a grant and the client learnt no token; operation `o` may have ended. */
  ghost predicate Silent(s: State, s': State, o: OpId) {
    && (s'.ops == s.ops ||
        (o in s.ops && Held(s.ops[o].pc) == None && s'.ops == s.ops[o := s.ops[o].(pc := Finished(Reject(None)))]))
    && s' == s.(server := s'.server, ops := s'.ops)
    && Evolves(s.server, s'.server)
    && (forall t :: t in s.received && t !in s.stored && IsNewest(s, t) ==> IsNewest(s', t))
  }

  lemma SilentKeeps(s: State, s': State, o: OpId)
    requires Inv(s) && Silent(s, s', o)
    ensures Inv(s')
  {
    SilentOps(s, s', o);
    SilentPlaces(s, s', o);
  }

  lemma SilentOps(s: State, s': State, o: OpId)
    requires TokensKnown(s) && OpsOk(s) && FreshOk(s) && Silent(s, s', o)
    ensures OpsOk(s') && FreshOk(s')
  {
    assert Grows(s, s');
    assert o in s.ops ==> GateOk(s, o);
    forall p | p in s'.ops && s'.ops[p] == s.ops[p]
      ensures GateOk(s', p) && PcOk(s', s'.ops[p]) && s'.ops[p].abandoned <= s'.handedOver
    {
      OtherOpKeeps(s, s', p);
    }
  }

  lemma SilentPlaces(s: State, s': State, o: OpId)
    requires TokensKnown(s) && Accounted(s) && Conserved(s) && Silent(s, s', o)
    ensures Accounted(s') && Conserved(s')
  {
    forall t
      ensures IsFresh(s, t) ==> IsFresh(s', t)
      ensures IsHeld(s, t) ==> IsHeld(s', t)
    {
      if s'.ops != s.ops { HoldersStay(s, s', o); }
    }
    forall t | t in s.received && Honoured(s'.server, t)
      ensures Honoured(s.server, t)
    {
      assert s.server[t.grant].current <= s'.server[t.grant].current;
    }
  }

  lemma RotationLostKeeps(s: State, o: OpId)
    requires Inv(s) && Enabled(s, Renew(o, RotationLost))
    ensures Inv(ApplyRenew(s, o, RotationLost))
  {
    assert PcOk(s, s.ops[o]);
    NobodyFreshOf(s, s.ops[o].pc.using);
    SilentKeeps(s, ApplyRenew(s, o, RotationLost), o);
  }

  lemma ExchangeLostKeeps(s: State, o: OpId, g: GrantId)
    requires Inv(s) && Enabled(s, ExchangeLost(o, g))
    ensures Inv(Apply(s, ExchangeLost(o, g)))
  {
    SilentKeeps(s, Apply(s, ExchangeLost(o, g)), o);
  }

  lemma ServerKillsKeeps(s: State, g: GrantId)
    requires Inv(s) && Enabled(s, ServerKills(g))
    ensures Inv(Apply(s, ServerKills(g)))
  {
    SilentKeeps(s, Apply(s, ServerKills(g)), 0);
  }

  lemma AddInstanceKeeps(s: State, i: InstanceId)
    requires Inv(s) && Enabled(s, AddInstance(i))
    ensures Inv(Apply(s, AddInstance(i)))
  {
    var s' := Apply(s, AddInstance(i));
    assert Grows(s, s');
    forall p | p in s'.ops
      ensures GateOk(s', p) && PcOk(s', s'.ops[p]) && s'.ops[p].abandoned <= s'.handedOver
    {
      OtherOpKeeps(s, s', p);
    }
    assert s'.ops == s.ops;
    assert forall t :: IsFresh(s, t) <==> IsFresh(s', t);
    assert forall t :: IsHeld(s, t) <==> IsHeld(s', t);
  }

  predicate Starts(step: Step) {
    step.StartSignIn? || step.StartRenew? || step.StartSignOut? || step.StartPass? || step.AddInstance?
  }

  lemma StartStepKeeps(s: State, step: Step)
    requires Inv(s) && Enabled(s, step) && Starts(step)
    ensures Inv(Apply(s, step))
  {
    match step
    case AddInstance(i) => AddInstanceKeeps(s, i);
    case _ => StartKeeps(s, step);
  }

  predicate SavesOrRenews(step: Step) {
    step.Exchange? || step.Commit? || step.Renew? || step.Read? || step.Remove?
  }

  lemma SaveOrRenewStepKeeps(s: State, step: Step)
    requires Inv(s) && Enabled(s, step) && SavesOrRenews(step)
    ensures Inv(Apply(s, step))
  {
    match step
    case Exchange(o, g, reply) => ExchangeKeeps(s, o, g, reply);
    case Commit(o) => if SaveCommit(s, o).Committed? { AcceptedCommitKeeps(s, o); } else { RefusedCommitKeeps(s, o); }
    case Read(o) => ReadKeeps(s, o);
    case Remove(o) => RemoveKeeps(s, o);
    case Renew(o, reply) =>
      if reply.Declined? || reply.GrantDead? { UnrotatedRenewKeeps(s, o, reply); }
      else if reply.RotationLost? { RotationLostKeeps(s, o); }
      else { RotateKeeps(s, o, reply); }
  }

  /** Every step keeps the invariant. */
  lemma StepKeeps(s: State, step: Step)
    requires Inv(s) && Enabled(s, step)
    ensures Inv(Apply(s, step))
  {
    if Starts(step) {
      StartStepKeeps(s, step);
    } else if SavesOrRenews(step) {
      SaveOrRenewStepKeeps(s, step);
    } else {
      match step
      case ExchangeLost(o, g) => ExchangeLostKeeps(s, o, g);
      case ServerKills(g) => ServerKillsKeeps(s, g);
      case Vanish(o) => VanishKeeps(s, o);
      case SignInEnds(_) => SignInGateKeeps(s, step);
      case SignOutsOver(_) => SignInGateKeeps(s, step);
      case Revoke(_, _) => RevokeKeeps(s, step);
      case Record(_, _) => RecordKeeps(s, step);
      case OutRead(o) => OutReadKeeps(s, o);
      case OutRevoke(_, _) => RevokeKeeps(s, step);
      case OutRecord(_, _) => RecordKeeps(s, step);
      case OutRemove(o) => OutRemoveKeeps(s, o);
      case PassRead(o) => PassReadKeeps(s, o);
      case PassEntry(o, now, reply) => PassEntryKeeps(s, o, now, reply);
      case PassWrite(o) => PassWriteKeeps(s, o);
    }
  }

  /** Every state of every run satisfies the invariant. */
  lemma {:induction false} ReachableInv(states: seq<State>, steps: seq<Step>, i: nat)
    requires IsRun(states, steps) && i < |states|
    ensures Inv(states[i])
  {
    if i == 0 {
      InitInv();
    } else {
      ReachableInv(states, steps, i - 1);
      StepKeeps(states[i - 1], steps[i - 1]);
    }
  }

  ghost predicate OneMoved(s: State, s': State, o: OpId) {
    o in s'.ops && s'.ops == s.ops[o := s'.ops[o]]
  }

  lemma SaveMovesOne(s: State, step: Step)
    requires Enabled(s, step) && SavesOrRenews(step)
    ensures OneMoved(s, Apply(s, step), step.op)
  {
  }

  lemma OtherMovesOne(s: State, step: Step)
    requires Enabled(s, step) && !SavesOrRenews(step) && !step.AddInstance? && !step.ServerKills?
    ensures OneMoved(s, Apply(s, step), step.op)
  {
  }

  /** A step changes one operation. */
  lemma OneOpMoves(s: State, step: Step)
    requires Enabled(s, step) && !step.AddInstance? && !step.ServerKills?
    ensures OneMoved(s, Apply(s, step), step.op)
  {
    if SavesOrRenews(step) { SaveMovesOne(s, step); } else { OtherMovesOne(s, step); }
  }
}
