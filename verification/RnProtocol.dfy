/**
 * The React Native SDK's grant protocol as a step system.
 *
 * Any number of SDK instances share one secure store. Between two awaits an
 * operation runs to completion, and each storage-queue task is one step, so
 * a step is either a storage task, a request to the server together with the
 * client's synchronous handling of the answer, or the start of an operation.
 *
 * A store write succeeds or its process stops: an operation may vanish at
 * any point.
 *
 * The fields of `State` from `received` on, and the two sets in `Op`, only
 * record history; no step reads them.
 */
module RnProtocol {
  import opened Wrappers
  import opened GrantServer
  import PR = PendingRevokes
  import opened SessionRecord

  type InstanceId = nat
  type OpId = nat

  /** What an operation does once the grant it is letting go of, or saving, is settled. */
  datatype Then =
    | Resolve
    | Reject(carried: Option<Token>)   // the error, and the rotatedRefreshToken it carries
    | RenewNow(token: Token)           // sign-in: the delegation is inside its renewal lead

  datatype Pc =
    | Exchanging                                             // sign-in, up to the code exchange
    | AwaitingSignOuts(token: Token, next: Then)             // saveSession('any')
    | Committing(token: Token, any: bool, next: Then)        // commitSession is queued
    | Reading(reloaded: bool)                                // renewOnce
    | Requesting(using: Token, reloaded: bool, signIn: bool) // renewDelegation
    | Removing(grant: GrantId, rotated: Option<Token>)       // removeSession after a terminal outcome
    | Revoking(token: Token, next: Then)                     // abandonGrant: the revoke
    | Recording(token: Token, next: Then)                    // abandonGrant: the pending entry
    | OutReading                                             // signOutDelegation
    | OutRevoking(token: Token)
    | OutRecording(token: Token)
    | OutRemoving(token: Token, transient: bool)
    | PassReading                                            // retryPendingRevokesOnce
    | Passing(snapshot: seq<PR.Entry>, k: nat, done: set<Token>, bumped: map<Token, nat>)
    | Finished(result: Then)

  datatype Op = Op(
    owner: InstanceId,
    generation: nat,
    pc: Pc,
    saved: set<Token>,
    abandoned: set<Token>)

  datatype Instance = Instance(generation: nat, flights: set<OpId>)

  datatype State = State(
    server: Server,
    session: Option<Token>,
    pending: seq<PR.Entry>,
    instances: map<InstanceId, Instance>,
    ops: map<OpId, Op>,
    received: set<Token>,
    stored: set<Token>,
    handedOver: set<Token>,
    signedOut: set<Token>,
    dropped: set<Token>,
    lost: set<Token>)

  datatype ExchangeReply =
    | Exchanged(renewNow: bool)        // a verified delegation
    | ExchangeRejected(terminal: bool) // tokens were issued, the delegation was refused
  datatype RenewReply =
    | Renewed
    | RenewRejected(terminal: bool)    // rotated, then the delegation was refused
    | RotationLost                     // rotated, but the answer never arrived
    | Declined(conflict: bool)         // no rotation, not terminal
    | GrantDead                        // terminal without a rotation
  datatype RevokeReply =
    | Settled(killed: bool)            // revoked, or refused for good
    | Transient(killed: bool)          // may or may not have reached the server

  datatype Step =
    | AddInstance(i: InstanceId)
    | StartSignIn(op: OpId, i: InstanceId)
    | StartRenew(op: OpId, i: InstanceId)
    | StartSignOut(op: OpId, i: InstanceId)
    | StartPass(op: OpId, i: InstanceId)
    | SignInEnds(op: OpId)
    | ExchangeLost(op: OpId, g: GrantId)
    | Exchange(op: OpId, g: GrantId, exchange: ExchangeReply)
    | SignOutsOver(op: OpId)
    | Commit(op: OpId)
    | Read(op: OpId)
    | Renew(op: OpId, renewal: RenewReply)
    | Remove(op: OpId)
    | Revoke(op: OpId, revoke: RevokeReply)
    | Record(op: OpId, expiresAt: nat)
    | OutRead(op: OpId)
    | OutRevoke(op: OpId, revoke: RevokeReply)
    | OutRecord(op: OpId, expiresAt: nat)
    | OutRemove(op: OpId)
    | PassRead(op: OpId)
    | PassEntry(op: OpId, now: nat, revoke: RevokeReply)
    | PassWrite(op: OpId)
    | ServerKills(g: GrantId)
    | Vanish(op: OpId)

  const Init := State(map[], None, [], map[], map[], {}, {}, {}, {}, {}, {})

  // ---- reading the state ----

  /** A token the operation received and that has never been stored nor handed over. */
  function Fresh(pc: Pc): Option<Token> {
    match pc
    case AwaitingSignOuts(t, _) => Some(t)
    case Committing(t, _, _) => Some(t)
    case Removing(_, rotated) => rotated
    case _ => None
  }

  /** The token the operation must still save, revoke or record. */
  function Held(pc: Pc): Option<Token> {
    match pc
    case Revoking(t, _) => Some(t)
    case Recording(t, _) => Some(t)
    case _ => Fresh(pc)
  }

  predicate At(s: State, o: OpId) {
    o in s.ops && s.ops[o].owner in s.instances
  }

  /** A signOut() of the operation's instance has not started since the operation did. */
  predicate Current(s: State, o: OpId)
    requires At(s, o)
  {
    s.ops[o].generation == s.instances[s.ops[o].owner].generation
  }

  predicate NoFlight(s: State, o: OpId)
    requires At(s, o)
  {
    s.instances[s.ops[o].owner].flights == {}
  }

  predicate RevokeAllowed(s: State, t: Token, reply: RevokeReply) {
    && t.grant in s.server
    && (reply.Settled? && !reply.killed ==> !Honoured(s.server, t))
  }

  predicate RenewAllowed(s: State, using: Token, reply: RenewReply) {
    && using.grant in s.server
    && (reply.Renewed? || reply.RenewRejected? || reply.RotationLost? ==> Honoured(s.server, using))
  }

  /** A retry pass of instance `i` is running: passes are single-flight in an instance. */
  predicate PassRunning(s: State, i: InstanceId) {
    exists o :: o in s.ops && s.ops[o].owner == i && (s.ops[o].pc.PassReading? || s.ops[o].pc.Passing?)
  }

  predicate Enabled(s: State, step: Step) {
    match step
    case AddInstance(i) => i !in s.instances
    case StartSignIn(o, i) => o !in s.ops && i in s.instances
    case StartRenew(o, i) => o !in s.ops && i in s.instances
    case StartSignOut(o, i) => o !in s.ops && i in s.instances
    case StartPass(o, i) => o !in s.ops && i in s.instances && !PassRunning(s, i)
    case SignInEnds(o) => At(s, o) && s.ops[o].pc.Exchanging?
    case ExchangeLost(o, g) => At(s, o) && s.ops[o].pc.Exchanging? && g !in s.server
    case Exchange(o, g, _) => At(s, o) && s.ops[o].pc.Exchanging? && g !in s.server
    case SignOutsOver(o) => At(s, o) && s.ops[o].pc.AwaitingSignOuts? && NoFlight(s, o)
    case Commit(o) => At(s, o) && s.ops[o].pc.Committing?
    case Read(o) => At(s, o) && s.ops[o].pc.Reading?
    case Renew(o, reply) => At(s, o) && s.ops[o].pc.Requesting? && RenewAllowed(s, s.ops[o].pc.using, reply)
    case Remove(o) => At(s, o) && s.ops[o].pc.Removing?
    case Revoke(o, reply) => At(s, o) && s.ops[o].pc.Revoking? && RevokeAllowed(s, s.ops[o].pc.token, reply)
    case Record(o, _) => At(s, o) && s.ops[o].pc.Recording?
    case OutRead(o) => At(s, o) && s.ops[o].pc.OutReading?
    case OutRevoke(o, reply) => At(s, o) && s.ops[o].pc.OutRevoking? && RevokeAllowed(s, s.ops[o].pc.token, reply)
    case OutRecord(o, _) => At(s, o) && s.ops[o].pc.OutRecording?
    case OutRemove(o) => At(s, o) && s.ops[o].pc.OutRemoving?
    case PassRead(o) => At(s, o) && s.ops[o].pc.PassReading?
    case PassEntry(o, _, reply) =>
      && At(s, o) && s.ops[o].pc.Passing? && s.ops[o].pc.k < |s.ops[o].pc.snapshot|
      && RevokeAllowed(s, s.ops[o].pc.snapshot[s.ops[o].pc.k].token, reply)
    case PassWrite(o) => At(s, o) && s.ops[o].pc.Passing? && s.ops[o].pc.k == |s.ops[o].pc.snapshot|
    case ServerKills(g) => g in s.server
    case Vanish(o) => At(s, o) && !s.ops[o].pc.Finished?
  }

  // ---- changing the state ----

  function Goto(s: State, o: OpId, pc: Pc): State
    requires o in s.ops
  {
    s.(ops := s.ops[o := s.ops[o].(pc := pc)])
  }

  function Begin(s: State, o: OpId, i: InstanceId, pc: Pc): State
    requires i in s.instances
  {
    s.(ops := s.ops[o := Op(i, s.instances[i].generation, pc, {}, {})])
  }

  function Continue(next: Then): Pc {
    match next
    case RenewNow(t) => Requesting(t, true, true)
    case _ => Finished(next)
  }

  /** abandonGrant starts: the token leaves the operation's hands for good. */
  function Abandon(s: State, o: OpId, t: Token, next: Then): State
    requires o in s.ops
  {
    s.(handedOver := s.handedOver + {t},
       ops := s.ops[o := s.ops[o].(pc := Revoking(t, next), abandoned := s.ops[o].abandoned + {t})])
  }

  function Receive(s: State, t: Token): State {
    s.(received := s.received + {t})
  }

  function AfterRevoke(server: Server, t: Token, reply: RevokeReply): Server
    requires t.grant in server
  {
    if reply.killed then Kill(server, t.grant) else server
  }

  function ApplyExchange(s: State, o: OpId, g: GrantId, reply: ExchangeReply): State
    requires Enabled(s, Exchange(o, g, reply))
  {
    var t := Token(g, 0);
    var s1 := Receive(s.(server := Create(s.server, g)), t);
    match reply
    case Exchanged(renewNow) => Goto(s1, o, AwaitingSignOuts(t, if renewNow then RenewNow(t) else Resolve))
    case ExchangeRejected(terminal) =>
      if terminal then Abandon(s1, o, t, Reject(None))
      else Goto(s1, o, AwaitingSignOuts(t, Reject(Some(t))))
  }

  /** The save's commitSession: a sign-in replaces whatever is stored, a renew only its own session. */
  function SaveCommit(s: State, o: OpId): CommitResult
    requires At(s, o) && s.ops[o].pc.Committing?
  {
    var pc := s.ops[o].pc;
    CommitSession(s.session, Some(pc.token), if pc.any then Any else Sid(pc.token.grant), Current(s, o))
  }

  /** A refused save abandons its token; an accepted one abandons the other grant it replaced. */
  function ApplyCommit(s: State, o: OpId): State
    requires Enabled(s, Commit(o))
  {
    var pc := s.ops[o].pc;
    match SaveCommit(s, o)
    case Superseded => Abandon(s, o, pc.token, Reject(None))
    case Committed(session, replaced) =>
      var s1 := s.(session := session, stored := s.stored + {pc.token},
                   ops := s.ops[o := s.ops[o].(saved := s.ops[o].saved + {pc.token})]);
      if replaced.Some? && replaced.value.grant != pc.token.grant
      then Abandon(s1, o, replaced.value, pc.next)
      else Goto(s1, o, Continue(pc.next))
  }

  /** readCurrentSession, then the request of renewOnce or the NOT_SIGNED_IN error. */
  function ApplyRead(s: State, o: OpId): State
    requires Enabled(s, Read(o))
  {
    if s.session.Some? && Current(s, o) && NoFlight(s, o)
    then Goto(s, o, Requesting(s.session.value, s.ops[o].pc.reloaded, false))
    else Goto(s, o, Finished(Reject(None)))
  }

  function ApplyRenew(s: State, o: OpId, reply: RenewReply): State
    requires Enabled(s, Renew(o, reply))
  {
    var pc := s.ops[o].pc;
    var t := Next(pc.using);
    match reply
    case Renewed => Goto(Receive(s.(server := Rotate(s.server, pc.using)), t), o, Committing(t, false, Resolve))
    case RenewRejected(terminal) =>
      Goto(Receive(s.(server := Rotate(s.server, pc.using)), t), o,
           if terminal then Removing(t.grant, Some(t)) else Committing(t, false, Reject(Some(t))))
    case RotationLost => Goto(s.(server := Rotate(s.server, pc.using)), o, Finished(Reject(None)))
    case Declined(conflict) =>
      Goto(s, o, if conflict && !pc.reloaded && !pc.signIn then Reading(true) else Finished(Reject(None)))
    case GrantDead => Goto(s.(server := Kill(s.server, pc.using.grant)), o, Removing(pc.using.grant, None))
  }

  /** removeSession: only the session of that key; then the rotated token, if any, is abandoned. */
  function ApplyRemove(s: State, o: OpId): State
    requires Enabled(s, Remove(o))
  {
    var pc := s.ops[o].pc;
    var commit := CommitSession(s.session, None, Sid(pc.grant), true);
    var s1 := if commit.Committed? then s.(session := commit.session) else s;
    match pc.rotated
    case None => Goto(s1, o, Finished(Reject(None)))
    case Some(t) => Abandon(s1, o, t, Reject(None))
  }

  function ApplyRevoke(s: State, o: OpId, reply: RevokeReply): State
    requires Enabled(s, Revoke(o, reply))
  {
    var pc := s.ops[o].pc;
    var s1 := s.(server := AfterRevoke(s.server, pc.token, reply));
    Goto(s1, o, if reply.Settled? then Continue(pc.next) else Recording(pc.token, pc.next))
  }

  function ApplyRecord(s: State, o: OpId, expiresAt: nat): State
    requires Enabled(s, Record(o, expiresAt))
  {
    var pc := s.ops[o].pc;
    Goto(s.(pending := PR.Append(s.pending, pc.token, expiresAt)), o, Continue(pc.next))
  }

  /** signOutDelegation ends; signOut() takes its flight out of the set. */
  function EndSignOut(s: State, o: OpId): State
    requires At(s, o)
  {
    var i := s.ops[o].owner;
    Goto(s.(instances := s.instances[i := s.instances[i].(flights := s.instances[i].flights - {o})]),
         o, Finished(Resolve))
  }

  function ApplyOutRemove(s: State, o: OpId): State
    requires Enabled(s, OutRemove(o))
  {
    match CommitSession(s.session, None, Exactly(s.ops[o].pc.token), true)
    case Committed(session, _) => EndSignOut(s.(session := session), o)
    case Superseded => Goto(s, o, OutReading)
  }

  function ApplyPassEntry(s: State, o: OpId, now: nat, reply: RevokeReply): State
    requires Enabled(s, PassEntry(o, now, reply))
  {
    var pc := s.ops[o].pc;
    var e := pc.snapshot[pc.k];
    var asked := now < e.expiresAt && e.attempts < PR.MAX_REVOKE_ATTEMPTS;
    var s1 := if asked then s.(server := AfterRevoke(s.server, e.token, reply)) else s;
    match PR.Judge(e, now, reply.Transient?)
    case Done => Goto(s1, o, pc.(k := pc.k + 1, done := pc.done + {e.token}))
    case Dropped => Goto(s1.(dropped := s.dropped + {e.token}), o, pc.(k := pc.k + 1, done := pc.done + {e.token}))
    case Kept(n) => Goto(s1, o, pc.(k := pc.k + 1, bumped := pc.bumped[e.token := n]))
  }

  function Apply(s: State, step: Step): State
    requires Enabled(s, step)
  {
    match step
    case AddInstance(i) => s.(instances := s.instances[i := Instance(0, {})])
    case StartSignIn(o, i) => Begin(s, o, i, Exchanging)
    case StartRenew(o, i) => Begin(s, o, i, Reading(false))
    case StartSignOut(o, i) =>
      var inst := s.instances[i];
      var s1 := s.(instances := s.instances[i := Instance(inst.generation + 1, inst.flights + {o})]);
      Begin(s1, o, i, OutReading)
    case StartPass(o, i) => Begin(s, o, i, PassReading)
    case SignInEnds(o) => Goto(s, o, Finished(Reject(None)))
    case ExchangeLost(o, g) => Goto(s.(server := Create(s.server, g)), o, Finished(Reject(None)))
    case Exchange(o, g, reply) => ApplyExchange(s, o, g, reply)
    case SignOutsOver(o) => Goto(s, o, Committing(s.ops[o].pc.token, true, s.ops[o].pc.next))
    case Commit(o) => ApplyCommit(s, o)
    case Read(o) => ApplyRead(s, o)
    case Renew(o, reply) => ApplyRenew(s, o, reply)
    case Remove(o) => ApplyRemove(s, o)
    case Revoke(o, reply) => ApplyRevoke(s, o, reply)
    case Record(o, expiresAt) => ApplyRecord(s, o, expiresAt)
    case OutRead(o) =>
      if s.session.Some? then Goto(s, o, OutRevoking(s.session.value)) else EndSignOut(s, o)
    case OutRevoke(o, reply) =>
      var t := s.ops[o].pc.token;
      Goto(s.(server := AfterRevoke(s.server, t, reply), signedOut := s.signedOut + {t}), o,
           if reply.Settled? then OutRemoving(t, false) else OutRecording(t))
    case OutRecord(o, expiresAt) =>
      var t := s.ops[o].pc.token;
      Goto(s.(pending := PR.Append(s.pending, t, expiresAt)), o, OutRemoving(t, true))
    case OutRemove(o) => ApplyOutRemove(s, o)
    case PassRead(o) =>
      if s.pending == [] then Goto(s, o, Finished(Resolve)) else Goto(s, o, Passing(s.pending, 0, {}, map[]))
    case PassEntry(o, now, reply) => ApplyPassEntry(s, o, now, reply)
    case PassWrite(o) =>
      var pc := s.ops[o].pc;
      Goto(s.(pending := PR.Merge(s.pending, pc.done, pc.bumped)), o, Finished(Resolve))
    case ServerKills(g) => s.(server := Kill(s.server, g))
    case Vanish(o) =>
      var held := Held(s.ops[o].pc);
      Goto(s.(lost := s.lost + if held.Some? then {held.value} else {}), o, Finished(Reject(None)))
  }

  /** One reachable history: the states of a run from the empty store. */
  ghost predicate IsRun(states: seq<State>, steps: seq<Step>) {
    && |states| == |steps| + 1
    && states[0] == Init
    && forall i :: 0 <= i < |steps| ==> Enabled(states[i], steps[i]) && states[i + 1] == Apply(states[i], steps[i])
  }
}
