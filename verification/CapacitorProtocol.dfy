/**
 * The Capacitor SDK's sign-in, renewal, sign-out and retry over one secure
 * store of three records: the session, the pending revokes, and the exchange
 * intent that makes a sign-in's code exchange recoverable.
 *
 * A step is one native write or read of the store, one request to the server
 * with the client's synchronous handling of its answer, or the start of an
 * operation. A storage-queue task with two writes (commitSignIn) holds `lock`
 * between them. The process may stop between any two steps: memory is gone,
 * the store and the server remain.
 *
 * `durable`, `tried`, `dropped` and `lost` only record history.
 */
module CapacitorProtocol {
  import opened Wrappers
  import opened GrantServer
  import PR = PendingRevokes

  type OpId = nat

  /** The attempt's OAuth state and its session key are fresh together: one id names both and the grant. */
  datatype Intent = Intent(attempt: GrantId, token: Option<Token>, expiresAt: nat)

  datatype Kind = SignIn | Renewal | SignOut | Pass

  /** Why a grant is abandoned, which says what the operation does next. */
  datatype Why =
    | Failed                           // the sign-in's own exchanged token
    | Previous                         // a cancelled sign-in's previous session, no longer stored
    | Replaced                         // the session a sign-in replaced
    | Wiped                            // the session of a sign-in whose immediate renewal failed
    | Rotated                          // a rotated token that may not be stored
    | Terminal(rotated: Option<Token>) // the session a terminal renewal answer wiped

  datatype Pc =
    | Starting
    | Waiting(pass: OpId)
    | ReadingPrevious
    | Authorizing
    | Exchanging
    | Marking(token: Token, valid: bool)
    | Committing(token: Token)
    | CommitWrote(token: Token, previous: Option<Token>)
    | Clearing(exchanged: bool)
    | Checking
    | Abandoning(token: Token, why: Why)
    | Recording(token: Token, why: Why)
    | Reading
    | Requesting(using: Token)
    | Writing(using: Token, token: Token, valid: bool)
    | Written(token: Token, valid: bool)
    | Wiping(using: Token, rotated: Option<Token>)
    | WipingOwn
    | OutReading(started: bool)
    | OutRevoking(token: Token)
    | OutRecording(token: Token)
    | OutWiping(expected: Option<Token>)
    | IntentReading
    | IntentRevoking(attempt: GrantId, token: Token, expiresAt: nat)
    | IntentRecording(attempt: GrantId, token: Token, expiresAt: nat)
    | IntentClearing(attempt: GrantId)
    | PassReading
    | Passing(snapshot: seq<PR.Entry>, k: nat, done: set<Token>, bumped: map<Token, nat>)
    | Done

  datatype Op = Op(kind: Kind, grant: GrantId, attempt: nat, epoch: nat, previous: Option<Token>, pc: Pc)

  datatype State = State(
    server: Server,
    session: Option<Token>,
    pending: seq<PR.Entry>,
    intent: Option<Intent>,
    epoch: nat,
    attempt: nat,
    active: set<GrantId>,
    lock: Option<OpId>,
    ops: map<OpId, Op>,
    durable: set<Token>,
    tried: set<GrantId>,
    dropped: set<Token>,
    lost: set<Token>)

  datatype RenewReply =
    | Renewed(valid: bool)              // rotated; the delegation is valid or refused
    | RefusedTerminal                   // rotated, then refused for good
    | RotationLost
    | Declined(conflict: bool)
    | GrantDead

  datatype RevokeReply = Settled(killed: bool) | Transient(killed: bool)

  datatype Step =
    | StartSignIn(op: OpId, g: GrantId)
    | StartRenewal(op: OpId)
    | StartSignOut(op: OpId)
    | StartPass(op: OpId)
    | SignInEnds(op: OpId)
    | JoinPass(op: OpId, pass: OpId)
    | PassJoined(op: OpId)
    | ReadPrevious(op: OpId)
    | WriteIntent(op: OpId, expiresAt: nat)
    | ExchangeFails(op: OpId, created: bool)
    | Exchange(op: OpId, valid: bool)
    | Mark(op: OpId)
    | CommitRefused(op: OpId)
    | CommitWrite(op: OpId)
    | CommitFinish(op: OpId, renewNow: bool)
    | ClearOwn(op: OpId)
    | CheckPrevious(op: OpId, superseded: bool)
    | Abandon(op: OpId, revoke: RevokeReply, renewNow: bool)
    | Record(op: OpId, now: nat, expiresAt: nat, renewNow: bool)
    | Read(op: OpId)
    | Renew(op: OpId, renewal: RenewReply)
    | Write(op: OpId)
    | AfterWrite(op: OpId)
    | Wipe(op: OpId)
    | WipeOwn(op: OpId)
    | OutRead(op: OpId)
    | OutRevoke(op: OpId, revoke: RevokeReply)
    | OutRecord(op: OpId, now: nat, expiresAt: nat)
    | OutWipe(op: OpId)
    | IntentRead(op: OpId, now: nat)
    | IntentRevoke(op: OpId, revoke: RevokeReply)
    | IntentRecord(op: OpId, now: nat)
    | IntentClear(op: OpId)
    | PassRead(op: OpId)
    | PassEntry(op: OpId, now: nat, revoke: RevokeReply)
    | PassWrite(op: OpId, now: nat)
    | ServerKills(g: GrantId)
    | Crash

  const Init := State(map[], None, [], None, 0, 0, {}, None, map[], {}, {}, {}, {})

  // ---- when a step may happen ----

  predicate In(s: State, o: OpId, kind: Kind) {
    o in s.ops && s.ops[o].kind == kind && !s.ops[o].pc.Done?
  }

  predicate Running(s: State, kind: Kind) {
    exists o :: o in s.ops && s.ops[o].kind == kind && !s.ops[o].pc.Done?
  }

  /** The storage queue is free for another task. */
  predicate Free(s: State, o: OpId) {
    o in s.ops && s.lock == None
  }

  predicate RevokeAllowed(s: State, t: Token, reply: RevokeReply) {
    t.grant in s.server && (reply.Settled? && !reply.killed ==> !Honoured(s.server, t))
  }

  predicate Enabled(s: State, step: Step) {
    match step
    case StartSignIn(o, g) => o !in s.ops && g !in s.tried && !Running(s, SignIn)
    case StartRenewal(o) => o !in s.ops
    case StartSignOut(o) => o !in s.ops && !Running(s, SignOut)
    case StartPass(o) => o !in s.ops && !Running(s, Pass)
    case SignInEnds(o) => o in s.ops && (s.ops[o].pc.Starting? || s.ops[o].pc.ReadingPrevious? || s.ops[o].pc.Authorizing?)
    case JoinPass(o, p) => o in s.ops && s.ops[o].pc.Starting? && In(s, p, Pass)
    case PassJoined(o) => o in s.ops && s.ops[o].pc.Waiting? && !In(s, s.ops[o].pc.pass, Pass)
    case ReadPrevious(o) => Free(s, o) && s.ops[o].pc.ReadingPrevious?
    case WriteIntent(o, _) => Free(s, o) && s.ops[o].pc.Authorizing?
    case ExchangeFails(o, created) => o in s.ops && s.ops[o].pc.Exchanging? && (created ==> s.ops[o].grant !in s.server)
    case Exchange(o, _) => o in s.ops && s.ops[o].pc.Exchanging? && s.ops[o].grant !in s.server
    case Mark(o) => Free(s, o) && s.ops[o].pc.Marking?
    case CommitRefused(o) => o in s.ops && s.ops[o].pc.Committing?
    case CommitWrite(o) => Free(s, o) && s.ops[o].pc.Committing?
    case CommitFinish(o, _) => o in s.ops && s.ops[o].pc.CommitWrote?
    case ClearOwn(o) => Free(s, o) && s.ops[o].pc.Clearing?
    case CheckPrevious(o, _) => Free(s, o) && s.ops[o].pc.Checking?
    case Abandon(o, reply, _) => o in s.ops && s.ops[o].pc.Abandoning? && RevokeAllowed(s, s.ops[o].pc.token, reply)
    case Record(o, _, _, _) => Free(s, o) && s.ops[o].pc.Recording?
    case Read(o) => Free(s, o) && s.ops[o].pc.Reading?
    case Renew(o, reply) =>
      && o in s.ops && s.ops[o].pc.Requesting? && s.ops[o].pc.using.grant in s.server
      && (reply.Renewed? || reply.RefusedTerminal? || reply.RotationLost? ==> Honoured(s.server, s.ops[o].pc.using))
    case Write(o) => Free(s, o) && s.ops[o].pc.Writing?
    case AfterWrite(o) => o in s.ops && s.ops[o].pc.Written?
    case Wipe(o) => Free(s, o) && s.ops[o].pc.Wiping?
    case WipeOwn(o) => Free(s, o) && s.ops[o].pc.WipingOwn?
    case OutRead(o) => Free(s, o) && s.ops[o].pc.OutReading?
    case OutRevoke(o, reply) => o in s.ops && s.ops[o].pc.OutRevoking? && RevokeAllowed(s, s.ops[o].pc.token, reply)
    case OutRecord(o, _, _) => Free(s, o) && s.ops[o].pc.OutRecording?
    case OutWipe(o) => Free(s, o) && s.ops[o].pc.OutWiping?
    case IntentRead(o, _) => Free(s, o) && s.ops[o].pc.IntentReading?
    case IntentRevoke(o, reply) => o in s.ops && s.ops[o].pc.IntentRevoking? && RevokeAllowed(s, s.ops[o].pc.token, reply)
    case IntentRecord(o, _) => Free(s, o) && s.ops[o].pc.IntentRecording?
    case IntentClear(o) => Free(s, o) && s.ops[o].pc.IntentClearing?
    case PassRead(o) => Free(s, o) && s.ops[o].pc.PassReading?
    case PassEntry(o, _, reply) =>
      && o in s.ops && s.ops[o].pc.Passing? && s.ops[o].pc.k < |s.ops[o].pc.snapshot|
      && RevokeAllowed(s, s.ops[o].pc.snapshot[s.ops[o].pc.k].token, reply)
    case PassWrite(o, _) => Free(s, o) && s.ops[o].pc.Passing? && s.ops[o].pc.k == |s.ops[o].pc.snapshot|
    case ServerKills(g) => g in s.server
    case Crash => true
  }

  // ---- what a step does ----

  function Goto(s: State, o: OpId, pc: Pc): State
    requires o in s.ops
  {
    s.(ops := s.ops[o := s.ops[o].(pc := pc)])
  }

  function Begin(s: State, o: OpId, kind: Kind, g: GrantId, pc: Pc): State {
    s.(ops := s.ops[o := Op(kind, g, s.attempt, s.epoch, None, pc)])
  }

  function AfterRevoke(server: Server, t: Token, reply: RevokeReply): Server
    requires t.grant in server
  {
    if reply.killed then Kill(server, t.grant) else server
  }

  /** appendPendingRevoke: an entry already past its expiry is not added. */
  function Append(s: State, t: Token, now: nat, expiresAt: nat): State {
    if now >= expiresAt then s.(dropped := s.dropped + {t})
    else s.(pending := PR.Append(s.pending, t, expiresAt))
  }

  function ClearIntent(s: State, attempt: GrantId): State {
    if s.intent.Some? && s.intent.value.attempt == attempt then s.(intent := None) else s
  }

  /** A failed signInOnce leaves through its `finally`. */
  function SignInOver(s: State, o: OpId): State
    requires o in s.ops
  {
    Goto(s.(active := s.active - {s.ops[o].grant}), o, Done)
  }

  /** signInOnce's `finally`, and what follows a committed sign-in. */
  function AfterCommit(s: State, o: OpId, renewNow: bool): State
    requires o in s.ops
  {
    Goto(s.(active := s.active - {s.ops[o].grant}), o, if renewNow then Reading else Done)
  }

  /** A renewal rejects; a sign-in whose immediate renewal rejects wipes its own session. */
  function RenewalFails(s: State, o: OpId): State
    requires o in s.ops
  {
    Goto(s, o, if s.ops[o].kind == SignIn then WipingOwn else Done)
  }

  /** abandonGrant is over: the revoke settled, or the pending entry is recorded. */
  function Abandoned(s: State, o: OpId, why: Why, settled: bool, renewNow: bool): State
    requires o in s.ops
  {
    match why
    case Failed => Goto(s, o, if settled then Clearing(true) else Checking)
    case Previous => SignInOver(s, o)
    case Replaced => AfterCommit(s, o, renewNow)
    case Wiped => Goto(s, o, Done)
    case Rotated => RenewalFails(s, o)
    case Terminal(rotated) =>
      if rotated.Some? then Goto(s, o, Abandoning(rotated.value, Rotated)) else RenewalFails(s, o)
  }

  /** signIn: any sign-in or sign-out after this one makes its attempt stale. */
  function ApplyStartSignIn(s: State, o: OpId, g: GrantId): State {
    Begin(s.(attempt := s.attempt + 1), o, SignIn, g, Starting)
  }

  function ApplyReadPrevious(s: State, o: OpId): State
    requires o in s.ops && s.ops[o].pc.ReadingPrevious?
  {
    s.(ops := s.ops[o := s.ops[o].(previous := s.session, pc := Authorizing)])
  }

  /** The authorization code is back: the intent is written before the code is exchanged. */
  function ApplyWriteIntent(s: State, o: OpId, expiresAt: nat): State
    requires o in s.ops && s.ops[o].pc.Authorizing?
  {
    var g := s.ops[o].grant;
    Goto(s.(active := s.active + {g}, tried := s.tried + {g}, intent := Some(Intent(g, None, expiresAt))), o, Exchanging)
  }

  /** The exchange is refused, or its answer is lost after the grant was created. */
  function ApplyExchangeFails(s: State, o: OpId, created: bool): State
    requires o in s.ops && s.ops[o].pc.Exchanging? && (created ==> s.ops[o].grant !in s.server)
  {
    Goto(if created then s.(server := Create(s.server, s.ops[o].grant)) else s, o, Clearing(false))
  }

  function ApplyExchange(s: State, o: OpId, valid: bool): State
    requires o in s.ops && s.ops[o].pc.Exchanging? && s.ops[o].grant !in s.server
  {
    var g := s.ops[o].grant;
    Goto(s.(server := Create(s.server, g)), o, Marking(Token(g, 0), valid))
  }

  function ApplyMark(s: State, o: OpId): State
    requires o in s.ops && s.ops[o].pc.Marking?
  {
    var pc := s.ops[o].pc;
    if s.intent.Some? && s.intent.value.attempt == s.ops[o].grant
    then Goto(s.(intent := Some(s.intent.value.(token := Some(pc.token))), durable := s.durable + {pc.token}), o,
              if pc.valid then Committing(pc.token) else Abandoning(pc.token, Failed))
    else Goto(s, o, Abandoning(pc.token, Failed))
  }

  function GrantOf(t: Option<Token>): Option<GrantId> {
    match t
    case None => None
    case Some(u) => Some(u.grant)
  }

  /** commitSignIn up to its session write. */
  function ApplyCommitWrite(s: State, o: OpId): State
    requires o in s.ops && s.ops[o].pc.Committing?
  {
    var pc := s.ops[o].pc;
    if s.ops[o].attempt != s.attempt || GrantOf(s.session) != GrantOf(s.ops[o].previous)
    then Goto(s, o, Abandoning(pc.token, Failed))
    else Goto(s.(session := Some(pc.token), durable := s.durable + {pc.token}, lock := Some(o)), o,
              CommitWrote(pc.token, s.session))
  }

  /**
   * commitSignIn after its session write: put the previous session back, or
   * clear the intent. No run ever puts it back (CapacitorTheorems.RestoreIsNeverNeeded).
   */
  function ApplyCommitFinish(s: State, o: OpId, renewNow: bool): State
    requires o in s.ops && s.ops[o].pc.CommitWrote?
  {
    var pc := s.ops[o].pc;
    if s.ops[o].attempt != s.attempt
    then Goto(s.(session := pc.previous, lock := None), o, Abandoning(pc.token, Failed))
    else
      var s1 := ClearIntent(s.(lock := None, epoch := s.epoch + 1), s.ops[o].grant);
      var s2 := s1.(ops := s1.ops[o := s1.ops[o].(epoch := s1.epoch)]);
      if pc.previous.Some? && pc.previous.value.grant != pc.token.grant
      then Goto(s2, o, Abandoning(pc.previous.value, Replaced))
      else AfterCommit(s2, o, renewNow)
  }

  function ApplyClearOwn(s: State, o: OpId): State
    requires o in s.ops && s.ops[o].pc.Clearing?
  {
    var s1 := ClearIntent(s, s.ops[o].grant);
    if s.ops[o].pc.exchanged then Goto(s1, o, Checking) else SignInOver(s1, o)
  }

  /** A superseded sign-in revokes the previous session it was to replace, once that is no longer stored. */
  function ApplyCheckPrevious(s: State, o: OpId, superseded: bool): State
    requires o in s.ops && s.ops[o].pc.Checking?
  {
    var previous := s.ops[o].previous;
    if superseded && previous.Some? && GrantOf(s.session) != GrantOf(previous)
    then Goto(s, o, Abandoning(previous.value, Previous))
    else SignInOver(s, o)
  }

  function ApplyAbandon(s: State, o: OpId, reply: RevokeReply, renewNow: bool): State
    requires o in s.ops && s.ops[o].pc.Abandoning? && s.ops[o].pc.token.grant in s.server
  {
    var pc := s.ops[o].pc;
    var s1 := s.(server := AfterRevoke(s.server, pc.token, reply));
    if reply.Settled? then Abandoned(s1, o, pc.why, true, renewNow) else Goto(s1, o, Recording(pc.token, pc.why))
  }

  function ApplyRecord(s: State, o: OpId, now: nat, expiresAt: nat, renewNow: bool): State
    requires o in s.ops && s.ops[o].pc.Recording?
  {
    var pc := s.ops[o].pc;
    Abandoned(Append(s, pc.token, now, expiresAt), o, pc.why, false, renewNow)
  }

  function ApplyRead(s: State, o: OpId): State
    requires o in s.ops && s.ops[o].pc.Reading?
  {
    if s.ops[o].epoch == s.epoch && s.session.Some? then Goto(s, o, Requesting(s.session.value))
    else RenewalFails(s, o)
  }

  function ApplyRenew(s: State, o: OpId, reply: RenewReply): State
    requires o in s.ops && s.ops[o].pc.Requesting? && s.ops[o].pc.using.grant in s.server
    requires reply.Renewed? || reply.RefusedTerminal? || reply.RotationLost? ==> Honoured(s.server, s.ops[o].pc.using)
  {
    var using := s.ops[o].pc.using;
    match reply
    case Renewed(valid) => Goto(s.(server := Rotate(s.server, using)), o, Writing(using, Next(using), valid))
    case RefusedTerminal => Goto(s.(server := Rotate(s.server, using)), o, Wiping(using, Some(Next(using))))
    case RotationLost => RenewalFails(s.(server := Rotate(s.server, using)), o)
    case Declined(conflict) => if conflict then Goto(s, o, Reading) else RenewalFails(s, o)
    case GrantDead => Goto(s.(server := Kill(s.server, using.grant)), o, Wiping(using, None))
  }

  /** write(): the epoch and the exact token the renewal used must still be current. */
  function ApplyWrite(s: State, o: OpId): State
    requires o in s.ops && s.ops[o].pc.Writing?
  {
    var pc := s.ops[o].pc;
    if s.ops[o].epoch == s.epoch && s.session == Some(pc.using)
    then Goto(s.(session := Some(pc.token), durable := s.durable + {pc.token}), o, Written(pc.token, pc.valid))
    else Goto(s, o, Abandoning(pc.token, Rotated))
  }

  function ApplyAfterWrite(s: State, o: OpId): State
    requires o in s.ops && s.ops[o].pc.Written?
  {
    var pc := s.ops[o].pc;
    if s.ops[o].epoch != s.epoch then Goto(s, o, Abandoning(pc.token, Rotated))
    else if pc.valid then Goto(s, o, Done)
    else RenewalFails(s, o)
  }

  function ApplyWipe(s: State, o: OpId): State
    requires o in s.ops && s.ops[o].pc.Wiping?
  {
    var pc := s.ops[o].pc;
    if s.ops[o].epoch == s.epoch && s.session == Some(pc.using)
    then Goto(s.(session := None, epoch := s.epoch + 1), o, Abandoning(pc.using, Terminal(pc.rotated)))
    else if pc.rotated.Some? then Goto(s, o, Abandoning(pc.rotated.value, Rotated))
    else RenewalFails(s, o)
  }

  function ApplyWipeOwn(s: State, o: OpId): State
    requires o in s.ops && s.ops[o].pc.WipingOwn?
  {
    if s.ops[o].epoch == s.epoch && s.session.Some? && s.session.value.grant == s.ops[o].grant
    then Goto(s.(session := None), o, Abandoning(s.session.value, Wiped))
    else Goto(s, o, Done)
  }

  function ApplyOutRead(s: State, o: OpId): State
    requires o in s.ops && s.ops[o].pc.OutReading?
  {
    var s1 := if s.ops[o].pc.started then s else s.(attempt := s.attempt + 1, epoch := s.epoch + 1);
    match s.session
    case None => Goto(s1, o, OutWiping(None))
    case Some(t) => Goto(s1, o, OutRevoking(t))
  }

  function ApplyOutRevoke(s: State, o: OpId, reply: RevokeReply): State
    requires o in s.ops && s.ops[o].pc.OutRevoking? && s.ops[o].pc.token.grant in s.server
  {
    var t := s.ops[o].pc.token;
    Goto(s.(server := AfterRevoke(s.server, t, reply)), o,
         if reply.Settled? then OutWiping(Some(t)) else OutRecording(t))
  }

  function ApplyOutRecord(s: State, o: OpId, now: nat, expiresAt: nat): State
    requires o in s.ops && s.ops[o].pc.OutRecording?
  {
    Goto(Append(s, s.ops[o].pc.token, now, expiresAt), o, OutWiping(Some(s.ops[o].pc.token)))
  }

  /** The record is removed only if it is still the one just revoked; otherwise the sign-out goes round again. */
  function ApplyOutWipe(s: State, o: OpId): State
    requires o in s.ops && s.ops[o].pc.OutWiping?
  {
    if s.session == s.ops[o].pc.expected then Goto(s.(session := None), o, Done)
    else Goto(s, o, OutReading(true))
  }

  /** retryExchangeIntentOnce up to its first request: a committed session or a dead token only clears. */
  function ApplyIntentRead(s: State, o: OpId, now: nat): State
    requires o in s.ops && s.ops[o].pc.IntentReading?
  {
    if s.intent.None? || s.intent.value.attempt in s.active then Goto(s, o, PassReading)
    else
      var intent := s.intent.value;
      if intent.token.None? then Goto(s, o, IntentClearing(intent.attempt))
      else if GrantOf(s.session) == Some(intent.attempt) then Goto(s, o, IntentClearing(intent.attempt))
      else if now >= intent.expiresAt then Goto(s.(dropped := s.dropped + {intent.token.value}), o, IntentClearing(intent.attempt))
      else Goto(s, o, IntentRevoking(intent.attempt, intent.token.value, intent.expiresAt))
  }

  function ApplyIntentRevoke(s: State, o: OpId, reply: RevokeReply): State
    requires o in s.ops && s.ops[o].pc.IntentRevoking? && s.ops[o].pc.token.grant in s.server
  {
    var pc := s.ops[o].pc;
    Goto(s.(server := AfterRevoke(s.server, pc.token, reply)), o,
         if reply.Settled? then IntentClearing(pc.attempt) else IntentRecording(pc.attempt, pc.token, pc.expiresAt))
  }

  function ApplyIntentRecord(s: State, o: OpId, now: nat): State
    requires o in s.ops && s.ops[o].pc.IntentRecording?
  {
    var pc := s.ops[o].pc;
    Goto(Append(s, pc.token, now, pc.expiresAt), o, IntentClearing(pc.attempt))
  }

  function ApplyIntentClear(s: State, o: OpId): State
    requires o in s.ops && s.ops[o].pc.IntentClearing?
  {
    Goto(ClearIntent(s, s.ops[o].pc.attempt), o, PassReading)
  }

  function ApplyPassRead(s: State, o: OpId): State
    requires o in s.ops && s.ops[o].pc.PassReading?
  {
    if s.pending == [] then Goto(s, o, Done) else Goto(s, o, Passing(s.pending, 0, {}, map[]))
  }

  function ApplyPassEntry(s: State, o: OpId, now: nat, reply: RevokeReply): State
    requires o in s.ops && s.ops[o].pc.Passing? && s.ops[o].pc.k < |s.ops[o].pc.snapshot|
    requires s.ops[o].pc.snapshot[s.ops[o].pc.k].token.grant in s.server
  {
    var pc := s.ops[o].pc;
    var e := pc.snapshot[pc.k];
    var asked := now < e.expiresAt && e.attempts < PR.MAX_REVOKE_ATTEMPTS;
    var s1 := if asked then s.(server := AfterRevoke(s.server, e.token, reply)) else s;
    match PR.Judge(e, now, reply.Transient?)
    case Done => Goto(s1, o, pc.(k := pc.k + 1, done := pc.done + {e.token}))
    case Dropped => Goto(s1.(dropped := s.dropped + {e.token}), o, pc.(k := pc.k + 1, done := pc.done + {e.token}))
    case Kept(n) => Goto(s1, o, pc.(k := pc.k + 1, bumped := pc.bumped[e.token := n]))
  }

  ghost function ExpiredTokens(entries: seq<PR.Entry>, now: nat): set<Token> {
    set i | 0 <= i < |entries| && now >= entries[i].expiresAt :: entries[i].token
  }

  /** The write-back also drops what has expired since. */
  ghost function ApplyPassWrite(s: State, o: OpId, now: nat): State
    requires o in s.ops && s.ops[o].pc.Passing?
  {
    var pc := s.ops[o].pc;
    if pc.done == {} && pc.bumped == map[] then Goto(s, o, Done)
    else
      var expired := ExpiredTokens(s.pending, now);
      Goto(s.(pending := PR.Merge(s.pending, pc.done + expired, pc.bumped), dropped := s.dropped + expired), o, Done)
  }

  /** The token whose only copy is in the operation's memory, between leaving the session record and being settled. */
  function Window(pc: Pc): Option<Token> {
    match pc
    case CommitWrote(_, previous) => previous
    case Abandoning(t, why) => if why.Replaced? || why.Wiped? then Some(t) else None
    case Recording(t, why) => if why.Replaced? || why.Wiped? then Some(t) else None
    case _ => None
  }

  ghost predicate InWindow(s: State, t: Token) {
    exists o :: o in s.ops && Window(s.ops[o].pc) == Some(t)
  }

  /** A token is in one of the three records of the store. */
  predicate InRecords(s: State, t: Token) {
    s.session == Some(t) || PR.Contains(s.pending, t) || (s.intent.Some? && s.intent.value.token == Some(t))
  }

  /** What the store is to keep and does not: it was durable, the server honours it, no retry dropped it, and no record has it. */
  ghost function Forgotten(s: State): set<Token> {
    set t | t in s.durable && Honoured(s.server, t) && t !in s.dropped && !InRecords(s, t)
  }

  /** The process stops: memory goes, the store and the server remain. */
  ghost function ApplyCrash(s: State): State {
    s.(epoch := 0, attempt := 0, active := {}, lock := None, ops := map[], lost := s.lost + Forgotten(s))
  }

  ghost function Apply(s: State, step: Step): State
    requires Enabled(s, step)
  {
    match step
    case StartSignIn(o, g) => ApplyStartSignIn(s, o, g)
    case StartRenewal(o) => Begin(s, o, Renewal, 0, Reading)
    case StartSignOut(o) => Begin(s, o, SignOut, 0, OutReading(false))
    case StartPass(o) => Begin(s, o, Pass, 0, IntentReading)
    case SignInEnds(o) => Goto(s, o, Done)
    case JoinPass(o, p) => Goto(s, o, Waiting(p))
    case PassJoined(o) => Goto(s, o, ReadingPrevious)
    case ReadPrevious(o) => ApplyReadPrevious(s, o)
    case WriteIntent(o, expiresAt) => ApplyWriteIntent(s, o, expiresAt)
    case ExchangeFails(o, created) => ApplyExchangeFails(s, o, created)
    case Exchange(o, valid) => ApplyExchange(s, o, valid)
    case Mark(o) => ApplyMark(s, o)
    case CommitRefused(o) => Goto(s, o, Abandoning(s.ops[o].pc.token, Failed))
    case CommitWrite(o) => ApplyCommitWrite(s, o)
    case CommitFinish(o, renewNow) => ApplyCommitFinish(s, o, renewNow)
    case ClearOwn(o) => ApplyClearOwn(s, o)
    case CheckPrevious(o, superseded) => ApplyCheckPrevious(s, o, superseded)
    case Abandon(o, reply, renewNow) => ApplyAbandon(s, o, reply, renewNow)
    case Record(o, now, expiresAt, renewNow) => ApplyRecord(s, o, now, expiresAt, renewNow)
    case Read(o) => ApplyRead(s, o)
    case Renew(o, reply) => ApplyRenew(s, o, reply)
    case Write(o) => ApplyWrite(s, o)
    case AfterWrite(o) => ApplyAfterWrite(s, o)
    case Wipe(o) => ApplyWipe(s, o)
    case WipeOwn(o) => ApplyWipeOwn(s, o)
    case OutRead(o) => ApplyOutRead(s, o)
    case OutRevoke(o, reply) => ApplyOutRevoke(s, o, reply)
    case OutRecord(o, now, expiresAt) => ApplyOutRecord(s, o, now, expiresAt)
    case OutWipe(o) => ApplyOutWipe(s, o)
    case IntentRead(o, now) => ApplyIntentRead(s, o, now)
    case IntentRevoke(o, reply) => ApplyIntentRevoke(s, o, reply)
    case IntentRecord(o, now) => ApplyIntentRecord(s, o, now)
    case IntentClear(o) => ApplyIntentClear(s, o)
    case PassRead(o) => ApplyPassRead(s, o)
    case PassEntry(o, now, reply) => ApplyPassEntry(s, o, now, reply)
    case PassWrite(o, now) => ApplyPassWrite(s, o, now)
    case ServerKills(g) => s.(server := Kill(s.server, g))
    case Crash => ApplyCrash(s)
  }

  ghost predicate IsRun(states: seq<State>, steps: seq<Step>) {
    && |states| == |steps| + 1
    && states[0] == Init
    && forall i :: 0 <= i < |steps| ==> Enabled(states[i], steps[i]) && states[i + 1] == Apply(states[i], steps[i])
  }
}
