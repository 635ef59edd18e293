/** What every step of the Capacitor SDK keeps, a stop of the process included. */
module CapacitorInvariant {
  import opened Wrappers
  import opened GrantServer
  import opened CapacitorProtocol
  import PR = PendingRevokes

  // ---- where a token is safe ----

  /** `t` is in the session record or the pending-revoke record, or was dropped from the latter. */
  predicate Placed(s: State, t: Token) {
    s.session == Some(t) || PR.Contains(s.pending, t) || t in s.dropped
  }

  predicate InIntent(s: State, t: Token) {
    s.intent.Some? && s.intent.value.token == Some(t)
  }

  /** `t` does not need the exchange intent. */
  ghost predicate Kept(s: State, t: Token) {
    !Honoured(s.server, t) || Placed(s, t) || InWindow(s, t) || t in s.lost
  }

  /** The intent holds nothing that would be lost with it. */
  ghost predicate IntentKept(s: State) {
    s.intent.Some? && s.intent.value.token.Some? ==> Kept(s, s.intent.value.token.value)
  }

  /** So does an intent no running sign-in owns, unless it is `exception`. */
  ghost predicate LeftoverKept(s: State, exception: Option<Intent>) {
    s.intent.Some? && s.intent.value.attempt !in s.active && s.intent != exception ==> IntentKept(s)
  }

  // ---- the invariant ----

  /** The server issued `t`. */
  predicate Known(s: State, t: Token) {
    t.grant in s.server && t.version <= s.server[t.grant].current
  }

  ghost predicate StoreOk(s: State) {
    && (forall g :: g in s.server ==> g in s.tried)
    && s.active <= s.tried
    && (forall t :: t in s.durable ==> Known(s, t))
    && (forall i :: 0 <= i < |s.pending| ==> Known(s, s.pending[i].token))
    && (s.session.Some? ==> s.session.value in s.durable)
    && (s.intent.Some? ==> s.intent.value.attempt in s.tried)
    && (s.intent.Some? && s.intent.value.token.Some? ==>
          s.intent.value.token.value == Token(s.intent.value.attempt, 0) && s.intent.value.token.value in s.durable)
    && (s.lock.Some? ==> s.lock.value in s.ops && s.ops[s.lock.value].pc.CommitWrote?)
  }

  /** Between adding the attempt to `activeIntents` and taking it out. */
  predicate ActivePc(pc: Pc) {
    match pc
    case Exchanging => true
    case Marking(_, _) => true
    case Committing(_) => true
    case CommitWrote(_, _) => true
    case Clearing(_) => true
    case Checking => true
    case Abandoning(_, why) => why.Failed? || why.Previous? || why.Replaced?
    case Recording(_, why) => why.Failed? || why.Previous? || why.Replaced?
    case _ => false
  }

  predicate PreActive(pc: Pc) {
    pc.Starting? || pc.Waiting? || pc.ReadingPrevious? || pc.Authorizing?
  }

  ghost predicate SignInsOk(s: State) {
    && (forall o, p | In(s, o, SignIn) && In(s, p, SignIn) :: o == p)
    && (forall g :: g in s.active ==> exists o :: o in s.ops && ActivePc(s.ops[o].pc) && s.ops[o].grant == g)
  }

  predicate IntentIs(s: State, g: GrantId, token: Option<Token>) {
    s.intent.Some? && s.intent.value.attempt == g && s.intent.value.token == token
  }

  /** The operation owns the intent, holding `token`, and nothing of its grant is stored yet. */
  predicate Own(s: State, op: Op, token: Option<Token>) {
    IntentIs(s, op.grant, token) && GrantOf(s.session) != Some(op.grant)
  }

  /** Grant `g` is not the session's, nor about to be put back as the session. */
  ghost predicate NotSession(s: State, g: GrantId) {
    && GrantOf(s.session) != Some(g)
    && forall o :: o in s.ops && s.ops[o].pc.CommitWrote? ==> GrantOf(s.ops[o].pc.previous) != Some(g)
  }

  ghost predicate AbandonOk(s: State, op: Op, t: Token, why: Why) {
    match why
    case Failed => IntentIs(s, op.grant, Some(t))
    case Previous => IntentKept(s)
    case Replaced => t in s.durable && t.grant != op.grant && GrantOf(s.session) != Some(t.grant) && s.intent == None
    case Wiped => t in s.durable && GrantOf(s.session) != Some(t.grant) && s.intent == None
    case Rotated => op.kind == SignIn ==> s.intent == None
    case Terminal(rotated) =>
      (rotated.Some? ==> Known(s, rotated.value)) && (op.kind == SignIn ==> s.intent == None)
  }

  predicate PcKind(pc: Pc, kind: Kind) {
    match pc
    case Done => true
    case OutReading(_) => kind == SignOut
    case OutRevoking(_) => kind == SignOut
    case OutRecording(_) => kind == SignOut
    case OutWiping(_) => kind == SignOut
    case IntentReading => kind == Pass
    case IntentRevoking(_, _, _) => kind == Pass
    case IntentRecording(_, _, _) => kind == Pass
    case IntentClearing(_) => kind == Pass
    case PassReading => kind == Pass
    case Passing(_, _, _, _) => kind == Pass
    case _ => if PreActive(pc) || ActivePc(pc) || Window(pc).Some? then kind == SignIn else kind == SignIn || kind == Renewal
  }

  /** A grant an operation stopped asking the server to keep: dead, or in the pending-revoke record, or dropped from it. */
  predicate LetGo(s: State, t: Token) {
    !Honoured(s.server, t) || PR.Contains(s.pending, t) || t in s.dropped
  }

  ghost predicate PcOk(s: State, o: OpId)
    requires o in s.ops
  {
    var op := s.ops[o];
    match op.pc
    case Starting => true
    case Waiting(p) => In(s, p, Pass) || LeftoverKept(s, None)
    case ReadingPrevious => LeftoverKept(s, None)
    case Authorizing => LeftoverKept(s, None)
    case Exchanging => Own(s, op, None)
    case Marking(t, _) => Own(s, op, None) && t == Token(op.grant, 0) && op.grant in s.server
    case Committing(t) => Own(s, op, Some(t))
    case CommitWrote(t, previous) =>
      && IntentIs(s, op.grant, Some(t))
      && s.session == Some(t) && s.lock == Some(o)
      && (previous.Some? ==> previous.value in s.durable && previous.value.grant != op.grant)
    case Clearing(exchanged) =>
      && s.intent.Some? && s.intent.value.attempt == op.grant && s.intent.value.token.Some? == exchanged
      && (exchanged ==> !Honoured(s.server, s.intent.value.token.value))
    case Checking => IntentKept(s)
    case Abandoning(t, why) => Known(s, t) && AbandonOk(s, op, t, why)
    case Recording(t, why) => Known(s, t) && AbandonOk(s, op, t, why)
    case Requesting(using) => using in s.durable && (op.kind == SignIn ==> s.intent == None)
    case Writing(using, t, _) =>
      && using in s.durable && !Honoured(s.server, using)
      && t == Next(using) && Known(s, t)
      && (op.kind == SignIn ==> s.intent == None)
    case Wiping(using, rotated) =>
      && using in s.durable && !Honoured(s.server, using)
      && (rotated.Some? ==> Known(s, rotated.value))
      && (op.kind == SignIn ==> s.intent == None)
    case Reading => op.kind == SignIn ==> s.intent == None
    case Written(t, _) => Known(s, t) && (op.kind == SignIn ==> s.intent == None)
    case WipingOwn => op.kind == SignIn && s.intent == None
    case OutRevoking(t) => t in s.durable
    case OutRecording(t) => t in s.durable
    case OutWiping(expected) => expected.Some? ==> expected.value in s.durable && LetGo(s, expected.value)
    case IntentRevoking(g, t, expiresAt) =>
      g in s.tried && g !in s.active && t == Token(g, 0) && t in s.durable && NotSession(s, g)
      && LeftoverKept(s, Some(Intent(g, Some(t), expiresAt)))
    case IntentRecording(g, t, expiresAt) =>
      g in s.tried && g !in s.active && t == Token(g, 0) && t in s.durable && NotSession(s, g)
      && LeftoverKept(s, Some(Intent(g, Some(t), expiresAt)))
    case IntentClearing(g) => g in s.tried && g !in s.active && LeftoverKept(s, None)
    case PassReading => LeftoverKept(s, None)
    case Passing(snapshot, _, done, _) =>
      && LeftoverKept(s, None)
      && (forall i :: 0 <= i < |snapshot| ==> Known(s, snapshot[i].token))
      && (forall t :: t in done ==> Known(s, t) && (!Honoured(s.server, t) || t in s.dropped))
    case _ => true
  }

  ghost predicate OpOk(s: State, o: OpId)
    requires o in s.ops
  {
    var op := s.ops[o];
    && PcKind(op.pc, op.kind)
    && (PreActive(op.pc) ==> op.grant !in s.tried)
    && (ActivePc(op.pc) ==> op.grant in s.active)
    && (op.previous.Some? ==> Known(s, op.previous.value))
    && PcOk(s, o)
  }

  ghost predicate OpsOk(s: State) {
    forall o :: o in s.ops ==> OpOk(s, o)
  }

  /** Crash safety: a token once durable that the server honours is still in the store, or in one known window. */
  ghost predicate Safe(s: State) {
    forall t :: t in s.durable ==> Kept(s, t) || InIntent(s, t)
  }

  ghost predicate Inv(s: State) {
    StoreOk(s) && SignInsOk(s) && OpsOk(s) && Safe(s)
  }

  lemma InitInv()
    ensures Inv(Init)
  {
  }
}
