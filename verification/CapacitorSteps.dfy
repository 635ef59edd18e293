/**
 * Every step of the Capacitor SDK keeps the invariant.
 *
 * A step moves one operation and changes some of the store. The proof of each
 * has two sides. What other operations rely on must survive: no token they
 * hold becomes unguarded, and nothing appears in the exchange intent behind
 * their back (`OutsideFrame` for a step of a renewal, a sign-out or a pass,
 * `SignInFrame` for a step of the one running sign-in). And the operation
 * itself must be careful with what it takes out of the store (`Careful`): a
 * token that leaves the session record, the intent or the pending revokes is
 * by then no longer honoured, is in another record, or opens one of the two
 * windows.
 *
 * The windows open in two places only: a commit moves the replaced session's
 * token to memory, and a sign-in whose immediate renewal failed wipes its own
 * session. They close when the revoke is settled or recorded.
 */
module CapacitorSteps {
  import opened Wrappers
  import opened GrantServer
  import opened CapacitorProtocol
  import opened CapacitorInvariant
  import PR = PendingRevokes

  // ---- what one operation's step may do to the others ----

  ghost predicate Frame(s: State, s': State, o: OpId) {
    && o in s'.ops && s'.ops == s.ops[o := s'.ops[o]]
    && (o in s.ops ==> s'.ops[o].kind == s.ops[o].kind && s'.ops[o].grant == s.ops[o].grant)
    && Evolves(s.server, s'.server)
    && s.durable <= s'.durable && s.tried <= s'.tried && s.dropped <= s'.dropped && s.lost == s'.lost
    && (forall t :: t in s.durable && LetGo(s, t) ==> LetGo(s', t))
    && (forall t :: t in s.durable && Kept(s, t) ==> Kept(s', t) || HalfCommitted(s, o, t))
    && (forall exception :: LeftoverKept(s, exception) ==> LeftoverKept(s', exception))
    && (IntentKept(s) && (s'.intent == s.intent || s'.intent == None) && !IsHalfCommitted(s, o) ==> IntentKept(s'))
  }

  /** The token a half-done commitSignIn may still take back out of the session record. */
  predicate HalfCommitted(s: State, o: OpId, t: Token) {
    o in s.ops && s.ops[o].pc.CommitWrote? && s.ops[o].pc.token == t
  }

  predicate IsHalfCommitted(s: State, o: OpId) {
    o in s.ops && s.ops[o].pc.CommitWrote?
  }

  /** A step of an operation that is not a sign-in. */
  ghost predicate OutsideFrame(s: State, s': State, o: OpId) {
    && Frame(s, s', o) && s'.ops[o].kind != SignIn
    && s'.active == s.active && s'.tried == s.tried && s'.lock == s.lock
    && (s'.intent == s.intent || (s'.intent == None && s.intent.value.attempt !in s.active))
    && (GrantOf(s'.session) == GrantOf(s.session) || GrantOf(s'.session) == None)
    && (s.lock.Some? ==> s'.session == s.session && s'.intent == s.intent)
    && (!s'.ops[o].pc.CommitWrote?)
  }

  /** A step of the running sign-in. */
  ghost predicate SignInFrame(s: State, s': State, o: OpId) {
    && Frame(s, s', o) && s'.ops[o].kind == SignIn
    && (forall g :: g in s'.active && g !in s.active ==> g == s'.ops[o].grant && g !in s.tried)
    && (GrantOf(s'.session) == GrantOf(s.session) || GrantOf(s'.session) == None
        || (GrantOf(s'.session) == Some(s'.ops[o].grant) && s'.ops[o].grant in s.active)
        || (IsHalfCommitted(s, o) && s'.session == s.ops[o].pc.previous))
    && (s'.ops[o].pc.CommitWrote? ==> s'.ops[o].pc.previous == s.session)
  }

  /** A sign-in sees another operation's step. */
  lemma SignInUndisturbed(s: State, s': State, o: OpId, p: OpId)
    requires StoreOk(s) && SignInsOk(s) && OutsideFrame(s, s', o)
    requires o in s.ops ==> OpOk(s, o)
    requires p in s.ops && p != o && OpOk(s, p) && s.ops[p].kind == SignIn
    requires forall q :: In(s, q, Pass) && q != o ==> In(s', q, Pass)
    requires In(s, o, Pass) && !In(s', o, Pass) ==> LeftoverKept(s, None)
    ensures OpOk(s', p)
  {
    forall t | Known(s, t) && !Honoured(s.server, t)
      ensures !Honoured(s'.server, t)
    {
      NotHonouredIsForever(s.server, s'.server, t);
    }
    if s.ops[p].pc.CommitWrote? {
      assert s.lock == Some(p);
    }
  }

  /** Any other operation sees a step. */
  lemma OutsiderUndisturbed(s: State, s': State, o: OpId, p: OpId)
    requires StoreOk(s) && (OutsideFrame(s, s', o) || SignInFrame(s, s', o))
    requires o in s.ops ==> OpOk(s, o)
    requires p in s.ops && p != o && OpOk(s, p) && s.ops[p].kind != SignIn
    ensures OpOk(s', p)
  {
    forall t | Known(s, t) && !Honoured(s.server, t)
      ensures !Honoured(s'.server, t)
    {
      NotHonouredIsForever(s.server, s'.server, t);
    }
  }

  // ---- putting a step together ----

  lemma WindowStays(s: State, s': State, o: OpId, t: Token)
    requires forall p :: p in s.ops && p != o ==> p in s'.ops && s'.ops[p] == s.ops[p]
    requires InWindow(s, t) && !(o in s.ops && Window(s.ops[o].pc) == Some(t))
    ensures InWindow(s', t)
  {
    var p :| p in s.ops && Window(s.ops[p].pc) == Some(t);
    assert p in s'.ops && Window(s'.ops[p].pc) == Some(t);
  }

  /** What operation `o`'s step owes the tokens and the intent. */
  ghost predicate Careful(s: State, s': State, o: OpId) {
    && o in s'.ops && s'.ops == s.ops[o := s'.ops[o]]
    && (o in s.ops ==> s'.ops[o].kind == s.ops[o].kind && s'.ops[o].grant == s.ops[o].grant)
    && Evolves(s.server, s'.server)
    && s.durable <= s'.durable && s.tried <= s'.tried && s.dropped <= s'.dropped && s.lost == s'.lost
    && (forall t :: Known(s, t) && Honoured(s'.server, t) && PR.Contains(s.pending, t) ==>
          PR.Contains(s'.pending, t) || t in s'.dropped)
    && (s.session.Some? && s'.session != s.session && !HalfCommitted(s, o, s.session.value) ==> Kept(s', s.session.value))
    && (o in s.ops && Window(s.ops[o].pc).Some? ==> Kept(s', Window(s.ops[o].pc).value))
    && (IntentKept(s') ||
        (s.active <= s'.active && (s'.intent == s.intent || s'.intent.value.attempt in s'.active)))
  }

  lemma CarefulKeeps(s: State, s': State, o: OpId, t: Token)
    requires StoreOk(s) && Careful(s, s', o) && t in s.durable
    ensures LetGo(s, t) ==> LetGo(s', t)
    ensures Kept(s, t) ==> Kept(s', t) || HalfCommitted(s, o, t)
  {
    if !Honoured(s.server, t) {
      NotHonouredIsForever(s.server, s'.server, t);
    }
    if InWindow(s, t) && !(o in s.ops && Window(s.ops[o].pc) == Some(t)) {
      WindowStays(s, s', o, t);
    }
  }

  lemma CarefulFrames(s: State, s': State, o: OpId)
    requires StoreOk(s) && OpsOk(s) && SignInsOk(s) && Careful(s, s', o)
    requires IsHalfCommitted(s, o) ==> s.ops[o].grant in s.active
    ensures Frame(s, s', o)
  {
    forall t | t in s.durable
      ensures LetGo(s, t) ==> LetGo(s', t)
      ensures Kept(s, t) ==> Kept(s', t) || HalfCommitted(s, o, t)
    {
      CarefulKeeps(s, s', o, t);
    }
    if IsHalfCommitted(s, o) {
      assert OpOk(s, o);
    }
  }

  /** No token is lost by the step, and a newly durable one is in the store. */
  ghost predicate Saves(s: State, s': State, o: OpId) {
    && (forall t :: InIntent(s, t) && !InIntent(s', t) ==> Kept(s', t))
    && (forall t :: t in s'.durable && t !in s.durable ==> Placed(s', t) || InIntent(s', t))
    && (forall t :: HalfCommitted(s, o, t) ==> Kept(s', t) || InIntent(s', t))
  }

  lemma SavesSafe(s: State, s': State, o: OpId)
    requires StoreOk(s) && Safe(s) && Careful(s, s', o) && Saves(s, s', o)
    ensures Safe(s')
  {
    forall t | t in s'.durable
      ensures Kept(s', t) || InIntent(s', t)
    {
      if t in s.durable {
        CarefulKeeps(s, s', o, t);
      }
    }
  }

  /** A pass that ends leaves no unguarded intent behind. */
  ghost predicate EndsClean(s: State, s': State, o: OpId) {
    In(s, o, Pass) && !In(s', o, Pass) ==> LeftoverKept(s, None)
  }

  /** What a step of an operation that is not a sign-in may do to the store and the attempts in progress. */
  ghost predicate OutsideMoves(s: State, s': State, o: OpId) {
    && o in s'.ops && s'.ops[o].kind != SignIn
    && s'.active == s.active && s'.tried == s.tried && s'.lock == s.lock
    && (s'.intent == s.intent || (s'.intent == None && s.intent.value.attempt !in s.active))
    && (GrantOf(s'.session) == GrantOf(s.session) || GrantOf(s'.session) == None)
    && (s.lock.Some? ==> s'.session == s.session && s'.intent == s.intent)
  }

  /** A step of an operation that is not a sign-in. */
  lemma OutsideKeeps(s: State, s': State, o: OpId)
    requires Inv(s) && Careful(s, s', o) && Saves(s, s', o) && StoreOk(s') && OpOk(s', o) && EndsClean(s, s', o)
    requires OutsideMoves(s, s', o)
    ensures Inv(s')
  {
    assert o in s.ops ==> OpOk(s, o);
    CarefulFrames(s, s', o);
    SavesSafe(s, s', o);
    forall p | p in s'.ops
      ensures OpOk(s', p)
    {
      if p != o {
        if s.ops[p].kind == SignIn { SignInUndisturbed(s, s', o, p); } else { OutsiderUndisturbed(s, s', o, p); }
      }
    }
    OutsideSignIns(s, s', o);
  }

  lemma OutsideSignIns(s: State, s': State, o: OpId)
    requires SignInsOk(s) && OpsOk(s) && o in s'.ops && s'.ops == s.ops[o := s'.ops[o]]
    requires s'.ops[o].kind != SignIn && (o in s.ops ==> s.ops[o].kind != SignIn)
    requires s'.active == s.active
    ensures SignInsOk(s')
  {
    forall p, q | In(s', p, SignIn) && In(s', q, SignIn)
      ensures p == q
    {
      assert In(s, p, SignIn) && In(s, q, SignIn);
    }
    forall g | g in s'.active
      ensures exists p :: p in s'.ops && ActivePc(s'.ops[p].pc) && s'.ops[p].grant == g
    {
      var p :| p in s.ops && ActivePc(s.ops[p].pc) && s.ops[p].grant == g;
      assert OpOk(s, p);
      assert p in s'.ops && s'.ops[p] == s.ops[p];
    }
  }

  /** What a step of the running sign-in may do to the session and the attempts in progress. */
  ghost predicate SignInMoves(s: State, s': State, o: OpId) {
    && (In(s, o, SignIn) || (o !in s.ops && !Running(s, SignIn)))
    && o in s'.ops && s'.ops[o].kind == SignIn
    && (s'.active == {} || (s'.active == {s'.ops[o].grant} && ActivePc(s'.ops[o].pc)))
    && (s'.ops[o].grant in s'.active && s'.ops[o].grant !in s.active ==> s'.ops[o].grant !in s.tried)
    && (GrantOf(s'.session) == GrantOf(s.session) || GrantOf(s'.session) == None
        || (GrantOf(s'.session) == Some(s'.ops[o].grant) && s'.ops[o].grant in s.active)
        || (IsHalfCommitted(s, o) && s'.session == s.ops[o].pc.previous))
    && (s'.ops[o].pc.CommitWrote? ==> s'.ops[o].pc.previous == s.session)
  }

  /** A step of the running sign-in. */
  lemma SignInKeeps(s: State, s': State, o: OpId)
    requires Inv(s) && Careful(s, s', o) && Saves(s, s', o) && StoreOk(s') && OpOk(s', o)
    requires SignInMoves(s, s', o)
    ensures Inv(s')
  {
    assert o in s.ops ==> OpOk(s, o);
    CarefulFrames(s, s', o);
    SavesSafe(s, s', o);
    SignInOps(s, s', o);
    SignInSignIns(s, s', o);
  }

  lemma SignInOps(s: State, s': State, o: OpId)
    requires StoreOk(s) && SignInsOk(s) && OpsOk(s) && Frame(s, s', o) && SignInMoves(s, s', o) && OpOk(s', o)
    ensures OpsOk(s')
  {
    assert SignInFrame(s, s', o);
    forall p | p in s'.ops && p != o
      ensures OpOk(s', p)
    {
      assert OpOk(s, p);
      if s.ops[p].kind == SignIn {
        assert !In(s, p, SignIn);
      } else {
        OutsiderUndisturbed(s, s', o, p);
      }
    }
  }

  lemma SignInSignIns(s: State, s': State, o: OpId)
    requires SignInsOk(s) && SignInMoves(s, s', o) && s'.ops == s.ops[o := s'.ops[o]]
    ensures SignInsOk(s')
  {
    forall p | In(s', p, SignIn)
      ensures p == o
    {
      if p != o {
        assert In(s, p, SignIn);
      }
    }
  }

  lemma ActiveIsSignIn(s: State)
    requires OpsOk(s)
    ensures forall p :: p in s.ops && ActivePc(s.ops[p].pc) ==> In(s, p, SignIn)
  {
    forall p | p in s.ops && ActivePc(s.ops[p].pc)
      ensures In(s, p, SignIn)
    {
      assert OpOk(s, p);
    }
  }

  /** While the sign-in is not between `activeIntents.add` and `.delete`, no attempt is active. */
  lemma NoneActive(s: State, o: OpId)
    requires OpsOk(s) && SignInsOk(s)
    requires (In(s, o, SignIn) && !ActivePc(s.ops[o].pc)) || !Running(s, SignIn)
    ensures s.active == {}
  {
    ActiveIsSignIn(s);
  }

  lemma OnlyActive(s: State, o: OpId)
    requires OpsOk(s) && SignInsOk(s) && o in s.ops && ActivePc(s.ops[o].pc)
    ensures s.active == {s.ops[o].grant} && In(s, o, SignIn)
  {
    assert OpOk(s, o);
    forall g | g in s.active
      ensures g == s.ops[o].grant
    {
      var p :| p in s.ops && ActivePc(s.ops[p].pc) && s.ops[p].grant == g;
      assert OpOk(s, p) && In(s, p, SignIn) && In(s, o, SignIn);
    }
  }

  // ---- steps that leave the store as it is ----

  /** Only memory, and what the server did, differs. */
  predicate SameStore(s: State, s': State) {
    s' == s.(server := s'.server, active := s'.active, epoch := s'.epoch, attempt := s'.attempt, ops := s'.ops)
  }

  ghost predicate OneOp(s: State, s': State, o: OpId) {
    && o in s.ops && o in s'.ops && s'.ops == s.ops[o := s'.ops[o]]
    && s'.ops[o].kind == s.ops[o].kind && s'.ops[o].grant == s.ops[o].grant
  }

  lemma SameStoreOk(s: State, s': State, o: OpId)
    requires StoreOk(s) && SameStore(s, s') && OneOp(s, s', o) && Evolves(s.server, s'.server)
    requires (forall g :: g in s'.server ==> g in s.tried) && s'.active <= s.tried
    requires !IsHalfCommitted(s, o)
    ensures StoreOk(s')
  {
  }

  lemma SameStoreCareful(s: State, s': State, o: OpId)
    requires SameStore(s, s') && OneOp(s, s', o) && Evolves(s.server, s'.server)
    requires !IsHalfCommitted(s, o)
    requires Window(s.ops[o].pc).Some? ==> Kept(s', Window(s.ops[o].pc).value)
    requires s.active <= s'.active || IntentKept(s')
    ensures Careful(s, s', o) && Saves(s, s', o)
  {
  }

  lemma SameStoreIntentKept(s: State, s': State, o: OpId)
    requires StoreOk(s) && SameStore(s, s') && OneOp(s, s', o) && Evolves(s.server, s'.server)
    requires Window(s.ops[o].pc).Some? ==> Kept(s', Window(s.ops[o].pc).value)
    requires IntentKept(s)
    ensures IntentKept(s')
  {
    if s.intent.Some? && s.intent.value.token.Some? {
      var t := s.intent.value.token.value;
      if !Honoured(s.server, t) {
        NotHonouredIsForever(s.server, s'.server, t);
      }
      if InWindow(s, t) && Window(s.ops[o].pc) != Some(t) {
        WindowStays(s, s', o, t);
      }
    }
  }

  // ---- operations starting, and the sign-in up to its intent ----

  lemma StartRenewalKeeps(s: State, o: OpId)
    requires Inv(s) && o !in s.ops
    ensures Inv(Begin(s, o, Renewal, 0, Reading))
  {
    OutsideKeeps(s, Begin(s, o, Renewal, 0, Reading), o);
  }

  lemma StartSignOutKeeps(s: State, o: OpId)
    requires Inv(s) && o !in s.ops && !Running(s, SignOut)
    ensures Inv(Begin(s, o, SignOut, 0, OutReading(false)))
  {
    OutsideKeeps(s, Begin(s, o, SignOut, 0, OutReading(false)), o);
  }

  lemma StartPassKeeps(s: State, o: OpId)
    requires Inv(s) && o !in s.ops && !Running(s, Pass)
    ensures Inv(Begin(s, o, Pass, 0, IntentReading))
  {
    OutsideKeeps(s, Begin(s, o, Pass, 0, IntentReading), o);
  }

  lemma StartSignInKeeps(s: State, o: OpId, g: GrantId)
    requires Inv(s) && o !in s.ops && g !in s.tried && !Running(s, SignIn)
    ensures Inv(ApplyStartSignIn(s, o, g))
  {
    NoneActive(s, o);
    SignInKeeps(s, ApplyStartSignIn(s, o, g), o);
  }

  lemma SignInEndsKeeps(s: State, o: OpId)
    requires Inv(s) && o in s.ops
    requires s.ops[o].pc.Starting? || s.ops[o].pc.ReadingPrevious? || s.ops[o].pc.Authorizing?
    ensures Inv(Goto(s, o, Pc.Done))
  {
    assert OpOk(s, o);
    NoneActive(s, o);
    SignInKeeps(s, Goto(s, o, Pc.Done), o);
  }

  lemma JoinPassKeeps(s: State, o: OpId, p: OpId)
    requires Inv(s) && o in s.ops && s.ops[o].pc.Starting? && In(s, p, Pass)
    ensures Inv(Goto(s, o, Waiting(p)))
  {
    assert OpOk(s, o);
    NoneActive(s, o);
    SignInKeeps(s, Goto(s, o, Waiting(p)), o);
  }

  lemma PassJoinedKeeps(s: State, o: OpId)
    requires Inv(s) && o in s.ops && s.ops[o].pc.Waiting? && !In(s, s.ops[o].pc.pass, Pass)
    ensures Inv(Goto(s, o, ReadingPrevious))
  {
    assert OpOk(s, o);
    NoneActive(s, o);
    SignInKeeps(s, Goto(s, o, ReadingPrevious), o);
  }

  lemma ReadPreviousKeeps(s: State, o: OpId)
    requires Inv(s) && Free(s, o) && s.ops[o].pc.ReadingPrevious?
    ensures Inv(ApplyReadPrevious(s, o))
  {
    assert OpOk(s, o);
    NoneActive(s, o);
    SignInKeeps(s, ApplyReadPrevious(s, o), o);
  }

  /** Whatever intent this overwrites holds nothing that is only there. */
  lemma WriteIntentKeeps(s: State, o: OpId, expiresAt: nat)
    requires Inv(s) && Free(s, o) && s.ops[o].pc.Authorizing?
    ensures Inv(ApplyWriteIntent(s, o, expiresAt))
  {
    var s' := ApplyWriteIntent(s, o, expiresAt);
    assert OpOk(s, o);
    NoneActive(s, o);
    forall t | InIntent(s, t)
      ensures Kept(s', t)
    {
      assert Kept(s, t);
      if InWindow(s, t) { WindowStays(s, s', o, t); }
    }
    SignInKeeps(s, s', o);
  }

  // ---- the sign-in from its intent to its commit ----

  lemma ExchangeFailsKeeps(s: State, o: OpId, created: bool)
    requires Inv(s) && o in s.ops && s.ops[o].pc.Exchanging?
    requires created ==> s.ops[o].grant !in s.server
    ensures Inv(ApplyExchangeFails(s, o, created))
  {
    var s' := ApplyExchangeFails(s, o, created);
    OnlyActive(s, o);
    ExchangeFailsOk(s, o, created);
    SameStoreOk(s, s', o);
    SameStoreCareful(s, s', o);
    SignInKeeps(s, s', o);
  }

  lemma ExchangeFailsOk(s: State, o: OpId, created: bool)
    requires o in s.ops && s.ops[o].pc.Exchanging?
    requires StoreOk(s) && OpOk(s, o)
    requires created ==> s.ops[o].grant !in s.server
    ensures OpOk(ApplyExchangeFails(s, o, created), o)
  {
  }

  lemma ExchangeKeeps(s: State, o: OpId, valid: bool)
    requires Inv(s) && o in s.ops && s.ops[o].pc.Exchanging? && s.ops[o].grant !in s.server
    ensures Inv(ApplyExchange(s, o, valid))
  {
    var s' := ApplyExchange(s, o, valid);
    OnlyActive(s, o);
    ExchangeOk(s, o, valid);
    SameStoreOk(s, s', o);
    SameStoreCareful(s, s', o);
    SignInKeeps(s, s', o);
  }

  lemma ExchangeOk(s: State, o: OpId, valid: bool)
    requires o in s.ops && s.ops[o].pc.Exchanging? && s.ops[o].grant !in s.server
    requires StoreOk(s) && OpOk(s, o)
    ensures OpOk(ApplyExchange(s, o, valid), o)
  {
  }

  lemma MarkKeeps(s: State, o: OpId)
    requires Inv(s) && Free(s, o) && s.ops[o].pc.Marking?
    ensures Inv(ApplyMark(s, o))
  {
    assert OpOk(s, o);
    OnlyActive(s, o);
    SignInKeeps(s, ApplyMark(s, o), o);
  }

  /** The replaced session's only copy moves to memory: the first window opens. */
  lemma CommitWriteKeeps(s: State, o: OpId)
    requires Inv(s) && Free(s, o) && s.ops[o].pc.Committing?
    ensures Inv(ApplyCommitWrite(s, o))
  {
    var s' := ApplyCommitWrite(s, o);
    OnlyActive(s, o);
    CommitWriteOk(s, o);
    CommitWriteCareful(s, o);
    SignInKeeps(s, s', o);
  }

  lemma CommitWriteOk(s: State, o: OpId)
    requires Free(s, o) && s.ops[o].pc.Committing?
    requires StoreOk(s) && OpOk(s, o)
    ensures OpOk(ApplyCommitWrite(s, o), o) && StoreOk(ApplyCommitWrite(s, o))
  {
  }

  lemma CommitWriteCareful(s: State, o: OpId)
    requires Free(s, o) && s.ops[o].pc.Committing?
    requires StoreOk(s) && OpOk(s, o)
    ensures Careful(s, ApplyCommitWrite(s, o), o) && Saves(s, ApplyCommitWrite(s, o), o)
  {
    var s' := ApplyCommitWrite(s, o);
    if s.session.Some? && s'.session != s.session {
      assert Window(s'.ops[o].pc) == s.session;
    }
  }

  /** The restore branch, which no run takes: the previous session is put back, the new token stays in the intent. */
  lemma CommitRestores(s: State, o: OpId, renewNow: bool)
    requires o in s.ops && s.ops[o].pc.CommitWrote?
    requires Inv(s) && s.ops[o].attempt != s.attempt
    ensures Inv(ApplyCommitFinish(s, o, renewNow))
  {
    assert OpOk(s, o);
    OnlyActive(s, o);
    SignInKeeps(s, ApplyCommitFinish(s, o, renewNow), o);
  }

  /** The intent is cleared: the window stays open only while the replaced grant is abandoned. */
  lemma CommitCompletes(s: State, o: OpId, renewNow: bool)
    requires o in s.ops && s.ops[o].pc.CommitWrote?
    requires Inv(s) && s.ops[o].attempt == s.attempt
    ensures Inv(ApplyCommitFinish(s, o, renewNow))
  {
    var s' := ApplyCommitFinish(s, o, renewNow);
    OnlyActive(s, o);
    CommitFinishShape(s, o, renewNow);
    CommitFinishOk(s, s', o);
    CommitFinishCareful(s, s', o);
    SignInKeeps(s, s', o);
  }

  ghost predicate Finished(s: State, s': State, o: OpId)
    requires o in s.ops && s.ops[o].pc.CommitWrote?
  {
    var previous := s.ops[o].pc.previous;
    && OneOp(s, s', o) && s'.ops[o].previous == s.ops[o].previous
    && s' == s.(intent := None, lock := None, active := s'.active, epoch := s'.epoch, ops := s'.ops)
    && (if previous.Some? then s'.ops[o].pc == Abandoning(previous.value, Replaced) && s'.active == s.active
        else (s'.ops[o].pc == Reading || s'.ops[o].pc == Pc.Done) && s'.active == {})
  }

  lemma CommitFinishKeeps(s: State, o: OpId, renewNow: bool)
    requires Inv(s) && o in s.ops && s.ops[o].pc.CommitWrote?
    ensures Inv(ApplyCommitFinish(s, o, renewNow))
  {
    if s.ops[o].attempt == s.attempt {
      CommitCompletes(s, o, renewNow);
    } else {
      CommitRestores(s, o, renewNow);
    }
  }

  lemma CommitFinishShape(s: State, o: OpId, renewNow: bool)
    requires o in s.ops && s.ops[o].pc.CommitWrote?
    requires s.ops[o].attempt == s.attempt
    requires OpOk(s, o) && StoreOk(s) && s.active == {s.ops[o].grant}
    ensures Finished(s, ApplyCommitFinish(s, o, renewNow), o)
  {
  }

  lemma CommitFinishOk(s: State, s': State, o: OpId)
    requires StoreOk(s) && o in s.ops && s.ops[o].pc.CommitWrote? && OpOk(s, o) && Finished(s, s', o)
    ensures OpOk(s', o) && StoreOk(s')
  {
  }

  lemma CommitFinishCareful(s: State, s': State, o: OpId)
    requires StoreOk(s) && o in s.ops && s.ops[o].pc.CommitWrote? && OpOk(s, o) && Finished(s, s', o)
    ensures Careful(s, s', o) && Saves(s, s', o)
  {
    assert Placed(s', s.ops[o].pc.token);
    if s.ops[o].pc.previous.Some? {
      assert Window(s'.ops[o].pc) == s.ops[o].pc.previous;
    }
  }

  /** The sign-in's own intent goes; what it held is no longer honoured. */
  lemma ClearOwnKeeps(s: State, o: OpId)
    requires Inv(s) && Free(s, o) && s.ops[o].pc.Clearing?
    ensures Inv(ApplyClearOwn(s, o))
  {
    var s' := ApplyClearOwn(s, o);
    OnlyActive(s, o);
    ClearOwnOk(s, o);
    ClearOwnCareful(s, o);
    SignInKeeps(s, s', o);
  }

  lemma ClearOwnOk(s: State, o: OpId)
    requires Free(s, o) && s.ops[o].pc.Clearing?
    requires StoreOk(s) && OpOk(s, o)
    ensures OpOk(ApplyClearOwn(s, o), o) && StoreOk(ApplyClearOwn(s, o))
  {
  }

  lemma ClearOwnCareful(s: State, o: OpId)
    requires Free(s, o) && s.ops[o].pc.Clearing?
    requires StoreOk(s) && OpOk(s, o)
    ensures Careful(s, ApplyClearOwn(s, o), o) && Saves(s, ApplyClearOwn(s, o), o)
  {
    assert ApplyClearOwn(s, o).intent == None;
  }

  lemma CheckPreviousKeeps(s: State, o: OpId, superseded: bool)
    requires Inv(s) && Free(s, o) && s.ops[o].pc.Checking?
    ensures Inv(ApplyCheckPrevious(s, o, superseded))
  {
    var s' := ApplyCheckPrevious(s, o, superseded);
    OnlyActive(s, o);
    assert OpOk(s, o);
    SameStoreIntentKept(s, s', o);
    SameStoreOk(s, s', o);
    SameStoreCareful(s, s', o);
    CheckPreviousOk(s, o, superseded);
    SignInKeeps(s, s', o);
  }

  lemma CheckPreviousOk(s: State, o: OpId, superseded: bool)
    requires Free(s, o) && s.ops[o].pc.Checking?
    requires OpOk(s, o)
    requires IntentKept(ApplyCheckPrevious(s, o, superseded))
    ensures OpOk(ApplyCheckPrevious(s, o, superseded), o)
  {
  }

  // ---- what the server and the pending record do on their own ----

  /** The server moves on, or pending revokes are added, settled or dropped; nothing else changes. */
  ghost predicate Onward(s: State, s': State) {
    && s' == s.(server := s'.server, pending := s'.pending, dropped := s'.dropped)
    && Evolves(s.server, s'.server) && (forall g :: g in s'.server ==> g in s.tried)
    && s.dropped <= s'.dropped
    && (forall i :: 0 <= i < |s'.pending| ==> Known(s', s'.pending[i].token))
    && (forall t :: PR.Contains(s.pending, t) ==> PR.Contains(s'.pending, t) || t in s'.dropped || !Honoured(s'.server, t))
  }

  lemma OnwardToken(s: State, s': State, t: Token)
    requires Onward(s, s') && Known(s, t)
    ensures Known(s', t)
    ensures !Honoured(s.server, t) ==> !Honoured(s'.server, t)
    ensures LetGo(s, t) ==> LetGo(s', t)
    ensures Kept(s, t) ==> Kept(s', t)
  {
    if !Honoured(s.server, t) {
      NotHonouredIsForever(s.server, s'.server, t);
    }
    if InWindow(s, t) {
      var p :| p in s.ops && Window(s.ops[p].pc) == Some(t);
      assert p in s'.ops && Window(s'.ops[p].pc) == Some(t);
    }
  }

  lemma OnwardIntent(s: State, s': State)
    requires StoreOk(s) && Onward(s, s')
    ensures IntentKept(s) ==> IntentKept(s')
    ensures forall exception :: LeftoverKept(s, exception) ==> LeftoverKept(s', exception)
  {
    if s.intent.Some? && s.intent.value.token.Some? {
      OnwardToken(s, s', s.intent.value.token.value);
    }
  }

  lemma OnwardOp(s: State, s': State, o: OpId)
    requires StoreOk(s) && Onward(s, s') && o in s.ops && OpOk(s, o)
    ensures OpOk(s', o)
  {
    OnwardIntent(s, s');
    forall t | Known(s, t)
      ensures !Honoured(s.server, t) ==> !Honoured(s'.server, t)
      ensures LetGo(s, t) ==> LetGo(s', t)
    {
      OnwardToken(s, s', t);
    }
  }

  lemma OnwardStore(s: State, s': State)
    requires StoreOk(s) && SignInsOk(s) && Onward(s, s')
    ensures StoreOk(s') && SignInsOk(s')
  {
    forall o, p | In(s', o, SignIn) && In(s', p, SignIn)
      ensures o == p
    {
      assert In(s, o, SignIn) && In(s, p, SignIn);
    }
  }

  lemma OnwardSafe(s: State, s': State)
    requires StoreOk(s) && Safe(s) && Onward(s, s')
    ensures Safe(s')
  {
    forall t | t in s'.durable
      ensures Kept(s', t) || InIntent(s', t)
    {
      OnwardToken(s, s', t);
    }
  }

  lemma OnwardKeeps(s: State, s': State)
    requires Inv(s) && Onward(s, s')
    ensures Inv(s')
  {
    OnwardStore(s, s');
    OnwardSafe(s, s');
    forall o | o in s'.ops
      ensures OpOk(s', o)
    {
      OnwardOp(s, s', o);
    }
  }

  lemma RevokeOnward(s: State, t: Token, reply: RevokeReply)
    requires StoreOk(s) && RevokeAllowed(s, t, reply)
    ensures Onward(s, s.(server := AfterRevoke(s.server, t, reply)))
    ensures reply.Settled? ==> !Honoured(AfterRevoke(s.server, t, reply), t)
  {
  }

  lemma AppendOnward(s: State, t: Token, now: nat, expiresAt: nat)
    requires StoreOk(s) && Known(s, t)
    ensures Onward(s, Append(s, t, now, expiresAt)) && LetGo(Append(s, t, now, expiresAt), t)
  {
    PR.AppendContains(s.pending, t, expiresAt);
  }

  lemma DropOnward(s: State, tokens: set<Token>)
    requires StoreOk(s)
    ensures Onward(s, s.(dropped := s.dropped + tokens))
  {
  }

  // ---- steps that only move an operation on ----

  lemma OutsideGoto(s: State, s': State, o: OpId)
    requires Inv(s) && SameStore(s, s') && OneOp(s, s', o) && s'.server == s.server && s'.active == s.active
    requires s.ops[o].kind != SignIn && OpOk(s', o) && EndsClean(s, s', o)
    ensures Inv(s')
  {
    assert OpOk(s, o);
    SameStoreOk(s, s', o);
    SameStoreCareful(s, s', o);
    OutsideKeeps(s, s', o);
  }

  lemma SignInGoto(s: State, s': State, o: OpId)
    requires Inv(s) && SameStore(s, s') && OneOp(s, s', o) && s'.server == s.server
    requires In(s, o, SignIn) && !IsHalfCommitted(s, o) && OpOk(s', o) && !s'.ops[o].pc.CommitWrote?
    requires s'.active == if ActivePc(s'.ops[o].pc) then s.active else {}
    requires s.active <= s'.active || IntentKept(s)
    requires ActivePc(s'.ops[o].pc) ==> ActivePc(s.ops[o].pc)
    requires Window(s.ops[o].pc).Some? ==> Kept(s', Window(s.ops[o].pc).value)
    ensures Inv(s')
  {
    SignInActive(s, o);
    SameStoreOk(s, s', o);
    if IntentKept(s) { SameStoreIntentKept(s, s', o); }
    SameStoreCareful(s, s', o);
    SignInKeeps(s, s', o);
  }

  lemma SignInActive(s: State, o: OpId)
    requires OpsOk(s) && SignInsOk(s) && In(s, o, SignIn)
    ensures s.active == if ActivePc(s.ops[o].pc) then {s.ops[o].grant} else {}
  {
    if ActivePc(s.ops[o].pc) { OnlyActive(s, o); } else { NoneActive(s, o); }
  }

  lemma CommitRefusedKeeps(s: State, o: OpId)
    requires Inv(s) && o in s.ops && s.ops[o].pc.Committing?
    ensures Inv(Goto(s, o, Abandoning(s.ops[o].pc.token, Failed)))
  {
    assert OpOk(s, o);
    SignInActive(s, o);
    SignInGoto(s, Goto(s, o, Abandoning(s.ops[o].pc.token, Failed)), o);
  }

  // ---- abandoning a grant ----

  /** The operation is abandoning `t`, by request or by record. */
  predicate Leaving(s: State, o: OpId, t: Token, why: Why) {
    o in s.ops && (s.ops[o].pc == Abandoning(t, why) || s.ops[o].pc == Recording(t, why))
  }

  lemma SignInAbandonedOk(s: State, o: OpId, t: Token, why: Why, settled: bool, renewNow: bool)
    requires Leaving(s, o, t, why) && OpOk(s, o) && LetGo(s, t) && ActivePc(s.ops[o].pc)
    requires settled ==> !Honoured(s.server, t)
    requires IntentKept(s) ==> IntentKept(Abandoned(s, o, why, settled, renewNow))
    ensures OpOk(Abandoned(s, o, why, settled, renewNow), o)
  {
  }

  lemma AbandonedOk(s: State, o: OpId, t: Token, why: Why, settled: bool, renewNow: bool)
    requires Leaving(s, o, t, why) && OpOk(s, o) && LetGo(s, t) && !ActivePc(s.ops[o].pc)
    requires settled ==> !Honoured(s.server, t)
    requires IntentKept(s) ==> IntentKept(Abandoned(s, o, why, settled, renewNow))
    ensures OpOk(Abandoned(s, o, why, settled, renewNow), o)
  {
  }

  lemma AbandonedShape(s: State, o: OpId, t: Token, why: Why, settled: bool, renewNow: bool)
    requires Leaving(s, o, t, why) && OpOk(s, o)
    requires s.ops[o].kind == SignIn ==> s.active == if ActivePc(s.ops[o].pc) then {s.ops[o].grant} else {}
    ensures var s' := Abandoned(s, o, why, settled, renewNow);
      && SameStore(s, s') && OneOp(s, s', o) && s'.server == s.server
      && !s'.ops[o].pc.CommitWrote?
      && (s.ops[o].kind != SignIn ==> s'.active == s.active)
      && (s.ops[o].kind == SignIn ==> s'.active == if ActivePc(s'.ops[o].pc) then s.active else {})
      && (ActivePc(s'.ops[o].pc) ==> ActivePc(s.ops[o].pc))
      && (s.active <= s'.active || IntentKept(s))
  {
  }

  lemma AbandonedKeeps(s: State, o: OpId, t: Token, why: Why, settled: bool, renewNow: bool)
    requires Inv(s) && Leaving(s, o, t, why) && LetGo(s, t)
    requires settled ==> !Honoured(s.server, t)
    ensures Inv(Abandoned(s, o, why, settled, renewNow))
  {
    var s' := Abandoned(s, o, why, settled, renewNow);
    assert OpOk(s, o);
    if s.ops[o].kind == SignIn { SignInActive(s, o); }
    AbandonedShape(s, o, t, why, settled, renewNow);
    assert LetGo(s', t);
    if IntentKept(s) { SameStoreIntentKept(s, s', o); }
    if ActivePc(s.ops[o].pc) {
      SignInAbandonedOk(s, o, t, why, settled, renewNow);
    } else {
      AbandonedOk(s, o, t, why, settled, renewNow);
    }
    if s.ops[o].kind == SignIn { SignInGoto(s, s', o); } else { OutsideGoto(s, s', o); }
  }

  lemma RecordingKeeps(s: State, o: OpId)
    requires Inv(s) && o in s.ops && s.ops[o].pc.Abandoning?
    ensures Inv(Goto(s, o, Recording(s.ops[o].pc.token, s.ops[o].pc.why)))
  {
    var s' := Goto(s, o, Recording(s.ops[o].pc.token, s.ops[o].pc.why));
    assert OpOk(s, o);
    if Window(s.ops[o].pc).Some? {
      assert Window(s'.ops[o].pc) == Window(s.ops[o].pc);
    }
    if IntentKept(s) { SameStoreIntentKept(s, s', o); }
    if s.ops[o].kind == SignIn {
      SignInActive(s, o);
      SignInGoto(s, s', o);
    } else {
      OutsideGoto(s, s', o);
    }
  }

  lemma AbandonKeeps(s: State, o: OpId, reply: RevokeReply, renewNow: bool)
    requires Inv(s) && o in s.ops && s.ops[o].pc.Abandoning? && RevokeAllowed(s, s.ops[o].pc.token, reply)
    ensures Inv(ApplyAbandon(s, o, reply, renewNow))
  {
    var pc := s.ops[o].pc;
    var s1 := s.(server := AfterRevoke(s.server, pc.token, reply));
    RevokeOnward(s, pc.token, reply);
    OnwardKeeps(s, s1);
    if reply.Settled? {
      AbandonedKeeps(s1, o, pc.token, pc.why, true, renewNow);
    } else {
      RecordingKeeps(s1, o);
    }
  }

  lemma RecordKeeps(s: State, o: OpId, now: nat, expiresAt: nat, renewNow: bool)
    requires Inv(s) && Free(s, o) && s.ops[o].pc.Recording?
    ensures Inv(ApplyRecord(s, o, now, expiresAt, renewNow))
  {
    var pc := s.ops[o].pc;
    assert OpOk(s, o);
    AppendOnward(s, pc.token, now, expiresAt);
    OnwardKeeps(s, Append(s, pc.token, now, expiresAt));
    AbandonedKeeps(Append(s, pc.token, now, expiresAt), o, pc.token, pc.why, false, renewNow);
  }

  // ---- renewal ----

  /** A renewing operation, which is the sign-in only after its intent is gone. */
  predicate RenewingPc(pc: Pc) {
    pc.Reading? || pc.Requesting? || pc.Writing? || pc.Written? || pc.Wiping? || pc.WipingOwn?
  }

  /** Where a renewing operation of this kind may go without touching the store. */
  predicate NextRenewing(s: State, kind: Kind, pc: Pc) {
    match pc
    case Reading => true
    case Requesting(using) => using in s.durable
    case Writing(using, t, _) => using in s.durable && !Honoured(s.server, using) && t == Next(using) && Known(s, t)
    case Wiping(using, rotated) =>
      using in s.durable && !Honoured(s.server, using) && (rotated.Some? ==> Known(s, rotated.value))
    case WipingOwn => kind == SignIn
    case Abandoning(t, why) => why.Rotated? && Known(s, t)
    case Done => true
    case _ => false
  }

  lemma RenewingOpOk(s: State, o: OpId, pc: Pc)
    requires o in s.ops && RenewingPc(s.ops[o].pc) && OpOk(s, o) && NextRenewing(s, s.ops[o].kind, pc)
    ensures OpOk(Goto(s, o, pc), o)
  {
  }

  lemma RenewingGoto(s: State, o: OpId, pc: Pc)
    requires Inv(s) && o in s.ops && RenewingPc(s.ops[o].pc) && NextRenewing(s, s.ops[o].kind, pc)
    ensures Inv(Goto(s, o, pc))
  {
    var s' := Goto(s, o, pc);
    assert OpOk(s, o);
    RenewingOpOk(s, o, pc);
    if s.ops[o].kind == SignIn {
      SignInActive(s, o);
      SignInGoto(s, s', o);
    } else {
      OutsideGoto(s, s', o);
    }
  }

  lemma RenewalFailsKeeps(s: State, o: OpId)
    requires Inv(s) && o in s.ops && RenewingPc(s.ops[o].pc) && !s.ops[o].pc.WipingOwn?
    ensures Inv(RenewalFails(s, o))
  {
    assert OpOk(s, o);
    RenewingGoto(s, o, RenewalFails(s, o).ops[o].pc);
  }

  lemma ReadKeeps(s: State, o: OpId)
    requires Inv(s) && Free(s, o) && s.ops[o].pc.Reading?
    ensures Inv(ApplyRead(s, o))
  {
    assert OpOk(s, o);
    if s.ops[o].epoch == s.epoch && s.session.Some? {
      RenewingGoto(s, o, Requesting(s.session.value));
    } else {
      RenewalFailsKeeps(s, o);
    }
  }

  /** The server's answer: the old token is no longer honoured, and nothing durable is. */
  lemma RenewOnward(s: State, o: OpId, reply: RenewReply)
    requires o in s.ops && s.ops[o].pc.Requesting? && s.ops[o].pc.using.grant in s.server
    requires StoreOk(s) && OpOk(s, o)
    requires reply.Renewed? || reply.RefusedTerminal? || reply.RotationLost? ==> Honoured(s.server, s.ops[o].pc.using)
    ensures var s' := s.(server := ApplyRenew(s, o, reply).server);
      && Onward(s, s')
      && (!reply.Declined? ==> !Honoured(s'.server, s.ops[o].pc.using))
      && (reply.Renewed? || reply.RefusedTerminal? ==> Known(s', Next(s.ops[o].pc.using)))
  {
  }

  lemma RenewNext(s: State, o: OpId, reply: RenewReply)
    requires o in s.ops && s.ops[o].pc.Requesting? && s.ops[o].pc.using.grant in s.server
    requires s.ops[o].pc.using in s.durable
    requires reply.Renewed? || reply.RefusedTerminal? || reply.RotationLost? ==> Honoured(s.server, s.ops[o].pc.using)
    requires !reply.Declined? ==> !Honoured(ApplyRenew(s, o, reply).server, s.ops[o].pc.using)
    requires reply.Renewed? || reply.RefusedTerminal? ==>
      Known(s.(server := ApplyRenew(s, o, reply).server), Next(s.ops[o].pc.using))
    ensures var s', s1 := ApplyRenew(s, o, reply), s.(server := ApplyRenew(s, o, reply).server);
      s' == Goto(s1, o, s'.ops[o].pc) && NextRenewing(s1, s.ops[o].kind, s'.ops[o].pc)
  {
  }

  lemma RenewKeeps(s: State, o: OpId, reply: RenewReply)
    requires Inv(s) && o in s.ops && s.ops[o].pc.Requesting? && s.ops[o].pc.using.grant in s.server
    requires reply.Renewed? || reply.RefusedTerminal? || reply.RotationLost? ==> Honoured(s.server, s.ops[o].pc.using)
    ensures Inv(ApplyRenew(s, o, reply))
  {
    var s' := ApplyRenew(s, o, reply);
    assert OpOk(s, o);
    RenewOnward(s, o, reply);
    OnwardKeeps(s, s.(server := s'.server));
    RenewNext(s, o, reply);
    RenewingGoto(s.(server := s'.server), o, s'.ops[o].pc);
  }

  lemma AfterWriteKeeps(s: State, o: OpId)
    requires Inv(s) && o in s.ops && s.ops[o].pc.Written?
    ensures Inv(ApplyAfterWrite(s, o))
  {
    var pc := s.ops[o].pc;
    assert OpOk(s, o);
    if s.ops[o].epoch != s.epoch {
      RenewingGoto(s, o, Abandoning(pc.token, Rotated));
    } else if pc.valid {
      RenewingGoto(s, o, Pc.Done);
    } else {
      RenewalFailsKeeps(s, o);
    }
  }

  lemma WriteKeeps(s: State, o: OpId)
    requires Inv(s) && Free(s, o) && s.ops[o].pc.Writing?
    ensures Inv(ApplyWrite(s, o))
  {
    assert OpOk(s, o);
    if s.ops[o].epoch == s.epoch && s.session == Some(s.ops[o].pc.using) {
      WriteSaves(s, o);
    } else {
      RenewingGoto(s, o, Abandoning(s.ops[o].pc.token, Rotated));
    }
  }

  /** The rotated token takes its predecessor's place: same grant, next version. */
  lemma WriteSaves(s: State, o: OpId)
    requires Inv(s) && Free(s, o) && s.ops[o].pc.Writing?
    requires s.ops[o].epoch == s.epoch && s.session == Some(s.ops[o].pc.using)
    ensures Inv(ApplyWrite(s, o))
  {
    assert OpOk(s, o);
    WriteCareful(s, o);
    SessionGoto(s, ApplyWrite(s, o), o);
  }

  lemma WriteCareful(s: State, o: OpId)
    requires Free(s, o) && s.ops[o].pc.Writing?
    requires StoreOk(s) && OpOk(s, o)
    requires s.ops[o].epoch == s.epoch && s.session == Some(s.ops[o].pc.using)
    ensures var s' := ApplyWrite(s, o); StoreOk(s') && OpOk(s', o) && Careful(s, s', o) && Saves(s, s', o)
  {
  }

  /** A renewing operation changes the session record. */
  lemma SessionGoto(s: State, s': State, o: OpId)
    requires Inv(s) && o in s.ops && RenewingPc(s.ops[o].pc) && s.lock == None && OneOp(s, s', o)
    requires Careful(s, s', o) && Saves(s, s', o) && StoreOk(s') && OpOk(s', o)
    requires s' == s.(session := s'.session, durable := s'.durable, epoch := s'.epoch, ops := s'.ops)
    requires GrantOf(s'.session) == GrantOf(s.session) || s'.session == None
    requires !s'.ops[o].pc.CommitWrote? && !ActivePc(s'.ops[o].pc)
    ensures Inv(s')
  {
    assert OpOk(s, o);
    if s.ops[o].kind == SignIn {
      SignInActive(s, o);
      SignInKeeps(s, s', o);
    } else {
      OutsideKeeps(s, s', o);
    }
  }

  lemma WipeKeeps(s: State, o: OpId)
    requires Inv(s) && Free(s, o) && s.ops[o].pc.Wiping?
    ensures Inv(ApplyWipe(s, o))
  {
    assert OpOk(s, o);
    if s.ops[o].epoch == s.epoch && s.session == Some(s.ops[o].pc.using) {
      WipeRemoves(s, o);
    } else {
      RenewingGoto(s, o, ApplyWipe(s, o).ops[o].pc);
    }
  }

  /** A terminal answer wipes the session it was asked with: that token is no longer honoured. */
  lemma WipeRemoves(s: State, o: OpId)
    requires Inv(s) && Free(s, o) && s.ops[o].pc.Wiping?
    requires s.ops[o].epoch == s.epoch && s.session == Some(s.ops[o].pc.using)
    ensures Inv(ApplyWipe(s, o))
  {
    assert OpOk(s, o);
    WipeCareful(s, o);
    SessionGoto(s, ApplyWipe(s, o), o);
  }

  lemma WipeCareful(s: State, o: OpId)
    requires Free(s, o) && s.ops[o].pc.Wiping?
    requires StoreOk(s) && OpOk(s, o)
    requires s.ops[o].epoch == s.epoch && s.session == Some(s.ops[o].pc.using)
    ensures var s' := ApplyWipe(s, o); StoreOk(s') && OpOk(s', o) && Careful(s, s', o) && Saves(s, s', o)
  {
  }

  lemma WipeOwnKeeps(s: State, o: OpId)
    requires Inv(s) && Free(s, o) && s.ops[o].pc.WipingOwn?
    ensures Inv(ApplyWipeOwn(s, o))
  {
    if s.ops[o].epoch == s.epoch && s.session.Some? && s.session.value.grant == s.ops[o].grant {
      WipeOwnRemoves(s, ApplyWipeOwn(s, o), o);
    } else {
      RenewingGoto(s, o, Pc.Done);
    }
  }

  /** The second window opens: the wiped session's token is only in memory until it is revoked or recorded. */
  lemma WipeOwnRemoves(s: State, s': State, o: OpId)
    requires Inv(s) && s.session.Some?
    requires Free(s, o) && s.ops[o].pc.WipingOwn?
    requires s' == Goto(s.(session := None), o, Abandoning(s.session.value, Wiped))
    ensures Inv(s')
  {
    assert OpOk(s, o);
    WipeOwnCareful(s, s', o);
    SessionGoto(s, s', o);
  }

  lemma WipeOwnCareful(s: State, s': State, o: OpId)
    requires StoreOk(s) && o in s.ops && s.ops[o].pc.WipingOwn? && OpOk(s, o) && s.session.Some? && s.lock == None
    requires s' == Goto(s.(session := None), o, Abandoning(s.session.value, Wiped))
    ensures StoreOk(s') && OpOk(s', o) && Careful(s, s', o) && Saves(s, s', o)
  {
    assert Window(s'.ops[o].pc) == s.session;
  }

  // ---- sign-out ----

  lemma OutGoto(s: State, s': State, o: OpId)
    requires Inv(s) && In(s, o, SignOut) && OneOp(s, s', o) && s'.ops[o].previous == s.ops[o].previous
    requires s' == s.(attempt := s'.attempt, epoch := s'.epoch, ops := s'.ops)
    requires match s'.ops[o].pc
             case OutReading(_) => true
             case OutRevoking(t) => t in s.durable
             case OutRecording(t) => t in s.durable
             case OutWiping(expected) => expected.Some? ==> expected.value in s.durable && LetGo(s, expected.value)
             case _ => false
    ensures Inv(s')
  {
    assert OpOk(s, o);
    assert OpOk(s', o);
    OutsideGoto(s, s', o);
  }

  lemma OutReadKeeps(s: State, o: OpId)
    requires Inv(s) && Free(s, o) && s.ops[o].pc.OutReading?
    ensures Inv(ApplyOutRead(s, o))
  {
    assert OpOk(s, o);
    OutGoto(s, ApplyOutRead(s, o), o);
  }

  lemma OutRevokeKeeps(s: State, o: OpId, reply: RevokeReply)
    requires Inv(s) && o in s.ops && s.ops[o].pc.OutRevoking? && RevokeAllowed(s, s.ops[o].pc.token, reply)
    ensures Inv(ApplyOutRevoke(s, o, reply))
  {
    var t := s.ops[o].pc.token;
    var s1 := s.(server := AfterRevoke(s.server, t, reply));
    RevokeOnward(s, t, reply);
    OnwardKeeps(s, s1);
    assert OpOk(s1, o);
    OutGoto(s1, ApplyOutRevoke(s, o, reply), o);
  }

  lemma OutRecordKeeps(s: State, o: OpId, now: nat, expiresAt: nat)
    requires Inv(s) && Free(s, o) && s.ops[o].pc.OutRecording?
    ensures Inv(ApplyOutRecord(s, o, now, expiresAt))
  {
    var t := s.ops[o].pc.token;
    var s1 := Append(s, t, now, expiresAt);
    assert OpOk(s, o);
    AppendOnward(s, t, now, expiresAt);
    OnwardKeeps(s, s1);
    assert OpOk(s1, o);
    OutGoto(s1, ApplyOutRecord(s, o, now, expiresAt), o);
  }

  lemma OutWipeKeeps(s: State, o: OpId)
    requires Inv(s) && Free(s, o) && s.ops[o].pc.OutWiping?
    ensures Inv(ApplyOutWipe(s, o))
  {
    if s.session == s.ops[o].pc.expected {
      OutWipeRemoves(s, o);
    } else {
      assert OpOk(s, o);
      OutGoto(s, ApplyOutWipe(s, o), o);
    }
  }

  /** Only the very record whose revoke settled or is recorded is removed. */
  lemma OutWipeRemoves(s: State, o: OpId)
    requires Free(s, o) && s.ops[o].pc.OutWiping?
    requires Inv(s) && s.session == s.ops[o].pc.expected
    ensures Inv(ApplyOutWipe(s, o))
  {
    assert OpOk(s, o);
    OutWipeCareful(s, o);
    OutsideKeeps(s, ApplyOutWipe(s, o), o);
  }

  lemma OutWipeCareful(s: State, o: OpId)
    requires Free(s, o) && s.ops[o].pc.OutWiping?
    requires StoreOk(s) && OpOk(s, o) && s.session == s.ops[o].pc.expected
    ensures var s' := ApplyOutWipe(s, o); StoreOk(s') && OpOk(s', o) && Careful(s, s', o) && Saves(s, s', o)
  {
  }

  // ---- recovery and retry ----

  lemma PassGoto(s: State, o: OpId, pc: Pc)
    requires Inv(s) && In(s, o, Pass) && OpOk(Goto(s, o, pc), o)
    requires pc.Done? ==> LeftoverKept(s, None)
    ensures Inv(Goto(s, o, pc))
  {
    OutsideGoto(s, Goto(s, o, pc), o);
  }

  lemma PassOpOk(s: State, o: OpId, pc: Pc)
    requires In(s, o, Pass) && OpOk(s, o) && LeftoverKept(s, None)
    requires pc.PassReading? || pc.Done? || (pc.IntentClearing? && pc.attempt in s.tried && pc.attempt !in s.active)
    ensures OpOk(Goto(s, o, pc), o)
  {
    if IntentKept(s) && s.intent.Some? && s.intent.value.token.Some? && InWindow(s, s.intent.value.token.value) {
      WindowStays(s, Goto(s, o, pc), o, s.intent.value.token.value);
    }
  }

  lemma PassAdvances(s: State, o: OpId, pc: Pc)
    requires Inv(s) && In(s, o, Pass) && LeftoverKept(s, None)
    requires pc.PassReading? || pc.Done? || (pc.IntentClearing? && pc.attempt in s.tried && pc.attempt !in s.active)
    ensures Inv(Goto(s, o, pc))
  {
    assert OpOk(s, o);
    PassOpOk(s, o, pc);
    PassGoto(s, o, pc);
  }

  /** The intent of a stored session holds nothing the session record does not. */
  lemma CommittedIntentKept(s: State)
    requires StoreOk(s) && s.intent.Some? && GrantOf(s.session) == Some(s.intent.value.attempt)
    ensures IntentKept(s)
  {
    if s.intent.value.token.Some? && s.session != s.intent.value.token {
      assert Known(s, s.session.value);
    }
  }

  lemma IntentReadKeeps(s: State, o: OpId, now: nat)
    requires Inv(s) && Free(s, o) && s.ops[o].pc.IntentReading?
    ensures Inv(ApplyIntentRead(s, o, now))
  {
    assert OpOk(s, o);
    if s.intent.None? || s.intent.value.attempt in s.active {
      PassAdvances(s, o, PassReading);
    } else {
      var intent := s.intent.value;
      if intent.token.None? {
        PassAdvances(s, o, IntentClearing(intent.attempt));
      } else if GrantOf(s.session) == Some(intent.attempt) {
        CommittedIntentKept(s);
        PassAdvances(s, o, IntentClearing(intent.attempt));
      } else if now >= intent.expiresAt {
        var s1 := s.(dropped := s.dropped + {intent.token.value});
        DropOnward(s, {intent.token.value});
        OnwardKeeps(s, s1);
        PassAdvances(s1, o, IntentClearing(intent.attempt));
      } else {
        IntentRevokingOk(s, o);
        PassGoto(s, o, IntentRevoking(intent.attempt, intent.token.value, intent.expiresAt));
      }
    }
  }

  lemma IntentRevokingOk(s: State, o: OpId)
    requires StoreOk(s) && OpsOk(s) && Free(s, o) && s.ops[o].pc.IntentReading?
    requires s.intent.Some? && s.intent.value.attempt !in s.active && s.intent.value.token.Some?
    requires GrantOf(s.session) != Some(s.intent.value.attempt)
    ensures OpOk(Goto(s, o, IntentRevoking(s.intent.value.attempt, s.intent.value.token.value, s.intent.value.expiresAt)), o)
  {
    var s' := Goto(s, o, IntentRevoking(s.intent.value.attempt, s.intent.value.token.value, s.intent.value.expiresAt));
    assert OpOk(s, o);
    forall p | p in s.ops
      ensures !s.ops[p].pc.CommitWrote?
    {
      assert OpOk(s, p);
    }
  }

  lemma IntentRecordingOk(s: State, o: OpId)
    requires o in s.ops && s.ops[o].pc.IntentRevoking? && OpOk(s, o)
    ensures OpOk(Goto(s, o, IntentRecording(s.ops[o].pc.attempt, s.ops[o].pc.token, s.ops[o].pc.expiresAt)), o)
  {
    var s' := Goto(s, o, IntentRecording(s.ops[o].pc.attempt, s.ops[o].pc.token, s.ops[o].pc.expiresAt));
    if IntentKept(s) && s.intent.Some? && s.intent.value.token.Some? && InWindow(s, s.intent.value.token.value) {
      WindowStays(s, s', o, s.intent.value.token.value);
    }
  }

  lemma IntentLetGoOk(s: State, o: OpId)
    requires o in s.ops && (s.ops[o].pc.IntentRevoking? || s.ops[o].pc.IntentRecording?) && OpOk(s, o)
    requires LetGo(s, s.ops[o].pc.token)
    ensures OpOk(Goto(s, o, IntentClearing(s.ops[o].pc.attempt)), o)
  {
    assert LeftoverKept(s, None);
    PassOpOk(s, o, IntentClearing(s.ops[o].pc.attempt));
  }

  lemma IntentRevokeKeeps(s: State, o: OpId, reply: RevokeReply)
    requires Inv(s) && o in s.ops && s.ops[o].pc.IntentRevoking? && RevokeAllowed(s, s.ops[o].pc.token, reply)
    ensures Inv(ApplyIntentRevoke(s, o, reply))
  {
    var s1 := s.(server := AfterRevoke(s.server, s.ops[o].pc.token, reply));
    RevokeOnward(s, s.ops[o].pc.token, reply);
    OnwardKeeps(s, s1);
    assert OpOk(s1, o);
    if reply.Settled? {
      IntentLetGoOk(s1, o);
    } else {
      IntentRecordingOk(s1, o);
    }
    PassGoto(s1, o, ApplyIntentRevoke(s, o, reply).ops[o].pc);
  }

  lemma IntentRecordKeeps(s: State, o: OpId, now: nat)
    requires Inv(s) && Free(s, o) && s.ops[o].pc.IntentRecording?
    ensures Inv(ApplyIntentRecord(s, o, now))
  {
    var pc := s.ops[o].pc;
    assert OpOk(s, o);
    AppendOnward(s, pc.token, now, pc.expiresAt);
    var s1 := Append(s, pc.token, now, pc.expiresAt);
    OnwardKeeps(s, s1);
    assert OpOk(s1, o);
    IntentLetGoOk(s1, o);
    PassGoto(s1, o, IntentClearing(pc.attempt));
  }

  lemma IntentClearKeeps(s: State, o: OpId)
    requires Inv(s) && Free(s, o) && s.ops[o].pc.IntentClearing?
    ensures Inv(ApplyIntentClear(s, o))
  {
    assert OpOk(s, o);
    if s.intent.Some? && s.intent.value.attempt == s.ops[o].pc.attempt {
      IntentCleared(s, ApplyIntentClear(s, o), o);
    } else {
      PassAdvances(s, o, PassReading);
    }
  }

  lemma IntentCleared(s: State, s': State, o: OpId)
    requires Inv(s) && In(s, o, Pass) && s.lock == None && s.intent.Some? && s.intent.value.attempt !in s.active
    requires LeftoverKept(s, None) && s' == Goto(s.(intent := None), o, PassReading)
    ensures Inv(s')
  {
    assert OpOk(s, o);
    IntentClearCareful(s, s', o);
    OutsideKeeps(s, s', o);
  }

  lemma IntentClearCareful(s: State, s': State, o: OpId)
    requires StoreOk(s) && In(s, o, Pass) && !IsHalfCommitted(s, o) && IntentKept(s) && OpOk(s, o)
    requires s' == Goto(s.(intent := None), o, PassReading)
    ensures StoreOk(s') && OpOk(s', o) && Careful(s, s', o) && Saves(s, s', o)
  {
    if s.intent.Some? && s.intent.value.token.Some? && InWindow(s, s.intent.value.token.value) {
      WindowStays(s, s', o, s.intent.value.token.value);
    }
  }

  lemma PassingOk(s: State, o: OpId, pc: Pc)
    requires StoreOk(s) && In(s, o, Pass) && OpOk(s, o) && LeftoverKept(s, None) && pc.Passing?
    requires forall i :: 0 <= i < |pc.snapshot| ==> Known(s, pc.snapshot[i].token)
    requires forall t :: t in pc.done ==> Known(s, t) && (!Honoured(s.server, t) || t in s.dropped)
    ensures OpOk(Goto(s, o, pc), o)
  {
    PassOpOk(s, o, PassReading);
    if IntentKept(s) && s.intent.Some? && s.intent.value.token.Some? && InWindow(s, s.intent.value.token.value) {
      WindowStays(s, Goto(s, o, pc), o, s.intent.value.token.value);
    }
  }

  lemma PassReadKeeps(s: State, o: OpId)
    requires Inv(s) && Free(s, o) && s.ops[o].pc.PassReading?
    ensures Inv(ApplyPassRead(s, o))
  {
    assert OpOk(s, o);
    if s.pending == [] {
      PassAdvances(s, o, Pc.Done);
    } else {
      PassingOk(s, o, Passing(s.pending, 0, {}, map[]));
      PassGoto(s, o, Passing(s.pending, 0, {}, map[]));
    }
  }

  /** Before the operation moves on: the answer to one entry. */
  lemma PassEntryOnward(s: State, o: OpId, now: nat, reply: RevokeReply)
    requires StoreOk(s) && Passes(s, o, reply)
    ensures Onward(s, ApplyPassEntry(s, o, now, reply).(ops := s.ops))
  {
    if reply.killed { KillIsOnward(s, s.ops[o].pc.snapshot[s.ops[o].pc.k].token.grant); }
  }

  lemma KillIsOnward(s: State, g: GrantId)
    requires StoreOk(s) && g in s.server
    ensures Onward(s, s.(server := Kill(s.server, g)))
  {
  }

  predicate Passes(s: State, o: OpId, reply: RevokeReply) {
    && o in s.ops && s.ops[o].pc.Passing? && s.ops[o].pc.k < |s.ops[o].pc.snapshot|
    && RevokeAllowed(s, s.ops[o].pc.snapshot[s.ops[o].pc.k].token, reply)
  }

  lemma PassEntryDone(s: State, o: OpId, now: nat, reply: RevokeReply)
    requires Passes(s, o, reply) && Known(s, s.ops[o].pc.snapshot[s.ops[o].pc.k].token)
    ensures var s' := ApplyPassEntry(s, o, now, reply);
      && s'.ops == s.ops[o := s.ops[o].(pc := s'.ops[o].pc)]
      && s'.ops[o].pc.Passing? && s'.ops[o].pc.snapshot == s.ops[o].pc.snapshot
      && (forall t :: t in s'.ops[o].pc.done && t !in s.ops[o].pc.done ==>
            Known(s', t) && (!Honoured(s'.server, t) || t in s'.dropped))
  {
  }

  lemma PassEntryOk(s: State, s1: State, o: OpId, now: nat, reply: RevokeReply)
    requires Passes(s, o, reply) && s.ops[o].kind == Pass && Known(s, s.ops[o].pc.snapshot[s.ops[o].pc.k].token)
    requires s1 == ApplyPassEntry(s, o, now, reply).(ops := s.ops) && StoreOk(s1) && OpOk(s1, o)
    ensures var s' := ApplyPassEntry(s, o, now, reply); s' == Goto(s1, o, s'.ops[o].pc) && OpOk(s', o) && s'.ops[o].pc.Passing?
  {
    PassEntryDone(s, o, now, reply);
    PassingOk(s1, o, ApplyPassEntry(s, o, now, reply).ops[o].pc);
  }

  lemma PassEntryKeeps(s: State, o: OpId, now: nat, reply: RevokeReply)
    requires Inv(s) && o in s.ops && s.ops[o].pc.Passing? && s.ops[o].pc.k < |s.ops[o].pc.snapshot| && RevokeAllowed(s, s.ops[o].pc.snapshot[s.ops[o].pc.k].token, reply)
    ensures Inv(ApplyPassEntry(s, o, now, reply))
  {
    var s' := ApplyPassEntry(s, o, now, reply);
    var s1 := s'.(ops := s.ops);
    assert OpOk(s, o);
    PassEntryOnward(s, o, now, reply);
    OnwardKeeps(s, s1);
    assert OpOk(s1, o);
    PassEntryOk(s, s1, o, now, reply);
    PassGoto(s1, o, s'.ops[o].pc);
  }

  lemma PassWriteOnward(s: State, o: OpId, now: nat)
    requires StoreOk(s) && o in s.ops && s.ops[o].pc.Passing?
    requires forall t :: t in s.ops[o].pc.done ==> !Honoured(s.server, t) || t in s.dropped
    ensures Onward(s, ApplyPassWrite(s, o, now).(ops := s.ops))
  {
    var pc := s.ops[o].pc;
    var expired := ExpiredTokens(s.pending, now);
    var done := pc.done + expired;
    var merged := PR.Merge(s.pending, done, pc.bumped);
    forall i | 0 <= i < |merged|
      ensures Known(s, merged[i].token)
    {
      PR.MergeOrigin(s.pending, done, pc.bumped, i);
    }
    forall t | PR.Contains(s.pending, t)
      ensures PR.Contains(merged, t) || t in done
    {
      PR.MergeContains(s.pending, done, pc.bumped, t);
    }
  }

  lemma PassWriteKeeps(s: State, o: OpId, now: nat)
    requires Inv(s) && Free(s, o) && s.ops[o].pc.Passing? && s.ops[o].pc.k == |s.ops[o].pc.snapshot|
    ensures Inv(ApplyPassWrite(s, o, now))
  {
    var s1 := ApplyPassWrite(s, o, now).(ops := s.ops);
    assert OpOk(s, o);
    PassWriteOnward(s, o, now);
    OnwardKeeps(s, s1);
    OnwardIntent(s, s1);
    PassEnds(s1, o);
  }

  lemma PassEnds(s: State, o: OpId)
    requires Inv(s) && In(s, o, Pass) && LeftoverKept(s, None)
    ensures Inv(Goto(s, o, Pc.Done))
  {
    PassAdvances(s, o, Pc.Done);
  }

  // ---- the server alone, and the process stopping ----

  lemma ServerKillsKeeps(s: State, g: GrantId)
    requires Inv(s) && g in s.server
    ensures Inv(s.(server := Kill(s.server, g)))
  {
    OnwardKeeps(s, s.(server := Kill(s.server, g)));
  }

  /** Memory goes, and with it the tokens no record has. */
  lemma CrashKeeps(s: State)
    requires Inv(s)
    ensures Inv(ApplyCrash(s))
  {
    var s' := ApplyCrash(s);
    forall t | t in s'.durable
      ensures Kept(s', t) || InIntent(s', t)
    {
    }
  }

  // ---- every step, every run ----

  predicate SignInStep(step: Step) {
    step.JoinPass? || step.PassJoined? || step.ReadPrevious?
  }

  predicate ExchangeStep(step: Step) {
    step.WriteIntent? || step.ExchangeFails? || step.Exchange? || step.Mark?
  }

  predicate CommitStep(step: Step) {
    step.CommitWrite? || step.CommitFinish? || step.ClearOwn? || step.CheckPrevious?
  }

  predicate RenewalStep(step: Step) {
    step.StartRenewal? || step.Read? || step.Renew? || step.Write? || step.AfterWrite?
  }

  predicate WipeStep(step: Step) {
    step.Wipe? || step.WipeOwn? || step.Abandon? || step.Record?
  }

  predicate OutStep(step: Step) {
    step.StartSignOut? || step.OutRead? || step.OutRevoke? || step.OutRecord? || step.OutWipe?
  }

  predicate IntentStep(step: Step) {
    step.StartPass? || step.IntentRead? || step.IntentRevoke? || step.IntentRecord? || step.IntentClear?
  }

  predicate PassStep(step: Step) {
    step.PassRead? || step.PassEntry? || step.PassWrite?
  }

  lemma SignInStepKeeps(s: State, step: Step)
    requires Inv(s) && Enabled(s, step) && SignInStep(step)
    ensures Inv(Apply(s, step))
  {
    match step
    case JoinPass(o, p) => JoinPassKeeps(s, o, p);
    case PassJoined(o) => PassJoinedKeeps(s, o);
    case ReadPrevious(o) => ReadPreviousKeeps(s, o);
  }

  lemma ExchangeStepKeeps(s: State, step: Step)
    requires Inv(s) && Enabled(s, step) && ExchangeStep(step)
    ensures Inv(Apply(s, step))
  {
    match step
    case WriteIntent(o, expiresAt) => WriteIntentKeeps(s, o, expiresAt);
    case ExchangeFails(o, created) => ExchangeFailsKeeps(s, o, created);
    case Exchange(o, valid) => ExchangeKeeps(s, o, valid);
    case Mark(o) => MarkKeeps(s, o);
  }

  lemma CommitStepKeeps(s: State, step: Step)
    requires Inv(s) && Enabled(s, step) && CommitStep(step)
    ensures Inv(Apply(s, step))
  {
    match step
    case CommitWrite(o) => CommitWriteKeeps(s, o);
    case CommitFinish(o, renewNow) => CommitFinishKeeps(s, o, renewNow);
    case ClearOwn(o) => ClearOwnKeeps(s, o);
    case CheckPrevious(o, superseded) => CheckPreviousKeeps(s, o, superseded);
  }

  lemma RenewalStepKeeps(s: State, step: Step)
    requires Inv(s) && Enabled(s, step) && RenewalStep(step)
    ensures Inv(Apply(s, step))
  {
    match step
    case StartRenewal(o) => StartRenewalKeeps(s, o);
    case Read(o) => ReadKeeps(s, o);
    case Renew(o, reply) => RenewKeeps(s, o, reply);
    case Write(o) => WriteKeeps(s, o);
    case AfterWrite(o) => AfterWriteKeeps(s, o);
  }

  lemma WipeStepKeeps(s: State, step: Step)
    requires Inv(s) && Enabled(s, step) && WipeStep(step)
    ensures Inv(Apply(s, step))
  {
    match step
    case Wipe(o) => WipeKeeps(s, o);
    case WipeOwn(o) => WipeOwnKeeps(s, o);
    case Abandon(o, reply, renewNow) => AbandonKeeps(s, o, reply, renewNow);
    case Record(o, now, expiresAt, renewNow) => RecordKeeps(s, o, now, expiresAt, renewNow);
  }

  lemma OutStepKeeps(s: State, step: Step)
    requires Inv(s) && Enabled(s, step) && OutStep(step)
    ensures Inv(Apply(s, step))
  {
    match step
    case StartSignOut(o) => StartSignOutKeeps(s, o);
    case OutRead(o) => OutReadKeeps(s, o);
    case OutRevoke(o, reply) => OutRevokeKeeps(s, o, reply);
    case OutRecord(o, now, expiresAt) => OutRecordKeeps(s, o, now, expiresAt);
    case OutWipe(o) => OutWipeKeeps(s, o);
  }

  lemma IntentStepKeeps(s: State, step: Step)
    requires Inv(s) && Enabled(s, step) && IntentStep(step)
    ensures Inv(Apply(s, step))
  {
    match step
    case StartPass(o) => StartPassKeeps(s, o);
    case IntentRead(o, now) => IntentReadKeeps(s, o, now);
    case IntentRevoke(o, reply) => IntentRevokeKeeps(s, o, reply);
    case IntentRecord(o, now) => IntentRecordKeeps(s, o, now);
    case IntentClear(o) => IntentClearKeeps(s, o);
  }

  // Some of these lemmas only call another: each restates one kind of step for
  // the solver, which would otherwise unfold Enabled and Apply for all the
  // steps of a match at once.

  lemma PassReadStepKeeps(s: State, o: OpId)
    requires Inv(s) && Enabled(s, PassRead(o))
    ensures Inv(Apply(s, PassRead(o)))
  {
    PassReadKeeps(s, o);
  }

  lemma PassEntryStepKeeps(s: State, o: OpId, now: nat, reply: RevokeReply)
    requires Inv(s) && Enabled(s, PassEntry(o, now, reply))
    ensures Inv(Apply(s, PassEntry(o, now, reply)))
  {
    PassEntryKeeps(s, o, now, reply);
  }

  lemma PassWriteStepKeeps(s: State, o: OpId, now: nat)
    requires Inv(s) && Enabled(s, PassWrite(o, now))
    ensures Inv(Apply(s, PassWrite(o, now)))
  {
    PassWriteKeeps(s, o, now);
  }

  lemma PassStepKeeps(s: State, step: Step)
    requires Inv(s) && Enabled(s, step) && PassStep(step)
    ensures Inv(Apply(s, step))
  {
    match step
    case PassRead(o) => PassReadStepKeeps(s, o);
    case PassEntry(o, now, reply) => PassEntryStepKeeps(s, o, now, reply);
    case PassWrite(o, now) => PassWriteStepKeeps(s, o, now);
  }

  lemma EndStepKeeps(s: State, step: Step)
    requires Inv(s) && Enabled(s, step) && (step.SignInEnds? || step.CommitRefused? || step.ServerKills? || step.Crash?)
    ensures Inv(Apply(s, step))
  {
    match step
    case SignInEnds(o) => SignInEndsKeeps(s, o);
    case CommitRefused(o) => CommitRefusedKeeps(s, o);
    case ServerKills(g) => ServerKillsKeeps(s, g);
    case Crash => CrashKeeps(s);
  }

  lemma StartSignInStepKeeps(s: State, o: OpId, g: GrantId)
    requires Inv(s) && Enabled(s, StartSignIn(o, g))
    ensures Inv(Apply(s, StartSignIn(o, g)))
  {
    StartSignInKeeps(s, o, g);
  }

  lemma StepKeeps(s: State, step: Step)
    requires Inv(s) && Enabled(s, step)
    ensures Inv(Apply(s, step))
  {
    if step.StartSignIn? {
      StartSignInStepKeeps(s, step.op, step.g);
    } else if SignInStep(step) {
      SignInStepKeeps(s, step);
    } else if ExchangeStep(step) {
      ExchangeStepKeeps(s, step);
    } else if CommitStep(step) {
      CommitStepKeeps(s, step);
    } else if RenewalStep(step) {
      RenewalStepKeeps(s, step);
    } else if WipeStep(step) {
      WipeStepKeeps(s, step);
    } else if OutStep(step) {
      OutStepKeeps(s, step);
    } else if IntentStep(step) {
      IntentStepKeeps(s, step);
    } else if PassStep(step) {
      PassStepKeeps(s, step);
    } else {
      EndStepKeeps(s, step);
    }
  }

  lemma {:induction false} ReachableInv(states: seq<State>, steps: seq<Step>, i: nat)
    requires IsRun(states, steps) && i < |states|
    ensures Inv(states[i])
  {
    if i == 0 {
      InitInv();
    } else {
      ReachableInv(states, steps, i - 1);
      StepKeeps(states[i - 1], steps[i - 1]);
    }
  }
}
