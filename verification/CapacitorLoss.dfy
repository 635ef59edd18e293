/** Two runs that lose a live grant, one for each window of CrashSafety. */
module CapacitorLoss {
  import opened Wrappers
  import opened GrantServer
  import opened CapacitorProtocol
  import opened CapacitorInvariant
  import opened CapacitorTheorems

  ghost predicate Reachable(s: State) {
    exists states, steps :: IsRun(states, steps) && states[|states| - 1] == s
  }

  lemma InitReachable()
    ensures Reachable(Init)
  {
    assert IsRun([Init], []);
  }

  lemma Extend(s: State, step: Step)
    requires Reachable(s) && Enabled(s, step)
    ensures Reachable(Apply(s, step))
  {
    var states, steps :| IsRun(states, steps) && states[|states| - 1] == s;
    assert IsRun(states + [Apply(s, step)], steps + [step]);
  }

  ghost predicate Idle(s: State) {
    && s.lock == None && s.intent == None && s.pending == [] && s.active == {} && s.dropped == {} && s.lost == {}
    && (forall o :: o in s.ops ==> s.ops[o].pc.Done?)
    && (forall g :: g in s.server ==> g in s.tried)
  }

  // ---- one sign-in, step by step ----

  /** `s` goes to `s'` by `step`. */
  ghost predicate Goes(s: State, step: Step, s': State) {
    Enabled(s, step) && Apply(s, step) == s'
  }

  lemma Go(s: State, step: Step, s': State)
    requires Reachable(s) && Goes(s, step, s')
    ensures Reachable(s')
  {
    Extend(s, step);
  }

  /** The sign-in `o` of grant `g` and the retry pass `p` it waits for. */
  datatype Names = Names(o: OpId, p: OpId, g: GrantId)

  ghost predicate Fresh(s: State, n: Names) {
    Idle(s) && n.o !in s.ops && n.p !in s.ops && n.o != n.p && n.g !in s.tried
  }

  function Both(s: State, n: Names, previous: Option<Token>, signIn: Pc, pass: Pc): State {
    s.(attempt := s.attempt + 1,
       ops := s.ops[n.o := Op(SignIn, n.g, s.attempt + 1, s.epoch, previous, signIn)]
                   [n.p := Op(Pass, 0, s.attempt + 1, s.epoch, None, pass)])
  }

  lemma Starts(s: State, n: Names)
    requires Fresh(s, n)
    ensures Goes(s, StartSignIn(n.o, n.g), ApplyStartSignIn(s, n.o, n.g))
    ensures Goes(ApplyStartSignIn(s, n.o, n.g), StartPass(n.p), Both(s, n, None, Starting, IntentReading))
  {
  }

  lemma Joins(s: State, n: Names)
    requires Fresh(s, n)
    ensures Goes(Both(s, n, None, Starting, IntentReading), JoinPass(n.o, n.p), Both(s, n, None, Waiting(n.p), IntentReading))
  {
  }

  lemma PassReads(s: State, n: Names)
    requires Fresh(s, n)
    ensures Goes(Both(s, n, None, Waiting(n.p), IntentReading), IntentRead(n.p, 0),
                 Both(s, n, None, Waiting(n.p), PassReading))
  {
  }

  lemma PassEnds(s: State, n: Names)
    requires Fresh(s, n)
    ensures Goes(Both(s, n, None, Waiting(n.p), PassReading), PassRead(n.p), Both(s, n, None, Waiting(n.p), Pc.Done))
  {
  }

  lemma Reads(s: State, n: Names)
    requires Fresh(s, n)
    ensures Goes(Both(s, n, None, Waiting(n.p), Pc.Done), PassJoined(n.o), Both(s, n, None, ReadingPrevious, Pc.Done))
    ensures Goes(Both(s, n, None, ReadingPrevious, Pc.Done), ReadPrevious(n.o), Both(s, n, s.session, Authorizing, Pc.Done))
  {
  }

  function Intended(s: State, n: Names, pc: Pc): State {
    Both(s, n, s.session, pc, Pc.Done).(active := s.active + {n.g}, tried := s.tried + {n.g}, intent := Some(Intent(n.g, None, 1)))
  }

  lemma Intends(s: State, n: Names)
    requires Fresh(s, n)
    ensures Goes(Both(s, n, s.session, Authorizing, Pc.Done), WriteIntent(n.o, 1), Intended(s, n, Exchanging))
  {
  }

  function Exchanged(s: State, n: Names, pc: Pc): State {
    Intended(s, n, pc).(server := s.server[n.g := Grant(0, true)])
  }

  lemma Exchanges(s: State, n: Names)
    requires Fresh(s, n)
    ensures Goes(Intended(s, n, Exchanging), Exchange(n.o, true), Exchanged(s, n, Marking(Token(n.g, 0), true)))
  {
  }

  function Marked(s: State, n: Names, pc: Pc): State {
    Exchanged(s, n, pc).(intent := Some(Intent(n.g, Some(Token(n.g, 0)), 1)), durable := s.durable + {Token(n.g, 0)})
  }

  lemma Marks(s: State, n: Names)
    requires Fresh(s, n)
    ensures Goes(Exchanged(s, n, Marking(Token(n.g, 0), true)), Mark(n.o), Marked(s, n, Committing(Token(n.g, 0))))
  {
  }

  function HalfCommitted(s: State, n: Names): State {
    Marked(s, n, CommitWrote(Token(n.g, 0), s.session)).(session := Some(Token(n.g, 0)), lock := Some(n.o))
  }

  lemma Writes(s: State, n: Names)
    requires Fresh(s, n)
    ensures Goes(Marked(s, n, Committing(Token(n.g, 0))), CommitWrite(n.o), HalfCommitted(s, n))
  {
    assert s.durable + {Token(n.g, 0)} + {Token(n.g, 0)} == s.durable + {Token(n.g, 0)};
  }

  lemma SignInAuthorizes(s: State, n: Names)
    requires Reachable(s) && Fresh(s, n)
    ensures Reachable(Both(s, n, s.session, Authorizing, Pc.Done))
  {
    Starts(s, n);
    Go(s, StartSignIn(n.o, n.g), ApplyStartSignIn(s, n.o, n.g));
    Go(ApplyStartSignIn(s, n.o, n.g), StartPass(n.p), Both(s, n, None, Starting, IntentReading));
    Joins(s, n);
    Go(Both(s, n, None, Starting, IntentReading), JoinPass(n.o, n.p), Both(s, n, None, Waiting(n.p), IntentReading));
    PassReads(s, n);
    Go(Both(s, n, None, Waiting(n.p), IntentReading), IntentRead(n.p, 0), Both(s, n, None, Waiting(n.p), PassReading));
    PassEnds(s, n);
    Go(Both(s, n, None, Waiting(n.p), PassReading), PassRead(n.p), Both(s, n, None, Waiting(n.p), Pc.Done));
    Reads(s, n);
    Go(Both(s, n, None, Waiting(n.p), Pc.Done), PassJoined(n.o), Both(s, n, None, ReadingPrevious, Pc.Done));
    Go(Both(s, n, None, ReadingPrevious, Pc.Done), ReadPrevious(n.o), Both(s, n, s.session, Authorizing, Pc.Done));
  }

  /** A sign-in on an idle client, up to the session write of its commit. */
  lemma SignInHalfCommits(s: State, n: Names)
    requires Reachable(s) && Fresh(s, n)
    ensures Reachable(HalfCommitted(s, n))
  {
    SignInAuthorizes(s, n);
    Intends(s, n);
    Go(Both(s, n, s.session, Authorizing, Pc.Done), WriteIntent(n.o, 1), Intended(s, n, Exchanging));
    Exchanges(s, n);
    Go(Intended(s, n, Exchanging), Exchange(n.o, true), Exchanged(s, n, Marking(Token(n.g, 0), true)));
    Marks(s, n);
    Go(Exchanged(s, n, Marking(Token(n.g, 0), true)), Mark(n.o), Marked(s, n, Committing(Token(n.g, 0))));
    Writes(s, n);
    Go(Marked(s, n, Committing(Token(n.g, 0))), CommitWrite(n.o), HalfCommitted(s, n));
  }

  // ---- the two losses ----

  /** A live grant the restarted client has no trace of. */
  ghost predicate LosesOnCrash(s: State, t: Token) {
    Reachable(s) && t in s.durable && t !in s.lost && t !in s.dropped && Honoured(s.server, t) && !InRecords(ApplyCrash(s), t)
  }

  /** After the first sign-in: one session, nothing running. */
  ghost function FirstSession(): State {
    ApplyCommitFinish(HalfCommitted(Init, Names(0, 1, 0)), 0, false)
  }

  lemma FirstSessionHolds()
    ensures Idle(FirstSession()) && FirstSession().session == Some(Token(0, 0))
    ensures FirstSession().ops.Keys == {0, 1} && FirstSession().tried == {0} && FirstSession().durable == {Token(0, 0)}
    ensures FirstSession().server == map[0 := Grant(0, true)]
  {
  }

  lemma FirstSignIn()
    ensures Reachable(FirstSession())
  {
    InitReachable();
    SignInHalfCommits(Init, Names(0, 1, 0));
    Go(HalfCommitted(Init, Names(0, 1, 0)), CommitFinish(0, false), FirstSession());
  }

  /** Two sign-ins; the process stops after the second's session write, before the first's grant is abandoned. */
  lemma ReplacedSessionCanBeLost()
    ensures exists s, t :: LosesOnCrash(s, t) && InWindow(s, t)
  {
    var n := Names(2, 3, 1);
    FirstSignIn();
    FirstSessionHolds();
    SignInHalfCommits(FirstSession(), n);
    var s := HalfCommitted(FirstSession(), n);
    assert Window(s.ops[2].pc) == Some(Token(0, 0));
    assert LosesOnCrash(s, Token(0, 0)) && InWindow(s, Token(0, 0));
  }

  ghost predicate RenewsNow(s: State, o: OpId, t: Token) {
    && s.lock == None && o in s.ops && s.ops[o].pc == Reading && s.ops[o].kind == SignIn
    && s.ops[o].epoch == s.epoch && s.session == Some(t) && t.grant == s.ops[o].grant && t.grant in s.server
  }

  lemma Declines(s: State, o: OpId, t: Token)
    requires RenewsNow(s, o, t)
    ensures Goes(s, Read(o), Goto(s, o, Requesting(t)))
    ensures Goes(Goto(s, o, Requesting(t)), Renew(o, Declined(false)), Goto(s, o, WipingOwn))
  {
  }

  lemma Wipes(s: State, o: OpId, t: Token)
    requires RenewsNow(s, o, t)
    ensures Goes(Goto(s, o, WipingOwn), WipeOwn(o), Goto(s.(session := None), o, Abandoning(t, Wiped)))
  {
  }

  /** A declined renewal right after the commit: the sign-in wipes its own session. */
  lemma DeclinedRenewalWipes(s: State, o: OpId, t: Token)
    requires Reachable(s) && RenewsNow(s, o, t)
    ensures Reachable(Goto(s.(session := None), o, Abandoning(t, Wiped)))
  {
    Declines(s, o, t);
    Go(s, Read(o), Goto(s, o, Requesting(t)));
    Go(Goto(s, o, Requesting(t)), Renew(o, Declined(false)), Goto(s, o, WipingOwn));
    Wipes(s, o, t);
    Go(Goto(s, o, WipingOwn), WipeOwn(o), Goto(s.(session := None), o, Abandoning(t, Wiped)));
  }

  /** One sign-in whose immediate renewal is declined; the process stops after its session is wiped. */
  lemma WipedSessionCanBeLost()
    ensures exists s, t :: LosesOnCrash(s, t) && InWindow(s, t)
  {
    InitReachable();
    SignInHalfCommits(Init, Names(0, 1, 0));
    var s1 := HalfCommitted(Init, Names(0, 1, 0));
    var s2 := Apply(s1, CommitFinish(0, true));
    Extend(s1, CommitFinish(0, true));
    var s3 := Goto(s2.(session := None), 0, Abandoning(Token(0, 0), Wiped));
    DeclinedRenewalWipes(s2, 0, Token(0, 0));
    assert Window(s3.ops[0].pc) == Some(Token(0, 0));
    assert LosesOnCrash(s3, Token(0, 0));
  }
}
