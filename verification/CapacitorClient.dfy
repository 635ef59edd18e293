/**
 * The Capacitor client's storage tasks, done in place on the store's three
 * records and the coordinator's counters. Each method does to the fields what
 * the protocol's step does to the state it runs in: `s` is that state, `o` the
 * operation whose task it is.
 */
module CapacitorClient {
  import opened Wrappers
  import opened GrantServer
  import opened CapacitorProtocol
  import PR = PendingRevokes

  class Coordinator {
    var session: Option<Token>
    var pending: seq<PR.Entry>
    var intent: Option<Intent>
    var epoch: nat
    var signInAttempt: nat
    var activeIntents: set<GrantId>

    /** The fields are the store and the counters of `s`. */
    ghost predicate Shows(s: State)
      reads this
    {
      && session == s.session && pending == s.pending && intent == s.intent
      && epoch == s.epoch && signInAttempt == s.attempt && activeIntents == s.active
    }

    constructor ()
      ensures Shows(Init)
    {
      session, pending, intent := None, [], None;
      epoch, signInAttempt, activeIntents := 0, 0, {};
    }

    method SignIn(ghost s: State, ghost o: OpId, ghost g: GrantId) returns (attempt: nat)
      requires Shows(s)
      modifies `signInAttempt
      ensures Shows(ApplyStartSignIn(s, o, g)) && attempt == ApplyStartSignIn(s, o, g).ops[o].attempt
    {
      signInAttempt := signInAttempt + 1;
      attempt := signInAttempt;
    }

    method WriteExchangeIntent(ghost s: State, ghost o: OpId, attemptId: GrantId, expiresAt: nat)
      requires Shows(s) && o in s.ops && s.ops[o].pc.Authorizing? && s.ops[o].grant == attemptId
      modifies `intent, `activeIntents
      ensures Shows(ApplyWriteIntent(s, o, expiresAt))
    {
      activeIntents := activeIntents + {attemptId};
      intent := Some(Intent(attemptId, None, expiresAt));
    }

    method MarkExchangeToken(ghost s: State, ghost o: OpId, attemptId: GrantId, token: Token) returns (saved: bool)
      requires Shows(s) && o in s.ops && s.ops[o].grant == attemptId && s.ops[o].pc.Marking? && s.ops[o].pc.token == token
      modifies `intent
      ensures Shows(ApplyMark(s, o))
      ensures saved ==> intent.Some? && intent.value.attempt == attemptId && intent.value.token == Some(token)
      ensures !saved ==> ApplyMark(s, o).ops[o].pc == Abandoning(token, Failed)
    {
      if intent.None? || intent.value.attempt != attemptId {
        return false;
      }
      intent := Some(intent.value.(token := Some(token)));
      saved := true;
    }

    method ClearExchangeIntent(ghost s: State, attemptId: GrantId)
      requires Shows(s)
      modifies `intent
      ensures Shows(ClearIntent(s, attemptId))
    {
      if intent.None? || intent.value.attempt != attemptId {
        return;
      }
      intent := None;
    }

    /** commitSignIn up to its session write. */
    method CommitWrite(ghost s: State, ghost o: OpId, token: Token, attempt: nat, previousKey: Option<GrantId>)
      returns (written: bool, current: Option<Token>)
      requires Shows(s) && o in s.ops && s.ops[o].pc.Committing? && s.ops[o].pc.token == token
      requires s.ops[o].attempt == attempt && GrantOf(s.ops[o].previous) == previousKey
      modifies `session
      ensures Shows(ApplyCommitWrite(s, o))
      ensures ApplyCommitWrite(s, o).ops[o].pc == if written then CommitWrote(token, current) else Abandoning(token, Failed)
    {
      current := session;
      if signInAttempt != attempt || GrantOf(current) != previousKey {
        return false, current;
      }
      session := Some(token);
      written := true;
    }

    /** The rest of commitSignIn, after whatever other operations did during the write. */
    method CommitFinish(ghost s: State, ghost o: OpId, ghost renewNow: bool, attempt: nat, current: Option<Token>, intentId: GrantId)
      returns (committed: Option<nat>)
      requires Shows(s) && o in s.ops && s.ops[o].pc.CommitWrote? && s.ops[o].pc.previous == current
      requires s.ops[o].attempt == attempt && s.ops[o].grant == intentId
      modifies `session, `intent, `epoch, `activeIntents
      ensures Shows(ApplyCommitFinish(s, o, renewNow).(active := activeIntents))
      ensures activeIntents == s.active
      ensures committed.None? ==> ApplyCommitFinish(s, o, renewNow).ops[o].pc == Abandoning(s.ops[o].pc.token, Failed)
      ensures committed.Some? ==> committed.value == epoch == ApplyCommitFinish(s, o, renewNow).ops[o].epoch
    {
      if signInAttempt != attempt {
        session := current;
        return None;
      }
      if intent.Some? && intent.value.attempt == intentId {
        intent := None;
      }
      epoch := epoch + 1;
      committed := Some(epoch);
    }

    method Write(ghost s: State, ghost o: OpId, token: Token, bound: nat, expected: Token) returns (written: bool)
      requires Shows(s) && o in s.ops && s.ops[o].pc.Writing? && s.ops[o].pc.token == token
      requires s.ops[o].epoch == bound && s.ops[o].pc.using == expected
      modifies `session
      ensures Shows(ApplyWrite(s, o))
      ensures written <==> ApplyWrite(s, o).ops[o].pc.Written?
    {
      if epoch != bound || session.None? || session.value != expected {
        return false;
      }
      session := Some(token);
      written := true;
    }

    /** wipe after a terminal renewal answer; a removal makes every older operation stale. */
    method WipeTerminal(ghost s: State, ghost o: OpId, bound: nat, expected: Token) returns (removed: bool)
      requires Shows(s) && o in s.ops && s.ops[o].pc.Wiping? && s.ops[o].epoch == bound && s.ops[o].pc.using == expected
      modifies `session, `epoch
      ensures Shows(ApplyWipe(s, o))
      ensures removed ==> ApplyWipe(s, o).ops[o].pc == Abandoning(expected, Terminal(s.ops[o].pc.rotated))
    {
      if epoch != bound || session.None? || session.value != expected {
        return false;
      }
      session := None;
      epoch := epoch + 1;
      removed := true;
    }

    /** signOutOnce's wipe: only the record just revoked, or the absence just read. */
    method WipeExactly(ghost s: State, ghost o: OpId, expected: Option<Token>) returns (removed: bool)
      requires Shows(s) && o in s.ops && s.ops[o].pc.OutWiping? && s.ops[o].pc.expected == expected
      modifies `session
      ensures Shows(ApplyOutWipe(s, o))
      ensures ApplyOutWipe(s, o).ops[o].pc == if removed then Pc.Done else OutReading(true)
    {
      if session != expected {
        return false;
      }
      session := None;
      removed := true;
    }

    method AppendPendingRevoke(ghost s: State, token: Token, now: nat, expiresAt: nat)
      requires Shows(s)
      modifies `pending
      ensures Shows(Append(s, token, now, expiresAt))
    {
      if now >= expiresAt {
        return;
      }
      for i := 0 to |pending|
        invariant pending == old(pending)
        invariant forall k :: 0 <= k < i ==> pending[k].token != token
      {
        if pending[i].token == token {
          return;
        }
      }
      pending := pending + [PR.Entry(token, 1, expiresAt)];
    }

    /** The write-back of a retry pass: settled and expired entries go, attempted ones take their new count. */
    method FinishPass(ghost s: State, ghost o: OpId, settled: set<Token>, attempted: map<Token, nat>, now: nat)
      requires Shows(s) && o in s.ops && s.ops[o].pc.Passing? && s.ops[o].pc.done == settled && s.ops[o].pc.bumped == attempted
      requires PR.DistinctTokens(s.pending)
      modifies `pending
      ensures Shows(ApplyPassWrite(s, o, now))
    {
      if settled == {} && attempted == map[] {
        return;
      }
      ghost var gone := settled + ExpiredTokens(pending, now);
      var kept: seq<PR.Entry> := [];
      for i := 0 to |pending|
        invariant pending == old(pending)
        invariant kept == PR.Merge(pending[..i], gone, attempted)
      {
        assert pending[..i + 1] == pending[..i] + [pending[i]];
        PR.MergeAppend(pending[..i], [pending[i]], gone, attempted);
        ExpiresAlone(pending, now, i);
        if pending[i].token !in settled && now < pending[i].expiresAt {
          kept := kept + [PR.Bump(pending[i], attempted)];
        }
      }
      assert pending[..|pending|] == pending;
      pending := kept;
    }
  }

  /** With distinct tokens, an entry's token is among the expired ones exactly when that entry has expired. */
  lemma ExpiresAlone(entries: seq<PR.Entry>, now: nat, i: nat)
    requires PR.DistinctTokens(entries) && i < |entries|
    ensures entries[i].token in ExpiredTokens(entries, now) <==> now >= entries[i].expiresAt
  {
  }
}
