/**
 * The React Native client's storage-queue tasks, done in place on the two
 * stored records and one instance's fields. Each method does to the fields
 * what the protocol's step does to the state it runs in: `s` is that state,
 * `o` the operation whose task it is.
 */
module RnClient {
  import opened Wrappers
  import opened GrantServer
  import opened SessionRecord
  import opened RnProtocol
  import PR = PendingRevokes

  class Client {
    var session: Option<Token>
    var pending: seq<PR.Entry>
    var sessionGeneration: nat
    var signOutFlights: set<OpId>

    /** The fields are the store of `s` and its instance `i`. */
    ghost predicate Shows(s: State, i: InstanceId)
      reads this
    {
      && i in s.instances && session == s.session && pending == s.pending
      && sessionGeneration == s.instances[i].generation && signOutFlights == s.instances[i].flights
    }

    /** The first instance over an empty store. */
    constructor ()
      ensures forall i :: Shows(Apply(Init, AddInstance(i)), i)
    {
      session, pending, sessionGeneration, signOutFlights := None, [], 0, {};
    }

    method SignOut(ghost s: State, o: OpId, ghost i: InstanceId)
      requires Shows(s, i) && Enabled(s, StartSignOut(o, i))
      modifies `sessionGeneration, `signOutFlights
      ensures Shows(Apply(s, StartSignOut(o, i)), i)
    {
      sessionGeneration := sessionGeneration + 1;
      signOutFlights := signOutFlights + {o};
    }

    /**
     * The compare-and-set every session write and removal goes through.
     * `generation` is the one the operation started in, when it is bound to one.
     */
    method CommitSession(next: Option<Token>, expected: Expectation, generation: Option<nat>) returns (r: CommitResult)
      modifies `session
      ensures r == SessionRecord.CommitSession(old(session), next, expected, generation.Some? ==> generation.value == sessionGeneration)
      ensures session == if r.Committed? then next else old(session)
    {
      if generation.Some? && generation.value != sessionGeneration {
        return Superseded;
      }
      var current := session;
      if expected.Sid? && (current.None? || current.value.grant != expected.grant) {
        return Superseded;
      }
      if expected.Exactly? && (current.None? || current.value != expected.token) {
        return Superseded;
      }
      session := next;
      r := Committed(next, current);
    }

    /** saveSession: the token the operation goes on to abandon, if any. */
    method SaveSession(ghost s: State, ghost o: OpId, token: Token, any: bool, generation: nat) returns (abandoned: Option<Token>)
      requires Enabled(s, Commit(o)) && Shows(s, s.ops[o].owner)
      requires s.ops[o].generation == generation && s.ops[o].pc.token == token && s.ops[o].pc.any == any
      modifies `session
      ensures Shows(ApplyCommit(s, o), s.ops[o].owner)
      ensures abandoned == match ApplyCommit(s, o).ops[o].pc case Revoking(t, _) => Some(t) case _ => None
    {
      var r := CommitSession(Some(token), if any then Any else Sid(token.grant), Some(generation));
      match r
      case Superseded => abandoned := Some(token);
      case Committed(_, replaced) =>
        abandoned := if replaced.Some? && replaced.value.grant != token.grant then replaced else None;
    }

    method ReadCurrentSession(ghost s: State, ghost o: OpId, generation: nat) returns (current: Option<Token>)
      requires Enabled(s, Read(o)) && Shows(s, s.ops[o].owner) && s.ops[o].generation == generation
      ensures ApplyRead(s, o).ops[o].pc
        == if current.Some? then Requesting(current.value, s.ops[o].pc.reloaded, false) else Finished(Reject(None))
    {
      current := if signOutFlights != {} || generation != sessionGeneration then None else session;
    }

    method RemoveSession(ghost s: State, ghost o: OpId, sid: GrantId)
      requires Enabled(s, Step.Remove(o)) && Shows(s, s.ops[o].owner) && s.ops[o].pc.grant == sid
      modifies `session
      ensures Shows(ApplyRemove(s, o), s.ops[o].owner)
    {
      var _ := CommitSession(None, Sid(sid), None);
    }

    /** signOutDelegation's removal, and the end of its flight if nothing else is stored. */
    method RemoveSignedOut(ghost s: State, o: OpId, token: Token) returns (over: bool)
      requires Enabled(s, OutRemove(o)) && Shows(s, s.ops[o].owner) && s.ops[o].pc.token == token
      modifies `session, `signOutFlights
      ensures Shows(ApplyOutRemove(s, o), s.ops[o].owner)
      ensures ApplyOutRemove(s, o).ops[o].pc == if over then Finished(Resolve) else OutReading
    {
      var r := CommitSession(None, Exactly(token), None);
      over := r.Committed?;
      if over { signOutFlights := signOutFlights - {o}; }
    }

    method AppendPendingRevoke(ghost s: State, ghost o: OpId, token: Token, expiresAt: nat)
      requires Enabled(s, Record(o, expiresAt)) && Shows(s, s.ops[o].owner) && s.ops[o].pc.token == token
      modifies `pending
      ensures Shows(ApplyRecord(s, o, expiresAt), s.ops[o].owner)
    {
      for i := 0 to |pending|
        invariant forall k :: 0 <= k < i ==> pending[k].token != token
        invariant pending == old(pending)
      {
        if pending[i].token == token {
          return;
        }
      }
      pending := pending + [PR.Entry(token, 1, expiresAt)];
    }

    /** The write-back of a retry pass, over the record as it is now. */
    method WriteBack(ghost s: State, ghost o: OpId, done: set<Token>, attempts: map<Token, nat>)
      requires Enabled(s, PassWrite(o)) && Shows(s, s.ops[o].owner)
      requires s.ops[o].pc.done == done && s.ops[o].pc.bumped == attempts
      modifies `pending
      ensures Shows(Apply(s, PassWrite(o)), s.ops[o].owner)
    {
      var remaining: seq<PR.Entry> := [];
      for i := 0 to |pending|
        invariant pending == old(pending)
        invariant remaining == PR.Merge(pending[..i], done, attempts)
      {
        assert pending[..i + 1] == pending[..i] + [pending[i]];
        PR.MergeAppend(pending[..i], [pending[i]], done, attempts);
        if pending[i].token !in done {
          remaining := remaining + [PR.Bump(pending[i], attempts)];
        }
      }
      assert pending[..|pending|] == pending;
      pending := remaining;
    }
  }
}
