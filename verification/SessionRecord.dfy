/**
 * The stored delegation session. Every write and remove of it is one
 * compare-and-set; a session is identified by its grant (the session key is
 * fresh for every sign-in), optionally pinned to one refresh token.
 */
module SessionRecord {
  import opened Wrappers
  import opened GrantServer

  datatype Expectation = Any | Sid(grant: GrantId) | Exactly(token: Token)

  datatype CommitResult = Committed(session: Option<Token>, replaced: Option<Token>) | Superseded

  predicate Matches(current: Option<Token>, expected: Expectation) {
    match expected
    case Any => true
    case Sid(g) => current.Some? && current.value.grant == g
    case Exactly(t) => current == Some(t)
  }

  /** commitSession: refuse a stale generation or an unexpected record, else write `next`. */
  function CommitSession(current: Option<Token>, next: Option<Token>, expected: Expectation, generationOk: bool)
    : CommitResult
  {
    if generationOk && Matches(current, expected) then Committed(next, current) else Superseded
  }
}
