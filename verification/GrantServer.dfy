/**
 * The server side of a delegation grant, as the SDKs observe it.
 *
 * A sign-in creates a grant whose refresh token rotates: version 0 is issued
 * by the code exchange and every successful renewal issues the next version.
 * The session key is fresh for each sign-in, so the session id the clients
 * compare is the grant id.
 */
module GrantServer {
  type GrantId = nat

  datatype Token = Token(grant: GrantId, version: nat)

  datatype Grant = Grant(current: nat, live: bool)

  type Server = map<GrantId, Grant>

  /** The server still accepts `t`: its grant is live and `t` is the newest version. */
  predicate Honoured(server: Server, t: Token) {
    t.grant in server && server[t.grant].live && server[t.grant].current == t.version
  }

  function Create(server: Server, g: GrantId): (r: Server)
    requires g !in server
  {
    server[g := Grant(0, true)]
  }

  function Next(t: Token): Token {
    Token(t.grant, t.version + 1)
  }

  /** A renewal: the token after `t` becomes the only one accepted. */
  function Rotate(server: Server, t: Token): Server
    requires Honoured(server, t)
  {
    server[t.grant := Grant(t.version + 1, true)]
  }

  function Kill(server: Server, g: GrantId): Server
    requires g in server
  {
    server[g := server[g].(live := false)]
  }

  /** How a server may change under everything the clients ask of it. */
  ghost predicate Evolves(before: Server, after: Server) {
    forall g | g in before ::
      && g in after
      && before[g].current <= after[g].current
      && (after[g].live ==> before[g].live)
  }

  /** A token the server has stopped accepting is never accepted again. */
  lemma NotHonouredIsForever(before: Server, after: Server, t: Token)
    requires Evolves(before, after)
    requires t.grant in before && t.version <= before[t.grant].current
    requires !Honoured(before, t)
    ensures !Honoured(after, t)
  {
    assert before[t.grant].current <= after[t.grant].current;
  }
}
