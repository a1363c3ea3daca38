/** Properties of the session lifecycle across several calls: the object
    invariant over any sequence of public operations, the guard's
    idempotence, and how a 403, an expired token and a short token lifetime
    drive the next authentication. */
module Lifecycle {
  import opened Protocol
  import opened Session

  /** A public operation with the reply its own request receives. */
  datatype Operation =
    | SiteQuery
    | StatusQuery(status: StatusResponse)
    | ArmAway(command: CommandResponse, silent: bool)
    | ArmNight(command: CommandResponse, silent: bool)
    | DisarmCommand(command: CommandResponse, silent: bool)

  /** One public call: the time it runs at, the replies the guard's token and
      connect requests would receive, and the operation. */
  datatype Call = Call(now: int, token: TokenResponse, connect: ConnectResponse, op: Operation)

  /** What a public call returns. */
  datatype Reply = SiteReply(site: Option<string>) | StatusReply(status: StatusResult) | CommandReply(ok: bool)

  /** The guard of the call needs the connect reply only if it sends a
      connect request, and a successful one must then list a site. */
  predicate Ready(s: State, c: Call)
  {
    !Authenticated(s, c.now) ==> SitesListed(c.connect)
  }

  /** One public call: the guard's requests come first, then the call's own
      request, which get_site does not have. */
  function Perform(s: State, c: Call): (r: Step<Reply>)
    requires Ready(s, c)
    ensures var a := Auth(s, c.now, c.token, c.connect);
      && |r.sent| == |a.sent| + (if c.op.SiteQuery? then 0 else 1)
      && r.sent[..|a.sent|] == a.sent
    ensures c.op.SiteQuery? ==> r.state == Auth(s, c.now, c.token, c.connect).state
                                && r.result == SiteReply(r.state.site)
    ensures c.op.StatusQuery? <==> r.result.StatusReply?
  {
    match c.op
    case SiteQuery =>
      var r := GetSite(s, c.now, c.token, c.connect); Step(r.state, r.sent, SiteReply(r.result))
    case StatusQuery(status) =>
      var r := GetStatus(s, c.now, c.token, c.connect, status); Step(r.state, r.sent, StatusReply(r.result))
    case ArmAway(command, silent) =>
      var r := Arm(s, c.now, c.token, c.connect, command, silent, ArmedAway); Step(r.state, r.sent, CommandReply(r.result))
    case ArmNight(command, silent) =>
      var r := Arm(s, c.now, c.token, c.connect, command, silent, ArmedNight); Step(r.state, r.sent, CommandReply(r.result))
    case DisarmCommand(command, silent) =>
      var r := Disarm(s, c.now, c.token, c.connect, command, silent); Step(r.state, r.sent, CommandReply(r.result))
  }

  /** The state after one public call. */
  function After(s: State, c: Call): (t: State)
    requires Ready(s, c)
    ensures t.token == s.token && t.login == s.login && t.password == s.password
    ensures s.loginExpires.Some? ==> t.loginExpires.Some?
    ensures Invariant(s) ==> Invariant(t)
  {
    Perform(s, c).state
  }

  /** Every call of the sequence is ready in the state the calls before it leave. */
  predicate Runnable(s: State, calls: seq<Call>)
    decreases |calls|
  {
    calls == [] || (Ready(s, calls[0]) && Runnable(After(s, calls[0]), calls[1..]))
  }

  /** The state after a sequence of public calls. The credentials never
      change, and once a token expiry is set it is never cleared. */
  function Run(s: State, calls: seq<Call>): (t: State)
    requires Runnable(s, calls)
    ensures t.token == s.token && t.login == s.login && t.password == s.password
    ensures s.loginExpires.Some? ==> t.loginExpires.Some?
    decreases |calls|
  {
    if calls == [] then s else Run(After(s, calls[0]), calls[1..])
  }

  /** Every sequence of public calls keeps the object invariant. */
  lemma {:induction false} RunPreservesInvariant(s: State, calls: seq<Call>)
    requires Invariant(s) && Runnable(s, calls)
    ensures Invariant(Run(s, calls))
    decreases |calls|
  {
    if calls != [] {
      RunPreservesInvariant(After(s, calls[0]), calls[1..]);
    }
  }

  /** From construction on, over calls whose 200 connect replies list a
      site, a session id never exists without a site, and a token expiry
      never without both bearer headers carrying one token. */
  lemma RunFromInit(token: string, login: string, password: string, calls: seq<Call>)
    requires Runnable(Init(token, login, password), calls)
    ensures var t := Run(Init(token, login, password), calls);
      && (t.sessionId.Some? ==> t.site.Some?)
      && (t.loginExpires.Some? ==>
            Authorization in t.apiHeaders && Authorization in t.connectHeaders
            && t.apiHeaders[Authorization] == t.connectHeaders[Authorization])
  {
    RunPreservesInvariant(Init(token, login, password), calls);
  }

  /** A second guard at the same instant, after one that left a valid token
      and a session, sends nothing and changes nothing. */
  lemma AuthIdempotent(s: State, now: int, token: TokenResponse, connect: ConnectResponse,
                       token': TokenResponse, connect': ConnectResponse)
    requires !Authenticated(s, now) ==> SitesListed(connect)
    requires var a := Auth(s, now, token, connect); TokenValid(a.state, now) && a.state.sessionId.Some?
    ensures var a := Auth(s, now, token, connect);
      Auth(a.state, now, token', connect') == Step(a.state, [], ())
  {
  }

  /** The guard of a new client sends the Basic-authorized token request,
      then the connect request with the credentials, bearer-authorized
      exactly when the token request got a 200. */
  lemma FirstGuard(apiToken: string, login: string, password: string, now: int,
                   token: TokenResponse, connect: ConnectResponse)
    requires SitesListed(connect)
    ensures var a := Auth(Init(apiToken, login, password), now, token, connect);
      && |a.sent| == 2
      && a.sent[0] == TokenRequest(TokenHeadersBase[Authorization := BasicAuthorization(apiToken)],
                                   ClientCredentialsForm)
      && a.sent[1].ConnectRequest? && a.sent[1].body == ConnectBody(login, password)
      && CtxUsername in a.sent[1].headers && a.sent[1].headers[CtxUsername] == login
      && (Authorization in a.sent[1].headers <==> token.status == 200)
      && (token.status == 200 ==>
            a.sent[1].headers[Authorization] == BearerAuthorization(token.accessToken))
  {
    var s := Init(apiToken, login, password);
    var t := GetToken(s, now, token);
    assert t.state.connectHeaders == if token.status == 200
      then ConnectHeadersBase[Authorization := BearerAuthorization(token.accessToken)]
      else ConnectHeadersBase;
  }

  /** The first public call of a new client, whichever it is, sends the
      guard's two requests of FirstGuard, then its own request, if it has
      one. */
  lemma FirstCallTokenThenSession(apiToken: string, login: string, password: string, c: Call)
    requires SitesListed(c.connect)
    ensures var r := Perform(Init(apiToken, login, password), c);
      var a := Auth(Init(apiToken, login, password), c.now, c.token, c.connect);
      && |r.sent| == (if c.op.SiteQuery? then 2 else 3)
      && r.sent[..2] == a.sent
      && (c.op.StatusQuery? ==> r.sent[2].HomepageRequest?)
      && (c.op.ArmAway? || c.op.ArmNight? ==> r.sent[2].AskStartRequest?)
      && (c.op.DisarmCommand? ==> r.sent[2].AskStopRequest?)
  {
    FirstGuard(apiToken, login, password, c.now, c.token, c.connect);
  }

  /** When the guard has everything it needs from the replies, the client is
      authenticated afterwards and holds the first site of the connect reply. */
  lemma AuthEstablishes(s: State, now: int, token: TokenResponse, connect: ConnectResponse)
    requires !Authenticated(s, now) && SitesListed(connect)
    requires connect.status == 200
    requires !TokenValid(s, now) ==> token.status == 200 && token.expiresIn > 30
    ensures var t := Auth(s, now, token, connect).state;
      Authenticated(t, now) && t.sessionId == Some(connect.idSession) && t.site == Some(connect.sites[0].idSite)
  {
  }

  /** After a 403 on a status query, the next call within the token's
      lifetime asks for a session only and keeps the token. */
  lemma ForbiddenThenSessionOnly(s: State, now: int, token: TokenResponse, connect: ConnectResponse,
                                 later: int, token': TokenResponse, connect': ConnectResponse)
    requires !Authenticated(s, now) ==> SitesListed(connect)
    requires SitesListed(connect')
    requires var t := GetStatus(s, now, token, connect, StatusResponse(403, "")).state;
      TokenValid(t, later)
    ensures var t := GetStatus(s, now, token, connect, StatusResponse(403, "")).state;
      var a := Auth(t, later, token', connect');
      && t.sessionId.None?
      && |a.sent| == 1 && a.sent[0].ConnectRequest?
      && a.state.loginExpires == t.loginExpires
      && a.state.apiHeaders == t.apiHeaders
      && (Authorization in a.state.connectHeaders <==> Authorization in t.connectHeaders)
      && (Authorization in t.connectHeaders ==>
            a.state.connectHeaders[Authorization] == t.connectHeaders[Authorization])
      && (connect'.status == 200 ==> a.state.sessionId == Some(connect'.idSession))
  {
  }

  /** An expired token is replaced together with the session and the site. */
  lemma ExpiredRefreshesAll(s: State, now: int, token: TokenResponse, connect: ConnectResponse)
    requires s.loginExpires.Some? && s.loginExpires.value <= now
    requires SitesListed(connect) && token.status == 200 && connect.status == 200
    ensures var t := Auth(s, now, token, connect).state;
      && t.loginExpires == Some(now + token.expiresIn * 1000 - ExpiryMarginMs)
      && t.apiHeaders[Authorization] == BearerAuthorization(token.accessToken)
      && t.connectHeaders[Authorization] == BearerAuthorization(token.accessToken)
      && t.sessionId == Some(connect.idSession)
      && t.site == Some(connect.sites[0].idSite)
  {
  }

  /** A token lifetime of 30 seconds or less is stored already expired, so
      the next guard at the same instant fetches a token again. */
  lemma ShortLifetimeRefetches(s: State, now: int, token: TokenResponse, connect: ConnectResponse,
                               token': TokenResponse, connect': ConnectResponse)
    requires !TokenValid(s, now) && SitesListed(connect) && SitesListed(connect')
    requires token.status == 200 && token.expiresIn <= 30
    ensures var t := Auth(s, now, token, connect).state;
      var a := Auth(t, now, token', connect');
      |a.sent| == 2 && a.sent[0].TokenRequest?
  {
  }

  /** A failed token request does not stop the session request, which then
      goes out with the previous (or no) bearer header, and a 200 reply to it
      stores the session. */
  lemma FailedTokenStillConnects(s: State, now: int, token: TokenResponse, connect: ConnectResponse)
    requires !TokenValid(s, now) && SitesListed(connect) && token.status != 200
    ensures var a := Auth(s, now, token, connect);
      && |a.sent| == 2 && a.sent[1].ConnectRequest?
      && a.state.loginExpires == s.loginExpires
      && (Authorization in a.sent[1].headers <==> Authorization in s.connectHeaders)
      && (connect.status == 200 ==> a.state.sessionId == Some(connect.idSession))
  {
  }
}
