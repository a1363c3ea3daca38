/** The session lifecycle of the EPS client as functions on a state value.
    Each function takes the state before a call and the responses the remote
    API gives, and returns the state after the call, the requests sent (in
    order) and the value the call returns. The class in module Client is
    proved to compute exactly these. Time is an integer number of
    milliseconds. */
module Session {
  import opened Protocol

  /** Everything an EPS object holds. */
  datatype State = State(
    token: string,
    login: string,
    password: string,
    site: Option<string>,
    sessionId: Option<string>,
    loginExpires: Option<int>,
    tokenHeaders: Headers,
    connectHeaders: Headers,
    apiHeaders: Headers)

  /** The outcome of one call: new state, requests sent, returned value. */
  datatype Step<+T> = Step(state: State, sent: seq<Request>, result: T)

  /** What a status query returns. A failure is kept apart from every mode,
      including TRIGGERED, the empty string. */
  datatype StatusResult = Failed | Mode(mode: string)

  /** `h` is `base` plus some of the keys in `extra`, and the keys of `base`
      keep their values. */
  predicate HeadersExtend(h: Headers, base: Headers, extra: set<string>)
  {
    && base.Keys <= h.Keys
    && h.Keys <= base.Keys + extra
    && forall k :: k in base ==> h[k] == base[k]
  }

  /** The object invariant: the header maps only ever gain the authorization
      and user-name entries; a token expiry exists exactly when the bearer
      headers are installed, and both bearer headers carry the same token;
      a session id never exists without a site. The last two hold only
      because every 200 token reply carries a token and every 200 connect
      reply that is read lists a site (`SitesListed`): the original sets
      the expiry before it reads the token, and the session id before it
      reads the first site, so a reply without them leaves the expiry or the
      session id set and raises. */
  predicate Invariant(s: State)
  {
    && HeadersExtend(s.tokenHeaders, TokenHeadersBase, {Authorization})
    && HeadersExtend(s.connectHeaders, ConnectHeadersBase, {Authorization, CtxUsername})
    && HeadersExtend(s.apiHeaders, ApiHeadersBase, {Authorization})
    && (Authorization in s.tokenHeaders ==> s.tokenHeaders[Authorization] == BasicAuthorization(s.token))
    && (s.loginExpires.Some? ==> Authorization in s.tokenHeaders)
    && (s.loginExpires.Some? <==> Authorization in s.apiHeaders)
    && (Authorization in s.apiHeaders <==> Authorization in s.connectHeaders)
    && (Authorization in s.apiHeaders ==> s.apiHeaders[Authorization] == s.connectHeaders[Authorization])
    && (CtxUsername in s.connectHeaders ==> s.connectHeaders[CtxUsername] == s.login)
    && (s.sessionId.Some? ==> s.site.Some?)
    && (s.site.Some? ==> CtxUsername in s.connectHeaders)
  }

  /** The state of a newly constructed client. */
  function Init(token: string, login: string, password: string): (s: State)
    ensures s.site.None? && s.sessionId.None? && s.loginExpires.None?
    ensures s.token == token && s.login == login && s.password == password
    ensures Authorization !in s.tokenHeaders && Authorization !in s.apiHeaders
    ensures Invariant(s)
  {
    State(token, login, password, None, None, None,
          TokenHeadersBase, ConnectHeadersBase, ApiHeadersBase)
  }

  /** The token is present and has not reached its expiry at `now`. */
  predicate TokenValid(s: State, now: int)
  {
    s.loginExpires.Some? && now < s.loginExpires.value
  }

  /** Nothing needs to be fetched at `now`. */
  predicate Authenticated(s: State, now: int)
  {
    TokenValid(s, now) && s.sessionId.Some?
  }

  /** Token acquisition: a client-credentials grant with Basic authorization. */
  function GetToken(s: State, now: int, response: TokenResponse): (r: Step<bool>)
    ensures r.state.tokenHeaders == s.tokenHeaders[Authorization := BasicAuthorization(s.token)]
    ensures r.sent == [TokenRequest(r.state.tokenHeaders, ClientCredentialsForm)]
    ensures r.result <==> response.status == 200
    ensures r.result ==>
      && r.state.loginExpires == Some(now + response.expiresIn * 1000 - ExpiryMarginMs)
      && r.state.apiHeaders == s.apiHeaders[Authorization := BearerAuthorization(response.accessToken)]
      && r.state.connectHeaders == s.connectHeaders[Authorization := BearerAuthorization(response.accessToken)]
    // the stored expiry lies strictly before the one the provider declared
    ensures r.result ==> r.state.loginExpires.value < now + response.expiresIn * 1000
    // a lifetime of 30 seconds or less is already expired when stored
    ensures r.result && response.expiresIn <= 30 ==> !TokenValid(r.state, now)
    ensures !r.result ==>
      && r.state.loginExpires == s.loginExpires
      && r.state.apiHeaders == s.apiHeaders
      && r.state.connectHeaders == s.connectHeaders
    // nothing else changes
    ensures r.state.(tokenHeaders := s.tokenHeaders, loginExpires := s.loginExpires,
                     apiHeaders := s.apiHeaders, connectHeaders := s.connectHeaders) == s
    ensures Invariant(s) ==> Invariant(r.state)
  {
    var asked := s.(tokenHeaders := s.tokenHeaders[Authorization := BasicAuthorization(s.token)]);
    var sent := [TokenRequest(asked.tokenHeaders, ClientCredentialsForm)];
    if response.status != 200 then
      Step(asked, sent, false)
    else
      var bearer := BearerAuthorization(response.accessToken);
      var expires := now + response.expiresIn * 1000 - ExpiryMarginMs;
      Step(asked.(loginExpires := Some(expires),
                  apiHeaders := asked.apiHeaders[Authorization := bearer],
                  connectHeaders := asked.connectHeaders[Authorization := bearer]),
           sent, true)
  }

  /** Session acquisition: log in with the credentials and keep the first site. */
  function GetSession(s: State, response: ConnectResponse): (r: Step<bool>)
    requires SitesListed(response)
    ensures r.state.connectHeaders == s.connectHeaders[CtxUsername := s.login]
    ensures r.sent == [ConnectRequest(r.state.connectHeaders, ConnectBody(s.login, s.password))]
    ensures r.result <==> response.status == 200
    ensures r.result ==>
      r.state.sessionId == Some(response.idSession) && r.state.site == Some(response.sites[0].idSite)
    ensures !r.result ==> r.state.sessionId == s.sessionId && r.state.site == s.site
    // nothing else changes
    ensures r.state.(connectHeaders := s.connectHeaders, sessionId := s.sessionId, site := s.site) == s
    ensures Invariant(s) ==> Invariant(r.state)
  {
    var asked := s.(connectHeaders := s.connectHeaders[CtxUsername := s.login]);
    var sent := [ConnectRequest(asked.connectHeaders, ConnectBody(s.login, s.password))];
    if response.status != 200 then
      Step(asked, sent, false)
    else
      Step(asked.(sessionId := Some(response.idSession), site := Some(response.sites[0].idSite)),
           sent, true)
  }

  /** Token and then session, whatever the token request returned. */
  function Reacquire(s: State, now: int, tokenResponse: TokenResponse, connectResponse: ConnectResponse): Step<()>
    requires SitesListed(connectResponse)
  {
    var t := GetToken(s, now, tokenResponse);
    var c := GetSession(t.state, connectResponse);
    Step(c.state, t.sent + c.sent, ())
  }

  /** The guard run before every public operation. */
  function Auth(s: State, now: int, tokenResponse: TokenResponse, connectResponse: ConnectResponse): (r: Step<()>)
    requires !Authenticated(s, now) ==> SitesListed(connectResponse)
    // no token, or an expired one: token request, then session request
    ensures !TokenValid(s, now) ==>
      var t := GetToken(s, now, tokenResponse);
      var c := GetSession(t.state, connectResponse);
      && |r.sent| == 2 && r.sent[0].TokenRequest? && r.sent[1].ConnectRequest?
      && r.sent == t.sent + c.sent
      && r.state == c.state
    // a valid token but no session: session request only, token untouched
    ensures TokenValid(s, now) && s.sessionId.None? ==>
      && |r.sent| == 1 && r.sent[0].ConnectRequest?
      && r.sent == GetSession(s, connectResponse).sent
      && r.state == GetSession(s, connectResponse).state
      && r.state.loginExpires == s.loginExpires
      && r.state.tokenHeaders == s.tokenHeaders
      && r.state.apiHeaders == s.apiHeaders
    // otherwise nothing at all
    ensures Authenticated(s, now) ==> r.sent == [] && r.state == s
    ensures r.state.token == s.token && r.state.login == s.login && r.state.password == s.password
    ensures s.loginExpires.Some? ==> r.state.loginExpires.Some?
    ensures Invariant(s) ==> Invariant(r.state)
  {
    if s.loginExpires.None? then
      Reacquire(s, now, tokenResponse, connectResponse)
    else if s.loginExpires.value <= now then
      Reacquire(s, now, tokenResponse, connectResponse)
    else if s.sessionId.None? then
      var c := GetSession(s, connectResponse);
      Step(c.state, c.sent, ())
    else
      Step(s, [], ())
  }

  /** The site after authentication; absent when authentication failed. */
  function GetSite(s: State, now: int, tokenResponse: TokenResponse, connectResponse: ConnectResponse): (r: Step<Option<string>>)
    requires !Authenticated(s, now) ==> SitesListed(connectResponse)
    ensures r.result == r.state.site
    ensures var a := Auth(s, now, tokenResponse, connectResponse); r.state == a.state && r.sent == a.sent
    ensures !Authenticated(s, now) && connectResponse.status == 200 ==>
      r.result == Some(connectResponse.sites[0].idSite)
  {
    var a := Auth(s, now, tokenResponse, connectResponse);
    Step(a.state, a.sent, a.state.site)
  }

  /** Status query: a 403 drops the session, any other non-200 fails. */
  function GetStatus(s: State, now: int, tokenResponse: TokenResponse, connectResponse: ConnectResponse,
                     response: StatusResponse): (r: Step<StatusResult>)
    requires !Authenticated(s, now) ==> SitesListed(connectResponse)
    ensures var a := Auth(s, now, tokenResponse, connectResponse);
      && r.sent == a.sent + [HomepageRequest(a.state.apiHeaders, a.state.sessionId)]
      && (response.status == 403 ==> r.state == a.state.(sessionId := None))
      && (response.status != 403 ==> r.state == a.state)
    ensures r.result.Failed? <==> response.status != 200
    ensures response.status == 200 ==> r.result.mode == response.securityMode
    ensures Invariant(s) ==> Invariant(r.state)
  {
    var a := Auth(s, now, tokenResponse, connectResponse);
    var sent := a.sent + [HomepageRequest(a.state.apiHeaders, a.state.sessionId)];
    if response.status == 403 then
      Step(a.state.(sessionId := None), sent, Failed)
    else if response.status != 200 then
      Step(a.state, sent, Failed)
    else
      Step(a.state, sent, Mode(response.securityMode))
  }

  /** Arming, in mode TOTAL (away) or PARTIAL (night). */
  function Arm(s: State, now: int, tokenResponse: TokenResponse, connectResponse: ConnectResponse,
               response: CommandResponse, silent: bool, mode: string): (r: Step<bool>)
    requires !Authenticated(s, now) ==> SitesListed(connectResponse)
    ensures var a := Auth(s, now, tokenResponse, connectResponse);
      r.state == a.state && |r.sent| == |a.sent| + 1 && r.sent[..|a.sent|] == a.sent
    ensures r.sent[|r.sent| - 1] == AskStartRequest(r.state.apiHeaders,
      map["idSession" := SessionJson(r.state.sessionId), "silentMode" := JBool(silent),
          "interventionService" := JBool(true), "systemMode" := JString(mode)])
    ensures r.result <==> response.status == 200
  {
    var a := Auth(s, now, tokenResponse, connectResponse);
    var request := AskStartRequest(a.state.apiHeaders, AskStartBody(a.state.sessionId, silent, mode));
    Step(a.state, a.sent + [request], response.status == 200)
  }

  /** Disarming. */
  function Disarm(s: State, now: int, tokenResponse: TokenResponse, connectResponse: ConnectResponse,
                  response: CommandResponse, silent: bool): (r: Step<bool>)
    requires !Authenticated(s, now) ==> SitesListed(connectResponse)
    ensures var a := Auth(s, now, tokenResponse, connectResponse);
      r.state == a.state && |r.sent| == |a.sent| + 1 && r.sent[..|a.sent|] == a.sent
    ensures r.sent[|r.sent| - 1] == AskStopRequest(r.state.apiHeaders,
      map["silentMode" := JBool(silent), "idSession" := SessionJson(r.state.sessionId)])
    ensures r.result <==> response.status == 200
  {
    var a := Auth(s, now, tokenResponse, connectResponse);
    var request := AskStopRequest(a.state.apiHeaders, AskStopBody(a.state.sessionId, silent));
    Step(a.state, a.sent + [request], response.status == 200)
  }
}
