/** The EPS client object. Its fields are those the original class keeps;
    each method updates them in place as the original does, takes the
    replies to the requests it sends as parameters, returns the requests it
    sends, and is proved to compute exactly the matching function of module
    Session. */
module Client {
  import opened Protocol
  import Session

  class EPS {
    const token: string
    const login: string
    const password: string

    var site: Option<string>
    var sessionId: Option<string>
    var loginExpires: Option<int>

    // Per-instance here; class attributes shared by all instances in the original.
    var tokenHeaders: Headers
    var connectHeaders: Headers
    var apiHeaders: Headers

    /** The object's fields as a state value. */
    function Snapshot(): Session.State
      reads this
    {
      Session.State(token, login, password, site, sessionId, loginExpires,
                    tokenHeaders, connectHeaders, apiHeaders)
    }

    ghost predicate Valid()
      reads this
    {
      Session.Invariant(Snapshot())
    }

    constructor (token: string, login: string, password: string)
      ensures this.token == token && this.login == login && this.password == password
      ensures site.None? && sessionId.None? && loginExpires.None?
      ensures Snapshot() == Session.Init(token, login, password)
      ensures Valid()
    {
      this.token := token;
      this.login := login;
      this.password := password;
      site := None;
      sessionId := None;
      loginExpires := None;
      tokenHeaders := TokenHeadersBase;
      connectHeaders := ConnectHeadersBase;
      apiHeaders := ApiHeadersBase;
    }

    method GetToken(now: int, response: TokenResponse) returns (ok: bool, sent: seq<Request>)
      requires Valid()
      modifies this
      ensures Valid()
      ensures Session.Step(Snapshot(), sent, ok) == Session.GetToken(old(Snapshot()), now, response)
    {
      ghost var spec := Session.GetToken(Snapshot(), now, response);
      tokenHeaders := tokenHeaders[Authorization := BasicAuthorization(token)];
      sent := [TokenRequest(tokenHeaders, ClientCredentialsForm)];
      if response.status != 200 {
        assert Snapshot() == spec.state;
        return false, sent;
      }
      var delay := response.expiresIn * 1000;
      loginExpires := Some(now + delay - ExpiryMarginMs);
      apiHeaders := apiHeaders[Authorization := BearerAuthorization(response.accessToken)];
      connectHeaders := connectHeaders[Authorization := BearerAuthorization(response.accessToken)];
      ok := true;
      assert Snapshot() == spec.state;
    }

    method GetSession(response: ConnectResponse) returns (ok: bool, sent: seq<Request>)
      requires Valid() && SitesListed(response)
      modifies this
      ensures Valid()
      ensures Session.Step(Snapshot(), sent, ok) == Session.GetSession(old(Snapshot()), response)
    {
      var body := ConnectBody(login, password);
      connectHeaders := connectHeaders[CtxUsername := login];
      sent := [ConnectRequest(connectHeaders, body)];
      if response.status != 200 {
        return false, sent;
      }
      sessionId := Some(response.idSession);
      site := Some(response.sites[0].idSite);
      ok := true;
    }

    method Auth(now: int, tokenResponse: TokenResponse, connectResponse: ConnectResponse)
      returns (sent: seq<Request>)
      requires Valid()
      requires !Session.Authenticated(Snapshot(), now) ==> SitesListed(connectResponse)
      modifies this
      ensures Valid()
      ensures Session.Step(Snapshot(), sent, ()) == Session.Auth(old(Snapshot()), now, tokenResponse, connectResponse)
    {
      if loginExpires.None? {
        var _, tokenSent := GetToken(now, tokenResponse);
        var _, sessionSent := GetSession(connectResponse);
        return tokenSent + sessionSent;
      }
      if loginExpires.value <= now {
        var _, tokenSent := GetToken(now, tokenResponse);
        var _, sessionSent := GetSession(connectResponse);
        return tokenSent + sessionSent;
      }
      if sessionId.None? {
        var _, sessionSent := GetSession(connectResponse);
        return sessionSent;
      }
      return [];
    }

    method GetSite(now: int, tokenResponse: TokenResponse, connectResponse: ConnectResponse)
      returns (result: Option<string>, sent: seq<Request>)
      requires Valid()
      requires !Session.Authenticated(Snapshot(), now) ==> SitesListed(connectResponse)
      modifies this
      ensures Valid()
      ensures Session.Step(Snapshot(), sent, result)
           == Session.GetSite(old(Snapshot()), now, tokenResponse, connectResponse)
    {
      sent := Auth(now, tokenResponse, connectResponse);
      result := site;
    }

    method GetStatus(now: int, tokenResponse: TokenResponse, connectResponse: ConnectResponse,
                     response: StatusResponse)
      returns (result: Session.StatusResult, sent: seq<Request>)
      requires Valid()
      requires !Session.Authenticated(Snapshot(), now) ==> SitesListed(connectResponse)
      modifies this
      ensures Valid()
      ensures Session.Step(Snapshot(), sent, result)
           == Session.GetStatus(old(Snapshot()), now, tokenResponse, connectResponse, response)
    {
      var authSent := Auth(now, tokenResponse, connectResponse);
      sent := authSent + [HomepageRequest(apiHeaders, sessionId)];
      if response.status == 403 {
        sessionId := None;
        return Session.Failed, sent;
      }
      if response.status != 200 {
        return Session.Failed, sent;
      }
      result := Session.Mode(response.securityMode);
    }

    method ArmAway(now: int, tokenResponse: TokenResponse, connectResponse: ConnectResponse,
                   response: CommandResponse, silent: bool := false)
      returns (ok: bool, sent: seq<Request>)
      requires Valid()
      requires !Session.Authenticated(Snapshot(), now) ==> SitesListed(connectResponse)
      modifies this
      ensures Valid()
      ensures Session.Step(Snapshot(), sent, ok)
           == Session.Arm(old(Snapshot()), now, tokenResponse, connectResponse, response, silent, ArmedAway)
    {
      var authSent := Auth(now, tokenResponse, connectResponse);
      var body := AskStartBody(sessionId, silent, ArmedAway);
      sent := authSent + [AskStartRequest(apiHeaders, body)];
      ok := response.status == 200;
    }

    method ArmNight(now: int, tokenResponse: TokenResponse, connectResponse: ConnectResponse,
                    response: CommandResponse, silent: bool := false)
      returns (ok: bool, sent: seq<Request>)
      requires Valid()
      requires !Session.Authenticated(Snapshot(), now) ==> SitesListed(connectResponse)
      modifies this
      ensures Valid()
      ensures Session.Step(Snapshot(), sent, ok)
           == Session.Arm(old(Snapshot()), now, tokenResponse, connectResponse, response, silent, ArmedNight)
    {
      var authSent := Auth(now, tokenResponse, connectResponse);
      var body := AskStartBody(sessionId, silent, ArmedNight);
      sent := authSent + [AskStartRequest(apiHeaders, body)];
      ok := response.status == 200;
    }

    method Disarm(now: int, tokenResponse: TokenResponse, connectResponse: ConnectResponse,
                  response: CommandResponse, silent: bool := false)
      returns (ok: bool, sent: seq<Request>)
      requires Valid()
      requires !Session.Authenticated(Snapshot(), now) ==> SitesListed(connectResponse)
      modifies this
      ensures Valid()
      ensures Session.Step(Snapshot(), sent, ok)
           == Session.Disarm(old(Snapshot()), now, tokenResponse, connectResponse, response, silent)
    {
      var authSent := Auth(now, tokenResponse, connectResponse);
      var body := AskStopBody(sessionId, silent);
      sent := authSent + [AskStopRequest(apiHeaders, body)];
      ok := response.status == 200;
    }
  }

  /** A new client with credentials "abc", "u", "p" whose token request gets
      a one-hour token and whose connect request lists site SITE1 reports
      SITE1 as its site. */
  method FirstSiteScenario() returns (result: Option<string>)
    ensures result == Some("SITE1")
  {
    var eps := new EPS("abc", "u", "p");
    var sent;
    result, sent := eps.GetSite(0, TokenResponse(200, 3600, "T1"),
                                ConnectResponse(200, "S1", [Site("SITE1", "Home")]));
  }

  /** A 403 on a status query drops the session; the next call, while the
      token is still valid, sends a connect request and then its own
      request, and no token request. */
  method ForbiddenScenario(now: int) returns (first: Session.StatusResult, second: Session.StatusResult,
                                              secondSent: seq<Request>)
    ensures first == Session.Failed
    ensures second == Session.Mode(Disarmed)
    ensures |secondSent| == 2 && secondSent[0].ConnectRequest? && secondSent[1].HomepageRequest?
    ensures secondSent[1].idSession == Some("S2")
  {
    var eps := new EPS("abc", "u", "p");
    var token := TokenResponse(200, 3600, "T1");
    var firstSent;
    first, firstSent := eps.GetStatus(now, token, ConnectResponse(200, "S1", [Site("SITE1", "Home")]),
                                      StatusResponse(403, ""));
    second, secondSent := eps.GetStatus(now + 1000, token,
                                        ConnectResponse(200, "S2", [Site("SITE1", "Home")]),
                                        StatusResponse(200, Disarmed));
  }
  /** Called without `silent`, disarming sends silentMode false, with the
      session the guard just obtained. */
  method DefaultDisarmScenario(now: int) returns (ok: bool, sent: seq<Request>)
    ensures ok
    ensures |sent| == 3 && sent[2] == AskStopRequest(sent[2].headers,
      map["silentMode" := JBool(false), "idSession" := JString("S1")])
  {
    var eps := new EPS("abc", "u", "p");
    ok, sent := eps.Disarm(now, TokenResponse(200, 3600, "T1"),
                           ConnectResponse(200, "S1", [Site("SITE1", "Home")]), CommandResponse(200));
  }
}
