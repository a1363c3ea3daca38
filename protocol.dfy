/** The vocabulary the EPS (Homiris) alarm client shares with the remote API:
    the alarm-state constants, the fixed header sets, the parsed responses the
    client reads and the requests it sends. The HTTP transport itself is not
    modelled: every response is handed to the client as a value, and every
    request the client would send is returned as a value. */
module Protocol {

  datatype Option<+T> = None | Some(value: T)

  /** HTTP headers, by exact (case-sensitive) name. */
  type Headers = map<string, string>

  /** The JSON values that occur in the client's request bodies. */
  datatype Json = JNull | JBool(b: bool) | JString(s: string)

  type JsonObject = map<string, Json>

  // The security modes the status endpoint reports. TRIGGERED is the empty
  // string, which is why a failed status query is not an empty string here.
  const ArmedAway := "TOTAL"
  const ArmedNight := "PARTIAL"
  const Disarmed := "OFF"
  const Triggered := ""

  const ApiHost := "y41hsspp-mobile.eps-api.com"

  // The three header maps as the client starts with them. In the original
  // class they are class attributes, so every instance shares (and mutates)
  // the same three dictionaries; this model gives each instance its own copy.
  const TokenHeadersBase: Headers :=
    map["accept" := "*/*", "Content-type" := "application/x-www-form-urlencoded", "Host" := ApiHost]
  const ConnectHeadersBase: Headers :=
    map["accept" := "*/*", "Content-type" := "application/json", "Host" := ApiHost,
        "Eps-Ctx-Source" := "MOB-ABO"]
  const ApiHeadersBase: Headers :=
    map["accept" := "*/*", "Content-type" := "application/json"]

  const Authorization := "authorization"
  const CtxUsername := "Eps-Ctx-Username"

  /** Form body of the client-credentials grant (section 4.4 of RFC 6749). */
  const ClientCredentialsForm := "grant_type=client_credentials&scope=PRODUCTION"

  /** Safety margin subtracted from the token lifetime, in milliseconds. */
  const ExpiryMarginMs := 30000

  /** Parsed reply of the token endpoint; the fields are read only on status 200. */
  datatype TokenResponse = TokenResponse(status: int, expiresIn: int, accessToken: string)

  datatype Site = Site(idSite: string, title: string)

  /** Parsed reply of the connect endpoint; the fields are read only on status 200. */
  datatype ConnectResponse = ConnectResponse(status: int, idSession: string, sites: seq<Site>)

  /** Parsed reply of the homepage endpoint: `systemLastState.securityMode`. */
  datatype StatusResponse = StatusResponse(status: int, securityMode: string)

  /** Reply of the askstart and askstop endpoints; only the status is used. */
  datatype CommandResponse = CommandResponse(status: int)

  /** A successful connect reply lists at least one site; the client reads
      the first one and would fail on an empty list. */
  predicate SitesListed(response: ConnectResponse)
  {
    response.status == 200 ==> |response.sites| > 0
  }

  /** The requests the client sends, one constructor per endpoint. */
  datatype Request =
    | TokenRequest(headers: Headers, form: string)
    | ConnectRequest(headers: Headers, body: JsonObject)
    | HomepageRequest(headers: Headers, idSession: Option<string>)
    | AskStartRequest(headers: Headers, body: JsonObject)
    | AskStopRequest(headers: Headers, body: JsonObject)

  function BasicAuthorization(token: string): string
  {
    "Basic " + token
  }

  function BearerAuthorization(accessToken: string): string
  {
    "Bearer " + accessToken
  }

  /** An absent session is sent as JSON null. */
  function SessionJson(id: Option<string>): Json
  {
    match id
    case None => JNull
    case Some(v) => JString(v)
  }

  function ConnectBody(login: string, password: string): JsonObject
  {
    map["application" := JString("SMARTPHONE"), "typeDevice" := JString("SMARTPHONE"),
        "pwd" := JString(password), "login" := JString(login), "phoneType" := JString(""),
        "codeLanguage" := JString("FR"), "version" := JString(""), "timestamp" := JString("0"),
        "system" := JString("")]
  }

  function AskStartBody(idSession: Option<string>, silent: bool, mode: string): JsonObject
  {
    map["idSession" := SessionJson(idSession), "silentMode" := JBool(silent),
        "interventionService" := JBool(true), "systemMode" := JString(mode)]
  }

  function AskStopBody(idSession: Option<string>, silent: bool): JsonObject
  {
    map["silentMode" := JBool(silent), "idSession" := SessionJson(idSession)]
  }
}
