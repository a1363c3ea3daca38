# EPS alarm client: session lifecycle

A model of the `EPS` class of pyepsalarm, the Python client for the EPS
(Homiris) home-alarm cloud API. The class caches an OAuth bearer token (a
client-credentials grant, section 4.4 of RFC 6749, sent with HTTP Basic
authorization) with its expiry, and an application session with its site. Before
every public operation it runs a guard (`_auth`):

1. no expiry, or an expiry at or before now: fetch a token, then a session,
   whatever the token request returned;
2. otherwise, no session: fetch a session only;
3. otherwise: do nothing.

A 403 on the status query drops the session and nothing else. The arm and
disarm commands build fixed request bodies and succeed exactly on status 200.

The model has four modules:

- `Protocol` (protocol.dfy): the alarm-state constants, the initial header
  maps, the parsed replies the client reads and the requests it sends.
- `Session` (session.dfy): the whole object state as a value, and one function
  per method of the class. Each returns the new state, the requests sent in
  order, and the value returned. Their contracts say which fields change and
  how. `Invariant` is the object invariant, and every function keeps it.
- `Lifecycle` (lifecycle.dfy): sequences of public calls (`Run`), and lemmas
  that relate several calls.
- `Client` (client.dfy): the class `EPS` with the original's fields. Its
  methods update the fields in place, in the original's order. Each is proved
  to compute exactly the matching `Session` function. Three client methods replay
  concrete scenarios.

The network is replaced by values. Each method takes the replies its requests
would receive as parameters and returns the requests it would send.
`datetime.now()` is replaced by an integer `now` in milliseconds.

Three behaviours of the code are worth knowing:

- The client never keeps the access token in a field of its own. It exists only
  in the `authorization` entries of `apiHeaders` and `connectHeaders`
  (pyepsalarm/pyepsalarm.py:62-63), and the model keeps it the same way.
- A session can be stored without a valid token. After a failed token request,
  `_auth` still sends the connect request, and a 200 reply stores the session
  (pyepsalarm/pyepsalarm.py:103-104, 108-109; `Lifecycle.FailedTokenStillConnects`).
- The arm and disarm commands are posted to `system/askstart/` and
  `system/askstop` directly under the API root (pyepsalarm/pyepsalarm.py:146,
  165, 181); connect and homepage use the `smartphone/production/1.0.0/` prefix
  (pyepsalarm/pyepsalarm.py:86, 124). Endpoint strings are not modelled: each
  endpoint is a `Request` constructor.

## Model

| member | source | states |
|---|---|---|
| `Session.Init` | pyepsalarm/pyepsalarm.py:35-43 | a new client has no site, no session and no expiry, holds the given token, login and password, has no authorization headers, and satisfies the invariant |
| `Client.EPS.constructor` | pyepsalarm/pyepsalarm.py:35-43 | the object's fields are exactly `Session.Init` of the credentials: site, session and expiry absent, the credentials stored |
| `Session.GetToken` | pyepsalarm/pyepsalarm.py:47-68 | the Basic authorization header is written before the request. On 200 the result is true, the expiry is now + expires_in·1000 − 30000 ms (strictly before the provider's expiry, and already expired when expires_in ≤ 30), and both bearer headers carry "Bearer " + access_token. On any other status the result is false and the expiry and bearer headers are unchanged. No other field changes, and the invariant is kept |
| `Client.EPS.GetToken` | pyepsalarm/pyepsalarm.py:47-68 | the in-place field updates and the request sent are exactly `Session.GetToken`; the object invariant is kept |
| `Session.GetSession` | pyepsalarm/pyepsalarm.py:71-98 | the user-name header is set before the request, and the body carries login and password. The result is true iff the status is 200. On 200, session = idSession and site = the idSite of the first listed site. Otherwise both are unchanged. No other field changes |
| `Client.EPS.GetSession` | pyepsalarm/pyepsalarm.py:71-98 | the in-place updates and the request sent are exactly `Session.GetSession` |
| `Session.Auth` | pyepsalarm/pyepsalarm.py:100-115 | no expiry or an expiry ≤ now: a token request and then a connect request, with state = session step after token step, whatever the token result. A valid token but no session: one connect request, and expiry, token and api headers untouched. Otherwise no request and no change. Credentials are kept, an expiry once set stays set, and the invariant is kept |
| `Client.EPS.Auth` | pyepsalarm/pyepsalarm.py:100-115 | the early-return branches, calling the token and session methods, compute exactly `Session.Auth` |
| `Session.GetSite` | pyepsalarm/pyepsalarm.py:117-119 | returns the site held after the guard. When the guard connected and got a 200, that is the first listed site |
| `Client.EPS.GetSite` | pyepsalarm/pyepsalarm.py:117-119 | computes exactly `Session.GetSite` |
| `Session.GetStatus` | pyepsalarm/pyepsalarm.py:121-135 | after the guard it sends the homepage request with the current session id. On 403 only the session is dropped. Any other status leaves the guard's state. The result is `Failed` iff the status is not 200, and on 200 it is the reported security mode, so TRIGGERED ("") stays distinct from failure |
| `Client.EPS.GetStatus` | pyepsalarm/pyepsalarm.py:121-135 | computes exactly `Session.GetStatus`, clearing `sessionId` in place on 403 |
| `Session.Arm` | pyepsalarm/pyepsalarm.py:137-173 | the state is the guard's. The requests are the guard's plus one askstart request with body {idSession: current session or null, silentMode: the argument, interventionService: true, systemMode: the mode} on the api headers. The result is true iff the status is 200 |
| `Client.EPS.ArmAway` | pyepsalarm/pyepsalarm.py:137-154 | computes exactly `Session.Arm` with mode "TOTAL"; `silent` defaults to false |
| `Client.EPS.ArmNight` | pyepsalarm/pyepsalarm.py:156-173 | computes exactly `Session.Arm` with mode "PARTIAL"; `silent` defaults to false |
| `Session.Disarm` | pyepsalarm/pyepsalarm.py:175-189 | the state is the guard's. The requests are the guard's plus one askstop request with body {silentMode, idSession} only. The result is true iff the status is 200 |
| `Client.EPS.Disarm` | pyepsalarm/pyepsalarm.py:175-189 | computes exactly `Session.Disarm`; `silent` defaults to false |
| `Lifecycle.Perform` | pyepsalarm/pyepsalarm.py:117-189 | any one public call sends the guard's requests first, then its own request: none for get_site, exactly one for the others. get_site returns the site the guard leaves and changes nothing beyond the guard, and only get_status returns a status |
| `Lifecycle.After` | pyepsalarm/pyepsalarm.py:117-189 | one public call keeps the credentials and the invariant, and never clears a token expiry. The connect reply must list a site only when the call's guard sends a connect request |
| `Lifecycle.Run` | pyepsalarm/pyepsalarm.py:100-189 | over any sequence of public calls the credentials never change, and a token expiry once set is never cleared. Each call needs a listed site only if its guard sends a connect request in the state the earlier calls left |
| `Lifecycle.RunPreservesInvariant` | pyepsalarm/pyepsalarm.py:47-135 | every sequence of public calls keeps the invariant: headers only gain authorization and user-name entries, an expiry exists iff both bearer headers exist and they are equal, and a session id implies a site |
| `Lifecycle.RunFromInit` | pyepsalarm/pyepsalarm.py:35-135 | from construction on, over calls whose 200 connect replies list a site (`Runnable`) and whose 200 token replies carry a token, a session id never exists without a site, and a token expiry never exists without equal bearer headers in both maps |
| `Lifecycle.AuthIdempotent` | pyepsalarm/pyepsalarm.py:106-115 | if a guard leaves a valid token and a session, a second guard at the same instant sends nothing and changes nothing |
| `Lifecycle.FirstGuard` | pyepsalarm/pyepsalarm.py:47-105 | the guard of a new client sends the Basic-authorized client-credentials request. It then sends the connect request with the credentials and the user-name header, bearer-authorized exactly when the token reply was 200, and then with "Bearer " + the access token of that reply |
| `Lifecycle.FirstCallTokenThenSession` | pyepsalarm/pyepsalarm.py:100-189 | the first public call of a new client, whichever of get_site, get_status, arm_away, arm_night and disarm it is, sends exactly the guard's two requests of `FirstGuard`. It then sends its own request: homepage, askstart or askstop, and none for get_site |
| `Lifecycle.AuthEstablishes` | pyepsalarm/pyepsalarm.py:100-115 | with a 200 connect reply, and if a token is fetched a 200 reply with a lifetime over 30 s, the guard leaves the client authenticated, holding the new session and the first site |
| `Lifecycle.ForbiddenThenSessionOnly` | pyepsalarm/pyepsalarm.py:111-129 | after a 403 the session is absent. The next guard within the token's lifetime sends one connect request, keeps the expiry and both bearer headers (api and connect), and on 200 stores the new session |
| `Lifecycle.ExpiredRefreshesAll` | pyepsalarm/pyepsalarm.py:106-110 | an expired token is replaced: the new expiry, "Bearer " + the new access token in both the api and the connect headers, the new session and the first listed site |
| `Lifecycle.ShortLifetimeRefetches` | pyepsalarm/pyepsalarm.py:57-59 | a token lifetime ≤ 30 s is stored already expired, so the next guard at the same instant fetches a token again |
| `Lifecycle.FailedTokenStillConnects` | pyepsalarm/pyepsalarm.py:101-109 | after a failed token request the connect request is still sent. The expiry is unchanged, the connect request carries a bearer header exactly when one was installed before, and a 200 connect reply stores the session |
| `Client.FirstSiteScenario` | pyepsalarm/pyepsalarm.py:117-119 | a client built with "abc"/"u"/"p", given a one-hour token and a connect reply listing SITE1, returns SITE1 from `GetSite` |
| `Client.DefaultDisarmScenario` | pyepsalarm/pyepsalarm.py:175-189 | `disarm` called without `silent` sends silentMode false and the session the guard just obtained, and succeeds on 200 |
| `Client.ForbiddenScenario` | pyepsalarm/pyepsalarm.py:121-135 | a 403 status query fails. The next status query within the token's lifetime sends a connect request and then the homepage request with the new session, no token request, and returns the reported mode |

## Left out

- The HTTP transport and URL construction. Each request is a `Request` value and each reply a parameter. Endpoint strings are not modelled.
- JSON decoding. A missing key would raise `KeyError` in the original; the parsed replies always carry their fields here. The one reachable `IndexError`, an empty site list in a 200 connect reply, is excluded by the precondition `SitesListed`. That precondition applies only when the guard actually sends a connect request; over a sequence of calls, `Lifecycle.Runnable` requires it only of those calls. The original stores `session_id` (pyepsalarm/pyepsalarm.py:94) before it raises at line 96, so it can hold a session id with no site, and the next guard within the token's lifetime then does nothing (line 115) while `get_site` keeps returning `None`. The invariant's "a session id implies a site" therefore holds only for calls whose 200 connect replies list a site. Likewise a reply without `access_token` raises at line 61 after `login_expires` was set at line 59, leaving an expiry with no bearer header; the invariant's "an expiry implies both bearer headers" holds only for 200 token replies that carry the token.
- `datetime.now()` and `timedelta`. One integer `now` in milliseconds serves a whole public call, although the original reads the clock again when it computes the expiry. `expires_in` is taken to be an integer number of seconds.
- Logging and `print(response.text)`. They have no effect on state.
- The sharing of the three header dictionaries between all `EPS` instances. They are class attributes in the original; here each instance has its own copy.
- setup.py. It is packaging metadata only.
- Overflow of the expiry. `datetime.now() + timedelta(milliseconds=...)` (pyepsalarm/pyepsalarm.py:59) raises `OverflowError` when `expires_in` is out of the range of `timedelta` or `datetime`. The Basic header is then already written and `login_expires` is unchanged. The model stores any integer expiry instead.
- Transport exceptions. `requests.post` and `requests.get` can raise, for example on a connection error or a timeout. The exception leaves `_auth` and the public method partway through. The client can then hold a new token although no connect request was sent, or never send the operation's own request. The model always sends the full sequence of requests.
