/** The per-request migration gate. It resolves the caller's identity from the
    request and the session store, looks up the caller's status on the
    `XO_SP_ROUTE` route, and either forwards the request (with or without the
    decision header) or fails with a server error. */
module RequestFilter {
  import opened Wrappers
  import opened HashStore
  import opened StaticValues
  import opened RouteIds
  import opened Principals
  import opened SessionRepository

  /** The two `UserStatus` values the gate recognises, compared case-sensitively. */
  const BLOCK: string := "BLOCK"
  const ACTIVE: string := "ACTIVE"

  /** The decision header the gate adds for downstream code. */
  const MIGRATION_HEADER: string := "x-sp-xo-migration-yn"

  /** The migration status store: caller identity to a hash from route name to status. */
  type StatusStore = Hash<string>

  datatype Cookie = Cookie(name: string, value: string)

  /** An incoming request: its headers (one value per name) and its cookies,
      absent when the request carries none (`getCookies()` returns null). */
  datatype Request = Request(headers: map<string, string>, cookies: Option<seq<Cookie>>)

  /** What the filter does with a request: hand the wrapper (the original
      request plus the headers put on it) to the next handler, or raise
      `InternalServerException` without calling the chain. */
  datatype Outcome = Forward(original: Request, putHeaders: map<string, string>) | ServerError

  // ---------------------------------------------------------------- wrapper

  /** `MutableHttpServletRequest`: a view of the original request with header
      overrides layered on top. */
  class MutableRequest {
    const original: Request
    var customHeaders: map<string, string>

    constructor (request: Request)
      ensures original == request && customHeaders == map[]
    {
      original := request;
      customHeaders := map[];
    }

    /** Sets `name` to `value`; the last write wins. */
    method PutHeader(name: string, value: string)
      modifies this
      ensures customHeaders == old(customHeaders)[name := value]
    {
      customHeaders := customHeaders[name := value];
    }
  }

  /** Two puts of one name on a fresh wrapper leave only the second value. */
  method PutHeaderLastWriteWins(request: Request, name: string, first: string, second: string)
    returns (headers: map<string, string>)
    ensures headers.Keys == {name} && headers[name] == second
  {
    var wrapper := new MutableRequest(request);
    wrapper.PutHeader(name, first);
    wrapper.PutHeader(name, second);
    headers := wrapper.customHeaders;
  }

  // ------------------------------------------------------ identity resolution

  /** `getHeader(name)`: the header's value, or none where Java returns null. */
  function GetHeader(request: Request, name: string): Option<string>
  {
    Get(request.headers, name)
  }

  predicate HasCookie(cookies: seq<Cookie>, name: string)
  {
    exists i :: 0 <= i < |cookies| && cookies[i].name == name
  }

  predicate HoldsCookie(cookies: seq<Cookie>, name: string, value: string)
  {
    exists i :: 0 <= i < |cookies| && cookies[i].name == name && cookies[i].value == value
  }

  /** The value of a cookie with the given name (`filter(...).findAny()`): some
      such cookie's value, and none only when no cookie has that name. This
      definition takes the first match. */
  function FindCookie(cookies: seq<Cookie>, name: string): (r: Option<string>)
    ensures r.Some? <==> HasCookie(cookies, name)
    ensures r.Some? ==> HoldsCookie(cookies, name, r.value)
    decreases |cookies|
  {
    if |cookies| == 0 then None
    else if cookies[0].name == name then Some(cookies[0].value)
    else
      var rest := FindCookie(cookies[1..], name);
      assert HasCookie(cookies, name) ==> HasCookie(cookies[1..], name) by {
        if HasCookie(cookies, name) {
          var i :| 0 <= i < |cookies| && cookies[i].name == name;
          assert cookies[1..][i - 1].name == name;
        }
      }
      assert rest.Some? ==> HoldsCookie(cookies, name, rest.value) by {
        if rest.Some? {
          var i :| 0 <= i < |cookies[1..]| && cookies[1..][i].name == name && cookies[1..][i].value == rest.value;
          assert cookies[i + 1] == cookies[1..][i];
        }
      }
      rest
  }

  /** The session id: the `JSESSIONID` header, or failing that the value of a
      `JSESSIONID` cookie. */
  function SessionId(request: Request): (r: Option<string>)
    ensures JSESSIONID in request.headers ==> r == Some(request.headers[JSESSIONID])
    ensures JSESSIONID !in request.headers ==>
              (r.Some? <==> request.cookies.Some? && HasCookie(request.cookies.value, JSESSIONID))
    ensures JSESSIONID !in request.headers && r.Some? ==>
              HoldsCookie(request.cookies.value, JSESSIONID, r.value)
  {
    GetHeader(request, JSESSIONID)
      .Or(match request.cookies
          case None => None
          case Some(cookies) => FindCookie(cookies, JSESSIONID))
  }

  /** The Principal built from a session record: `userId`, `userName` and
      `sckMbbrNo` copied from the record's attributes of those names. */
  function PrincipalFromSession(record: SessionRecord): (p: Principal)
    ensures p.userId.Some? <==> USER_ID in record
    ensures p.userId.Some? ==> p.userId.value == record[USER_ID]
    ensures p.userName.Some? <==> USER_NAME in record
    ensures p.userName.Some? ==> p.userName.value == record[USER_NAME]
    ensures p.sckMbbrNo.Some? <==> SCK_MBBR_NO in record
    ensures p.sckMbbrNo.Some? ==> p.sckMbbrNo.value == record[SCK_MBBR_NO]
    ensures p.userType.None? && p.appId.None? && p.userStatus.None?
  {
    Principal(Get(record, USER_ID), Get(record, USER_NAME), Get(record, SCK_MBBR_NO), None, None, None)
  }

  /** The Principal built from a trusted `x-sp-customer-id` header value. */
  function CustomerPrincipal(customerId: string): Principal
  {
    Principal(None, None, Some(customerId), None, None, None)
  }

  /** `getPrincipalSession`: the trusted identity header first; otherwise the
      session record found under the request's session id. */
  function ResolvePrincipal(request: Request, sessions: SessionStore): (r: Option<Principal>)
    ensures X_SP_CUSTOMER_ID in request.headers ==>
              r == Some(Principal(None, None, Some(request.headers[X_SP_CUSTOMER_ID]), None, None, None))
    ensures X_SP_CUSTOMER_ID !in request.headers && SessionId(request).None? ==> r.None?
    ensures X_SP_CUSTOMER_ID !in request.headers && SessionId(request).Some? ==>
              (r.Some? <==> GetPrincipalSession(sessions, SessionId(request).value).Some?)
    ensures X_SP_CUSTOMER_ID !in request.headers && r.Some? ==>
              r.value == PrincipalFromSession(GetPrincipalSession(sessions, SessionId(request).value).value)
  {
    match GetHeader(request, X_SP_CUSTOMER_ID)
    case Some(customerId) => Some(CustomerPrincipal(customerId))
    case None =>
      match SessionId(request)
      case None => None
      case Some(sessionId) =>
        match GetPrincipalSession(sessions, sessionId)
        case None => None
        case Some(record) => Some(PrincipalFromSession(record))
  }

  /** The resolved Principal, if any, carries the identity the status lookup
      is keyed by. The source does not guard a session record without one. */
  predicate KeyResolvable(request: Request, sessions: SessionStore)
  {
    var p := ResolvePrincipal(request, sessions);
    p.Some? ==> p.value.sckMbbrNo.Some?
  }

  // ------------------------------------------------------------ status lookup

  /** `getPrincipalMigrationStatus`: looks up the status of `routeId` under the
      Principal's `sckMbbrNo` and, when found, stores it in `userStatus`. */
  function GetPrincipalMigrationStatus(principal: Principal, statuses: StatusStore, routeId: string)
    : (r: Option<Principal>)
    requires principal.sckMbbrNo.Some?
    ensures r.Some? <==> principal.sckMbbrNo.value in statuses && routeId in statuses[principal.sckMbbrNo.value]
    ensures r.Some? ==> r.value.userStatus == Some(statuses[principal.sckMbbrNo.value][routeId])
    ensures r.Some? ==> r.value.(userStatus := principal.userStatus) == principal
  {
    match HashGet(statuses, principal.sckMbbrNo.value, routeId)
    case None => None
    case Some(status) => Some(principal.(userStatus := Some(status)))
  }

  /** The caller's status on `XO_SP_ROUTE`: the value the gate's policy is
      decided by, absent when no identity resolves or no status is recorded. */
  function RouteStatus(request: Request, sessions: SessionStore, statuses: StatusStore): Option<string>
    requires KeyResolvable(request, sessions)
  {
    match ResolvePrincipal(request, sessions)
    case None => None
    case Some(p) => HashGet(statuses, p.sckMbbrNo.value, XoSpRoute.Name())
  }

  // -------------------------------------------------------------- the policy

  /** The decision header's value: "Y" exactly for the status `ACTIVE`. */
  function MigrationFlag(userStatus: Option<string>): (flag: string)
    ensures flag == "Y" <==> userStatus == Some(ACTIVE)
    ensures flag == "Y" || flag == "N"
  {
    if userStatus == Some(ACTIVE) then "Y" else "N"
  }

  /** `putMigrationStatusHeader`: puts the decision header on the wrapper. */
  method PutMigrationStatusHeader(wrapper: MutableRequest, principal: Principal)
    modifies wrapper
    ensures wrapper.customHeaders == old(wrapper.customHeaders)[MIGRATION_HEADER := MigrationFlag(principal.userStatus)]
  {
    wrapper.PutHeader(MIGRATION_HEADER, MigrationFlag(principal.userStatus));
  }

  /** `doFilter`: the five-way outcome policy. No identity or no status: the
      wrapper is forwarded with nothing put on it. `BLOCK`: a server error and
      the chain is not called. `ACTIVE`: the decision header is "Y". Any other
      status: the decision header is "N". */
  method DoFilter(request: Request, sessions: SessionStore, statuses: StatusStore)
    returns (outcome: Outcome)
    requires KeyResolvable(request, sessions)
    ensures RouteStatus(request, sessions, statuses).None? ==> outcome == Forward(request, map[])
    ensures outcome.ServerError? <==> RouteStatus(request, sessions, statuses) == Some(BLOCK)
    ensures RouteStatus(request, sessions, statuses) == Some(ACTIVE) ==>
              outcome == Forward(request, map[MIGRATION_HEADER := "Y"])
    ensures RouteStatus(request, sessions, statuses).Some? &&
            RouteStatus(request, sessions, statuses).value != BLOCK &&
            RouteStatus(request, sessions, statuses).value != ACTIVE ==>
              outcome == Forward(request, map[MIGRATION_HEADER := "N"])
  {
    var wrapper := new MutableRequest(request);
    var principal := ResolvePrincipal(request, sessions);
    if principal.Some? {
      var withStatus := GetPrincipalMigrationStatus(principal.value, statuses, XoSpRoute.Name());
      if withStatus.Some? {
        if withStatus.value.userStatus == Some(BLOCK) {
          return ServerError;
        }
        PutMigrationStatusHeader(wrapper, withStatus.value);
      }
    }
    outcome := Forward(wrapper.original, wrapper.customHeaders);
  }

  // ------------------------------------------------------- properties of it

  /** With the identity header present, the session store has no say in the
      Principal, and the status is looked up under the header's value. */
  lemma CustomerIdSkipsSessionStore(request: Request, s1: SessionStore, s2: SessionStore, statuses: StatusStore)
    requires X_SP_CUSTOMER_ID in request.headers
    ensures ResolvePrincipal(request, s1) == ResolvePrincipal(request, s2)
    ensures KeyResolvable(request, s1)
    ensures RouteStatus(request, s1, statuses) == HashGet(statuses, request.headers[X_SP_CUSTOMER_ID], "XO_SP_ROUTE")
  {
  }

  /** The `JSESSIONID` header wins: the cookies are not consulted when it is present. */
  lemma SessionHeaderWinsOverCookie(request: Request, cookies: Option<seq<Cookie>>)
    requires JSESSIONID in request.headers
    ensures SessionId(request.(cookies := cookies)) == SessionId(request) == Some(request.headers[JSESSIONID])
  {
  }

  /** Without identity header and session id, nothing is looked up and the
      gate bypasses, whatever either store holds. */
  lemma NoIdentityBypasses(request: Request, sessions: SessionStore, statuses: StatusStore)
    requires X_SP_CUSTOMER_ID !in request.headers && JSESSIONID !in request.headers
    requires request.cookies.None? || !HasCookie(request.cookies.value, JSESSIONID)
    ensures KeyResolvable(request, sessions)
    ensures RouteStatus(request, sessions, statuses).None?
  {
  }

  /** A session id without a session record also bypasses, whatever the status store holds. */
  lemma MissingSessionBypasses(request: Request, sessions: SessionStore, statuses: StatusStore)
    requires X_SP_CUSTOMER_ID !in request.headers && SessionId(request).Some?
    requires GetPrincipalSession(sessions, SessionId(request).value).None?
    ensures KeyResolvable(request, sessions)
    ensures RouteStatus(request, sessions, statuses).None?
  {
  }

  /** A Principal from a session record is keyed by the record's `sckMbbrNo`;
      the status is read from that key's `XO_SP_ROUTE` field and no other. */
  lemma SessionStatusKey(request: Request, sessions: SessionStore, statuses: StatusStore)
    requires X_SP_CUSTOMER_ID !in request.headers && SessionId(request).Some?
    requires GetPrincipalSession(sessions, SessionId(request).value).Some?
    requires SCK_MBBR_NO in GetPrincipalSession(sessions, SessionId(request).value).value
    ensures KeyResolvable(request, sessions)
    ensures RouteStatus(request, sessions, statuses) ==
            HashGet(statuses, GetPrincipalSession(sessions, SessionId(request).value).value[SCK_MBBR_NO], "XO_SP_ROUTE")
  {
  }

  // ------------------------------------------------------ worked examples

  const EXAMPLE_CUSTOMER: string := "20220712112147hilbmq"

  /** Identity header with an `ACTIVE` status: forwarded with the header "Y". */
  method ExampleActiveForwardsY() returns (outcome: Outcome)
    ensures outcome == Forward(Request(map[X_SP_CUSTOMER_ID := EXAMPLE_CUSTOMER], None), map[MIGRATION_HEADER := "Y"])
  {
    var request := Request(map[X_SP_CUSTOMER_ID := EXAMPLE_CUSTOMER], None);
    var statuses := map[EXAMPLE_CUSTOMER := map["XO_SP_ROUTE" := ACTIVE]];
    CustomerIdSkipsSessionStore(request, map[], map[], statuses);
    outcome := DoFilter(request, map[], statuses);
  }

  /** The same identity with a `BLOCK` status: a server error. */
  method ExampleBlockFails() returns (outcome: Outcome)
    ensures outcome == ServerError
  {
    var request := Request(map[X_SP_CUSTOMER_ID := EXAMPLE_CUSTOMER], None);
    var statuses := map[EXAMPLE_CUSTOMER := map["XO_SP_ROUTE" := BLOCK]];
    CustomerIdSkipsSessionStore(request, map[], map[], statuses);
    outcome := DoFilter(request, map[], statuses);
  }

  /** Only a `JSESSIONID` cookie, with no session record: forwarded unchanged. */
  method ExampleUnknownSessionBypasses(sessionId: string) returns (outcome: Outcome)
    ensures outcome == Forward(Request(map[], Some([Cookie(JSESSIONID, sessionId)])), map[])
  {
    var request := Request(map[], Some([Cookie(JSESSIONID, sessionId)]));
    var statuses := map[EXAMPLE_CUSTOMER := map["XO_SP_ROUTE" := ACTIVE]];
    MissingSessionBypasses(request, map[], statuses);
    outcome := DoFilter(request, map[], statuses);
  }
}
