/**
 * The catch-all proxy handler (src/routes/proxy.router.ts) and the checks of proxy.service.ts it
 * sequences: strip spoofed headers, verify the token, roles, scope, quota, inject identity headers,
 * dispatch, audit. Route matching, token verification and the upstream's answer are inputs.
 */
module ProxyPipeline {
  import opened Wrappers
  import S = Scopes
  import R = RateLimiter
  import D = ProxyDispatch

  type Headers = map<string, string>

  datatype Claims = Claims(sub: string, email: string, roles: seq<string>, authMethod: string,
                           tenantId: Option<string>, scope: string)

  datatype Route = Route(
    path: string,
    authRequired: bool,
    requiredScope: Option<string>,
    allowedRoles: Option<seq<string>>,
    rateLimitOverride: Option<nat>,
    auditAllowedRequests: bool)

  /** RATE_LIMIT_WINDOW_MS and RATE_LIMIT_MAX_REQUESTS. */
  datatype Config = Config(windowMs: R.Positive, maxRequests: nat)

  /** What verifyAccessToken makes of a bearer token: claims, an error code, or an exception (Redis is down). */
  datatype Verified = Accepted(claims: Claims) | Refused(code: string) | Threw

  /** One request and everything the outside world decides about it. */
  datatype Request = Request(
    resolved: Option<(Route, string)>,
    headers: Headers,
    ip: string,
    resource: string,
    requestId: string,
    verified: Verified,
    course: R.Course,
    dispatched: D.Outcome)

  datatype AuditEntry =
    | RequestDenied(code: string, user: Option<string>, resource: string)
    | RequestAllowed(user: Option<string>, resource: string)

  datatype Forwarded = Forwarded(route: Route, forwardPath: string, headers: Headers)

  datatype Response =
    | RouteNotFound
    | Threw500
    | Denied(code: string)
    | Proxied
    | UpstreamFailed(error: D.AppError)

  datatype State = State(redis: R.Redis, audit: seq<AuditEntry>, upstream: seq<Forwarded>)

  // ---------------------------------------------------------------------------
  // Headers
  // ---------------------------------------------------------------------------

  const SPOOFABLE_IDENTITY_HEADERS: seq<string> :=
    ["x-user-id", "x-user-email", "x-user-roles", "x-auth-method", "x-tenant-id"]

  function Join(words: seq<string>, separator: string): string {
    if words == [] then "" else if |words| == 1 then words[0] else words[0] + separator + Join(words[1..], separator)
  }

  /** Array.join: the words with the separator between any two neighbours. */
  lemma {:induction false} JoinMeaning(words: seq<string>, word: string, separator: string)
    ensures Join([], separator) == ""
    ensures Join(words + [word], separator) ==
              if words == [] then word else Join(words, separator) + separator + word
  {
    if words != [] {
      JoinMeaning(words[1..], word, separator);
      assert (words + [word])[1..] == words[1..] + [word];
      if |words| == 1 {
        assert words[1..] == [];
      }
    }
  }

  function BuildIdentityHeaders(claims: Claims, requestId: string): Headers {
    var headers := map[
      "x-user-id" := claims.sub,
      "x-user-email" := claims.email,
      "x-user-roles" := Join(claims.roles, ","),
      "x-auth-method" := claims.authMethod,
      "x-request-id" := requestId];
    if claims.tenantId.Some? && claims.tenantId.value != "" then headers["x-tenant-id" := claims.tenantId.value]
      else headers
  }

  /** The value of an identity header for a caller with these claims: None where it must be absent. */
  function IdentityHeader(claims: Option<Claims>, name: string): Option<string> {
    if claims.None? then None
    else
      var c := claims.value;
      if name == "x-user-id" then Some(c.sub)
      else if name == "x-user-email" then Some(c.email)
      else if name == "x-user-roles" then Some(Join(c.roles, ","))
      else if name == "x-auth-method" then Some(c.authMethod)
      else if name == "x-tenant-id" && c.tenantId != Some("") then c.tenantId
      else None
  }

  function Get(headers: Headers, name: string): Option<string> {
    if name in headers then Some(headers[name]) else None
  }

  /** The user an audit entry names. */
  function UserOf(auth: Option<Claims>): Option<string> {
    if auth.Some? then Some(auth.value.sub) else None
  }

  // ---------------------------------------------------------------------------
  // Checks
  // ---------------------------------------------------------------------------

  datatype Authentication = Anonymous | Authenticated(claims: Claims) | AuthFailed(code: string) | AuthThrew
  {
    /** req.auth after the check. */
    function Auth(): Option<Claims> {
      if Authenticated? then Some(claims) else None
    }
  }

  /** validateAccessToken({ optional: !route.auth_required }). */
  function Authenticate(route: Route, headers: Headers, verified: Verified): Authentication {
    if "authorization" in headers && "Bearer " <= headers["authorization"] then
      match verified
      case Accepted(claims) => Authenticated(claims)
      case Refused(code) => AuthFailed(code)
      case Threw => AuthThrew
    else if route.authRequired then AuthFailed("unauthorized")
    else Anonymous
  }

  predicate RoleDenied(route: Route, auth: Option<Claims>) {
    && route.allowedRoles.Some? && |route.allowedRoles.value| > 0
    && !(auth.Some? && exists role :: role in auth.value.roles && role in route.allowedRoles.value)
  }

  predicate ScopeDenied(route: Route, auth: Option<Claims>) {
    && route.requiredScope.Some? && route.requiredScope.value != ""
    && route.requiredScope.value !in (if auth.Some? then S.Split(auth.value.scope) else [])
  }

  function LimiterOf(config: Config, route: Route): R.Limiter {
    R.Limiter("ratelimit:proxy:" + route.path, config.windowMs,
              if route.rateLimitOverride.Some? then route.rateLimitOverride.value else config.maxRequests)
  }

  predicate QuotaDenied(limited: Option<R.Response>) {
    limited.Some? && limited.value.retryAfter.Some?
  }

  /** enforceAuthorization: the Redis counters afterwards, and the code of the denial if there is one. */
  function EnforceAuthorization(config: Config, redis: R.Redis, route: Route, auth: Option<Claims>,
                                req: Request): (R.Redis, Option<string>) {
    if RoleDenied(route, auth) then (redis, Some("forbidden"))
    else if ScopeDenied(route, auth) then (redis, Some("insufficient_scope"))
    else
      var (counted, limited) := R.Serve(LimiterOf(config, route), redis, req.ip, req.course);
      (counted, if QuotaDenied(limited) then Some("rate_limit_exceeded") else None)
  }

  ghost predicate Stripped(incoming: Headers, headers: Headers) {
    forall name {:trigger Get(headers, name)} ::
      Get(headers, name) == if name in SPOOFABLE_IDENTITY_HEADERS then None else Get(incoming, name)
  }

  /** The object whose fields the handler changes. */
  class HttpRequest {
    var headers: Headers
    var auth: Option<Claims>

    constructor (incoming: Headers)
      ensures headers == incoming && auth == None
    {
      headers, auth := incoming, None;
    }

    method StripSpoofedHeaders()
      modifies this`headers
      ensures Stripped(old(headers), headers)
    {
      var i := 0;
      while i < |SPOOFABLE_IDENTITY_HEADERS|
        invariant 0 <= i <= |SPOOFABLE_IDENTITY_HEADERS|
        invariant forall name ::
                    Get(headers, name) == if name in SPOOFABLE_IDENTITY_HEADERS[..i] then None
                      else Get(old(headers), name)
      {
        headers := headers - {SPOOFABLE_IDENTITY_HEADERS[i]};
        assert SPOOFABLE_IDENTITY_HEADERS[..i + 1] == SPOOFABLE_IDENTITY_HEADERS[..i] + [SPOOFABLE_IDENTITY_HEADERS[i]];
        i := i + 1;
      }
      assert SPOOFABLE_IDENTITY_HEADERS[..i] == SPOOFABLE_IDENTITY_HEADERS;
    }
  }

  // ---------------------------------------------------------------------------
  // What a request deserves, by the checks alone
  // ---------------------------------------------------------------------------

  function AuthOf(req: Request): Authentication
    requires req.resolved.Some?
  {
    Authenticate(req.resolved.value.0, req.headers, req.verified)
  }

  /** Token, role and scope all pass: the request is about to consume quota. */
  predicate ReachesLimiter(req: Request) {
    && req.resolved.Some?
    && (AuthOf(req).Anonymous? || AuthOf(req).Authenticated?)
    && !RoleDenied(req.resolved.value.0, AuthOf(req).Auth())
    && !ScopeDenied(req.resolved.value.0, AuthOf(req).Auth())
  }

  function Limited(config: Config, redis: R.Redis, req: Request): (R.Redis, Option<R.Response>)
    requires req.resolved.Some?
  {
    R.Serve(LimiterOf(config, req.resolved.value.0), redis, req.ip, req.course)
  }

  predicate MayPass(config: Config, redis: R.Redis, req: Request) {
    ReachesLimiter(req) && !QuotaDenied(Limited(config, redis, req).1)
  }

  /** The first check that fails decides the response; the upstream decides if none does. */
  function ResponseTo(config: Config, redis: R.Redis, req: Request): Response {
    if req.resolved.None? then RouteNotFound
    else if AuthOf(req).AuthThrew? then Threw500
    else if AuthOf(req).AuthFailed? then Denied(AuthOf(req).code)
    else if RoleDenied(req.resolved.value.0, AuthOf(req).Auth()) then Denied("forbidden")
    else if ScopeDenied(req.resolved.value.0, AuthOf(req).Auth()) then Denied("insufficient_scope")
    else if QuotaDenied(Limited(config, redis, req).1) then Denied("rate_limit_exceeded")
    else if req.dispatched.Resolved? then Proxied
    else UpstreamFailed(req.dispatched.error)
  }

  /** What the audit log must hold about a request that got this response. */
  function EntriesFor(req: Request, response: Response): seq<AuditEntry> {
    if req.resolved.None? then []
    else
      var user := UserOf(AuthOf(req).Auth());
      match response
      case Denied(code) => [RequestDenied(code, user, req.resource)]
      case Proxied => if req.resolved.value.0.auditAllowedRequests then [RequestAllowed(user, req.resource)] else []
      case _ => []
  }

  /** The headers the upstream must see: a client cannot set any of the five identity headers. */
  ghost predicate HeaderOk(incoming: Headers, auth: Option<Claims>, requestId: string, sent: Headers, name: string) {
    Get(sent, name) ==
    if name in SPOOFABLE_IDENTITY_HEADERS then IdentityHeader(auth, name)
    else if name == "x-request-id" && auth.Some? then Some(requestId)
    else Get(incoming, name)
  }

  ghost predicate ForwardedAs(req: Request, sent: Forwarded) {
    && req.resolved.Some?
    && sent.route == req.resolved.value.0 && sent.forwardPath == req.resolved.value.1
    && forall name {:trigger HeaderOk(req.headers, AuthOf(req).Auth(), req.requestId, sent.headers, name)} ::
         HeaderOk(req.headers, AuthOf(req).Auth(), req.requestId, sent.headers, name)
  }

  /** Stripping, then injecting for the verified claims. */
  lemma InjectedHeader(incoming: Headers, stripped: Headers, claims: Claims, requestId: string, name: string)
    requires Stripped(incoming, stripped)
    ensures HeaderOk(incoming, Some(claims), requestId, stripped + BuildIdentityHeaders(claims, requestId), name)
  {
    assert Get(stripped, name) == if name in SPOOFABLE_IDENTITY_HEADERS then None else Get(incoming, name);
  }

  lemma StrippedHeader(incoming: Headers, stripped: Headers, requestId: string, name: string)
    requires Stripped(incoming, stripped)
    ensures HeaderOk(incoming, None, requestId, stripped, name)
  {
    assert Get(stripped, name) == if name in SPOOFABLE_IDENTITY_HEADERS then None else Get(incoming, name);
  }

  lemma InjectedAsForwarded(req: Request, stripped: Headers, sent: Forwarded)
    requires req.resolved.Some? && Stripped(req.headers, stripped)
    requires sent.route == req.resolved.value.0 && sent.forwardPath == req.resolved.value.1
    requires sent.headers == if AuthOf(req).Auth().Some?
                             then stripped + BuildIdentityHeaders(AuthOf(req).Auth().value, req.requestId) else stripped
    ensures ForwardedAs(req, sent)
  {
    var auth := AuthOf(req).Auth();
    forall name
      ensures HeaderOk(req.headers, auth, req.requestId, sent.headers, name)
    {
      if auth.Some? {
        InjectedHeader(req.headers, stripped, auth.value, req.requestId, name);
      } else {
        StrippedHeader(req.headers, stripped, req.requestId, name);
      }
    }
  }

  /**
   * One request handled. The upstream is contacted exactly if every check passes, with identity
   * headers made from the verified claims alone; quota is consumed exactly if the checks before it
   * pass; and the audit log gains exactly what the response calls for.
   */
  ghost predicate Handled(config: Config, s: State, req: Request, response: Response, t: State) {
    && response == ResponseTo(config, s.redis, req)
    && t.redis == (if ReachesLimiter(req) then Limited(config, s.redis, req).0 else s.redis)
    && t.audit == s.audit + EntriesFor(req, response)
    && (if MayPass(config, s.redis, req)
        then |t.upstream| == |s.upstream| + 1 && t.upstream[..|s.upstream|] == s.upstream &&
          ForwardedAs(req, t.upstream[|s.upstream|])
        else t.upstream == s.upstream)
  }

  // ---------------------------------------------------------------------------
  // Who gets through, by the request alone
  // ---------------------------------------------------------------------------

  /** The header a bearer token comes in. */
  predicate Bearer(req: Request) {
    "authorization" in req.headers && "Bearer " <= req.headers["authorization"]
  }

  /** Denied on its token: one entry without a user, no quota, nothing sent on. */
  ghost predicate TurnedAway(s: State, req: Request, response: Response, t: State, code: string) {
    && response == Denied(code) && t.redis == s.redis && t.upstream == s.upstream
    && t.audit == s.audit + [RequestDenied(code, None, req.resource)]
  }

  /**
   * A bearer token that is refused is answered so on every route, optional ones included; a missing
   * one only where the route requires it; and if verification throws, with a 500 and no entry.
   */
  lemma TokenDecidesFirst(config: Config, s: State, req: Request, response: Response, t: State)
    requires Handled(config, s, req, response, t) && req.resolved.Some?
    ensures Bearer(req) && req.verified.Refused? ==> TurnedAway(s, req, response, t, req.verified.code)
    ensures Bearer(req) && req.verified.Threw? ==> response == Threw500 && t == s
    ensures !Bearer(req) && req.resolved.value.0.authRequired ==> TurnedAway(s, req, response, t, "unauthorized")
  {
  }

  /** The copy sent on carries these claims in its identity headers, the request id, and the client's other headers. */
  ghost predicate CarriesClaims(req: Request, sent: Forwarded, c: Claims) {
    && Get(sent.headers, "x-user-id") == Some(c.sub) && Get(sent.headers, "x-user-email") == Some(c.email)
    && Get(sent.headers, "x-user-roles") == Some(Join(c.roles, ",")) && Get(sent.headers, "x-auth-method") ==
         Some(c.authMethod)
    && Get(sent.headers, "x-tenant-id") == (if c.tenantId == Some("") then None else c.tenantId)
    && Get(sent.headers, "x-request-id") == Some(req.requestId)
    && KeepsOthers(req, sent)
  }

  ghost predicate CarriesNoIdentity(req: Request, sent: Forwarded) {
    && "x-user-id" !in sent.headers && "x-user-email" !in sent.headers && "x-user-roles" !in sent.headers
    && "x-auth-method" !in sent.headers && "x-tenant-id" !in sent.headers
    && Get(sent.headers, "x-request-id") == Get(req.headers, "x-request-id")
    && KeepsOthers(req, sent)
  }

  ghost predicate KeepsOthers(req: Request, sent: Forwarded) {
    forall name {:trigger Get(sent.headers, name)} ::
      name !in ["x-user-id", "x-user-email", "x-user-roles", "x-auth-method", "x-tenant-id", "x-request-id"] ==>
        Get(sent.headers, name) == Get(req.headers, name)
  }

  /**
   * Whoever reaches the upstream either came with a bearer token that was accepted, and is sent on
   * with its claims, or without one on a route that does not require it, and without any identity.
   */
  lemma ReachesWithItsIdentity(config: Config, s: State, req: Request, response: Response, t: State)
    requires Handled(config, s, req, response, t) && t.upstream != s.upstream
    ensures req.resolved.Some? && |t.upstream| == |s.upstream| + 1
    ensures var route, sent := req.resolved.value.0, t.upstream[|s.upstream|];
            && sent.route == route && sent.forwardPath == req.resolved.value.1
            && (if Bearer(req) then req.verified.Accepted? && CarriesClaims(req, sent, req.verified.claims)
                else !route.authRequired && CarriesNoIdentity(req, sent))
  {
    var sent := t.upstream[|s.upstream|];
    var auth := AuthOf(req).Auth();
    assert forall name {:trigger HeaderOk(req.headers, auth, req.requestId, sent.headers, name)} ::
      HeaderOk(req.headers, auth, req.requestId, sent.headers, name);
    assert HeaderOk(req.headers, auth, req.requestId, sent.headers, "x-user-id");
    assert HeaderOk(req.headers, auth, req.requestId, sent.headers, "x-user-email");
    assert HeaderOk(req.headers, auth, req.requestId, sent.headers, "x-user-roles");
    assert HeaderOk(req.headers, auth, req.requestId, sent.headers, "x-auth-method");
    assert HeaderOk(req.headers, auth, req.requestId, sent.headers, "x-tenant-id");
    assert HeaderOk(req.headers, auth, req.requestId, sent.headers, "x-request-id");
    forall name | name !in ["x-user-id", "x-user-email", "x-user-roles", "x-auth-method", "x-tenant-id", "x-request-id"]
      ensures Get(sent.headers, name) == Get(req.headers, name)
    {
      assert HeaderOk(req.headers, auth, req.requestId, sent.headers, name);
    }
  }

  /** The user an audit entry of the request names: the one its accepted bearer token is for. */
  function CallerOf(req: Request): Option<string> {
    if Bearer(req) && req.verified.Accepted? then Some(req.verified.claims.sub) else None
  }

  /**
   * Once the token passes: a request that lacks a role or a scope is denied without using quota, one
   * over its quota with its counter moved; each with one entry naming the caller. On a route that
   * asks for it, one entry of the caller for each request the upstream answered.
   */
  lemma DenialsNameTheCaller(config: Config, s: State, req: Request, response: Response, t: State)
    requires Handled(config, s, req, response, t) && req.resolved.Some?
    requires if Bearer(req) then req.verified.Accepted? else !req.resolved.value.0.authRequired
    ensures response.Denied? ==>
              && response.code in ["forbidden", "insufficient_scope", "rate_limit_exceeded"]
              && t.audit == s.audit + [RequestDenied(response.code, CallerOf(req), req.resource)]
              && t.upstream == s.upstream
              && (response.code != "rate_limit_exceeded" ==> t.redis == s.redis)
    ensures response.Proxied? ==>
              t.audit == s.audit + if req.resolved.value.0.auditAllowedRequests
                                   then [RequestAllowed(CallerOf(req), req.resource)] else []
    ensures response.UpstreamFailed? ==> t.audit == s.audit
    ensures response.Denied? || response.Proxied? || response.UpstreamFailed?
  {
  }

  // ---------------------------------------------------------------------------
  // The router
  // ---------------------------------------------------------------------------

  class Router {
    const config: Config
    var redis: R.Redis
    var audit: seq<AuditEntry>
    var upstream: seq<Forwarded>

    ghost function Value(): State
      reads this
    {
      State(redis, audit, upstream)
    }

    constructor (c: Config)
      ensures config == c && redis == map[] && audit == [] && upstream == []
    {
      config, redis, audit, upstream := c, map[], [], [];
    }

    method AuditDenial(auth: Option<Claims>, resource: string, code: string)
      modifies this`audit
      ensures audit == old(audit) + [RequestDenied(code, UserOf(auth), resource)]
    {
      audit := audit + [RequestDenied(code, UserOf(auth), resource)];
    }

    method Enforce(route: Route, auth: Option<Claims>, req: Request) returns (denial: Option<string>)
      modifies this`redis, this`audit
      ensures (redis, denial) == EnforceAuthorization(config, old(redis), route, auth, req)
      ensures audit == old(audit) + if denial.None? then []
                                    else [RequestDenied(denial.value, UserOf(auth), req.resource)]
    {
      if route.allowedRoles.Some? && |route.allowedRoles.value| > 0 {
        var hasAllowedRole := auth.Some? && exists role :: role in auth.value.roles && role in route.allowedRoles.value;
        if !hasAllowedRole {
          AuditDenial(auth, req.resource, "forbidden");
          return Some("forbidden");
        }
      }
      if route.requiredScope.Some? && route.requiredScope.value != "" {
        var granted := if auth.Some? then S.Split(auth.value.scope) else [];
        if route.requiredScope.value !in granted {
          AuditDenial(auth, req.resource, "insufficient_scope");
          return Some("insufficient_scope");
        }
      }
      var (counted, limited) := R.Serve(LimiterOf(config, route), redis, req.ip, req.course);
      redis := counted;
      if limited.Some? && limited.value.retryAfter.Some? {
        AuditDenial(auth, req.resource, "rate_limit_exceeded");
        return Some("rate_limit_exceeded");
      }
      denial := None;
    }

    /** Inject, dispatch and audit: what happens to a request no check stopped. */
    method Forward(req: Request, http: HttpRequest) returns (response: Response)
      requires req.resolved.Some? && Stripped(req.headers, http.headers) && http.auth == AuthOf(req).Auth()
      modifies this`audit, this`upstream, http`headers
      ensures response == if req.dispatched.Resolved? then Proxied else UpstreamFailed(req.dispatched.error)
      ensures audit == old(audit) + EntriesFor(req, response)
      ensures |upstream| == |old(upstream)| + 1 && upstream[..|old(upstream)|] == old(upstream)
      ensures ForwardedAs(req, upstream[|old(upstream)|])
    {
      var (route, forwardPath) := req.resolved.value;
      ghost var stripped := http.headers;
      if http.auth.Some? {
        http.headers := http.headers + BuildIdentityHeaders(http.auth.value, req.requestId);
      }
      var sent := Forwarded(route, forwardPath, http.headers);
      InjectedAsForwarded(req, stripped, sent);
      upstream := upstream + [sent];
      assert upstream[|old(upstream)|] == sent;
      if req.dispatched.Rejected? {
        return UpstreamFailed(req.dispatched.error);
      }
      if route.auditAllowedRequests {
        audit := audit + [RequestAllowed(UserOf(http.auth), req.resource)];
      }
      response := Proxied;
    }

    method Handle(req: Request, http: HttpRequest) returns (response: Response)
      requires http.headers == req.headers && http.auth == None
      modifies this`redis, this`audit, this`upstream, http
      ensures Handled(config, old(Value()), req, response, Value())
      ensures req.resolved.None? ==> response == RouteNotFound && Value() == old(Value())
      ensures req.resolved.Some? ==>
                var s, route := old(Value()), req.resolved.value.0;
                && (Bearer(req) && req.verified.Refused? ==>
                      TurnedAway(s, req, response, Value(), req.verified.code))
                && (Bearer(req) && req.verified.Threw? ==> response == Threw500 && Value() == s)
                && (!Bearer(req) && route.authRequired ==> TurnedAway(s, req, response, Value(), "unauthorized"))
    {
      if req.resolved.None? {
        return RouteNotFound;
      }
      http.StripSpoofedHeaders();
      var stopped := Admit(req, http);
      if stopped.Some? {
        return stopped.value;
      }
      response := Forward(req, http);
    }

    /** Token, roles, scope and quota of a request whose headers have been stripped; None lets it pass. */
    method Admit(req: Request, http: HttpRequest) returns (stopped: Option<Response>)
      requires req.resolved.Some? && Stripped(req.headers, http.headers) && http.auth == None
      modifies this`redis, this`audit, http`auth
      ensures stopped.None? <==> MayPass(config, old(redis), req)
      ensures stopped.None? ==> http.auth == AuthOf(req).Auth() && audit == old(audit)
      ensures stopped.Some? ==>
                && stopped.value == ResponseTo(config, old(redis), req)
                && audit == old(audit) + EntriesFor(req, stopped.value)
      ensures redis == if ReachesLimiter(req) then Limited(config, old(redis), req).0 else old(redis)
      ensures Bearer(req) && req.verified.Refused? ==>
                && stopped == Some(Denied(req.verified.code)) && redis == old(redis)
                && audit == old(audit) + [RequestDenied(req.verified.code, None, req.resource)]
      ensures !Bearer(req) && req.resolved.value.0.authRequired ==>
                && stopped == Some(Denied("unauthorized")) && redis == old(redis)
                && audit == old(audit) + [RequestDenied("unauthorized", None, req.resource)]
      ensures stopped.None? ==>
                if Bearer(req) then req.verified.Accepted? && http.auth == Some(req.verified.claims)
                else !req.resolved.value.0.authRequired && http.auth == None
    {
      var route := req.resolved.value.0;
      assert Get(http.headers, "authorization") == Get(req.headers, "authorization");
      var check := Authenticate(route, http.headers, req.verified);
      assert check == AuthOf(req);
      if check.AuthThrew? {
        return Some(Threw500);
      }
      if check.AuthFailed? {
        AuditDenial(http.auth, req.resource, check.code);
        return Some(Denied(check.code));
      }
      http.auth := check.Auth();
      var denial := Enforce(route, http.auth, req);
      stopped := if denial.Some? then Some(Denied(denial.value)) else None;
    }
  }
}
