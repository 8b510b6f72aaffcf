/** The proxy pipeline over any sequence of requests: its upstream calls, audit log and quotas. */
module ProxyTrace {
  import opened Wrappers
  import opened ProxyPipeline
  import S = Scopes
  import R = RateLimiter

  /** The router handles `requests` in turn, in states `states` and with these responses. */
  ghost predicate Behaviour(config: Config, requests: seq<Request>, responses: seq<Response>, states: seq<State>) {
    && |responses| == |requests| && |states| == |requests| + 1
    && forall i {:trigger responses[i]} ::
         0 <= i < |requests| ==> Handled(config, states[i], requests[i], responses[i], states[i + 1])
  }

  lemma BehaviourPrefix(config: Config, requests: seq<Request>, responses: seq<Response>, states: seq<State>)
    requires Behaviour(config, requests, responses, states) && requests != []
    ensures var n := |requests| - 1; Behaviour(config, requests[..n], responses[..n], states[..n + 1])
  {
    var n := |requests| - 1;
    forall i | 0 <= i < n
      ensures Handled(config, states[..n + 1][i], requests[..n][i], responses[..n][i], states[..n + 1][i + 1])
    {
      assert responses[..n][i] == responses[i];
    }
  }

  // ---------------------------------------------------------------------------
  // The upstream
  // ---------------------------------------------------------------------------

  predicate ReachedUpstream(response: Response) {
    response.Proxied? || response.UpstreamFailed?
  }

  /** The requests whose responses come from the upstream, in order. */
  function Contacting(requests: seq<Request>, responses: seq<Response>): seq<Request>
    requires |requests| == |responses|
  {
    if requests == [] then []
    else
      var n := |requests| - 1;
      var before := Contacting(requests[..n], responses[..n]);
      if ReachedUpstream(responses[n]) then before + [requests[n]] else before
  }

  /** The route asks for no role, or the caller has one of those it asks for. */
  ghost predicate HasRole(route: Route, auth: Option<Claims>) {
    || route.allowedRoles.None? || route.allowedRoles.value == []
    || (auth.Some? && exists role :: role in auth.value.roles && role in route.allowedRoles.value)
  }

  /** The route asks for no scope, or the caller's scope claim has it as one of its words. */
  ghost predicate HasScope(route: Route, auth: Option<Claims>) {
    || route.requiredScope.None? || route.requiredScope.value == ""
    || (auth.Some? && exists i: nat :: S.WordAt(auth.value.scope, i, route.requiredScope.value))
  }

  lemma RolePasses(route: Route, auth: Option<Claims>)
    ensures RoleDenied(route, auth) <==> !HasRole(route, auth)
  {
  }

  lemma ScopePasses(route: Route, auth: Option<Claims>)
    ensures ScopeDenied(route, auth) <==> !HasScope(route, auth)
  {
    if auth.Some? && route.requiredScope.Some? {
      S.SplitMeaning(auth.value.scope, route.requiredScope.value);
    }
  }

  /** A response comes from the upstream exactly if all five checks pass. */
  lemma UpstreamNeedsEveryCheck(config: Config, redis: R.Redis, req: Request)
    ensures ReachedUpstream(ResponseTo(config, redis, req)) <==>
              && req.resolved.Some?
              && (AuthOf(req).Authenticated? || AuthOf(req).Anonymous?)
              && (AuthOf(req).Anonymous? ==> !req.resolved.value.0.authRequired)
              && HasRole(req.resolved.value.0, AuthOf(req).Auth())
              && HasScope(req.resolved.value.0, AuthOf(req).Auth())
              && (Limited(config, redis, req).1.Some? ==> Limited(config, redis, req).1.value.retryAfter.None?)
  {
    if req.resolved.Some? {
      RolePasses(req.resolved.value.0, AuthOf(req).Auth());
      ScopePasses(req.resolved.value.0, AuthOf(req).Auth());
    }
  }

  /** The token, or its absence, lets the request on to the other checks. */
  predicate TokenPasses(req: Request) {
    req.resolved.Some? && if Bearer(req) then req.verified.Accepted? else !req.resolved.value.0.authRequired
  }

  /** The claims it goes on with. */
  function ClaimsIn(req: Request): Option<Claims> {
    if Bearer(req) && req.verified.Accepted? then Some(req.verified.claims) else None
  }

  /** Role, scope and quota are checked in this order, and the first that fails names the denial. */
  lemma FirstFailureIsNamed(config: Config, redis: R.Redis, req: Request)
    requires TokenPasses(req)
    ensures var route, response := req.resolved.value.0, ResponseTo(config, redis, req);
            var role, scope := HasRole(route, ClaimsIn(req)), HasScope(route, ClaimsIn(req));
            var limited := R.Serve(LimiterOf(config, route), redis, req.ip, req.course).1;
            var over := limited.Some? && limited.value.retryAfter.Some?;
            && (response == Denied("forbidden") <==> !role)
            && (response == Denied("insufficient_scope") <==> role && !scope)
            && (response == Denied("rate_limit_exceeded") <==> role && scope && over)
            && (response == Proxied <==> role && scope && !over && req.dispatched.Resolved?)
            && (response.UpstreamFailed? <==> role && scope && !over && req.dispatched.Rejected?)
            && (response.UpstreamFailed? ==> response.error == req.dispatched.error)
  {
    RolePasses(req.resolved.value.0, ClaimsIn(req));
    ScopePasses(req.resolved.value.0, ClaimsIn(req));
  }

  ghost predicate SentFor(requests: seq<Request>, sent: seq<Forwarded>) {
    |sent| == |requests| && forall i {:trigger sent[i]} :: 0 <= i < |sent| ==> ForwardedAs(requests[i], sent[i])
  }

  /** What the upstream has been sent is, one for one and in order, the requests it answered. */
  lemma {:induction false} UpstreamTrace(config: Config, requests: seq<Request>, responses: seq<Response>,
                                         states: seq<State>)
    requires Behaviour(config, requests, responses, states) && states[0].upstream == []
    ensures SentFor(Contacting(requests, responses), states[|requests|].upstream)
  {
    if requests != [] {
      var n := |requests| - 1;
      BehaviourPrefix(config, requests, responses, states);
      UpstreamTrace(config, requests[..n], responses[..n], states[..n + 1]);
      assert Handled(config, states[n], requests[n], responses[n], states[n + 1]);
      var before, after := states[n].upstream, states[n + 1].upstream;
      if ReachedUpstream(responses[n]) {
        SentSnoc(Contacting(requests[..n], responses[..n]), before, requests[n], after[|before|]);
        assert after == before + [after[|before|]];
      }
    }
  }

  lemma SentSnoc(requests: seq<Request>, sent: seq<Forwarded>, req: Request, last: Forwarded)
    requires SentFor(requests, sent) && ForwardedAs(req, last)
    ensures SentFor(requests + [req], sent + [last])
  {
    forall i | 0 <= i < |sent + [last]|
      ensures ForwardedAs((requests + [req])[i], (sent + [last])[i])
    {
      assert i < |sent| ==> (sent + [last])[i] == sent[i];
    }
  }

  // ---------------------------------------------------------------------------
  // What clients can make of the identity headers: nothing
  // ---------------------------------------------------------------------------

  /** The claims a request was verified with. */
  function ClaimsOf(req: Request): Option<Claims> {
    if req.resolved.None? then None else AuthOf(req).Auth()
  }

  lemma SentHeader(req: Request, sent: Forwarded, name: string)
    requires ForwardedAs(req, sent) && name in SPOOFABLE_IDENTITY_HEADERS
    ensures Get(sent.headers, name) == IdentityHeader(ClaimsOf(req), name)
  {
    assert HeaderOk(req.headers, AuthOf(req).Auth(), req.requestId, sent.headers, name);
  }

  /**
   * Take the i-th request the upstream was sent in one run of the router and the j-th in another,
   * whatever the configurations, the other requests and the headers the clients sent: if the two
   * were verified with the same claims, they carry the same identity headers; without claims, none.
   */
  lemma IdentityFromClaimsAlone(config: Config, requests: seq<Request>, responses: seq<Response>, states: seq<State>,
                                i: nat, config': Config, requests': seq<Request>, responses': seq<Response>,
                                states': seq<State>, j: nat, name: string)
    requires Behaviour(config, requests, responses, states) && states[0].upstream == []
    requires Behaviour(config', requests', responses', states') && states'[0].upstream == []
    requires i < |states[|requests|].upstream| && j < |states'[|requests'|].upstream|
    requires i < |Contacting(requests, responses)| && j < |Contacting(requests', responses')|
    requires ClaimsOf(Contacting(requests, responses)[i]) == ClaimsOf(Contacting(requests', responses')[j])
    requires name in SPOOFABLE_IDENTITY_HEADERS
    ensures var sent, sent' := states[|requests|].upstream[i], states'[|requests'|].upstream[j];
            && Get(sent.headers, name) == Get(sent'.headers, name)
            && (ClaimsOf(Contacting(requests, responses)[i]).None? ==> name !in sent.headers)
  {
    UpstreamTrace(config, requests, responses, states);
    UpstreamTrace(config', requests', responses', states');
    SentHeader(Contacting(requests, responses)[i], states[|requests|].upstream[i], name);
    SentHeader(Contacting(requests', responses')[j], states'[|requests'|].upstream[j], name);
  }

  /** Two requests that differ at most in the identity headers their clients sent. */
  ghost predicate SameButSpoofed(a: Request, b: Request) {
    && a.(headers := b.headers) == b
    && forall name {:trigger Get(a.headers, name)} ::
         name !in SPOOFABLE_IDENTITY_HEADERS ==> Get(a.headers, name) == Get(b.headers, name)
  }

  lemma SameAuth(a: Request, b: Request)
    requires SameButSpoofed(a, b) && a.resolved.Some?
    ensures AuthOf(a) == AuthOf(b)
  {
    assert Get(a.headers, "authorization") == Get(b.headers, "authorization");
  }

  lemma SameForwarded(a: Request, sentA: Forwarded, b: Request, sentB: Forwarded)
    requires SameButSpoofed(a, b) && ForwardedAs(a, sentA) && ForwardedAs(b, sentB)
    ensures sentA == sentB
  {
    SameAuth(a, b);
    forall name
      ensures Get(sentA.headers, name) == Get(sentB.headers, name)
    {
      assert HeaderOk(a.headers, AuthOf(a).Auth(), a.requestId, sentA.headers, name);
      assert HeaderOk(b.headers, AuthOf(b).Auth(), b.requestId, sentB.headers, name);
      assert name !in SPOOFABLE_IDENTITY_HEADERS ==> Get(a.headers, name) == Get(b.headers, name);
    }
    SameHeaders(sentA.headers, sentB.headers);
  }

  lemma SameHeaders(a: Headers, b: Headers)
    requires forall name {:trigger Get(a, name)} :: Get(a, name) == Get(b, name)
    ensures a == b
  {
    forall name
      ensures name in a <==> name in b
      ensures name in a ==> a[name] == b[name]
    {
      assert Get(a, name) == Get(b, name);
    }
  }

  lemma SameStep(config: Config, s: State, a: Request, responseA: Response, t: State, b: Request, responseB: Response,
                 u: State)
    requires SameButSpoofed(a, b) && Handled(config, s, a, responseA, t) && Handled(config, s, b, responseB, u)
    ensures responseA == responseB && t == u
  {
    if a.resolved.Some? {
      SameAuth(a, b);
    }
    if MayPass(config, s.redis, a) {
      SameForwarded(a, t.upstream[|s.upstream|], b, u.upstream[|s.upstream|]);
      assert t.upstream == s.upstream + [t.upstream[|s.upstream|]];
      assert u.upstream == s.upstream + [u.upstream[|s.upstream|]];
    }
  }

  ghost predicate AllSameButSpoofed(some: seq<Request>, others: seq<Request>) {
    |some| == |others| && forall i {:trigger some[i]} :: 0 <= i < |some| ==> SameButSpoofed(some[i], others[i])
  }

  lemma {:induction false} SpoofingChangesNoMore(config: Config, requests: seq<Request>, responses: seq<Response>,
                                                 states: seq<State>, requests': seq<Request>,
                                                 responses': seq<Response>, states': seq<State>, n: nat)
    requires Behaviour(config, requests, responses, states) && Behaviour(config, requests', responses', states')
    requires AllSameButSpoofed(requests, requests') && states[0] == states'[0] && n <= |requests|
    ensures states[n] == states'[n]
    ensures forall i :: 0 <= i < n ==> responses[i] == responses'[i]
  {
    if n > 0 {
      SpoofingChangesNoMore(config, requests, responses, states, requests', responses', states', n - 1);
      SpoofingChangesNoLast(config, requests, responses, states, requests', responses', states', n - 1);
    }
  }

  lemma SpoofingChangesNoLast(config: Config, requests: seq<Request>, responses: seq<Response>, states: seq<State>,
                              requests': seq<Request>, responses': seq<Response>, states': seq<State>, n: nat)
    requires Behaviour(config, requests, responses, states) && Behaviour(config, requests', responses', states')
    requires AllSameButSpoofed(requests, requests') && n < |requests| && states[n] == states'[n]
    ensures responses[n] == responses'[n] && states[n + 1] == states'[n + 1]
  {
    assert Handled(config, states[n], requests[n], responses[n], states[n + 1]);
    assert Handled(config, states'[n], requests'[n], responses'[n], states'[n + 1]);
    SameStep(config, states[n], requests[n], responses[n], states[n + 1], requests'[n], responses'[n],
      states'[n + 1]);
  }

  /**
   * Whatever identity headers clients add, change or leave out over a whole run: every response,
   * the counters, the audit log and every call the upstream sees are the same.
   */
  lemma SpoofingChangesNothing(config: Config, requests: seq<Request>, responses: seq<Response>, states: seq<State>,
                               requests': seq<Request>, responses': seq<Response>, states': seq<State>)
    requires Behaviour(config, requests, responses, states) && Behaviour(config, requests', responses', states')
    requires AllSameButSpoofed(requests, requests') && states[0] == states'[0]
    ensures responses == responses' && states[|requests|] == states'[|requests|]
  {
    SpoofingChangesNoMore(config, requests, responses, states, requests', responses', states', |requests|);
  }

  // ---------------------------------------------------------------------------
  // The audit log
  // ---------------------------------------------------------------------------

  function DeniedCodes(responses: seq<Response>): seq<string> {
    if responses == [] then []
    else
      var n := |responses| - 1;
      if responses[n].Denied? then DeniedCodes(responses[..n]) + [responses[n].code] else DeniedCodes(responses[..n])
  }

  function LoggedCodes(audit: seq<AuditEntry>): seq<string> {
    if audit == [] then []
    else
      var n := |audit| - 1;
      if audit[n].RequestDenied? then LoggedCodes(audit[..n]) + [audit[n].code] else LoggedCodes(audit[..n])
  }

  function Allowed(audit: seq<AuditEntry>): nat {
    if audit == [] then 0 else Allowed(audit[..|audit| - 1]) + if audit[|audit| - 1].RequestAllowed? then 1 else 0
  }

  function Flagged(requests: seq<Request>, responses: seq<Response>): nat
    requires |requests| == |responses|
  {
    if requests == [] then 0
    else
      var n := |requests| - 1;
      Flagged(requests[..n], responses[..n]) + if FlaggedHere(requests[n], responses[n]) then 1 else 0
  }

  lemma LogSnoc(audit: seq<AuditEntry>, entry: AuditEntry)
    ensures LoggedCodes(audit + [entry]) == if entry.RequestDenied? then LoggedCodes(audit) + [entry.code]
              else LoggedCodes(audit)
    ensures Allowed(audit + [entry]) == Allowed(audit) + if entry.RequestAllowed? then 1 else 0
  {
    assert (audit + [entry])[..|audit|] == audit;
  }

  predicate FlaggedHere(req: Request, response: Response) {
    response.Proxied? && req.resolved.Some? && req.resolved.value.0.auditAllowedRequests
  }

  lemma EntriesLogged(audit: seq<AuditEntry>, req: Request, response: Response)
    requires response.Denied? ==> req.resolved.Some?
    ensures var log := audit + EntriesFor(req, response);
            && LoggedCodes(log)
                 == (if response.Denied? then LoggedCodes(audit) + [response.code] else LoggedCodes(audit))
            && Allowed(log) == Allowed(audit) + if FlaggedHere(req, response) then 1 else 0
  {
    var entries := EntriesFor(req, response);
    if entries == [] {
      assert audit + entries == audit;
    } else {
      LogSnoc(audit, entries[0]);
      assert entries == [entries[0]];
    }
  }

  /**
   * The audit log tells the run: its request_denied codes are, in order, those of the denials, one
   * for each; and there are as many request_allowed entries as proxied requests on flagged routes.
   */
  lemma {:induction false} AuditTrace(config: Config, requests: seq<Request>, responses: seq<Response>,
                                      states: seq<State>)
    requires Behaviour(config, requests, responses, states) && states[0].audit == []
    ensures LoggedCodes(states[|requests|].audit) == DeniedCodes(responses)
    ensures Allowed(states[|requests|].audit) == Flagged(requests, responses)
  {
    if requests != [] {
      var n := |requests| - 1;
      BehaviourPrefix(config, requests, responses, states);
      AuditTrace(config, requests[..n], responses[..n], states[..n + 1]);
      assert Handled(config, states[n], requests[n], responses[n], states[n + 1]);
      EntriesLogged(states[n].audit, requests[n], responses[n]);
    }
  }

  // ---------------------------------------------------------------------------
  // Quotas
  // ---------------------------------------------------------------------------

  /** The requests that pass token, role and scope. */
  function Reaching(requests: seq<Request>): seq<Request> {
    if requests == [] then []
    else
      var n := |requests| - 1;
      if ReachesLimiter(requests[n]) then Reaching(requests[..n]) + [requests[n]] else Reaching(requests[..n])
  }

  /** The responses to just those. */
  function ReachingResponses(requests: seq<Request>, responses: seq<Response>): seq<Response>
    requires |requests| == |responses|
  {
    if requests == [] then []
    else
      var n := |requests| - 1;
      var before := ReachingResponses(requests[..n], responses[..n]);
      if ReachesLimiter(requests[n]) then before + [responses[n]] else before
  }

  /**
   * Requests denied on token, role or scope consume no quota and influence no one: leaving them all
   * out changes neither the counters nor the response to any of the others.
   */
  lemma {:induction false} DenialsCostNothing(config: Config, requests: seq<Request>, responses: seq<Response>,
                                              states: seq<State>,
                                              responses': seq<Response>, states': seq<State>)
    requires Behaviour(config, requests, responses, states)
    requires Behaviour(config, Reaching(requests), responses', states')
    requires states[0].redis == states'[0].redis
    ensures states[|requests|].redis == states'[|responses'|].redis
    ensures ReachingResponses(requests, responses) == responses'
  {
    if requests != [] {
      var n := |requests| - 1;
      BehaviourPrefix(config, requests, responses, states);
      if ReachesLimiter(requests[n]) {
        var m := |responses'| - 1;
        BehaviourPrefix(config, Reaching(requests), responses', states');
        assert Reaching(requests)[..m] == Reaching(requests[..n]) && Reaching(requests)[m] == requests[n];
        DenialsCostNothing(config, requests[..n], responses[..n], states[..n + 1], responses'[..m], states'[..m + 1]);
        SameQuota(config, requests, responses, states, n, Reaching(requests), responses', states', m);
        LastReaching(requests, responses, responses');
      } else {
        assert Handled(config, states[n], requests[n], responses[n], states[n + 1]);
        DenialsCostNothing(config, requests[..n], responses[..n], states[..n + 1], responses', states');
      }
    }
  }

  lemma {:induction false} LastReaching(requests: seq<Request>, responses: seq<Response>, responses': seq<Response>)
    requires |responses| == |requests| > 0 && responses' != [] && ReachesLimiter(requests[|requests| - 1])
    requires var n, m := |requests| - 1, |responses'| - 1;
             ReachingResponses(requests[..n], responses[..n]) == responses'[..m] && responses[n] == responses'[m]
    ensures ReachingResponses(requests, responses) == responses'
  {
    assert responses' == responses'[..|responses'| - 1] + [responses'[|responses'| - 1]];
  }

  /** One request meets the same counters in two runs: it gets the same response and leaves the same counters. */
  lemma SameQuota(config: Config, requests: seq<Request>, responses: seq<Response>, states: seq<State>, n: nat,
                  requests': seq<Request>, responses': seq<Response>, states': seq<State>, m: nat)
    requires Behaviour(config, requests, responses, states) && Behaviour(config, requests', responses', states')
    requires n < |requests| && m < |requests'| && requests[n] == requests'[m] && states[n].redis == states'[m].redis
    ensures responses[n] == responses'[m] && states[n + 1].redis == states'[m + 1].redis
  {
    assert Handled(config, states[n], requests[n], responses[n], states[n + 1]);
    assert Handled(config, states'[m], requests'[m], responses'[m], states'[m + 1]);
  }
}
