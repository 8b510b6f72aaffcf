/** Whose requests count against whom: the quotas of all routes and clients share one Redis and do not meet. */
module RouteQuotas {
  import opened Wrappers
  import opened ProxyPipeline
  import opened ProxyTrace
  import T = Text
  import R = RateLimiter

  /** What the counters of a request are named after: its route's path and its client. */
  function QuotaOf(req: Request): Option<string> {
    if req.resolved.None? then None else Some("ratelimit:proxy:" + req.resolved.value.0.path + ":" + req.ip)
  }

  /** A route's limiter: its own path, its own limit if it sets one, and the configured window. */
  lemma LimiterOfRoute(config: Config, req: Request, window: nat)
    requires req.resolved.Some?
    ensures var l, route := LimiterOf(config, req.resolved.value.0), req.resolved.value.0;
            && l.KeyFor(req.ip, window) == "ratelimit:proxy:" + route.path + ":" + req.ip + ":" + T.Decimal(window)
            && l.windowMs == config.windowMs
            && l.max == (if route.rateLimitOverride.Some? then route.rateLimitOverride.value else config.maxRequests)
            && l.KeyFor(req.ip, window) == T.Keyed(QuotaOf(req).value, window)
  {
    LimiterOf(config, req.resolved.value.0).KeyText(req.ip, window);
  }

  /** A client's quotas on two routes are one and the same only if the routes' paths are. */
  lemma ClientQuotasApart(ip: string, path: string, path': string)
    requires "ratelimit:proxy:" + path + ":" + ip == "ratelimit:proxy:" + path' + ":" + ip
    ensures path == path'
  {
    var a, b := "ratelimit:proxy:" + path, "ratelimit:proxy:" + path';
    assert |a| == |b|;
    assert (a + ":" + ip)[..|a|] == a && (b + ":" + ip)[..|b|] == b;
    assert a[|"ratelimit:proxy:"|..] == path && b[|"ratelimit:proxy:"|..] == path';
  }

  // ---------------------------------------------------------------------------
  // Counters of one quota
  // ---------------------------------------------------------------------------

  predicate SameEntry(a: R.Redis, b: R.Redis, key: string) {
    (key in a <==> key in b) && (key in a ==> a[key] == b[key])
  }

  /** The two stores agree on every counter of the quota. */
  ghost predicate Agree(a: R.Redis, b: R.Redis, quota: string) {
    forall window: nat {:trigger SameEntry(a, b, T.Keyed(quota, window))} :: SameEntry(a, b, T.Keyed(quota, window))
  }

  /** A limiter reads and writes one counter only. */
  lemma ServeReadsOne(l: R.Limiter, a: R.Redis, b: R.Redis, ip: string, c: R.Course, key: string)
    requires SameEntry(a, b, l.KeyFor(ip, l.Window(c.read)))
    ensures R.Serve(l, a, ip, c).1 == R.Serve(l, b, ip, c).1
    ensures SameEntry(a, b, key) ==> SameEntry(R.Serve(l, a, ip, c).0, R.Serve(l, b, ip, c).0, key)
  {
    assert R.Live(a, l.KeyFor(ip, l.Window(c.read)), c.incremented)
        == R.Live(b, l.KeyFor(ip, l.Window(c.read)), c.incremented);
  }

  lemma ServeWritesOne(l: R.Limiter, a: R.Redis, ip: string, c: R.Course, key: string)
    requires key != l.KeyFor(ip, l.Window(c.read))
    ensures SameEntry(a, R.Serve(l, a, ip, c).0, key)
  {
  }

  /** A request meets the same counter in both stores: the same response, and they go on agreeing. */
  lemma OwnRequest(config: Config, a: R.Redis, b: R.Redis, quota: string, req: Request)
    requires Agree(a, b, quota) && QuotaOf(req) == Some(quota)
    ensures ResponseTo(config, a, req) == ResponseTo(config, b, req)
    ensures Agree(Counted(config, a, req), Counted(config, b, req), quota)
  {
    var l := LimiterOf(config, req.resolved.value.0);
    LimiterOfRoute(config, req, l.Window(req.course.read));
    assert SameEntry(a, b, T.Keyed(quota, l.Window(req.course.read)));
    forall window: nat
      ensures SameEntry(Counted(config, a, req), Counted(config, b, req), T.Keyed(quota, window))
    {
      assert SameEntry(a, b, T.Keyed(quota, window));
      ServeReadsOne(l, a, b, req.ip, req.course, T.Keyed(quota, window));
    }
    ServeReadsOne(l, a, b, req.ip, req.course, "");
  }

  /** A request of another quota moves no counter of this one. */
  lemma OtherRequest(config: Config, a: R.Redis, b: R.Redis, quota: string, req: Request)
    requires Agree(a, b, quota) && QuotaOf(req) != Some(quota)
    ensures Agree(Counted(config, a, req), b, quota)
  {
    if ReachesLimiter(req) {
      var l := LimiterOf(config, req.resolved.value.0);
      var mine := l.Window(req.course.read);
      LimiterOfRoute(config, req, mine);
      forall window: nat
        ensures SameEntry(Counted(config, a, req), b, T.Keyed(quota, window))
      {
        assert SameEntry(a, b, T.Keyed(quota, window));
        if T.Keyed(quota, window) == T.Keyed(QuotaOf(req).value, mine) {
          T.KeyedInjective(quota, window, QuotaOf(req).value, mine);
        }
        ServeWritesOne(l, a, req.ip, req.course, T.Keyed(quota, window));
      }
    }
  }

  // ---------------------------------------------------------------------------
  // Runs
  // ---------------------------------------------------------------------------

  /** The counters after a request. */
  function Counted(config: Config, redis: R.Redis, req: Request): R.Redis {
    if ReachesLimiter(req) then Limited(config, redis, req).0 else redis
  }

  /** The counters and responses of these requests alone. */
  function CountedAll(config: Config, redis: R.Redis, requests: seq<Request>): R.Redis {
    if requests == [] then redis
    else
      var n := |requests| - 1;
      Counted(config, CountedAll(config, redis, requests[..n]), requests[n])
  }

  function Replies(config: Config, redis: R.Redis, requests: seq<Request>): seq<Response> {
    if requests == [] then []
    else
      var n := |requests| - 1;
      Replies(config, redis, requests[..n]) +
      [ResponseTo(config, CountedAll(config, redis, requests[..n]), requests[n])]
  }

  lemma RepliesSnoc(config: Config, redis: R.Redis, requests: seq<Request>, req: Request)
    ensures Replies(config, redis, requests + [req])
         == Replies(config, redis, requests) + [ResponseTo(config, CountedAll(config, redis, requests), req)]
    ensures CountedAll(config, redis, requests + [req]) == Counted(config, CountedAll(config, redis, requests), req)
  {
    assert (requests + [req])[..|requests|] == requests;
  }

  /** Of the first n requests, those of one quota; and their responses. */
  function OwnRequests(requests: seq<Request>, quota: string, n: nat): seq<Request>
    requires n <= |requests|
  {
    if n == 0 then []
    else
      var before := OwnRequests(requests, quota, n - 1);
      if QuotaOf(requests[n - 1]) == Some(quota) then before + [requests[n - 1]] else before
  }

  function OwnResponses(requests: seq<Request>, responses: seq<Response>, quota: string, n: nat): seq<Response>
    requires n <= |requests| == |responses|
  {
    if n == 0 then []
    else
      var before := OwnResponses(requests, responses, quota, n - 1);
      if QuotaOf(requests[n - 1]) == Some(quota) then before + [responses[n - 1]] else before
  }

  /** The requests of one quota are answered as if there were no others. */
  lemma {:induction false} AnsweredAsIfAlone(config: Config, requests: seq<Request>, responses: seq<Response>,
                                             states: seq<State>, quota: string, n: nat)
    requires Behaviour(config, requests, responses, states) && n <= |requests|
    ensures var own := OwnRequests(requests, quota, n);
            && OwnResponses(requests, responses, quota, n) == Replies(config, states[0].redis, own)
            && Agree(states[n].redis, CountedAll(config, states[0].redis, own), quota)
  {
    if n > 0 {
      AnsweredAsIfAlone(config, requests, responses, states, quota, n - 1);
      assert Handled(config, states[n - 1], requests[n - 1], responses[n - 1], states[n]);
      var own, req := OwnRequests(requests, quota, n - 1), requests[n - 1];
      var alone := CountedAll(config, states[0].redis, own);
      if QuotaOf(req) == Some(quota) {
        OwnRequest(config, states[n - 1].redis, alone, quota, req);
        RepliesSnoc(config, states[0].redis, own, req);
      } else {
        OtherRequest(config, states[n - 1].redis, alone, quota, req);
      }
    }
  }

  /**
   * Take two runs from the same counters in which one client sends the same requests to one route,
   * in the same order: whatever else happens in them, this client's requests to other routes
   * included, those requests get the same responses.
   */
  lemma OtherTrafficDoesNotMatter(config: Config, path: string, ip: string,
                                  requests: seq<Request>, responses: seq<Response>, states: seq<State>,
                                  requests': seq<Request>, responses': seq<Response>, states': seq<State>)
    requires Behaviour(config, requests, responses, states) && Behaviour(config, requests', responses', states')
    requires states[0].redis == states'[0].redis
    requires var quota := "ratelimit:proxy:" + path + ":" + ip;
             OwnRequests(requests, quota, |requests|) == OwnRequests(requests', quota, |requests'|)
    ensures var quota := "ratelimit:proxy:" + path + ":" + ip;
            OwnResponses(requests, responses, quota, |requests|) ==
              OwnResponses(requests', responses', quota, |requests'|)
  {
    var quota := "ratelimit:proxy:" + path + ":" + ip;
    AnsweredAsIfAlone(config, requests, responses, states, quota, |requests|);
    AnsweredAsIfAlone(config, requests', responses', states', quota, |requests'|);
  }

  /** The client's requests to other routes are not among those: leaving them out leaves the others what they were. */
  lemma {:induction false} OtherRoutesAreOthers(requests: seq<Request>, path: string, ip: string, n: nat)
    requires n <= |requests|
    ensures OwnRequests(ElsewhereLeftOut(requests, path, ip, n), "ratelimit:proxy:" + path + ":" + ip,
              |ElsewhereLeftOut(requests, path, ip, n)|)
         == OwnRequests(requests, "ratelimit:proxy:" + path + ":" + ip, n)
  {
    if n > 0 {
      OtherRoutesAreOthers(requests, path, ip, n - 1);
      var quota, req := "ratelimit:proxy:" + path + ":" + ip, requests[n - 1];
      var before := ElsewhereLeftOut(requests, path, ip, n - 1);
      if req.resolved.Some? && req.ip == ip && req.resolved.value.0.path != path {
        if QuotaOf(req) == Some(quota) {
          ClientQuotasApart(ip, req.resolved.value.0.path, path);
        }
      } else {
        OwnOfPrefix(before, [req], quota, |before|);
      }
    }
  }

  lemma {:induction false} OwnOfPrefix(requests: seq<Request>, more: seq<Request>, quota: string, n: nat)
    requires n <= |requests|
    ensures OwnRequests(requests + more, quota, n) == OwnRequests(requests, quota, n)
  {
    if n > 0 {
      OwnOfPrefix(requests, more, quota, n - 1);
    }
  }

  /** The first n requests without those this client sends to other routes. */
  function ElsewhereLeftOut(requests: seq<Request>, path: string, ip: string, n: nat): seq<Request>
    requires n <= |requests|
  {
    if n == 0 then []
    else
      var before, req := ElsewhereLeftOut(requests, path, ip, n - 1), requests[n - 1];
      if req.resolved.Some? && req.ip == ip && req.resolved.value.0.path != path then before else before + [req]
  }

  /** So a client's requests to other routes change none of the responses it gets on this one. */
  lemma OtherRoutesDoNotMatter(config: Config, path: string, ip: string,
                               requests: seq<Request>, responses: seq<Response>, states: seq<State>,
                               responses': seq<Response>, states': seq<State>)
    requires Behaviour(config, requests, responses, states)
    requires Behaviour(config, ElsewhereLeftOut(requests, path, ip, |requests|), responses', states')
    requires states[0].redis == states'[0].redis
    ensures var quota, left := "ratelimit:proxy:" + path + ":" + ip, ElsewhereLeftOut(requests, path, ip, |requests|);
            OwnResponses(requests, responses, quota, |requests|) == OwnResponses(left, responses', quota, |left|)
  {
    OtherRoutesAreOthers(requests, path, ip, |requests|);
    OtherTrafficDoesNotMatter(config, path, ip, requests, responses, states,
      ElsewhereLeftOut(requests, path, ip, |requests|), responses', states');
  }
}
