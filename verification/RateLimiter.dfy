/**
 * The fixed-window rate limiter (src/middleware/rateLimiter.ts): what one limiter does with its
 * Redis counters, and all requests through it as a protocol. Reading the clock, INCR, PEXPIRE and
 * the decision are steps of their own; time passes and other requests run between any two of them.
 */
module RateLimiter {
  import opened Wrappers
  import opened Time
  import T = Text

  type Positive = n: int | n > 0 witness 1

  datatype Counter = Counter(count: Positive, expiresAt: Option<int>)

  type Redis = map<string, Counter>

  /** Does the command reach Redis, and does its reply come back? */
  datatype Fault = NoFault | Lost | ReplyLost

  datatype Headers = Headers(limit: nat, remaining: nat, reset: int)

  /** `retryAfter` is set on a 429 only. */
  datatype Response = Response(headers: Headers, retryAfter: Option<int>)

  // ---------------------------------------------------------------------------
  // Redis commands
  // ---------------------------------------------------------------------------

  function Live(redis: Redis, key: string, now: int): Option<Counter> {
    if key in redis && (redis[key].expiresAt.Some? ==> now < redis[key].expiresAt.value) then Some(redis[key]) else None
  }

  /** INCR: an absent or expired key starts over at 1, without an expiry. */
  function Incr(redis: Redis, key: string, now: int): (Redis, nat) {
    match Live(redis, key, now)
    case Some(c) => (redis[key := c.(count := c.count + 1)], c.count + 1)
    case None => (redis[key := Counter(1, None)], 1)
  }

  function PExpire(redis: Redis, key: string, now: int, ms: int): Redis {
    match Live(redis, key, now)
    case Some(c) => redis[key := c.(expiresAt := Some(now + ms))]
    case None => redis
  }

  // ---------------------------------------------------------------------------
  // One limiter
  // ---------------------------------------------------------------------------

  lemma ScaledOrder(a: nat, b: nat, scale: Positive)
    requires a <= b
    ensures a * scale <= b * scale
    ensures (a + 1) * scale == a * scale + scale && (b + 1) * scale == b * scale + scale
    ensures a > 0 ==> (a - 1) * scale == a * scale - scale
  {
  }

  datatype Limiter = Limiter(prefix: string, windowMs: Positive, max: nat)
  {
    function Window(now: nat): nat {
      now / windowMs
    }

    function ResetAt(window: nat): int {
      window * windowMs + windowMs
    }

    function KeyFor(ip: string, window: nat): string {
      T.Keyed(prefix + ":" + ip, window)
    }

    function RetryAfter(window: nat, now: int): int {
      var seconds := CeilSeconds(ResetAt(window) - now);
      if seconds < 1 then 1 else seconds
    }

    function Respond(window: nat, count: nat, now: int): Response {
      Response(Headers(max, if count > max then 0 else max - count, FloorSeconds(ResetAt(window))),
               if count > max then Some(RetryAfter(window, now)) else None)
    }

    /** An instant lies in its window. */
    lemma WindowSpan(now: nat)
      ensures Window(now) * windowMs <= now < ResetAt(Window(now))
    {
      assert now == Window(now) * windowMs + now % windowMs;
    }

    /** No two clients, and no two windows of a client, share a counter. */
    lemma KeysApart(ip: string, window: nat, ip': string, window': nat)
      requires KeyFor(ip, window) == KeyFor(ip', window')
      ensures ip == ip' && window == window'
    {
      T.KeyedInjective(prefix + ":" + ip, window, prefix + ":" + ip', window');
      assert (prefix + ":" + ip)[|prefix + ":"|..] == ip;
      assert (prefix + ":" + ip')[|prefix + ":"|..] == ip';
    }

    /** The key's text, as the source writes it. */
    lemma KeyText(ip: string, window: nat)
      ensures KeyFor(ip, window) == prefix + ":" + ip + ":" + T.Decimal(window)
    {
    }

    /**
     * Two limiters' counters are the same exactly if their prefix and the client, put together, read
     * the same, in the same window.
     */
    lemma SharedExactly(other: Limiter, ip: string, window: nat, ip': string, window': nat)
      ensures KeyFor(ip, window) == other.KeyFor(ip', window') <==>
                prefix + ":" + ip == other.prefix + ":" + ip' && window == window'
    {
      if KeyFor(ip, window) == other.KeyFor(ip', window') {
        T.KeyedInjective(prefix + ":" + ip, window, other.prefix + ":" + ip', window');
      }
    }

    /** So for one client, limiters share a counter only if their prefixes are the same. */
    lemma LimitersApart(other: Limiter, ip: string, window: nat, window': nat)
      requires KeyFor(ip, window) == other.KeyFor(ip, window')
      ensures prefix == other.prefix && window == window'
    {
      SharedExactly(other, ip, window, ip, window');
      assert |prefix| == |other.prefix|;
      assert (prefix + ":" + ip)[..|prefix|] == prefix && (other.prefix + ":" + ip)[..|prefix|] == other.prefix;
    }

    /** A window is over exactly from its reset on. */
    lemma OverFromReset(window: nat, now: nat)
      ensures window < Window(now) <==> ResetAt(window) <= now
    {
      WindowSpan(now);
      if window < Window(now) {
        ScaledOrder(window + 1, Window(now), windowMs);
      } else {
        ScaledOrder(Window(now), window, windowMs);
      }
    }

    /**
     * A client denied in a window that waits as long as it was told, or longer, reaches a later
     * window with a counter of its own; and, told to wait more than a second, one second less would
     * not have done.
     */
    lemma RetryAfterSuffices(ip: string, window: nat, denied: nat, again: nat)
      requires denied + RetryAfter(window, denied) * MS_PER_SECOND <= again
      ensures window < Window(again)
      ensures KeyFor(ip, Window(again)) != KeyFor(ip, window)
      ensures RetryAfter(window, denied) > 1 ==>
                Window(denied + (RetryAfter(window, denied) - 1) * MS_PER_SECOND) <= window
    {
      OverFromReset(window, again);
      if KeyFor(ip, Window(again)) == KeyFor(ip, window) {
        KeysApart(ip, Window(again), ip, window);
      }
      if RetryAfter(window, denied) > 1 {
        OverFromReset(window, denied + (RetryAfter(window, denied) - 1) * MS_PER_SECOND);
      }
    }
  }

  /** When a request's clock reading, INCR, PEXPIRE and decision happen, and how the commands fare. */
  datatype Course = Course(read: nat, incremented: nat, expired: nat, decided: nat, incrFault: Fault,
                           expireFault: Fault)

  /** One request; None where the limiter fails open, which sets no headers. */
  function Serve(l: Limiter, redis: Redis, ip: string, c: Course): (Redis, Option<Response>) {
    var window := l.Window(c.read);
    var key := l.KeyFor(ip, window);
    var (counted, count) := Incr(redis, key, c.incremented);
    if c.incrFault.Lost? then (redis, None)
    else if c.incrFault.ReplyLost? then (counted, None)
    else if count > 1 then (counted, Some(l.Respond(window, count, c.decided)))
    else
      var kept := if c.expireFault.Lost? then counted else PExpire(counted, key, c.expired, l.windowMs);
      (kept, if c.expireFault.NoFault? then Some(l.Respond(window, count, c.decided)) else None)
  }

  /** The middleware over its Redis, for one request at a time. */
  class Middleware {
    const limiter: Limiter
    var redis: Redis

    constructor (l: Limiter)
      ensures limiter == l && redis == map[]
    {
      limiter, redis := l, map[];
    }

    /**
     * The counter is one more than the live one, or starts at one without an expiry; a lost command
     * changes nothing, a lost reply only hides the count. No other counter moves.
     */
    method Increment(key: string, now: nat, fault: Fault) returns (count: Option<nat>)
      modifies this`redis
      ensures redis == if fault.Lost? then old(redis) else Incr(old(redis), key, now).0
      ensures forall other :: other != key ==> Live(redis, other, now) == Live(old(redis), other, now)
      ensures !fault.Lost? ==> Live(redis, key, now).Some?
      ensures !fault.Lost? && Live(old(redis), key, now).Some? ==>
                && redis[key].count == Live(old(redis), key, now).value.count + 1
                && redis[key].expiresAt == Live(old(redis), key, now).value.expiresAt
      ensures !fault.Lost? && Live(old(redis), key, now).None? ==> redis[key].count == 1 && redis[key].expiresAt.None?
      ensures count == if fault.NoFault? then Some(redis[key].count) else None
    {
      if fault.Lost? {
        return None;
      }
      var live := Live(redis, key, now);
      var n := if live.Some? then live.value.count + 1 else 1;
      redis := redis[key := Counter(n, if live.Some? then live.value.expiresAt else None)];
      count := if fault.NoFault? then Some(n) else None;
    }

    /** A live counter keeps its count and lives for exactly one window more; nothing else changes. */
    method Expire(key: string, now: nat, fault: Fault) returns (ok: bool)
      modifies this`redis
      ensures redis == if fault.Lost? then old(redis) else PExpire(old(redis), key, now, limiter.windowMs)
      ensures ok == fault.NoFault?
      ensures forall other, t :: other != key ==> Live(redis, other, t) == Live(old(redis), other, t)
      ensures ok && Live(old(redis), key, now).Some? ==>
                && (forall t: nat :: Live(redis, key, t).Some? <==> t < now + limiter.windowMs)
                && redis[key].count == Live(old(redis), key, now).value.count
      ensures Live(old(redis), key, now).None? ==> Live(redis, key, now).None?
    {
      var live := Live(redis, key, now);
      if !fault.Lost? && live.Some? {
        redis := redis[key := Counter(live.value.count, Some(now + limiter.windowMs))];
      }
      ok := fault.NoFault?;
    }

    /**
     * None: failed open, without headers. Otherwise the request is the `n`-th this window's
     * counter has seen, and passes if and only if `n` is within the limit. Only the first one sets the
     * counter's expiry, and no other counter moves.
     */
    method Handle(ip: string, c: Course) returns (response: Option<Response>, ghost n: nat)
      requires c.read <= c.incremented <= c.expired <= c.decided
      modifies this`redis
      ensures (redis, response) == Serve(limiter, old(redis), ip, c)
      ensures var key := limiter.prefix + ":" + ip + ":" + T.Decimal(c.read / limiter.windowMs);
              var reset := (c.read / limiter.windowMs + 1) * limiter.windowMs;
              var live := key in old(redis) &&
                (old(redis)[key].expiresAt.Some? ==> c.incremented < old(redis)[key].expiresAt.value);
              var before := if live then Some(old(redis)[key]) else None;
              && n == (if before.Some? then before.value.count + 1 else 1)
              && redis == (if c.incrFault.Lost? then old(redis)
                           else old(redis)[key := Counter(n,
                             if n > 1 then before.value.expiresAt
                             else if c.incrFault.NoFault? && !c.expireFault.Lost?
                               then Some(c.expired + limiter.windowMs)
                             else None)])
              && (response.None? <==> !c.incrFault.NoFault? || (n == 1 && !c.expireFault.NoFault?))
              && (response.Some? ==>
                    && response.value.headers.limit == limiter.max
                    && 0 <= reset - response.value.headers.reset * 1000 < 1000
                    && (response.value.headers.remaining > 0 <==> n < limiter.max)
                    && (n <= limiter.max ==> n + response.value.headers.remaining == limiter.max)
                    && (response.value.retryAfter.Some? <==> n > limiter.max)
                    && (response.value.retryAfter.Some? ==>
                          var wait := response.value.retryAfter.value;
                          wait >= 1 && reset <= c.decided + wait * 1000 &&
                            (wait == 1 || c.decided + (wait - 1) * 1000 < reset)))
    {
      var window := limiter.Window(c.read);
      var key := limiter.KeyFor(ip, window);
      limiter.KeyText(ip, window);
      ScaledOrder(window, window, limiter.windowMs);
      n := Incr(redis, key, c.incremented).1;
      var count := Increment(key, c.incremented, c.incrFault);
      if count.None? {
        return None, n;
      }
      if count.value == 1 {
        var ok := Expire(key, c.expired, c.expireFault);
        if !ok {
          return None, n;
        }
      }
      var remaining := if limiter.max < count.value then 0 else limiter.max - count.value;
      var headers := Headers(limiter.max, remaining, FloorSeconds(limiter.ResetAt(window)));
      if count.value > limiter.max {
        return Some(Response(headers, Some(limiter.RetryAfter(window, c.decided)))), n;
      }
      response := Some(Response(headers, None));
    }
  }

  // ---------------------------------------------------------------------------
  // Many requests
  // ---------------------------------------------------------------------------

  datatype Pc =
    | Arrived
    | Incrementing
    | Expiring
    | Deciding
    | Answered(response: Response, at: nat)
    | FailedOpen

  /** `read` is the clock value the window was computed from; `count` what INCR made of the counter. */
  datatype Op = Op(ip: string, read: nat, window: nat, count: nat, pc: Pc)

  datatype State = State(now: nat, redis: Redis, ops: seq<Op>)

  datatype Step =
    | Tick(ms: nat)
    | Arrive(ip: string)
    | Go(op: nat, fault: Fault)

  function IncrStep(l: Limiter, s: State, o: nat, fault: Fault): State
    requires o < |s.ops|
  {
    var op := s.ops[o];
    var (redis, count) := Incr(s.redis, l.KeyFor(op.ip, op.window), s.now);
    match fault
    case Lost => s.(ops := s.ops[o := op.(pc := FailedOpen)])
    case ReplyLost => s.(redis := redis, ops := s.ops[o := op.(count := count, pc := FailedOpen)])
    case NoFault =>
      s.(redis := redis, ops := s.ops[o := op.(count := count, pc := if count == 1 then Expiring else Deciding)])
  }

  function ExpireStep(l: Limiter, s: State, o: nat, fault: Fault): State
    requires o < |s.ops|
  {
    var op := s.ops[o];
    var redis := PExpire(s.redis, l.KeyFor(op.ip, op.window), s.now, l.windowMs);
    State(s.now, if fault.Lost? then s.redis else redis,
          s.ops[o := op.(pc := if fault.NoFault? then Deciding else FailedOpen)])
  }

  function Advance(l: Limiter, s: State, o: nat, fault: Fault): State
    requires o < |s.ops|
  {
    var op := s.ops[o];
    match op.pc
    case Arrived => s.(ops := s.ops[o := op.(read := s.now, window := l.Window(s.now), pc := Incrementing)])
    case Incrementing => IncrStep(l, s, o, fault)
    case Expiring => ExpireStep(l, s, o, fault)
    case Deciding => s.(ops := s.ops[o := op.(pc := Answered(l.Respond(op.window, op.count, s.now), s.now))])
    case _ => s
  }

  function Next(l: Limiter, s: State, step: Step): State {
    match step
    case Tick(ms) => s.(now := s.now + ms)
    case Arrive(ip) => s.(ops := s.ops + [Op(ip, 0, 0, 0, Arrived)])
    case Go(o, fault) => if o < |s.ops| then Advance(l, s, o, fault) else s
  }

  function Run(l: Limiter, s: State, steps: seq<Step>): State {
    if steps == [] then s else Next(l, Run(l, s, steps[..|steps| - 1]), steps[|steps| - 1])
  }

  function Start(now: nat): State {
    State(now, map[], [])
  }
}
