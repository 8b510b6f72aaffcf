/** How many requests a limiter admits, over every run of the protocol. */
module RateLimiterBounds {
  import opened Wrappers
  import opened Time
  import opened RateLimiter

  // ---------------------------------------------------------------------------
  // Counting requests
  // ---------------------------------------------------------------------------

  datatype Kind =
    | Seen        // has read the clock
    | Counted     // its INCR reached the counter
    | First       // its INCR started the counter over
    | Low         // its INCR stayed within the limit
    | Errors      // failed open
    | Admitted    // passed on

  /** Requests of a client, in one window or with a clock reading in [from, from + windowMs). */
  datatype Query =
    | InWindow(kind: Kind, ip: string, window: nat)
    | InInterval(kind: Kind, ip: string, from: nat)

  predicate Admits(op: Op) {
    op.pc.FailedOpen? || (op.pc.Answered? && op.pc.response.retryAfter.None?)
  }

  predicate IsKind(l: Limiter, op: Op, kind: Kind) {
    match kind
    case Seen => !op.pc.Arrived?
    case Counted => op.count > 0
    case First => op.count == 1
    case Low => 0 < op.count <= l.max
    case Errors => op.pc.FailedOpen?
    case Admitted => Admits(op)
  }

  predicate Matches(l: Limiter, op: Op, q: Query) {
    && op.ip == q.ip && !op.pc.Arrived? && IsKind(l, op, q.kind)
    && match q
       case InWindow(_, _, window) => op.window == window
       case InInterval(_, _, from) => from <= op.read < from + l.windowMs
  }

  function One(b: bool): nat { if b then 1 else 0 }

  function Count(l: Limiter, ops: seq<Op>, q: Query): nat {
    if ops == [] then 0 else Count(l, ops[..|ops| - 1], q) + One(Matches(l, ops[|ops| - 1], q))
  }

  lemma {:induction false} CountUpdate(l: Limiter, ops: seq<Op>, o: nat, op: Op, q: Query)
    requires o < |ops|
    ensures Count(l, ops[o := op], q) == Count(l, ops, q) - One(Matches(l, ops[o], q)) + One(Matches(l, op, q))
  {
    var n := |ops| - 1;
    if o < n {
      CountUpdate(l, ops[..n], o, op, q);
      assert ops[o := op][..n] == ops[..n][o := op];
    } else {
      assert ops[o := op][..n] == ops[..n];
    }
  }

  lemma CountArrival(l: Limiter, ops: seq<Op>, ip: string, q: Query)
    ensures Count(l, ops + [Op(ip, 0, 0, 0, Arrived)], q) == Count(l, ops, q)
  {
    assert (ops + [Op(ip, 0, 0, 0, Arrived)])[..|ops|] == ops;
  }

  /** If every request of `q` is one of `a` or of `b`, there are no more of the former than of the latter. */
  lemma {:induction false} CountSplit(l: Limiter, ops: seq<Op>, q: Query, a: Query, b: Query)
    requires forall op :: op in ops && Matches(l, op, q) ==> Matches(l, op, a) || Matches(l, op, b)
    ensures Count(l, ops, q) <= Count(l, ops, a) + Count(l, ops, b)
  {
    if ops != [] {
      CountSplit(l, ops[..|ops| - 1], q, a, b);
      assert ops[|ops| - 1] in ops;
    }
  }

  lemma {:induction false} CountWithin(l: Limiter, ops: seq<Op>, q: Query, a: Query)
    requires forall op :: op in ops && Matches(l, op, q) ==> Matches(l, op, a)
    ensures Count(l, ops, q) <= Count(l, ops, a)
  {
    if ops != [] {
      CountWithin(l, ops[..|ops| - 1], q, a);
      assert ops[|ops| - 1] in ops;
    }
  }

  lemma {:induction false} NoneCounted(l: Limiter, ops: seq<Op>, q: Query, op: Op)
    requires Count(l, ops, q) == 0 && op in ops
    ensures !Matches(l, op, q)
  {
    var n := |ops| - 1;
    if op != ops[n] {
      assert ops == ops[..n] + [ops[n]];
      NoneCounted(l, ops[..n], q, op);
    }
  }

  // ---------------------------------------------------------------------------
  // What every run keeps
  // ---------------------------------------------------------------------------

  ghost predicate OpOk(l: Limiter, s: State, op: Op) {
    && (!op.pc.Arrived? ==> op.window == l.Window(op.read) && op.read <= s.now)
    && match op.pc
       case Arrived => op.count == 0
       case Incrementing => op.count == 0
       case Expiring => op.count == 1
       case Deciding => op.count > 0
       case Answered(response, at) =>
         op.count > 0 && op.read <= at <= s.now && response == l.Respond(op.window, op.count, at)
       case FailedOpen => true
  }

  /** The counter does not expire inside its own window. */
  ghost predicate Outlives(l: Limiter, s: State, ip: string, window: nat) {
    var key := l.KeyFor(ip, window);
    key in s.redis && s.redis[key].expiresAt.Some? ==> l.ResetAt(window) <= s.redis[key].expiresAt.value
  }

  function Min(a: nat, b: nat): nat { if a < b then a else b }

  function CountIn(l: Limiter, s: State, kind: Kind, ip: string, window: nat): nat {
    Count(l, s.ops, InWindow(kind, ip, window))
  }

  /** Each time the counter starts over it lets at most `max` requests through. */
  ghost predicate Ledger(l: Limiter, s: State, ip: string, window: nat) {
    var c := Live(s.redis, l.KeyFor(ip, window), s.now);
    var starts := CountIn(l, s, First, ip, window);
    var low := CountIn(l, s, Low, ip, window);
    && low <= l.max * starts
    && (c.Some? ==> starts > 0 && low <= l.max * (starts - 1) + Min(c.value.count, l.max))
  }

  ghost predicate Inv(l: Limiter, s: State) {
    && (forall op {:trigger OpOk(l, s, op)} :: op in s.ops ==> OpOk(l, s, op))
    && (forall ip, w: nat {:trigger Outlives(l, s, ip, w)} :: Outlives(l, s, ip, w))
    && (forall ip, w: nat {:trigger Ledger(l, s, ip, w)} :: Ledger(l, s, ip, w))
  }

  /** A step leaves the counters of other windows alone. */
  lemma OtherCounters(l: Limiter, s: State, o: nat, fault: Fault, ip: string, window: nat)
    requires o < |s.ops| && !(s.ops[o].ip == ip && s.ops[o].window == window)
    ensures var key, u := l.KeyFor(ip, window), Advance(l, s, o, fault);
            (key in u.redis <==> key in s.redis) && (key in u.redis ==> u.redis[key] == s.redis[key])
  {
    if l.KeyFor(ip, window) == l.KeyFor(s.ops[o].ip, s.ops[o].window) {
      l.KeysApart(ip, window, s.ops[o].ip, s.ops[o].window);
    }
  }

  /** ... and the counts of the requests in them. */
  lemma OtherCounts(l: Limiter, s: State, o: nat, fault: Fault, kind: Kind, ip: string, window: nat)
    requires o < |s.ops| && kind in {Counted, First, Low}
    requires s.ops[o].pc.Incrementing? ==> !(s.ops[o].ip == ip && s.ops[o].window == window)
    requires OpOk(l, s, s.ops[o])
    ensures CountIn(l, Advance(l, s, o, fault), kind, ip, window) == CountIn(l, s, kind, ip, window)
  {
    var u := Advance(l, s, o, fault);
    CountUpdate(l, s.ops, o, u.ops[o], InWindow(kind, ip, window));
    assert u.ops == s.ops[o := u.ops[o]];
  }

  lemma AdvanceKeepsOps(l: Limiter, s: State, o: nat, fault: Fault)
    requires Inv(l, s) && o < |s.ops|
    ensures var u := Advance(l, s, o, fault); forall op :: op in u.ops ==> OpOk(l, u, op)
  {
    var u := Advance(l, s, o, fault);
    assert OpOk(l, s, s.ops[o]);
    forall op | op in u.ops
      ensures OpOk(l, u, op)
    {
      var i :| 0 <= i < |u.ops| && u.ops[i] == op;
      if i != o {
        assert op == s.ops[i] && OpOk(l, s, op);
      }
    }
  }

  lemma AdvanceOutlives(l: Limiter, s: State, o: nat, fault: Fault, ip: string, window: nat)
    requires Inv(l, s) && o < |s.ops|
    ensures Outlives(l, Advance(l, s, o, fault), ip, window)
  {
    var op := s.ops[o];
    assert Outlives(l, s, ip, window) && OpOk(l, s, op);
    if op.ip == ip && op.window == window {
      if !op.pc.Arrived? {
        l.WindowSpan(op.read);
      }
    } else {
      OtherCounters(l, s, o, fault, ip, window);
    }
  }

  lemma OneMoreStart(max: nat, starts: nat)
    ensures max * (starts + 1) == max * starts + max
    ensures starts > 0 ==> max * starts == max * (starts - 1) + max
  {
  }

  /** What one counted INCR adds to each count of its window. */
  lemma IncrCounts(l: Limiter, s: State, o: nat, fault: Fault)
    requires o < |s.ops| && OpOk(l, s, s.ops[o]) && s.ops[o].pc.Incrementing? && !fault.Lost?
    ensures var u, ip, w := IncrStep(l, s, o, fault), s.ops[o].ip, s.ops[o].window;
            var c := Live(s.redis, l.KeyFor(ip, w), s.now);
            var n := if c.None? then 1 else c.value.count + 1;
            && CountIn(l, u, Counted, ip, w) == CountIn(l, s, Counted, ip, w) + 1
            && CountIn(l, u, First, ip, w) == CountIn(l, s, First, ip, w) + One(c.None?)
            && CountIn(l, u, Low, ip, w) == CountIn(l, s, Low, ip, w) + One(n <= l.max)
            && Live(u.redis, l.KeyFor(ip, w), u.now).Some? && Live(u.redis, l.KeyFor(ip, w), u.now).value.count == n
  {
    var u, op := IncrStep(l, s, o, fault), s.ops[o];
    CountUpdate(l, s.ops, o, u.ops[o], InWindow(Counted, op.ip, op.window));
    CountUpdate(l, s.ops, o, u.ops[o], InWindow(First, op.ip, op.window));
    CountUpdate(l, s.ops, o, u.ops[o], InWindow(Low, op.ip, op.window));
  }

  lemma LostIncrKeepsLedger(l: Limiter, s: State, o: nat)
    requires Inv(l, s) && o < |s.ops| && s.ops[o].pc.Incrementing?
    ensures Ledger(l, IncrStep(l, s, o, Lost), s.ops[o].ip, s.ops[o].window)
  {
    var u, op := IncrStep(l, s, o, Lost), s.ops[o];
    assert OpOk(l, s, op) && Ledger(l, s, op.ip, op.window);
    CountUpdate(l, s.ops, o, u.ops[o], InWindow(First, op.ip, op.window));
    CountUpdate(l, s.ops, o, u.ops[o], InWindow(Low, op.ip, op.window));
  }

  lemma IncrKeepsLedger(l: Limiter, s: State, o: nat, fault: Fault)
    requires Inv(l, s) && o < |s.ops| && s.ops[o].pc.Incrementing?
    ensures Ledger(l, IncrStep(l, s, o, fault), s.ops[o].ip, s.ops[o].window)
  {
    var op := s.ops[o];
    if fault.Lost? {
      LostIncrKeepsLedger(l, s, o);
    } else {
      assert OpOk(l, s, op) && Ledger(l, s, op.ip, op.window);
      IncrCounts(l, s, o, fault);
      OneMoreStart(l.max, CountIn(l, s, First, op.ip, op.window));
    }
  }

  lemma AdvanceKeepsLedger(l: Limiter, s: State, o: nat, fault: Fault, ip: string, window: nat)
    requires Inv(l, s) && o < |s.ops|
    ensures Ledger(l, Advance(l, s, o, fault), ip, window)
  {
    var op := s.ops[o];
    assert OpOk(l, s, op) && Ledger(l, s, ip, window);
    if op.pc.Incrementing? && op.ip == ip && op.window == window {
      IncrKeepsLedger(l, s, o, fault);
    } else {
      OtherCounts(l, s, o, fault, First, ip, window);
      OtherCounts(l, s, o, fault, Low, ip, window);
      if !(op.ip == ip && op.window == window) {
        OtherCounters(l, s, o, fault, ip, window);
      }
    }
  }

  lemma NextKeeps(l: Limiter, s: State, step: Step)
    requires Inv(l, s)
    ensures Inv(l, Next(l, s, step))
  {
    var u := Next(l, s, step);
    match step
    case Tick(ms) =>
      forall ip, w: nat
        ensures Outlives(l, u, ip, w) && Ledger(l, u, ip, w)
      {
        assert Outlives(l, s, ip, w) && Ledger(l, s, ip, w);
      }
      forall op | op in u.ops
        ensures OpOk(l, u, op)
      {
        assert OpOk(l, s, op);
      }
    case Arrive(ip') =>
      forall ip, w: nat
        ensures Outlives(l, u, ip, w) && Ledger(l, u, ip, w)
      {
        assert Outlives(l, s, ip, w) && Ledger(l, s, ip, w);
        CountArrival(l, s.ops, ip', InWindow(First, ip, w));
        CountArrival(l, s.ops, ip', InWindow(Low, ip, w));
      }
      forall op | op in u.ops
        ensures OpOk(l, u, op)
      {
        assert op in s.ops ==> OpOk(l, s, op);
      }
    case Go(o, fault) =>
      if o < |s.ops| {
        AdvanceKeepsOps(l, s, o, fault);
        forall ip, w: nat
          ensures Outlives(l, u, ip, w) && Ledger(l, u, ip, w)
        {
          AdvanceOutlives(l, s, o, fault, ip, w);
          AdvanceKeepsLedger(l, s, o, fault, ip, w);
        }
      }
  }

  lemma {:induction false} RunKeeps(l: Limiter, now: nat, steps: seq<Step>)
    ensures Inv(l, Run(l, Start(now), steps))
  {
    if steps != [] {
      RunKeeps(l, now, steps[..|steps| - 1]);
      NextKeeps(l, Run(l, Start(now), steps[..|steps| - 1]), steps[|steps| - 1]);
    }
  }

  /** PEXPIRE never drops a counter inside its own window, in any run. */
  lemma CounterOutlivesWindow(l: Limiter, now: nat, steps: seq<Step>, ip: string, window: nat)
    ensures var s := Run(l, Start(now), steps);
            l.KeyFor(ip, window) in s.redis && s.now < l.ResetAt(window) ==>
              Live(s.redis, l.KeyFor(ip, window), s.now).Some?
  {
    RunKeeps(l, now, steps);
    assert Outlives(l, Run(l, Start(now), steps), ip, window);
  }

  lemma AdmittedIsLowOrError(l: Limiter, s: State, ip: string, window: nat)
    requires Inv(l, s)
    ensures CountIn(l, s, Admitted, ip, window) <= CountIn(l, s, Low, ip, window) + CountIn(l, s, Errors, ip, window)
  {
    var q := InWindow(Admitted, ip, window);
    forall op | op in s.ops && Matches(l, op, q)
      ensures Matches(l, op, InWindow(Low, ip, window)) || Matches(l, op, InWindow(Errors, ip, window))
    {
      assert OpOk(l, s, op);
    }
    CountSplit(l, s.ops, q, InWindow(Low, ip, window), InWindow(Errors, ip, window));
  }

  /** In any run at all, a window admits at most `max` requests per start of its counter, and those that failed open. */
  lemma AdmittedPerStart(l: Limiter, now: nat, steps: seq<Step>, ip: string, window: nat)
    ensures var s := Run(l, Start(now), steps);
            CountIn(l, s, Admitted, ip, window)
            <= l.max * CountIn(l, s, First, ip, window) + CountIn(l, s, Errors, ip, window)
  {
    RunKeeps(l, now, steps);
    var s := Run(l, Start(now), steps);
    assert Ledger(l, s, ip, window);
    AdmittedIsLowOrError(l, s, ip, window);
  }

  /** Every client denied in any run that waits as told gets a later window and its own counter. */
  lemma DeniedClientsCanReturn(l: Limiter, now: nat, steps: seq<Step>, o: nat, again: nat)
    requires var s := Run(l, Start(now), steps);
             && o < |s.ops| && s.ops[o].pc.Answered? && s.ops[o].pc.response.retryAfter.Some?
             && s.ops[o].pc.at + s.ops[o].pc.response.retryAfter.value * MS_PER_SECOND <= again
    ensures var op := Run(l, Start(now), steps).ops[o];
            l.Window(op.read) < l.Window(again) &&
              l.KeyFor(op.ip, l.Window(again)) != l.KeyFor(op.ip, l.Window(op.read))
  {
    RunKeeps(l, now, steps);
    var s := Run(l, Start(now), steps);
    assert OpOk(l, s, s.ops[o]);
    l.RetryAfterSuffices(s.ops[o].ip, s.ops[o].window, s.ops[o].pc.at, again);
  }

  // ---------------------------------------------------------------------------
  // Prompt runs: every INCR reaches Redis before its window is over
  // ---------------------------------------------------------------------------

  ghost predicate PromptStep(l: Limiter, s: State, step: Step) {
    step.Go? && step.op < |s.ops| && s.ops[step.op].pc.Incrementing? ==> s.now < l.ResetAt(s.ops[step.op].window)
  }

  ghost predicate PromptRun(l: Limiter, s: State, steps: seq<Step>) {
    steps == []
    || (PromptRun(l, s, steps[..|steps| - 1]) && PromptStep(l, Run(l, s, steps[..|steps| - 1]), steps[|steps| - 1]))
  }

  /** The counter is the number of requests that reached it. */
  ghost predicate Exact(l: Limiter, s: State, ip: string, window: nat) {
    var key, n := l.KeyFor(ip, window), CountIn(l, s, Counted, ip, window);
    && (if key in s.redis then s.redis[key].count == n else n == 0)
    && CountIn(l, s, Low, ip, window) == Min(n, l.max)
  }

  lemma IncrKeepsExact(l: Limiter, s: State, o: nat, fault: Fault)
    requires Inv(l, s) && o < |s.ops| && s.ops[o].pc.Incrementing? && PromptStep(l, s, Go(o, fault))
    requires Exact(l, s, s.ops[o].ip, s.ops[o].window)
    ensures Exact(l, IncrStep(l, s, o, fault), s.ops[o].ip, s.ops[o].window)
  {
    var u, op := IncrStep(l, s, o, fault), s.ops[o];
    assert OpOk(l, s, op) && Outlives(l, s, op.ip, op.window);
    if fault.Lost? {
      CountUpdate(l, s.ops, o, u.ops[o], InWindow(Counted, op.ip, op.window));
      CountUpdate(l, s.ops, o, u.ops[o], InWindow(Low, op.ip, op.window));
    } else {
      IncrCounts(l, s, o, fault);
    }
  }

  lemma AdvanceKeepsExact(l: Limiter, s: State, o: nat, fault: Fault, ip: string, window: nat)
    requires Inv(l, s) && o < |s.ops| && PromptStep(l, s, Go(o, fault)) && Exact(l, s, ip, window)
    ensures Exact(l, Advance(l, s, o, fault), ip, window)
  {
    var op := s.ops[o];
    if op.pc.Incrementing? && op.ip == ip && op.window == window {
      IncrKeepsExact(l, s, o, fault);
    } else {
      assert OpOk(l, s, op);
      OtherCounts(l, s, o, fault, Counted, ip, window);
      OtherCounts(l, s, o, fault, Low, ip, window);
      if !(op.ip == ip && op.window == window) {
        OtherCounters(l, s, o, fault, ip, window);
      }
    }
  }

  lemma {:induction false} PromptRunIsExact(l: Limiter, now: nat, steps: seq<Step>, ip: string, window: nat)
    requires PromptRun(l, Start(now), steps)
    ensures Exact(l, Run(l, Start(now), steps), ip, window)
  {
    if steps != [] {
      var s, step := Run(l, Start(now), steps[..|steps| - 1]), steps[|steps| - 1];
      PromptRunIsExact(l, now, steps[..|steps| - 1], ip, window);
      RunKeeps(l, now, steps[..|steps| - 1]);
      match step
      case Tick(_) =>
      case Arrive(ip') =>
        CountArrival(l, s.ops, ip', InWindow(Counted, ip, window));
        CountArrival(l, s.ops, ip', InWindow(Low, ip, window));
      case Go(o, fault) =>
        if o < |s.ops| {
          AdvanceKeepsExact(l, s, o, fault, ip, window);
        }
    }
  }

  ghost predicate Settled(l: Limiter, s: State, ip: string, window: nat) {
    forall op :: op in s.ops && Matches(l, op, InWindow(Seen, ip, window)) ==> op.pc.Answered? || op.pc.FailedOpen?
  }

  /**
   * In a prompt run a window admits at most `max` requests, plus those that failed open; and once
   * all its requests are settled without an error, exactly min(requests, max).
   */
  lemma AdmissionBound(l: Limiter, now: nat, steps: seq<Step>, ip: string, window: nat)
    requires PromptRun(l, Start(now), steps)
    ensures var s := Run(l, Start(now), steps);
            && CountIn(l, s, Admitted, ip, window) <= l.max + CountIn(l, s, Errors, ip, window)
            && (Settled(l, s, ip, window) && CountIn(l, s, Errors, ip, window) == 0 ==>
                  CountIn(l, s, Admitted, ip, window) == Min(CountIn(l, s, Seen, ip, window), l.max))
  {
    RunKeeps(l, now, steps);
    PromptRunIsExact(l, now, steps, ip, window);
    var s := Run(l, Start(now), steps);
    AdmittedIsLowOrError(l, s, ip, window);
    if Settled(l, s, ip, window) && CountIn(l, s, Errors, ip, window) == 0 {
      SettledCounts(l, s, ip, window);
    }
  }

  lemma SettledCounts(l: Limiter, s: State, ip: string, window: nat)
    requires Inv(l, s) && Settled(l, s, ip, window) && CountIn(l, s, Errors, ip, window) == 0
    ensures CountIn(l, s, Seen, ip, window) == CountIn(l, s, Counted, ip, window)
    ensures CountIn(l, s, Admitted, ip, window) == CountIn(l, s, Low, ip, window)
  {
    forall op | op in s.ops && Matches(l, op, InWindow(Seen, ip, window))
      ensures op.count > 0 && (Admits(op) <==> op.count <= l.max)
    {
      assert OpOk(l, s, op);
      NoneCounted(l, s.ops, InWindow(Errors, ip, window), op);
    }
    CountWithin(l, s.ops, InWindow(Seen, ip, window), InWindow(Counted, ip, window));
    CountWithin(l, s.ops, InWindow(Counted, ip, window), InWindow(Seen, ip, window));
    CountWithin(l, s.ops, InWindow(Admitted, ip, window), InWindow(Low, ip, window));
    CountWithin(l, s.ops, InWindow(Low, ip, window), InWindow(Admitted, ip, window));
  }

  /** Any interval as long as a window meets two windows, so it admits at most twice the limit. */
  lemma IntervalBound(l: Limiter, now: nat, steps: seq<Step>, ip: string, from: nat)
    requires PromptRun(l, Start(now), steps)
    ensures var s := Run(l, Start(now), steps);
            var w := l.Window(from);
            Count(l, s.ops, InInterval(Admitted, ip, from))
            <= 2 * l.max + CountIn(l, s, Errors, ip, w) + CountIn(l, s, Errors, ip, w + 1)
  {
    RunKeeps(l, now, steps);
    AdmissionBound(l, now, steps, ip, l.Window(from));
    AdmissionBound(l, now, steps, ip, l.Window(from) + 1);
    IntervalInWindows(l, Run(l, Start(now), steps), ip, from);
  }

  lemma IntervalInWindows(l: Limiter, s: State, ip: string, from: nat)
    requires Inv(l, s)
    ensures Count(l, s.ops, InInterval(Admitted, ip, from))
         <= CountIn(l, s, Admitted, ip, l.Window(from)) + CountIn(l, s, Admitted, ip, l.Window(from) + 1)
  {
    var w := l.Window(from);
    forall op | op in s.ops && Matches(l, op, InInterval(Admitted, ip, from))
      ensures Matches(l, op, InWindow(Admitted, ip, w)) || Matches(l, op, InWindow(Admitted, ip, w + 1))
    {
      assert OpOk(l, s, op);
      TwoWindows(l, from, op.read);
    }
    CountSplit(l, s.ops, InInterval(Admitted, ip, from), InWindow(Admitted, ip, w), InWindow(Admitted, ip, w + 1));
  }

  lemma TwoWindows(l: Limiter, from: nat, at: nat)
    requires from <= at < from + l.windowMs
    ensures l.Window(at) == l.Window(from) || l.Window(at) == l.Window(from) + 1
  {
    l.WindowSpan(from);
    l.WindowSpan(at);
    l.OverFromReset(l.Window(from) + 1, at);
    l.OverFromReset(l.Window(at), from);
  }

  // ---------------------------------------------------------------------------
  // One request at a time
  // ---------------------------------------------------------------------------

  /** Request `o` takes its steps at the moments and with the faults of the course, and nothing else happens. */
  function Alone(l: Limiter, s: State, o: nat, c: Course): State
    requires c.read <= c.incremented <= c.expired <= c.decided && o < |s.ops|
  {
    var read := Next(l, s, Go(o, NoFault));
    var incremented := Next(l, Next(l, read, Tick(c.incremented - c.read)), Go(o, c.incrFault));
    var kept :=
      if o < |incremented.ops| && incremented.ops[o].pc.Expiring?
      then Next(l, Next(l, incremented, Tick(c.expired - c.incremented)), Go(o, c.expireFault))
      else Next(l, incremented, Tick(c.expired - c.incremented));
    Next(l, Next(l, kept, Tick(c.decided - c.expired)), Go(o, NoFault))
  }

  /** The protocol's steps, uninterrupted, are the middleware. */
  lemma AloneIsMiddleware(l: Limiter, s: State, o: nat, c: Course)
    requires c.read <= c.incremented <= c.expired <= c.decided && o < |s.ops| && s.now == c.read && s.ops[o].pc.Arrived?
    ensures var u, (redis, response) := Alone(l, s, o, c), Serve(l, s.redis, s.ops[o].ip, c);
            && u.redis == redis && |u.ops| == |s.ops|
            && u.ops[o].pc == (if response.Some? then Answered(response.value, c.decided) else FailedOpen)
  {
  }

  // ---------------------------------------------------------------------------
  // Late INCRs
  // ---------------------------------------------------------------------------

  /** In any run, an INCR that starts an existing counter over comes after the counter's window. */
  lemma OnlyLateIncrsStartOver(l: Limiter, now: nat, steps: seq<Step>, o: nat)
    requires var s := Run(l, Start(now), steps);
             && o < |s.ops| && s.ops[o].pc.Incrementing?
             && l.KeyFor(s.ops[o].ip, s.ops[o].window) in s.redis
             && Advance(l, s, o, NoFault).ops[o].count == 1
    ensures var s := Run(l, Start(now), steps); l.ResetAt(s.ops[o].window) <= s.now
  {
    var s := Run(l, Start(now), steps);
    CounterOutlivesWindow(l, now, steps, s.ops[o].ip, s.ops[o].window);
  }

  lemma {:induction false} RunOf(l: Limiter, s: State, steps: seq<Step>, states: seq<State>)
    requires |states| == |steps| + 1 && states[0] == s
    requires forall i :: 0 <= i < |steps| ==> states[i + 1] == Next(l, states[i], steps[i])
    ensures Run(l, s, steps) == states[|steps|]
  {
    if steps != [] {
      RunOf(l, s, steps[..|steps| - 1], states[..|steps|]);
    }
  }

  // ---------------------------------------------------------------------------
  // Exactly how many a window admits, late INCRs included
  // ---------------------------------------------------------------------------

  /** The step is an INCR that reaches this window's counter. */
  predicate Reaches(s: State, step: Step, ip: string, window: nat) {
    step.Go? && step.op < |s.ops| && s.ops[step.op].pc.Incrementing? && !step.fault.Lost?
    && s.ops[step.op].ip == ip && s.ops[step.op].window == window
  }

  function OneMore(sizes: seq<nat>): seq<nat> {
    if sizes == [] then [1] else sizes[..|sizes| - 1] + [sizes[|sizes| - 1] + 1]
  }

  /** The number of INCRs in each life of the window's counter, in order. */
  function Lives(l: Limiter, s: State, steps: seq<Step>, ip: string, window: nat): seq<nat> {
    if steps == [] then []
    else
      var n := |steps| - 1;
      var before, sizes := Run(l, s, steps[..n]), Lives(l, s, steps[..n], ip, window);
      if !Reaches(before, steps[n], ip, window) then sizes
      else if Live(before.redis, l.KeyFor(ip, window), before.now).None? then sizes + [1]
      else OneMore(sizes)
  }

  function Total(sizes: seq<nat>): nat {
    if sizes == [] then 0 else Total(sizes[..|sizes| - 1]) + sizes[|sizes| - 1]
  }

  /** At most `max` pass in each life of the counter. */
  function Passing(sizes: seq<nat>, max: nat): nat {
    if sizes == [] then 0 else Passing(sizes[..|sizes| - 1], max) + Min(sizes[|sizes| - 1], max)
  }

  predicate Positives(sizes: seq<nat>) {
    forall i :: 0 <= i < |sizes| ==> sizes[i] > 0
  }

  lemma SizesSnoc(sizes: seq<nat>, n: nat, max: nat)
    ensures Total(sizes + [n]) == Total(sizes) + n
    ensures Passing(sizes + [n], max) == Passing(sizes, max) + Min(n, max)
  {
    assert (sizes + [n])[..|sizes|] == sizes;
  }

  lemma OneMoreSizes(sizes: seq<nat>, max: nat)
    requires sizes != []
    ensures var last := sizes[|sizes| - 1];
            && |OneMore(sizes)| == |sizes| && OneMore(sizes)[|sizes| - 1] == last + 1
            && (Positives(sizes) ==> Positives(OneMore(sizes)))
            && Total(OneMore(sizes)) == Total(sizes) + 1
            && Passing(OneMore(sizes), max) == Passing(sizes, max) + One(last + 1 <= max)
  {
    SizesSnoc(sizes[..|sizes| - 1], sizes[|sizes| - 1] + 1, max);
  }

  /** The counts of a window's requests, from the lives of its counter. */
  ghost predicate Booked(l: Limiter, s: State, sizes: seq<nat>, ip: string, window: nat) {
    var c := Live(s.redis, l.KeyFor(ip, window), s.now);
    && Positives(sizes)
    && CountIn(l, s, Counted, ip, window) == Total(sizes)
    && CountIn(l, s, First, ip, window) == |sizes|
    && CountIn(l, s, Low, ip, window) == Passing(sizes, l.max)
    && (c.Some? ==> sizes != [] && sizes[|sizes| - 1] == c.value.count)
  }

  lemma IncrIsBooked(l: Limiter, s: State, o: nat, fault: Fault, sizes: seq<nat>)
    requires Inv(l, s) && o < |s.ops| && s.ops[o].pc.Incrementing? && !fault.Lost?
    requires Booked(l, s, sizes, s.ops[o].ip, s.ops[o].window)
    ensures var c := Live(s.redis, l.KeyFor(s.ops[o].ip, s.ops[o].window), s.now);
            var after := if c.None? then sizes + [1] else OneMore(sizes);
            Booked(l, IncrStep(l, s, o, fault), after, s.ops[o].ip, s.ops[o].window)
  {
    var op := s.ops[o];
    assert OpOk(l, s, op);
    IncrCounts(l, s, o, fault);
    if Live(s.redis, l.KeyFor(op.ip, op.window), s.now).None? {
      SizesSnoc(sizes, 1, l.max);
    } else {
      OneMoreSizes(sizes, l.max);
    }
  }

  lemma OthersBooked(l: Limiter, s: State, o: nat, fault: Fault, sizes: seq<nat>, ip: string, window: nat)
    requires Inv(l, s) && o < |s.ops| && Booked(l, s, sizes, ip, window) && !Reaches(s, Go(o, fault), ip, window)
    ensures Booked(l, Advance(l, s, o, fault), sizes, ip, window)
  {
    var u, op := Advance(l, s, o, fault), s.ops[o];
    assert OpOk(l, s, op);
    if op.pc.Incrementing? && op.ip == ip && op.window == window {
      CountUpdate(l, s.ops, o, u.ops[o], InWindow(Counted, ip, window));
      CountUpdate(l, s.ops, o, u.ops[o], InWindow(First, ip, window));
      CountUpdate(l, s.ops, o, u.ops[o], InWindow(Low, ip, window));
    } else {
      OtherCounts(l, s, o, fault, Counted, ip, window);
      OtherCounts(l, s, o, fault, First, ip, window);
      OtherCounts(l, s, o, fault, Low, ip, window);
      if !(op.ip == ip && op.window == window) {
        OtherCounters(l, s, o, fault, ip, window);
      }
    }
  }

  lemma {:induction false} RunIsBooked(l: Limiter, now: nat, steps: seq<Step>, ip: string, window: nat)
    ensures Booked(l, Run(l, Start(now), steps), Lives(l, Start(now), steps, ip, window), ip, window)
  {
    if steps != [] {
      var n := |steps| - 1;
      var s, sizes := Run(l, Start(now), steps[..n]), Lives(l, Start(now), steps[..n], ip, window);
      RunIsBooked(l, now, steps[..n], ip, window);
      RunKeeps(l, now, steps[..n]);
      match steps[n]
      case Tick(_) =>
      case Arrive(ip') =>
        CountArrival(l, s.ops, ip', InWindow(Counted, ip, window));
        CountArrival(l, s.ops, ip', InWindow(First, ip, window));
        CountArrival(l, s.ops, ip', InWindow(Low, ip, window));
      case Go(o, fault) =>
        if Reaches(s, steps[n], ip, window) {
          IncrIsBooked(l, s, o, fault, sizes);
        } else if o < |s.ops| {
          OthersBooked(l, s, o, fault, sizes, ip, window);
        }
    }
  }

  lemma {:induction false} PassingBounds(sizes: seq<nat>, max: nat)
    requires Positives(sizes)
    ensures Min(Total(sizes), max) <= Passing(sizes, max) <= Total(sizes)
    ensures max == 0 ==> Passing(sizes, max) == 0
    ensures sizes != [] && max > 0 ==> Passing(sizes, max) > 0
  {
    if sizes != [] {
      PassingBounds(sizes[..|sizes| - 1], max);
    }
  }

  /** More than `max` pass exactly if the counter had a second life and more than `max` came at all. */
  lemma PassingExceeds(sizes: seq<nat>, max: nat)
    requires Positives(sizes)
    ensures Passing(sizes, max) > max <==> max > 0 && |sizes| >= 2 && Total(sizes) > max
  {
    PassingBounds(sizes, max);
    if sizes != [] {
      var init := sizes[..|sizes| - 1];
      PassingBounds(init, max);
      assert |sizes| == 1 ==> init == [];
    }
  }

  /**
   * In any run at all, once a window's requests are settled without an error: it has admitted, for
   * each life of its counter, min(requests in that life, max). So it exceeds its quota if and only
   * if its counter was started over and more than `max` requests came.
   */
  lemma ExactAdmission(l: Limiter, now: nat, steps: seq<Step>, ip: string, window: nat)
    requires var s := Run(l, Start(now), steps); Settled(l, s, ip, window) && CountIn(l, s, Errors, ip, window) == 0
    ensures var s, lives := Run(l, Start(now), steps), Lives(l, Start(now), steps, ip, window);
            && CountIn(l, s, Admitted, ip, window) == Passing(lives, l.max)
            && CountIn(l, s, Seen, ip, window) == Total(lives)
            && CountIn(l, s, First, ip, window) == |lives|
            && (CountIn(l, s, Admitted, ip, window) > l.max
                <==> l.max > 0 && CountIn(l, s, First, ip, window) >= 2 && CountIn(l, s, Seen, ip, window) > l.max)
  {
    RunKeeps(l, now, steps);
    RunIsBooked(l, now, steps, ip, window);
    SettledCounts(l, Run(l, Start(now), steps), ip, window);
    PassingExceeds(Lives(l, Start(now), steps, ip, window), l.max);
  }

  const ONE_PER_WINDOW: Limiter := Limiter("ratelimit", 10, 1)

  lemma {:induction false} RunConcat(l: Limiter, s: State, steps: seq<Step>, more: seq<Step>)
    ensures Run(l, s, steps + more) == Run(l, Run(l, s, steps), more)
  {
    if more == [] {
      assert steps + more == steps;
    } else {
      RunConcat(l, s, steps, more[..|more| - 1]);
      assert (steps + more)[..|steps + more| - 1] == steps + more[..|more| - 1];
    }
  }

  /** Two requests read the clock in the first window; one of them passes, the other's INCR is still to come. */
  lemma OneOfTwoPasses(l: Limiter) returns (steps: seq<Step>, passed: Op)
    requires l == ONE_PER_WINDOW
    ensures passed.ip == "ip" && passed.window == 0 && Admits(passed) && !passed.pc.FailedOpen?
    ensures Run(l, Start(0), steps)
         == State(0, map[l.KeyFor("ip", 0) := Counter(1, Some(10))], [passed, Op("ip", 0, 0, 0, Incrementing)])
  {
    var key := l.KeyFor("ip", 0);
    steps := [Arrive("ip"), Arrive("ip"), Go(0, NoFault), Go(1, NoFault), Go(0, NoFault), Go(0, NoFault),
      Go(0, NoFault)];
    var arrived, ready := Op("ip", 0, 0, 0, Arrived), Op("ip", 0, 0, 0, Incrementing);
    var counted := Op("ip", 0, 0, 1, Expiring);
    passed := Op("ip", 0, 0, 1, Answered(l.Respond(0, 1, 0), 0));
    var started, kept := map[key := Counter(1, None)], map[key := Counter(1, Some(10))];
    RunOf(l, Start(0), steps,
          [Start(0), State(0, map[], [arrived]), State(0, map[], [arrived, arrived]), State(0, map[], [ready, arrived]),
           State(0, map[], [ready, ready]), State(0, started, [counted, ready]),
           State(0, kept, [counted.(pc := Deciding), ready]), State(0, kept, [passed, ready])]);
  }

  /** Such a run exists: a limit of one, two requests of one window, no error, and both admitted. */
  lemma LateIncrBreaksTheBound() returns (steps: seq<Step>)
    ensures var s := Run(ONE_PER_WINDOW, Start(0), steps);
            CountIn(ONE_PER_WINDOW, s, Admitted, "ip", 0) == 2 && CountIn(ONE_PER_WINDOW, s, Errors, "ip", 0) == 0
  {
    var l := ONE_PER_WINDOW;
    var key := l.KeyFor("ip", 0);
    var first, passed := OneOfTwoPasses(l);
    var late := [Tick(10), Go(1, NoFault), Go(1, NoFault), Go(1, NoFault)];
    var counted := Op("ip", 0, 0, 1, Expiring);
    var passedLate := Op("ip", 0, 0, 1, Answered(l.Respond(0, 1, 10), 10));
    var kept, started, again :=
      map[key := Counter(1, Some(10))], map[key := Counter(1, None)], map[key := Counter(1, Some(20))];
    var ready := Op("ip", 0, 0, 0, Incrementing);
    RunOf(l, State(0, kept, [passed, ready]), late,
          [State(0, kept, [passed, ready]), State(10, kept, [passed, ready]), State(10, started, [passed, counted]),
           State(10, again, [passed, counted.(pc := Deciding)]), State(10, again, [passed, passedLate])]);
    steps := first + late;
    RunConcat(l, Start(0), first, late);
    CountTwo(l, passed, passedLate, InWindow(Admitted, "ip", 0));
    CountTwo(l, passed, passedLate, InWindow(Errors, "ip", 0));
  }

  lemma CountTwo(l: Limiter, a: Op, b: Op, q: Query)
    ensures Count(l, [a, b], q) == One(Matches(l, a, q)) + One(Matches(l, b, q))
  {
    assert [a, b][..1] == [a];
    assert Count(l, [a], q) == Count(l, [], q) + One(Matches(l, a, q)) by {
      assert [a][..0] == [];
    }
  }
}
