/**
 * dispatchToUpstream of proxy.service.ts: any number of requests in flight share one error callback,
 * which finds the request an error belongs to through the `pendingUpstreamErrors` map. An exchange
 * is one HTTP request with its response; Express hands each one to the router once.
 */
module ProxyDispatch {
  import opened Wrappers

  type Exchange = nat

  datatype UpstreamErr = UpstreamErr(code: string, message: string)

  datatype AppError =
    | GatewayTimeout(service: string)
    | Upstream(service: string, cause: string)
    | Passed(error: nat)
    | Text(text: string)

  datatype Outcome = Resolved | Rejected(error: AppError)

  /** What a middleware hands to next(): nothing (or another falsy value), an Error, or any other value as text. */
  datatype NextArg = Falsy | AnError(error: nat) | Other(text: string)

  datatype Event =
    | Dispatch(x: Exchange, route: string, url: string, forwardPath: string)
    | ProxyError(target: Option<Exchange>, err: UpstreamErr)  // None: not a server response, such as a socket
    | Finish(x: Exchange)
    | Close(x: Exchange)
    | NextCalled(x: Exchange, arg: NextArg)
    | Resume(x: Exchange)                                     // the awaiting function continues

  /** `calls` are the calls made of the promise's resolve and reject. */
  datatype InFlight = InFlight(route: string, originalUrl: string, settled: bool, calls: seq<Outcome>, returned: bool)

  /** `pending` maps a response to the callback registered for it, which knows its request and route. */
  datatype Callback = Callback(x: Exchange, route: string)

  datatype State = State(
    pending: map<Exchange, Callback>,
    urls: map<Exchange, string>,
    inFlight: map<Exchange, InFlight>)

  function MapUpstreamError(route: string, err: UpstreamErr): AppError {
    if err.code == "ETIMEDOUT" || err.code == "ECONNRESET" then GatewayTimeout(route) else Upstream(route, err.message)
  }

  function Settle(s: State, x: Exchange, outcome: Outcome): State
    requires x in s.inFlight
  {
    var d := s.inFlight[x];
    if d.settled then s
    else s.(inFlight := s.inFlight[x := d.(settled := true, calls := d.calls + [outcome])], pending := s.pending - {x})
  }

  function OnError(s: State, target: Option<Exchange>, err: UpstreamErr): State {
    if target.None? || target.value !in s.pending then s
    else
      var callback := s.pending[target.value];
      if callback.x !in s.inFlight then s
      else Settle(s, callback.x, Rejected(MapUpstreamError(callback.route, err)))
  }

  function OnNext(s: State, x: Exchange, arg: NextArg): State
    requires x in s.inFlight
  {
    match arg
    case Falsy => s
    case AnError(error) => Settle(s, x, Rejected(Passed(error)))
    case Other(text) => Settle(s, x, Rejected(Text(text)))
  }

  function Next(s: State, e: Event): State {
    match e
    case Dispatch(x, route, url, forwardPath) =>
      if x in s.inFlight then s
      else State(s.pending[x := Callback(x, route)], s.urls[x := forwardPath],
                 s.inFlight[x := InFlight(route, url, false, [], false)])
    case ProxyError(target, err) => OnError(s, target, err)
    case Finish(x) => if x in s.inFlight then Settle(s, x, Resolved) else s
    case Close(x) => if x in s.inFlight then Settle(s, x, Resolved) else s
    case NextCalled(x, arg) => if x in s.inFlight then OnNext(s, x, arg) else s
    case Resume(x) =>
      if x !in s.inFlight || !s.inFlight[x].settled || s.inFlight[x].returned then s
      else s.(urls := s.urls[x := s.inFlight[x].originalUrl],
              inFlight := s.inFlight[x := s.inFlight[x].(returned := true)])
  }

  function Run(s: State, events: seq<Event>): State {
    if events == [] then s else Next(Run(s, events[..|events| - 1]), events[|events| - 1])
  }

  const START: State := State(map[], map[], map[])

  // ---------------------------------------------------------------------------
  // What each request should be answered, without any state
  // ---------------------------------------------------------------------------

  /** How an event settles request `x` of a route, if nothing has settled it before. */
  function Settling(x: Exchange, route: string, e: Event): Option<Outcome> {
    match e
    case ProxyError(Some(y), err) => if y == x then Some(Rejected(MapUpstreamError(route, err))) else None
    case Finish(y) => if y == x then Some(Resolved) else None
    case Close(y) => if y == x then Some(Resolved) else None
    case NextCalled(y, AnError(error)) => if y == x then Some(Rejected(Passed(error))) else None
    case NextCalled(y, Other(text)) => if y == x then Some(Rejected(Text(text))) else None
    case _ => None
  }

  function FirstSettling(x: Exchange, route: string, events: seq<Event>): Option<Outcome> {
    if events == [] then None
    else
      var first := Settling(x, route, events[0]);
      if first.Some? then first else FirstSettling(x, route, events[1..])
  }

  lemma {:induction false} FirstSettlingSnoc(x: Exchange, route: string, events: seq<Event>, e: Event)
    ensures FirstSettling(x, route, events + [e])
         == (if FirstSettling(x, route, events).Some? then FirstSettling(x, route, events) else Settling(x, route, e))
  {
    if events == [] {
      assert [e][1..] == [];
      assert events + [e] == [e];
    } else {
      FirstSettlingSnoc(x, route, events[1..], e);
      assert (events + [e])[1..] == events[1..] + [e];
    }
  }

  /** `first` is the first event of `events` that settles `x`: it does, and none before it does. */
  lemma {:induction false} FirstSettlingMeaning(x: Exchange, route: string, events: seq<Event>)
    ensures FirstSettling(x, route, events).None? <==>
              forall i :: 0 <= i < |events| ==> Settling(x, route, events[i]).None?
    ensures FirstSettling(x, route, events).Some? ==>
              exists i :: 0 <= i < |events| && Settling(x, route, events[i]) == FirstSettling(x, route, events)
                && forall j :: 0 <= j < i ==> Settling(x, route, events[j]).None?
  {
    if events != [] && Settling(x, route, events[0]).None? {
      var rest := events[1..];
      FirstSettlingMeaning(x, route, rest);
      assert forall i :: 0 <= i < |rest| ==> rest[i] == events[i + 1];
      if FirstSettling(x, route, rest).None? {
        forall i | 0 <= i < |events|
          ensures Settling(x, route, events[i]).None?
        {
          assert i > 0 ==> events[i] == rest[i - 1];
        }
      } else {
        var i :| 0 <= i < |rest| && Settling(x, route, rest[i]) == FirstSettling(x, route, rest)
          && forall j :: 0 <= j < i ==> Settling(x, route, rest[j]).None?;
        forall j | 0 <= j < i + 1
          ensures Settling(x, route, events[j]).None?
        {
          assert j > 0 ==> events[j] == rest[j - 1];
        }
        assert events[i + 1] == rest[i];
      }
    }
  }

  // ---------------------------------------------------------------------------
  // The invariant
  // ---------------------------------------------------------------------------

  ghost predicate InFlightOk(s: State, x: Exchange) {
    && (x in s.pending <==> x in s.inFlight && !s.inFlight[x].settled)
    && (x in s.pending ==> s.pending[x] == Callback(x, s.inFlight[x].route))
    && (x in s.inFlight ==>
          |s.inFlight[x].calls| == (if s.inFlight[x].settled then 1 else 0) &&
            (s.inFlight[x].returned ==> s.inFlight[x].settled))
  }

  ghost predicate Inv(s: State) {
    forall x {:trigger InFlightOk(s, x)} :: InFlightOk(s, x)
  }

  lemma SettleKeeps(s: State, x: Exchange, outcome: Outcome)
    requires Inv(s) && x in s.inFlight
    ensures Inv(Settle(s, x, outcome))
  {
    forall y
      ensures InFlightOk(Settle(s, x, outcome), y)
    {
      assert InFlightOk(s, y) && InFlightOk(s, x);
    }
  }

  lemma NextKeeps(s: State, e: Event)
    requires Inv(s)
    ensures Inv(Next(s, e))
  {
    var u := Next(s, e);
    forall x
      ensures InFlightOk(u, x)
    {
      assert InFlightOk(s, x);
      if e.ProxyError? && e.target.Some? {
        assert InFlightOk(s, e.target.value);
      }
    }
  }

  lemma {:induction false} RunKeeps(s: State, events: seq<Event>)
    requires Inv(s)
    ensures Inv(Run(s, events))
  {
    if events != [] {
      RunKeeps(s, events[..|events| - 1]);
      NextKeeps(Run(s, events[..|events| - 1]), events[|events| - 1]);
    }
  }

  lemma StartKeeps(events: seq<Event>)
    ensures Inv(Run(START, events))
  {
    forall x
      ensures InFlightOk(START, x)
    {
    }
    RunKeeps(START, events);
  }

  /** At every moment of any run the map holds exactly the responses whose promise is not settled. */
  lemma PendingIsUnsettled(events: seq<Event>)
    ensures var s := Run(START, events);
            forall x :: x in s.pending <==> x in s.inFlight && s.inFlight[x].calls == []
  {
    StartKeeps(events);
    var s := Run(START, events);
    forall x
      ensures x in s.pending <==> x in s.inFlight && s.inFlight[x].calls == []
    {
      assert InFlightOk(s, x);
    }
  }

  function CallsFor(outcome: Option<Outcome>): seq<Outcome> {
    match outcome
    case None => []
    case Some(o) => [o]
  }

  /** One event does to one request what its settling says, and nothing once that request is settled. */
  lemma NextSettles(s: State, e: Event, x: Exchange)
    requires Inv(s) && x in s.inFlight
    ensures var u := Next(s, e);
            && x in u.inFlight
            && u.inFlight[x].route == s.inFlight[x].route && u.inFlight[x].originalUrl == s.inFlight[x].originalUrl
            && u.inFlight[x].calls == (if s.inFlight[x].calls != [] then s.inFlight[x].calls
                                       else CallsFor(Settling(x, s.inFlight[x].route, e)))
  {
    assert InFlightOk(s, x);
    match e
    case ProxyError(target, err) =>
      if target.Some? {
        assert InFlightOk(s, target.value);
      }
    case _ =>
  }

  /**
   * Whatever else happens before, meanwhile and after: a dispatched request is settled by its own
   * first settling event, exactly once, and by nothing else.
   */
  lemma {:induction false} SettledOnceByItsOwnEvent(before: seq<Event>, x: Exchange, route: string, url: string,
                                                    path: string, after: seq<Event>)
    requires x !in Run(START, before).inFlight
    ensures var u := Run(Next(Run(START, before), Dispatch(x, route, url, path)), after);
            && x in u.inFlight
            && u.inFlight[x].route == route && u.inFlight[x].originalUrl == url
            && u.inFlight[x].calls == CallsFor(FirstSettling(x, route, after))
  {
    if after != [] {
      var init, e := after[..|after| - 1], after[|after| - 1];
      SettledOnceByItsOwnEvent(before, x, route, url, path, init);
      StartKeeps(before);
      NextKeeps(Run(START, before), Dispatch(x, route, url, path));
      RunKeeps(Next(Run(START, before), Dispatch(x, route, url, path)), init);
      NextSettles(Run(Next(Run(START, before), Dispatch(x, route, url, path)), init), e, x);
      FirstSettlingSnoc(x, route, init, e);
      assert init + [e] == after;
    }
  }

  /** Is `e` an event of exchange `x`? */
  predicate Concerns(e: Event, x: Exchange) {
    match e
    case ProxyError(target, _) => target == Some(x)
    case _ => e.x == x
  }

  function Own(x: Exchange, events: seq<Event>): seq<Event> {
    if events == [] then []
    else if Concerns(events[0], x) then [events[0]] + Own(x, events[1..])
    else Own(x, events[1..])
  }

  lemma {:induction false} OnlyOwnEventsSettle(x: Exchange, route: string, events: seq<Event>)
    ensures FirstSettling(x, route, Own(x, events)) == FirstSettling(x, route, events)
  {
    if events != [] {
      OnlyOwnEventsSettle(x, route, events[1..]);
      if Concerns(events[0], x) {
        assert ([events[0]] + Own(x, events[1..]))[1..] == Own(x, events[1..]);
      }
    }
  }

  /** Two runs that agree on a request's own events settle it alike, whatever the other requests do. */
  lemma OthersDoNotMatter(before: seq<Event>, before': seq<Event>, d: Event, after: seq<Event>, after': seq<Event>)
    requires d.Dispatch? && d.x !in Run(START, before).inFlight && d.x !in Run(START, before').inFlight
    requires Own(d.x, after) == Own(d.x, after')
    ensures var u, u' := Run(Next(Run(START, before), d), after), Run(Next(Run(START, before'), d), after');
            d.x in u.inFlight && d.x in u'.inFlight && u.inFlight[d.x].calls == u'.inFlight[d.x].calls
  {
    SettledOnceByItsOwnEvent(before, d.x, d.route, d.url, d.forwardPath, after);
    SettledOnceByItsOwnEvent(before', d.x, d.route, d.url, d.forwardPath, after');
    OnlyOwnEventsSettle(d.x, d.route, after);
    OnlyOwnEventsSettle(d.x, d.route, after');
  }

  // ---------------------------------------------------------------------------
  // req.url
  // ---------------------------------------------------------------------------

  ghost predicate UrlOk(s: State, x: Exchange, url: string, path: string) {
    && x in s.inFlight && s.inFlight[x].originalUrl == url
    && x in s.urls && s.urls[x] == if s.inFlight[x].returned then url else path
  }

  /**
   * The request's URL is the forward path while it is in flight and the original one again once
   * dispatchToUpstream returns, which it does as soon as a settled request is resumed.
   */
  lemma {:induction false} UrlRestored(before: seq<Event>, x: Exchange, route: string, url: string, path: string,
                                       after: seq<Event>)
    requires x !in Run(START, before).inFlight
    ensures var u := Run(Next(Run(START, before), Dispatch(x, route, url, path)), after);
            && UrlOk(u, x, url, path)
            && (u.inFlight[x].settled ==> var v := Next(u, Resume(x)); x in v.urls && v.urls[x] == url)
            && (u.inFlight[x].returned ==> u.inFlight[x].settled)
  {
    StartKeeps(before);
    var dispatched := Next(Run(START, before), Dispatch(x, route, url, path));
    NextKeeps(Run(START, before), Dispatch(x, route, url, path));
    RunKeeps(dispatched, after);
    if after != [] {
      UrlRestored(before, x, route, url, path, after[..|after| - 1]);
      UrlStep(Run(dispatched, after[..|after| - 1]), after[|after| - 1], x, url, path);
    }
    assert InFlightOk(Run(dispatched, after), x);
  }

  lemma UrlStep(s: State, e: Event, x: Exchange, url: string, path: string)
    requires UrlOk(s, x, url, path)
    ensures UrlOk(Next(s, e), x, url, path)
  {
    match e
    case ProxyError(_, _) =>
    case NextCalled(_, _) =>
    case _ =>
  }

  // ---------------------------------------------------------------------------
  // The service
  // ---------------------------------------------------------------------------

  class Dispatcher {
    var pendingUpstreamErrors: map<Exchange, Callback>
    var urls: map<Exchange, string>
    var inFlight: map<Exchange, InFlight>

    ghost function Value(): State
      reads this
    {
      State(pendingUpstreamErrors, urls, inFlight)
    }

    constructor ()
      ensures Value() == START && Inv(Value())
    {
      pendingUpstreamErrors, urls, inFlight := map[], map[], map[];
      new;
      StartKeeps([]);
    }

    method DispatchToUpstream(x: Exchange, route: string, url: string, forwardPath: string)
      requires Inv(Value()) && x !in inFlight
      modifies this
      ensures Inv(Value()) && Value() == Next(old(Value()), Dispatch(x, route, url, forwardPath))
      ensures urls[x] == forwardPath && inFlight[x].originalUrl == url && x in pendingUpstreamErrors
    {
      NextKeeps(Value(), Dispatch(x, route, url, forwardPath));
      urls := urls[x := forwardPath];
      inFlight := inFlight[x := InFlight(route, url, false, [], false)];
      pendingUpstreamErrors := pendingUpstreamErrors[x := Callback(x, route)];
    }

    /**
     * The body the four callbacks of a request share. Whenever it runs, the promise has had exactly
     * one call, the first one's, and no callback is registered; no other request is touched.
     */
    method SettlePromise(x: Exchange, outcome: Outcome)
      requires Inv(Value()) && x in inFlight
      modifies this`inFlight, this`pendingUpstreamErrors
      ensures Inv(Value()) && Value() == Settle(old(Value()), x, outcome)
      ensures x in inFlight && x !in pendingUpstreamErrors
      ensures inFlight[x].calls == if x in old(pendingUpstreamErrors) then [outcome] else old(inFlight[x].calls)
      ensures forall y :: y != x ==>
                && (y in inFlight <==> y in old(inFlight)) && (y in inFlight ==> inFlight[y] == old(inFlight)[y])
                && (y in pendingUpstreamErrors <==> y in old(pendingUpstreamErrors))
    {
      ghost var before := Value();
      SettleKeeps(before, x, outcome);
      assert InFlightOk(before, x);
      if inFlight[x].settled {
        return;
      }
      inFlight := inFlight[x := inFlight[x].(settled := true)];
      pendingUpstreamErrors := pendingUpstreamErrors - {x};
      inFlight := inFlight[x := inFlight[x].(calls := inFlight[x].calls + [outcome])];
      assert inFlight == Settle(before, x, outcome).inFlight;
      assert Value() == Settle(before, x, outcome);
    }

    /** The error callback every request of a route shares. */
    method HandleProxyError(target: Option<Exchange>, err: UpstreamErr)
      requires Inv(Value())
      modifies this
      ensures Inv(Value()) && Value() == Next(old(Value()), ProxyError(target, err))
      ensures forall y :: y in old(inFlight) && target != Some(y) ==> y in inFlight && inFlight[y] == old(inFlight[y])
      ensures target.None? || target.value !in old(pendingUpstreamErrors) ==> Value() == old(Value())
      ensures target.Some? && target.value in old(pendingUpstreamErrors) ==>
                var x := target.value;
                && x in old(inFlight) && x in inFlight && x !in pendingUpstreamErrors
                && inFlight[x].calls == [Rejected(if err.code in ["ETIMEDOUT", "ECONNRESET"]
                                                  then GatewayTimeout(old(inFlight)[x].route)
                                                  else Upstream(old(inFlight)[x].route, err.message))]
    {
      NextKeeps(Value(), ProxyError(target, err));
      if target.None? || target.value !in pendingUpstreamErrors {
        return;
      }
      assert InFlightOk(Value(), target.value);
      var callback := pendingUpstreamErrors[target.value];
      SettlePromise(callback.x, Rejected(MapUpstreamError(callback.route, err)));
    }

    method HandleFinish(x: Exchange)
      requires Inv(Value()) && x in inFlight
      modifies this
      ensures Inv(Value()) && Value() == Next(old(Value()), Finish(x))
      ensures x in inFlight && x !in pendingUpstreamErrors
      ensures inFlight[x].calls == if x in old(pendingUpstreamErrors) then [Resolved] else old(inFlight[x].calls)
    {
      NextKeeps(Value(), Finish(x));
      SettlePromise(x, Resolved);
    }

    method HandleClose(x: Exchange)
      requires Inv(Value()) && x in inFlight
      modifies this
      ensures Inv(Value()) && Value() == Next(old(Value()), Close(x))
      ensures x in inFlight && x !in pendingUpstreamErrors
      ensures inFlight[x].calls == if x in old(pendingUpstreamErrors) then [Resolved] else old(inFlight[x].calls)
    {
      NextKeeps(Value(), Close(x));
      SettlePromise(x, Resolved);
    }

    method HandleNext(x: Exchange, arg: NextArg)
      requires Inv(Value()) && x in inFlight
      modifies this
      ensures Inv(Value()) && Value() == Next(old(Value()), NextCalled(x, arg))
      ensures arg.Falsy? ==> Value() == old(Value())
      ensures !arg.Falsy? ==>
                && x in inFlight && x !in pendingUpstreamErrors
                && inFlight[x].calls == if x !in old(pendingUpstreamErrors) then old(inFlight[x].calls)
                                        else [Rejected(if arg.AnError? then Passed(arg.error) else Text(arg.text))]
    {
      NextKeeps(Value(), NextCalled(x, arg));
      match arg
      case Falsy =>
      case AnError(error) => SettlePromise(x, Rejected(Passed(error)));
      case Other(text) => SettlePromise(x, Rejected(Text(text)));
    }

    /** The awaiting call continues: `finally` puts the URL back, then the outcome is the call's own. */
    method Continue(x: Exchange) returns (outcome: Outcome)
      requires Inv(Value()) && x in inFlight && inFlight[x].settled && !inFlight[x].returned
      modifies this
      ensures Inv(Value()) && Value() == Next(old(Value()), Resume(x))
      ensures x in urls && x in inFlight && urls[x] == inFlight[x].originalUrl
      ensures inFlight[x].calls != [] && outcome == inFlight[x].calls[0]
    {
      NextKeeps(Value(), Resume(x));
      assert InFlightOk(Value(), x);
      outcome := inFlight[x].calls[0];
      urls := urls[x := inFlight[x].originalUrl];
      inFlight := inFlight[x := inFlight[x].(returned := true)];
    }
  }
}
