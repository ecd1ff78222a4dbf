/** The frontend's live-navigation logic: when a location fix leads to a new
    route request, and how the route endpoint's answer becomes the displayed
    route and ETA (frontend/src/App.jsx). */
module Navigation {
  import opened Wrappers
  import opened Geo

  /** Movement, in meters, past which a tick asks for a new route. */
  const RefetchDistance: real := 50.0

  /** A `getRoute(start, end)` call: both points are `[lat, lng]`. */
  datatype RouteRequest = RouteRequest(start: Pair, end: Pair)

  /** The tick's gate: a known last position, and more than 50 meters from it. */
  predicate MovedFar(last: Option<Pair>, next: Pair, distance: Distance) {
    last.Some? && distance(last.value, next) > RefetchDistance
  }

  /** How a tick's location callback ends: normally, with the route request it
      made if any, or by throwing a `ReferenceError`. */
  datatype TickOutcome = Completed(request: Option<RouteRequest>) | ReferenceError

  /** The `lastKnownPosition` a tick leaves behind, and how it ended. */
  datatype TickEffect = TickEffect(lastKnown: Option<Pair>, outcome: TickOutcome)

  /** A tick's effect as evidently intended: on a large enough move, request a
      route from the new fix to the destination and remember the fix. */
  function TickStep(last: Option<Pair>, next: Pair, destination: Pair, distance: Distance): (e: TickEffect)
    ensures e.outcome.Completed?
    ensures e.outcome.request.Some? ==>
      e.outcome.request.value.start == next && e.outcome.request.value.end == destination && e.lastKnown == Some(next)
    ensures e.outcome.request.None? ==> e.lastKnown == last
  {
    if MovedFar(last, next, distance) then
      TickEffect(Some(next), Completed(Some(RouteRequest(next, destination))))
    else
      TickEffect(last, Completed(None))
  }

  /** A tick's effect as written: the refetch branch calls `fetchRoute`, which
      is not defined anywhere, so it throws before `setLastKnownPosition`. */
  function TickStepAsWritten(last: Option<Pair>, next: Pair, destination: Pair, distance: Distance): (e: TickEffect)
    ensures e.lastKnown == last
    ensures e.outcome.Completed? ==> e.outcome.request.None?
  {
    if MovedFar(last, next, distance) then TickEffect(last, ReferenceError)
    else TickEffect(last, Completed(None))
  }

  /** The intended tick requests a route exactly when the last known position
      is set and the new fix is more than 50 meters from it; the request goes
      from the new fix to the destination and the fix becomes the last known
      position. Otherwise nothing is requested and nothing is remembered. */
  lemma TickRefetchesIffMovedFar(last: Option<Pair>, next: Pair, destination: Pair, distance: Distance)
    ensures TickStep(last, next, destination, distance).outcome.Completed?
    ensures TickStep(last, next, destination, distance).outcome.request.Some?
        <==> last.Some? && distance(last.value, next) > 50.0
    ensures TickStep(last, next, destination, distance).outcome.request.Some? ==>
        TickStep(last, next, destination, distance)
          == TickEffect(Some(next), Completed(Some(RouteRequest(next, destination))))
    ensures TickStep(last, next, destination, distance).outcome.request.None? ==>
        TickStep(last, next, destination, distance).lastKnown == last
  {
  }

  /** A null last known position, or a move of exactly 50 meters, never leads
      to a request. */
  lemma TickBoundaries(p: Pair, next: Pair, destination: Pair, distance: Distance)
    ensures TickStep(None, next, destination, distance) == TickEffect(None, Completed(None))
    ensures distance(p, next) == 50.0 ==>
        TickStep(Some(p), next, destination, distance) == TickEffect(Some(p), Completed(None))
  {
  }

  /** As written, a tick never requests a route and never changes the last
      known position; it throws exactly when the intended tick would refetch. */
  lemma TickAsWrittenNeverRefetches(last: Option<Pair>, next: Pair, destination: Pair, distance: Distance)
    ensures TickStepAsWritten(last, next, destination, distance).lastKnown == last
    ensures TickStepAsWritten(last, next, destination, distance).outcome.Completed? ==>
        TickStepAsWritten(last, next, destination, distance).outcome.request.None?
    ensures TickStepAsWritten(last, next, destination, distance).outcome.ReferenceError?
        <==> TickStep(last, next, destination, distance).outcome.request.Some?
  {
  }

  /** A concrete fix 55 meters from the last known one: the intended tick asks
      for a route, the tick as written throws instead. */
  lemma TickAsWrittenCounterexample()
    ensures var last, next, dest := Pair(0.0, 0.0), Pair(0.0, 0.0005), Pair(1.0, 1.0);
      var distance: Distance := (a: Pair, b: Pair) => 55.0;
      TickStepAsWritten(Some(last), next, dest, distance) == TickEffect(Some(last), ReferenceError) &&
      TickStep(Some(last), next, dest, distance) == TickEffect(Some(next), Completed(Some(RouteRequest(next, dest))))
  {
  }

  /** The route requests made by a run of intended ticks, with no watch fix
      in between, starting from last known position `last`. */
  function TickRequests(last: Option<Pair>, fixes: seq<Pair>, destination: Pair, distance: Distance): seq<RouteRequest>
    decreases |fixes|
  {
    if fixes == [] then []
    else
      var e := TickStep(last, fixes[0], destination, distance);
      (if e.outcome.request.Some? then [e.outcome.request.value] else []) + TickRequests(e.lastKnown, fixes[1..], destination, distance)
  }

  /** The refresh only costs a request after real movement: over any run of
      ticks, each request starts more than 50 meters from where the previous
      one started (the first, from the position known when the run began),
      and every request goes to the destination. */
  lemma {:induction false} TickRequestsAreSpacedOut(last: Option<Pair>, fixes: seq<Pair>, destination: Pair, distance: Distance)
    ensures var rs := TickRequests(last, fixes, destination, distance);
      (forall i :: 0 <= i < |rs| ==> rs[i].end == destination) &&
      (rs != [] ==> last.Some? && distance(last.value, rs[0].start) > RefetchDistance) &&
      (forall i :: 0 < i < |rs| ==> distance(rs[i - 1].start, rs[i].start) > RefetchDistance)
    decreases |fixes|
  {
    if fixes != [] {
      var e := TickStep(last, fixes[0], destination, distance);
      var tail := TickRequests(e.lastKnown, fixes[1..], destination, distance);
      TickRequestsAreSpacedOut(e.lastKnown, fixes[1..], destination, distance);
      if e.outcome.request.Some? {
        var rs := [e.outcome.request.value] + tail;
        assert e.lastKnown == Some(fixes[0]) && rs[0].start == fixes[0];
        forall i | 0 < i < |rs| ensures distance(rs[i - 1].start, rs[i].start) > RefetchDistance {
          assert rs[i] == tail[i - 1];
          if i > 1 {
            assert rs[i - 1] == tail[i - 2];
          }
        }
      } else {
        assert e.lastKnown == last;
      }
    }
  }

  // ---------- The route endpoint's answer ----------

  /** What `features[0].properties?.summary.duration` finds: whole seconds,
      or which link of the chain is missing. */
  datatype DurationField = Seconds(s: nat) | NoProperties | NoSummary | NoDuration

  /** One GeoJSON feature of the routing answer; `geometry` holds the path as
      `[lon, lat]` pairs. */
  datatype Feature = Feature(geometry: Option<seq<Pair>>, duration: DurationField)

  /** The outcome of the POST to the route endpoint. */
  datatype RouteResponse = RequestFailed | Received(features: seq<Feature>)

  /** The `eta` state: unset, whole minutes, or `NaN`. */
  datatype Eta = NoEta | Minutes(m: nat) | NotANumber

  /** The displayed route (`[lat, lng]` points) and ETA. */
  datatype RouteView = RouteView(route: Option<seq<Pair>>, eta: Eta)

  /** `Math.ceil(d / 60)` over whole seconds: the least number of whole minutes
      that covers `d`, so a nonzero duration is never 0 minutes. */
  function EtaMinutes(d: nat): (m: nat)
    ensures d <= 60 * m
    ensures m > 0 ==> 60 * (m - 1) < d
    ensures d > 0 ==> m >= 1
  {
    (d + 59) / 60
  }

  /** A 125-second route is a 3-minute ETA. */
  lemma EtaOf125Seconds()
    ensures EtaMinutes(125) == 3
  {
  }

  /** The route and ETA after `getRoute`'s response handler. The route is only
      ever replaced wholesale, never left half-updated: afterwards the view is
      either unchanged or its route is the full conversion of the first
      feature's path. */
  function AfterResponse(view: RouteView, response: RouteResponse): (after: RouteView)
    ensures after == view ||
      (response.Received? && response.features != [] && response.features[0].geometry.Some? &&
       after.route == Some(SwapAll(response.features[0].geometry.value)))
  {
    match response
    case RequestFailed => view
    case Received(features) =>
      if features == [] || features[0].geometry.None? then view
      else
        var route := Some(SwapAll(features[0].geometry.value));
        match features[0].duration
        case Seconds(d) => RouteView(route, Minutes(EtaMinutes(d)))
        case NoProperties => RouteView(route, NotANumber)
        case NoSummary => RouteView(route, view.eta)
        case NoDuration => RouteView(route, NotANumber)
  }

  /** A response with a path in its first feature replaces the route by that
      path in `[lat, lng]` order, point for point; the ETA becomes the duration
      rounded up to whole minutes. */
  lemma ResponseReplacesRoute(view: RouteView, features: seq<Feature>, path: seq<Pair>, d: nat)
    requires features != [] && features[0] == Feature(Some(path), Seconds(d))
    ensures AfterResponse(view, Received(features)).route.Some?
    ensures var r := AfterResponse(view, Received(features)).route.value;
      |r| == |path| &&
      forall i :: 0 <= i < |path| ==> r[i].first == path[i].second && r[i].second == path[i].first
    ensures AfterResponse(view, Received(features)).eta.Minutes?
    ensures var m := AfterResponse(view, Received(features)).eta.m;
      d <= 60 * m && (m > 0 ==> 60 * (m - 1) < d)
  {
  }

  /** A failed request, an answer without features, or a first feature without a
      path leaves the route and the ETA as they were. */
  lemma BadResponseKeepsView(view: RouteView, response: RouteResponse)
    requires response.RequestFailed? || response.features == [] || response.features[0].geometry.None?
    ensures AfterResponse(view, response) == view
  {
  }
}
