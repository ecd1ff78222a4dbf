/** The `App` component's state (frontend/src/App.jsx) as an object whose
    event handlers update it; each React setter is a field assignment. */
module Frontend {
  import opened Wrappers
  import opened Geo
  import opened Navigation
  import opened Polygons
  import Capture

  /** A search hit: where it is and what it is called. */
  datatype Place = Place(lat: real, lon: real, displayName: string)

  class App {
    var position: Option<Pair>
    var destination: Option<Pair>
    var route: Option<seq<Pair>>
    var eta: Eta
    var searchQuery: string
    var searchResults: seq<Place>
    var lastKnownPosition: Option<Pair>
    var polygons: seq<PolygonRecord>

    /** The state of the first render. */
    constructor ()
      ensures position == None && destination == None && route == None && eta == NoEta
      ensures searchQuery == "" && searchResults == [] && lastKnownPosition == None && polygons == []
    {
      position, destination, route, eta := None, None, None, NoEta;
      searchQuery, searchResults, lastKnownPosition, polygons := "", [], None, [];
    }

    /** A fix from the location watch: it becomes both the current and the last
        known position. */
    method WatchFix(fix: Pair)
      modifies this`position, this`lastKnownPosition
      ensures position == Some(fix) && lastKnownPosition == Some(fix)
    {
      position := Some(fix);
      lastKnownPosition := Some(fix);
    }

    /** The initial polygon load settling: the server's list on success,
        nothing on failure. */
    method LoadPolygons(response: Option<seq<PolygonRecord>>)
      modifies this`polygons
      ensures polygons == Load(old(polygons), response)
    {
      if response.Some? {
        polygons := response.value;
      }
    }

    /** `handlePolygonComplete(polygon)`: posts the polygon unchanged; the save
        in flight remembers the collection its closure captured. */
    method PolygonComplete(polygon: seq<Pair>) returns (pending: PendingSave)
      ensures pending.polygon == polygon && pending.snapshot == polygons
    {
      pending := PendingSave(polygon, polygons);
    }

    /** A double-click on the drawing layer: a commit of the draft goes straight
        to `handlePolygonComplete`. */
    method DrawingDoubleClick(drawing: Capture.PolygonDrawing) returns (pending: Option<PendingSave>)
      modifies drawing
      ensures pending.Some? <==> |old(drawing.positions)| >= Capture.MinVertices
      ensures pending.Some? ==> pending.value == PendingSave(old(drawing.positions), polygons)
      ensures drawing.positions == if pending.Some? then [] else old(drawing.positions)
    {
      var committed := drawing.DoubleClick();
      if committed.Some? {
        var p := PolygonComplete(committed.value);
        pending := Some(p);
      } else {
        pending := None;
      }
    }

    /** A save settling, as evidently intended: appends to the current collection. */
    method SaveSettled(pending: PendingSave, saved: bool)
      modifies this`polygons
      ensures polygons == Settle(old(polygons), pending, saved)
    {
      if saved {
        polygons := polygons + [PolygonRecord(pending.polygon)];
      }
    }

    /** A save settling as written: appends to the snapshot its closure captured. */
    method SaveSettledAsWritten(pending: PendingSave, saved: bool)
      modifies this`polygons
      ensures polygons == SettleAsWritten(old(polygons), pending, saved)
    {
      if saved {
        polygons := pending.snapshot + [PolygonRecord(pending.polygon)];
      }
    }

    /** One tick of the refresh timer with the fix it obtained, as evidently
        intended. The timer runs only while a destination is set. */
    method Tick(fix: Pair, distance: Distance) returns (request: Option<RouteRequest>)
      requires destination.Some?
      modifies this`position, this`lastKnownPosition
      ensures position == Some(fix)
      ensures TickEffect(lastKnownPosition, Completed(request))
        == TickStep(old(lastKnownPosition), fix, destination.value, distance)
    {
      position := Some(fix);
      if MovedFar(lastKnownPosition, fix, distance) {
        request := Some(RouteRequest(fix, destination.value));
        lastKnownPosition := Some(fix);
      } else {
        request := None;
      }
    }

    /** One tick of the refresh timer as written: the refetch branch throws. */
    method TickAsWritten(fix: Pair, distance: Distance) returns (outcome: TickOutcome)
      requires destination.Some?
      modifies this`position
      ensures position == Some(fix)
      ensures TickEffect(lastKnownPosition, outcome)
        == TickStepAsWritten(lastKnownPosition, fix, destination.value, distance)
    {
      position := Some(fix);
      if MovedFar(lastKnownPosition, fix, distance) {
        outcome := ReferenceError;
      } else {
        outcome := Completed(None);
      }
    }

    /** `getRoute`'s handler for the route endpoint's answer. */
    method ApplyRouteResponse(response: RouteResponse)
      modifies this`route, this`eta
      ensures RouteView(route, eta) == AfterResponse(RouteView(old(route), old(eta)), response)
    {
      if response.Received? && response.features != [] && response.features[0].geometry.Some? {
        var first := response.features[0];
        route := Some(SwapAll(first.geometry.value));
        match first.duration
        case Seconds(d) => eta := Minutes(EtaMinutes(d));
        case NoProperties => eta := NotANumber;
        case NoSummary =>
        case NoDuration => eta := NotANumber;
      }
    }

    /** Picking a search hit: it becomes the destination, the hits are cleared,
        and a route is requested from the current position when there is one. */
    method SelectLocation(lat: real, lon: real) returns (request: Option<RouteRequest>)
      modifies this`destination, this`searchResults
      ensures destination == Some(Pair(lat, lon)) && searchResults == []
      ensures request.Some? <==> position.Some?
      ensures request.Some? ==> request.value == RouteRequest(position.value, Pair(lat, lon))
    {
      destination := Some(Pair(lat, lon));
      searchResults := [];
      if position.Some? {
        request := Some(RouteRequest(position.value, Pair(lat, lon)));
      } else {
        request := None;
      }
    }

    /** Typing in the search box. */
    method SetSearchQuery(query: string)
      modifies this`searchQuery
      ensures searchQuery == query
    {
      searchQuery := query;
    }

    /** `searchLocation`: an empty query sends nothing; otherwise the search is
        sent and its hits replace the results when it succeeds. */
    method SearchLocation(hits: Option<seq<Place>>) returns (requested: bool)
      modifies this`searchResults
      ensures requested <==> searchQuery != ""
      ensures searchResults == if requested && hits.Some? then hits.value else old(searchResults)
    {
      if searchQuery == "" {
        return false;
      }
      requested := true;
      if hits.Some? {
        searchResults := hits.value;
      }
    }
  }
}
