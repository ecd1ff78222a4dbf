/** The backend's request handlers (backend/index.js): the polygon endpoints
    over the stored collection, and the route endpoint's query to the routing
    service. */
module Backend {
  import opened Wrappers
  import opened Geo

  const TooFewPoints: string := "A polygon must have at least 3 points"
  const ServerError: string := "Server Error"
  const SavedMessage: string := "Polygon saved successfully"
  const RouteFailure: string := "Failed to fetch route"

  /** A stored polygon; `id` is the identity the store assigns on save. */
  datatype Doc = Doc(id: nat, coordinates: seq<Pair>)

  datatype Body =
    | ErrorBody(error: string)
    | SavedBody(message: string, polygon: Doc)
    | DocsBody(docs: seq<Doc>)

  datatype Reply = Reply(status: nat, body: Body)

  /** The POST handler's guard: a coordinates list that is present and has at
      least three points. */
  predicate AcceptsPolygon(coordinates: Option<seq<Pair>>) {
    coordinates.Some? && |coordinates.value| >= 3
  }

  /** The stored polygon collection. */
  class PolygonStore {
    var docs: seq<Doc>
    var nextId: nat

    /** Identities are assigned in increasing order and below `nextId`. */
    ghost predicate Valid()
      reads this
    {
      (forall i :: 0 <= i < |docs| ==> docs[i].id < nextId) &&
      (forall i, j :: 0 <= i < j < |docs| ==> docs[i].id < docs[j].id)
    }

    constructor ()
      ensures Valid() && docs == []
    {
      docs, nextId := [], 0;
    }

    /** `POST /api/polygons`; `saveOk` is whether the store's save succeeds. */
    method Post(coordinates: Option<seq<Pair>>, saveOk: bool) returns (reply: Reply)
      requires Valid()
      modifies this
      ensures Valid()
      ensures !AcceptsPolygon(coordinates) ==>
        reply == Reply(400, ErrorBody(TooFewPoints)) && docs == old(docs)
      ensures AcceptsPolygon(coordinates) && !saveOk ==>
        reply == Reply(500, ErrorBody(ServerError)) && docs == old(docs)
      ensures AcceptsPolygon(coordinates) && saveOk ==>
        docs == old(docs) + [Doc(old(nextId), coordinates.value)] &&
        reply == Reply(201, SavedBody(SavedMessage, Doc(old(nextId), coordinates.value)))
      ensures reply.status == 201 <==> AcceptsPolygon(coordinates) && saveOk
    {
      if !AcceptsPolygon(coordinates) {
        return Reply(400, ErrorBody(TooFewPoints));
      }
      if !saveOk {
        return Reply(500, ErrorBody(ServerError));
      }
      var doc := Doc(nextId, coordinates.value);
      docs := docs + [doc];
      nextId := nextId + 1;
      reply := Reply(201, SavedBody(SavedMessage, doc));
    }

    /** `GET /api/polygons`; `findOk` is whether the store's query succeeds.
        It changes nothing. */
    method Get(findOk: bool) returns (reply: Reply)
      ensures findOk ==> reply == Reply(200, DocsBody(docs))
      ensures !findOk ==> reply == Reply(500, ErrorBody(ServerError))
    {
      if findOk {
        reply := Reply(200, DocsBody(docs));
      } else {
        reply := Reply(500, ErrorBody(ServerError));
      }
    }
  }

  /** Stored identities are distinct. */
  lemma IdsDistinct(store: PolygonStore, i: nat, j: nat)
    requires store.Valid()
    requires i < |store.docs| && j < |store.docs| && i != j
    ensures store.docs[i].id != store.docs[j].id
  {
  }

  /** The query string the route endpoint sends to the routing service:
      `api_key=…&start=a,b&end=c,d` as `Query(apiKey, Pair(a, b), Pair(c, d))`. */
  datatype Query = Query(apiKey: string, start: Pair, end: Pair)

  /** `endCoordinates`: the destination reordered to `[lon, lat]`. */
  function EndCoordinates(end: Pair): (e: Pair)
    ensures e.first == end.second && e.second == end.first
  {
    Swap(end)
  }

  /** The query for `start` and `end`: `start=${start[1]},${start[0]}` and
      `end=${endCoordinates[0]},${endCoordinates[1]}`. Each point sent can be
      swapped back to the one received. */
  function BuildQuery(apiKey: string, start: Pair, end: Pair): (q: Query)
    ensures q.apiKey == apiKey
    ensures Swap(q.start) == start && Swap(q.end) == end
  {
    var endCoordinates := EndCoordinates(end);
    Query(apiKey, Swap(start), Pair(endCoordinates.first, endCoordinates.second))
  }

  /** Both points go to the routing service in `lon,lat` order, and each can
      be swapped back to the `[lat, lng]` point the frontend sent. */
  lemma QueryIsLonLat(apiKey: string, start: Pair, end: Pair)
    ensures BuildQuery(apiKey, start, end).apiKey == apiKey
    ensures BuildQuery(apiKey, start, end).start == Pair(start.second, start.first)
    ensures BuildQuery(apiKey, start, end).end == Pair(end.second, end.first)
    ensures Swap(BuildQuery(apiKey, start, end).start) == start
    ensures Swap(BuildQuery(apiKey, start, end).end) == end
  {
  }

  /** What the route endpoint answers: the routing service's data with status
      200, or status 500 with an error. */
  datatype RouteReply<D> = Forwarded(sent: Query, data: D) | RouteError(attempted: Option<Query>, error: string) {
    function Status(): nat {
      if Forwarded? then 200 else 500
    }
  }

  /** `POST /api/getRoute`. A body missing `start` or `end` fails before any
      query is sent; `routing` is the routing service's answer to a query. */
  function GetRoute<D>(apiKey: string, start: Option<Pair>, end: Option<Pair>, routing: Query -> Option<D>): (r: RouteReply<D>)
    ensures (start.None? || end.None?) ==> r.RouteError? && r.attempted.None?
    ensures r.Forwarded? <==> start.Some? && end.Some? && routing(BuildQuery(apiKey, start.value, end.value)).Some?
    ensures r.Forwarded? ==> r.sent == BuildQuery(apiKey, start.value, end.value) && r.data == routing(r.sent).value
    ensures r.RouteError? && start.Some? && end.Some? ==> r.attempted == Some(BuildQuery(apiKey, start.value, end.value))
    ensures r.RouteError? ==> r.error == RouteFailure && r.Status() == 500
  {
    if start.None? || end.None? then RouteError(None, RouteFailure)
    else
      var q := BuildQuery(apiKey, start.value, end.value);
      match routing(q)
      case Some(data) => Forwarded(q, data)
      case None => RouteError(Some(q), RouteFailure)
  }
}
