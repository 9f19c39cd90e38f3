/**
 * The pure pieces of the control plane: the expiry a request asks for, the
 * JSON record of a stream, the responses, and the routing of a request by
 * the shape of its path and its method.
 */
module Control {
  import opened Wrappers
  import opened Streams
  import Decimal

  // ----- expiry -----

  /** std::chrono::seconds(60) in clock ticks (nanoseconds). */
  const Minute: int := 60_000_000_000

  /**
   * A reading of system_clock::now(). Readings within a minute of the
   * largest time point are excluded, so that now + 60 s stays representable.
   */
  type Instant = t: int | MinTime <= t < MaxTime - Minute

  /**
   * expires_at(query): the minimum time point for exactly "expires_at=min",
   * the maximum for exactly "expires_at=max", and a minute from now for
   * every other query string.
   */
  function ExpiresAt(query: string, now: Instant): (t: TimePoint)
    ensures t == MinTime <==> query == "expires_at=min"
    ensures t == MaxTime <==> query == "expires_at=max"
    ensures query != "expires_at=min" && query != "expires_at=max" ==> t - now == Minute
  {
    if query == "expires_at=min" then MinTime
    else if query == "expires_at=max" then MaxTime
    else now + Minute
  }

  /** Matching is exact: a query that merely contains a sentinel keyword renews by a minute. */
  lemma ExpiresAtIsExact(now: Instant)
    ensures ExpiresAt("expires_at=min&x=1", now) == now + Minute
    ensures ExpiresAt("expires_at=MAX", now) == now + Minute
    ensures ExpiresAt("", now) == now + Minute
  {
  }

  // ----- the stream record -----

  /** Clock ticks (nanoseconds) per millisecond. */
  const TicksPerMs: nat := 1_000_000

  /** The JSON object stream_to_json builds. */
  datatype StreamJson = StreamJson(id: Id, videoPort: int, audioPort: int, expiresAtMs: int)

  /** Integer division truncating toward zero, as duration_cast does. */
  function TruncDiv(a: int, b: nat): int
    requires b > 0
  {
    if a >= 0 then a / b else -((-a) / b)
  }

  /**
   * stream_to_json: the id, the video port (the base port), the audio port
   * (two above it, computed in int so it does not wrap), and the expiry in
   * whole milliseconds since the epoch, truncated toward zero.
   */
  function StreamToJson(stream: StreamInfo): (j: StreamJson)
    ensures j.id == stream.id && j.videoPort == stream.port && j.audioPort == stream.port + 2
  {
    StreamJson(stream.id, stream.port, stream.port + 2, TruncDiv(stream.expiresAt, TicksPerMs))
  }

  /** The reported expiry is the time point in whole milliseconds, truncated toward zero. */
  lemma ExpiryMilliseconds(stream: StreamInfo)
    ensures var ms := StreamToJson(stream).expiresAtMs;
      && (stream.expiresAt >= 0 ==> 0 <= ms * TicksPerMs <= stream.expiresAt < ms * TicksPerMs + TicksPerMs)
      && (stream.expiresAt < 0 ==> ms * TicksPerMs - TicksPerMs < stream.expiresAt <= ms * TicksPerMs <= 0)
  {
  }

  /** The sentinels as the listing reports them. */
  lemma SentinelMilliseconds(stream: StreamInfo)
    ensures stream.expiresAt == MinTime ==> StreamToJson(stream).expiresAtMs == -9_223_372_036_854
    ensures stream.expiresAt == MaxTime ==> StreamToJson(stream).expiresAtMs == 9_223_372_036_854
  {
  }

  /** Every registered stream in iteration order, as the listing handlers report them. */
  function Listing(streams: Registry): (l: seq<StreamJson>)
    ensures |l| == |KeysInOrder(streams.Keys)|
  {
    var keys := KeysInOrder(streams.Keys);
    seq(|keys|, i requires 0 <= i < |keys| => StreamToJson(streams[keys[i]]))
  }

  /** The listing names each registered stream exactly once, in ascending id order. */
  lemma ListingIds(streams: Registry)
    requires WellKeyed(streams)
    ensures var l := Listing(streams);
      && (forall i :: 0 <= i < |l| ==> l[i].id in streams && l[i] == StreamToJson(streams[l[i].id]))
      && (forall k :: k in streams ==> exists i :: 0 <= i < |l| && l[i].id == k)
      && (forall i, j :: 0 <= i < j < |l| ==> l[i].id < l[j].id)
  {
    var keys := KeysInOrder(streams.Keys);
    KeysAscend(streams.Keys);
    var l := Listing(streams);
    assert forall i :: 0 <= i < |l| ==> l[i].id == keys[i];
    forall k | k in streams
      ensures exists i :: 0 <= i < |l| && l[i].id == k
    {
      var i :| 0 <= i < |keys| && keys[i] == k;
      assert l[i].id == k;
    }
  }

  /** Every entry renewed to the same expiry, as PUT /streams leaves them. */
  function Renewed(streams: Registry, expiresAt: TimePoint): (r: Registry)
    ensures r.Keys == streams.Keys
    ensures forall k :: k in r ==> r[k].id == streams[k].id && r[k].port == streams[k].port && r[k].expiresAt == expiresAt
  {
    map k | k in streams :: KeepAlive(streams[k], expiresAt)
  }

  // ----- responses -----

  const StatusOk: nat := 200
  const StatusNotFound: nat := 404
  const StatusMethodNotAllowed: nat := 405
  const StatusInternalServerError: nat := 500

  /** The body of a response: none, the JSON null, {"stream": ...} or {"streams": [...]}. */
  datatype Payload = NoBody | JsonNull | OneStream(stream: StreamJson) | StreamList(items: seq<StreamJson>)

  datatype Response = Response(status: nat, payload: Payload)

  /**
   * The body of the listing handlers: "streams" is created by the first
   * push_back, so an empty registry yields the JSON null.
   */
  function ListPayload(streams: Registry): (p: Payload)
    ensures p == JsonNull <==> streams == map[]
  {
    if streams == map[] then JsonNull else StreamList(Listing(streams))
  }

  // ----- routing -----

  datatype Verb = Get | Post | Put | Other

  /**
   * A request path as a filesystem path: whether it has a root directory,
   * and its elements (the root "/" first when it has one).
   */
  datatype PathView = PathView(absolute: bool, elements: seq<string>)

  /** An absolute path of n elements whose second element is "streams". */
  predicate IsStreamsPath(view: PathView, n: nat)
  {
    |view.elements| == n && view.absolute && n >= 2 && view.elements[1] == "streams"
  }

  /** What handle does with a request: reply 404 or 405, throw from std::stoul, or run a stream handler. */
  datatype Action =
    | NotFound
    | MethodNotAllowed
    | BadId
    | Create
    | List
    | Renew
    | Show(id: Id)
    | RenewOne(id: Id)
  {
    /** The handlers that are passed expires_at(query), the only ones that read the clock. */
    predicate ReadsClock()
    {
      Create? || Renew? || RenewOne?
    }
  }

  /**
   * handle's dispatch: the collection path /streams by method, the item
   * path /streams/{id} by a lookup of the id first and then by method, and
   * 404 for every other path.
   */
  function Route(verb: Verb, view: PathView, streams: Registry): (a: Action)
    ensures (a.Create? || a.List? || a.Renew?) <==> IsStreamsPath(view, 2) && verb != Other
    ensures a.Show? || a.RenewOne? ==> IsStreamsPath(view, 3) && a.id in streams
    ensures a.BadId? <==> IsStreamsPath(view, 3) && Decimal.Stoul(view.elements[2]).None?
  {
    if IsStreamsPath(view, 2) then
      match verb
      case Post => Create
      case Get => List
      case Put => Renew
      case Other => MethodNotAllowed
    else if IsStreamsPath(view, 3) then
      match Decimal.Stoul(view.elements[2])
      case None => BadId
      case Some(n) =>
        var id: Id := n;
        if id !in streams then NotFound
        else
          match verb
          case Get => Show(id)
          case Put => RenewOne(id)
          case _ => MethodNotAllowed
    else NotFound
  }

  /** On the collection path each method has its handler and any other method gets 405. */
  lemma RouteCollection(view: PathView, streams: Registry)
    requires IsStreamsPath(view, 2)
    ensures Route(Post, view, streams) == Create
    ensures Route(Get, view, streams) == List
    ensures Route(Put, view, streams) == Renew
    ensures Route(Other, view, streams) == MethodNotAllowed
  {
  }

  /** The id is looked up before the method is examined: an unknown id is 404 whatever the method. */
  lemma RouteUnknownId(verb: Verb, view: PathView, streams: Registry, id: Id)
    requires IsStreamsPath(view, 3) && Decimal.Stoul(view.elements[2]) == Some(id) && id !in streams
    ensures Route(verb, view, streams) == NotFound
  {
  }

  /** A known id is shown by GET, renewed by PUT, and any other method (POST included) gets 405. */
  lemma RouteKnownId(view: PathView, streams: Registry, id: Id)
    requires IsStreamsPath(view, 3) && Decimal.Stoul(view.elements[2]) == Some(id) && id in streams
    ensures Route(Get, view, streams) == Show(id)
    ensures Route(Put, view, streams) == RenewOne(id)
    ensures Route(Post, view, streams) == MethodNotAllowed
    ensures Route(Other, view, streams) == MethodNotAllowed
  {
  }

  /** The decimal rendering of a registered id routes to that stream. */
  lemma RouteRenderedId(view: PathView, streams: Registry, id: Id)
    requires IsStreamsPath(view, 3) && view.elements[2] == Decimal.ToString(id) && id in streams
    ensures Route(Get, view, streams) == Show(id)
    ensures Route(Put, view, streams) == RenewOne(id)
  {
    Decimal.StoulOfToString(id);
  }

  /**
   * An id element with no digit at all (such as the "." a trailing slash
   * produces in /streams/) makes std::stoul throw.
   */
  lemma RouteNonNumericId(verb: Verb, view: PathView, streams: Registry)
    requires IsStreamsPath(view, 3)
    requires forall i :: 0 <= i < |view.elements[2]| ==> !Decimal.IsDigit(view.elements[2][i])
    ensures Route(verb, view, streams) == BadId
  {
    Decimal.StoulNeedsDigit(view.elements[2]);
  }

  /** Every path other than /streams and /streams/{id} is 404 whatever the method and the registry. */
  lemma RouteElsewhere(verb: Verb, view: PathView, streams: Registry)
    requires !IsStreamsPath(view, 2) && !IsStreamsPath(view, 3)
    ensures Route(verb, view, streams) == NotFound
  {
  }
}
