/** The helpers of app/dependencies/modules.py: the search region derived
    from two coordinates (`calc_dist_radius`), the transit-then-walk travel
    time (`get_moving_time`) over the two services' decoded answers, and the
    keyword search summary (`get_loc_list`) over the place service's
    decoded documents. */
module Modules {
  import opened Wrappers
  import ListOps

  /** A point as (x, y) = (longitude-like, latitude-like). */
  datatype Coord = Coord(x: real, y: real)

  // ---------------------------------------------------------------------------
  // calc_dist_radius
  // ---------------------------------------------------------------------------

  /** The lower bound of the search radius, in metres. */
  const RadiusFloor: int := 5000

  /** The default `RATIO` of `calc_dist_radius`, the one its caller uses. */
  const Ratio: real := 0.75

  /** The search centre and radius handed to the catalog. */
  datatype SearchRegion = SearchRegion(center: Coord, radius: int)

  function SqDist(a: Coord, b: Coord): (d: real)
    ensures d >= 0.0
  {
    (a.x - b.x) * (a.x - b.x) + (a.y - b.y) * (a.y - b.y)
  }

  /** The componentwise average: the step from `a` to the midpoint equals
      the step from the midpoint to `b`. */
  function Midpoint(a: Coord, b: Coord): (m: Coord)
    ensures m.x - a.x == b.x - m.x && m.y - a.y == b.y - m.y
  {
    Coord((a.x + b.x) / 2.0, (a.y + b.y) / 2.0)
  }

  /** The midpoint lies halfway: equally far from both ends, at a quarter
      of the squared distance between them. */
  lemma MidpointHalfway(a: Coord, b: Coord)
    ensures SqDist(a, Midpoint(a, b)) == SqDist(Midpoint(a, b), b)
    ensures 4.0 * SqDist(a, Midpoint(a, b)) == SqDist(a, b)
  {
  }

  /** `if radius <= 5000: radius = 5000`. */
  function ClampRadius(raw: int): (r: int)
    ensures r >= RadiusFloor
    ensures raw > RadiusFloor ==> r == raw
    ensures raw <= RadiusFloor ==> r == RadiusFloor
  {
    if raw <= RadiusFloor then RadiusFloor else raw
  }

  /** `calc_dist_radius(a, b)` with `dist` the Euclidean distance of the two
      points (the caller supplies the square root), over exact reals:
      `int(...)` of the non-negative scaled distance is its floor. */
  function CalcDistRadius(a: Coord, b: Coord, dist: real): (r: SearchRegion)
    requires dist >= 0.0 && dist * dist == SqDist(a, b)
    ensures r.center == Midpoint(a, b)
    ensures r.radius >= RadiusFloor
    ensures var raw := (dist * Ratio * 1000.0 * 1000.0).Floor;
            r.radius == if raw > RadiusFloor then raw else RadiusFloor
  {
    var raw := (dist * Ratio * 1000.0 * 1000.0).Floor;
    SearchRegion(Midpoint(a, b), ClampRadius(raw))
  }

  /** The floor matters only for points closer than 5000 / 750000 degree
      units: from that distance on the radius grows with the distance. */
  lemma RadiusMonotone(a: Coord, b: Coord, d1: real, c: Coord, e: Coord, d2: real)
    requires d1 >= 0.0 && d1 * d1 == SqDist(a, b)
    requires d2 >= 0.0 && d2 * d2 == SqDist(c, e)
    requires d1 <= d2
    ensures CalcDistRadius(a, b, d1).radius <= CalcDistRadius(c, e, d2).radius
  {
  }

  // ---------------------------------------------------------------------------
  // get_moving_time
  // ---------------------------------------------------------------------------

  /** The decoded answer of the public-transit summary service: either the
      `totalTime` of each returned path, or an `error` object with its code. */
  datatype TransitResponse = TransitPaths(totalTimes: seq<int>) | TransitError(code: int)

  /** The decoded answer of the walking-route service: the `duration` (in
      seconds) of each returned route, or an `error` object. */
  datatype WalkResponse = WalkRoutes(durations: seq<int>) | WalkError

  /** The transit error code for which the walking service is consulted. */
  const NoTransitRoute: int := -99

  /** Minutes from the first transit path; if the transit service reports
      code -99, whole minutes of the first walking route; otherwise `None`.
      An empty path or route list raises `IndexError`. */
  function MovingTime(transit: TransitResponse, walk: WalkResponse): (r: Result<Option<int>>)
    ensures r.Err? <==> ((transit.TransitPaths? && |transit.totalTimes| == 0)
                         || (transit == TransitError(NoTransitRoute) && walk.WalkRoutes? && |walk.durations| == 0))
    ensures r == Ok(None) <==> ((transit.TransitError? && transit.code != NoTransitRoute)
                                || (transit == TransitError(NoTransitRoute) && walk == WalkError))
    ensures r.Ok? && r.value.Some? ==>
              (transit.TransitPaths? && r.value.value == transit.totalTimes[0])
              || (transit == TransitError(NoTransitRoute) && walk.WalkRoutes?
                  && 60 * r.value.value <= walk.durations[0] < 60 * r.value.value + 60)
  {
    match transit
    case TransitPaths(times) =>
      if |times| == 0 then Err(IndexError("list index out of range")) else Ok(Some(times[0]))
    case TransitError(code) =>
      if code == NoTransitRoute then
        match walk
        case WalkError => Ok(None)
        case WalkRoutes(durations) =>
          if |durations| == 0 then Err(IndexError("list index out of range"))
          else Ok(Some(durations[0] / 60))
      else Ok(None)
  }

  /** A transit answer without an `error` key decides the result, whatever
      the walking service would answer: it is not consulted. */
  lemma TransitAnswerDecides(times: seq<int>, w1: WalkResponse, w2: WalkResponse)
    requires |times| > 0
    ensures MovingTime(TransitPaths(times), w1) == MovingTime(TransitPaths(times), w2) == Ok(Some(times[0]))
  {
  }

  /** After error -99 the result is the first walking route's duration in
      whole minutes, rounded down; a walking error gives `None`. */
  lemma WalkFallback(walk: WalkResponse)
    ensures walk == WalkError ==> MovingTime(TransitError(NoTransitRoute), walk) == Ok(None)
    ensures walk.WalkRoutes? && |walk.durations| > 0 ==>
              exists t :: MovingTime(TransitError(NoTransitRoute), walk) == Ok(Some(t))
                          && 60 * t <= walk.durations[0] < 60 * t + 60
  {
  }

  /** Any other transit error code gives `None`, whatever the walking
      service would answer. */
  lemma OtherTransitErrorIsNone(code: int, walk: WalkResponse)
    requires code != NoTransitRoute
    ensures MovingTime(TransitError(code), walk) == Ok(None)
  {
  }

  /** The two route services, as functions from origin and destination to
      their decoded answers. */
  datatype TravelService = TravelService(transit: (Coord, Coord) -> TransitResponse,
                                         walk: (Coord, Coord) -> WalkResponse)

  /** `get_moving_time(from, to)` against the given services: the walking
      service's answer matters only after transit error -99. */
  function Leg(svc: TravelService, from: Coord, to: Coord): (r: Result<Option<int>>)
    ensures svc.transit(from, to) != TransitError(NoTransitRoute) ==>
              forall w :: r == MovingTime(svc.transit(from, to), w)
  {
    MovingTime(svc.transit(from, to), svc.walk(from, to))
  }

  /** Python truthiness of `get_moving_time`'s answer: `None` and `0` are
      false, every other number is true. */
  predicate Truthy(t: Option<int>): (b: bool)
    ensures b <==> t != None && t != Some(0)
  {
    t.Some? && t.value != 0
  }

  // ---------------------------------------------------------------------------
  // get_loc_list
  // ---------------------------------------------------------------------------

  /** One entry of the keyword search's `documents`. */
  datatype Document = Document(placeName: string, addressName: string, x: real, y: real,
                               other: map<string, string>)

  /** One summary entry of `get_loc_list`. */
  datatype Place = Place(placeName: string, addressName: string, location: Coord)

  /** `documents[:num]` mapped to their name, address and location. */
  function LocList(documents: seq<Document>, num: int): (r: seq<Place>)
    ensures r == [] <==> documents == [] || num == 0 || (num < 0 && |documents| + num <= 0)
    ensures |r| <= |documents|
    ensures num >= 0 ==> |r| == if num < |documents| then num else |documents|
    ensures num < 0 ==> |r| == if |documents| + num > 0 then |documents| + num else 0
    ensures forall i :: 0 <= i < |r| ==>
              r[i] == Place(documents[i].placeName, documents[i].addressName,
                            Coord(documents[i].x, documents[i].y))
  {
    var places := ListOps.TakePrefix(documents, num);
    seq(|places|, i requires 0 <= i < |places| =>
      Place(places[i].placeName, places[i].addressName, Coord(places[i].x, places[i].y)))
  }
}
