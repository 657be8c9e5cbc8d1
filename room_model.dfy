/** app/dependencies/room_model.py: spots around the midpoint between the
    lodging and the station, ranked by the detour lodging -> spot ->
    station. */
module RoomModel {
  import opened Wrappers
  import opened ListOps
  import opened Modules
  import opened Clock
  import opened Catalog

  /** `numOfRows` of this model's catalog request. */
  const RoomRows: int := 20

  /** `get_loc_based_list(x, y, radius, content_type_id)`: one catalog
      request around the given centre, then the guard. Only a document
      without the `response` root raises; otherwise the list holds exactly
      the spots the answer carries. */
  function LocBasedList(catalog: CatalogQuery -> CatalogResponse, center: Coord, radius: int,
                        contentType: int): (r: Result<seq<Spot>>)
    ensures var answer := catalog(CatalogQuery(center, radius, contentType, RoomRows));
            (r.Err? <==> answer.OtherRoot?) && (r.Ok? ==> r.value == CarriedItems(answer))
  {
    CatalogItems(catalog(CatalogQuery(center, radius, contentType, RoomRows)))
  }

  /** Both legs of the detour are truthy: lodging -> spot and spot ->
      station are numbers other than 0. */
  predicate Reachable(svc: TravelService, start: Coord, end: Coord, spot: Spot) {
    Leg(svc, start, spot.pos).Ok? && Leg(svc, spot.pos, end).Ok?
    && Truthy(Leg(svc, start, spot.pos).value) && Truthy(Leg(svc, spot.pos, end).value)
  }

  /** What `get_total_time` returns for one spot: the available time, the
      int of `dist`, the leg from the lodging and the leg to the station are
      computed in that order (the second leg even when the first is falsy),
      and the first of them that raises aborts the call; unless both legs
      are truthy the spot is dropped (`None`); otherwise the result is the
      spot's record with `travel_time` the sum of the legs and `free_time`
      what is left of the available time. */
  function ScoreSpot(start: Coord, end: Coord, spot: Spot, hour: int, minute: int, now: int,
                     svc: TravelService): (r: Result<Option<Spot>>)
    ensures r.Ok? <==> AvailableTime(hour, minute, now).Ok? && CoerceDist(spot.dist).Ok?
                       && Leg(svc, start, spot.pos).Ok? && Leg(svc, spot.pos, end).Ok?
    ensures r.Ok? ==> (r.value.Some? <==> Reachable(svc, start, end, spot))
    ensures r.Ok? && r.value.Some? ==>
              var toSpot := Leg(svc, start, spot.pos).value.value;
              var toEnd := Leg(svc, spot.pos, end).value.value;
              var available := AvailableTime(hour, minute, now).value;
              r.value.value == Annotate(spot, CoerceDist(spot.dist).value, toSpot + toEnd,
                                        available - toSpot - toEnd)
  {
    var available :- AvailableTime(hour, minute, now);
    var dist :- CoerceDist(spot.dist);
    var toSpot :- Leg(svc, start, spot.pos);
    var toEnd :- Leg(svc, spot.pos, end);
    if Truthy(toSpot) && Truthy(toEnd) then
      Ok(Some(Annotate(spot, dist, toSpot.value + toEnd.value, available - toSpot.value - toEnd.value)))
    else Ok(None)
  }

  /** `get_total_time`, step by step on a copy of the catalog record. */
  method GetTotalTime(start: Coord, end: Coord, spot: Spot, hour: int, minute: int, now: int,
                      svc: TravelService) returns (r: Result<Option<Spot>>)
    ensures r == ScoreSpot(start, end, spot, hour, minute, now, svc)
  {
    var available :- AvailableTime(hour, minute, now);
    var tmp := spot;
    var dist :- CoerceDist(tmp.dist);
    tmp := tmp.(dist := DistInt(dist));
    var spotTime :- Leg(svc, start, tmp.pos);
    var endTime :- Leg(svc, tmp.pos, end);
    if Truthy(spotTime) && Truthy(endTime) {
      tmp := tmp.(travelTime := Some(spotTime.value + endTime.value));
      tmp := tmp.(freeTime := Some(available - spotTime.value - endTime.value));
      return Ok(Some(tmp));
    }
    return Ok(None);
  }

  /** One `get_total_time` task per candidate, as a function of the spot. */
  function Scorer(start: Coord, end: Coord, hour: int, minute: int, now: int,
                  svc: TravelService): Spot -> Result<Option<Spot>>
  {
    spot => ScoreSpot(start, end, spot, hour, minute, now, svc)
  }

  /** `get_room_based_spot`: the search region of the two endpoints (`dist`
      is their Euclidean distance), the catalog list around its centre, one
      task per spot of `loc_based_list[:candidate]`, gathered in submission
      order, `None`s dropped, stably sorted by `travel_time`. */
  function RoomBasedSpot(start: Coord, end: Coord, dist: real, contentType: int, candidate: int,
                         hour: int, minute: int, now: int,
                         catalog: CatalogQuery -> CatalogResponse, svc: TravelService): (r: Result<seq<Spot>>)
    requires dist >= 0.0 && dist * dist == SqDist(start, end)
    ensures var region := CalcDistRadius(start, end, dist);
            var spots := LocBasedList(catalog, region.center, region.radius, contentType);
            (spots.Err? ==> r == Err(spots.error))
            && (spots.Ok? ==>
                  var p := TakePrefix(spots.value, candidate);
                  (r.Ok? <==> forall i :: 0 <= i < |p| ==> ScoreSpot(start, end, p[i], hour, minute, now, svc).Ok?)
                  && (r.Ok? ==> |r.value| <= |p|))
  {
    var region := CalcDistRadius(start, end, dist);
    var spots :- LocBasedList(catalog, region.center, region.radius, contentType);
    var results :- Gather(TakePrefix(spots, candidate), Scorer(start, end, hour, minute, now, svc));
    Ok(SortByKey(KeepSome(results), TravelKey))
  }

  /** `get_room_based_spot` with the catalog guard and slice exactly as the
      source writes them. Where the source raises on the catalog's shape (an
      empty element on the `response.body.items` path, or a single or empty
      `item`), this fails; on every other answer it is the pipeline above. */
  function RoomBasedSpotAsWritten(start: Coord, end: Coord, dist: real, contentType: int, candidate: int,
                                  hour: int, minute: int, now: int,
                                  catalog: CatalogQuery -> CatalogResponse,
                                  svc: TravelService): (r: Result<seq<Spot>>)
    requires dist >= 0.0 && dist * dist == SqDist(start, end)
    ensures var region := CalcDistRadius(start, end, dist);
            var answer := catalog(CatalogQuery(region.center, region.radius, contentType, RoomRows));
            (SourceGuardFails(answer) ==> r.Err?)
            && (!SourceGuardFails(answer) ==>
                  r == RoomBasedSpot(start, end, dist, contentType, candidate, hour, minute, now, catalog, svc))
  {
    var region := CalcDistRadius(start, end, dist);
    var prefix :- PrefixAsWritten(catalog(CatalogQuery(region.center, region.radius, contentType, RoomRows)),
                                  candidate);
    var results :- Gather(prefix, Scorer(start, end, hour, minute, now, svc));
    Ok(SortByKey(KeepSome(results), TravelKey))
  }

  /** The spots that are scored: the first `candidate` of the catalog list
      around the midpoint. */
  function Candidates(start: Coord, end: Coord, dist: real, contentType: int, candidate: int,
                      catalog: CatalogQuery -> CatalogResponse): seq<Spot>
    requires dist >= 0.0 && dist * dist == SqDist(start, end)
  {
    var region := CalcDistRadius(start, end, dist);
    match LocBasedList(catalog, region.center, region.radius, contentType)
    case Ok(spots) => TakePrefix(spots, candidate)
    case Err(_) => []
  }

  /** The catalog is asked once, about the midpoint of the two endpoints
      with a radius of at least 5000: two catalogs that answer that one
      query alike give the same answer to the whole request. */
  lemma RoomSearchRegion(start: Coord, end: Coord, dist: real, contentType: int, candidate: int,
                         hour: int, minute: int, now: int,
                         c1: CatalogQuery -> CatalogResponse, c2: CatalogQuery -> CatalogResponse,
                         svc: TravelService)
    requires dist >= 0.0 && dist * dist == SqDist(start, end)
    requires var region := CalcDistRadius(start, end, dist);
             c1(CatalogQuery(region.center, region.radius, contentType, RoomRows))
             == c2(CatalogQuery(region.center, region.radius, contentType, RoomRows))
    ensures var region := CalcDistRadius(start, end, dist);
            region.center == Midpoint(start, end) && region.radius >= RadiusFloor
    ensures RoomBasedSpot(start, end, dist, contentType, candidate, hour, minute, now, c1, svc)
            == RoomBasedSpot(start, end, dist, contentType, candidate, hour, minute, now, c2, svc)
  {
  }

  /** A successful answer is the stable sort by `travel_time` of the scored
      records of the surviving candidates, taken in catalog order. */
  lemma RoomRanking(start: Coord, end: Coord, dist: real, contentType: int, candidate: int,
                    hour: int, minute: int, now: int,
                    catalog: CatalogQuery -> CatalogResponse, svc: TravelService)
    requires dist >= 0.0 && dist * dist == SqDist(start, end)
    requires RoomBasedSpot(start, end, dist, contentType, candidate, hour, minute, now, catalog, svc).Ok?
    ensures RoomBasedSpot(start, end, dist, contentType, candidate, hour, minute, now, catalog, svc).value
            == SortByKey(Survivors(Candidates(start, end, dist, contentType, candidate, catalog),
                                   Scorer(start, end, hour, minute, now, svc)), TravelKey)
  {
    var p := Candidates(start, end, dist, contentType, candidate, catalog);
    GatherKeepSome(p, Scorer(start, end, hour, minute, now, svc));
  }

  /** The answer is sorted by `travel_time`, and records with equal
      `travel_time` keep catalog order. */
  lemma RoomOrder(start: Coord, end: Coord, dist: real, contentType: int, candidate: int,
                  hour: int, minute: int, now: int,
                  catalog: CatalogQuery -> CatalogResponse, svc: TravelService)
    requires dist >= 0.0 && dist * dist == SqDist(start, end)
    requires RoomBasedSpot(start, end, dist, contentType, candidate, hour, minute, now, catalog, svc).Ok?
    ensures var out := RoomBasedSpot(start, end, dist, contentType, candidate, hour, minute, now, catalog, svc).value;
            var survivors := Survivors(Candidates(start, end, dist, contentType, candidate, catalog),
                                       Scorer(start, end, hour, minute, now, svc));
            SortedBy(out, TravelKey)
            && multiset(out) == multiset(survivors)
            && forall k :: WithKey(out, TravelKey, k) == WithKey(survivors, TravelKey, k)
  {
    RoomRanking(start, end, dist, contentType, candidate, hour, minute, now, catalog, svc);
    var survivors := Survivors(Candidates(start, end, dist, contentType, candidate, catalog),
                               Scorer(start, end, hour, minute, now, svc));
    SortByKeySorted(survivors, TravelKey);
    SortByKeyPermutation(survivors, TravelKey);
    forall k ensures WithKey(SortByKey(survivors, TravelKey), TravelKey, k) == WithKey(survivors, TravelKey, k) {
      SortByKeyStable(survivors, TravelKey, k);
    }
  }

  /** The answer holds exactly the records that `get_total_time` returns
      for the candidates. */
  lemma RoomRecords(start: Coord, end: Coord, dist: real, contentType: int, candidate: int,
                    hour: int, minute: int, now: int,
                    catalog: CatalogQuery -> CatalogResponse, svc: TravelService)
    requires dist >= 0.0 && dist * dist == SqDist(start, end)
    requires RoomBasedSpot(start, end, dist, contentType, candidate, hour, minute, now, catalog, svc).Ok?
    ensures var out := RoomBasedSpot(start, end, dist, contentType, candidate, hour, minute, now, catalog, svc).value;
            var p := Candidates(start, end, dist, contentType, candidate, catalog);
            forall r :: r in out <==>
              exists i :: 0 <= i < |p| && ScoreSpot(start, end, p[i], hour, minute, now, svc) == Ok(Some(r))
  {
    var out := RoomBasedSpot(start, end, dist, contentType, candidate, hour, minute, now, catalog, svc).value;
    var p := Candidates(start, end, dist, contentType, candidate, catalog);
    var f := Scorer(start, end, hour, minute, now, svc);
    RoomOrder(start, end, dist, contentType, candidate, hour, minute, now, catalog, svc);
    forall r ensures r in out <==> exists i :: 0 <= i < |p| && f(p[i]) == Ok(Some(r)) {
      SurvivorsMembers(p, f, r);
      assert r in out <==> r in multiset(out);
    }
  }

  /** `r` is the record `get_total_time` builds for a spot with two truthy
      legs: a copy with `dist` as an int, `travel_time` the leg from the
      lodging plus the leg to the station, and `free_time` the available time
      minus both legs; its coordinates and other fields are the catalog's. */
  predicate DetourCopy(svc: TravelService, start: Coord, end: Coord, hour: int, minute: int, now: int,
                       spot: Spot, r: Spot) {
    && Reachable(svc, start, end, spot)
    && AvailableTime(hour, minute, now).Ok? && CoerceDist(spot.dist).Ok?
    && var toSpot := Leg(svc, start, spot.pos).value.value;
       var toEnd := Leg(svc, spot.pos, end).value.value;
       r.travelTime == Some(toSpot + toEnd)
       && r.freeTime == Some(AvailableTime(hour, minute, now).value - toSpot - toEnd)
       && r.dist == DistInt(CoerceDist(spot.dist).value)
       && r.pos == spot.pos && r.other == spot.other
  }

  /** Every record `get_total_time` returns is such a copy. */
  lemma ScoredRecord(start: Coord, end: Coord, spot: Spot, hour: int, minute: int, now: int,
                     svc: TravelService, r: Spot)
    requires ScoreSpot(start, end, spot, hour, minute, now, svc) == Ok(Some(r))
    ensures DetourCopy(svc, start, end, hour, minute, now, spot, r)
  {
  }

  /** Each record of the answer is the detour copy of a candidate whose two
      legs, lodging -> spot and spot -> station, are truthy. */
  lemma RoomTimes(start: Coord, end: Coord, dist: real, contentType: int, candidate: int,
                  hour: int, minute: int, now: int,
                  catalog: CatalogQuery -> CatalogResponse, svc: TravelService, r: Spot)
    requires dist >= 0.0 && dist * dist == SqDist(start, end)
    requires RoomBasedSpot(start, end, dist, contentType, candidate, hour, minute, now, catalog, svc).Ok?
    requires r in RoomBasedSpot(start, end, dist, contentType, candidate, hour, minute, now, catalog, svc).value
    ensures var p := Candidates(start, end, dist, contentType, candidate, catalog);
            exists i :: 0 <= i < |p| && DetourCopy(svc, start, end, hour, minute, now, p[i], r)
  {
    var p := Candidates(start, end, dist, contentType, candidate, catalog);
    RoomRecords(start, end, dist, contentType, candidate, hour, minute, now, catalog, svc);
    var i :| 0 <= i < |p| && ScoreSpot(start, end, p[i], hour, minute, now, svc) == Ok(Some(r));
    ScoredRecord(start, end, p[i], hour, minute, now, svc, r);
  }

  /** Exactly the candidates with two truthy legs are answered, so no more
      than `candidate` of them (for a non-negative `candidate`) and no more
      than the catalog returned. */
  lemma RoomCount(start: Coord, end: Coord, dist: real, contentType: int, candidate: int,
                  hour: int, minute: int, now: int,
                  catalog: CatalogQuery -> CatalogResponse, svc: TravelService)
    requires dist >= 0.0 && dist * dist == SqDist(start, end)
    requires RoomBasedSpot(start, end, dist, contentType, candidate, hour, minute, now, catalog, svc).Ok?
    ensures var out := RoomBasedSpot(start, end, dist, contentType, candidate, hour, minute, now, catalog, svc).value;
            var p := Candidates(start, end, dist, contentType, candidate, catalog);
            var region := CalcDistRadius(start, end, dist);
            var spots := LocBasedList(catalog, region.center, region.radius, contentType).value;
            |out| == CountIf(p, spot => Reachable(svc, start, end, spot))
            && |out| <= |p| <= |spots|
            && (candidate >= 0 ==> |out| <= candidate)
  {
    var p := Candidates(start, end, dist, contentType, candidate, catalog);
    var f := Scorer(start, end, hour, minute, now, svc);
    var reach := spot => Reachable(svc, start, end, spot);
    RoomRanking(start, end, dist, contentType, candidate, hour, minute, now, catalog, svc);
    assert Gather(p, f).Ok?;
    forall i | 0 <= i < |p| ensures reach(p[i]) == (f(p[i]).Ok? && f(p[i]).value.Some?) {
      assert f(p[i]).Ok?;
    }
    SurvivorsCount(p, f, reach);
  }

  /** The request fails exactly when the catalog document lacks its root or
      one of the scored candidates raises; with no candidate to score the
      answer is `[]`; with one, an hour or minute off the clock fails the
      request. */
  lemma RoomFaults(start: Coord, end: Coord, dist: real, contentType: int, candidate: int,
                   hour: int, minute: int, now: int,
                   catalog: CatalogQuery -> CatalogResponse, svc: TravelService)
    requires dist >= 0.0 && dist * dist == SqDist(start, end)
    ensures var r := RoomBasedSpot(start, end, dist, contentType, candidate, hour, minute, now, catalog, svc);
            var p := Candidates(start, end, dist, contentType, candidate, catalog);
            var region := CalcDistRadius(start, end, dist);
            var spots := LocBasedList(catalog, region.center, region.radius, contentType);
            (r.Err? <==> spots.Err?
                         || exists i :: 0 <= i < |p| && ScoreSpot(start, end, p[i], hour, minute, now, svc).Err?)
            && (spots.Ok? && p == [] ==> r == Ok([]))
            && (p != [] && !(0 <= hour < 24 && 0 <= minute < 60) ==> r.Err?)
  {
  }

  /** A first leg that raises fails the spot even when the second one could
      not be computed either; a falsy first leg does not spare the second
      leg's call: its exception still fails the spot. */
  lemma LegFaultOrder(start: Coord, end: Coord, spot: Spot, hour: int, minute: int, now: int,
                      svc: TravelService)
    requires AvailableTime(hour, minute, now).Ok? && CoerceDist(spot.dist).Ok?
    ensures Leg(svc, start, spot.pos).Err? ==>
              ScoreSpot(start, end, spot, hour, minute, now, svc) == Err(Leg(svc, start, spot.pos).error)
    ensures Leg(svc, start, spot.pos).Ok? && Leg(svc, spot.pos, end).Err? ==>
              ScoreSpot(start, end, spot, hour, minute, now, svc) == Err(Leg(svc, spot.pos, end).error)
  {
  }
}
