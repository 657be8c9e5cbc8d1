/** app/dependencies/station_model.py: spots around a station, ranked by
    the round trip station -> spot -> station. */
module StationModel {
  import opened Wrappers
  import opened ListOps
  import opened Modules
  import opened Clock
  import opened Catalog

  /** `numOfRows` of this model's catalog request. */
  const StationRows: int := 30

  /** `get_loc_based_list(x, y, radius, content_type_id)`: one catalog
      request around the station, then the guard. Only a document without
      the `response` root raises; otherwise the list holds exactly the spots
      the answer carries. */
  function LocBasedList(catalog: CatalogQuery -> CatalogResponse, start: Coord, radius: int,
                        contentType: int): (r: Result<seq<Spot>>)
    ensures var answer := catalog(CatalogQuery(start, radius, contentType, StationRows));
            (r.Err? <==> answer.OtherRoot?) && (r.Ok? ==> r.value == CarriedItems(answer))
  {
    CatalogItems(catalog(CatalogQuery(start, radius, contentType, StationRows)))
  }

  /** `spot_time` is truthy: the leg from the station to the spot is a
      number other than 0. */
  predicate Reachable(svc: TravelService, start: Coord, spot: Spot) {
    Leg(svc, start, spot.pos).Ok? && Truthy(Leg(svc, start, spot.pos).value)
  }

  /** What `get_total_time` returns for one spot: the available time, the
      int of `dist` and the leg from the station are computed in that order,
      and the first of them that raises aborts the call; a falsy leg drops
      the spot (`None`); otherwise the result is the spot's record with
      `travel_time` the round trip `2 * leg` and `free_time` what is left of
      the available time. */
  function ScoreSpot(start: Coord, spot: Spot, hour: int, minute: int, now: int,
                     svc: TravelService): (r: Result<Option<Spot>>)
    ensures r.Ok? <==> AvailableTime(hour, minute, now).Ok? && CoerceDist(spot.dist).Ok?
                       && Leg(svc, start, spot.pos).Ok?
    ensures r.Ok? ==> (r.value.Some? <==> Reachable(svc, start, spot))
    ensures r.Ok? && r.value.Some? ==>
              var leg := Leg(svc, start, spot.pos).value.value;
              var available := AvailableTime(hour, minute, now).value;
              r.value.value == Annotate(spot, CoerceDist(spot.dist).value, 2 * leg, available - 2 * leg)
  {
    var available :- AvailableTime(hour, minute, now);
    var dist :- CoerceDist(spot.dist);
    var leg :- Leg(svc, start, spot.pos);
    if Truthy(leg) then Ok(Some(Annotate(spot, dist, 2 * leg.value, available - 2 * leg.value)))
    else Ok(None)
  }

  /** `get_total_time`, step by step on a copy of the catalog record. */
  method GetTotalTime(start: Coord, spot: Spot, hour: int, minute: int, now: int,
                      svc: TravelService) returns (r: Result<Option<Spot>>)
    ensures r == ScoreSpot(start, spot, hour, minute, now, svc)
  {
    var available :- AvailableTime(hour, minute, now);
    var tmp := spot;
    var dist :- CoerceDist(tmp.dist);
    tmp := tmp.(dist := DistInt(dist));
    var spotTime :- Leg(svc, start, tmp.pos);
    if Truthy(spotTime) {
      tmp := tmp.(travelTime := Some(spotTime.value * 2));
      tmp := tmp.(freeTime := Some(available - spotTime.value * 2));
      return Ok(Some(tmp));
    }
    return Ok(None);
  }

  /** One `get_total_time` task per candidate, as a function of the spot. */
  function Scorer(start: Coord, hour: int, minute: int, now: int,
                  svc: TravelService): Spot -> Result<Option<Spot>>
  {
    spot => ScoreSpot(start, spot, hour, minute, now, svc)
  }

  /** `get_station_based_spot`: the catalog list, one task per spot of
      `loc_based_list[:candidate]`, gathered in submission order, `None`s
      dropped, stably sorted by `travel_time`. */
  function StationBasedSpot(start: Coord, area: int, contentType: int, candidate: int,
                            hour: int, minute: int, now: int,
                            catalog: CatalogQuery -> CatalogResponse, svc: TravelService): (r: Result<seq<Spot>>)
    ensures var spots := LocBasedList(catalog, start, area, contentType);
            (spots.Err? ==> r == Err(spots.error))
            && (spots.Ok? ==>
                  var p := TakePrefix(spots.value, candidate);
                  (r.Ok? <==> forall i :: 0 <= i < |p| ==> ScoreSpot(start, p[i], hour, minute, now, svc).Ok?)
                  && (r.Ok? ==> |r.value| <= |p|))
  {
    var spots :- LocBasedList(catalog, start, area, contentType);
    var results :- Gather(TakePrefix(spots, candidate), Scorer(start, hour, minute, now, svc));
    Ok(SortByKey(KeepSome(results), TravelKey))
  }

  /** `get_station_based_spot` with the catalog guard and slice exactly as
      the source writes them. Where the source raises on the catalog's shape
      (an empty element on the `response.body.items` path, or a single or
      empty `item`), this fails; on every other answer it is the pipeline
      above. */
  function StationBasedSpotAsWritten(start: Coord, area: int, contentType: int, candidate: int,
                                     hour: int, minute: int, now: int,
                                     catalog: CatalogQuery -> CatalogResponse,
                                     svc: TravelService): (r: Result<seq<Spot>>)
    ensures var answer := catalog(CatalogQuery(start, area, contentType, StationRows));
            (SourceGuardFails(answer) ==> r.Err?)
            && (!SourceGuardFails(answer) ==>
                  r == StationBasedSpot(start, area, contentType, candidate, hour, minute, now, catalog, svc))
  {
    var prefix :- PrefixAsWritten(catalog(CatalogQuery(start, area, contentType, StationRows)), candidate);
    var results :- Gather(prefix, Scorer(start, hour, minute, now, svc));
    Ok(SortByKey(KeepSome(results), TravelKey))
  }

  /** The spots that are scored: the first `candidate` of the catalog list. */
  function Candidates(start: Coord, area: int, contentType: int, candidate: int,
                      catalog: CatalogQuery -> CatalogResponse): seq<Spot>
  {
    match LocBasedList(catalog, start, area, contentType)
    case Ok(spots) => TakePrefix(spots, candidate)
    case Err(_) => []
  }

  /** A successful answer is the stable sort by `travel_time` of the scored
      records of the surviving candidates, taken in catalog order. */
  lemma StationRanking(start: Coord, area: int, contentType: int, candidate: int,
                       hour: int, minute: int, now: int,
                       catalog: CatalogQuery -> CatalogResponse, svc: TravelService)
    requires StationBasedSpot(start, area, contentType, candidate, hour, minute, now, catalog, svc).Ok?
    ensures StationBasedSpot(start, area, contentType, candidate, hour, minute, now, catalog, svc).value
            == SortByKey(Survivors(Candidates(start, area, contentType, candidate, catalog),
                                   Scorer(start, hour, minute, now, svc)), TravelKey)
  {
    var p := Candidates(start, area, contentType, candidate, catalog);
    GatherKeepSome(p, Scorer(start, hour, minute, now, svc));
  }

  /** The answer is sorted by `travel_time`, and records with equal
      `travel_time` keep catalog order (`gather` keeps submission order and
      `sorted` is stable). */
  lemma StationOrder(start: Coord, area: int, contentType: int, candidate: int,
                     hour: int, minute: int, now: int,
                     catalog: CatalogQuery -> CatalogResponse, svc: TravelService)
    requires StationBasedSpot(start, area, contentType, candidate, hour, minute, now, catalog, svc).Ok?
    ensures var out := StationBasedSpot(start, area, contentType, candidate, hour, minute, now, catalog, svc).value;
            var survivors := Survivors(Candidates(start, area, contentType, candidate, catalog),
                                       Scorer(start, hour, minute, now, svc));
            SortedBy(out, TravelKey)
            && multiset(out) == multiset(survivors)
            && forall k :: WithKey(out, TravelKey, k) == WithKey(survivors, TravelKey, k)
  {
    StationRanking(start, area, contentType, candidate, hour, minute, now, catalog, svc);
    var survivors := Survivors(Candidates(start, area, contentType, candidate, catalog),
                               Scorer(start, hour, minute, now, svc));
    SortByKeySorted(survivors, TravelKey);
    SortByKeyPermutation(survivors, TravelKey);
    forall k ensures WithKey(SortByKey(survivors, TravelKey), TravelKey, k) == WithKey(survivors, TravelKey, k) {
      SortByKeyStable(survivors, TravelKey, k);
    }
  }

  /** The answer holds exactly the records that `get_total_time` returns
      for the candidates: a candidate answered `None` leaves no entry. */
  lemma StationRecords(start: Coord, area: int, contentType: int, candidate: int,
                       hour: int, minute: int, now: int,
                       catalog: CatalogQuery -> CatalogResponse, svc: TravelService)
    requires StationBasedSpot(start, area, contentType, candidate, hour, minute, now, catalog, svc).Ok?
    ensures var out := StationBasedSpot(start, area, contentType, candidate, hour, minute, now, catalog, svc).value;
            var p := Candidates(start, area, contentType, candidate, catalog);
            forall r :: r in out <==>
              exists i :: 0 <= i < |p| && ScoreSpot(start, p[i], hour, minute, now, svc) == Ok(Some(r))
  {
    var out := StationBasedSpot(start, area, contentType, candidate, hour, minute, now, catalog, svc).value;
    var p := Candidates(start, area, contentType, candidate, catalog);
    var f := Scorer(start, hour, minute, now, svc);
    StationOrder(start, area, contentType, candidate, hour, minute, now, catalog, svc);
    forall r ensures r in out <==> exists i :: 0 <= i < |p| && f(p[i]) == Ok(Some(r)) {
      SurvivorsMembers(p, f, r);
      assert r in out <==> r in multiset(out);
    }
  }

  /** `r` is the record `get_total_time` builds for a reachable `spot`: a
      copy with `dist` as an int, `travel_time` twice the leg from the
      station and `free_time` the available time minus `travel_time`; its
      coordinates and other fields are the catalog's. */
  predicate RoundTripCopy(svc: TravelService, start: Coord, hour: int, minute: int, now: int,
                          spot: Spot, r: Spot) {
    && Reachable(svc, start, spot)
    && AvailableTime(hour, minute, now).Ok? && CoerceDist(spot.dist).Ok?
    && var leg := Leg(svc, start, spot.pos).value.value;
       r.travelTime == Some(2 * leg)
       && r.freeTime == Some(AvailableTime(hour, minute, now).value - 2 * leg)
       && r.dist == DistInt(CoerceDist(spot.dist).value)
       && r.pos == spot.pos && r.other == spot.other
  }

  /** Every record `get_total_time` returns is such a copy. */
  lemma ScoredRecord(start: Coord, spot: Spot, hour: int, minute: int, now: int, svc: TravelService, r: Spot)
    requires ScoreSpot(start, spot, hour, minute, now, svc) == Ok(Some(r))
    ensures RoundTripCopy(svc, start, hour, minute, now, spot, r)
  {
  }

  /** Each record of the answer is the round-trip copy of a reachable
      candidate. */
  lemma StationTimes(start: Coord, area: int, contentType: int, candidate: int,
                     hour: int, minute: int, now: int,
                     catalog: CatalogQuery -> CatalogResponse, svc: TravelService, r: Spot)
    requires StationBasedSpot(start, area, contentType, candidate, hour, minute, now, catalog, svc).Ok?
    requires r in StationBasedSpot(start, area, contentType, candidate, hour, minute, now, catalog, svc).value
    ensures var p := Candidates(start, area, contentType, candidate, catalog);
            exists i :: 0 <= i < |p| && RoundTripCopy(svc, start, hour, minute, now, p[i], r)
  {
    var p := Candidates(start, area, contentType, candidate, catalog);
    StationRecords(start, area, contentType, candidate, hour, minute, now, catalog, svc);
    var i :| 0 <= i < |p| && ScoreSpot(start, p[i], hour, minute, now, svc) == Ok(Some(r));
    ScoredRecord(start, p[i], hour, minute, now, svc, r);
  }

  /** Exactly the reachable candidates are answered, so no more than
      `candidate` of them (for a non-negative `candidate`) and no more than
      the catalog returned; the falsy ones leave no entry behind. */
  lemma StationCount(start: Coord, area: int, contentType: int, candidate: int,
                     hour: int, minute: int, now: int,
                     catalog: CatalogQuery -> CatalogResponse, svc: TravelService)
    requires StationBasedSpot(start, area, contentType, candidate, hour, minute, now, catalog, svc).Ok?
    ensures var out := StationBasedSpot(start, area, contentType, candidate, hour, minute, now, catalog, svc).value;
            var p := Candidates(start, area, contentType, candidate, catalog);
            var spots := LocBasedList(catalog, start, area, contentType).value;
            |out| == CountIf(p, spot => Reachable(svc, start, spot))
            && |out| <= |p| <= |spots|
            && (candidate >= 0 ==> |out| <= candidate)
  {
    var p := Candidates(start, area, contentType, candidate, catalog);
    var f := Scorer(start, hour, minute, now, svc);
    var reach := spot => Reachable(svc, start, spot);
    StationRanking(start, area, contentType, candidate, hour, minute, now, catalog, svc);
    assert Gather(p, f).Ok?;
    forall i | 0 <= i < |p| ensures reach(p[i]) == (f(p[i]).Ok? && f(p[i]).value.Some?) {
      assert f(p[i]).Ok?;
    }
    SurvivorsCount(p, f, reach);
  }

  /** The request fails exactly when the catalog document lacks its root or
      one of the scored candidates raises; with no candidate to score the
      answer is `[]`, whatever the deadline; with one, an hour or minute off
      the clock fails the request. */
  lemma StationFaults(start: Coord, area: int, contentType: int, candidate: int,
                      hour: int, minute: int, now: int,
                      catalog: CatalogQuery -> CatalogResponse, svc: TravelService)
    ensures var r := StationBasedSpot(start, area, contentType, candidate, hour, minute, now, catalog, svc);
            var p := Candidates(start, area, contentType, candidate, catalog);
            (r.Err? <==> LocBasedList(catalog, start, area, contentType).Err?
                         || exists i :: 0 <= i < |p| && ScoreSpot(start, p[i], hour, minute, now, svc).Err?)
            && (LocBasedList(catalog, start, area, contentType).Ok? && p == [] ==> r == Ok([]))
            && (p != [] && !(0 <= hour < 24 && 0 <= minute < 60) ==> r.Err?)
  {
  }
}
