/** Worked requests through both pipelines, with small catalogs and travel
    services written out. */
module Scenarios {
  import opened Wrappers
  import opened ListOps
  import opened Modules
  import opened Clock
  import opened Catalog
  import StationModel
  import RoomModel

  /** A catalog record at `(x, 0)` with `dist` text "100". */
  function SpotAt(x: real): Spot {
    Spot(DistText("100"), Coord(x, 0.0), map[], None, None)
  }

  /** A catalog that answers every query with the given records. */
  function Listing(spots: seq<Spot>): CatalogQuery -> CatalogResponse {
    q => Response(Some(Body(Some(Items(Some(ItemList(spots)))))))
  }

  /** Transit from the station takes 5 minutes to the spot at x = 1, has no
      route (code -99) to the spot at x = 2 with no walking route either,
      and takes 12 minutes to any other spot. */
  function StationTransit(from: Coord, to: Coord): TransitResponse {
    if to.x == 1.0 then TransitPaths([5])
    else if to.x == 2.0 then TransitError(NoTransitRoute)
    else TransitPaths([12])
  }

  lemma HundredParses()
    ensures ParseInt("100") == Ok(100)
  {
    assert "100"[..2] == "10" && "10"[..1] == "1" && "1"[..0] == [];
  }

  /** Three candidates whose legs are 5 minutes, unreachable and 12 minutes:
      the unreachable one is dropped and the others come out with round
      trips of 10 and 24 minutes, each with `free_time` the 90 minutes
      between 14:00 and a 15:30 deadline minus its round trip. */
  lemma StationScenario(station: Coord, now: int)
    requires SeoulTimeOfDay(now) == 14 * 60 * MicrosPerMinute
    ensures var svc := TravelService(StationTransit, (a, b) => WalkError);
            StationModel.StationBasedSpot(station, 10000, 12, 5, 15, 30, now,
                                          Listing([SpotAt(1.0), SpotAt(2.0), SpotAt(3.0)]), svc)
            == Ok([Annotate(SpotAt(1.0), 100, 10, 80), Annotate(SpotAt(3.0), 100, 24, 66)])
  {
    var svc := TravelService(StationTransit, (a, b) => WalkError);
    var spots := [SpotAt(1.0), SpotAt(2.0), SpotAt(3.0)];
    AvailableTimeOfClock(15, 30, now);
    assert AvailableTime(15, 30, now) == Ok(90);
    HundredParses();
    var f := StationModel.Scorer(station, 15, 30, now, svc);
    assert f(spots[0]) == Ok(Some(Annotate(SpotAt(1.0), 100, 10, 80)));
    assert f(spots[1]) == Ok(None);
    assert f(spots[2]) == Ok(Some(Annotate(SpotAt(3.0), 100, 24, 66)));
    assert StationModel.Candidates(station, 10000, 12, 5, Listing(spots)) == spots;
    assert spots[1..][1..] == [spots[2]];
    var out := [Annotate(SpotAt(1.0), 100, 10, 80), Annotate(SpotAt(3.0), 100, 24, 66)];
    assert Survivors(spots, f) == out;
    assert out[1..] == [out[1]] && [out[1]][1..] == [];
    assert SortByKey(out, TravelKey) == out;
    StationModel.StationRanking(station, 10000, 12, 5, 15, 30, now, Listing(spots), svc);
  }

  const Lodging: Coord := Coord(0.0, 1.0)
  const Station: Coord := Coord(0.0, -1.0)

  /** Minutes from the lodging to the spot at x = 1, ..., 5. */
  function FirstLeg(x: real): int {
    if x == 1.0 then 10 else if x == 2.0 then 8 else if x == 3.0 then 20 else if x == 4.0 then 30 else 1
  }

  /** Minutes from the spot at x = 1, ..., 5 to the station. */
  function SecondLeg(x: real): int {
    if x == 1.0 then 5 else if x == 2.0 then 6 else if x == 3.0 then 1 else if x == 4.0 then 40 else 1
  }

  /** Transit between the lodging, the spots (on the line y = 0) and the
      station. */
  function RoomTransit(from: Coord, to: Coord): TransitResponse {
    if from == Lodging then TransitPaths([FirstLeg(to.x)]) else TransitPaths([SecondLeg(from.x)])
  }

  /** The insertion sort on five records keyed 15, 14, 21, 70 and 2. */
  lemma DetourSort(a1: Spot, a2: Spot, a3: Spot, a4: Spot, a5: Spot)
    requires TravelKey(a1) == 15 && TravelKey(a2) == 14 && TravelKey(a3) == 21
    requires TravelKey(a4) == 70 && TravelKey(a5) == 2
    ensures SortByKey([a1, a2, a3, a4, a5], TravelKey) == [a5, a2, a1, a3, a4]
  {
    assert [a1, a2, a3, a4, a5][1..] == [a2, a3, a4, a5] && [a2, a3, a4, a5][1..] == [a3, a4, a5]
           && [a3, a4, a5][1..] == [a4, a5] && [a4, a5][1..] == [a5] && [a5][1..] == [];
    assert [a5, a4][1..] == [a4] && [a5, a3, a4][1..] == [a3, a4] && [a3, a4][1..] == [a4]
           && [a5, a2, a3, a4][1..] == [a2, a3, a4] && [a2, a3, a4][1..] == [a3, a4];
    assert SortByKey([a5], TravelKey) == [a5];
    assert InsertByKey(a4, [a5], TravelKey) == [a5] + InsertByKey(a4, [], TravelKey);
    assert SortByKey([a4, a5], TravelKey) == [a5, a4];
    assert InsertByKey(a3, [a4], TravelKey) == [a3, a4];
    assert InsertByKey(a3, [a5, a4], TravelKey) == [a5] + InsertByKey(a3, [a4], TravelKey);
    assert SortByKey([a3, a4, a5], TravelKey) == [a5, a3, a4];
    assert InsertByKey(a2, [a3, a4], TravelKey) == [a2, a3, a4];
    assert InsertByKey(a2, [a5, a3, a4], TravelKey) == [a5] + InsertByKey(a2, [a3, a4], TravelKey);
    assert SortByKey([a2, a3, a4, a5], TravelKey) == [a5, a2, a3, a4];
    assert InsertByKey(a1, [a3, a4], TravelKey) == [a1, a3, a4];
    assert InsertByKey(a1, [a2, a3, a4], TravelKey) == [a2] + InsertByKey(a1, [a3, a4], TravelKey);
    assert InsertByKey(a1, [a5, a2, a3, a4], TravelKey) == [a5] + InsertByKey(a1, [a2, a3, a4], TravelKey);
  }

  /** Five candidates with legs (10, 5), (8, 6), (20, 1), (30, 40) and
      (1, 1) minutes: detours of 15, 14, 21, 70 and 2 minutes, answered
      shortest first. */
  lemma RoomScenario(now: int)
    requires SeoulTimeOfDay(now) == 14 * 60 * MicrosPerMinute
    ensures var svc := TravelService(RoomTransit, (a, b) => WalkError);
            var spots := [SpotAt(1.0), SpotAt(2.0), SpotAt(3.0), SpotAt(4.0), SpotAt(5.0)];
            RoomModel.RoomBasedSpot(Lodging, Station, 2.0, 12, 5, 15, 30, now, Listing(spots), svc)
            == Ok([Annotate(SpotAt(5.0), 100, 2, 88), Annotate(SpotAt(2.0), 100, 14, 76),
                   Annotate(SpotAt(1.0), 100, 15, 75), Annotate(SpotAt(3.0), 100, 21, 69),
                   Annotate(SpotAt(4.0), 100, 70, 20)])
  {
    var svc := TravelService(RoomTransit, (a, b) => WalkError);
    var spots := [SpotAt(1.0), SpotAt(2.0), SpotAt(3.0), SpotAt(4.0), SpotAt(5.0)];
    AvailableTimeOfClock(15, 30, now);
    assert AvailableTime(15, 30, now) == Ok(90);
    HundredParses();
    var f := RoomModel.Scorer(Lodging, Station, 15, 30, now, svc);
    var a1, a2, a3, a4, a5 := Annotate(SpotAt(1.0), 100, 15, 75), Annotate(SpotAt(2.0), 100, 14, 76),
                              Annotate(SpotAt(3.0), 100, 21, 69), Annotate(SpotAt(4.0), 100, 70, 20),
                              Annotate(SpotAt(5.0), 100, 2, 88);
    assert f(spots[0]) == Ok(Some(a1));
    assert f(spots[1]) == Ok(Some(a2));
    assert f(spots[2]) == Ok(Some(a3));
    assert f(spots[3]) == Ok(Some(a4));
    assert f(spots[4]) == Ok(Some(a5));
    assert RoomModel.Candidates(Lodging, Station, 2.0, 12, 5, Listing(spots)) == spots;
    assert spots[1..] == spots[1..5] && spots[1..][1..] == spots[2..5]
           && spots[2..5][1..] == spots[3..5] && spots[3..5][1..] == [spots[4]];
    assert Survivors(spots, f) == [a1, a2, a3, a4, a5];
    DetourSort(a1, a2, a3, a4, a5);
    RoomModel.RoomRanking(Lodging, Station, 2.0, 12, 5, 15, 30, now, Listing(spots), svc);
  }
}
