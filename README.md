# LastDay candidate scoring, in Dafny

LastDay recommends tourist spots for the last day of a trip. Two
pipelines produce the recommendations:

- The **station pipeline** (`StationModel.get_station_based_spot`) finds spots
  around the departure station and scores each by the round trip
  station → spot → station.
- The **route pipeline** (`RoomModel.get_room_based_spot`) finds spots around
  the midpoint between the lodging and the station and scores each by the
  detour lodging → spot → station.

Both pipelines work the same way:

1. They ask the point-of-interest catalog for candidates.
2. They keep the first `candidate` of them.
3. They compute each one's travel time and the minutes left before the
   user's train or bus (`free_time`).
4. They drop every spot whose travel leg is falsy (`None` or `0`).
5. They stably sort the rest by `travel_time`.

This project models that scoring core and proves its properties.

Modules:

- `Wrappers` (wrappers.dfy): `Option`, the Python exceptions that escape
  (`Fault`), and `Result`.
- `ListOps` (list_ops.dfy): the Python list operations the pipelines use.
  - `xs[:n]`, with negative `n`.
  - `asyncio.gather`, as an ordered map that stops at the first raised
    exception in submission order.
  - `filter(lambda x: x != None, ...)`.
  - The stable `sorted(..., key=...)`, with a proof that any two stable
    sorts agree.
- `Modules` (modules.dfy): app/dependencies/modules.py.
  - `calc_dist_radius`, over reals.
  - `get_moving_time`, as a decision over the decoded answers of the transit
    and walking services.
  - `get_loc_list`.
- `Clock` (clock.dfy): `available_time = (deadline - now).seconds // 60`.
  - Instants are integer microseconds.
  - The Seoul clock is a fixed +09:00 offset.
- `Catalog` (catalog.dfy):
  - The spot record.
  - `int()` of its `dist` text.
  - The decoded shape of the catalog's XML answer.
  - The missing-key guard of `get_loc_based_list`, both as written and as
    evidently intended (see Findings).
- `StationModel` (station_model.dfy) and `RoomModel` (room_model.dfy): the
  two pipelines, each in two variants. `StationBasedSpot` and `RoomBasedSpot`
  run the intended catalog guard. `StationBasedSpotAsWritten` and
  `RoomBasedSpotAsWritten` run the guard and slice as the source writes them,
  and are proved equal to the first variant on every catalog answer except
  the shapes on which the source raises (see Findings). In each,
  `get_total_time` is a method that updates a copy of the record step by
  step. The method is proved equal to the function `ScoreSpot`, and the
  pipeline functions are built on `ScoreSpot`.
- `Scenarios` (scenarios.dfy): two requests worked through end to end.

The external services are parameters:

- The catalog is a function from the query to its decoded answer.
- The transit and walking services are functions from two coordinates to
  their decoded answers.

Exceptions are `Err` values. They propagate as in the code: an exception
raised while scoring a spot fails the whole request.

Where the repository's own description and the code differ, the model
follows the code (the one exception is the catalog guard, whose two bugs are
corrected in the main variant of each pipeline and kept in the as-written
variant; see Findings):

- An exception from `get_moving_time` is not treated as an unreachable spot.
  For example, an `IndexError` on an empty path list is not caught, so it
  fails the whole request (`StationFaults`, `RoomFaults`).
- A deadline already passed today does not give negative minutes. It wraps
  to the same clock time the next day, so `available_time` is always in
  0..1439 (`AvailableTimeWraps`).

## Model

| member | source | states |
|---|---|---|
| ListOps.TakePrefix | app/dependencies/station_model.py:148 | `s[:n]` is a prefix of `s`: `min(n, len)` elements for `n >= 0`, and `len + n` (at least 0) for negative `n` |
| ListOps.Gather | app/dependencies/station_model.py:142-151 | `gather` succeeds iff every task succeeds, and then gives their results in submission order; otherwise it gives the exception of the first failing task, and every earlier task succeeded |
| ListOps.GatherKeepSome | app/dependencies/station_model.py:151-153 | dropping the `None`s from the gathered results gives the filter-then-map reference `Survivors`, in submission order |
| ListOps.SurvivorsMembers | app/dependencies/station_model.py:153 | a record survives iff some candidate's task returned exactly that record |
| ListOps.SurvivorsCount | app/dependencies/station_model.py:153 | there are as many survivors as candidates whose task returned a record |
| ListOps.KeepSome | app/dependencies/station_model.py:153 | `filter(lambda x: x != None, ...)`: every kept value was a `Some` entry, and every `Some` entry's value is kept; never longer than the input |
| ListOps.SortByKey | app/dependencies/station_model.py:154 | `sorted(..., key=...)` as an insertion sort: same length as the input (order, permutation and stability in the next three rows) |
| ListOps.SortByKeySorted | app/dependencies/station_model.py:154 | the sorted list is non-decreasing in the key |
| ListOps.SortByKeyPermutation | app/dependencies/station_model.py:154 | sorting neither adds, loses nor duplicates a record (multiset equality) |
| ListOps.SortByKeyStable | app/dependencies/station_model.py:154 | records with equal keys keep their input order |
| ListOps.StableSortUnique | app/dependencies/station_model.py:154 | any two lists sorted by the key that both keep input order within each key are equal, so the model's sort is Python's `sorted` |
| Modules.Midpoint | app/dependencies/modules.py:78-79 | the step from `a` to the midpoint equals the step from the midpoint to `b`, on both axes |
| Modules.MidpointHalfway | app/dependencies/modules.py:78-79 | the midpoint is equally far from both points, at a quarter of their squared distance |
| Modules.ClampRadius | app/dependencies/modules.py:84-85 | the radius is at least 5000; it is exactly 5000 when the raw value is at most 5000, and the raw value otherwise |
| Modules.CalcDistRadius | app/dependencies/modules.py:69-86 | the centre is the midpoint, and the radius is `max(floor(dist * 0.75 * 10^6), 5000)`, so at least 5000 |
| Modules.RadiusMonotone | app/dependencies/modules.py:80-86 | points farther apart never get a smaller radius |
| Modules.MovingTime | app/dependencies/modules.py:115-136 | raises exactly on an empty path list, or on error -99 with an empty route list; `None` exactly on another error code, or on -99 with a walking error; otherwise the first path's `totalTime`, or the first route's duration in whole minutes rounded down |
| Modules.TransitAnswerDecides | app/dependencies/modules.py:115-116 | without a transit error, the first path's time is the answer, whatever the walking service would say |
| Modules.WalkFallback | app/dependencies/modules.py:117-132 | after error -99, a walking error gives `None`, and a route gives its duration `// 60` |
| Modules.OtherTransitErrorIsNone | app/dependencies/modules.py:133-134 | any transit error code other than -99 gives `None`, whatever the walking service would say |
| Modules.Leg | app/dependencies/station_model.py:100-107 | the `get_moving_time` call for one leg: unless transit reports error -99, the walking service's answer does not change the result |
| Modules.Truthy | app/dependencies/station_model.py:108 | the truth value of `spot_time`: false exactly for `None` and `0` |
| Modules.LocList | app/dependencies/modules.py:55-66 | `documents[:num]` with Python slice semantics: `min(num, len)` entries for `num >= 0` and `len + num` (at least 0) for negative `num`, in provider order; entry `i` carries document `i`'s name, address and coordinates |
| Clock.SeoulMidnight | app/dependencies/station_model.py:91-92 | the start of the Seoul calendar day of `t`: at most `t`, less than a day before it, and at 00:00 Seoul time |
| Clock.Deadline | app/dependencies/station_model.py:92-93 | the deadline exists iff the hour and minute are on the clock (otherwise `ValueError`); it falls on the Seoul date of `now`, at `hour:minute` |
| Clock.TimedeltaSeconds | app/dependencies/station_model.py:94-95 | `.seconds` of a `timedelta` is in 0..86399, and it is the middle part of the whole-days / seconds / microseconds normalisation |
| Clock.AvailableTime | app/dependencies/station_model.py:91-95 | defined iff the deadline is, and always in 0..1439 |
| Clock.AvailableTimeWraps | app/dependencies/station_model.py:94-95 | whole minutes until a deadline still ahead today; for a deadline already passed, whole minutes until the same clock time tomorrow |
| Clock.AvailableTimeOfClock | app/dependencies/room_model.py:74-78 | the result is `((deadline clock time - now clock time) mod 1 day)` in whole seconds, then `// 60`: only the clock time of `now` matters, not its date |
| Clock.AvailableTimeExamples | app/dependencies/room_model.py:74-78 | at 14:00 a 15:30 deadline leaves 90 minutes; at 16:00 it leaves 1410 |
| Catalog.ParseInt | app/dependencies/station_model.py:98 | `int(text)` succeeds exactly on decimal literals (digits, optionally after one sign) |
| Catalog.ParseIntRoundTrip | app/dependencies/station_model.py:98 | reading back the decimal numeral of any integer gives that integer |
| Catalog.CoerceDist | app/dependencies/station_model.py:98 | an int `dist` is kept, and text is parsed, failing exactly when it is not a literal |
| Catalog.Annotate | app/dependencies/room_model.py:80-81 | the returned record has `dist` as an int and both time keys set; coordinates and every other field are the input's |
| Catalog.ItemsAsWritten | app/dependencies/station_model.py:49-57 | the guard as written raises exactly without the `response` root (`KeyError`) or when `response`, `body` or `items` is an empty element (`TypeError`); otherwise `[]` when `body`, `items` or `item` is missing, and the `item` value as decoded when present |
| Catalog.SliceAsWritten | app/dependencies/station_model.py:148 | only a decoded list can be sliced; a single record (a mapping) or an empty `item` (`None`) raises |
| Catalog.BlankElementRaises | app/dependencies/station_model.py:49-53 | an empty `response`, `body` or `items` element makes the guard raise instead of returning `[]` |
| Catalog.SingleItemRaises | app/dependencies/station_model.py:56-57 | a one-spot answer passes the guard as a record, and slicing it then raises |
| Catalog.CatalogItems | app/dependencies/station_model.py:49-57 | the intended guard raises exactly without the `response` root (`KeyError`), and otherwise gives exactly the spots the answer carries, in document order |
| Catalog.PrefixAsWritten | app/dependencies/room_model.py:46-54 | the written guard and the slice `loc_based_list[:candidate]` (app/dependencies/room_model.py:143, and app/dependencies/station_model.py:148) raise exactly without the root or on the shapes the source cannot handle (an empty element on the path, a single or empty `item`); everywhere else they give the intended guard's candidate prefix |
| StationModel.LocBasedList | app/dependencies/station_model.py:18-57 | one catalog query at the station with `numOfRows` 30; fails exactly without the `response` root, and otherwise gives the spots carried |
| StationModel.ScoreSpot | app/dependencies/station_model.py:88-113 | succeeds iff the available time, `int(dist)` and the leg all succeed; gives a record iff the leg is truthy, and then `travel_time = 2 * leg` and `free_time = available - 2 * leg` |
| StationModel.GetTotalTime | app/dependencies/station_model.py:75-113 | updating the copied record step by step gives exactly `ScoreSpot` |
| StationModel.StationBasedSpot | app/dependencies/station_model.py:115-156 | fails with the catalog's exception when the catalog answer lacks its root; otherwise succeeds iff every candidate of the prefix is scored without an exception, and then answers at most one record per candidate |
| StationModel.StationBasedSpotAsWritten | app/dependencies/station_model.py:115-156 | with the guard and slice as written: fails on every catalog answer shape the source cannot handle, and equals `StationBasedSpot` on every other answer |
| StationModel.StationRanking | app/dependencies/station_model.py:138-154 | a successful answer is the stable sort by `travel_time` of the survivors of the first `candidate` catalog spots |
| StationModel.StationOrder | app/dependencies/station_model.py:142-154 | the answer is sorted by `travel_time`, is a permutation of the survivors, and keeps catalog order among equal travel times |
| StationModel.StationRecords | app/dependencies/station_model.py:142-153 | a record is in the answer iff `get_total_time` returned it for one of the candidates |
| StationModel.ScoredRecord | app/dependencies/station_model.py:97-110 | a record returned by `get_total_time` comes from a spot with a truthy leg: `travel_time == 2 * leg`, `free_time == available - travel_time`, `dist` an int, and other fields unchanged |
| StationModel.StationTimes | app/dependencies/station_model.py:97-110 | each answered record is that copy of one of the candidates |
| StationModel.StationCount | app/dependencies/station_model.py:148-153 | the answer has exactly as many records as there are candidates with a truthy leg, at most `candidate` and at most the catalog's count |
| StationModel.StationFaults | app/dependencies/station_model.py:138-151 | the request fails iff the catalog answer lacks its root or some candidate raises; no candidate gives `[]`; a bad deadline with a candidate fails |
| RoomModel.LocBasedList | app/dependencies/room_model.py:19-54 | one catalog query with `numOfRows` 20; fails exactly without the `response` root, and otherwise gives the spots carried |
| RoomModel.ScoreSpot | app/dependencies/room_model.py:71-99 | succeeds iff the available time, `int(dist)` and both legs succeed; gives a record iff both legs are truthy, and then `travel_time = leg1 + leg2` and `free_time = available - leg1 - leg2` |
| RoomModel.GetTotalTime | app/dependencies/room_model.py:56-99 | updating the copied record step by step gives exactly `ScoreSpot` |
| RoomModel.RoomBasedSpot | app/dependencies/room_model.py:101-150 | fails with the catalog's exception when the answer around the midpoint lacks its root; otherwise succeeds iff every candidate of the prefix is scored without an exception, and then answers at most one record per candidate |
| RoomModel.RoomBasedSpotAsWritten | app/dependencies/room_model.py:101-150 | with the guard and slice as written: fails on every catalog answer shape the source cannot handle, and equals `RoomBasedSpot` on every other answer |
| RoomModel.RoomSearchRegion | app/dependencies/room_model.py:129-134 | the catalog is asked only about the midpoint, with the clamped radius of `calc_dist_radius`: catalogs that agree on that one query give the same answer |
| RoomModel.RoomRanking | app/dependencies/room_model.py:132-149 | a successful answer is the stable sort by `travel_time` of the survivors of the first `candidate` catalog spots |
| RoomModel.RoomOrder | app/dependencies/room_model.py:137-149 | sorted by `travel_time`, a permutation of the survivors, and catalog order kept among ties |
| RoomModel.RoomRecords | app/dependencies/room_model.py:137-148 | a record is in the answer iff `get_total_time` returned it for one of the candidates |
| RoomModel.ScoredRecord | app/dependencies/room_model.py:80-96 | a record returned by `get_total_time` comes from a spot with two truthy legs, start→spot and spot→end: `travel_time == leg1 + leg2`, `free_time == available - leg1 - leg2`, `dist` an int, and other fields unchanged |
| RoomModel.RoomTimes | app/dependencies/room_model.py:80-96 | each answered record is that copy of one of the candidates |
| RoomModel.RoomCount | app/dependencies/room_model.py:143-148 | exactly as many records as candidates with two truthy legs, at most `candidate` and at most the catalog's count |
| RoomModel.RoomFaults | app/dependencies/room_model.py:129-146 | the request fails iff the catalog answer lacks its root or some candidate raises; no candidate gives `[]`; a bad deadline with a candidate fails |
| RoomModel.LegFaultOrder | app/dependencies/room_model.py:83-93 | the start→spot leg's exception comes first; the spot→end leg is queried even after a falsy first leg, and its exception fails the spot |
| Scenarios.StationScenario | app/dependencies/station_model.py:138-154 | legs of 5 minutes, unreachable, and 12 minutes give two records, with round trips 10 and 24 and free times 80 and 66 before a deadline 90 minutes away |
| Scenarios.RoomScenario | app/dependencies/room_model.py:129-149 | legs (10,5), (8,6), (20,1), (30,40) and (1,1) give detours 15, 14, 21, 70 and 2, answered in the order spot 5, 2, 1, 3, 4 |

## Left out

- HTTP requests and the XML and JSON decoders are replaced by parameters.
  - The catalog, transit and walking services are functions from their query
    to a datatype of the decoded answer.
  - What the decoders accept is not modelled.
- A missing key inside a present record or answer is not modelled, for
  example a path without `info`, or a spot without `mapx`, `dist` or
  `travel_time`. The datatypes always carry those fields, so the
  `KeyError`s they would raise are left out.
- asyncio is left out: `ensure_future`, `run_in_executor`, the event loop
  and the `main` helpers. The fan-out is an ordered map.
- ListOps.Gather: when several tasks raise, the model reports the first
  failing task in submission order. In the source every task runs its code
  up to its first `await` (the available time and `int(dist)`) before any
  travel-time answer arrives, so a `ValueError` from `int(dist)` escapes
  ahead of an earlier task's exception from `get_moving_time`. The request
  fails in both, but the exception reported can differ.
- StationModel.StationBasedSpot, RoomModel.RoomBasedSpot, StationModel.LocBasedList, RoomModel.LocBasedList, StationModel.StationFaults, RoomModel.RoomFaults: these run the intended catalog guard, so their "fails iff" does not include the catalog shapes on which the source raises. Those shapes are an empty `response`, `body`, `items` or `item` element, and an answer with a single `item`. `StationBasedSpotAsWritten` and `RoomBasedSpotAsWritten` model the source on those shapes.
- Catalog.CatalogItems: an answer listing several `item` elements of which some are empty decodes to a list holding `None`s, on which `get_total_time` raises. `ItemList` holds only records, so this shape is not modelled.
- Modules.CalcDistRadius: `RATIO` is a default argument of `calc_dist_radius`. The model fixes it at its default 0.75, the value the only caller uses.
- Clock.Deadline: one `now` is shared by every candidate of a request. In
  the code each task reads its own clock.
- Clock.Deadline: `pytz` and `dateutil` are replaced by a fixed +09:00 clock
  and an explicit range check. These are not modelled:
  - the year that `dateutil` takes from the machine's local date;
  - any leniency of `dateutil` about text outside `0..23:0..59`.
- Catalog.ParseInt: Python's `int()` also accepts surrounding whitespace,
  underscores between digits and non-ASCII digits. The model accepts only
  ASCII decimal literals.
- Floating point is idealised as reals, in the midpoint, the distance and
  the coordinates.
- Modules.CalcDistRadius: the square root (`** 0.5`) is supplied by the
  caller, as a non-negative `dist` with `dist * dist` equal to the squared
  distance.
- Coordinates are modelled as reals. The catalog actually delivers
  `mapx`/`mapy` as text, and `get_loc_list` converts the place service's
  text with `float()`.
- `get_staying_time` is left out: it is deprecated and only sends a request.
- Also left out:
  - the `__main__` block of modules.py, which calls an undefined `get_loc`;
  - the commented-out `get_loc`;
  - the FastAPI endpoints of main.py;
  - app/schema.py and app/utils/config.py.
- Python's object identity is not modelled. Records are values, so "the
  input record is not mutated" holds by construction: `Annotate` returns a
  new value.

## Findings

| source | as written | input that shows it | evidently intended | confidence | as-written member | corrected member |
|---|---|---|---|---|---|---|
| app/dependencies/station_model.py:49-54 (same guard at app/dependencies/room_model.py:46-51) | `"item" not in parsed["response"]["body"]["items"]` when the `items` element is empty: the decoder gives `None`, and the membership test raises `TypeError` (likewise for an empty `body` or `response`) | a catalog answer with no results, `<items/>` | no results give `[]`, like a missing `items` key | not executed | Catalog.ItemsAsWritten, Catalog.BlankElementRaises, StationModel.StationBasedSpotAsWritten, RoomModel.RoomBasedSpotAsWritten | Catalog.CatalogItems, Catalog.PrefixAsWritten, StationModel.StationBasedSpot, RoomModel.RoomBasedSpot |
| app/dependencies/station_model.py:56-57 and 148 (same at app/dependencies/room_model.py:53-54 and 143) | the `item` value is returned as decoded: one `<item>` decodes to a mapping, not a list, and `loc_based_list[:candidate]` on a mapping raises | a catalog answer with exactly one spot | one spot gives a one-element candidate list | not executed | Catalog.ItemsAsWritten, Catalog.SliceAsWritten, Catalog.SingleItemRaises, StationModel.StationBasedSpotAsWritten, RoomModel.RoomBasedSpotAsWritten | Catalog.CatalogItems, Catalog.PrefixAsWritten, StationModel.StationBasedSpot, RoomModel.RoomBasedSpot |
