/** transvisor.py: the `chunks` generator and the part of `routeinfo` that
    groups a route's Monday trips by shape and direction, orders each group
    by its trips' first arrivals and builds the group's property record. */
module Transvisor {
  import opened Wrappers
  import opened Sequences
  import opened StableSort
  import opened Text
  import opened TripGroups

  // ----- chunks -----

  /** `range` refuses a zero step with a `ValueError`. */
  datatype RangeError = ZeroStep

  function Min(a: int, b: int): int
  {
    if a <= b then a else b
  }

  /** The slices `l[i-1:i+n]` for `i` in `range(start, len(l), n)`. */
  function ChunksFrom<T>(l: seq<T>, n: int, start: int): (r: seq<seq<T>>)
    requires n >= 1 && start >= 1
    ensures forall k :: 0 <= k < |r| ==> r[k] != []
    decreases |l| - start
  {
    if start >= |l| then []
    else [l[start - 1 .. Min(start + n, |l|)]] + ChunksFrom(l, n, start + n)
  }

  /** `list(chunks(l, n))`. A negative step walks `range` downwards from 1,
      which yields only when `l` is empty, and then one empty slice. */
  function Chunks<T>(l: seq<T>, n: int): (r: Result<seq<seq<T>>, RangeError>)
    ensures r.Err? <==> n == 0
    ensures n < 0 ==> r == Ok(if l == [] then [[]] else [])
  {
    if n == 0 then Err(ZeroStep)
    else if n < 0 then Ok(if l == [] then [[]] else [])
    else Ok(ChunksFrom(l, n, 1))
  }

  lemma {:induction false} ChunkAt<T>(l: seq<T>, n: int, start: int, k: int)
    requires n >= 1 && start >= 1 && 0 <= k < |ChunksFrom(l, n, start)|
    ensures start + k * n < |l|
    ensures ChunksFrom(l, n, start)[k] == l[start - 1 + k * n .. Min(start + k * n + n, |l|)]
    decreases k
  {
    if k > 0 {
      ChunkAt(l, n, start + n, k - 1);
      assert start + n + (k - 1) * n == start + k * n;
    }
  }

  lemma {:induction false} ChunksReach<T>(l: seq<T>, n: int, start: int)
    requires n >= 1 && start >= 1
    ensures |ChunksFrom(l, n, start)| * n + start >= |l|
    decreases |l| - start
  {
    if start < |l| {
      ChunksReach(l, n, start + n);
      var m := |ChunksFrom(l, n, start + n)|;
      assert (m + 1) * n == m * n + n;
    }
  }

  /** The `k`-th chunk is `l[k*n : k*n+n+1]`, and there is one for every `k`
      with `k*n + 1 < len(l)`: the count is the first `k` past the end. */
  lemma ChunksSlices<T>(l: seq<T>, n: int)
    requires n >= 1
    ensures forall k :: 0 <= k < |Chunks(l, n).value| ==>
      k * n + 1 < |l| && Chunks(l, n).value[k] == l[k * n .. Min(k * n + n + 1, |l|)]
    ensures |Chunks(l, n).value| * n + 1 >= |l|
  {
    forall k | 0 <= k < |Chunks(l, n).value|
      ensures k * n + 1 < |l| && Chunks(l, n).value[k] == l[k * n .. Min(k * n + n + 1, |l|)]
    {
      ChunkAt(l, n, 1, k);
    }
    ChunksReach(l, n, 1);
  }

  /** Nothing is yielded for a list of at most one element. */
  lemma ChunksOfShort<T>(l: seq<T>, n: int)
    requires n >= 1 && |l| <= 1
    ensures Chunks(l, n) == Ok([])
  {
  }

  /** Consecutive chunks overlap in exactly one element: every chunk but the
      last has `n + 1` elements and ends where the next one starts. */
  lemma ChunksOverlap<T>(l: seq<T>, n: int)
    requires n >= 1
    ensures forall k :: 0 <= k < |Chunks(l, n).value| - 1 ==>
      |Chunks(l, n).value[k]| == n + 1 &&
      Chunks(l, n).value[k][n] == Chunks(l, n).value[k + 1][0]
  {
    var cs := Chunks(l, n).value;
    forall k | 0 <= k < |cs| - 1
      ensures |cs[k]| == n + 1 && cs[k][n] == cs[k + 1][0]
    {
      ChunkAt(l, n, 1, k);
      ChunkAt(l, n, 1, k + 1);
      assert 1 + (k + 1) * n == 1 + k * n + n;
    }
  }

  /** The chunks glued back together, each shared boundary kept once. */
  function Rejoin<T>(cs: seq<seq<T>>): seq<T>
  {
    if cs == [] then []
    else if |cs| == 1 then cs[0]
    else (if cs[0] == [] then [] else cs[0][..|cs[0]| - 1]) + Rejoin(cs[1..])
  }

  lemma {:induction false} RejoinFrom<T>(l: seq<T>, n: int, start: int)
    requires n >= 1 && 1 <= start < |l|
    ensures Rejoin(ChunksFrom(l, n, start)) == l[start - 1..]
    decreases |l| - start
  {
    var cs := ChunksFrom(l, n, start);
    if start + n < |l| {
      RejoinFrom(l, n, start + n);
      assert cs[1..] == ChunksFrom(l, n, start + n);
      assert cs[0] == l[start - 1 .. start + n];
      assert l[start - 1..] == l[start - 1 .. start + n - 1] + l[start + n - 1..];
    } else {
      assert |cs| == 1;
    }
  }

  /** Gluing the chunks back gives the list again: chunking loses nothing
      from a list of two or more elements. */
  lemma ChunksRejoin<T>(l: seq<T>, n: int)
    requires n >= 1 && |l| >= 2
    ensures Rejoin(Chunks(l, n).value) == l
  {
    RejoinFrom(l, n, 1);
    assert l[0..] == l;
  }

  // ----- routeinfo -----

  /** How `routeinfo` fails: `x.service.monday` raises an `AttributeError`
      for a trip without a calendar row, and sorting a group can fail. */
  datatype Error = NoCalendar | Unsortable(cause: SortError)

  /** `filter(lambda x: x.service.monday, route.trips)`. */
  function ConsideredTrips(trips: seq<Trip>): (r: Result<seq<Trip>, Error>)
    ensures r.Err? <==> exists k :: 0 <= k < |trips| && trips[k].service.None?
    ensures r.Err? ==> r.error == NoCalendar
    ensures r.Ok? ==> r.value == MondayTrips(trips)
  {
    if trips == [] then Ok([])
    else if trips[0].service.None? then Err(NoCalendar)
    else
      match ConsideredTrips(trips[1..])
      case Err(e) => Err(e)
      case Ok(rest) => Ok((if trips[0].service.value.monday then [trips[0]] else []) + rest)
  }

  /** The dictionary `r` built for one group. */
  datatype Properties = Properties(routeShortName: string, routeHeadsign: string,
                                   routeShapeId: Option<string>, routeStops: seq<string>,
                                   routeSchedule: seq<seq<Option<int>>>, tripStarts: seq<int>)

  /** `'%s' % value` for an optional integer. */
  function Show(d: Option<int>): (s: string)
    ensures d.None? ==> s == "None"
    ensures d.Some? ==> s == IntToString(d.value)
  {
    match d
    case None => "None"
    case Some(v) => IntToString(v)
  }

  /** `'%s: %s (%s)' % (short name, headsign, direction)`. */
  function Headsign(shortName: string, headsign: string, direction: Option<int>): (s: string)
    ensures |s| == |shortName| + |headsign| + |Show(direction)| + 5
    ensures s[..|shortName|] == shortName
    ensures s[|s| - 1] == ')'
  {
    shortName + ": " + headsign + " (" + Show(direction) + ")"
  }

  function StopIdOf(s: StopTime): string
  {
    s.stopId
  }

  /** The stop times' `stop_id`s, in order. */
  function StopIds(trip: Trip): (r: seq<string>)
    reads trip`stopTimes
    ensures |r| == |trip.stopTimes|
    ensures forall j :: 0 <= j < |r| ==> r[j] == trip.stopTimes[j].stopId
  {
    Map(trip.stopTimes, StopIdOf)
  }

  /** The row of `route_schedule` for one trip. */
  function ScheduleRow(trip: Trip): (r: seq<Option<int>>)
    reads trip`stopTimes
    ensures |r| == |trip.stopTimes|
    ensures forall j :: 0 <= j < |r| ==> r[j] == ArrivalSeconds(trip.stopTimes[j])
  {
    Map(trip.stopTimes, ArrivalSeconds)
  }

  function Schedule(trips: seq<Trip>): (r: seq<seq<Option<int>>>)
    reads trips`stopTimes
    ensures |r| == |trips|
    ensures forall k :: 0 <= k < |trips| ==> r[k] == ScheduleRow(trips[k])
  {
    if trips == [] then [] else [ScheduleRow(trips[0])] + Schedule(trips[1..])
  }

  /** The properties of a sorted group: the route's short name, the first
      trip's headsign, shape and stops, one schedule row and one start time
      per trip, each start the first entry of that trip's row. */
  function Describe(route: Route, trips: seq<Trip>): (r: Properties)
    requires trips != []
    requires forall k :: 0 <= k < |trips| ==> FirstArrival(trips[k]).Ok?
    reads trips`stopTimes
    ensures r.routeShortName == route.routeShortName
    ensures r.routeHeadsign
         == Headsign(route.routeShortName, trips[0].tripHeadsign, trips[0].directionId)
    ensures r.routeShapeId == trips[0].shapeId
    ensures |r.routeSchedule| == |trips| && |r.tripStarts| == |trips|
    ensures r.routeStops == StopIds(trips[0])
    ensures |r.routeStops| == |r.routeSchedule[0]|
    ensures forall k :: 0 <= k < |trips| ==>
      FirstArrival(trips[k]) == Ok(r.tripStarts[k]) &&
      r.routeSchedule[k] != [] && r.routeSchedule[k][0] == Some(r.tripStarts[k])
  {
    Properties(
      route.routeShortName,
      Headsign(route.routeShortName, trips[0].tripHeadsign, trips[0].directionId),
      trips[0].shapeId,
      StopIds(trips[0]),
      Schedule(trips),
      Starts(trips).value)
  }

  /** The record `routeinfo` builds for one group: the group sorted by
      first arrival, then described; `None`-free only when the sort
      succeeds. */
  ghost function GroupProperties(route: Route, group: seq<Trip>): (r: Result<Properties, SortError>)
    requires group != []
    reads group`stopTimes
  {
    match ByStart(group)
    case Err(e) => Err(e)
    case Ok(sorted) =>
      ByStartMembers(group);
      Ok(Describe(route, sorted))
  }

  /** The loop over `unfurled.items()`: every group is sorted and
      described, and the first group whose sort fails ends the generator.
      `expected` holds what each group gives. */
  method DescribeGroups(route: Route, groups: map<GroupKey, seq<Trip>>,
                        ghost expected: map<GroupKey, Result<Properties, SortError>>)
    returns (r: Result<map<GroupKey, Properties>, Error>)
    requires forall key :: key in groups ==> groups[key] != []
    requires expected.Keys == groups.Keys
    requires forall key {:trigger GroupProperties(route, groups[key])} :: key in groups ==> expected[key] == GroupProperties(route, groups[key])
    ensures r.Err? <==> exists key :: key in expected && expected[key].Err?
    ensures r.Err? ==>
      exists key :: key in expected && expected[key].Err? && r.error == Unsortable(expected[key].error)
    ensures r.Ok? ==> r.value.Keys == groups.Keys
    ensures r.Ok? ==> forall key :: key in expected ==> expected[key] == Ok(r.value[key])
  {
    var pending := groups.Keys;
    var described: map<GroupKey, Properties> := map[];
    while pending != {}
      invariant pending <= groups.Keys
      invariant described.Keys == groups.Keys - pending
      invariant forall key :: key in described ==> expected[key] == Ok(described[key])
      decreases pending
    {
      ghost var unseen := SomeUnseen({}, pending);
      var key :| key in pending;
      var props := DescribeGroup(route, groups[key], expected[key]);
      if props.Err? {
        return Err(Unsortable(props.error));
      }
      described := described[key := props.value];
      pending := pending - {key};
    }
    r := Ok(described);
  }

  /** One pass of that loop: `sorted(trips, key=...)`, then the record. */
  method DescribeGroup(route: Route, group: seq<Trip>, ghost expected: Result<Properties, SortError>)
    returns (r: Result<Properties, SortError>)
    requires group != [] && expected == GroupProperties(route, group)
    ensures r == expected
  {
    var sorted := SortByStart(group);
    if sorted.Err? {
      return Err(sorted.error);
    }
    ByStartMembers(group);
    ByStartArranged(group);
    r := Ok(Describe(route, sorted.value));
  }

  /** What `routeinfo` gives for the trips `trips` once every trip's stop
      times are in order: an error exactly when some group's sort fails (the
      error of one such group), and otherwise one record per
      `(shape_id, direction_id)` key of the trips, the record of that key's
      group. */
  ghost predicate Described(route: Route, trips: seq<Trip>, r: Result<map<GroupKey, Properties>, Error>)
    reads trips`stopTimes
  {
    (r.Err? <==> exists key :: Grouped(trips, key) != [] && GroupProperties(route, Grouped(trips, key)).Err?) &&
    (r.Err? ==> exists key :: Grouped(trips, key) != [] && GroupProperties(route, Grouped(trips, key)).Err? &&
                              r.error == Unsortable(GroupProperties(route, Grouped(trips, key)).error)) &&
    (r.Ok? ==> forall key :: key in r.value <==> Grouped(trips, key) != []) &&
    (r.Ok? ==> forall key :: key in r.value ==> GroupProperties(route, Grouped(trips, key)) == Ok(r.value[key]))
  }

  /** The second half of `routeinfo`, over the groups that `Unfurl` built. */
  method DescribeAll(route: Route, trips: seq<Trip>, groups: map<GroupKey, seq<Trip>>)
    returns (r: Result<map<GroupKey, Properties>, Error>)
    requires forall key :: key in groups <==> Grouped(trips, key) != []
    requires forall key :: key in groups ==> groups[key] == Grouped(trips, key)
    ensures Described(route, trips, r)
  {
    ghost var expected := map key | key in groups :: GroupProperties(route, groups[key]);
    r := DescribeGroups(route, groups, expected);
    if r.Err? {
      ghost var key :| key in expected && expected[key].Err? && r.error == Unsortable(expected[key].error);
      assert expected[key] == GroupProperties(route, Grouped(trips, key));
    } else {
      forall key | Grouped(trips, key) != []
        ensures GroupProperties(route, Grouped(trips, key)) == Ok(r.value[key])
      {
        assert expected[key] == GroupProperties(route, Grouped(trips, key));
      }
    }
  }

  /** `routeinfo(route)`: every Monday trip's stop times are put in
      `stop_sequence` order, and the Monday trips are then described group
      by group; a trip without a calendar fails the Monday filter. */
  method RouteInfo(route: Route) returns (r: Result<map<GroupKey, Properties>, Error>)
    modifies route.trips`stopTimes
    ensures ConsideredTrips(route.trips).Err? ==>
      r == Err(NoCalendar) && forall k :: 0 <= k < |route.trips| ==>
        route.trips[k].stopTimes == old(route.trips[k].stopTimes)
    ensures ConsideredTrips(route.trips).Ok? ==>
      forall k :: 0 <= k < |MondayTrips(route.trips)| ==>
        MondayTrips(route.trips)[k].stopTimes
          == SortBy(old(MondayTrips(route.trips)[k].stopTimes), SequenceOf)
    ensures forall k :: 0 <= k < |route.trips| && !RunsMonday(route.trips[k]) ==>
      route.trips[k].stopTimes == old(route.trips[k].stopTimes)
    ensures ConsideredTrips(route.trips).Ok? ==> Described(route, MondayTrips(route.trips), r)
  {
    var considered := ConsideredTrips(route.trips);
    if considered.Err? {
      return Err(considered.error);
    }
    var trips := considered.value;
    var groups := Unfurl(trips);
    r := DescribeAll(route, trips, groups);
  }

  /** The record of a group: `trip_starts` has one entry per trip of the
      group and never decreases, and the shape and the direction in the
      headsign are the group's key. */
  lemma DescribedGroup(route: Route, trips: seq<Trip>, key: GroupKey)
    requires Grouped(trips, key) != [] && GroupProperties(route, Grouped(trips, key)).Ok?
    ensures var props := GroupProperties(route, Grouped(trips, key)).value;
      |props.tripStarts| == |Grouped(trips, key)| &&
      |props.routeSchedule| == |Grouped(trips, key)| &&
      (forall a, b :: 0 <= a < b < |props.tripStarts| ==> props.tripStarts[a] <= props.tripStarts[b]) &&
      props.routeShapeId == key.shapeId &&
      props.routeHeadsign == Headsign(route.routeShortName,
                                      ByStart(Grouped(trips, key)).value[0].tripHeadsign, key.directionId)
  {
    var group := Grouped(trips, key);
    var sorted := ByStart(group).value;
    var props := GroupProperties(route, group).value;
    ByStartMembers(group);
    ByStartArranged(group);
    SortedGroup(group, key, sorted);
    forall a, b | 0 <= a < b < |props.tripStarts|
      ensures props.tripStarts[a] <= props.tripStarts[b]
    {
      assert FirstArrival(sorted[a]).value <= FirstArrival(sorted[b]).value;
    }
  }

  /** Once every trip's stop times are in `stop_sequence` order, as
      `routeinfo` leaves them, `route_stops` lists the stops of the group's
      earliest trip by ascending `stop_sequence`. */
  lemma DescribedStops(route: Route, trips: seq<Trip>, key: GroupKey)
    requires Grouped(trips, key) != [] && GroupProperties(route, Grouped(trips, key)).Ok?
    requires forall k :: 0 <= k < |trips| ==> Sorted(trips[k].stopTimes, SequenceOf)
    ensures var first := ByStart(Grouped(trips, key)).value[0];
      var props := GroupProperties(route, Grouped(trips, key)).value;
      |props.routeStops| == |first.stopTimes| &&
      (forall a :: 0 <= a < |props.routeStops| ==> props.routeStops[a] == first.stopTimes[a].stopId) &&
      (forall a, b :: 0 <= a < b < |first.stopTimes| ==>
        first.stopTimes[a].stopSequence <= first.stopTimes[b].stopSequence)
  {
    var group := Grouped(trips, key);
    ByStartMembers(group);
    var first := ByStart(group).value[0];
    assert first in group;
    var j :| 0 <= j < |trips| && trips[j] == first;
    forall a, b | 0 <= a < b < |first.stopTimes|
      ensures first.stopTimes[a].stopSequence <= first.stopTimes[b].stopSequence
    {
      assert SequenceOf(trips[j].stopTimes[a]) <= SequenceOf(trips[j].stopTimes[b]);
    }
  }
}
