/** The pygtfs records the two Python converters read, and the steps of
    `routeinfo` (transvisor.py) and `route_info` (gtfs_geojson.py) that they
    share: the Monday filter, the grouping of trips by shape and direction
    with each trip's stop times sorted by `stop_sequence`, and the sort of a
    group by the seconds of its trips' first arrivals. */
module TripGroups {
  import opened Wrappers
  import opened StableSort
  import opened Sequences

  /** A calendar entry; only the Monday flag is read. */
  datatype Calendar = Calendar(monday: bool)

  /** A stop time. `arrivalTime` is the total number of seconds of the
      `timedelta` pygtfs stores, `None` when the feed leaves it empty. */
  datatype StopTime = StopTime(stopId: string, stopSequence: int, arrivalTime: Option<int>)

  /** A pygtfs trip. Only `stop_times` is ever reassigned. `service` is
      `None` for a trip whose service has no calendar row. */
  class Trip {
    const tripId: string
    const serviceId: string
    const tripHeadsign: string
    const shapeId: Option<string>
    const directionId: Option<int>
    const service: Option<Calendar>
    var stopTimes: seq<StopTime>

    constructor (tripId: string, serviceId: string, tripHeadsign: string,
                 shapeId: Option<string>, directionId: Option<int>,
                 service: Option<Calendar>, stopTimes: seq<StopTime>)
      ensures this.tripId == tripId && this.serviceId == serviceId
      ensures this.tripHeadsign == tripHeadsign
      ensures this.shapeId == shapeId && this.directionId == directionId
      ensures this.service == service && this.stopTimes == stopTimes
    {
      this.tripId := tripId;
      this.serviceId := serviceId;
      this.tripHeadsign := tripHeadsign;
      this.shapeId := shapeId;
      this.directionId := directionId;
      this.service := service;
      this.stopTimes := stopTimes;
    }
  }

  /** A pygtfs route with the attributes the converters copy. */
  datatype Route = Route(routeShortName: string, routeLongName: string,
                         routeType: int, agencyId: string, routeDesc: string,
                         trips: seq<Trip>)

  /** `getattr(trip.service, 'monday', None)` is truthy. */
  predicate RunsMonday(t: Trip)
  {
    t.service.Some? && t.service.value.monday
  }

  /** The trips that run on Mondays, in their order. A trip without a
      calendar row is dropped. */
  function MondayTrips(trips: seq<Trip>): (r: seq<Trip>)
    ensures |r| <= |trips|
    ensures forall i :: 0 <= i < |r| ==> r[i] in trips && RunsMonday(r[i])
    ensures forall i :: 0 <= i < |trips| && RunsMonday(trips[i]) ==> trips[i] in r
  {
    if trips == [] then []
    else (if RunsMonday(trips[0]) then [trips[0]] else []) + MondayTrips(trips[1..])
  }

  /** The filter keeps the Monday trips in their order, each as often as it
      occurs, and drops every other trip. */
  lemma {:induction false} MondayTripsKeepsOrder(trips: seq<Trip>)
    ensures Subsequence(MondayTrips(trips), trips)
    ensures forall t :: multiset(MondayTrips(trips))[t] == if RunsMonday(t) then multiset(trips)[t] else 0
  {
    if trips != [] {
      MondayTripsKeepsOrder(trips[1..]);
      var r := MondayTrips(trips);
      assert trips == [trips[0]] + trips[1..];
      if RunsMonday(trips[0]) {
        assert r == [trips[0]] + MondayTrips(trips[1..]);
        assert r[1..] == MondayTrips(trips[1..]);
      } else {
        assert r == MondayTrips(trips[1..]);
      }
    }
  }

  /** The dictionary key `(trip.shape_id, trip.direction_id)`. */
  datatype GroupKey = GroupKey(shapeId: Option<string>, directionId: Option<int>)

  function KeyOf(t: Trip): GroupKey
  {
    GroupKey(t.shapeId, t.directionId)
  }

  /** The trips with key `key`, in their order. */
  function Grouped(trips: seq<Trip>, key: GroupKey): (r: seq<Trip>)
    ensures |r| <= |trips|
    ensures forall i :: 0 <= i < |r| ==> r[i] in trips && KeyOf(r[i]) == key
  {
    if trips == [] then []
    else (if KeyOf(trips[0]) == key then [trips[0]] else []) + Grouped(trips[1..], key)
  }

  lemma {:induction false} GroupedAppend(trips: seq<Trip>, t: Trip, key: GroupKey)
    ensures Grouped(trips + [t], key)
         == Grouped(trips, key) + (if KeyOf(t) == key then [t] else [])
  {
    if trips != [] {
      assert (trips + [t])[1..] == trips[1..] + [t];
      GroupedAppend(trips[1..], t, key);
    } else {
      assert ([t])[1..] == [];
    }
  }

  /** Grouping partitions the trips: each occurrence of a trip lands in the
      group of its own key, as often as it occurs, and in no other group. */
  lemma {:induction false} GroupsPartition(trips: seq<Trip>, t: Trip)
    ensures multiset(Grouped(trips, KeyOf(t)))[t] == multiset(trips)[t]
    ensures forall key :: key != KeyOf(t) ==> t !in Grouped(trips, key)
  {
    if trips != [] {
      GroupsPartition(trips[1..], t);
      assert trips == [trips[0]] + trips[1..];
    }
  }

  /** A group exists exactly for the keys some trip has. */
  lemma {:induction false} GroupedNonEmpty(trips: seq<Trip>, key: GroupKey)
    ensures Grouped(trips, key) != [] <==> exists i :: 0 <= i < |trips| && KeyOf(trips[i]) == key
  {
    if trips != [] {
      GroupedNonEmpty(trips[1..], key);
      assert trips == [trips[0]] + trips[1..];
    }
  }

  /** The key `sorted(trip.stop_times, key=lambda x: x.stop_sequence)` uses. */
  function SequenceOf(s: StopTime): int
  {
    s.stopSequence
  }

  function StopTimesOf(trips: seq<Trip>): (r: seq<seq<StopTime>>)
    reads trips`stopTimes
    ensures |r| == |trips|
    ensures forall k {:trigger r[k]} :: 0 <= k < |trips| ==> r[k] == trips[k].stopTimes
  {
    if trips == [] then [] else [trips[0].stopTimes] + StopTimesOf(trips[1..])
  }

  /** The `unfurled` dictionary: each trip's stop times are replaced by
      their stable sort by `stop_sequence`, and each trip is appended to the
      list of its key. */
  method Unfurl(trips: seq<Trip>) returns (groups: map<GroupKey, seq<Trip>>)
    modifies trips`stopTimes
    ensures forall k :: 0 <= k < |trips| ==>
      trips[k].stopTimes == SortBy(old(trips[k].stopTimes), SequenceOf)
    ensures forall key :: key in groups <==> Grouped(trips, key) != []
    ensures forall key :: key in groups ==> groups[key] == Grouped(trips, key)
  {
    ghost var before := StopTimesOf(trips);
    ghost var after := Resequenced(before);
    groups := map[];
    ghost var done: set<int> := {};
    assert Consistent(trips, before);
    assert GroupsOf(groups, trips[..0]);
    for k := 0 to |trips|
      invariant Unfurling(trips, groups, done, k, before, after)
    {
      groups, done := UnfurlTrip(trips[k], trips, k, groups, done, before, after);
    }
    UnfurlDone(trips, groups, done, before, after);
  }

  /** The state of `Unfurl` before the pass over position `k`. */
  ghost predicate Unfurling(trips: seq<Trip>, groups: map<GroupKey, seq<Trip>>, done: set<int>, k: nat,
                            before: seq<seq<StopTime>>, after: seq<seq<StopTime>>)
    reads trips`stopTimes
  {
    k <= |trips| && Progress(trips, done, before, after) && Consistent(trips, before) &&
    Covers(done, k) && GroupsOf(groups, trips[..k])
  }

  /** After the last pass every trip is done and every key grouped. */
  lemma UnfurlDone(trips: seq<Trip>, groups: map<GroupKey, seq<Trip>>, done: set<int>,
                   before: seq<seq<StopTime>>, after: seq<seq<StopTime>>)
    requires Unfurling(trips, groups, done, |trips|, before, after)
    ensures forall k :: 0 <= k < |trips| ==> trips[k].stopTimes == SortBy(before[k], SequenceOf)
    ensures GroupsOf(groups, trips)
  {
    assert trips[..|trips|] == trips;
  }

  /** One pass of the loop of `Unfurl`, over the trip at position `k`. */
  method UnfurlTrip(trip: Trip, trips: seq<Trip>, k: nat, groups: map<GroupKey, seq<Trip>>, ghost done: set<int>,
                    ghost before: seq<seq<StopTime>>, ghost after: seq<seq<StopTime>>)
    returns (groups': map<GroupKey, seq<Trip>>, ghost done': set<int>)
    requires k < |trips| && trips[k] == trip
    requires Unfurling(trips, groups, done, k, before, after)
    modifies trip`stopTimes
    ensures Unfurling(trips, groups', done', k + 1, before, after)
  {
    done' := Resequence(trip, trips, k, done, before, after);
    forall j | 0 <= j <= k ensures j in done' {
      if j < k {
        assert j in done;
      }
    }
    groups' := Append(groups, trips, k, trip);
  }

  /** The positions before `k` are all done. */
  ghost predicate Covers(done: set<int>, k: nat)
  {
    forall j :: 0 <= j < k ==> j in done
  }

  /** `groups` holds the group of every key of `trips`, and only those. */
  ghost predicate GroupsOf(groups: map<GroupKey, seq<Trip>>, trips: seq<Trip>)
  {
    (forall key :: key in groups <==> Grouped(trips, key) != []) &&
    forall key :: key in groups ==> groups[key] == Grouped(trips, key)
  }

  /** Positions holding the same trip hold the same stop times. */
  ghost predicate Consistent(trips: seq<Trip>, before: seq<seq<StopTime>>)
  {
    |before| == |trips| &&
    forall i, j :: 0 <= i < |trips| && 0 <= j < |trips| && trips[i] == trips[j] ==> before[i] == before[j]
  }

  /** The trips at positions in `done` carry their sorted stop times, the
      others their original ones. */
  ghost predicate Progress(trips: seq<Trip>, done: set<int>, before: seq<seq<StopTime>>,
                           after: seq<seq<StopTime>>)
    reads trips`stopTimes
  {
    |before| == |trips| && |after| == |trips| &&
    (forall j :: 0 <= j < |trips| ==> after[j] == SortBy(before[j], SequenceOf)) &&
    forall j :: 0 <= j < |trips| ==>
      trips[j].stopTimes == if j in done then after[j] else before[j]
  }

  /** Every list of stop times in `stop_sequence` order. */
  ghost function Resequenced(before: seq<seq<StopTime>>): (r: seq<seq<StopTime>>)
    ensures |r| == |before|
    ensures forall k {:trigger r[k]} :: 0 <= k < |before| ==> r[k] == SortBy(before[k], SequenceOf)
  {
    seq(|before|, k requires 0 <= k < |before| => SortBy(before[k], SequenceOf))
  }

  /** `trip.stop_times = sorted(trip.stop_times, key=lambda x: x.stop_sequence)`
      for the trip at position `k`; every position holding the same trip is
      then done. */
  method Resequence(trip: Trip, ghost trips: seq<Trip>, ghost k: nat, ghost done: set<int>,
                    ghost before: seq<seq<StopTime>>, ghost after: seq<seq<StopTime>>)
    returns (ghost done': set<int>)
    requires k < |trips| && trips[k] == trip && Progress(trips, done, before, after)
    requires Consistent(trips, before)
    modifies trip`stopTimes
    ensures Progress(trips, done', before, after)
    ensures done' == done + set j | 0 <= j < |trips| && trips[j] == trip
  {
    var sorted := SortBy(trip.stopTimes, SequenceOf);
    if k in done {
      SortByIsSorted(before[k], SequenceOf);
      SortBySorted(trip.stopTimes, SequenceOf);
    }
    assert sorted == after[k];
    trip.stopTimes := sorted;
    done' := done + set j | 0 <= j < |trips| && trips[j] == trip;
    forall j | 0 <= j < |trips|
      ensures trips[j].stopTimes == if j in done' then after[j] else before[j]
    {
      if trips[j] == trip {
        assert before[j] == before[k];
      }
    }
  }

  /** `unfurled[s].append(trip)`, creating the list on the first trip with
      key `s`. */
  method Append(groups: map<GroupKey, seq<Trip>>, ghost trips: seq<Trip>, ghost k: nat, trip: Trip)
    returns (r: map<GroupKey, seq<Trip>>)
    requires k < |trips| && trips[k] == trip
    requires GroupsOf(groups, trips[..k])
    ensures GroupsOf(r, trips[..k + 1])
  {
    ghost var seen := trips[..k];
    assert trips[..k + 1] == seen + [trip];
    var s := KeyOf(trip);
    r := groups;
    if s !in r {
      r := r[s := []];
    }
    r := r[s := r[s] + [trip]];
    forall key ensures Grouped(seen + [trip], key)
                    == Grouped(seen, key) + (if s == key then [trip] else []) {
      GroupedAppend(seen, trip, key);
    }
  }

  /** `timedelta.seconds`: the seconds within the day, the whole days
      dropped. */
  function DaySeconds(total: int): (r: int)
    ensures 0 <= r < 86400
    ensures (total - r) % 86400 == 0
    ensures 0 <= total < 86400 ==> r == total
  {
    total % 86400
  }

  /** `getattr(stop.arrival_time, 'seconds', None)`. */
  function ArrivalSeconds(s: StopTime): (r: Option<int>)
    ensures r.Some? <==> s.arrivalTime.Some?
    ensures r.Some? ==> 0 <= r.value < 86400
  {
    match s.arrivalTime
    case None => None
    case Some(total) => Some(DaySeconds(total))
  }

  /** How the sort key `trip.stop_times[0].arrival_time.seconds` fails:
      an `IndexError` for a trip without stop times, an `AttributeError`
      when the first arrival is empty. */
  datatype SortError = NoStopTimes | NoArrivalTime

  /** The sort key of one trip. */
  function FirstArrival(t: Trip): (r: Result<int, SortError>)
    reads t`stopTimes
    ensures r.Ok? <==> t.stopTimes != [] && t.stopTimes[0].arrivalTime.Some?
    ensures r.Ok? ==> Some(r.value) == ArrivalSeconds(t.stopTimes[0])
    ensures t.stopTimes == [] ==> r == Err(NoStopTimes)
  {
    if t.stopTimes == [] then Err(NoStopTimes)
    else match t.stopTimes[0].arrivalTime
      case None => Err(NoArrivalTime)
      case Some(total) => Ok(DaySeconds(total))
  }

  /** The keys `sorted` computes, one per trip from left to right; the first
      trip whose key fails decides the exception. */
  function Starts(trips: seq<Trip>): (r: Result<seq<int>, SortError>)
    reads trips`stopTimes
    ensures r.Ok? <==> forall k :: 0 <= k < |trips| ==> FirstArrival(trips[k]).Ok?
    ensures r.Ok? ==> |r.value| == |trips|
    ensures r.Ok? ==> forall k :: 0 <= k < |trips| ==> FirstArrival(trips[k]) == Ok(r.value[k])
    ensures r.Err? ==> exists k :: 0 <= k < |trips| && FirstArrival(trips[k]) == Err(r.error)
                                  && forall j :: 0 <= j < k ==> FirstArrival(trips[j]).Ok?
  {
    if trips == [] then Ok([])
    else
      var init := trips[..|trips| - 1];
      var last := trips[|trips| - 1];
      assert forall k :: 0 <= k < |init| ==> init[k] == trips[k];
      match Starts(init)
      case Err(e) => Err(e)
      case Ok(ss) =>
        match FirstArrival(last)
        case Err(e) => Err(e)
        case Ok(s) => Ok(ss + [s])
  }

  /** The trips paired with their keys. */
  function Pairs(keys: seq<int>, trips: seq<Trip>): (r: seq<(int, Trip)>)
    requires |keys| == |trips|
    ensures |r| == |trips|
    ensures forall q {:trigger r[q]} :: 0 <= q < |trips| ==> r[q] == (keys[q], trips[q])
  {
    seq(|trips|, q requires 0 <= q < |trips| => (keys[q], trips[q]))
  }

  function PairKey(p: (int, Trip)): int
  {
    p.0
  }

  function PairTrip(p: (int, Trip)): Trip
  {
    p.1
  }

  /** `sorted(trips, key=lambda trip: trip.stop_times[0].arrival_time.seconds)`. */
  ghost function ByStart(trips: seq<Trip>): (r: Result<seq<Trip>, SortError>)
    reads trips`stopTimes
  {
    match Starts(trips)
    case Err(e) => Err(e)
    case Ok(ss) => Ok(Map(SortBy(Pairs(ss, trips), PairKey), PairTrip))
  }

  /** Sorts one group, computing the keys first as `sorted` does. */
  method SortByStart(trips: seq<Trip>) returns (r: Result<seq<Trip>, SortError>)
    ensures r == ByStart(trips)
  {
    var keyed: seq<(int, Trip)> := [];
    ghost var starts: seq<int> := [];
    for k := 0 to |trips|
      invariant Starts(trips[..k]) == Ok(starts)
      invariant |starts| == k
      invariant keyed == Pairs(starts, trips[..k])
    {
      var prefix := trips[..k + 1];
      assert prefix[..k] == trips[..k];
      var a := FirstArrival(trips[k]);
      if a.Err? {
        assert Starts(prefix) == Err(a.error);
        FailureLasts(trips, k + 1);
        return Err(a.error);
      }
      starts := starts + [a.value];
      keyed := keyed + [(a.value, trips[k])];
    }
    assert trips[..|trips|] == trips;
    r := Ok(Map(SortBy(keyed, PairKey), PairTrip));
  }

  /** Once a prefix fails, the whole list fails with the same error. */
  lemma {:induction false} FailureLasts(trips: seq<Trip>, n: nat)
    requires n <= |trips| && Starts(trips[..n]).Err?
    ensures Starts(trips) == Starts(trips[..n])
    decreases |trips| - n
  {
    if n < |trips| {
      var next := trips[..n + 1];
      assert next[..n] == trips[..n];
      assert Starts(next) == Starts(trips[..n]);
      FailureLasts(trips, n + 1);
    } else {
      assert trips[..n] == trips;
    }
  }

  /** The trips of `trips` whose first arrival is `s` seconds, in order. */
  ghost function StartingAt(trips: seq<Trip>, s: int): seq<Trip>
    reads trips`stopTimes
  {
    if trips == [] then []
    else (if FirstArrival(trips[0]) == Ok(s) then [trips[0]] else []) + StartingAt(trips[1..], s)
  }

  /** Every pair carries its trip's current first-arrival seconds. */
  ghost predicate KeyedRight(ps: seq<(int, Trip)>)
    reads (set q | 0 <= q < |ps| :: ps[q].1)`stopTimes
  {
    forall q :: 0 <= q < |ps| ==> FirstArrival(ps[q].1) == Ok(ps[q].0)
  }

  /** The sorted group's first arrivals never decrease. */
  ghost predicate StartsAscending(trips: seq<Trip>)
    reads trips`stopTimes
  {
    forall a, b :: 0 <= a < b < |trips| ==>
      FirstArrival(trips[a]).Ok? && FirstArrival(trips[b]).Ok? &&
      FirstArrival(trips[a]).value <= FirstArrival(trips[b]).value
  }

  /** The sort fails exactly when some trip has no key, and then with the
      error of the leftmost such trip. */
  lemma ByStartFails(trips: seq<Trip>)
    ensures ByStart(trips).Err? <==> exists k :: 0 <= k < |trips| && FirstArrival(trips[k]).Err?
    ensures ByStart(trips).Err? ==>
      exists k :: 0 <= k < |trips| && FirstArrival(trips[k]) == Err(ByStart(trips).error)
                  && forall j :: 0 <= j < k ==> FirstArrival(trips[j]).Ok?
  {
  }

  /** The sorted group holds only trips of the group, each with a first
      arrival. */
  lemma ByStartMembers(trips: seq<Trip>)
    requires ByStart(trips).Ok?
    ensures multiset(ByStart(trips).value) == multiset(trips)
    ensures |ByStart(trips).value| == |trips|
    ensures forall k :: 0 <= k < |trips| ==>
      ByStart(trips).value[k] in trips && FirstArrival(ByStart(trips).value[k]).Ok?
  {
    var ss := Starts(trips).value;
    var keyed := Pairs(ss, trips);
    var sorted := SortBy(keyed, PairKey);
    assert ByStart(trips).value == Map(sorted, PairTrip);
    MapMultiset(keyed, sorted, PairTrip);
    assert Map(keyed, PairTrip) == trips;
    forall k | 0 <= k < |trips| ensures Map(sorted, PairTrip)[k] in trips {
      assert Map(sorted, PairTrip)[k] in multiset(trips);
    }
  }

  /** A successful sort rearranges the group into non-decreasing first
      arrivals, and trips with equal first arrivals keep their order. */
  lemma ByStartArranged(trips: seq<Trip>)
    requires ByStart(trips).Ok?
    ensures StartsAscending(ByStart(trips).value)
    ensures forall s :: StartingAt(ByStart(trips).value, s) == StartingAt(trips, s)
  {
    var ss := Starts(trips).value;
    var keyed := Pairs(ss, trips);
    var sorted := SortBy(keyed, PairKey);
    assert ByStart(trips).value == Map(sorted, PairTrip);
    assert Map(keyed, PairTrip) == trips;
    assert KeyedRight(keyed);
    SortedKeyedRight(keyed);
    forall s ensures StartingAt(Map(sorted, PairTrip), s) == StartingAt(trips, s) {
      SortByIsStable(keyed, PairKey, s);
      WithKeyTrips(keyed, s);
      WithKeyTrips(sorted, s);
    }
  }

  lemma SortedKeyedRight(ps: seq<(int, Trip)>)
    requires KeyedRight(ps)
    ensures KeyedRight(SortBy(ps, PairKey))
    ensures StartsAscending(Map(SortBy(ps, PairKey), PairTrip))
  {
    var sorted := SortBy(ps, PairKey);
    SortByIsSorted(ps, PairKey);
    forall q | 0 <= q < |sorted| ensures FirstArrival(sorted[q].1) == Ok(sorted[q].0) {
      assert sorted[q] in multiset(ps);
    }
  }

  /** Dropping the keys of correctly keyed pairs commutes with picking one
      key. */
  lemma {:induction false} WithKeyTrips(ps: seq<(int, Trip)>, s: int)
    requires KeyedRight(ps)
    ensures Map(WithKey(ps, PairKey, s), PairTrip) == StartingAt(Map(ps, PairTrip), s)
  {
    if ps != [] {
      WithKeyTrips(ps[1..], s);
      var ts := Map(ps, PairTrip);
      assert ts[1..] == Map(ps[1..], PairTrip);
      var head := if PairKey(ps[0]) == s then [ps[0]] else [];
      MapConcat(head, WithKey(ps[1..], PairKey, s), PairTrip);
    }
  }

  /** The trips of a sorted group all have a first arrival and all share
      the group's key; the group is not empty. */
  lemma SortedGroup(trips: seq<Trip>, key: GroupKey, sorted: seq<Trip>)
    requires forall k :: 0 <= k < |trips| ==> KeyOf(trips[k]) == key
    requires trips != [] && ByStart(trips) == Ok(sorted)
    ensures sorted != []
    ensures forall k :: 0 <= k < |sorted| ==> FirstArrival(sorted[k]).Ok? && KeyOf(sorted[k]) == key
  {
    ByStartMembers(trips);
    forall k | 0 <= k < |sorted|
      ensures FirstArrival(sorted[k]).Ok? && KeyOf(sorted[k]) == key
    {
      assert sorted[k] in multiset(trips);
      var j :| 0 <= j < |trips| && trips[j] == sorted[k];
    }
  }
}
