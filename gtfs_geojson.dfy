/** `route_info` of `gtfs_geojson.py`: the same Monday filter, grouping and
    sort as `routeinfo`, building the GeoJSON properties of each group and,
    on request, one entry per trip of the group. */
module GtfsGeojson {
  import opened Wrappers
  import opened Sequences
  import opened StableSort
  import opened TripGroups

  /** One entry of `t['stop_times']`. */
  datatype StopRecord = StopRecord(arrivalTime: Option<int>, stopId: string, stopSequence: int)

  /** One entry of `r['trips']`. */
  datatype TripRecord = TripRecord(tripId: string, serviceId: string, tripHeadsign: string,
                                   directionId: Option<int>, stopTimes: seq<StopRecord>)

  /** The dictionary `r` built for one group; `trips` is present only with
      `includetrips`. */
  datatype Properties = Properties(routeType: int, agencyId: string, routeDesc: string,
                                   routeLongName: string, routeShortName: string,
                                   routeShapeId: Option<string>, tripHeadsign: string,
                                   directionId: Option<int>, trips: Option<seq<TripRecord>>)

  /** The error Python raises when a `Trip` is indexed. */
  datatype TypeError = NotSubscriptable

  /** The stop time as a dictionary: its arrival seconds within the day
      (`None` without an arrival time), its stop and its sequence number. */
  function StopRecordOf(s: StopTime): (r: StopRecord)
    ensures r.arrivalTime.Some? <==> s.arrivalTime.Some?
    ensures r.arrivalTime.Some? ==> r.arrivalTime.value == DaySeconds(s.arrivalTime.value)
    ensures r.stopId == s.stopId && r.stopSequence == s.stopSequence
  {
    StopRecord(ArrivalSeconds(s), s.stopId, s.stopSequence)
  }

  /** The entry of one trip, with the trip's own stop times. */
  function TripRecordOf(t: Trip): (r: TripRecord)
    reads t`stopTimes
    ensures r.tripId == t.tripId && r.serviceId == t.serviceId
    ensures r.tripHeadsign == t.tripHeadsign && r.directionId == t.directionId
    ensures |r.stopTimes| == |t.stopTimes|
    ensures forall j :: 0 <= j < |r.stopTimes| ==>
      r.stopTimes[j].stopId == t.stopTimes[j].stopId &&
      r.stopTimes[j].stopSequence == t.stopTimes[j].stopSequence &&
      (r.stopTimes[j].arrivalTime.Some? <==> t.stopTimes[j].arrivalTime.Some?)
  {
    TripRecord(t.tripId, t.serviceId, t.tripHeadsign, t.directionId, Map(t.stopTimes, StopRecordOf))
  }

  /** The loop that fills `r['trips']` as evidently intended: one entry per
      trip, in group order, each from the trip's own stop times. */
  function TripRecords(trips: seq<Trip>): (r: seq<TripRecord>)
    reads trips`stopTimes
    ensures |r| == |trips|
    ensures forall k :: 0 <= k < |trips| ==>
      r[k].tripId == trips[k].tripId && r[k].serviceId == trips[k].serviceId &&
      r[k].tripHeadsign == trips[k].tripHeadsign && r[k].directionId == trips[k].directionId &&
      |r[k].stopTimes| == |trips[k].stopTimes|
  {
    if trips == [] then [] else [TripRecordOf(trips[0])] + TripRecords(trips[1..])
  }

  /** The loop as written: `trip[0]` indexes the trip itself, which is not
      a sequence, so the first pass already raises. */
  function TripRecordsAsWritten(trips: seq<Trip>): (r: Result<seq<TripRecord>, TypeError>)
    ensures trips == [] <==> r.Ok?
  {
    if trips == [] then Ok([]) else Err(NotSubscriptable)
  }

  /** Every group holds a trip, so with `includetrips` the code as written
      fails on every group, whereas the intended loop lists every trip. */
  lemma IncludeTripsFails(trips: seq<Trip>)
    requires trips != []
    ensures TripRecordsAsWritten(trips) == Err(NotSubscriptable)
    ensures |TripRecords(trips)| == |trips| > 0
  {
  }

  /** As written, `includetrips` fails on any group whose sort succeeds:
      the sorted group is never empty. */
  lemma SortedGroupFailsAsWritten(group: seq<Trip>)
    requires group != [] && ByStart(group).Ok?
    ensures TripRecordsAsWritten(ByStart(group).value) == Err(NotSubscriptable)
  {
    ByStartMembers(group);
  }

  /** Once every trip's stop times are in `stop_sequence` order (as after
      `Unfurl`), every entry lists its stops in that order. */
  lemma {:induction false} RecordsInOrder(trips: seq<Trip>)
    requires forall k :: 0 <= k < |trips| ==> Sorted(trips[k].stopTimes, SequenceOf)
    ensures forall k, a, b :: 0 <= k < |trips| && 0 <= a < b < |TripRecords(trips)[k].stopTimes| ==>
      TripRecords(trips)[k].stopTimes[a].stopSequence <= TripRecords(trips)[k].stopTimes[b].stopSequence
  {
    var r := TripRecords(trips);
    forall k, a, b | 0 <= k < |trips| && 0 <= a < b < |r[k].stopTimes|
      ensures r[k].stopTimes[a].stopSequence <= r[k].stopTimes[b].stopSequence
    {
      RecordOrder(trips, k);
      assert SequenceOf(trips[k].stopTimes[a]) <= SequenceOf(trips[k].stopTimes[b]);
    }
  }

  /** The `k`th entry is the `k`th trip's. */
  lemma {:induction false} RecordOrder(trips: seq<Trip>, k: int)
    requires 0 <= k < |trips|
    ensures TripRecords(trips)[k] == TripRecordOf(trips[k])
  {
    if k > 0 {
      RecordOrder(trips[1..], k - 1);
    }
  }

  /** The properties of a sorted group: the route's fields and the shape,
      headsign and direction of the first trip. With `includetrips` the
      trips are listed by the corrected loop `TripRecords`; the loop as
      written raises instead (`TripRecordsAsWritten`). */
  function Describe(route: Route, trips: seq<Trip>, includeTrips: bool): (r: Properties)
    requires trips != []
    reads trips`stopTimes
    ensures r.routeType == route.routeType && r.agencyId == route.agencyId && r.routeDesc == route.routeDesc
    ensures r.routeLongName == route.routeLongName && r.routeShortName == route.routeShortName
    ensures r.routeShapeId == trips[0].shapeId && r.tripHeadsign == trips[0].tripHeadsign
    ensures r.directionId == trips[0].directionId
    ensures r.trips.Some? <==> includeTrips
    ensures includeTrips ==> |r.trips.value| == |trips|
  {
    Properties(route.routeType, route.agencyId, route.routeDesc, route.routeLongName,
               route.routeShortName, trips[0].shapeId, trips[0].tripHeadsign, trips[0].directionId,
               if includeTrips then Some(TripRecords(trips)) else None)
  }

  /** The record `route_info` builds for one group: the group sorted by
      first arrival, then described. */
  ghost function GroupProperties(route: Route, group: seq<Trip>, includeTrips: bool): (r: Result<Properties, SortError>)
    requires group != []
    reads group`stopTimes
  {
    match ByStart(group)
    case Err(e) => Err(e)
    case Ok(sorted) =>
      ByStartMembers(group);
      Ok(Describe(route, sorted, includeTrips))
  }

  /** The loop over `unfurled.items()`: every group is sorted and
      described, and the first group whose sort fails ends the generator.
      `expected` holds what each group gives. */
  method DescribeGroups(route: Route, groups: map<GroupKey, seq<Trip>>, includeTrips: bool,
                        ghost expected: map<GroupKey, Result<Properties, SortError>>)
    returns (r: Result<map<GroupKey, Properties>, SortError>)
    requires forall key :: key in groups ==> groups[key] != []
    requires expected.Keys == groups.Keys
    requires forall key {:trigger GroupProperties(route, groups[key], includeTrips)} :: key in groups ==>
      expected[key] == GroupProperties(route, groups[key], includeTrips)
    ensures r.Err? <==> exists key :: key in expected && expected[key].Err?
    ensures r.Err? ==> exists key :: key in expected && expected[key] == Err(r.error)
    ensures r.Ok? ==> r.value.Keys == groups.Keys
    ensures r.Ok? ==> forall key :: key in expected ==> expected[key] == Ok(r.value[key])
  {
    var pending := groups.Keys;
    var described: map<GroupKey, Properties> := map[];
    while pending != {}
      invariant pending <= groups.Keys
      invariant described.Keys == groups.Keys - pending
      invariant forall key :: key in described ==> expected[key] == Ok(described[key])
      decreases pending
    {
      ghost var unseen := SomeUnseen({}, pending);
      var key :| key in pending;
      var props := DescribeGroup(route, groups[key], includeTrips, expected[key]);
      if props.Err? {
        return Err(props.error);
      }
      described := described[key := props.value];
      pending := pending - {key};
    }
    r := Ok(described);
  }

  /** One pass of that loop: `sorted(trips, key=...)`, then the record. */
  method DescribeGroup(route: Route, group: seq<Trip>, includeTrips: bool,
                       ghost expected: Result<Properties, SortError>)
    returns (r: Result<Properties, SortError>)
    requires group != [] && expected == GroupProperties(route, group, includeTrips)
    ensures r == expected
  {
    var sorted := SortByStart(group);
    if sorted.Err? {
      return Err(sorted.error);
    }
    ByStartMembers(group);
    r := Ok(Describe(route, sorted.value, includeTrips));
  }

  /** What `route_info` gives for the trips `trips` once every trip's stop
      times are in order: an error exactly when some group's sort fails
      (the error of one such group), and otherwise one record per
      `(shape_id, direction_id)` key of the trips, the record of that key's
      group. */
  ghost predicate Described(route: Route, trips: seq<Trip>, includeTrips: bool,
                            r: Result<map<GroupKey, Properties>, SortError>)
    reads trips`stopTimes
  {
    (r.Err? <==> exists key :: Grouped(trips, key) != [] &&
                               GroupProperties(route, Grouped(trips, key), includeTrips).Err?) &&
    (r.Err? ==> exists key :: Grouped(trips, key) != [] &&
                              GroupProperties(route, Grouped(trips, key), includeTrips) == Err(r.error)) &&
    (r.Ok? ==> forall key :: key in r.value <==> Grouped(trips, key) != []) &&
    (r.Ok? ==> forall key :: key in r.value ==>
                 GroupProperties(route, Grouped(trips, key), includeTrips) == Ok(r.value[key]))
  }

  /** The second half of `route_info`, over the groups that `Unfurl` built. */
  method DescribeAll(route: Route, trips: seq<Trip>, groups: map<GroupKey, seq<Trip>>, includeTrips: bool)
    returns (r: Result<map<GroupKey, Properties>, SortError>)
    requires forall key :: key in groups <==> Grouped(trips, key) != []
    requires forall key :: key in groups ==> groups[key] == Grouped(trips, key)
    ensures Described(route, trips, includeTrips, r)
  {
    ghost var expected := map key | key in groups :: GroupProperties(route, groups[key], includeTrips);
    r := DescribeGroups(route, groups, includeTrips, expected);
    if r.Err? {
      ghost var key :| key in expected && expected[key] == Err(r.error);
      assert expected[key] == GroupProperties(route, Grouped(trips, key), includeTrips);
    } else {
      forall key | Grouped(trips, key) != []
        ensures GroupProperties(route, Grouped(trips, key), includeTrips) == Ok(r.value[key])
      {
        assert expected[key] == GroupProperties(route, Grouped(trips, key), includeTrips);
      }
    }
  }

  /** `route_info(route, includetrips=...)`: every Monday trip's stop times
      are put in `stop_sequence` order, and the Monday trips are then
      described group by group. A trip without a calendar is dropped. The
      records use the corrected trip loop `TripRecords`: as written, the
      first group that sorts raises with `includetrips` (`SortedGroupFailsAsWritten`). */
  method RouteInfo(route: Route, includeTrips: bool) returns (r: Result<map<GroupKey, Properties>, SortError>)
    modifies route.trips`stopTimes
    ensures forall k :: 0 <= k < |MondayTrips(route.trips)| ==>
      MondayTrips(route.trips)[k].stopTimes == SortBy(old(MondayTrips(route.trips)[k].stopTimes), SequenceOf)
    ensures forall k :: 0 <= k < |route.trips| && !RunsMonday(route.trips[k]) ==>
      route.trips[k].stopTimes == old(route.trips[k].stopTimes)
    ensures Described(route, MondayTrips(route.trips), includeTrips, r)
  {
    var trips := MondayTrips(route.trips);
    var groups := Unfurl(trips);
    r := DescribeAll(route, trips, groups, includeTrips);
  }

  /** The record of a group: the shape and direction are the group's key,
      and with `includetrips` the entries are the records of the trips of
      the group in first-arrival order, each one's stops in
      `stop_sequence` order once the stop times were sorted. */
  lemma DescribedGroup(route: Route, trips: seq<Trip>, key: GroupKey, includeTrips: bool)
    requires Grouped(trips, key) != [] && GroupProperties(route, Grouped(trips, key), includeTrips).Ok?
    requires forall k :: 0 <= k < |trips| ==> Sorted(trips[k].stopTimes, SequenceOf)
    ensures var props := GroupProperties(route, Grouped(trips, key), includeTrips).value;
      props.routeShapeId == key.shapeId && props.directionId == key.directionId &&
      (includeTrips ==>
        |props.trips.value| == |Grouped(trips, key)| &&
        (forall k :: 0 <= k < |props.trips.value| ==>
           props.trips.value[k].tripId == ByStart(Grouped(trips, key)).value[k].tripId &&
           props.trips.value[k] == TripRecordOf(ByStart(Grouped(trips, key)).value[k])) &&
        (forall k, a, b :: 0 <= k < |props.trips.value| && 0 <= a < b < |props.trips.value[k].stopTimes| ==>
           props.trips.value[k].stopTimes[a].stopSequence <= props.trips.value[k].stopTimes[b].stopSequence))
  {
    var group := Grouped(trips, key);
    var sorted := ByStart(group).value;
    ByStartMembers(group);
    SortedGroup(group, key, sorted);
    forall k | 0 <= k < |sorted| ensures Sorted(sorted[k].stopTimes, SequenceOf) {
      var j :| 0 <= j < |trips| && trips[j] == sorted[k];
    }
    forall k | 0 <= k < |sorted| ensures TripRecords(sorted)[k] == TripRecordOf(sorted[k]) {
      RecordOrder(sorted, k);
    }
    RecordsInOrder(sorted);
  }
}
