/** The GeoJSON to GTFS converter's registry: trips that collect stop
    times, and a schedule that de-duplicates stops by position, hands out
    fresh stop and route ids and fills in missing trip ids. Python's
    falsy values (`None`, `0`, `""`, `[]`) are modelled explicitly. */
module GeojsonGtfs {
  import opened Wrappers
  import Sequences

  /** A GeoJSON position, used as a dictionary key (`tuple(coordinates)`). */
  type Position = seq<real>

  /** A property value that is either a string or a number. */
  datatype Label = Text(text: string) | Number(number: int)

  /** Python truthiness of an optional id (`None` and `0` are falsy). */
  predicate TruthyId(o: Option<int>)
  {
    o.Some? && o.value != 0
  }

  /** Python truthiness of an optional string (`None` and `""` are falsy). */
  predicate TruthyText(o: Option<string>)
  {
    o.Some? && o.value != ""
  }

  /** Python truthiness of an optional label. */
  predicate TruthyLabel(o: Option<Label>)
  {
    match o
    case None => false
    case Some(Text(s)) => s != ""
    case Some(Number(n)) => n != 0
  }

  /** `o or fallback` on a label. */
  function LabelOr(o: Option<Label>, fallback: Label): (r: Option<Label>)
    ensures TruthyLabel(o) ==> r == o
    ensures !TruthyLabel(o) ==> r == Some(fallback)
  {
    if TruthyLabel(o) then o else Some(fallback)
  }

  /** `m` is `max([0] + keys)`. */
  ghost predicate IsMaxKey(m: int, keys: set<int>)
  {
    && 0 <= m
    && (m == 0 || m in keys)
    && (forall k :: k in keys ==> k <= m)
  }

  /** `max([0] + keys)`, for the keys of a dictionary; one more than it is
      not a key. */
  method MaxKey(keys: set<int>) returns (m: int)
    ensures IsMaxKey(m, keys)
    ensures m + 1 !in keys
  {
    m := 0;
    var seen: set<int> := {};
    while seen != keys
      invariant seen <= keys
      invariant 0 <= m && (m == 0 || m in keys)
      invariant forall k :: k in seen ==> k <= m
      decreases keys - seen
    {
      ghost var unseen := Sequences.SomeUnseen(seen, keys);
      var k :| k in keys && k !in seen;
      if k > m {
        m := k;
      }
      seen := seen + {k};
    }
  }

  /** One row of `stop_times.txt`. */
  datatype StopTime = StopTime(arrivalTime: string, departureTime: string, stopId: int, stopSequence: int)

  /** The stop times carry the sequence numbers 1, 2, 3, ... */
  ghost predicate Numbered(stopTimes: seq<StopTime>)
  {
    forall k :: 0 <= k < |stopTimes| ==> stopTimes[k].stopSequence == k + 1
  }

  /** The trips of the routes, route after route. */
  ghost function Flatten(rs: seq<Route>): seq<Trip>
    reads rs`trips
  {
    if rs == [] then [] else Flatten(rs[..|rs| - 1]) + rs[|rs| - 1].trips
  }

  /** `[i['trip_id'] for i in trips]`. */
  function TripIds(trips: seq<Trip>): (r: seq<Option<int>>)
    reads trips`tripId
    ensures |r| == |trips|
    ensures forall k {:trigger r[k]} :: 0 <= k < |trips| ==> r[k] == trips[k].tripId
  {
    if trips == [] then [] else [trips[0].tripId] + TripIds(trips[1..])
  }

  /** `filter(None, ids)`: the truthy ids, in order. */
  function TruthyIds(ids: seq<Option<int>>): (r: seq<int>)
    ensures forall x :: x in r <==> Some(x) in ids && x != 0
  {
    if ids == [] then []
    else if TruthyId(ids[0]) then [ids[0].value] + TruthyIds(ids[1..])
    else TruthyIds(ids[1..])
  }

  /** Python's `max` of a non-empty list. */
  function MaxOf(s: seq<int>): (m: int)
    requires s != []
    ensures m in s
    ensures forall x :: x in s ==> x <= m
  {
    if |s| == 1 then s[0]
    else
      var rest := MaxOf(s[1..]);
      assert s == [s[0]] + s[1..];
      if s[0] > rest then s[0] else rest
  }

  class Trip {
    /** `None` until an id is tagged at write time. */
    var tripId: Option<int>
    var stopTimes: seq<StopTime>

    constructor (tripId: Option<int>)
      ensures this.tripId == tripId && stopTimes == []
    {
      this.tripId := tripId;
      stopTimes := [];
    }

    /** `add_stop`: one stop time is appended; a falsy `stop_sequence`
        becomes the previous count plus one and a falsy `departure_time`
        becomes `arrival_time`. Appending without sequence numbers keeps
        the numbering 1, 2, 3, ... */
    method AddStop(stopId: int, arrivalTime: string, departureTime: Option<string>, stopSequence: Option<int>)
      modifies this`stopTimes
      ensures |stopTimes| == |old(stopTimes)| + 1 && stopTimes[..|old(stopTimes)|] == old(stopTimes)
      ensures stopTimes[|old(stopTimes)|].arrivalTime == arrivalTime
      ensures stopTimes[|old(stopTimes)|].stopId == stopId
      ensures stopTimes[|old(stopTimes)|].departureTime ==
                if TruthyText(departureTime) then departureTime.value else arrivalTime
      ensures stopTimes[|old(stopTimes)|].stopSequence ==
                if TruthyId(stopSequence) then stopSequence.value else |old(stopTimes)| + 1
      ensures old(Numbered(stopTimes)) && !TruthyId(stopSequence) ==> Numbered(stopTimes)
    {
      var sequence := if TruthyId(stopSequence) then stopSequence.value else |stopTimes| + 1;
      var departure := if TruthyText(departureTime) then departureTime.value else arrivalTime;
      stopTimes := stopTimes + [StopTime(arrivalTime, departure, stopId, sequence)];
    }
  }

  /** A GeoJSON Point feature. */
  class Stop {
    const coordinates: Position
    var stopId: Option<int>
    var stopName: Option<Label>

    constructor (coordinates: Position, stopId: Option<int>, stopName: Option<Label>)
      ensures this.coordinates == coordinates && this.stopId == stopId && this.stopName == stopName
    {
      this.coordinates := coordinates;
      this.stopId := stopId;
      this.stopName := stopName;
    }
  }

  /** A GeoJSON LineString feature; an empty `stopIds` is a missing one. */
  class Route {
    const coordinates: seq<Position>
    var routeId: Option<int>
    var shortName: Option<Label>
    var longName: Option<Label>
    var stopIds: seq<int>
    var trips: seq<Trip>

    constructor (coordinates: seq<Position>, routeId: Option<int>, stopIds: seq<int>, trips: seq<Trip>)
      ensures this.coordinates == coordinates && this.routeId == routeId
      ensures this.stopIds == stopIds && this.trips == trips
      ensures shortName == None && longName == None
    {
      this.coordinates := coordinates;
      this.routeId := routeId;
      this.stopIds := stopIds;
      this.trips := trips;
      shortName := None;
      longName := None;
    }
  }

  class Schedule {
    const agencyId: string
    const agencyName: string
    var stops: map<int, Stop>
    /** The stops by position. */
    var stopsIndex: map<Position, Stop>
    var routes: map<int, Route>

    /** Every stored stop is stored under its own id and indexed under its
        own position, with a name; every stored route is stored under its
        own, non-zero, id. */
    ghost predicate Valid()
      reads this, stops.Values`stopId, stops.Values`stopName, stopsIndex.Values`stopId, routes.Values`routeId
    {
      && (forall id :: id in stops ==>
            && stops[id].stopId == Some(id)
            && TruthyLabel(stops[id].stopName)
            && stops[id].coordinates in stopsIndex
            && stopsIndex[stops[id].coordinates] == stops[id])
      && (forall p :: p in stopsIndex ==>
            && stopsIndex[p].coordinates == p
            && stopsIndex[p].stopId.Some?
            && stopsIndex[p].stopId.value in stops
            && stops[stopsIndex[p].stopId.value] == stopsIndex[p])
      && (forall id :: id in routes ==> id != 0 && routes[id].routeId == Some(id))
    }

    /** `agency_name or agency_id`, and empty dictionaries. */
    constructor (agencyId: string, agencyName: Option<string>)
      ensures Valid()
      ensures this.agencyId == agencyId
      ensures this.agencyName == if TruthyText(agencyName) then agencyName.value else agencyId
      ensures stops == map[] && stopsIndex == map[] && routes == map[]
    {
      this.agencyId := agencyId;
      this.agencyName := if TruthyText(agencyName) then agencyName.value else agencyId;
      stops := map[];
      stopsIndex := map[];
      routes := map[];
    }

    /** Stops are only ever added. */
    ghost predicate Extends(oldStops: map<int, Stop>, oldIndex: map<Position, Stop>)
      reads this
    {
      && (forall id :: id in oldStops ==> id in stops && stops[id] == oldStops[id])
      && (forall p :: p in oldIndex ==> p in stopsIndex && stopsIndex[p] == oldIndex[p])
    }

    /** `add_stop`. A stop at an indexed position returns the indexed stop
        and changes nothing. Otherwise a falsy `stop_id` becomes
        `max([0] + keys) + 1`; a stop whose id is taken returns the stored
        stop, leaving both dictionaries alone; a new stop gets its id as
        the default name and is stored by id and by position. */
    method AddStop(stop: Stop) returns (r: Stop)
      requires Valid()
      modifies this`stops, this`stopsIndex, stop`stopId, stop`stopName
      ensures Valid() && Extends(old(stops), old(stopsIndex))
      ensures old(stop.coordinates in stopsIndex) ==>
                && r == old(stopsIndex[stop.coordinates])
                && stops == old(stops) && stopsIndex == old(stopsIndex)
                && unchanged(stop)
      ensures !old(stop.coordinates in stopsIndex) ==>
                && stop.stopId.Some?
                && (TruthyId(old(stop.stopId)) ==> stop.stopId == old(stop.stopId))
                && (!TruthyId(old(stop.stopId)) ==>
                      IsMaxKey(stop.stopId.value - 1, old(stops.Keys)) && stop.stopId.value !in old(stops))
      ensures !old(stop.coordinates in stopsIndex) && stop.stopId.value in old(stops) ==>
                && r == old(stops[stop.stopId.value])
                && stops == old(stops) && stopsIndex == old(stopsIndex)
                && stop.stopName == old(stop.stopName)
      ensures !old(stop.coordinates in stopsIndex) && stop.stopId.value !in old(stops) ==>
                && r == stop
                && stops == old(stops)[stop.stopId.value := stop]
                && stopsIndex == old(stopsIndex)[stop.coordinates := stop]
                && stop.stopName == LabelOr(old(stop.stopName), Number(stop.stopId.value))
      ensures !TruthyId(old(stop.stopId)) ==> stop.coordinates in stopsIndex && stopsIndex[stop.coordinates] == r
    {
      var p := stop.coordinates;
      if p in stopsIndex {
        return stopsIndex[p];
      }
      Unstored(stop);
      var id;
      if TruthyId(stop.stopId) {
        id := stop.stopId.value;
      } else {
        var m := MaxKey(stops.Keys);
        id := m + 1;
      }
      stop.stopId := Some(id);
      if id in stops {
        return stops[id];
      }
      r := StoreStop(stop, id);
    }

    /** A stop whose position is not indexed is not stored. */
    lemma Unstored(stop: Stop)
      requires Valid() && stop.coordinates !in stopsIndex
      ensures forall k :: k in stops ==> stops[k] != stop
      ensures forall q :: q in stopsIndex ==> stopsIndex[q] != stop
    {
    }

    /** The last step of `add_stop` for a new stop: the default name, then
        the two dictionary entries. */
    method StoreStop(stop: Stop, id: int) returns (r: Stop)
      requires Valid() && stop.coordinates !in stopsIndex && id !in stops && stop.stopId == Some(id) && id != 0
      requires forall k :: k in stops ==> stops[k] != stop
      requires forall q :: q in stopsIndex ==> stopsIndex[q] != stop
      modifies this`stops, this`stopsIndex, stop`stopName
      ensures Valid() && r == stop
      ensures stops == old(stops)[id := stop] && stopsIndex == old(stopsIndex)[stop.coordinates := stop]
      ensures stop.stopName == LabelOr(old(stop.stopName), Number(id))
    {
      stop.stopName := LabelOr(stop.stopName, Number(id));
      stops := stops[id := stop];
      stopsIndex := stopsIndex[stop.coordinates := stop];
      r := stop;
      forall k | k in stops
        ensures stops[k].stopId == Some(k) && TruthyLabel(stops[k].stopName)
        ensures stops[k].coordinates in stopsIndex && stopsIndex[stops[k].coordinates] == stops[k]
      {
        if k != id {
          assert stops[k] == old(stops)[k] != stop;
        }
      }
      forall q | q in stopsIndex
        ensures stopsIndex[q].coordinates == q && stopsIndex[q].stopId.Some?
        ensures stopsIndex[q].stopId.value in stops && stops[stopsIndex[q].stopId.value] == stopsIndex[q]
      {
        if q != stop.coordinates {
          assert stopsIndex[q] == old(stopsIndex)[q] != stop;
        }
      }
    }

    /** Each position has an indexed stop, whose id is listed at the same
        place in `ids`. */
    ghost predicate StopsAt(coordinates: seq<Position>, ids: seq<int>)
      reads this, stopsIndex.Values`stopId
    {
      && |ids| == |coordinates|
      && (forall k :: 0 <= k < |coordinates| ==>
            coordinates[k] in stopsIndex && stopsIndex[coordinates[k]].stopId == Some(ids[k]))
    }

    /** The list comprehension of `add_route` for a route without stop ids:
        a new stop per position, added in order, and the ids of the stops
        `add_stop` returns. */
    method IndexStops(coordinates: seq<Position>) returns (ids: seq<int>)
      requires Valid()
      modifies this`stops, this`stopsIndex
      ensures Valid() && Extends(old(stops), old(stopsIndex))
      ensures StopsAt(coordinates, ids)
      ensures stopsIndex.Keys == old(stopsIndex.Keys) + Sequences.Firsts(coordinates, |coordinates|)
      ensures stops.Keys == old(stops.Keys) + Sequences.Firsts(ids, |ids|)
    {
      ids := [];
      for k := 0 to |coordinates|
        invariant Valid() && |ids| == k && Indexing(old(stops), old(stopsIndex), coordinates, ids)
      {
        ids := IndexNext(coordinates, ids, old(stops), old(stopsIndex));
      }
    }

    /** After the first `|ids|` positions: the stops stored before are kept,
        the positions so far are indexed under stops with the ids `ids`,
        and nothing else was stored. */
    ghost predicate Indexing(oldStops: map<int, Stop>, oldIndex: map<Position, Stop>, coordinates: seq<Position>, ids: seq<int>)
      reads this, stopsIndex.Values`stopId
    {
      && |ids| <= |coordinates|
      && Extends(oldStops, oldIndex)
      && (forall j :: 0 <= j < |ids| ==>
            coordinates[j] in stopsIndex && stopsIndex[coordinates[j]].stopId == Some(ids[j]))
      && stopsIndex.Keys == oldIndex.Keys + Sequences.Firsts(coordinates, |ids|)
      && stops.Keys == oldStops.Keys + Sequences.Firsts(ids, |ids|)
    }

    /** The comprehension's next element. */
    method IndexNext(coordinates: seq<Position>, ids: seq<int>, ghost oldStops: map<int, Stop>, ghost oldIndex: map<Position, Stop>)
      returns (next: seq<int>)
      requires Valid() && |ids| < |coordinates| && Indexing(oldStops, oldIndex, coordinates, ids)
      modifies this`stops, this`stopsIndex
      ensures Valid() && |next| == |ids| + 1 && Indexing(oldStops, oldIndex, coordinates, next)
    {
      var k := |ids|;
      ghost var index, keys := stopsIndex, stops.Keys;
      var id := IndexStop(coordinates[k]);
      Sequences.FirstsGrow(coordinates, k, oldIndex.Keys, index.Keys, stopsIndex.Keys);
      Sequences.FirstsAppendGrow(ids, id, oldStops.Keys, keys, stops.Keys);
      next := ids + [id];
      forall j | 0 <= j < |next|
        ensures coordinates[j] in stopsIndex && stopsIndex[coordinates[j]].stopId == Some(next[j])
      {
        if j < k {
          assert next[j] == ids[j] && stopsIndex[coordinates[j]] == index[coordinates[j]];
        } else {
          assert next[j] == id;
        }
      }
    }

    /** One element of that comprehension: `add_stop(Stop(position))`
        indexes the position, under a stop that is either already stored or
        new with a fresh id, and yields that stop's id. */
    method IndexStop(position: Position) returns (id: int)
      requires Valid()
      modifies this`stops, this`stopsIndex
      ensures Valid() && Extends(old(stops), old(stopsIndex))
      ensures position in stopsIndex && stopsIndex[position].stopId == Some(id)
      ensures stopsIndex.Keys == old(stopsIndex.Keys) + {position}
      ensures stops.Keys == old(stops.Keys) + {id}
    {
      var stop := new Stop(position, None, None);
      var added := AddStop(stop);
      id := added.stopId.value;
    }

    /** `add_route`. A falsy `route_id` becomes `max([0] + keys) + 1`; a
        route whose id is taken returns the stored route and changes
        nothing else. A new route gets its id as the default short and long
        name; without stop ids it gets the ids of the stops at its
        positions, added as needed; then it is stored under its id. */
    method AddRoute(route: Route) returns (r: Route)
      requires Valid()
      modifies this`stops, this`stopsIndex, this`routes
      modifies route`routeId, route`shortName, route`longName, route`stopIds
      ensures Valid() && Extends(old(stops), old(stopsIndex))
      ensures route.routeId.Some?
      ensures TruthyId(old(route.routeId)) ==> route.routeId == old(route.routeId)
      ensures !TruthyId(old(route.routeId)) ==>
                IsMaxKey(route.routeId.value - 1, old(routes.Keys)) && route.routeId.value !in old(routes)
      ensures route.routeId.value in old(routes) ==>
                && r == old(routes[route.routeId.value])
                && routes == old(routes) && stops == old(stops) && stopsIndex == old(stopsIndex)
                && unchanged(route)
      ensures route.routeId.value !in old(routes) ==>
                && r == route
                && routes == old(routes)[route.routeId.value := route]
                && route.shortName == LabelOr(old(route.shortName), Number(route.routeId.value))
                && route.longName == LabelOr(old(route.longName), Number(route.routeId.value))
      ensures route.routeId.value !in old(routes) && old(route.stopIds) != [] ==>
                route.stopIds == old(route.stopIds) && stops == old(stops) && stopsIndex == old(stopsIndex)
      ensures route.routeId.value !in old(routes) && old(route.stopIds) == [] ==>
                && StopsAt(route.coordinates, route.stopIds)
                && stopsIndex.Keys == old(stopsIndex.Keys) + Sequences.Firsts(route.coordinates, |route.coordinates|)
                && stops.Keys == old(stops.Keys) + Sequences.Firsts(route.stopIds, |route.stopIds|)
    {
      var id;
      if TruthyId(route.routeId) {
        id := route.routeId.value;
      } else {
        var m := MaxKey(routes.Keys);
        id := m + 1;
        route.routeId := Some(id);
      }
      if id in routes {
        return routes[id];
      }
      r := StoreRoute(route, id);
    }

    /** A route whose id is not a key is not stored. */
    lemma RouteUnstored(route: Route)
      requires Valid() && route.routeId.Some? && route.routeId.value !in routes
      ensures forall k :: k in routes ==> routes[k] != route
    {
    }

    /** The rest of `add_route` for a new route: default names, stop ids
        where missing, and the dictionary entry. */
    method StoreRoute(route: Route, id: int) returns (r: Route)
      requires Valid() && id != 0 && id !in routes && route.routeId == Some(id)
      modifies this`stops, this`stopsIndex, this`routes
      modifies route`shortName, route`longName, route`stopIds
      ensures Valid() && Extends(old(stops), old(stopsIndex))
      ensures r == route && routes == old(routes)[id := route]
      ensures route.shortName == LabelOr(old(route.shortName), Number(id))
      ensures route.longName == LabelOr(old(route.longName), Number(id))
      ensures old(route.stopIds) != [] ==>
                route.stopIds == old(route.stopIds) && stops == old(stops) && stopsIndex == old(stopsIndex)
      ensures old(route.stopIds) == [] ==>
                && StopsAt(route.coordinates, route.stopIds)
                && stopsIndex.Keys == old(stopsIndex.Keys) + Sequences.Firsts(route.coordinates, |route.coordinates|)
                && stops.Keys == old(stops.Keys) + Sequences.Firsts(route.stopIds, |route.stopIds|)
    {
      RouteUnstored(route);
      route.shortName := LabelOr(route.shortName, Number(id));
      route.longName := LabelOr(route.longName, Number(id));
      FillStops(route);
      routes := routes[id := route];
      r := route;
    }

    /** `if not route.stop_ids`: a route without stop ids gets the ids of
        the stops at its positions. */
    method FillStops(route: Route)
      requires Valid()
      modifies this`stops, this`stopsIndex, route`stopIds
      ensures Valid() && Extends(old(stops), old(stopsIndex))
      ensures old(route.stopIds) != [] ==>
                route.stopIds == old(route.stopIds) && stops == old(stops) && stopsIndex == old(stopsIndex)
      ensures old(route.stopIds) == [] ==>
                && StopsAt(route.coordinates, route.stopIds)
                && stopsIndex.Keys == old(stopsIndex.Keys) + Sequences.Firsts(route.coordinates, |route.coordinates|)
                && stops.Keys == old(stops.Keys) + Sequences.Firsts(route.stopIds, |route.stopIds|)
    {
      if route.stopIds == [] {
        var ids := IndexStops(route.coordinates);
        route.stopIds := ids;
      }
    }

    /** `_assign_trip_ids`, with `values` the order in which
        `self.routes.values()` lists the routes. Afterwards every trip has
        an id; the ids already set stay; the trips that had none get
        distinct ids from `max([0] + truthy ids) + 1` on, as many as there
        are such trips, and none of them equals an id already set. */
    method AssignTripIds(values: seq<Route>)
      requires forall k :: k in routes ==> routes[k] in values
      requires forall j :: 0 <= j < |values| ==> exists k :: k in routes && routes[k] == values[j]
      modifies Flatten(values)`tripId
      ensures TripsNumbered(Flatten(values), old(TripIds(Flatten(values))), TripIds(Flatten(values)),
                            old(FirstFreeId(Flatten(values))))
      ensures forall k, l ::
                (0 <= k < |Flatten(values)| && 0 <= l < |Flatten(values)| &&
                 old(TripIds(Flatten(values)))[k].None? && TruthyId(old(TripIds(Flatten(values)))[l])) ==>
                TripIds(Flatten(values))[k] != old(TripIds(Flatten(values)))[l]
    {
      var ids := [];
      for i := 0 to |values|
        invariant ids == TripIds(Flatten(values[..i]))
      {
        assert values[..i + 1][..i] == values[..i];
        ids := ids + TripIds(values[i].trips);
      }
      assert values[..|values|] == values;
      var count := MaxOf([0] + TruthyIds(ids)) + 1;
      FreshIds(Flatten(values));
      NumberTrips(values, count);
    }
  }

  /** `max([0] + filter(None, ids)) + 1` over the trips' ids. */
  ghost function FirstFreeId(trips: seq<Trip>): int
    reads trips`tripId
  {
    MaxOf([0] + TruthyIds(TripIds(trips))) + 1
  }

  /** The first free id is positive and above every truthy id. */
  lemma FreshIds(trips: seq<Trip>)
    ensures FirstFreeId(trips) >= 1
    ensures forall k :: 0 <= k < |trips| && TruthyId(trips[k].tripId) ==> trips[k].tripId.value < FirstFreeId(trips)
  {
    var ids := TripIds(trips);
    forall k | 0 <= k < |trips| && TruthyId(trips[k].tripId)
      ensures trips[k].tripId.value < FirstFreeId(trips)
    {
      assert ids[k] == trips[k].tripId;
      assert trips[k].tripId.value in TruthyIds(ids);
      assert trips[k].tripId.value in [0] + TruthyIds(ids);
    }
    assert 0 in [0] + TruthyIds(ids);
  }

  /** The trips whose id was `None`. */
  function Untagged(trips: seq<Trip>, before: seq<Option<int>>): set<Trip>
    requires |before| == |trips|
  {
    set k | 0 <= k < |trips| && before[k].None? :: trips[k]
  }

  /** From the ids `before` to the ids `after` of the same trips: every
      trip has an id, the ids that were set are kept, and the trips that
      had none got distinct ids in `start .. start + |Untagged(trips, before)| - 1`. */
  ghost predicate TripsNumbered(trips: seq<Trip>, before: seq<Option<int>>, after: seq<Option<int>>, start: int)
  {
    && |before| == |trips| && |after| == |trips|
    && (forall k :: 0 <= k < |trips| ==> after[k].Some?)
    && (forall k :: 0 <= k < |trips| && before[k].Some? ==> after[k] == before[k])
    && (forall k :: 0 <= k < |trips| && before[k].None? ==>
          start <= after[k].value < start + |Untagged(trips, before)|)
    && (forall k, l ::
          (0 <= k < |trips| && 0 <= l < |trips| && trips[k] != trips[l] &&
           before[k].None? && before[l].None?) ==> after[k] != after[l])
  }

  /** The ids once trip `t` has been given `id`: every place where `t`
      occurs changes. */
  function Retag(trips: seq<Trip>, ids: seq<Option<int>>, t: Trip, id: int): (r: seq<Option<int>>)
    requires |ids| == |trips|
    ensures |r| == |ids|
    ensures forall k :: 0 <= k < |ids| ==> r[k] == if trips[k] == t then Some(id) else ids[k]
  {
    seq(|ids|, k requires 0 <= k < |ids| => if trips[k] == t then Some(id) else ids[k])
  }

  /** The numbering has reached position `n` of `trips`, whose ids were
      `before` and are `ids`: the trips in `tagged` had no id and got ids
      in `start .. count - 1`, `owner` telling which trip got which, one
      id each; every other trip keeps its id; every trip before position
      `n` has an id, and those that had none are tagged. */
  ghost predicate Progress(trips: seq<Trip>, before: seq<Option<int>>, ids: seq<Option<int>>,
                           tagged: set<Trip>, owner: map<int, Trip>, start: int, count: int, n: int)
  {
    && |before| == |trips| && |ids| == |trips| && 0 <= n <= |trips|
    && start <= count && |tagged| == count - start
    && (forall t :: t in tagged ==> t in trips)
    && (forall id :: id in owner <==> start <= id < count)
    && (forall k :: 0 <= k < |trips| && trips[k] in tagged ==>
          && before[k].None? && ids[k].Some?
          && ids[k].value in owner && owner[ids[k].value] == trips[k])
    && (forall k :: 0 <= k < |trips| && trips[k] !in tagged ==> ids[k] == before[k])
    && (forall k :: 0 <= k < n ==> ids[k].Some?)
    && (forall k :: 0 <= k < n && before[k].None? ==> trips[k] in tagged)
  }

  /** A trip without an id gets `count`. */
  lemma TagStep(trips: seq<Trip>, before: seq<Option<int>>, ids: seq<Option<int>>,
                tagged: set<Trip>, owner: map<int, Trip>, start: int, count: int, n: int, t: Trip)
    requires Progress(trips, before, ids, tagged, owner, start, count, n) && n < |trips| && ids[n].None?
    requires t == trips[n] && forall k :: 0 <= k < |trips| && trips[k] == t ==> ids[k] == ids[n]
    ensures Progress(trips, before, Retag(trips, ids, t, count), tagged + {t}, owner[count := t], start, count + 1, n + 1)
  {
    var ids' := Retag(trips, ids, t, count);
    var tagged' := tagged + {t};
    var owner' := owner[count := t];
    assert t !in tagged;
    assert |tagged'| == |tagged| + 1;
    forall k | 0 <= k < |trips| && trips[k] in tagged'
      ensures before[k].None? && ids'[k].Some? && ids'[k].value in owner' && owner'[ids'[k].value] == trips[k]
    {
      if trips[k] == t {
        assert ids[k] == ids[n] == before[k];
      } else {
        assert ids[k].value < count;
      }
    }
  }

  /** A trip with an id is passed over. */
  lemma SkipStep(trips: seq<Trip>, before: seq<Option<int>>, ids: seq<Option<int>>,
                 tagged: set<Trip>, owner: map<int, Trip>, start: int, count: int, n: int)
    requires Progress(trips, before, ids, tagged, owner, start, count, n) && n < |trips| && ids[n].Some?
    ensures Progress(trips, before, ids, tagged, owner, start, count, n + 1)
  {
    if before[n].None? {
      assert trips[n] in tagged;
    }
  }

  /** Numbering every position numbers the trips. */
  lemma ProgressDone(trips: seq<Trip>, before: seq<Option<int>>, ids: seq<Option<int>>,
                     tagged: set<Trip>, owner: map<int, Trip>, start: int, count: int)
    requires Progress(trips, before, ids, tagged, owner, start, count, |trips|)
    ensures TripsNumbered(trips, before, ids, start)
  {
    assert tagged == Untagged(trips, before);
    forall k, l | 0 <= k < |trips| && 0 <= l < |trips| && trips[k] != trips[l] && before[k].None? && before[l].None?
      ensures ids[k] != ids[l]
    {
      assert trips[k] in tagged && trips[l] in tagged;
    }
  }

  /** The numbering loops of `_assign_trip_ids`: every trip whose id is
      `None`, in route order, gets the running `count`. */
  method NumberTrips(values: seq<Route>, start: int)
    modifies Flatten(values)`tripId
    ensures TripsNumbered(Flatten(values), old(TripIds(Flatten(values))), TripIds(Flatten(values)), start)
  {
    ghost var all := Flatten(values);
    ghost var before := TripIds(all);
    ghost var ids := before;
    var count := start;
    ghost var tagged: set<Trip> := {};
    ghost var owner: map<int, Trip> := map[];
    ghost var n := 0;
    for i := 0 to |values|
      invariant n == |Flatten(values[..i])| && Flatten(values) == all
      invariant |ids| == |all| && forall k :: 0 <= k < |all| ==> all[k].tripId == ids[k]
      invariant Progress(all, before, ids, tagged, owner, start, count, n)
    {
      FlattenSlice(values, i);
      count, ids, tagged, owner, n := NumberRouteAt(values, i, values[i].trips, all, before, ids, tagged, owner, start, count, n);
    }
    assert values[..|values|] == values;
    assert TripIds(all) == ids;
    ProgressDone(all, before, ids, tagged, owner, start, count);
  }

  /** One pass of the outer loop of `_assign_trip_ids`, over route `i`,
      whose trips `trips` follow the first `n` trips. */
  method NumberRouteAt(values: seq<Route>, i: nat, trips: seq<Trip>, ghost all: seq<Trip>,
                       ghost before: seq<Option<int>>, ghost ids: seq<Option<int>>, ghost tagged: set<Trip>,
                       ghost owner: map<int, Trip>, start: int, count: int, ghost n: int)
    returns (count': int, ghost ids': seq<Option<int>>, ghost tagged': set<Trip>, ghost owner': map<int, Trip>,
             ghost n': int)
    requires i < |values| && trips == values[i].trips
    requires n == |Flatten(values[..i])| && Flatten(values) == all
    requires Flatten(values[..i + 1]) == Flatten(values[..i]) + trips && |Flatten(values[..i + 1])| <= |all|
    requires all[n..|Flatten(values[..i + 1])|] == trips
    requires |ids| == |all| && forall k :: 0 <= k < |all| ==> all[k].tripId == ids[k]
    requires Progress(all, before, ids, tagged, owner, start, count, n)
    modifies trips`tripId
    ensures n' == |Flatten(values[..i + 1])| && Flatten(values) == all
    ensures |ids'| == |all| && forall k :: 0 <= k < |all| ==> all[k].tripId == ids'[k]
    ensures Progress(all, before, ids', tagged', owner', start, count', n')
  {
    count', ids', tagged', owner' := NumberRoute(trips, all, before, ids, tagged, owner, start, count, n);
    n' := n + |trips|;
  }

  /** The inner loop of `_assign_trip_ids`, over the trips of one route,
      which sit at position `n` of all the trips. */
  method NumberRoute(trips: seq<Trip>, ghost all: seq<Trip>, ghost before: seq<Option<int>>,
                     ghost ids: seq<Option<int>>, ghost tagged: set<Trip>, ghost owner: map<int, Trip>,
                     start: int, count: int, ghost n: int)
    returns (count': int, ghost ids': seq<Option<int>>, ghost tagged': set<Trip>, ghost owner': map<int, Trip>)
    requires 0 <= n && n + |trips| <= |all| && all[n..n + |trips|] == trips
    requires |ids| == |all| && forall k :: 0 <= k < |all| ==> all[k].tripId == ids[k]
    requires Progress(all, before, ids, tagged, owner, start, count, n)
    modifies trips`tripId
    ensures |ids'| == |all| && forall k :: 0 <= k < |all| ==> all[k].tripId == ids'[k]
    ensures Progress(all, before, ids', tagged', owner', start, count', n + |trips|)
  {
    count', ids', tagged', owner' := count, ids, tagged, owner;
    for j := 0 to |trips|
      invariant |ids'| == |all| && forall k :: 0 <= k < |all| ==> all[k].tripId == ids'[k]
      invariant Progress(all, before, ids', tagged', owner', start, count', n + j)
    {
      var trip := trips[j];
      ghost var at := n + j;
      assert trip == all[n..n + |trips|][j] == all[at];
      if trip.tripId.None? {
        assert forall k :: 0 <= k < |all| && all[k] == trip ==> ids'[k] == ids'[at];
        TagStep(all, before, ids', tagged', owner', start, count', at, trip);
        ids' := Retag(all, ids', trip, count');
        owner' := owner'[count' := trip];
        trip.tripId := Some(count');
        count' := count' + 1;
        tagged' := tagged' + {trip};
      } else {
        SkipStep(all, before, ids', tagged', owner', start, count', at);
      }
    }
  }

  /** The trips of route `i` follow those of the routes before it. */
  lemma FlattenSlice(values: seq<Route>, i: int)
    requires 0 <= i < |values|
    ensures Flatten(values[..i + 1]) == Flatten(values[..i]) + values[i].trips
    ensures |Flatten(values[..i + 1])| <= |Flatten(values)|
    ensures Flatten(values)[|Flatten(values[..i])|..|Flatten(values[..i + 1])|] == values[i].trips
  {
    assert values[..i + 1][..i] == values[..i];
    FlattenPrefix(values, i + 1);
  }

  /** The trips of the first `i` routes are a prefix of the trips of all. */
  lemma {:induction false} FlattenPrefix(values: seq<Route>, i: int)
    requires 0 <= i <= |values|
    ensures Flatten(values[..i]) <= Flatten(values)
    decreases |values| - i
  {
    if i < |values| {
      FlattenPrefix(values, i + 1);
      assert values[..i + 1][..i] == values[..i];
    } else {
      assert values[..i] == values;
    }
  }
}
