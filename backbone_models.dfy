/** The Backbone front end's data: the Level-of-Service table it colours
    with, the properties of a GeoJSON trip feature, and the `Trip` model
    whose `los`, `los_trips`, `color` and `display` attributes the
    application updates. */
module BackboneModels {
  import opened Wrappers
  import opened Sequences
  import opened LevelOfService

  /** One row of the `LOS` table. */
  datatype LosEntry = LosEntry(grade: string, legend: string, bucket: Interval, color: string)

  /** The palette after `.reverse()`: index 0 is the darkest blue. */
  const Colors: seq<string> := ["#08519c", "#3182bd", "#6baed6", "#9ecae1", "#c6dbef", "#eff3ff"]

  /** The colour of "No service", which is also a new trip's default colour. */
  const NoServiceColor: string := "#ccc"

  const Table: seq<LosEntry> := [
    LosEntry(" ", "No service", Interval(7200, Infinity), NoServiceColor),
    LosEntry("F", "F: >60 min", Interval(3600, At(7200)), Colors[5]),
    LosEntry("E", "E: 60 min", Interval(1800, At(3600)), Colors[4]),
    LosEntry("D", "D: 30 min", Interval(1200, At(1800)), Colors[3]),
    LosEntry("C", "C: 20 min", Interval(900, At(1200)), Colors[2]),
    LosEntry("B", "B: 15 min", Interval(600, At(900)), Colors[1]),
    LosEntry("A", "A: 10 min", Interval(-1, At(600)), Colors[0])
  ]

  /** The table's buckets are the classifier's, so an index `calc_los`
      returns always names a row; better service gets a darker blue. */
  lemma TableMatchesBounds()
    ensures |Table| == |Bounds|
    ensures forall i :: 0 <= i < |Table| ==> Table[i].bucket == Bounds[i]
    ensures Table[0].color == NoServiceColor && Table[0].legend == "No service"
    ensures forall i :: 1 <= i < |Table| ==> Table[i].color == Colors[|Table| - 1 - i]
  {
  }

  /** The feature properties a trip reads. */
  datatype Props = Props(
    routeShortName: string,
    routeLongName: string,
    directionId: int,
    routeType: int,
    tripHeadsign: string,
    tripStarts: seq<int>)

  /** A Leaflet path style; the optional members are set only for rail. */
  datatype Style = Style(
    weight: real,
    opacity: real,
    lineCap: string,
    color: string,
    dashArray: Option<string>,
    lineJoin: Option<string>)

  /** Route types 0, 1 and 2 (tram, subway, rail) in GTFS. */
  predicate IsRail(routeType: int)
  {
    routeType < 3
  }

  class Trip {
    const properties: Props
    var los: nat
    var losTrips: seq<int>
    var display: bool
    var color: string

    /** A new model takes the Backbone `defaults`. */
    constructor (properties: Props)
      ensures this.properties == properties
      ensures los == 0 && losTrips == [] && display && color == NoServiceColor
    {
      this.properties := properties;
      los := 0;
      losTrips := [];
      display := true;
      color := NoServiceColor;
    }

    /** `get_style`: an opaque butt-capped line in the trip's colour, thick
        and dashed for rail. */
    function GetStyle(): (s: Style)
      reads this`color
      ensures s.color == color && s.opacity == 1.0 && s.lineCap == "butt"
      ensures IsRail(properties.routeType) <==> s.dashArray.Some?
      ensures IsRail(properties.routeType) ==>
                s.weight == 10.0 && s.dashArray == Some("2,5") && s.lineJoin == Some("miter")
      ensures !IsRail(properties.routeType) ==> s.weight == 4.0 && s.lineJoin.None?
    {
      var base := Style(4.0, 1.0, "butt", color, None, None);
      if IsRail(properties.routeType) then
        base.(weight := 10.0, dashArray := Some("2,5"), lineJoin := Some("miter"))
      else base
    }

    /** `calc_los`: the table index of the headway of `starts` over the
        window; a headway of more than -1 lands in its unique bucket. */
    static method CalcLos(start: int, end: int, starts: seq<int>) returns (los: nat)
      ensures los < |Table|
      ensures los == Classify(HeadwayOf(end - start, |starts|))
      ensures Above(HeadwayOf(end - start, |starts|), -1) ==>
                InBucket(Table[los].bucket, HeadwayOf(end - start, |starts|))
      ensures !Above(HeadwayOf(end - start, |starts|), -1) ==> los == LastIndex
    {
      var h := HeadwayOf(end - start, |starts|);
      los := FindLos(h);
      if Above(h, -1) {
        ClassifyUniqueBucket(h);
      } else {
        ClassifyFallsThrough(h);
      }
    }

    /** `calc`: stores the departures inside the window, their LOS index
        and that row's colour; the display flag is untouched. */
    method Calc(start: int, end: int)
      modifies this`los, this`losTrips, this`color
      ensures losTrips == CalcTrips(properties.tripStarts, start, end)
      ensures los == WindowLos(properties.tripStarts, start, end)
      ensures color == Table[los].color
    {
      var trips := CalcTrips(properties.tripStarts, start, end);
      var l := CalcLos(start, end, trips);
      losTrips := trips;
      los := l;
      color := Table[l].color;
    }
  }

  /** The trips of a route, in collection order. */
  function Members(ts: seq<Trip>, name: string): (r: seq<Trip>)
    ensures |r| <= |ts|
  {
    if ts == [] then []
    else
      assert ts == [ts[0]] + ts[1..];
      (if ts[0].properties.routeShortName == name then [ts[0]] else []) + Members(ts[1..], name)
  }

  /** `add_trip`'s split: direction 1 goes to the outbound list. */
  function Outbound(ts: seq<Trip>): (r: seq<Trip>)
  {
    if ts == [] then []
    else
      assert ts == [ts[0]] + ts[1..];
      (if ts[0].properties.directionId == 1 then [ts[0]] else []) + Outbound(ts[1..])
  }

  function Inbound(ts: seq<Trip>): (r: seq<Trip>)
  {
    if ts == [] then []
    else
      assert ts == [ts[0]] + ts[1..];
      (if ts[0].properties.directionId != 1 then [ts[0]] else []) + Inbound(ts[1..])
  }

  lemma {:induction false} MembersAppend(ts: seq<Trip>, t: Trip, name: string)
    ensures Members(ts + [t], name)
         == Members(ts, name) + (if t.properties.routeShortName == name then [t] else [])
  {
    if ts == [] {
      assert [t][1..] == [];
    } else {
      assert (ts + [t])[1..] == ts[1..] + [t];
      MembersAppend(ts[1..], t, name);
    }
  }

  /** A trip is a member of a route exactly when it is in the list and
      carries the route's short name. */
  lemma {:induction false} MembersIn(ts: seq<Trip>, name: string, t: Trip)
    ensures t in Members(ts, name) <==> t in ts && t.properties.routeShortName == name
  {
    if ts != [] {
      MembersIn(ts[1..], name, t);
      assert ts == [ts[0]] + ts[1..];
    }
  }

  /** The two direction lists split the trips: direction 1 is outbound,
      every other value inbound. */
  lemma {:induction false} DirectionSplit(ts: seq<Trip>, t: Trip)
    ensures t in Outbound(ts) <==> t in ts && t.properties.directionId == 1
    ensures t in Inbound(ts) <==> t in ts && t.properties.directionId != 1
  {
    if ts != [] {
      DirectionSplit(ts[1..], t);
      assert ts == [ts[0]] + ts[1..];
    }
  }

  lemma {:induction false} MembersNone(ts: seq<Trip>, name: string)
    requires forall j :: 0 <= j < |ts| ==> ts[j].properties.routeShortName != name
    ensures Members(ts, name) == []
  {
    if ts != [] {
      MembersNone(ts[1..], name);
    }
  }

  lemma OutboundAppend(ts: seq<Trip>, t: Trip)
    ensures Outbound(ts + [t]) == Outbound(ts) + (if t.properties.directionId == 1 then [t] else [])
    ensures Inbound(ts + [t]) == Inbound(ts) + (if t.properties.directionId != 1 then [t] else [])
  {
    OutboundSnoc(ts, t);
    InboundSnoc(ts, t);
  }

  lemma {:induction false} OutboundSnoc(ts: seq<Trip>, t: Trip)
    ensures Outbound(ts + [t]) == Outbound(ts) + (if t.properties.directionId == 1 then [t] else [])
  {
    if ts == [] {
      assert [t][1..] == [];
    } else {
      assert (ts + [t])[1..] == ts[1..] + [t];
      OutboundSnoc(ts[1..], t);
      AppendAssoc(if ts[0].properties.directionId == 1 then [ts[0]] else [], Outbound(ts[1..]),
                  if t.properties.directionId == 1 then [t] else []);
    }
  }

  lemma {:induction false} InboundSnoc(ts: seq<Trip>, t: Trip)
    ensures Inbound(ts + [t]) == Inbound(ts) + (if t.properties.directionId != 1 then [t] else [])
  {
    if ts == [] {
      assert [t][1..] == [];
    } else {
      assert (ts + [t])[1..] == ts[1..] + [t];
      InboundSnoc(ts[1..], t);
      AppendAssoc(if ts[0].properties.directionId != 1 then [ts[0]] else [], Inbound(ts[1..]),
                  if t.properties.directionId != 1 then [t] else []);
    }
  }

  /** The trips of `ts` whose `display` is set: `collection.filter(...)`. */
  function Shown(ts: seq<Trip>): (r: seq<Trip>)
    reads ts`display
    ensures |r| <= |ts|
  {
    if ts == [] then []
    else (if ts[0].display then [ts[0]] else []) + Shown(ts[1..])
  }

  /** The filter keeps shown trips only; it keeps none exactly when none is
      shown, and all exactly when all are. */
  lemma {:induction false} ShownMeans(ts: seq<Trip>)
    ensures forall x :: x in Shown(ts) ==> x in ts && x.display
    ensures |Shown(ts)| == 0 <==> forall i :: 0 <= i < |ts| ==> !ts[i].display
    ensures |Shown(ts)| == |ts| <==> forall i :: 0 <= i < |ts| ==> ts[i].display
  {
    if ts != [] {
      ShownMeans(ts[1..]);
      assert ts == [ts[0]] + ts[1..];
      assert forall i :: 1 <= i < |ts| ==> ts[i] == ts[1..][i - 1];
    }
  }
}
