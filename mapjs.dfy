/** The older front end, `gtfsControl`: it numbers the route features it
    loads, computes each route's Level of Service for a window, and paints
    one layer per route, styled by its LOS, in ascending LOS order. */
module MapJs {
  import opened Wrappers
  import opened Sequences
  import opened StableSort
  import opened LevelOfService

  /** One row of this front end's `LOS` table. */
  datatype LosRow = LosRow(name: string, legend: string, bucket: Interval, color: string, opacity: real, width: real)

  /** The palette after `.reverse()`: index 0 is the blue of the best service. */
  const Colors: seq<string> := ["#4575b4", "#91bfdb", "#e0f3f8", "#fee090", "#fc8d59", "#d73027"]

  const Table: seq<LosRow> := [
    LosRow(" ", "None", Interval(7200, Infinity), "#ccc", 1.0, 1.0),
    LosRow("F", ">60m", Interval(3600, At(7200)), Colors[5], 1.0, 1.0),
    LosRow("E", "60m", Interval(1800, At(3600)), Colors[4], 1.0, 1.0),
    LosRow("D", "30m", Interval(1200, At(1800)), Colors[3], 1.0, 1.0),
    LosRow("C", "20m", Interval(900, At(1200)), Colors[2], 1.0, 1.0),
    LosRow("B", "15m", Interval(600, At(900)), Colors[1], 1.0, 1.0),
    LosRow("A", "10m", Interval(-1, At(600)), Colors[0], 1.0, 1.0)
  ]

  /** The table has the classifier's seven contiguous buckets, so every
      index the classifier returns names a row; every row is opaque. */
  lemma TableMatchesBounds()
    ensures |Table| == |Bounds|
    ensures forall i :: 0 <= i < |Table| ==> Table[i].bucket == Bounds[i]
    ensures Contiguous(Bounds)
    ensures forall i :: 0 <= i < |Table| ==> Table[i].opacity == 1.0
    ensures forall i :: 1 <= i < |Table| ==> Table[i].color == Colors[|Table| - 1 - i]
  {
    BoundsContiguous();
  }

  /** What `redraw_routes` gives a route's layer: its style, and the index
      that names its class `route route-<index>`. */
  datatype Layer = Layer(color: string, opacity: real, index: int)

  /** A GeoJSON route feature; `add_gtfs`, `redraw` and `redraw_routes` set
      its `source`, `i`, `los` and `layer`. */
  class Route {
    const tripStarts: seq<int>
    var source: string
    var i: int
    var los: nat
    var layer: Option<Layer>

    /** A parsed feature: nothing is set yet (`los` reads as 0 here,
        `undefined` in the source). */
    constructor (tripStarts: seq<int>)
      ensures this.tripStarts == tripStarts
      ensures source == "" && i == 0 && los == 0 && layer == None
    {
      this.tripStarts := tripStarts;
      source := "";
      i := 0;
      los := 0;
      layer := None;
    }
  }

  /** The layer of a route with LOS `los` and index `i`: the colour and
      opacity of its table row. */
  function LayerFor(los: nat, i: int): Layer
    requires los < |Table|
  {
    Layer(Table[los].color, Table[los].opacity, i)
  }

  /** The routes paired with their `los`, the key `redraw_routes` compares. */
  function Keyed(routes: seq<Route>): (r: seq<(int, Route)>)
    reads routes`los
    ensures |r| == |routes|
    ensures forall q :: 0 <= q < |routes| ==> r[q] == (routes[q].los, routes[q])
  {
    if routes == [] then []
    else [(routes[0].los, routes[0])] + Keyed(routes[1..])
  }

  function KeyOf(p: (int, Route)): int
  {
    p.0
  }

  function RouteOf(p: (int, Route)): Route
  {
    p.1
  }

  /** The pairs carry their route's current `los`. */
  ghost predicate KeyedRight(ps: seq<(int, Route)>)
    reads (set q | 0 <= q < |ps| :: ps[q].1)`los
  {
    forall q :: 0 <= q < |ps| ==> ps[q].0 == ps[q].1.los
  }

  /** The routes whose `los` is `k`, in their order. */
  ghost function WithLos(routes: seq<Route>, k: int): (r: seq<Route>)
    reads routes`los
  {
    if routes == [] then []
    else (if routes[0].los == k then [routes[0]] else []) + WithLos(routes[1..], k)
  }

  /** Routes in non-decreasing `los`. */
  ghost predicate LosAscending(routes: seq<Route>)
    reads routes`los
  {
    forall a, b :: 0 <= a < b < |routes| ==> routes[a].los <= routes[b].los
  }

  /** Dropping the keys of correctly keyed pairs commutes with picking
      one key. */
  lemma {:induction false} WithKeyRoutes(ps: seq<(int, Route)>, k: int)
    requires KeyedRight(ps)
    ensures Map(WithKey(ps, KeyOf, k), RouteOf) == WithLos(Map(ps, RouteOf), k)
  {
    if ps != [] {
      WithKeyRoutes(ps[1..], k);
      var rs := Map(ps, RouteOf);
      assert rs[1..] == Map(ps[1..], RouteOf);
      var head := if KeyOf(ps[0]) == k then [ps[0]] else [];
      MapConcat(head, WithKey(ps[1..], KeyOf, k), RouteOf);
    }
  }

  /** The layer order `redraw_routes` builds: `slice(0)` sorted by `los`.
      It is a rearrangement of the routes, ascending in `los`, and routes
      of equal `los` keep their order. */
  lemma SortedRoutes(routes: seq<Route>)
    ensures multiset(Map(SortBy(Keyed(routes), KeyOf), RouteOf)) == multiset(routes)
    ensures LosAscending(Map(SortBy(Keyed(routes), KeyOf), RouteOf))
    ensures forall k :: WithLos(Map(SortBy(Keyed(routes), KeyOf), RouteOf), k) == WithLos(routes, k)
  {
    SortedRoutesPermuted(routes);
    SortedRoutesAscending(routes);
    SortedRoutesStable(routes);
  }

  /** The sort keeps every route, as often as it occurs. */
  lemma SortedRoutesPermuted(routes: seq<Route>)
    ensures multiset(Map(SortBy(Keyed(routes), KeyOf), RouteOf)) == multiset(routes)
  {
    var keyed := Keyed(routes);
    MapMultiset(keyed, SortBy(keyed, KeyOf), RouteOf);
    assert Map(keyed, RouteOf) == routes;
  }

  /** The sorted routes ascend in `los`. */
  lemma SortedRoutesAscending(routes: seq<Route>)
    ensures LosAscending(Map(SortBy(Keyed(routes), KeyOf), RouteOf))
  {
    var keyed := Keyed(routes);
    SortByIsSorted(keyed, KeyOf);
    SortedKeyedRight(keyed);
    SortedAscending(SortBy(keyed, KeyOf));
  }

  /** Routes of equal `los` keep their order through the sort. */
  lemma SortedRoutesStable(routes: seq<Route>)
    ensures forall k :: WithLos(Map(SortBy(Keyed(routes), KeyOf), RouteOf), k) == WithLos(routes, k)
  {
    var keyed := Keyed(routes);
    var sorted := SortBy(keyed, KeyOf);
    assert Map(keyed, RouteOf) == routes;
    SortedKeyedRight(keyed);
    forall k ensures WithLos(Map(sorted, RouteOf), k) == WithLos(routes, k) {
      SortByIsStable(keyed, KeyOf, k);
      WithKeyRoutes(keyed, k);
      WithKeyRoutes(sorted, k);
    }
  }

  /** Sorting keeps every pair, so each still carries its route's `los`. */
  lemma SortedKeyedRight(ps: seq<(int, Route)>)
    requires KeyedRight(ps)
    ensures KeyedRight(SortBy(ps, KeyOf))
  {
    var sorted := SortBy(ps, KeyOf);
    forall q | 0 <= q < |sorted| ensures sorted[q].0 == sorted[q].1.los {
      assert sorted[q] in multiset(ps);
    }
  }

  lemma SortedAscending(ps: seq<(int, Route)>)
    requires KeyedRight(ps) && Sorted(ps, KeyOf)
    ensures LosAscending(Map(ps, RouteOf))
  {
  }

  /** No entry of `s` after `k` and before `n` is the object at `k`. */
  predicate LastBefore(s: seq<Route>, k: int, n: int)
    requires 0 <= k < |s| && n <= |s|
  {
    forall l :: k < l < n ==> s[l] != s[k]
  }

  /** The features before `k` carry the source `uri`, and each one's last
      occurrence before `k` carries its position counted from `base`. */
  ghost predicate Stamped(features: seq<Route>, uri: string, base: int, k: nat)
    requires k <= |features|
    reads features
  {
    (forall j :: 0 <= j < k ==> features[j].source == uri) &&
    forall j :: 0 <= j < k && LastBefore(features, j, k) ==> features[j].i == base + j
  }

  /** `order` is `routes` rearranged into ascending `los`, routes of equal
      `los` in their order in `routes`. */
  ghost predicate Arranged(order: seq<Route>, routes: seq<Route>)
    reads order`los, routes`los
  {
    && multiset(order) == multiset(routes)
    && LosAscending(order)
    && (forall k :: WithLos(order, k) == WithLos(routes, k))
  }

  /** The sorted copy is `routes` arranged. */
  lemma SortedArranged(routes: seq<Route>)
    ensures Arranged(Map(SortBy(Keyed(routes), KeyOf), RouteOf), routes)
  {
    SortedRoutes(routes);
  }

  /** The sorted copy holds only routes of `routes`. */
  lemma SortedMembers(routes: seq<Route>)
    requires forall k :: 0 <= k < |routes| ==> routes[k].los < |Table|
    ensures forall k :: 0 <= k < |routes| ==>
              Map(SortBy(Keyed(routes), KeyOf), RouteOf)[k] in routes &&
              Map(SortBy(Keyed(routes), KeyOf), RouteOf)[k].los < |Table|
  {
    var sorted := Map(SortBy(Keyed(routes), KeyOf), RouteOf);
    SortedRoutes(routes);
    forall k | 0 <= k < |sorted| ensures sorted[k] in routes && sorted[k].los < |Table| {
      assert sorted[k] in multiset(routes);
    }
  }

  /** Every route of `routes` has the layer of its row. */
  ghost predicate Styled(routes: seq<Route>)
    reads routes`los, routes`layer, routes`i
  {
    forall k :: 0 <= k < |routes| ==>
      routes[k].los < |Table| && routes[k].layer == Some(LayerFor(routes[k].los, routes[k].i))
  }

  lemma StyledPermuted(a: seq<Route>, b: seq<Route>)
    requires multiset(a) == multiset(b) && Styled(a)
    ensures Styled(b)
  {
    forall k | 0 <= k < |b| ensures b[k].los < |Table| && b[k].layer == Some(LayerFor(b[k].los, b[k].i)) {
      assert b[k] in multiset(a);
    }
  }

  class GtfsControl {
    /** The running feature index. */
    var i: int
    var routes: seq<Route>
    /** The contents of the layer group, in the order the layers were added. */
    var painted: seq<Route>

    constructor ()
      ensures i == 0 && routes == [] && painted == []
    {
      i := 0;
      routes := [];
      painted := [];
    }

    /** `add_gtfs`: every feature, in input order, gets the source and the
        running index and is appended to `routes`; then `redraw` runs with
        the default window. A feature listed twice keeps the index of its
        last place. */
    method AddGtfs(uri: string, features: seq<Route>)
      modifies this, features`source, features`i
      modifies routes`los, routes`layer, features`los, features`layer
      ensures routes == old(routes) + features
      ensures i == old(i) + |features|
      ensures forall k :: 0 <= k < |features| ==> features[k].source == uri
      ensures forall k :: 0 <= k < |features| && LastBefore(features, k, |features|) ==> features[k].i == old(i) + k
      ensures forall k :: 0 <= k < |routes| ==>
                routes[k].los == WindowLos(routes[k].tripStarts, 7 * 3600, 9 * 3600)
      ensures Painted()
    {
      Append(uri, features);
      Redraw(None, None);
    }

    /** The loop of `add_gtfs`. */
    method Append(uri: string, features: seq<Route>)
      modifies this`i, this`routes, features`source, features`i
      ensures routes == old(routes) + features
      ensures i == old(i) + |features|
      ensures forall k :: 0 <= k < |features| ==> features[k].source == uri
      ensures forall k :: 0 <= k < |features| && LastBefore(features, k, |features|) ==> features[k].i == old(i) + k
    {
      var n := i;
      var added := routes;
      for k := 0 to |features|
        invariant n == old(i) + k && added == old(routes) + features[..k]
        invariant Stamped(features, uri, old(i), k)
      {
        var route := features[k];
        Stamp(route, features, k, uri, n, old(i));
        n := n + 1;
        TakeOneMore(features, k);
        AppendAssoc(old(routes), features[..k], [route]);
        added := added + [route];
      }
      assert features[..|features|] == features;
      i := n;
      routes := added;
    }

    /** The body of that loop for the feature at position `k`:
        `feature.source = uri; feature.i = this.i++`. */
    static method Stamp(route: Route, ghost features: seq<Route>, ghost k: nat, uri: string, n: int, ghost base: int)
      requires k < |features| && features[k] == route && n == base + k
      requires Stamped(features, uri, base, k)
      modifies route`source, route`i
      ensures Stamped(features, uri, base, k + 1)
    {
      route.source := uri;
      route.i := n;
    }

    /** `calc_los` with `start || 7*3600` and `end || 9*3600`: the table
        index of the headway of the departures in the window. */
    static method CalcLos(route: Route, start: Option<int>, end: Option<int>) returns (los: nat)
      ensures los < |Table|
      ensures los == WindowLos(route.tripStarts, OrDefault(start, 7 * 3600), OrDefault(end, 9 * 3600))
      ensures (start.None? || start.value == 0) && (end.None? || end.value == 0) ==>
                los == WindowLos(route.tripStarts, 7 * 3600, 9 * 3600)
    {
      var s := OrDefault(start, 7 * 3600);
      var e := OrDefault(end, 9 * 3600);
      var starts := CalcTrips(route.tripStarts, s, e);
      los := FindLos(HeadwayOf(e - s, |starts|));
    }

    /** The layers are exactly the routes, ascending in `los` with equal
        `los` in route order, each styled by the table row of its `los`. */
    ghost predicate Painted()
      reads this`routes, this`painted, routes`los, routes`layer, routes`i, painted`los
    {
      && Arranged(painted, routes)
      && Styled(routes)
    }

    /** `redraw`: every route gets the LOS of the window, in place, and the
        layers are repainted; `routes` keeps its order. */
    method Redraw(start: Option<int>, end: Option<int>)
      modifies routes`los, routes`layer, this`painted
      ensures routes == old(routes)
      ensures forall k :: 0 <= k < |routes| ==>
                routes[k].los == WindowLos(routes[k].tripStarts, OrDefault(start, 7 * 3600), OrDefault(end, 9 * 3600))
      ensures Painted()
    {
      for k := 0 to |routes|
        invariant forall j :: 0 <= j < k ==>
                    routes[j].los == WindowLos(routes[j].tripStarts, OrDefault(start, 7 * 3600), OrDefault(end, 9 * 3600))
      {
        var los := CalcLos(routes[k], start, end);
        routes[k].los := los;
      }
      RedrawRoutes();
    }

    /** `redraw_routes`: the layer group is cleared and refilled from a
        sorted copy of `routes`, each route getting the layer of its row. */
    method RedrawRoutes()
      requires forall k :: 0 <= k < |routes| ==> routes[k].los < |Table|
      modifies routes`layer, this`painted
      ensures Painted()
    {
      painted := Repaint(routes);
    }

    /** The body of `redraw_routes`: the sorted copy, its layers styled and
        added in order. */
    static method Repaint(routes: seq<Route>) returns (sorted: seq<Route>)
      requires forall k :: 0 <= k < |routes| ==> routes[k].los < |Table|
      modifies routes`layer
      ensures Arranged(sorted, routes) && Styled(routes)
    {
      sorted := SortedCopy(routes);
      StyleLayers(sorted);
      assert Arranged(sorted, routes);
      StyledPermuted(sorted, routes);
    }

    /** `routes.slice(0).sort((a, b) => a.los - b.los)`: a stable sort by
        `los`, which leaves the routes themselves alone. */
    static method SortedCopy(routes: seq<Route>) returns (sorted: seq<Route>)
      requires forall k :: 0 <= k < |routes| ==> routes[k].los < |Table|
      ensures Arranged(sorted, routes)
      ensures forall k :: 0 <= k < |sorted| ==> sorted[k] in routes && sorted[k].los < |Table|
    {
      sorted := Map(SortBy(Keyed(routes), KeyOf), RouteOf);
      SortedArranged(routes);
      SortedMembers(routes);
    }

    /** One styled layer per route of `sorted`, added in that order (the
        group itself is `painted`). */
    static method StyleLayers(sorted: seq<Route>)
      requires forall k :: 0 <= k < |sorted| ==> sorted[k].los < |Table|
      modifies sorted`layer
      ensures Styled(sorted)
    {
      for k := 0 to |sorted|
        invariant forall j :: 0 <= j < k ==> sorted[j].layer == Some(LayerFor(sorted[j].los, sorted[j].i))
      {
        var route := sorted[k];
        route.layer := Some(LayerFor(route.los, route.i));
      }
    }
  }
}
