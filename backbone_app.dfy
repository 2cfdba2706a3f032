/** `TransvisorApp`, the controller of the Backbone front end: it groups the
    loaded trips into route panels, gives each trip a map layer, keeps
    the layers in Level-of-Service order, and runs the bulk display
    operations the panels trigger. */
module BackboneApp {
  import opened Wrappers
  import opened Sequences
  import opened StableSort
  import opened RouteOrder
  import opened LevelOfService
  import opened BackboneModels
  import opened BackboneViews

  function RouteKeyOf(r: RouteView): RouteKey
  {
    r.Key()
  }

  /** The route short names that have a panel. */
  function Names(routes: seq<RouteView>): set<string>
  {
    set i | 0 <= i < |routes| :: routes[i].shortName
  }

  /** The route short names the trips carry. */
  function TripNames(trips: seq<Trip>): set<string>
  {
    set j | 0 <= j < |trips| :: trips[j].properties.routeShortName
  }

  lemma TripNamesAppend(trips: seq<Trip>, t: Trip)
    ensures TripNames(trips + [t]) == TripNames(trips) + {t.properties.routeShortName}
  {
    var s := trips + [t];
    assert s[|trips|] == t;
    forall n | n in TripNames(trips) ensures n in TripNames(s) {
      var j :| 0 <= j < |trips| && trips[j].properties.routeShortName == n;
      assert s[j] == trips[j];
    }
  }

  function ModelOf(v: MapView): Trip
  {
    v.model
  }

  /** The trips the layers draw. */
  function Models(views: seq<MapView>): seq<Trip>
  {
    Map(views, ModelOf)
  }

  /** The panel `r` holds exactly the trips of its name, in load order, and
      is not empty. */
  ghost predicate Holds(r: RouteView, trips: seq<Trip>)
    reads r`collection
  {
    && r.routeSort == RouteSortKey(r.shortName)
    && r.collection == Members(trips, r.shortName)
    && r.collection != []
  }

  /** The panel `r` lists its trips by direction, as `add_trip` files them. */
  ghost predicate Split(r: RouteView)
    reads r`collection, r`inbound, r`outbound
  {
    r.inbound == Inbound(r.collection) && r.outbound == Outbound(r.collection)
  }

  /** `calc(start, end)` has run on `t`: its LOS is the window's, and its
      colour that LOS row's. */
  ghost predicate Calculated(t: Trip, start: int, end: int)
    reads t`los, t`color
  {
    t.los == WindowLos(t.properties.tripStarts, start, end) && t.los < |Table| && t.color == Table[t.los].color
  }

  /** One panel per route short name, sorted by `route_sort`. */
  ghost predicate Grouped(trips: seq<Trip>, routes: seq<RouteView>)
    reads routes`collection
  {
    && StrictlySorted(routes, RouteKeyOf)
    && (forall i :: 0 <= i < |routes| ==> Holds(routes[i], trips))
    && Names(routes) == TripNames(trips)
  }

  /** One layer per trip, painted in some order. */
  ghost predicate Layered(trips: seq<Trip>, views: seq<MapView>, paint: seq<MapView>)
  {
    && SameElements(Models(views), trips)
    && SameElements(paint, views)
  }

  /** `set_display` on a layer of `t` whose style was `s`: `show` takes the
      trip's style, `hide` merges opacity 0 into `s`. */
  function Restyled(t: Trip, s: Style): Style
    reads t`display, t`color
  {
    if t.display then t.GetStyle() else s.(opacity := 0.0)
  }

  /** The layer `v` is styled as its trip's display flag says. */
  ghost predicate Drawn(v: MapView)
    reads v`style, v.model`display, v.model`color
  {
    v.style == LayerStyle(v.model)
  }

  /** The layer `v` has its trip's style, apart from the opacity. */
  ghost predicate Styled(v: MapView)
    reads v`style, v.model`color
  {
    v.style.(opacity := 1.0) == v.model.GetStyle()
  }

  /** A route panel whose checkbox shows the tri-state of its trips. */
  ghost predicate RouteSync(r: RouteView)
    reads r`checked, r`indeterminate, r`collection, r.collection`display
  {
    r.Checkbox() == TriStateOf(r.collection)
  }

  /** What the panel's checkbox shows, and the tri-state its trips call for. */
  ghost function Look(r: RouteView): (TriState, TriState)
    reads r`checked, r`indeterminate, r`collection, r.collection`display
  {
    (r.Checkbox(), TriStateOf(r.collection))
  }

  /** Every panel's checkbox is checked. */
  ghost predicate AllChecked(routes: seq<RouteView>)
    reads routes`checked, routes`indeterminate
  {
    forall i :: 0 <= i < |routes| ==> routes[i].Checkbox() == Checked
  }

  lemma {:induction false} NamesDistinct(trips: seq<Trip>, routes: seq<RouteView>, i: int, j: int)
    requires Grouped(trips, routes)
    requires 0 <= i < |routes| && 0 <= j < |routes| && i != j
    ensures routes[i].shortName != routes[j].shortName
  {
    if routes[i].shortName == routes[j].shortName {
      assert RouteKeyOf(routes[i]) == RouteKeyOf(routes[j]);
      if i < j {
        assert KeyLess(RouteKeyOf(routes[i]), RouteKeyOf(routes[j]));
      } else {
        assert KeyLess(RouteKeyOf(routes[j]), RouteKeyOf(routes[i]));
      }
      KeyLessIrreflexive(RouteKeyOf(routes[i]));
    }
  }

  lemma NamesOfInsert(routes: seq<RouteView>, r: seq<RouteView>, v: RouteView)
    requires multiset(r) == multiset(routes) + multiset{v}
    ensures Names(r) == Names(routes) + {v.shortName}
    ensures forall i :: 0 <= i < |r| ==> r[i] == v || r[i] in routes
  {
    forall i | 0 <= i < |r| ensures r[i] == v || r[i] in routes {
      assert r[i] in multiset(r);
    }
    forall n | n in Names(routes) + {v.shortName} ensures n in Names(r) {
      if n == v.shortName {
        assert v in multiset(r);
      } else {
        var i :| 0 <= i < |routes| && routes[i].shortName == n;
        assert routes[i] in multiset(routes);
        assert routes[i] in multiset(r);
      }
    }
  }

  lemma HoldsAppend(r: RouteView, trips: seq<Trip>, t: Trip)
    requires Holds(r, trips) && r.shortName != t.properties.routeShortName
    ensures Holds(r, trips + [t])
  {
    MembersAppend(trips, t, r.shortName);
  }

  lemma OthersDiffer(trips: seq<Trip>, routes: seq<RouteView>, k: int)
    requires Grouped(trips, routes) && 0 <= k < |routes|
    ensures forall i :: 0 <= i < |routes| && routes[i] != routes[k] ==>
              Holds(routes[i], trips) && routes[i].shortName != routes[k].shortName
  {
    forall i | 0 <= i < |routes| && routes[i] != routes[k]
      ensures routes[i].shortName != routes[k].shortName
    {
      NamesDistinct(trips, routes, i, k);
    }
  }

  /** After inserting a panel for a new name, the old panels still hold
      their trips and carry other names. */
  lemma OthersHold(trips: seq<Trip>, before: seq<RouteView>, routes: seq<RouteView>, view: RouteView)
    requires Grouped(trips, before)
    requires view.shortName !in Names(before)
    requires forall i :: 0 <= i < |routes| ==> routes[i] == view || routes[i] in before
    ensures forall i :: 0 <= i < |routes| && routes[i] != view ==>
              Holds(routes[i], trips) && routes[i].shortName != view.shortName
  {
    forall i | 0 <= i < |routes| && routes[i] != view
      ensures Holds(routes[i], trips) && routes[i].shortName != view.shortName
    {
      var i0 :| 0 <= i0 < |before| && before[i0] == routes[i];
    }
  }

  /** Adding the trip `t` to the panel `view` of its name, when all other
      panels hold their trips and carry other names, groups the longer
      trip list. */
  lemma GroupedAfterAdd(prefix: seq<Trip>, t: Trip, routes: seq<RouteView>, view: RouteView)
    requires StrictlySorted(routes, RouteKeyOf)
    requires view.shortName == t.properties.routeShortName
    requires forall i :: 0 <= i < |routes| && routes[i] != view ==>
               Holds(routes[i], prefix) && routes[i].shortName != t.properties.routeShortName
    requires view.routeSort == RouteSortKey(view.shortName)
    requires view.collection == Members(prefix, view.shortName) + [t]
    requires Names(routes) == TripNames(prefix + [t])
    ensures Grouped(prefix + [t], routes)
  {
    forall i | 0 <= i < |routes| ensures Holds(routes[i], prefix + [t]) {
      if routes[i] == view {
        MembersAppend(prefix, t, view.shortName);
      } else {
        HoldsAppend(routes[i], prefix, t);
      }
    }
  }

  /** Appending a layer for a new trip keeps one layer per trip. */
  lemma LayeredAppend(trips: seq<Trip>, views: seq<MapView>, paint: seq<MapView>, v: MapView)
    requires Layered(trips, views, paint)
    ensures Layered(trips + [v.model], views + [v], paint + [v])
  {
    MapAppend(views, v, ModelOf);
    assert Models(views + [v]) == Models(views) + [v.model];
    SameElementsAppend(Models(views), trips, v.model);
    SameElementsAppend(paint, views, v);
  }

  /** Distinct trips have distinct layers. */
  lemma LayersDistinct(trips: seq<Trip>, views: seq<MapView>, paint: seq<MapView>)
    requires Layered(trips, views, paint) && Distinct(trips)
    ensures Distinct(Models(views)) && Distinct(views)
  {
    SameElementsMultiset(Models(views), trips);
    DistinctPermutation(trips, Models(views));
    forall i, j | 0 <= i < j < |views| ensures views[i] != views[j] {
      assert Models(views)[i] != Models(views)[j];
    }
  }

  /** The layers paired with the `los` of their trips, the key
      `reorder_layers` compares. */
  function Keyed(views: seq<MapView>): (r: seq<(int, MapView)>)
    reads set q | 0 <= q < |views| :: views[q].model
    ensures |r| == |views|
    ensures forall q :: 0 <= q < |views| ==> r[q] == (views[q].model.los, views[q])
  {
    if views == [] then []
    else [(views[0].model.los, views[0])] + Keyed(views[1..])
  }

  function KeyOf(p: (int, MapView)): int
  {
    p.0
  }

  function ViewOf(p: (int, MapView)): MapView
  {
    p.1
  }

  /** The layers' trips have non-decreasing `los`. */
  ghost predicate LosAscending(views: seq<MapView>)
    reads set q | 0 <= q < |views| :: views[q].model
  {
    forall i, j :: 0 <= i < j < |views| ==> views[i].model.los <= views[j].model.los
  }

  /** One round of the paint loop: when the last `i` layers painted are the
      first `i` of `views`, bringing `views[i]` to the front makes the last
      `i + 1` painted the first `i + 1` of `views`. */
  lemma PaintStep(paint: seq<MapView>, views: seq<MapView>, i: int)
    requires Distinct(views) && multiset(paint) == multiset(views)
    requires 0 <= i < |views| && |paint| == |views|
    requires paint[|paint| - i..] == views[..i]
    ensures |BringToFront(paint, views[i])| == |paint|
    ensures multiset(BringToFront(paint, views[i])) == multiset(views)
    ensures BringToFront(paint, views[i])[|paint| - (i + 1)..] == views[..i + 1]
  {
    var x := views[i];
    var front := paint[..|paint| - i];
    assert paint == front + views[..i];
    assert x in multiset(views);
    assert x !in views[..i];
    assert x in front;
    BringToFrontBack(front, views[..i], x);
    var rest := Remove(front, x);
    assert |rest| == |paint| - (i + 1);
    TakeOneMore(views, i);
    assert (rest + views[..i + 1])[|rest|..] == views[..i + 1];
  }

  /** Sorting the keyed layers by their keys and dropping the keys
      rearranges the layers into ascending `los`. */
  lemma SortedByLos(views: seq<MapView>)
    ensures multiset(Map(SortBy(Keyed(views), KeyOf), ViewOf)) == multiset(views)
    ensures LosAscending(Map(SortBy(Keyed(views), KeyOf), ViewOf))
  {
    var keyed := Keyed(views);
    var sorted := SortBy(keyed, KeyOf);
    MapMultiset(keyed, sorted, ViewOf);
    assert Map(keyed, ViewOf) == views;
    SortedKeysAreLos(views);
  }

  /** The keys of the sorted layers are still their own `los`, in order. */
  lemma SortedKeysAreLos(views: seq<MapView>)
    ensures LosAscending(Map(SortBy(Keyed(views), KeyOf), ViewOf))
  {
    var keyed := Keyed(views);
    var sorted := SortBy(keyed, KeyOf);
    SortByIsSorted(keyed, KeyOf);
    forall q | 0 <= q < |sorted| ensures sorted[q].0 == sorted[q].1.model.los {
      assert sorted[q] in multiset(keyed);
    }
    forall i, j | 0 <= i < j < |sorted|
      ensures Map(sorted, ViewOf)[i].model.los <= Map(sorted, ViewOf)[j].model.los
    {
      assert KeyOf(sorted[i]) <= KeyOf(sorted[j]);
    }
  }

  /** Rearranging the layers of distinct trips keeps one layer per trip;
      painting them in their new order paints each once. */
  lemma LayeredPermuted(trips: seq<Trip>, views: seq<MapView>, paint: seq<MapView>, views': seq<MapView>)
    requires Layered(trips, views, paint) && Distinct(trips)
    requires multiset(views') == multiset(views)
    ensures Layered(trips, views', views') && Distinct(views')
    ensures multiset(paint) == multiset(views')
  {
    LayersDistinct(trips, views, paint);
    DistinctPermutation(views, views');
    SameElementsMultiset(paint, views);
    SameElementsMultiset(Models(views), trips);
    MapMultiset(views, views', ModelOf);
    SameElementsMultiset(Models(views'), trips);
    SameElementsMultiset(views', views');
  }

  /** Rearranging drawn layers leaves them drawn. */
  lemma DrawnPermuted(a: seq<MapView>, b: seq<MapView>)
    requires multiset(a) == multiset(b)
    requires forall q :: 0 <= q < |a| ==> Drawn(a[q])
    ensures forall q :: 0 <= q < |b| ==> Drawn(b[q])
  {
    forall q | 0 <= q < |b| ensures Drawn(b[q]) {
      assert b[q] in multiset(a);
    }
  }

  class App {
    const start: int
    const end: int
    var collection: seq<Trip>
    var routeviews: seq<RouteView>
    var mapviews: seq<MapView>
    var paintOrder: seq<MapView>

    /** The trips are pairwise distinct objects, grouped into panels. */
    ghost predicate Valid()
      reads this`collection, this`routeviews, routeviews`collection
    {
      && Distinct(collection)
      && Grouped(collection, routeviews)
    }

    /** Every panel lists its trips by direction. */
    ghost predicate Directed()
      reads this`routeviews, routeviews`collection, routeviews`inbound, routeviews`outbound
    {
      forall i :: 0 <= i < |routeviews| ==> Split(routeviews[i])
    }

    /** Every loaded trip carries the LOS of the app's window. */
    ghost predicate AllCalculated()
      reads this`collection, collection`los, collection`color
    {
      forall i :: 0 <= i < |collection| ==> Calculated(collection[i], start, end)
    }

    /** Each trip has one layer, and each layer is painted once. */
    ghost predicate Layers()
      reads this`collection, this`mapviews, this`paintOrder
    {
      Layered(collection, mapviews, paintOrder)
    }

    /** Every route checkbox shows its trips' tri-state. */
    ghost predicate ChecksInSync()
      reads this, routeviews
      reads set i, j | 0 <= i < |routeviews| && 0 <= j < |routeviews[i].collection| :: routeviews[i].collection[j]
    {
      forall i :: 0 <= i < |routeviews| ==> RouteSync(routeviews[i])
    }

    /** Every layer is styled as its trip's display flag says. */
    ghost predicate LayersDrawn()
      reads this`mapviews, mapviews, Models(mapviews)
    {
      forall q :: 0 <= q < |mapviews| ==> Drawn(mapviews[q])
    }

    /** Every layer carries its trip's style in some opacity, and every layer
        of a trip other than `t` is drawn. */
    ghost predicate DrawnExcept(t: Trip)
      reads this`mapviews, mapviews, Models(mapviews)
    {
      forall q :: 0 <= q < |mapviews| ==>
        Styled(mapviews[q]) && (mapviews[q].model != t ==> Drawn(mapviews[q]))
    }

    /** The state while loading: every trip shown, every checkbox checked. */
    ghost predicate AllShown()
      reads this`collection, this`routeviews, routeviews`checked, routeviews`indeterminate, collection`display
    {
      && (forall i :: 0 <= i < |collection| ==> collection[i].display)
      && AllChecked(routeviews)
    }

    lemma AllShownInSync()
      requires Valid() && AllShown()
      ensures ChecksInSync()
    {
      forall i | 0 <= i < |routeviews| ensures RouteSync(routeviews[i]) {
        var r := routeviews[i];
        forall k | 0 <= k < |r.collection| ensures r.collection[k].display {
          MembersIn(collection, r.shortName, r.collection[k]);
        }
        TriStateOfMeans(r.collection);
      }
    }

    /** `initialize`: a missing or zero window bound takes 7:00 or 9:00. */
    constructor (start: Option<int>, end: Option<int>)
      ensures (start.None? || start.value == 0) ==> this.start == 7 * 3600
      ensures (start.Some? && start.value != 0) ==> this.start == start.value
      ensures (end.None? || end.value == 0) ==> this.end == 9 * 3600
      ensures (end.Some? && end.value != 0) ==> this.end == end.value
      ensures collection == [] && routeviews == [] && mapviews == [] && paintOrder == []
      ensures Valid() && Layers() && AllShown() && LayersDrawn()
      ensures Directed() && AllCalculated()
    {
      this.start := OrDefault(start, 7 * 3600);
      this.end := OrDefault(end, 9 * 3600);
      collection := [];
      routeviews := [];
      mapviews := [];
      paintOrder := [];
    }

    /** `_.find(this.routeviews, ...)`: the first panel of the name, or -1. */
    method FindRoute(name: string) returns (k: int)
      ensures -1 <= k < |routeviews|
      ensures k == -1 <==> name !in Names(routeviews)
      ensures 0 <= k ==> routeviews[k].shortName == name
      ensures 0 <= k ==> forall j :: 0 <= j < k ==> routeviews[j].shortName != name
    {
      k := 0;
      while k < |routeviews|
        invariant 0 <= k <= |routeviews|
        invariant forall j :: 0 <= j < k ==> routeviews[j].shortName != name
      {
        if routeviews[k].shortName == name {
          return;
        }
        k := k + 1;
      }
      k := -1;
    }

    /** A new panel for `name`: `routeviews.push(view)` followed by
        `routeviews.sort(route_sort)`. The names differ pairwise, so the
        sorted list is the unique strictly sorted arrangement. */
    method InsertRoute(name: string, longName: string) returns (view: RouteView)
      requires StrictlySorted(routeviews, RouteKeyOf) && name !in Names(routeviews)
      modifies this`routeviews
      ensures fresh(view) && view.shortName == name && view.longName == longName
      ensures view.routeSort == RouteSortKey(name)
      ensures view.collection == [] && view.inbound == [] && view.outbound == []
      ensures view.Checkbox() == Checked
      ensures multiset(routeviews) == multiset(old(routeviews)) + multiset{view}
      ensures StrictlySorted(routeviews, RouteKeyOf)
      ensures Names(routeviews) == old(Names(routeviews)) + {name}
      ensures forall i :: 0 <= i < |routeviews| ==> routeviews[i] == view || routeviews[i] in old(routeviews)
    {
      view := new RouteView(name, longName);
      InsertByKeySorted(routeviews, view, RouteKeyOf);
      var routes := InsertByKey(routeviews, view, RouteKeyOf);
      NamesOfInsert(routeviews, routes, view);
      routeviews := routes;
    }

    /** `add_to_route`: computes the trip's LOS for the app's window, then
        adds the trip to the panel of its short name, creating the panel at
        its sorted place when the name is new. */
    method AddToRoute(t: Trip, ghost prefix: seq<Trip>)
      requires collection == prefix + [t] && Grouped(prefix, routeviews)
      requires forall q :: 0 <= q < |mapviews| ==> mapviews[q].model != t
      modifies t`los, t`losTrips, t`color, this`routeviews
      modifies routeviews`collection, routeviews`inbound, routeviews`outbound
      ensures Grouped(collection, routeviews)
      ensures unchanged(this`mapviews, mapviews, Models(mapviews))
      ensures t.losTrips == CalcTrips(t.properties.tripStarts, start, end)
      ensures t.los == WindowLos(t.properties.tripStarts, start, end)
      ensures t.color == Table[t.los].color
      ensures Names(routeviews) == old(Names(routeviews)) + {t.properties.routeShortName}
      ensures forall i :: 0 <= i < |routeviews| ==>
                routeviews[i] in old(routeviews) || (fresh(routeviews[i]) && routeviews[i].Checkbox() == Checked)
      ensures old(Directed()) ==> Directed()
    {
      CalcTrip(t);
      var k := FindRoute(t.properties.routeShortName);
      if k < 0 {
        JoinNewRoute(t, prefix);
      } else {
        JoinRoute(t, prefix, k, routeviews[k]);
      }
    }

    /** `trip.calc(this.start, this.end)`: a trip without a layer changes
        no layer. */
    method CalcTrip(t: Trip)
      requires forall q :: 0 <= q < |mapviews| ==> mapviews[q].model != t
      modifies t`los, t`losTrips, t`color
      ensures t.losTrips == CalcTrips(t.properties.tripStarts, start, end)
      ensures t.los == WindowLos(t.properties.tripStarts, start, end)
      ensures t.color == Table[t.los].color
      ensures unchanged(this`mapviews, mapviews, Models(mapviews))
    {
      t.Calc(start, end);
    }

    /** The trip joins the existing panel `k` of its name. */
    method JoinRoute(t: Trip, ghost prefix: seq<Trip>, k: int, view: RouteView)
      requires collection == prefix + [t] && Grouped(prefix, routeviews)
      requires 0 <= k < |routeviews| && view == routeviews[k]
      requires view.shortName == t.properties.routeShortName
      modifies view`collection, view`inbound, view`outbound
      ensures Grouped(collection, routeviews)
      ensures old(Directed()) ==> Directed()
    {
      OthersDiffer(prefix, routeviews, k);
      TripNamesAppend(prefix, t);
      ghost var wasSplit := Split(view);
      view.AddTrip(t);
      GroupedAfterAdd(prefix, t, routeviews, view);
    }

    /** The trip's name is new: a panel is created, inserted in order, and
        the trip joins it. */
    method JoinNewRoute(t: Trip, ghost prefix: seq<Trip>)
      requires collection == prefix + [t] && Grouped(prefix, routeviews)
      requires t.properties.routeShortName !in Names(routeviews)
      modifies this`routeviews
      ensures Grouped(collection, routeviews)
      ensures Names(routeviews) == old(Names(routeviews)) + {t.properties.routeShortName}
      ensures forall i :: 0 <= i < |routeviews| ==>
                routeviews[i] in old(routeviews) || (fresh(routeviews[i]) && routeviews[i].Checkbox() == Checked)
      ensures old(Directed()) ==> Directed()
    {
      MembersNone(prefix, t.properties.routeShortName);
      ghost var before := routeviews;
      var view := InsertRoute(t.properties.routeShortName, t.properties.routeLongName);
      assert Split(view);
      OthersHold(prefix, before, routeviews, view);
      TripNamesAppend(prefix, t);
      view.AddTrip(t);
      GroupedAfterAdd(prefix, t, routeviews, view);
    }

    /** `add_to_map`: a new layer in the trip's style, painted on top. */
    method AddToMap(t: Trip, ghost prefix: seq<Trip>) returns (v: MapView)
      requires collection == prefix + [t] && Layered(prefix, mapviews, paintOrder) && t.display
      modifies this`mapviews, this`paintOrder
      ensures fresh(v) && v.model == t && v.style == t.GetStyle()
      ensures mapviews == old(mapviews) + [v] && paintOrder == old(paintOrder) + [v]
      ensures Layered(collection, mapviews, paintOrder)
      ensures old(LayersDrawn()) ==> LayersDrawn()
      ensures old(Valid()) ==> Valid()
      ensures old(Directed()) ==> Directed()
      ensures routeviews == old(routeviews)
    {
      v := new MapView(t);
      LayeredAppend(prefix, mapviews, paintOrder, v);
      mapviews := mapviews + [v];
      paintOrder := paintOrder + [v];
    }

    /** An `add` event of the agency collection: the parsed feature becomes
        a trip (with the model defaults), and `add_to_route` and
        `add_to_map` run in the order they were registered. */
    method AddFeature(p: Props) returns (t: Trip)
      requires Valid() && Layers()
      modifies this`collection, this`routeviews, this`mapviews, this`paintOrder
      modifies routeviews`collection, routeviews`inbound, routeviews`outbound
      ensures Valid() && Layers()
      ensures old(LayersDrawn()) ==> LayersDrawn()
      ensures fresh(t) && t.properties == p && t.display && collection == old(collection) + [t]
      ensures t.los == WindowLos(p.tripStarts, start, end) && Calculated(t, start, end)
      ensures forall i :: 0 <= i < |routeviews| ==>
                routeviews[i] in old(routeviews) || (fresh(routeviews[i]) && routeviews[i].Checkbox() == Checked)
      ensures old(Directed()) ==> Directed()
    {
      t := new Trip(p);
      ghost var prefix := collection;
      Register(t);
      var v := AddToMap(t, prefix);
    }

    /** The agency collection takes the new trip `t`, and the first `add`
        listener, `add_to_route`, runs; the layers are left alone. */
    method Register(t: Trip)
      requires Valid() && t.display
      requires t !in collection && forall q :: 0 <= q < |mapviews| ==> mapviews[q].model != t
      modifies this`collection, this`routeviews, t`los, t`losTrips, t`color
      modifies routeviews`collection, routeviews`inbound, routeviews`outbound
      ensures Valid()
      ensures old(LayersDrawn()) ==> LayersDrawn()
      ensures t.display && collection == old(collection) + [t]
      ensures Calculated(t, start, end)
      ensures forall i :: 0 <= i < |routeviews| ==>
                routeviews[i] in old(routeviews) || (fresh(routeviews[i]) && routeviews[i].Checkbox() == Checked)
      ensures old(Directed()) ==> Directed()
    {
      var prefix := collection;
      DistinctAppend(prefix, t);
      collection := prefix + [t];
      AddToRoute(t, prefix);
    }

    /** `collection.fetch()`: each feature of the response becomes a trip
        added in order, with both `add` listeners, and then the `sync`
        listener `reorder_layers` runs. */
    method Fetch(features: seq<Props>)
      requires Valid() && Layers()
      modifies this, routeviews`collection, routeviews`inbound, routeviews`outbound
      ensures Valid() && Layers()
      ensures Loaded(old(collection), features, |features|)
      ensures old(Directed()) ==> Directed()
      ensures old(AllCalculated()) ==> AllCalculated()
      ensures LosAscending(mapviews) && paintOrder == mapviews
      ensures old(AllShown()) ==> AllShown() && ChecksInSync()
      ensures old(LayersDrawn()) ==> LayersDrawn()
    {
      LoadAll(features);
      OnSync();
    }

    /** The `sync` event: `reorder_layers` runs; when every trip is shown
        after loading, every checkbox is in sync. */
    method OnSync()
      requires Valid() && Layers()
      modifies this`mapviews, this`paintOrder
      ensures Valid() && Layers()
      ensures LosAscending(mapviews) && paintOrder == mapviews
      ensures AllShown() ==> ChecksInSync()
      ensures old(LayersDrawn()) ==> LayersDrawn()
    {
      ReorderLayers();
      if AllShown() {
        AllShownInSync();
      }
    }

    /** The `add` events of the response, one feature after the other. */
    method LoadAll(features: seq<Props>)
      requires Valid() && Layers()
      modifies this, routeviews`collection, routeviews`inbound, routeviews`outbound
      ensures Valid() && Layers()
      ensures Loaded(old(collection), features, |features|)
      ensures old(Directed()) ==> Directed()
      ensures old(AllCalculated()) ==> AllCalculated()
      ensures old(AllShown()) ==> AllShown()
      ensures old(LayersDrawn()) ==> LayersDrawn()
    {
      ghost var before := collection;
      ghost var shown := AllShown();
      ghost var drawn := LayersDrawn();
      ghost var directed := Directed();
      ghost var calculated := AllCalculated();
      for k := 0 to |features|
        invariant Valid() && Layers() && Loaded(before, features, k)
        invariant directed ==> Directed()
        invariant shown ==> AllShown()
        invariant drawn ==> LayersDrawn()
        invariant forall i :: 0 <= i < |routeviews| ==> routeviews[i] in old(routeviews) || fresh(routeviews[i])
      {
        Load(features, k, before, shown);
      }
      if calculated {
        forall i | 0 <= i < |collection| ensures Calculated(collection[i], start, end) {
          if i < |before| {
            assert collection[i] == before[i] && old(Calculated(before[i], start, end));
          }
        }
      }
    }

    /** After `k` features: the trips loaded before are kept, and trip
        `|before| + j` was made from feature `j`, with its LOS computed. */
    ghost predicate Loaded(before: seq<Trip>, features: seq<Props>, k: int)
      reads this`collection, collection`los, collection`color
    {
      && 0 <= k <= |features|
      && |collection| == |before| + k && collection[..|before|] == before
      && (forall j :: 0 <= j < k ==> collection[|before| + j].properties == features[j])
      && (forall i :: |before| <= i < |before| + k ==> Calculated(collection[i], start, end))
    }

    /** One feature of the response, the `k`th. */
    method Load(features: seq<Props>, k: int, ghost before: seq<Trip>, ghost shown: bool)
      requires Valid() && Layers() && k < |features| && Loaded(before, features, k)
      requires shown ==> AllShown()
      modifies this, routeviews`collection, routeviews`inbound, routeviews`outbound
      ensures Valid() && Layers() && Loaded(before, features, k + 1)
      ensures old(Directed()) ==> Directed()
      ensures shown ==> AllShown()
      ensures old(LayersDrawn()) ==> LayersDrawn()
      ensures forall i :: 0 <= i < |routeviews| ==> routeviews[i] in old(routeviews) || fresh(routeviews[i])
    {
      var t := AddFeature(features[k]);
      assert collection[..|before|] == old(collection)[..|before|];
      forall i | |before| <= i < |before| + k ensures Calculated(collection[i], start, end) {
        assert collection[i] == old(collection)[i];
      }
      forall j | 0 <= j < k + 1 ensures collection[|before| + j].properties == features[j] {
        if j < k {
          assert collection[|before| + j] == old(collection)[|before| + j];
        }
      }
      if shown {
        forall i | 0 <= i < |routeviews| ensures routeviews[i].Checkbox() == Checked {
          if routeviews[i] in old(routeviews) {
            var j :| 0 <= j < |old(routeviews)| && old(routeviews)[j] == routeviews[i];
            assert old(routeviews[j].Checkbox()) == Checked;
          }
        }
        forall i | 0 <= i < |collection| ensures collection[i].display {
          if i < |old(collection)| {
            assert old(collection[i].display);
          }
        }
      }
    }

    /** `reorder_layers`: the layers are sorted by their trips' `los`, and
        each is then brought to the front in the sorted order, so they are
        painted in the sorted order. */
    method ReorderLayers()
      requires Valid() && Layers()
      modifies this`mapviews, this`paintOrder
      ensures Layers()
      ensures multiset(mapviews) == multiset(old(mapviews))
      ensures LosAscending(mapviews)
      ensures paintOrder == mapviews
      ensures old(LayersDrawn()) ==> LayersDrawn()
    {
      ghost var views := mapviews;
      SortLayers();
      LayeredPermuted(collection, views, paintOrder, mapviews);
      PaintLayers();
    }

    /** `mapviews.sort(...)` by the trips' `los`. */
    method SortLayers()
      modifies this`mapviews
      ensures multiset(mapviews) == multiset(old(mapviews))
      ensures LosAscending(mapviews)
      ensures old(LayersDrawn()) ==> LayersDrawn()
    {
      var sorted := Map(SortBy(Keyed(mapviews), KeyOf), ViewOf);
      SortedByLos(mapviews);
      if LayersDrawn() {
        DrawnPermuted(mapviews, sorted);
      }
      mapviews := sorted;
    }

    /** `for (var i in mapviews) mapviews[i].layer.bringToFront()`. */
    method PaintLayers()
      requires Distinct(mapviews) && multiset(paintOrder) == multiset(mapviews)
      modifies this`paintOrder
      ensures paintOrder == mapviews
    {
      var views := mapviews;
      var paint := paintOrder;
      assert |paint| == |multiset(paint)| == |views|;
      for i := 0 to |views|
        invariant |paint| == |views| && multiset(paint) == multiset(views)
        invariant paint[|paint| - i..] == views[..i]
      {
        PaintStep(paint, views, i);
        paint := BringToFront(paint, views[i]);
      }
      assert views[..|views|] == views;
      paintOrder := paint;
    }

    /** The panel `k` is the one of `t`'s name: it holds `t`, and no other
        panel does. */
    lemma OnlyRouteOf(t: Trip, k: int)
      requires Valid() && t in collection
      requires 0 <= k < |routeviews| && routeviews[k].shortName == t.properties.routeShortName
      ensures t in routeviews[k].collection
      ensures forall q :: 0 <= q < |routeviews| && q != k ==>
                t !in routeviews[q].collection && routeviews[q].shortName != t.properties.routeShortName
    {
      MembersIn(collection, t.properties.routeShortName, t);
      forall q | 0 <= q < |routeviews| && q != k
        ensures t !in routeviews[q].collection && routeviews[q].shortName != t.properties.routeShortName
      {
        NamesDistinct(collection, routeviews, q, k);
        MembersIn(collection, routeviews[q].shortName, t);
      }
    }

    /** Every trip of the agency has a panel. */
    lemma HasRoute(t: Trip)
      requires Valid() && t in collection
      ensures t.properties.routeShortName in Names(routeviews)
    {
      var j :| 0 <= j < |collection| && collection[j] == t;
      assert t.properties.routeShortName in TripNames(collection);
    }

    /** `trip.set('display', value)`. Backbone fires `change:display` only
        when the value changes; then the trip's panel recomputes its
        checkbox and the trip's layers are shown or hidden. */
    method SetDisplay(t: Trip, value: bool)
      requires Valid() && t in collection
      modifies t`display, routeviews`checked, routeviews`indeterminate, mapviews`style
      ensures Valid()
      ensures t.display == value
      ensures forall q ::
                (0 <= q < |routeviews| && old(t.display) != value &&
                 routeviews[q].shortName == t.properties.routeShortName) ==> RouteSync(routeviews[q])
      ensures forall q ::
                (0 <= q < |routeviews| &&
                 (old(t.display) == value || routeviews[q].shortName != t.properties.routeShortName)) ==>
                  && routeviews[q].checked == old(routeviews[q].checked)
                  && routeviews[q].indeterminate == old(routeviews[q].indeterminate)
                  && TriStateOf(routeviews[q].collection) == old(TriStateOf(routeviews[q].collection))
      ensures forall q :: 0 <= q < |mapviews| && old(t.display) != value && mapviews[q].model == t ==>
                mapviews[q].style == Restyled(t, old(mapviews[q].style))
      ensures forall q :: 0 <= q < |mapviews| && (old(t.display) == value || mapviews[q].model != t) ==>
                mapviews[q].style == old(mapviews[q].style)
      ensures old(LayersDrawn()) ==> LayersDrawn()
      ensures forall q :: 0 <= q < |routeviews| ==>
                RouteSync(routeviews[q]) || Look(routeviews[q]) == old(Look(routeviews[q]))
    {
      if t.display == value {
        return;
      }
      ChangeDisplay(t, value);
      NotifyLayers(t);
    }

    /** The new value is stored and the `change:display` listener of the
        trip's panel, `check_display`, runs. */
    method ChangeDisplay(t: Trip, value: bool)
      requires Valid() && t in collection
      modifies t`display, routeviews`checked, routeviews`indeterminate
      ensures t.display == value
      ensures forall q ::
                (0 <= q < |routeviews| && routeviews[q].shortName == t.properties.routeShortName) ==>
                  RouteSync(routeviews[q])
      ensures forall q ::
                (0 <= q < |routeviews| && routeviews[q].shortName != t.properties.routeShortName) ==>
                  && routeviews[q].checked == old(routeviews[q].checked)
                  && routeviews[q].indeterminate == old(routeviews[q].indeterminate)
                  && TriStateOf(routeviews[q].collection) == old(TriStateOf(routeviews[q].collection))
      ensures old(LayersDrawn()) ==> DrawnExcept(t)
      ensures forall q :: 0 <= q < |routeviews| ==>
                RouteSync(routeviews[q]) || Look(routeviews[q]) == old(Look(routeviews[q]))
    {
      HasRoute(t);
      var k := FindRoute(t.properties.routeShortName);
      OnlyRouteOf(t, k);
      UpdateRoute(t, value, k);
    }

    /** The same, given the one panel `k` that holds `t`. */
    method UpdateRoute(t: Trip, value: bool, k: int)
      requires 0 <= k < |routeviews| && routeviews[k].shortName == t.properties.routeShortName
      requires t in routeviews[k].collection
      requires forall q :: 0 <= q < |routeviews| && q != k ==>
                 t !in routeviews[q].collection && routeviews[q].shortName != t.properties.routeShortName
      modifies t`display, routeviews`checked, routeviews`indeterminate
      ensures t.display == value
      ensures forall q ::
                (0 <= q < |routeviews| && routeviews[q].shortName == t.properties.routeShortName) ==>
                  RouteSync(routeviews[q])
      ensures forall q ::
                (0 <= q < |routeviews| && routeviews[q].shortName != t.properties.routeShortName) ==>
                  && routeviews[q].checked == old(routeviews[q].checked)
                  && routeviews[q].indeterminate == old(routeviews[q].indeterminate)
                  && TriStateOf(routeviews[q].collection) == old(TriStateOf(routeviews[q].collection))
      ensures old(LayersDrawn()) ==> DrawnExcept(t)
      ensures forall q :: 0 <= q < |routeviews| ==>
                RouteSync(routeviews[q]) || Look(routeviews[q]) == old(Look(routeviews[q]))
    {
      Flip(t, value);
      routeviews[k].CheckDisplay();
    }

    /** The flag itself changes; every layer still carries its trip's style
        in some opacity, and the layers of other trips stay drawn. */
    method Flip(t: Trip, value: bool)
      modifies t`display
      ensures t.display == value
      ensures old(LayersDrawn()) ==> DrawnExcept(t)
    {
      t.display := value;
      if old(LayersDrawn()) {
        forall q | 0 <= q < |mapviews| ensures Styled(mapviews[q]) {
          assert old(Drawn(mapviews[q]));
        }
      }
    }

    /** The `change:display` listeners among the layers: each layer of the
        trip runs `set_display`; the other layers stay as they are. */
    method NotifyLayers(t: Trip)
      modifies mapviews`style
      ensures forall q :: 0 <= q < |mapviews| && mapviews[q].model == t ==>
                mapviews[q].style == Restyled(t, old(mapviews[q].style))
      ensures forall q :: 0 <= q < |mapviews| && mapviews[q].model != t ==>
                mapviews[q].style == old(mapviews[q].style)
      ensures old(DrawnExcept(t)) ==> LayersDrawn()
    {
      var j := 0;
      while j < |mapviews|
        invariant 0 <= j <= |mapviews|
        invariant forall q :: 0 <= q < |mapviews| && mapviews[q].model != t ==>
                    mapviews[q].style == old(mapviews[q].style)
        invariant forall q :: 0 <= q < j && mapviews[q].model == t ==>
                    mapviews[q].style == Restyled(t, old(mapviews[q].style))
        invariant forall q :: j <= q < |mapviews| && mapviews[q].model == t ==>
                    mapviews[q].style in {old(mapviews[q].style), Restyled(t, old(mapviews[q].style))}
      {
        if mapviews[j].model == t {
          mapviews[j].SetDisplay();
        }
        j := j + 1;
      }
      if old(DrawnExcept(t)) {
        forall q | 0 <= q < |mapviews| ensures Drawn(mapviews[q]) {
          assert old(Styled(mapviews[q]));
        }
      }
    }

    /** For every panel `q`: in sync, or looking as `looks[q]`. */
    ghost predicate SettledTo(looks: seq<(TriState, TriState)>)
      reads this, routeviews
      reads set i, j | 0 <= i < |routeviews| && 0 <= j < |routeviews[i].collection| :: routeviews[i].collection[j]
    {
      && |looks| == |routeviews|
      && forall q :: 0 <= q < |routeviews| ==> RouteSync(routeviews[q]) || Look(routeviews[q]) == looks[q]
    }

    /** `each(i => i.set('display', value))` over the trips `ts`: each trip
        takes the value; a panel whose trips changed shows their tri-state,
        and every other panel keeps both its checkbox and its trips' looks. */
    method SetAll(ts: seq<Trip>, value: bool)
      requires Valid() && forall i :: 0 <= i < |ts| ==> ts[i] in collection
      modifies ts`display, routeviews`checked, routeviews`indeterminate, mapviews`style
      ensures Valid()
      ensures forall i :: 0 <= i < |ts| ==> ts[i].display == value
      ensures forall q :: 0 <= q < |routeviews| ==>
                || RouteSync(routeviews[q])
                || Look(routeviews[q]) == old(Look(routeviews[q]))
      ensures forall q :: 0 <= q < |mapviews| && mapviews[q].model !in ts ==>
                mapviews[q].style == old(mapviews[q].style)
      ensures old(LayersDrawn()) ==> LayersDrawn()
    {
      ghost var styles := seq(|mapviews|, q requires 0 <= q < |mapviews| reads this, mapviews => mapviews[q].style);
      ghost var looks := seq(|routeviews|, q requires 0 <= q < |routeviews| reads this, routeviews, (if 0 <= q < |routeviews| then routeviews[q].collection else []) =>
        Look(routeviews[q]));
      ghost var drawn := LayersDrawn();
      for i := 0 to |ts|
        invariant Valid()
        invariant forall k :: 0 <= k < i ==> ts[k].display == value
        invariant SettledTo(looks)
        invariant forall q :: 0 <= q < |mapviews| && mapviews[q].model !in ts ==> mapviews[q].style == styles[q]
        invariant drawn ==> LayersDrawn()
      {
        SetDisplay(ts[i], value);
      }
    }

    /** The trips of a panel are trips of the agency. */
    lemma RouteTripsIn(r: RouteView)
      requires Valid() && r in routeviews
      ensures forall i :: 0 <= i < |r.collection| ==> r.collection[i] in collection
      ensures forall i :: 0 <= i < |r.collection| ==> r.collection[i].properties.routeShortName == r.shortName
    {
      forall i | 0 <= i < |r.collection|
        ensures r.collection[i] in collection && r.collection[i].properties.routeShortName == r.shortName
      {
        MembersIn(collection, r.shortName, r.collection[i]);
      }
    }

    /** When every panel is in sync and every trip carries `value`, every
        checkbox is checked (for `true`) or unchecked (for `false`). */
    lemma BoxesShow(value: bool)
      requires Valid() && ChecksInSync()
      requires forall i :: 0 <= i < |collection| ==> collection[i].display == value
      ensures forall q :: 0 <= q < |routeviews| ==>
                routeviews[q].Checkbox() == (if value then Checked else Unchecked)
    {
      forall q | 0 <= q < |routeviews|
        ensures routeviews[q].Checkbox() == (if value then Checked else Unchecked)
      {
        assert RouteSync(routeviews[q]);
        RouteTripsIn(routeviews[q]);
        TriStateOfMeans(routeviews[q].collection);
      }
    }

    /** `hide_all`: every trip of the agency is hidden. */
    method HideAll()
      requires Valid()
      modifies collection`display, routeviews`checked, routeviews`indeterminate, mapviews`style
      ensures Valid()
      ensures forall i :: 0 <= i < |collection| ==> !collection[i].display
      ensures old(ChecksInSync()) ==> ChecksInSync()
      ensures old(LayersDrawn()) ==> LayersDrawn()
    {
      SetAll(collection, false);
    }

    /** `show_all`: every trip of the agency is shown. */
    method ShowAll()
      requires Valid()
      modifies collection`display, routeviews`checked, routeviews`indeterminate, mapviews`style
      ensures Valid()
      ensures forall i :: 0 <= i < |collection| ==> collection[i].display
      ensures old(ChecksInSync()) ==> ChecksInSync()
      ensures old(LayersDrawn()) ==> LayersDrawn()
    {
      SetAll(collection, true);
    }

    /** The panel's `show_only`: `hide_all` on the app, then every trip of
        the panel is shown, so exactly the trips of its name are shown. */
    method ShowOnly(r: RouteView)
      requires Valid() && r in routeviews
      modifies collection`display, routeviews`checked, routeviews`indeterminate, mapviews`style
      ensures Valid()
      ensures forall i :: 0 <= i < |collection| ==>
                (collection[i].display <==> collection[i].properties.routeShortName == r.shortName)
      ensures old(ChecksInSync()) ==> ChecksInSync()
      ensures old(LayersDrawn()) ==> LayersDrawn()
    {
      HideAll();
      RouteTripsIn(r);
      ShowRoute(r);
    }

    /** The second half of `show_only`: every trip of the panel is shown. */
    method ShowRoute(r: RouteView)
      requires Valid() && r in routeviews
      modifies r.collection`display, routeviews`checked, routeviews`indeterminate, mapviews`style
      ensures Valid()
      ensures forall i :: 0 <= i < |collection| ==>
                collection[i].display ==
                  (old(collection[i].display) || collection[i].properties.routeShortName == r.shortName)
      ensures old(ChecksInSync()) ==> ChecksInSync()
      ensures old(LayersDrawn()) ==> LayersDrawn()
    {
      RouteTripsIn(r);
      SetAll(r.collection, true);
      forall i | 0 <= i < |collection|
        ensures collection[i].display ==
                  (old(collection[i].display) || collection[i].properties.routeShortName == r.shortName)
      {
        MembersIn(collection, r.shortName, collection[i]);
      }
    }

    /** `toggle_trips`, a click on the panel's checkbox: the browser clears
        `indeterminate` and flips `checked`, and every trip of the panel takes
        the new `checked`. The panel ends in sync whether or not any trip
        changed. */
    method ToggleTrips(r: RouteView)
      requires Valid() && r in routeviews
      modifies r`checked, r`indeterminate
      modifies r.collection`display, routeviews`checked, routeviews`indeterminate, mapviews`style
      ensures Valid()
      ensures forall i :: 0 <= i < |r.collection| ==> r.collection[i].display == !old(r.checked)
      ensures forall i :: 0 <= i < |collection| && collection[i] !in r.collection ==>
                collection[i].display == old(collection[i].display)
      ensures r.Checkbox() == (if old(r.checked) then Unchecked else Checked)
      ensures RouteSync(r)
      ensures old(ChecksInSync()) ==> ChecksInSync()
      ensures old(LayersDrawn()) ==> LayersDrawn()
    {
      ClickBox(r);
      ApplyBox(r);
      if old(ChecksInSync()) {
        forall q | 0 <= q < |routeviews| ensures RouteSync(routeviews[q]) {
          if routeviews[q] != r {
            assert old(RouteSync(routeviews[q]));
          }
        }
      }
    }

    /** A click on the checkbox of `r`: the browser clears `indeterminate`
        and flips `checked`; no other panel changes. */
    method ClickBox(r: RouteView)
      modifies r`checked, r`indeterminate
      ensures !r.indeterminate && r.checked == !old(r.checked)
      ensures forall q :: 0 <= q < |routeviews| && routeviews[q] != r ==>
                Look(routeviews[q]) == old(Look(routeviews[q]))
    {
      r.indeterminate := false;
      r.checked := !r.checked;
    }

    /** The listener of the click: every trip of `r` takes `checked`. */
    method ApplyBox(r: RouteView)
      requires Valid() && r in routeviews && !r.indeterminate
      modifies r.collection`display, routeviews`checked, routeviews`indeterminate, mapviews`style
      ensures Valid()
      ensures forall i :: 0 <= i < |r.collection| ==> r.collection[i].display == old(r.checked)
      ensures forall i :: 0 <= i < |collection| && collection[i] !in r.collection ==>
                collection[i].display == old(collection[i].display)
      ensures r.Checkbox() == old(r.Checkbox()) && RouteSync(r)
      ensures forall q :: 0 <= q < |routeviews| ==>
                RouteSync(routeviews[q]) || Look(routeviews[q]) == old(Look(routeviews[q]))
      ensures old(LayersDrawn()) ==> LayersDrawn()
    {
      RouteTripsIn(r);
      SetAll(r.collection, r.checked);
      TriStateOfMeans(r.collection);
    }

    /** `TripView.toggle`: the trip's display flag flips. */
    method ToggleTrip(t: Trip)
      requires Valid() && t in collection
      modifies t`display, routeviews`checked, routeviews`indeterminate, mapviews`style
      ensures Valid()
      ensures t.display == !old(t.display)
      ensures old(ChecksInSync()) ==> ChecksInSync()
      ensures old(LayersDrawn()) ==> LayersDrawn()
    {
      SetDisplay(t, !t.display);
    }
  }
}
