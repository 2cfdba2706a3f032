/** The Backbone views that hold state: a trip's map layer (`TripMapView`)
    and a route's panel (`RouteView`) with its tri-state checkbox and its
    inbound and outbound trip lists. */
module BackboneViews {
  import opened RouteOrder
  import opened BackboneModels

  /** How a trip's layer looks: the trip's style, transparent when the trip
      is hidden. */
  function LayerStyle(t: Trip): (s: Style)
    reads t`display, t`color
    ensures s.opacity == (if t.display then 1.0 else 0.0)
    ensures s.(opacity := 1.0) == t.GetStyle()
  {
    if t.display then t.GetStyle() else t.GetStyle().(opacity := 0.0)
  }

  /** `TripMapView`: the Leaflet layer of one trip, reduced to its style. */
  class MapView {
    const model: Trip
    var style: Style

    /** `render`: the layer starts with the trip's style. */
    constructor (model: Trip)
      ensures this.model == model && style == model.GetStyle()
    {
      this.model := model;
      style := model.GetStyle();
    }

    /** `set_display`: `show` restyles the layer to the trip's style, `hide`
        merges opacity 0 into the current style. A layer that carried the
        trip's style in either opacity before carries `LayerStyle` after. */
    method SetDisplay()
      modifies this`style
      ensures model.display ==> style == model.GetStyle()
      ensures !model.display ==> style == old(style).(opacity := 0.0)
      ensures old(style.(opacity := 1.0)) == model.GetStyle() ==> style == LayerStyle(model)
    {
      if model.display {
        style := model.GetStyle();
      } else {
        style := style.(opacity := 0.0);
      }
    }
  }

  /** The three looks of a checkbox. */
  datatype TriState = Unchecked | Checked | Indeterminate

  /** What `check_display` derives from the trips of a route: unchecked
      when none is shown (an empty route included), checked when all are,
      indeterminate otherwise. */
  function TriStateOf(ts: seq<Trip>): TriState
    reads ts`display
  {
    var shown := Shown(ts);
    if |shown| == 0 then Unchecked else if |shown| == |ts| then Checked else Indeterminate
  }

  lemma TriStateOfMeans(ts: seq<Trip>)
    ensures TriStateOf(ts) == Unchecked <==> forall i :: 0 <= i < |ts| ==> !ts[i].display
    ensures TriStateOf(ts) == Checked <==> ts != [] && forall i :: 0 <= i < |ts| ==> ts[i].display
    ensures TriStateOf(ts) == Indeterminate <==>
              (exists i :: 0 <= i < |ts| && ts[i].display) && (exists i :: 0 <= i < |ts| && !ts[i].display)
  {
    ShownMeans(ts);
  }

  /** `RouteView`: the panel of one route short name. */
  class RouteView {
    const shortName: string
    const longName: string
    const routeSort: nat
    var collection: seq<Trip>
    var inbound: seq<Trip>
    var outbound: seq<Trip>
    var checked: bool
    var indeterminate: bool

    /** `initialize` and `render`: the sort key of the name, an empty trip
        collection and a checked route checkbox. */
    constructor (shortName: string, longName: string)
      ensures this.shortName == shortName && this.longName == longName
      ensures routeSort == RouteSortKey(shortName)
      ensures collection == [] && inbound == [] && outbound == []
      ensures checked && !indeterminate
    {
      this.shortName := shortName;
      this.longName := longName;
      routeSort := RouteSortKey(shortName);
      collection := [];
      inbound := [];
      outbound := [];
      checked := true;
      indeterminate := false;
    }

    /** The pair `route_sort` orders routes by. */
    function Key(): RouteKey
    {
      RouteKey(routeSort, shortName)
    }

    /** What the route checkbox shows. */
    function Checkbox(): TriState
      reads this`checked, this`indeterminate
    {
      if indeterminate then Indeterminate else if checked then Checked else Unchecked
    }

    /** `collection.add(trip)` and its `add_trip` listener: the trip joins
        the collection and the list of its direction; direction 1 is
        outbound, every other value inbound. */
    method AddTrip(t: Trip)
      modifies this`collection, this`inbound, this`outbound
      ensures collection == old(collection) + [t]
      ensures t.properties.directionId == 1 ==> outbound == old(outbound) + [t] && inbound == old(inbound)
      ensures t.properties.directionId != 1 ==> inbound == old(inbound) + [t] && outbound == old(outbound)
      ensures old(inbound == Inbound(collection) && outbound == Outbound(collection)) ==>
                inbound == Inbound(collection) && outbound == Outbound(collection)
    {
      OutboundAppend(collection, t);
      collection := collection + [t];
      if t.properties.directionId == 1 {
        outbound := outbound + [t];
      } else {
        inbound := inbound + [t];
      }
    }

    /** `check_display`: clears `indeterminate`, then unchecks when no trip
        is shown, checks when all are, and otherwise sets `indeterminate`
        and leaves `checked` as it was. */
    method CheckDisplay()
      modifies this`checked, this`indeterminate
      ensures Checkbox() == TriStateOf(collection)
      ensures indeterminate <==> TriStateOf(collection) == Indeterminate
      ensures TriStateOf(collection) == Indeterminate ==> checked == old(checked)
    {
      var display := Shown(collection);
      indeterminate := false;
      if |display| == 0 {
        checked := false;
      } else if |display| == |collection| {
        checked := true;
      } else {
        indeterminate := true;
      }
    }
  }
}
