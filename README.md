# Transvisor Level-of-Service engine in Dafny

Transvisor draws a transit agency's routes on a map and colours each route by
its Level of Service (LOS), meaning how often it runs. This project models the
logic behind that picture and proves properties of it:

- **LOS classification.** This is shared by both browser front ends
  (`js/map.backbone.js`, `js/map.js`). The departures of a trip that fall in
  the window `start < t <= end` are kept. The average headway
  `(end - start) / n` is then looked up in a fixed table of seven half-open
  buckets `(min, max]`. Index 0 is "No service" and index 6 is grade "A".
- **The Backbone application** (`js/map.backbone.js`).
  - `Trip` models carry `display`, `los` and `color`.
  - Route panels group trips by `route_short_name`. The panels are kept
    sorted by an integer key parsed from the name, with ties broken by the
    name.
  - Each panel has a checkbox that is checked, unchecked or indeterminate.
    It is recomputed whenever a member trip's `display` changes.
  - Map layers are restyled when `display` changes. They are reordered by
    LOS once the collection has loaded.
- **The older control** (`js/map.js`).
  - It numbers the loaded features with a running counter.
  - It assigns every route its LOS.
  - It paints copies of the route list in ascending LOS order.
- **The GeoJSON-to-GTFS registry** (`geojson_gtfs.py`).
  - Stops are de-duplicated by their coordinates.
  - Missing stop and route ids are allocated as `max + 1`.
  - Names fall back to the id.
  - Missing trip ids are filled in with consecutive fresh numbers.
- **The GTFS-to-GeoJSON grouping** (`transvisor.py`, `gtfs_geojson.py`).
  - Only trips that run on Mondays are kept.
  - Each trip's stop times are sorted by `stop_sequence`.
  - Trips are grouped by `(shape_id, direction_id)` and each group is sorted
    by first departure.
  - A property record is built per group.
  - `transvisor.py` also has the `chunks` helper.

The model follows each file's own form:

- Objects whose attributes the code sets in place become classes with
  `modifies` frames. These are Backbone models and views, the `gtfsControl`
  routes, the `Schedule` dictionaries, and pygtfs trips whose `stop_times`
  are reassigned.
- Loops become methods with invariants. Examples are the `for … in LOS`
  scan, `add_gtfs`, `redraw`, `_assign_trip_ids`, and the building of
  `unfurled`.
- Filters, comparators, sorts and comprehensions become functions and
  lemmas.

The Python code sorts in many places, and the JavaScript code sorts with
`Array.prototype.sort`. Both are modelled by one stable insertion sort,
`StableSort.SortBy`, which is proved to be a sorted, stable permutation; for
a consistent key that is the order both languages give. The comparator of
`reorder_layers`, `a > b ? 1 : -1` (js/map.backbone.js:398-400), is not
consistent for layers of equal LOS, so their order among themselves depends
on the JavaScript engine. `BackboneApp.App.SortLayers` therefore promises only
ascending LOS and a permutation.

A pygtfs trip is a record with a mutable `stopTimes` field. A `timedelta` is
a number of seconds, and its `.seconds` attribute is that number modulo one
day.

Three details of the Backbone application shape the model:

- The route checkbox is a stored pair (`checked`, `indeterminate`). It is
  updated only when a member trip's `display` actually changes, so
  `add_to_route` can leave it stale. This is why the application class
  carries `ChecksInSync` as a preserved invariant rather than an invariant
  that always holds.
- An empty route panel shows unchecked, like a panel with no shown trips.
- Layers are reordered only when the collection finishes loading.

## Model

| member | source | states |
|---|---|---|
| LevelOfService.HeadwayOf | js/map.backbone.js:126 | with n > 0 departures the headway times n is exactly the window length; with none it is +Infinity, NaN or -Infinity for a positive, zero or negative window |
| LevelOfService.HeadwayCrossMultiplied | js/map.backbone.js:126-129 | for n > 0 the comparisons `headway > b` and `headway <= b` hold exactly when `span > b*n` and `span <= b*n` |
| LevelOfService.FirstFrom | js/map.backbone.js:128-133 | scanning from index i gives the first index whose bucket holds the headway, or the last index when none does |
| LevelOfService.Classify | js/map.backbone.js:124-134 | the index is a table index; no earlier bucket holds the headway; below the last index its own bucket holds it |
| LevelOfService.FindLos | js/map.backbone.js:128-133 | the `for…in` loop with early return yields the first matching bucket, falls through to the last index, and agrees with Classify |
| LevelOfService.BoundsContiguous | js/map.backbone.js:24-67 | each bucket's min is the next bucket's max; the first max is Infinity and the last min is -1 |
| LevelOfService.MinsDecrease | js/map.backbone.js:24-67 | in a contiguous table the lower bounds strictly decrease |
| LevelOfService.ContiguousDisjoint | js/map.backbone.js:24-67 | in a contiguous table a headway lies in at most one bucket |
| LevelOfService.ContiguousCovers | js/map.backbone.js:24-67 | in a contiguous table a headway above the last min that is not above an earlier min lies in some later bucket |
| LevelOfService.ClassifyUniqueBucket | js/map.backbone.js:124-134 | every headway above -1, Infinity included, lies in exactly one bucket, the one Classify returns |
| LevelOfService.ClassifyFallsThrough | js/map.backbone.js:128-133 | a headway that is not above -1 (NaN, -Infinity) is in no bucket and the loop returns the last index, 6 |
| LevelOfService.NoDeparturesIsNoService | js/map.backbone.js:124-134 | with a positive window and no departures the headway is Infinity, which classifies to index 0, "No service" |
| LevelOfService.EmptyWindowFallsThrough | js/map.backbone.js:124-134 | an empty window with no departures gives NaN, which classifies to index 6 |
| LevelOfService.CalcTripsSelects | js/map.backbone.js:117-123 | the filter keeps exactly the departures with `start < t <= end`, each as often as it occurs |
| LevelOfService.CalcTripsKeepsOrder | js/map.backbone.js:117-123 | the kept departures are a subsequence of the input, so their order is the original order |
| LevelOfService.AllInWindow | js/map.backbone.js:117-123 | when every departure lies in the window the filter returns the input unchanged |
| LevelOfService.MorningPeakDepartures | js/map.backbone.js:117-123 | departures 25500, 26100, 28900, 29500, 30300 all lie in the window 25200–32400 |
| LevelOfService.MorningPeakBucket | js/map.backbone.js:124-134 | 7200 seconds over 5 departures is a headway of 1440, which is index 3, "D" |
| LevelOfService.MorningPeakExample | js/map.backbone.js:108-111 | the whole calculation for that trip and window gives index 3 |
| Clock.JsRem | js/map.backbone.js:83 | JavaScript's `%`: the remainder lies strictly between -b and b and equals the Euclidean one for a non-negative dividend |
| Clock.Pad2OfNat | js/map.backbone.js:81 | `pad(a, 2)` of a non-negative number is its last two decimal digits |
| Clock.ClockOfParts | js/map.backbone.js:84 | padded hours, a colon and padded minutes form a five-character string with the two parts in place |
| Clock.ClockFormat | js/map.backbone.js:80-85 | for t ≥ 0 the clock string has five characters, `:` in the middle, hours `floor(t/3600)` mod 100 and minutes `floor((t mod 3600)/60)`, which is below 60 |
| Clock.ClockReadsBack | js/map.js:1-6 | for t below 100 hours the string is all digits around the colon, and reading it back gives t rounded down to the minute |
| Clock.ClockOfMinusOne | js/map.js:1-6 | a negative time gives "-1:-1": floor division and truncating `%` differ there |
| Text.NatToString | js/map.backbone.js:81 | a number converts to a non-empty digit string whose last digit is n mod 10, with one digit exactly when n < 10 |
| Text.NatToStringRoundTrip | js/map.backbone.js:81 | parsing the decimal string of n gives back n |
| RouteOrder.LeadingDigitsMeans | js/map.backbone.js:71 | the leading run is a digit prefix of the name that cannot be extended |
| RouteOrder.MaximalRunUnique | js/map.backbone.js:71 | any maximal leading digit prefix is that run |
| RouteOrder.SortDigitsIsRegex | js/map.backbone.js:71 | every match of `^(\D)?(\d+)` has the computed group 2, and a computed group 2 comes from a match |
| RouteOrder.RouteSortKeyExamples | js/map.backbone.js:256-260 | "M1"→1, "1A"→1, "1"→1, "10"→10, "NX1"→0, "AB"→0 |
| RouteOrder.StrLessIrreflexive | js/map.backbone.js:75 | JavaScript's string `<` is irreflexive |
| RouteOrder.StrLessTransitive | js/map.backbone.js:75 | string `<` is transitive |
| RouteOrder.StrLessTotal | js/map.backbone.js:75 | of two different strings one is less than the other |
| RouteOrder.StrLessAsymmetric | js/map.backbone.js:75 | string `<` is asymmetric |
| RouteOrder.RouteCompare | js/map.backbone.js:73-78 | the comparator never answers 0 |
| RouteOrder.RouteCompareIsKeyLess | js/map.backbone.js:73-78 | for different names the comparator is negative exactly when (key, name) is lexicographically less, and that order is total and asymmetric |
| RouteOrder.KeyLessTransitive | js/map.backbone.js:73-78 | the (key, name) order is transitive |
| RouteOrder.KeyLessIrreflexive | js/map.backbone.js:73-78 | the (key, name) order is irreflexive |
| RouteOrder.InsertByKey | js/map.backbone.js:367-369 | pushing a view and re-sorting gives a permutation of the old list plus the new view |
| RouteOrder.InsertByKeySorted | js/map.backbone.js:367-369 | when the new name is not yet in the list, the re-sorted list is again strictly sorted by (key, name) |
| RouteOrder.StrictlySortedUnique | js/map.backbone.js:369 | two strictly sorted permutations of the same views are equal, so any correct sort of the pushed list gives the same order |
| StableSort.SortBy | js/map.js:249 | the sorted sequence is a permutation of the input |
| StableSort.SortByIsSorted | js/map.js:249 | the keys of the sorted sequence never decrease |
| StableSort.SortByIsStable | js/map.js:249 | the elements with any given key keep their relative order |
| StableSort.SortBySorted | js/map.js:249 | a sequence that is already sorted comes back unchanged |
| BackboneModels.TableMatchesBounds | js/map.backbone.js:13-67 | the seven LOS rows carry the classifier's buckets in order; row 0 is the grey "No service" row; better service gets a darker colour from the reversed palette |
| BackboneModels.Trip.constructor | js/map.backbone.js:99-104 | a new trip has los 0, no LOS trips, display on and the grey colour |
| BackboneModels.Trip.GetStyle | js/map.backbone.js:135-148 | the style holds the trip's colour, opacity 1 and butt caps; rail (`route_type < 3`) gets weight 10, a "2,5" dash and mitre joins, and other trips get weight 4 and no dash |
| BackboneModels.Trip.CalcLos | js/map.backbone.js:124-134 | the LOS index is Classify of the window's headway: the unique bucket for headways above -1, otherwise index 6 |
| BackboneModels.Trip.Calc | js/map.backbone.js:108-116 | `calc` stores the filtered departures, their LOS index and the colour of that LOS row |
| BackboneModels.MembersIn | js/map.backbone.js:347-380 | a trip is a member of a route name exactly when it is loaded and carries that short name |
| BackboneModels.MembersAppend | js/map.backbone.js:379 | loading one more trip extends only its own route's member list, at the end |
| BackboneModels.DirectionSplit | js/map.backbone.js:272-281 | a trip is listed as outbound exactly when its `direction_id` is 1, and as inbound otherwise |
| BackboneModels.OutboundAppend | js/map.backbone.js:272-281 | adding a trip appends it to exactly one of the two direction lists |
| BackboneModels.ShownMeans | js/map.backbone.js:286-288 | the shown trips are exactly those with `display` set; none are shown when every flag is off, and all when every flag is on |
| BackboneViews.LayerStyle | js/map.backbone.js:223-235 | a layer shows the trip's style when displayed and the same style at opacity 0 when hidden |
| BackboneViews.MapView.constructor | js/map.backbone.js:217-222 | a new layer is drawn with the trip's style |
| BackboneViews.MapView.SetDisplay | js/map.backbone.js:223-235 | a displayed trip's layer gets the trip's style; a hidden trip's layer keeps its style at opacity 0 |
| BackboneViews.TriStateOfMeans | js/map.backbone.js:283-298 | unchecked exactly when no trip is shown, which includes an empty route; checked exactly when the route is non-empty and all trips are shown; indeterminate otherwise |
| BackboneViews.RouteView.constructor | js/map.backbone.js:249-266 | a new panel stores the names, the sort key of the short name, empty lists, and a checked checkbox |
| BackboneViews.RouteView.AddTrip | js/map.backbone.js:272-281 | the trip joins the collection and the outbound list when `direction_id == 1`, otherwise the inbound list |
| BackboneViews.RouteView.CheckDisplay | js/map.backbone.js:283-298 | `indeterminate` is reset, then the checkbox shows the route's tri-state; in the mixed case `checked` is left as it was |
| BackboneApp.NamesDistinct | js/map.backbone.js:347-380 | once trips are grouped, no two route panels share a short name |
| BackboneApp.PaintStep | js/map.backbone.js:402-404 | after bringing the first i+1 layers to the front in turn, they are the last i+1 painted, in order, and no layer is lost |
| BackboneApp.SortedByLos | js/map.backbone.js:398-400 | sorting the map views by LOS permutes them into ascending LOS order |
| BackboneApp.App.constructor | js/map.backbone.js:326-346 | the window defaults to 7:00–9:00 when start or end is missing or 0 (`||`); the app starts empty with every invariant holding |
| BackboneApp.App.FindRoute | js/map.backbone.js:354-356 | `_.find` returns the first panel with the short name, or nothing when no panel has it |
| BackboneApp.App.InsertRoute | js/map.backbone.js:357-376 | a fresh panel for a new name joins the list, and the list stays strictly sorted by (key, name) |
| BackboneApp.App.AddToRoute | js/map.backbone.js:347-380 | the trip's LOS and colour are those of the app's window; afterwards there is one panel per distinct short name, each holding exactly its own trips; only the trip's own panel gains it; every panel whose inbound and outbound lists held its trips by direction still does (`Directed`) |
| BackboneApp.App.AddToMap | js/map.backbone.js:381-386 | a fresh layer for the trip, drawn with its style, is appended to the map views and the paint order; the panels, and every layer drawn as its trip's `display` says, are left as they were |
| BackboneApp.App.AddFeature | js/map.backbone.js:340-341 | an added trip goes through both `add` handlers: it is shown, carries the LOS of the app's window and that row's colour (`Calculated`), and every grouping, layer and direction-list invariant is kept |
| BackboneApp.App.Fetch | js/map.backbone.js:340-345 | loading the features adds one trip per feature in order, each with the window's LOS and colour (`Loaded`); the panels keep their direction lists; the `sync` handler then leaves the layers in ascending LOS order, painted in that order |
| BackboneApp.App.OnSync | js/map.backbone.js:395-405 | the `sync` handler `reorder_layers` leaves the layers in ascending LOS, painted in that order; once every trip is shown, every checkbox is in sync |
| BackboneApp.App.LoadAll | js/map.backbone.js:340-341 | each feature becomes a trip, in order, with the window's LOS and colour, keeping the trips loaded before (`Loaded`); the grouping, layer and direction-list invariants hold after every one |
| BackboneApp.App.ReorderLayers | js/map.backbone.js:395-405 | the map views are permuted into ascending LOS order and brought to front in that order, so the best service is on top; no layer is added or removed |
| BackboneApp.App.SortLayers | js/map.backbone.js:398-400 | the map views are permuted into ascending LOS order |
| BackboneApp.App.PaintLayers | js/map.backbone.js:402-404 | bringing every layer to front in list order makes the paint order the list order |
| BackboneApp.App.OnlyRouteOf | js/map.backbone.js:347-380 | a loaded trip is in its own route's panel and in no other |
| BackboneApp.App.SetDisplay | js/map.backbone.js:264-265 | `set('display', v)` sets the flag; on an actual change the owning panel recomputes its checkbox and the trip's layers are restyled; otherwise nothing else changes |
| BackboneApp.App.UpdateRoute | js/map.backbone.js:283-298 | the owning panel's checkbox is recomputed and the other panels keep theirs |
| BackboneApp.App.NotifyLayers | js/map.backbone.js:223-235 | the layers of the changed trip are shown or hidden; the other layers keep their style |
| BackboneApp.App.SetAll | js/map.backbone.js:387-394 | setting the flag on each listed trip in turn leaves each with the value, and checkboxes and layers stay in step |
| BackboneApp.App.HideAll | js/map.backbone.js:387-390 | every trip is hidden, and checkboxes and layers stay in step with the trips |
| BackboneApp.App.ShowAll | js/map.backbone.js:391-394 | every trip is shown, and checkboxes and layers stay in step |
| BackboneApp.App.ShowOnly | js/map.backbone.js:302-307 | a trip is shown exactly when it belongs to the chosen route |
| BackboneApp.App.ToggleTrips | js/map.backbone.js:317-321 | clicking a route checkbox flips it and sets every trip of that route to the new value; no trip of another panel changes |
| BackboneApp.App.ClickBox | js/map.backbone.js:319 | a click flips `checked` and clears `indeterminate` on that panel only |
| BackboneApp.App.ApplyBox | js/map.backbone.js:319-320 | every trip of the route takes the checkbox value, no trip of another panel changes, and the checkbox then reflects its trips |
| BackboneApp.App.ToggleTrip | js/map.backbone.js:205-208 | the trip's flag is negated, and checkboxes and layers stay in step |
| MapJs.TableMatchesBounds | js/map.js:16-26 | the seven rows carry the contiguous classifier buckets, opacity 1, and the reversed palette |
| MapJs.SortedRoutes | js/map.js:249 | the sorted copy is a permutation of the routes in ascending LOS order, and routes with equal LOS keep their order |
| MapJs.SortedRoutesPermuted | js/map.js:249 | the sorted copy is a permutation of the routes |
| MapJs.SortedRoutesAscending | js/map.js:249 | the sorted copy is in ascending LOS order |
| MapJs.SortedRoutesStable | js/map.js:249 | routes with equal LOS keep their relative order |
| MapJs.SortedArranged | js/map.js:249 | the sorted copy has all three properties |
| MapJs.GtfsControl.constructor | js/map.js:29-42 | the counter starts at 0 with no routes and nothing painted |
| MapJs.GtfsControl.AddGtfs | js/map.js:50-64 | the features are appended in order, each tagged with the URI and the running index, the counter grows by their number, and every route is then redrawn with the default window |
| MapJs.GtfsControl.Append | js/map.js:52-58 | appends the features in order; each gets `source = uri` and index `i + k`, where a feature listed twice keeps its last index |
| MapJs.GtfsControl.CalcLos | js/map.js:65-82 | the LOS is that of the window after `start || 25200` and `end || 32400` |
| MapJs.GtfsControl.Redraw | js/map.js:170-177 | every route gets the LOS of the same window, the route list keeps its order, and the routes are repainted |
| MapJs.GtfsControl.RedrawRoutes | js/map.js:245-261 | the layers are painted in ascending, stable LOS order from a copy, and each route's layer has its LOS colour and opacity |
| MapJs.GtfsControl.Repaint | js/map.js:247-260 | the paint order is the sorted copy and every route is styled by its LOS |
| MapJs.GtfsControl.SortedCopy | js/map.js:249 | `slice(0).sort(...)` gives an ascending, stable permutation and leaves the routes alone |
| MapJs.GtfsControl.StyleLayers | js/map.js:250-260 | each route's layer takes the colour and opacity of its LOS row and its `route-i` class |
| GeojsonGtfs.LabelOr | geojson_gtfs.py:80 | `x or fallback` keeps a truthy value and otherwise gives the fallback |
| GeojsonGtfs.MaxKey | geojson_gtfs.py:76 | the loop gives `max([0] + keys)`, and that value plus one is not a key |
| GeojsonGtfs.TruthyIds | geojson_gtfs.py:103 | `filter(None, ids)` keeps exactly the ids that are set and non-zero |
| GeojsonGtfs.MaxOf | geojson_gtfs.py:104 | `max` returns an element that is at least every element |
| GeojsonGtfs.Trip.AddStop | geojson_gtfs.py:28-33 | exactly one stop time is appended; departure defaults to arrival and a falsy sequence to the count plus one, so a trip numbered 1..n stays numbered |
| GeojsonGtfs.Schedule.constructor | geojson_gtfs.py:62-69 | the agency name defaults to the id and all three dictionaries start empty |
| GeojsonGtfs.Schedule.AddStop | geojson_gtfs.py:71-83 | known coordinates return the indexed stop and change nothing; a falsy id becomes a fresh `max + 1`; a known id returns the stored stop and indexes nothing; a new stop gets a name and is stored under its id and its coordinates |
| GeojsonGtfs.Schedule.StoreStop | geojson_gtfs.py:80-83 | the stop's name defaults to its id, and it is stored in both dictionaries |
| GeojsonGtfs.Schedule.IndexStops | geojson_gtfs.py:94 | each coordinate of the line is added as a stop, and the ids collected are the stops indexed at those coordinates; the position index gains exactly those coordinates and the stop dictionary exactly those ids |
| GeojsonGtfs.Schedule.IndexStop | geojson_gtfs.py:94 | `add_stop(Stop(position))` leaves the position indexed under a stop with the returned id; the index gains just that position and the stop dictionary just that id |
| GeojsonGtfs.Schedule.FillStops | geojson_gtfs.py:93-94 | a route with stop ids keeps them and changes no stop; a route without them gets the ids of the stops at its positions, and exactly those positions and ids are added |
| GeojsonGtfs.Schedule.AddRoute | geojson_gtfs.py:85-96 | a falsy route id becomes a fresh `max + 1`; a known id returns the stored route and changes nothing; a new route gets default names and its stops, and is stored under its id; when it had no stop ids, the position index gains exactly its coordinates and the stop dictionary exactly its new ids |
| GeojsonGtfs.Schedule.StoreRoute | geojson_gtfs.py:91-95 | names default to the id, missing stop ids come from the geometry, adding exactly those positions and ids to the stop dictionaries, and the route is stored |
| GeojsonGtfs.Schedule.AssignTripIds | geojson_gtfs.py:98-109 | afterwards every trip has an id; set ids are kept; trips without one get distinct ids counting up from `max(truthy ids, 0) + 1`, none equal to an existing id |
| GeojsonGtfs.FreshIds | geojson_gtfs.py:103-104 | the first free id is at least 1 and larger than every truthy id |
| GeojsonGtfs.NumberTrips | geojson_gtfs.py:105-109 | walking the routes' trips with a running counter numbers exactly the trips without an id, consecutively from the start value |
| TripGroups.MondayTrips | gtfs_geojson.py:60 | every kept trip runs on Mondays and every trip that runs on Mondays is kept; a trip without a calendar is dropped |
| TripGroups.MondayTripsKeepsOrder | gtfs_geojson.py:60 | the kept trips are a subsequence of the input, so they keep their order, and each Monday trip is kept as often as it occurs while every other trip is dropped |
| TripGroups.Grouped | transvisor.py:76-84 | a group holds only trips of its key, drawn from the input |
| TripGroups.GroupedAppend | transvisor.py:82-84 | appending one trip extends only its own key's group, at the end |
| TripGroups.GroupsPartition | transvisor.py:76-84 | every trip lands in its key's group as often as it occurs, and in no other group |
| TripGroups.GroupedNonEmpty | transvisor.py:82-83 | a key has a group exactly when some trip has that key |
| TripGroups.Unfurl | transvisor.py:76-84 | every trip's stop times become its old stop times sorted by `stop_sequence`; the dictionary has exactly the keys of the trips, and each entry is the trips of that key in input order |
| TripGroups.DaySeconds | transvisor.py:87 | `timedelta.seconds` lies in 0..86399, is congruent to the total, and is the total within one day |
| TripGroups.ArrivalSeconds | transvisor.py:116 | `getattr(arrival_time, 'seconds', None)` is absent exactly when the arrival time is, and otherwise within one day |
| TripGroups.FirstArrival | transvisor.py:87 | the sort key exists exactly when the trip has a first stop with an arrival time; no stop times raise an IndexError |
| TripGroups.Starts | transvisor.py:87 | all keys are computed exactly when every trip has one, one per trip; otherwise the error of some trip is reported |
| TripGroups.SortByStart | transvisor.py:87 | the loop computes `sorted(trips, key=first arrival seconds)`, or the error that stops it |
| TripGroups.ByStartFails | transvisor.py:87 | the sort fails exactly when some trip has no key, with the first such trip's error |
| TripGroups.ByStartMembers | transvisor.py:87 | a successful sort is a permutation of the group, and each sorted trip has a key |
| TripGroups.ByStartArranged | transvisor.py:87 | the sorted group ascends by first arrival, and trips with equal first arrival keep their order |
| TripGroups.SortedGroup | transvisor.py:86-87 | a sorted non-empty group is non-empty, and all its trips have keys and share the group's key |
| Transvisor.Chunks | transvisor.py:14-16 | a zero step raises (`range` ValueError); a negative step yields one empty chunk for an empty list and nothing otherwise |
| Transvisor.ChunksFrom | transvisor.py:14-16 | every chunk yielded is non-empty |
| Transvisor.ChunksSlices | transvisor.py:14-16 | chunk k is `l[k*n : k*n+n+1]` for each k with `k*n+1 < len(l)`, and the chunks reach the end of the list |
| Transvisor.ChunksOfShort | transvisor.py:14-16 | nothing is yielded when `len(l) <= 1` |
| Transvisor.ChunksOverlap | transvisor.py:14-16 | each chunk but the last has n+1 elements, and it ends with the first element of the next chunk |
| Transvisor.ChunksRejoin | transvisor.py:14-16 | gluing the chunks back together, each shared boundary once, gives the list again |
| Transvisor.ConsideredTrips | transvisor.py:73 | a trip without a calendar makes `x.service.monday` raise; otherwise the Monday trips are kept in order |
| Transvisor.Show | transvisor.py:113 | `%s` of a direction is "None" when it is absent and its decimal digits otherwise |
| Transvisor.Headsign | transvisor.py:113 | `"<short>: <headsign> (<direction>)"` starts with the short name, ends with `)`, and has the parts' total length plus 5 |
| Transvisor.StopIds | transvisor.py:115 | one stop id per stop time, in order |
| Transvisor.ScheduleRow | transvisor.py:116 | one arrival second, or nothing, per stop time, in order |
| Transvisor.Schedule | transvisor.py:116 | one schedule row per trip, in order |
| Transvisor.Describe | transvisor.py:111-117 | the record carries the route's short name, the headsign of the first trip, its shape, the stop ids of the first trip in its stop-time order, one schedule row per trip, and each trip's first arrival as its start |
| Transvisor.DescribeGroups | transvisor.py:86-118 | building every group's record fails exactly when some group fails, with that group's error; otherwise it has one record per group, each the group's record |
| Transvisor.DescribeGroup | transvisor.py:87-117 | sorting a group and describing it gives the group's record or its sort error |
| Transvisor.DescribeAll | transvisor.py:86-118 | for the grouping Unfurl produces, the result is described by the groups of the trips |
| Transvisor.RouteInfo | transvisor.py:69-118 | a trip without a calendar aborts with nothing changed; otherwise the Monday trips' stop times are sorted by sequence, other trips are untouched, and there is one record per `(shape, direction)` group, or the sort error of a failing group |
| Transvisor.DescribedGroup | transvisor.py:87-117 | a group's record has one start and one schedule row per trip, the starts never decrease, the shape is the key's, and the headsign names the first trip |
| Transvisor.DescribedStops | transvisor.py:78-115 | once every trip's stop times are sorted by sequence, `route_stops` lists the stop ids of the group's earliest trip by ascending `stop_sequence` |
| GtfsGeojson.StopRecordOf | gtfs_geojson.py:108 | a stop's entry carries its arrival seconds (or none), its stop id and its sequence |
| GtfsGeojson.TripRecordOf | gtfs_geojson.py:107-108 | a trip's entry copies its id, service, headsign and direction, with one stop entry per stop time |
| GtfsGeojson.TripRecords | gtfs_geojson.py:104-109 | the corrected loop gives one entry per trip of the group, in group order, each the entry of that trip |
| GtfsGeojson.TripRecordsAsWritten | gtfs_geojson.py:108 | as written, `trip[0]` on a Trip succeeds only when there is no trip to describe |
| GtfsGeojson.IncludeTripsFails | gtfs_geojson.py:108 | for any non-empty group the code as written raises, while the corrected loop lists every trip |
| GtfsGeojson.SortedGroupFailsAsWritten | gtfs_geojson.py:104-108 | as written, `includetrips` raises on every group whose sort succeeds, because a sorted group is never empty |
| GtfsGeojson.RecordsInOrder | gtfs_geojson.py:65 | once stop times are sorted by sequence, every trip entry lists its stops by ascending `stop_sequence` |
| GtfsGeojson.Describe | gtfs_geojson.py:94-109 | the record copies the route's type, agency, description and names, and takes shape, headsign and direction from the first trip; trips are listed exactly when asked for, one per trip, by the corrected trip loop `TripRecords` (see Findings) |
| GtfsGeojson.DescribeGroups | gtfs_geojson.py:73-114 | all groups' records or the error of a failing group, one record per group |
| GtfsGeojson.DescribeGroup | gtfs_geojson.py:74-109 | sorting a group and describing it gives the group's record or its sort error |
| GtfsGeojson.DescribeAll | gtfs_geojson.py:73-114 | for the grouping Unfurl produces, the result is described by the groups of the trips |
| GtfsGeojson.RouteInfo | gtfs_geojson.py:56-114 | the Monday trips' stop times are sorted by sequence (a trip without a calendar is skipped), other trips are untouched, and there is one record per group, or the sort error of a failing group; the records use the corrected trip loop `TripRecords` (see Findings), since as written `includetrips` raises on the first group that sorts |
| GtfsGeojson.DescribedGroup | gtfs_geojson.py:74-109 | a group's record has the key's shape and direction; with trips included its `k`th entry is the record of the `k`th trip of the group in first-arrival order, with that trip's stops in sequence order |

## Left out

- DOM rendering, templates and jQuery widgets are not modelled: `render`,
  `check_color`, the `show_loscontrol`, `show_routecontrol` and `build` panels,
  and `redraw_panel`. Only the state that the event handlers change is
  modelled.
- Leaflet is reduced to style records and a paint order:
  - `setStyle` becomes an assignment to a style field.
  - `bringToFront` moves a layer to the end of the paint order.
  - Layer groups and `clearLayers` are not modelled.
- `fit_all`, in both front ends, is not modelled. It unions Leaflet bounds
  over floating-point coordinates, passes `null` when there are no layers,
  and does not depend on `display`. `fit_zoom` is an empty stub.
- `get_qs`, `collection.fetch`, `load_gtfs` and `$.getJSON` read the page URL
  or the network. The fetched features are a parameter of `Fetch` and
  `AddGtfs`. The second, `redraw` argument of `add_gtfs` is ignored, because
  the code sets it to true.
- Features whose `properties` lack a field are not modelled: every field of
  `BackboneModels.Props` is present. In the code, a feature without
  `properties` or without `trip_starts` throws a TypeError in `calc_trips`
  (js/map.backbone.js:119, reached from `add_to_route` at :349), which ends
  that `add` handler. Features without a `route_short_name` all share one
  panel, named `undefined` (:351-356).
- BackboneApp.App.Fetch: appends the fetched features to whatever the
  collection holds. Backbone's `fetch` would merge them with, or remove,
  existing models; the application fetches only once, into an empty
  collection, where the two agree.
- RouteOrder.SortDigits and RouteOrder.StrLess: work on Unicode code points,
  whereas JavaScript's `\D` and string `<`/`>` work on UTF-16 code units. The
  two orders differ for names holding characters outside the Basic
  Multilingual Plane.
- RouteOrder.RouteSortKey: is an unbounded natural number, whereas `parseInt`
  (js/map.backbone.js:259) returns a double. Digit runs beyond 2^53 can round
  to the same key there, so distinct keys can compare equal in `route_sort`.
- GeojsonGtfs.Schedule.AddStop: stop ids are modelled as integers. The ids
  come straight from the GeoJSON (`Stop(**i)`, geojson_gtfs.py:177), so one
  may be a string. Once a string id is a key, Python 2's `max([0] + keys)`
  returns it, because every string sorts above every integer, and allocating
  the next id with `+ 1` raises a TypeError (geojson_gtfs.py:76). An empty
  string id is falsy and is replaced like a missing one.
- GeojsonGtfs.Schedule.AddRoute: route ids are modelled as integers. A string
  route id from the GeoJSON (`Route(**i)`, geojson_gtfs.py:178) makes the
  allocation `max([0] + keys) + 1` raise a TypeError in the same way
  (geojson_gtfs.py:87).
- `check_schedule` is not modelled because it is never called.
- LevelOfService.HeadwayOf: computes the headway as an exact rational, not as
  an IEEE double. JavaScript can round across a bucket bound: a 3000-second
  window with 5 departures gives 600.0000000000001 in doubles, which is grade
  B, while the exact value 600 is grade A.
- Clock.ClockFormat: states the format only for non-negative times. Negative
  times are covered only by `ClockOfMinusOne`.
- `Route.add_trip_speed` and `haversine` are floating-point geometry and are
  not modelled. The output of `Schedule.write` (CSV files) and the
  `__main__` blocks of every script are not modelled either.
- The stops in `Stop`/`Route` `geometry` are opaque coordinate values
  (`Position`).
- GeojsonGtfs.Schedule.AssignTripIds: Python 2 dict iteration order is
  arbitrary, so the order of `self.routes.values()` is a parameter. The
  contract holds for every order.
- GeojsonGtfs.Schedule.AssignTripIds: does not state which trip without an
  id gets which new id. The code hands them out in the order the trips are
  first met in that route order; the contract promises distinct ids in the
  range `max + 1 .. max + n`, for the `n` such trips, and no clash with an
  id already set.
- GeojsonGtfs.NumberTrips: the numbering loops of `_assign_trip_ids`
  (geojson_gtfs.py:105-109) have the same gap as `AssignTripIds`. Its
  `TripsNumbered` ensures say that exactly the trips without an id receive
  the consecutive block from the start value, but not which trip receives
  which number.
- The optional GTFS text fields are modelled as present strings:
  `trip_headsign`, `route_short_name`, `route_long_name` and `route_desc`.
  pygtfs holds `None` for a missing one. Then the `%s` format of
  `route_headsign` (transvisor.py:113) prints `None`, and `route_info`
  (gtfs_geojson.py:97-100, 107) writes JSON `null`. Neither case is
  represented.
- Transvisor.RouteInfo and GtfsGeojson.RouteInfo: the groups are returned as a
  map from `(shape_id, direction_id)` to the record, because the order of
  `unfurled.items()` is arbitrary. Two things depend on that order. One is
  the order in which the features are yielded, which the map does not
  record. The other is which error is raised when several groups fail: the
  model promises only that it is the error of one failing group.
- The `print` diagnostics and the `assert len(test_shape_id) == 1` warnings
  in `routeinfo` and `route_info` only print, so they are not modelled.
- `route_as_geo`, `route_from_stops` and `stop_as_geo` query the pygtfs
  database and an external trip planner, so the geometry of each feature is
  not modelled. `stopinfo` uses the `cityism.geojson` library, which is not
  part of this model.
- pygtfs entities are plain records with the fields the code reads. A time is
  held as whole seconds, which may exceed a day, and `.seconds` reduces it
  modulo 86400.

## Findings

| source | as written | input that shows it | evidently intended | confidence | as-written member | corrected member |
|---|---|---|---|---|---|---|
| gtfs_geojson.py:108 | the stop-time list for each trip is read from `trip[0].stop_times`, subscripting a pygtfs `Trip` object | any route with a Monday trip, run with `--trips`: the first group's first trip makes `trip[0]` raise a TypeError | read `trip.stop_times`, so each entry lists that trip's own stops | not executed | GtfsGeojson.TripRecordsAsWritten | GtfsGeojson.TripRecords |
