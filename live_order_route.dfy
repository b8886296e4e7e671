/**
 * src/components/LiveOrderRoute.tsx: how an order's pickup, dropoff and waypoints become the
 * origin, destination and middle waypoints handed to the map view, which is always asked to
 * draw the route and to centre on the origin.
 *
 * `restoreFleetbasePlace` followed by `getCoordinates` is the collaborator `coords`: it maps a
 * place, or its absence, to a coordinate object, which may be invalid. Place identity (`!==`)
 * is Place equality.
 */
module LiveOrderRoute {
  import opened Wrappers
  import opened Orders
  import MapView

  /** The marker colour the map view uses when none is passed. */
  const DEFAULT_MARKER_COLOR: string := "#3b82f6"

  /** A middle waypoint handed to the map: the place (its coordinates) and its address as caption. */
  datatype MiddleWaypoint = MiddleWaypoint(place: Place, caption: Option<string>)

  /** `Array.prototype.slice(start, end)`: negative bounds count from the end; bounds are clamped to the array. */
  function JsSlice<T>(s: seq<T>, start: int, end: int): (r: seq<T>)
    ensures |r| <= |s|
    // In-range bounds select `s[start..end]`; a negative end stops that many elements before the end.
    ensures 0 <= start <= end <= |s| ==> r == s[start..end]
    ensures 0 <= start && end < 0 && start <= |s| + end ==> r == s[start..|s| + end]
    // Bounds that meet or cross select nothing.
    ensures 0 <= end <= start || (end < 0 && 0 <= |s| + end <= start) ==> r == []
  {
    var from := if start < 0 then (if |s| + start < 0 then 0 else |s| + start) else (if start > |s| then |s| else start);
    var to := if end < 0 then (if |s| + end < 0 then 0 else |s| + end) else (if end > |s| then |s| else end);
    if from < to then s[from..to] else []
  }

  /** `order.getAttribute('payload.waypoints', []) ?? []`: undefined and null both read as no waypoints (line 32). */
  function RouteWaypoints(o: Order): (ws: seq<Place>)
    ensures PayloadOrEmpty(o).waypoints.Listed? ==> ws == PayloadOrEmpty(o).waypoints.places
    ensures !PayloadOrEmpty(o).waypoints.Listed? ==> ws == []
  {
    WaypointPlaces(PayloadOrEmpty(o).waypoints)
  }

  /** The start (line 35): the pickup if present, otherwise the first waypoint if there is one. */
  function StartWaypoint(pickup: Option<Place>, waypoints: seq<Place>): (r: Option<Place>)
    ensures pickup.Some? ==> r == pickup
    ensures pickup.None? && waypoints != [] ==> r == Some(waypoints[0])
    ensures r.None? <==> pickup.None? && waypoints == []
  {
    if pickup.None? && |waypoints| > 0 then Some(waypoints[0]) else pickup
  }

  /** The end (line 39): the dropoff if present, otherwise the last waypoint when it is not also the first. */
  function EndWaypoint(dropoff: Option<Place>, waypoints: seq<Place>): (r: Option<Place>)
    ensures dropoff.Some? ==> r == dropoff
    ensures dropoff.None? ==> (r.Some? <==> |waypoints| > 0 && waypoints[|waypoints| - 1] != waypoints[0])
    ensures dropoff.None? && r.Some? ==> r.value == waypoints[|waypoints| - 1]
    ensures dropoff.None? && |waypoints| == 1 ==> r.None?
  {
    if dropoff.None? && |waypoints| > 0 && waypoints[|waypoints| - 1] != waypoints[0] then Some(waypoints[|waypoints| - 1])
    else dropoff
  }

  /** The middle waypoints (lines 47-52): none when focusing on the current destination, else `waypoints.slice(1, -1)` labelled by address. */
  function MiddleWaypoints(waypoints: seq<Place>, focusCurrentDestination: bool): (r: seq<MiddleWaypoint>)
    ensures focusCurrentDestination ==> r == []
    ensures !focusCurrentDestination ==> |r| == (if |waypoints| >= 2 then |waypoints| - 2 else 0)
    ensures !focusCurrentDestination ==>
      forall i :: 0 <= i < |r| ==> r[i] == MiddleWaypoint(waypoints[i + 1], waypoints[i + 1].address)
  {
    if focusCurrentDestination then []
    else
      var inner := JsSlice(waypoints, 1, -1);
      seq(|inner|, i requires 0 <= i < |inner| => MiddleWaypoint(inner[i], inner[i].address))
  }

  /** The props LiveOrderRoute gives the map view (lines 43-67): `showRoute` always, centred on the origin, no `onPress`. */
  function LiveMapProps<C>(o: Order, focusCurrentDestination: bool, coords: Option<Place> -> C): (p: MapView.MapProps<C>)
    ensures p.showRoute && p.centerOn == MapView.CenterOrigin && !p.onPress
    ensures p.origin.Some? && p.destination.Some?
    ensures |p.waypoints| == |MiddleWaypoints(RouteWaypoints(o), focusCurrentDestination)|
  {
    var pickup := PayloadOrEmpty(o).pickup;
    var dropoff := PayloadOrEmpty(o).dropoff;
    var ws := RouteWaypoints(o);
    var middle := MiddleWaypoints(ws, focusCurrentDestination);
    MapView.MapProps(
      Some(coords(StartWaypoint(pickup, ws))),
      Some(coords(EndWaypoint(dropoff, ws))),
      seq(|middle|, i requires 0 <= i < |middle| => coords(Some(middle[i].place))),
      true,
      MapView.CenterOrigin,
      false,
      DEFAULT_MARKER_COLOR)
  }

  /** With no pickup or dropoff and a single waypoint, the route starts at that waypoint and has no end place. */
  lemma SingleWaypointHasNoEnd(w: Place)
    ensures StartWaypoint(None, [w]) == Some(w) && EndWaypoint(None, [w]) == None
    ensures MiddleWaypoints([w], false) == []
  {
  }

  /** The live route never fits bounds: it always asks for the route. */
  lemma LiveRouteNeverFitsBounds<C>(o: Order, focus: bool, coords: Option<Place> -> C, valid: C -> bool)
    ensures var p := LiveMapProps(o, focus, coords);
      MapView.FitBoundsPoints(p.centerOn, MapView.AllPoints(valid, p.origin, p.destination, p.waypoints), p.showRoute).None?
  {
  }

  /** The live route centres on the start place's coordinates whenever they are valid. */
  lemma LiveRouteCentersOnStart<C>(o: Order, focus: bool, coords: Option<Place> -> C, valid: C -> bool)
    requires valid(coords(StartWaypoint(PayloadOrEmpty(o).pickup, RouteWaypoints(o))))
    ensures var p := LiveMapProps(o, focus, coords);
      MapView.ChooseCenter(valid, p.centerOn, p.origin, p.destination, p.waypoints) ==
        MapView.AtPoint(coords(StartWaypoint(PayloadOrEmpty(o).pickup, RouteWaypoints(o))))
  {
  }

  /**
   * The route is drawn exactly when the start and end coordinates are valid, and then runs from the start
   * through the valid middle waypoints, in order, to the end; with `focusCurrentDestination` it goes straight.
   */
  lemma LiveRouteStops<C>(o: Order, focus: bool, coords: Option<Place> -> C, valid: C -> bool)
    ensures var p := LiveMapProps(o, focus, coords);
      var start := coords(StartWaypoint(PayloadOrEmpty(o).pickup, RouteWaypoints(o)));
      var end := coords(EndWaypoint(PayloadOrEmpty(o).dropoff, RouteWaypoints(o)));
      var stops := MapView.RouteStops(valid, p.showRoute, p.origin, p.destination, p.waypoints);
      && (stops.Some? <==> valid(start) && valid(end))
      && (stops.Some? ==> stops.value == [start] + MapView.ValidPoints(valid, p.waypoints) + [end])
      && (stops.Some? && focus ==> stops.value == [start, end])
  {
    var p := LiveMapProps(o, focus, coords);
    if focus {
      assert p.waypoints == [];
      assert MapView.ValidPoints(valid, p.waypoints) == [];
    }
  }

  /** A middle waypoint on the map is the coordinates of the waypoint one further along the order's list. */
  lemma MiddleWaypointsAreInner<C>(o: Order, coords: Option<Place> -> C, i: nat)
    requires i < |LiveMapProps(o, false, coords).waypoints|
    ensures i + 2 < |RouteWaypoints(o)|
    ensures LiveMapProps(o, false, coords).waypoints[i] == coords(Some(RouteWaypoints(o)[i + 1]))
  {
  }
}
