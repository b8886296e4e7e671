/**
 * The decisions src/components/OpenStreetMapView.tsx takes before it writes its map script:
 * which points are valid and collected, where the map is centred, one marker per point,
 * the ordered coordinate list of the route query, whether bounds are fitted and whether
 * a click handler is installed.
 *
 * Coordinates are a type parameter C with a validity function `valid` standing for
 * `isValidCoord` (non-null, numeric, finite, not NaN); their numbers are never inspected,
 * and the formatting of a number is the parameter CoordFormat.
 */
module MapView {
  import opened Wrappers

  /** The fallback centre when no point is valid (lines 61-62). */
  const DEFAULT_LAT: real := 1.369
  const DEFAULT_LNG: real := 103.8864

  const ROUTE_SEPARATOR: string := ";"
  const MAP_PRESSED: string := "mapPressed"

  datatype CenterOn = CenterOrigin | CenterDestination | FitAll

  /** The map's initial centre: a point, the mean of the collected points, or the default latitude and longitude. */
  datatype Center<C> = AtPoint(point: C) | MeanOf(points: seq<C>) | DefaultCenter(lat: real, lng: real)

  /** How the script prints a coordinate's longitude and latitude. */
  datatype CoordFormat<!C> = CoordFormat(lon: C -> string, lat: C -> string)

  datatype Marker<C> = CircleMarker(at: C, fillColor: string)

  /** The component's props that the script depends on. */
  datatype MapProps<C> = MapProps(
    origin: Option<C>,
    destination: Option<C>,
    waypoints: seq<C>,
    showRoute: bool,
    centerOn: CenterOn,
    onPress: bool,          // whether an `onPress` callback is given
    markerColor: string)

  /** What the generated script does: the route is the coordinate list of the routing query, if one is made. */
  datatype MapScript<C> = MapScript(
    center: Center<C>,
    markers: seq<Marker<C>>,
    route: Option<string>,
    fitBounds: Option<seq<C>>,
    clickHandler: bool)

  /** `isValidCoord` on a prop that may be null or undefined (lines 32-42). */
  predicate IsValidCoord<C>(valid: C -> bool, c: Option<C>): (b: bool)
    // A null or undefined prop is never valid; a present one is valid exactly when `valid` accepts it.
    ensures c.None? ==> !b
    ensures c.Some? ==> (b <==> valid(c.value))
  {
    c.Some? && valid(c.value)
  }

  /** The valid waypoints, in order: `waypoints.filter(isValidCoord)`. */
  function ValidPoints<C>(valid: C -> bool, ws: seq<C>): (r: seq<C>)
    ensures forall i :: 0 <= i < |r| ==> valid(r[i])
    ensures |r| <= |ws|
    decreases |ws|
  {
    if ws == [] then []
    else ValidPoints(valid, ws[..|ws| - 1]) + (if valid(ws[|ws| - 1]) then [ws[|ws| - 1]] else [])
  }

  /** A point survives the filter exactly when it is one of the waypoints and is valid. */
  lemma {:induction false} ValidPointsMembers<C>(valid: C -> bool, ws: seq<C>)
    ensures forall c :: c in ValidPoints(valid, ws) <==> c in ws && valid(c)
    decreases |ws|
  {
    if ws != [] {
      ValidPointsMembers(valid, ws[..|ws| - 1]);
      assert ws == ws[..|ws| - 1] + [ws[|ws| - 1]];
    }
  }

  /** `allPoints`: the valid origin, then the valid destination, then the valid waypoints in order. */
  function AllPoints<C>(valid: C -> bool, origin: Option<C>, destination: Option<C>, waypoints: seq<C>): (r: seq<C>)
    ensures forall i :: 0 <= i < |r| ==> valid(r[i])
    ensures |r| <= 2 + |waypoints|
    ensures |r| == (if IsValidCoord(valid, origin) then 1 else 0) + (if IsValidCoord(valid, destination) then 1 else 0)
      + |ValidPoints(valid, waypoints)|
    ensures IsValidCoord(valid, origin) ==> r[0] == origin.value
    ensures IsValidCoord(valid, destination) ==> r[if IsValidCoord(valid, origin) then 1 else 0] == destination.value
    ensures r[|r| - |ValidPoints(valid, waypoints)|..] == ValidPoints(valid, waypoints)
  {
    (if IsValidCoord(valid, origin) then [origin.value] else [])
      + (if IsValidCoord(valid, destination) then [destination.value] else [])
      + ValidPoints(valid, waypoints)
  }

  /** Filling `allPoints` by `push` (lines 67-79). */
  method CollectPoints<C>(valid: C -> bool, origin: Option<C>, destination: Option<C>, waypoints: seq<C>)
    returns (allPoints: seq<C>)
    ensures allPoints == AllPoints(valid, origin, destination, waypoints)
  {
    allPoints := [];
    if IsValidCoord(valid, origin) {
      allPoints := allPoints + [origin.value];
    }
    if IsValidCoord(valid, destination) {
      allPoints := allPoints + [destination.value];
    }
    ghost var endpoints := allPoints;
    for i := 0 to |waypoints|
      invariant allPoints == endpoints + ValidPoints(valid, waypoints[..i])
    {
      ValidPointsStep(valid, waypoints, i);
      if valid(waypoints[i]) {
        assert endpoints + ValidPoints(valid, waypoints[..i]) + [waypoints[i]] ==
          endpoints + (ValidPoints(valid, waypoints[..i]) + [waypoints[i]]);
        allPoints := allPoints + [waypoints[i]];
      } else {
        assert ValidPoints(valid, waypoints[..i]) + [] == ValidPoints(valid, waypoints[..i]);
      }
    }
    assert waypoints[..|waypoints|] == waypoints;
  }

  /** Filtering one more waypoint appends it exactly when it is valid. */
  lemma ValidPointsStep<C>(valid: C -> bool, ws: seq<C>, i: nat)
    requires i < |ws|
    ensures ValidPoints(valid, ws[..i + 1]) == ValidPoints(valid, ws[..i]) + (if valid(ws[i]) then [ws[i]] else [])
  {
    assert ws[..i + 1][..i] == ws[..i];
  }

  /** The centre rule (lines 81-96), in its order of preference. */
  function ChooseCenter<C>(valid: C -> bool, centerOn: CenterOn, origin: Option<C>, destination: Option<C>, waypoints: seq<C>)
    : (r: Center<C>)
    ensures var points := AllPoints(valid, origin, destination, waypoints);
      && (centerOn == CenterDestination && IsValidCoord(valid, destination) ==> r == AtPoint(destination.value))
      && (centerOn == CenterOrigin && IsValidCoord(valid, origin) ==> r == AtPoint(origin.value))
      && (r.DefaultCenter? <==> points == [])
      && (r.DefaultCenter? ==> r == DefaultCenter(DEFAULT_LAT, DEFAULT_LNG))
      && (r.AtPoint? ==> r.point in points)
      // Apart from a valid requested destination, a point centre is the first collected point.
      && (r.AtPoint? && !(centerOn == CenterDestination && IsValidCoord(valid, destination)) ==>
            r.point == points[0])
      && (r.MeanOf? <==> centerOn == FitAll && points != [])
      && (r.MeanOf? ==> r.points == points)
  {
    var points := AllPoints(valid, origin, destination, waypoints);
    if centerOn == CenterDestination && IsValidCoord(valid, destination) then AtPoint(destination.value)
    else if centerOn == CenterOrigin && IsValidCoord(valid, origin) then AtPoint(origin.value)
    else if centerOn == FitAll && |points| > 0 then MeanOf(points)
    else if |points| > 0 then AtPoint(points[0])
    else DefaultCenter(DEFAULT_LAT, DEFAULT_LNG)
  }

  /** One circle marker per collected point, in order (lines 99-112). */
  function Markers<C>(points: seq<C>, color: string): (r: seq<Marker<C>>)
    ensures |r| == |points|
    ensures forall i :: 0 <= i < |r| ==> r[i].at == points[i] && r[i].fillColor == color
  {
    seq(|points|, i requires 0 <= i < |points| => CircleMarker(points[i], color))
  }

  // ---------------------------------------------------------------------------
  // The route query

  /** `${c.longitude},${c.latitude}` */
  function LonLat<C>(fmt: CoordFormat<C>, c: C): (s: string)
    ensures s != "" && ',' in s
  {
    fmt.lon(c) + "," + fmt.lat(c)
  }

  function LonLats<C>(fmt: CoordFormat<C>, cs: seq<C>): (r: seq<string>)
    ensures |r| == |cs| && forall i :: 0 <= i < |cs| ==> r[i] == LonLat(fmt, cs[i])
  {
    seq(|cs|, i requires 0 <= i < |cs| => LonLat(fmt, cs[i]))
  }

  /** `parts.join(';')` */
  function Join(parts: seq<string>): (r: string)
    // Joined non-empty parts are falsy exactly when there are no parts (the test at line 122).
    ensures (forall i :: 0 <= i < |parts| ==> parts[i] != "") ==> (r == "" <==> parts == [])
    ensures parts != [] ==> |parts[0]| <= |r| && r[..|parts[0]|] == parts[0]
    decreases |parts|
  {
    if parts == [] then ""
    else if |parts| == 1 then parts[0]
    else parts[0] + ROUTE_SEPARATOR + Join(parts[1..])
  }

  lemma {:induction false} JoinAppend(a: seq<string>, b: seq<string>)
    requires a != [] && b != []
    ensures Join(a + b) == Join(a) + ROUTE_SEPARATOR + Join(b)
    decreases |a|
  {
    assert (a + b)[0] == a[0];
    if |a| > 1 {
      assert (a + b)[1..] == a[1..] + b;
      JoinAppend(a[1..], b);
    } else {
      assert (a + b)[1..] == b;
    }
  }

  /** The stops of the route, if a route is requested: origin, the valid waypoints, destination (lines 116-125). */
  function RouteStops<C>(valid: C -> bool, showRoute: bool, origin: Option<C>, destination: Option<C>, waypoints: seq<C>)
    : (r: Option<seq<C>>)
    ensures r.Some? <==> showRoute && IsValidCoord(valid, origin) && IsValidCoord(valid, destination)
    ensures r.Some? ==> |r.value| >= 2 && r.value[0] == origin.value && r.value[|r.value| - 1] == destination.value
    ensures r.Some? ==> forall i :: 0 <= i < |r.value| ==> valid(r.value[i])
    ensures r.Some? ==> r.value[1..|r.value| - 1] == ValidPoints(valid, waypoints)
  {
    if showRoute && IsValidCoord(valid, origin) && IsValidCoord(valid, destination) then
      Some([origin.value] + ValidPoints(valid, waypoints) + [destination.value])
    else None
  }

  /**
   * `routeCoords` as the source builds it, with the waypoint part only when it is non-empty (lines 117-124).
   * Both branches give the `;`-join of origin, valid waypoints and destination, each written `lon,lat`.
   */
  function RouteCoords<C>(fmt: CoordFormat<C>, valid: C -> bool, origin: C, destination: C, waypoints: seq<C>): (r: string)
    ensures r == Join(LonLats(fmt, [origin] + ValidPoints(valid, waypoints) + [destination]))
  {
    var mid := ValidPoints(valid, waypoints);
    var o, m, d := LonLat(fmt, origin), LonLats(fmt, mid), LonLat(fmt, destination);
    var waypointCoords := Join(m);
    assert LonLats(fmt, [origin] + mid + [destination]) == [o] + m + [d];
    JoinAroundMiddle(o, m, d);
    if waypointCoords != "" then o + ROUTE_SEPARATOR + waypointCoords + ROUTE_SEPARATOR + d
    else o + ROUTE_SEPARATOR + d
  }

  /** Joining `o`, the parts `m` and `d` writes the middle part only when its join is non-empty. */
  lemma JoinAroundMiddle(o: string, m: seq<string>, d: string)
    requires forall i :: 0 <= i < |m| ==> m[i] != ""
    ensures Join([o] + m + [d]) ==
      if Join(m) != "" then o + ROUTE_SEPARATOR + Join(m) + ROUTE_SEPARATOR + d else o + ROUTE_SEPARATOR + d
  {
    if m == [] {
      assert [o] + m + [d] == [o, d];
      assert [o, d][1..] == [d];
    } else {
      assert Join(m) != "";
      JoinAroundParts(o, m, d);
    }
  }

  lemma JoinAroundParts(o: string, m: seq<string>, d: string)
    requires m != []
    ensures Join([o] + m + [d]) == o + ROUTE_SEPARATOR + Join(m) + ROUTE_SEPARATOR + d
  {
    var tail := m + [d];
    assert Join(tail) == Join(m) + ROUTE_SEPARATOR + d by { JoinAppend(m, [d]); }
    assert Join([o] + tail) == Join([o]) + ROUTE_SEPARATOR + Join(tail) by { JoinAppend([o], tail); }
    assert [o] + m + [d] == [o] + tail;
  }

  /** Bounds are fitted to all points only when centring on all of them, with more than one point, and no route (lines 152-158). */
  function FitBoundsPoints<C>(centerOn: CenterOn, points: seq<C>, showRoute: bool): (r: Option<seq<C>>)
    ensures r.Some? <==> centerOn == FitAll && |points| > 1 && !showRoute
    ensures r.Some? ==> r.value == points
  {
    if centerOn == FitAll && |points| > 1 && !showRoute then Some(points) else None
  }

  /** `handleMessage` (lines 215-219): whether `onPress` is called. */
  function HandleMessage(data: string, onPressGiven: bool): (calls: bool)
    ensures calls ==> onPressGiven && data == MAP_PRESSED
    ensures onPressGiven && data == MAP_PRESSED ==> calls
  {
    data == MAP_PRESSED && onPressGiven
  }

  /** The script's decisions, taken step by step as the memoised builder does (lines 59-158, 200-208). */
  method BuildMapScript<C>(props: MapProps<C>, valid: C -> bool, fmt: CoordFormat<C>) returns (script: MapScript<C>)
    ensures script.center == ChooseCenter(valid, props.centerOn, props.origin, props.destination, props.waypoints)
    ensures script.markers == Markers(AllPoints(valid, props.origin, props.destination, props.waypoints), props.markerColor)
    ensures script.route.Some? <==> RouteStops(valid, props.showRoute, props.origin, props.destination, props.waypoints).Some?
    ensures script.route.Some? ==>
      script.route.value == Join(LonLats(fmt, RouteStops(valid, props.showRoute, props.origin, props.destination, props.waypoints).value))
    ensures script.fitBounds == FitBoundsPoints(props.centerOn, AllPoints(valid, props.origin, props.destination, props.waypoints), props.showRoute)
    ensures script.clickHandler == props.onPress
  {
    var allPoints := CollectPoints(valid, props.origin, props.destination, props.waypoints);

    var center: Center<C> := DefaultCenter(DEFAULT_LAT, DEFAULT_LNG);
    if props.centerOn == CenterDestination && IsValidCoord(valid, props.destination) {
      center := AtPoint(props.destination.value);
    } else if props.centerOn == CenterOrigin && IsValidCoord(valid, props.origin) {
      center := AtPoint(props.origin.value);
    } else if props.centerOn == FitAll && |allPoints| > 0 {
      center := MeanOf(allPoints);
    } else if |allPoints| > 0 {
      center := AtPoint(allPoints[0]);
    }

    var markers := Markers(allPoints, props.markerColor);

    var route: Option<string> := None;
    if props.showRoute && IsValidCoord(valid, props.origin) && IsValidCoord(valid, props.destination) {
      route := Some(RouteCoords(fmt, valid, props.origin.value, props.destination.value, props.waypoints));
    }

    var fitBounds: Option<seq<C>> := None;
    if props.centerOn == FitAll && |allPoints| > 1 && !props.showRoute {
      fitBounds := Some(allPoints);
    }

    script := MapScript(center, markers, route, fitBounds, props.onPress);
  }

  /** A route and a bounds fit are never both emitted. */
  lemma RouteAndFitBoundsExclusive<C>(props: MapProps<C>, valid: C -> bool)
    ensures FitBoundsPoints(props.centerOn, AllPoints(valid, props.origin, props.destination, props.waypoints), props.showRoute).Some? ==>
      RouteStops(valid, props.showRoute, props.origin, props.destination, props.waypoints).None?
  {
  }

  /** Every collected point, and so every marker, is valid, and every valid input point gets a marker. */
  lemma MarkersCoverValidPoints<C>(props: MapProps<C>, valid: C -> bool, c: C)
    ensures var ms := Markers(AllPoints(valid, props.origin, props.destination, props.waypoints), props.markerColor);
      (c in props.waypoints && valid(c) ==> exists i :: 0 <= i < |ms| && ms[i].at == c)
      && forall i :: 0 <= i < |ms| ==> valid(ms[i].at)
  {
    var points := AllPoints(valid, props.origin, props.destination, props.waypoints);
    var ms := Markers(points, props.markerColor);
    if c in props.waypoints && valid(c) {
      ValidPointsMembers(valid, props.waypoints);
      assert c in ValidPoints(valid, props.waypoints);
      assert c in points;
      var i :| 0 <= i < |points| && points[i] == c;
      assert ms[i].at == c;
    }
  }
}
