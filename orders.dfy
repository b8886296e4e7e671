/**
 * The pure rules of src/screens/DriverOrderManagementScreen.tsx: the stop, duration and
 * distance folds over the active orders, the header's plural choice, the adhoc test and
 * which order cards are rendered given the local dismissal list.
 */
module Orders {
  import opened Wrappers
  import opened JsValues

  /** A place object of an order's payload; `key` stands for its identity (JavaScript compares objects by reference). */
  datatype Place = Place(key: nat, address: Option<string>)

  /** `payload.waypoints`: undefined, null, or an array of places. */
  datatype Waypoints = AbsentWaypoints | NullWaypoints | Listed(places: seq<Place>)

  datatype Payload = Payload(pickup: Option<Place>, dropoff: Option<Place>, waypoints: Waypoints)

  /** The attributes of an order the core reads; attributes of loose type are JsValues. */
  datatype Order = Order(
    id: string,
    status: JsValue,
    adhoc: JsValue,
    driverAssigned: JsValue,
    payload: Option<Payload>,
    time: int,
    distance: int)

  /** The statuses excluded from the active set (DriverOrderManagementScreen.tsx line 60). */
  const INACTIVE_STATUSES: seq<string> := ["completed", "created", "canceled"]

  /** `order.getAttribute('payload') || {}`: a missing payload reads as one with every field undefined. */
  function PayloadOrEmpty(o: Order): Payload {
    o.payload.GetOr(Payload(None, None, AbsentWaypoints))
  }

  function Present(p: Option<Place>): seq<Place> {
    if p.Some? then [p.value] else []
  }

  /** The listed waypoints, with undefined and null both read as none. */
  function WaypointPlaces(w: Waypoints): seq<Place> {
    if w.Listed? then w.places else []
  }

  // ---------------------------------------------------------------------------
  // countStops, as written and corrected

  /**
   * One reduce step of `countStops` as written: `waypoints = []` replaces only undefined, so a
   * null `waypoints` reaches the spread `...waypoints` and throws (None).
   */
  function StopsAsWritten(o: Order): Option<nat> {
    var p := PayloadOrEmpty(o);
    match p.waypoints
    case NullWaypoints => None
    case AbsentWaypoints => Some(|Present(p.pickup)| + |Present(p.dropoff)|)
    case Listed(ws) => Some(|Present(p.pickup)| + |Present(p.dropoff)| + |ws|)
  }

  /**
   * `countStops` as written (lines 21-26): None stands for the TypeError that aborts the reduce.
   * It throws exactly when some order has null waypoints, and otherwise agrees with CountStops.
   */
  function CountStopsAsWritten(orders: seq<Order>): (r: Option<nat>)
    ensures r.None? <==> exists i :: 0 <= i < |orders| && HasNullWaypoints(orders[i])
    ensures r.Some? ==> r.value == CountStops(orders)
    decreases |orders|
  {
    if orders == [] then Some(0)
    else
      assert forall i :: 1 <= i < |orders| ==> orders[i] == orders[1..][i - 1];
      match StopsAsWritten(orders[0])
      case None => assert HasNullWaypoints(orders[0]); None
      case Some(n) =>
        match CountStopsAsWritten(orders[1..])
        case None => None
        case Some(m) => Some(n + m)
  }

  predicate HasNullWaypoints(o: Order) {
    PayloadOrEmpty(o).waypoints == NullWaypoints
  }

  /** The present stops of an order: `[pickup, dropoff, ...waypoints].filter(Boolean)`, null waypoints read as none. */
  function Stops(o: Order): (r: seq<Place>)
    ensures o.payload.None? ==> r == []
    ensures var p := PayloadOrEmpty(o);
      |r| == (if p.pickup.Some? then 1 else 0) + (if p.dropoff.Some? then 1 else 0) + |WaypointPlaces(p.waypoints)|
    ensures var p := PayloadOrEmpty(o);
      forall x :: x in r <==> Some(x) == p.pickup || Some(x) == p.dropoff || x in WaypointPlaces(p.waypoints)
  {
    var p := PayloadOrEmpty(o);
    Present(p.pickup) + Present(p.dropoff) + WaypointPlaces(p.waypoints)
  }

  /** `countStops` with null waypoints read as empty, as the route view does; the rest of the model uses this one. */
  function CountStops(orders: seq<Order>): (n: nat)
    ensures n == |AllStops(orders)|
    decreases |orders|
  {
    if orders == [] then 0 else |Stops(orders[0])| + CountStops(orders[1..])
  }

  /** Every stop of every order, in order: the flattened stop lists. */
  function AllStops(orders: seq<Order>): seq<Place>
    decreases |orders|
  {
    if orders == [] then [] else Stops(orders[0]) + AllStops(orders[1..])
  }

  /** The stop count is additive over concatenation. */
  lemma {:induction false} CountStopsAppend(a: seq<Order>, b: seq<Order>)
    ensures CountStops(a + b) == CountStops(a) + CountStops(b)
    decreases |a|
  {
    if a == [] {
      assert a + b == b;
    } else {
      assert (a + b)[0] == a[0];
      assert (a + b)[1..] == a[1..] + b;
      CountStopsAppend(a[1..], b);
    }
  }

  /** The discrepancy: an order whose payload has `waypoints: null` makes the count as written throw. */
  lemma NullWaypointsThrowAsWritten(pickup: Place)
    ensures var o := Order("order_1", Str("dispatched"), Bool(false), Null, Some(Payload(Some(pickup), None, NullWaypoints)), 0, 0);
      CountStopsAsWritten([o]) == None && CountStops([o]) == 1
  {
  }

  /** Three orders whose stops are [A, B], [C] and nothing have three stops between them. */
  lemma CountStopsExample(a: Place, b: Place, c: Place)
    ensures var o1 := Order("1", Str("started"), Null, Null, Some(Payload(None, None, Listed([a, b]))), 0, 0);
      var o2 := Order("2", Str("started"), Null, Null, Some(Payload(None, None, Listed([c]))), 0, 0);
      var o3 := Order("3", Str("started"), Null, Null, Some(Payload(None, None, Listed([]))), 0, 0);
      CountStops([o1, o2, o3]) == 3
  {
    var o1 := Order("1", Str("started"), Null, Null, Some(Payload(None, None, Listed([a, b]))), 0, 0);
    var o2 := Order("2", Str("started"), Null, Null, Some(Payload(None, None, Listed([c]))), 0, 0);
    var o3 := Order("3", Str("started"), Null, Null, Some(Payload(None, None, Listed([]))), 0, 0);
    assert Stops(o1) == [a, b] && Stops(o2) == [c] && Stops(o3) == [];
    assert [o1, o2, o3][1..] == [o2, o3];
    assert [o2, o3][1..] == [o3];
    assert CountStops([o3]) == 0 by { assert [o3][1..] == []; }
  }

  // ---------------------------------------------------------------------------
  // sumDuration, sumDistance

  /** `sumDuration` (lines 28-31): the sum of the orders' `time`. */
  function SumDuration(orders: seq<Order>): (r: int)
    ensures (forall k :: 0 <= k < |orders| ==> orders[k].time >= 0) ==> r >= 0
    ensures (forall k :: 0 <= k < |orders| ==> orders[k].time == 0) ==> r == 0
    decreases |orders|
  {
    if orders == [] then 0 else orders[0].time + SumDuration(orders[1..])
  }

  /** `sumDistance` (lines 33-36): the sum of the orders' `distance`. */
  function SumDistance(orders: seq<Order>): (r: int)
    ensures (forall k :: 0 <= k < |orders| ==> orders[k].distance >= 0) ==> r >= 0
    ensures (forall k :: 0 <= k < |orders| ==> orders[k].distance == 0) ==> r == 0
    decreases |orders|
  {
    if orders == [] then 0 else orders[0].distance + SumDistance(orders[1..])
  }

  lemma {:induction false} SumsAppend(a: seq<Order>, b: seq<Order>)
    ensures SumDuration(a + b) == SumDuration(a) + SumDuration(b)
    ensures SumDistance(a + b) == SumDistance(a) + SumDistance(b)
    decreases |a|
  {
    if a == [] {
      assert a + b == b;
    } else {
      assert (a + b)[0] == a[0];
      assert (a + b)[1..] == a[1..] + b;
      SumsAppend(a[1..], b);
    }
  }

  /** Non-negative times and distances give non-negative, monotone totals. */
  lemma {:induction false} SumsBounded(orders: seq<Order>, i: nat)
    requires forall k :: 0 <= k < |orders| ==> orders[k].time >= 0 && orders[k].distance >= 0
    requires i < |orders|
    ensures SumDuration(orders) >= orders[i].time && SumDistance(orders) >= orders[i].distance
    ensures SumDuration(orders) >= 0 && SumDistance(orders) >= 0
    decreases |orders|
  {
    assert forall k :: 0 <= k < |orders[1..]| ==> orders[1..][k] == orders[k + 1];
    if i > 0 {
      SumsBounded(orders[1..], i - 1);
    }
  }

  // ---------------------------------------------------------------------------
  // The active set and the header

  /** `!['completed', 'created', 'canceled'].includes(status)`: a status that is not a string is never included. */
  predicate IsActive(o: Order): (b: bool)
    ensures !o.status.Str? ==> b
    ensures o.status.Str? ==> (b <==> o.status.s != "completed" && o.status.s != "created" && o.status.s != "canceled")
  {
    !(o.status.Str? && o.status.s in INACTIVE_STATUSES)
  }

  /** `activeCurrentOrders` (line 60): the active orders, in their original order. */
  function ActiveOrders(orders: seq<Order>): (r: seq<Order>)
    ensures forall o :: o in r <==> o in orders && IsActive(o)
    ensures |r| <= |orders|
    decreases |orders|
  {
    if orders == [] then []
    else if IsActive(orders[0]) then [orders[0]] + ActiveOrders(orders[1..])
    else ActiveOrders(orders[1..])
  }

  lemma {:induction false} ActiveOrdersAppend(a: seq<Order>, b: seq<Order>)
    ensures ActiveOrders(a + b) == ActiveOrders(a) + ActiveOrders(b)
    decreases |a|
  {
    if a == [] {
      assert a + b == b;
    } else {
      assert (a + b)[0] == a[0];
      assert (a + b)[1..] == a[1..] + b;
      ActiveOrdersAppend(a[1..], b);
    }
  }

  /** The header line: the order count with its plural choice, and the aggregates of the active set (lines 61-63, 224-244). */
  datatype Summary = Summary(orderCount: nat, ordersPlural: bool, stops: nat, stopsPlural: bool, duration: int, distance: int)

  function HeaderSummary(currentOrders: seq<Order>): (r: Summary)
    ensures r.ordersPlural <==> r.orderCount > 1
    ensures r.stopsPlural <==> r.stops > 1
    ensures r.orderCount == |currentOrders|
    ensures r.stops <= CountStops(currentOrders)
    // Where the count as written does not throw, the header shows that count.
    ensures CountStopsAsWritten(ActiveOrders(currentOrders)).Some? ==>
      r.stops == CountStopsAsWritten(ActiveOrders(currentOrders)).value
    ensures (forall o :: o in currentOrders ==> !IsActive(o)) ==> r.stops == 0 && r.duration == 0 && r.distance == 0
  {
    var active := ActiveOrders(currentOrders);
    var stops := CountStops(active);
    ActiveStopsBounded(currentOrders);
    NoActiveMeansEmpty(currentOrders);
    Summary(|currentOrders|, |currentOrders| > 1, stops, stops > 1, SumDuration(active), SumDistance(active))
  }

  lemma NoActiveMeansEmpty(orders: seq<Order>)
    ensures (forall o :: o in orders ==> !IsActive(o)) ==> ActiveOrders(orders) == []
  {
    var r := ActiveOrders(orders);
    if r != [] {
      assert r[0] in r;
    }
  }

  /** The active set never has more stops than all the orders together. */
  lemma {:induction false} ActiveStopsBounded(orders: seq<Order>)
    ensures CountStops(ActiveOrders(orders)) <= CountStops(orders)
    decreases |orders|
  {
    if orders != [] {
      ActiveStopsBounded(orders[1..]);
    }
  }

  /** A completed, created or canceled order counts as an order in the header but adds no stops, time or distance. */
  lemma InactiveOrderAddsOnlyToCount(currentOrders: seq<Order>, o: Order)
    requires !IsActive(o)
    ensures var before, after := HeaderSummary(currentOrders), HeaderSummary(currentOrders + [o]);
      after.orderCount == before.orderCount + 1 &&
      after.stops == before.stops && after.duration == before.duration && after.distance == before.distance
  {
    ActiveOrdersAppend(currentOrders, [o]);
    assert ActiveOrders([o]) == [];
    assert ActiveOrders(currentOrders) + [] == ActiveOrders(currentOrders);
  }

  /** An active order adds exactly its own stops, time and distance. */
  lemma ActiveOrderAddsItsOwn(currentOrders: seq<Order>, o: Order)
    requires IsActive(o)
    ensures var before, after := HeaderSummary(currentOrders), HeaderSummary(currentOrders + [o]);
      after.stops == before.stops + |Stops(o)| &&
      after.duration == before.duration + o.time && after.distance == before.distance + o.distance
  {
    var active := ActiveOrders(currentOrders);
    ActiveOrdersAppend(currentOrders, [o]);
    assert ActiveOrders([o]) == [o];
    CountStopsAppend(active, [o]);
    SumsAppend(active, [o]);
  }

  // ---------------------------------------------------------------------------
  // Adhoc orders and the rendered list

  /** `adhoc === true && driver_assigned === null`: an undefined `driver_assigned` is not null. */
  predicate IsAdhoc(o: Order): (b: bool)
    // Strict equality: a truthy adhoc flag other than `true`, or an undefined `driver_assigned`, is not adhoc.
    ensures b ==> Truthy(o.adhoc) && !Truthy(o.driverAssigned)
    ensures o.adhoc != Bool(true) || o.driverAssigned == Undefined ==> !b
  {
    o.adhoc == Bool(true) && o.driverAssigned == Null
  }

  datatype Card = AdhocCard(order: Order) | OrderCard(order: Order)

  /** `renderOrder` (lines 150-171): a dismissed adhoc order renders nothing; other adhoc orders get the adhoc card. */
  function RenderOrder(o: Order, dismissed: seq<string>): (r: Option<Card>)
    ensures r.None? <==> IsAdhoc(o) && o.id in dismissed
    ensures r.Some? ==> r.value.order == o && (r.value.AdhocCard? <==> IsAdhoc(o))
  {
    if IsAdhoc(o) then (if o.id in dismissed then None else Some(AdhocCard(o)))
    else Some(OrderCard(o))
  }

  /** The cards of a list, in list order. */
  function RenderList(orders: seq<Order>, dismissed: seq<string>): (r: seq<Card>)
    ensures |r| <= |orders|
    ensures forall i :: 0 <= i < |r| ==> r[i].order in orders
    ensures (forall k :: 0 <= k < |orders| ==> !IsAdhoc(orders[k])) ==> |r| == |orders|
    // Every card is its order's own rendering, and every order that renders has its card listed.
    ensures forall i :: 0 <= i < |r| ==> RenderOrder(r[i].order, dismissed) == Some(r[i])
    ensures forall k :: 0 <= k < |orders| && RenderOrder(orders[k], dismissed).Some? ==>
      RenderOrder(orders[k], dismissed).value in r
    decreases |orders|
  {
    if orders == [] then []
    else
      var rest := RenderList(orders[1..], dismissed);
      assert forall k :: 0 < k < |orders| ==> orders[k] == orders[1..][k - 1];
      match RenderOrder(orders[0], dismissed)
      case Some(c) => [c] + rest
      case None => rest
  }

  /** The screen's list: nearby orders first, then current orders (line 248). */
  function VisibleCards(nearby: seq<Order>, current: seq<Order>, dismissed: seq<string>): (r: seq<Card>)
    ensures r == RenderList(nearby, dismissed) + RenderList(current, dismissed)
  {
    RenderListAppend(nearby, current, dismissed);
    RenderList(nearby + current, dismissed)
  }

  /** A card is shown for an order exactly when it is in the list and is not a dismissed adhoc order. */
  lemma {:induction false} RenderListMembers(orders: seq<Order>, dismissed: seq<string>, c: Card)
    ensures c in RenderList(orders, dismissed) <==>
      c.order in orders && Some(c) == RenderOrder(c.order, dismissed)
    decreases |orders|
  {
    if orders != [] {
      RenderListMembers(orders[1..], dismissed, c);
      assert orders == [orders[0]] + orders[1..];
    }
  }

  /** Non-adhoc orders are never hidden, whatever has been dismissed. */
  lemma NonAdhocNeverHidden(nearby: seq<Order>, current: seq<Order>, dismissed: seq<string>, o: Order)
    requires o in nearby + current && !IsAdhoc(o)
    ensures OrderCard(o) in VisibleCards(nearby, current, dismissed)
  {
    RenderListMembers(nearby + current, dismissed, OrderCard(o));
  }

  /** A dismissed adhoc order has no card at all. */
  lemma DismissedAdhocHidden(nearby: seq<Order>, current: seq<Order>, dismissed: seq<string>, o: Order)
    requires IsAdhoc(o) && o.id in dismissed
    ensures AdhocCard(o) !in VisibleCards(nearby, current, dismissed)
    ensures OrderCard(o) !in VisibleCards(nearby, current, dismissed)
  {
    RenderListMembers(nearby + current, dismissed, AdhocCard(o));
    RenderListMembers(nearby + current, dismissed, OrderCard(o));
  }

  /** What is rendered depends only on which ids have been dismissed, not on how often or in which order. */
  lemma {:induction false} RenderDependsOnDismissedSet(orders: seq<Order>, d1: seq<string>, d2: seq<string>)
    requires forall id :: id in d1 <==> id in d2
    ensures RenderList(orders, d1) == RenderList(orders, d2)
    decreases |orders|
  {
    if orders != [] {
      RenderDependsOnDismissedSet(orders[1..], d1, d2);
    }
  }

  /** Dismissing the same order twice shows the same list as dismissing it once. */
  lemma DismissTwiceSameAsOnce(nearby: seq<Order>, current: seq<Order>, dismissed: seq<string>, id: string)
    ensures VisibleCards(nearby, current, dismissed + [id] + [id]) == VisibleCards(nearby, current, dismissed + [id])
  {
    RenderDependsOnDismissedSet(nearby + current, dismissed + [id] + [id], dismissed + [id]);
  }

  /** Rendering the concatenated list renders the nearby cards, then the current cards. */
  lemma {:induction false} RenderListAppend(a: seq<Order>, b: seq<Order>, dismissed: seq<string>)
    ensures RenderList(a + b, dismissed) == RenderList(a, dismissed) + RenderList(b, dismissed)
    decreases |a|
  {
    if a == [] {
      assert a + b == b;
    } else {
      assert (a + b)[0] == a[0];
      assert (a + b)[1..] == a[1..] + b;
      RenderListAppend(a[1..], b, dismissed);
    }
  }
}
