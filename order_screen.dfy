/**
 * The stateful side of src/screens/DriverOrderManagementScreen.tsx: the push-notification
 * and socket-event routing rules, and the screen's focus lifecycle, which owns two refresh
 * intervals and one realtime subscription, plus the session-local dismissal list.
 *
 * The order collections themselves live in the order-manager context; the screen only asks
 * it to reload them, so the model logs those reload requests instead of the collections.
 */
module OrderScreen {
  import opened Wrappers
  import opened JsValues
  import Orders
  import BackgroundHandler

  /** The nearby-orders refresh period: 6000 * 5 ms, thirty seconds (line 38; its comment says five minutes). */
  const REFRESH_NEARBY_ORDERS_MS: nat := 6000 * 5

  /** The current-orders refresh period: 6000 * 15 ms, ninety seconds (line 39; its comment says fifteen minutes). */
  const REFRESH_ORDERS_MS: nat := 6000 * 15

  const ORDER_ID_PREFIX: string := "order_"
  const ORDER_READY: string := "order.ready"
  const ORDER_PING: string := "order.ping"

  /** The three collections of the order manager that the screen asks to reload. */
  datatype Collection = Nearby | Current | Active

  /** `reloadX()` with no arguments, or `reloadX({}, { setLoadingFlag: false })` from a timer. */
  datatype ReloadArgs = NoArgs | Silent

  datatype Reload = Reload(target: Collection, args: ReloadArgs)

  /** A running `setInterval`: its period and the collection its callback reloads. */
  datatype Interval = Interval(periodMs: nat, target: Collection)

  const NEARBY_INTERVAL: Interval := Interval(REFRESH_NEARBY_ORDERS_MS, Nearby)
  const CURRENT_INTERVAL: Interval := Interval(REFRESH_ORDERS_MS, Current)

  /** A realtime subscription returned by the socket client's `listen`. */
  datatype Subscription = Subscription(channel: string, handle: nat)

  // ---------------------------------------------------------------------------
  // Routing rules

  /** `notification.payload`: its `id` and `type`. */
  datatype PushPayload = PushPayload(id: JsValue, messageType: JsValue)

  /** What a push notification makes the screen do: reloads, and the argument of a `fireCall` if one is started. */
  datatype PushReaction = PushReaction(reloads: seq<Reload>, fireCall: Option<JsValue>)

  predicate IsOrderId(v: JsValue) {
    v.Str? && StartsWith(v.s, ORDER_ID_PREFIX)
  }

  /** `handlePushNotification` (lines 66-79). */
  function HandlePushNotification(p: PushPayload): (r: PushReaction)
    ensures Reload(Current, NoArgs) in r.reloads <==> IsOrderId(p.id)
    ensures |r.reloads| <= 1 && forall x :: x in r.reloads ==> x == Reload(Current, NoArgs)
    ensures r.fireCall.Some? <==> p.messageType == Str(BackgroundHandler.ORDER_DISPATCHED)
    ensures r.fireCall.Some? ==> r.fireCall.value == p.id
  {
    PushReaction(
      if IsOrderId(p.id) then [Reload(Current, NoArgs)] else [],
      if p.messageType == Str(BackgroundHandler.ORDER_DISPATCHED) then Some(p.id) else None)
  }

  /** The reload depends only on the id and the `fireCall` only on the type: the two decisions are independent. */
  lemma PushDecisionsIndependent(id1: JsValue, id2: JsValue, t1: JsValue, t2: JsValue)
    ensures HandlePushNotification(PushPayload(id1, t1)).reloads == HandlePushNotification(PushPayload(id1, t2)).reloads
    ensures HandlePushNotification(PushPayload(id1, t1)).fireCall.Some? ==
            HandlePushNotification(PushPayload(id2, t1)).fireCall.Some?
  {
  }

  /** A dispatch whose id has the order prefix both reloads the current orders and starts an alert. */
  lemma DispatchOfOrderDoesBoth(suffix: string)
    ensures var r := HandlePushNotification(PushPayload(Str(ORDER_ID_PREFIX + suffix), Str(BackgroundHandler.ORDER_DISPATCHED)));
      r.reloads == [Reload(Current, NoArgs)] && r.fireCall == Some(Str(ORDER_ID_PREFIX + suffix))
  {
    assert (ORDER_ID_PREFIX + suffix)[..|ORDER_ID_PREFIX|] == ORDER_ID_PREFIX;
  }

  /** The socket channel of a driver: the template literal `driver.${driver.id}` (line 115). */
  function ChannelFor(driverId: JsValue): (c: string)
    ensures StartsWith(c, "driver.") && c[|"driver."|..] == ToJsString(driverId)
  {
    "driver." + ToJsString(driverId)
  }

  /** Distinct string driver ids listen on distinct channels. */
  lemma ChannelsAreDistinct(a: string, b: string)
    requires a != b
    ensures ChannelFor(Str(a)) != ChannelFor(Str(b))
  {
    assert ChannelFor(Str(a))[|"driver."|..] == a;
    assert ChannelFor(Str(b))[|"driver."|..] == b;
  }

  /** The socket event handler (lines 115-122): 'order.ready' reloads only the current orders, 'order.ping' only the nearby ones. */
  function HandleSocketEvent(event: JsValue): (r: seq<Reload>)
    ensures |r| <= 1
    ensures Reload(Current, NoArgs) in r <==> event == Str(ORDER_READY)
    ensures Reload(Nearby, NoArgs) in r <==> event == Str(ORDER_PING)
    ensures r == [] <==> event != Str(ORDER_READY) && event != Str(ORDER_PING)
    ensures forall x :: x in r ==> x.args == NoArgs && x.target != Active
  {
    if event == Str(ORDER_READY) then [Reload(Current, NoArgs)]
    else if event == Str(ORDER_PING) then [Reload(Nearby, NoArgs)]
    else []
  }

  // ---------------------------------------------------------------------------
  // The screen

  class DriverOrderScreen {
    const driverId: JsValue
    var focused: bool
    var nearbyInterval: Option<Interval>
    var currentInterval: Option<Interval>
    /** `listenerRef.current`: kept across blur, replaced only when a later `listen` returns a subscription. */
    var listenerRef: Option<Subscription>
    /** The order manager's `dismissedOrders`, appended to by the adhoc card's dismiss action. */
    var dismissedOrders: seq<string>
    /** Requests made to the order manager, the dispatcher and the platform, in order. */
    ghost var reloads: seq<Reload>
    ghost var fireCalls: seq<JsValue>
    ghost var listenRequests: seq<string>
    ghost var clearedIntervals: seq<Interval>
    ghost var stoppedListeners: seq<Subscription>

    /** Both intervals run exactly while the screen is focused, each with its fixed period and target. */
    ghost predicate Valid()
      reads this
    {
      && (nearbyInterval.Some? <==> focused)
      && (currentInterval.Some? <==> focused)
      && (nearbyInterval.Some? ==> nearbyInterval.value == NEARBY_INTERVAL)
      && (currentInterval.Some? ==> currentInterval.value == CURRENT_INTERVAL)
    }

    /** Whether the interval that reloads `target` is running. */
    function IntervalRunning(target: Collection): bool
      reads this
    {
      (nearbyInterval.Some? && nearbyInterval.value.target == target) ||
      (currentInterval.Some? && currentInterval.value.target == target)
    }

    /** The cards on screen for the order manager's nearby and current orders. */
    function VisibleCards(nearby: seq<Orders.Order>, current: seq<Orders.Order>): seq<Orders.Card>
      reads this
    {
      Orders.VisibleCards(nearby, current, dismissedOrders)
    }

    /**
     * Mounting the screen. The dismissal list belongs to the order manager, so a remounted screen
     * starts from whatever the manager already holds.
     */
    constructor (driverId: JsValue, managerDismissed: seq<string>)
      ensures Valid() && !focused && this.driverId == driverId
      ensures listenerRef == None && dismissedOrders == managerDismissed
      ensures reloads == [] && fireCalls == [] && listenRequests == [] && clearedIntervals == [] && stoppedListeners == []
    {
      this.driverId := driverId;
      focused := false;
      nearbyInterval, currentInterval := None, None;
      listenerRef := None;
      dismissedOrders := managerDismissed;
      reloads, fireCalls, listenRequests, clearedIntervals, stoppedListeners := [], [], [], [], [];
    }

    /**
     * The three focus effects, in order (lines 88-136): start the nearby interval with no immediate
     * reload; reload the active and then the current orders at once and start the current interval;
     * listen on the driver's channel and keep the subscription if `listen` returned one.
     */
    method Focus(listened: Option<Subscription>)
      requires Valid() && !focused
      modifies this
      ensures Valid() && focused
      ensures nearbyInterval == Some(NEARBY_INTERVAL) && currentInterval == Some(CURRENT_INTERVAL)
      ensures reloads == old(reloads) + [Reload(Active, NoArgs), Reload(Current, Silent)]
      ensures listenRequests == old(listenRequests) + [ChannelFor(driverId)]
      ensures listenerRef == (if listened.Some? then listened else old(listenerRef))
      ensures dismissedOrders == old(dismissedOrders) && fireCalls == old(fireCalls)
      ensures clearedIntervals == old(clearedIntervals) && stoppedListeners == old(stoppedListeners)
    {
      focused := true;
      nearbyInterval := Some(NEARBY_INTERVAL);
      reloads := reloads + [Reload(Active, NoArgs)];
      reloads := reloads + [Reload(Current, Silent)];
      currentInterval := Some(CURRENT_INTERVAL);
      listenRequests := listenRequests + [ChannelFor(driverId)];
      if listened.Some? {
        listenerRef := listened;
      }
    }

    /** The three cleanups (lines 95, 108, 130-134): clear both intervals and stop the stored subscription, if any. */
    method Blur()
      requires Valid() && focused
      modifies this
      ensures Valid() && !focused
      ensures !IntervalRunning(Nearby) && !IntervalRunning(Current) && !IntervalRunning(Active)
      ensures clearedIntervals == old(clearedIntervals) + [NEARBY_INTERVAL, CURRENT_INTERVAL]
      ensures stoppedListeners == old(stoppedListeners) + (if old(listenerRef).Some? then [old(listenerRef).value] else [])
      ensures listenerRef == old(listenerRef)
      ensures reloads == old(reloads) && fireCalls == old(fireCalls) && listenRequests == old(listenRequests)
      ensures dismissedOrders == old(dismissedOrders)
    {
      clearedIntervals := clearedIntervals + [nearbyInterval.value];
      nearbyInterval := None;
      clearedIntervals := clearedIntervals + [currentInterval.value];
      currentInterval := None;
      if listenerRef.Some? {
        stoppedListeners := stoppedListeners + [listenerRef.value];
      }
      focused := false;
    }

    /** A timer callback: a running interval reloads its collection silently; after blur nothing is observable. */
    method TimerFires(target: Collection)
      requires Valid()
      modifies this
      ensures Valid()
      ensures reloads == old(reloads) + (if old(IntervalRunning(target)) then [Reload(target, Silent)] else [])
      ensures !focused ==> reloads == old(reloads)
      ensures target == Active ==> reloads == old(reloads)
      ensures focused == old(focused) && nearbyInterval == old(nearbyInterval) && currentInterval == old(currentInterval)
      ensures listenerRef == old(listenerRef) && dismissedOrders == old(dismissedOrders) && fireCalls == old(fireCalls)
      ensures listenRequests == old(listenRequests) && clearedIntervals == old(clearedIntervals)
      ensures stoppedListeners == old(stoppedListeners)
    {
      if IntervalRunning(target) {
        reloads := reloads + [Reload(target, Silent)];
      }
    }

    /** An event delivered on the driver's channel. */
    method OnSocketEvent(event: JsValue)
      requires Valid()
      modifies this`reloads
      ensures Valid()
      ensures reloads == old(reloads) + HandleSocketEvent(event)
    {
      reloads := reloads + HandleSocketEvent(event);
    }

    /** A push notification reaching the mounted screen's listener. */
    method OnPushNotification(p: PushPayload)
      requires Valid()
      modifies this`reloads, this`fireCalls
      ensures Valid()
      ensures reloads == old(reloads) + HandlePushNotification(p).reloads
      ensures fireCalls == old(fireCalls) + (if p.messageType == Str(BackgroundHandler.ORDER_DISPATCHED) then [p.id] else [])
    {
      var reaction := HandlePushNotification(p);
      reloads := reloads + reaction.reloads;
      if reaction.fireCall.Some? {
        fireCalls := fireCalls + [reaction.fireCall.value];
      }
    }

    /** `handleAdhocDismissal` (lines 138-143): remember the id locally; nothing is reloaded. */
    method DismissAdhoc(order: Orders.Order)
      requires Valid()
      modifies this`dismissedOrders
      ensures Valid()
      ensures dismissedOrders == old(dismissedOrders) + [order.id]
      ensures forall nearby, current ::
        Orders.IsAdhoc(order) ==> Orders.AdhocCard(order) !in VisibleCards(nearby, current)
    {
      dismissedOrders := dismissedOrders + [order.id];
      forall nearby: seq<Orders.Order>, current: seq<Orders.Order> | Orders.IsAdhoc(order)
        ensures Orders.AdhocCard(order) !in VisibleCards(nearby, current)
      {
        Orders.DismissedAdhocHidden(nearby, current, dismissedOrders, order);
      }
    }

    /** `handleAdhocAccept` (lines 145-148): reload the nearby, then the current orders. */
    method AcceptAdhoc()
      requires Valid()
      modifies this`reloads
      ensures Valid()
      ensures reloads == old(reloads) + [Reload(Nearby, NoArgs), Reload(Current, NoArgs)]
    {
      reloads := reloads + [Reload(Nearby, NoArgs), Reload(Current, NoArgs)];
    }
  }
}
