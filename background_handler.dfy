/**
 * The background push-message handler registered in index.native.tsx: it coerces the
 * payload's id with `String(...)` and forwards it to the call-alert dispatcher when the
 * payload's type is 'order_dispatched'. It has no state and no dedup of its own: every
 * qualifying delivery is forwarded and suppression is left to the dispatcher.
 *
 * The handler resolves on every path: HandleBackgroundMessage is total, and the
 * `fireCall` it requests is returned rather than awaited.
 */
module BackgroundHandler {
  import opened Wrappers
  import opened JsValues
  import CallAlert

  /** The push type of a newly dispatched order, read by this handler and by the screen's foreground handler. */
  const ORDER_DISPATCHED: string := "order_dispatched"

  /** `remoteMessage.data`: the two fields the handler reads. */
  datatype RemoteData = RemoteData(id: JsValue, messageType: JsValue)

  predicate IsDispatch(data: RemoteData) {
    data.messageType == Str(ORDER_DISPATCHED)
  }

  /** The argument of the `fireCall` the handler starts, if it starts one (index.native.tsx lines 14-25). */
  function HandleBackgroundMessage(data: RemoteData): (call: Option<string>)
    ensures call.Some? <==> IsDispatch(data)
    ensures call.Some? ==> call.value == ToJsString(data.id)
    // Only an empty-string id is falsy after coercion; a missing id becomes "undefined".
    ensures call.Some? ==> (call.value == "" <==> data.id == Str(""))
  {
    if data.messageType == Str(ORDER_DISPATCHED) then Some(ToJsString(data.id)) else None
  }

  /** The `fireCall` arguments for a sequence of deliveries, in delivery order. */
  function ForwardedCalls(msgs: seq<RemoteData>): (ids: seq<string>)
    ensures |ids| <= |msgs|
    // Every dispatch is forwarded, as its coerced id and in place; nothing else is.
    ensures (forall i :: 0 <= i < |msgs| ==> IsDispatch(msgs[i])) ==>
      |ids| == |msgs| && forall i :: 0 <= i < |msgs| ==> ids[i] == ToJsString(msgs[i].id)
    ensures (forall i :: 0 <= i < |msgs| ==> !IsDispatch(msgs[i])) ==> ids == []
    decreases |msgs|
  {
    if msgs == [] then []
    else
      match HandleBackgroundMessage(msgs[0])
      case Some(id) => [id] + ForwardedCalls(msgs[1..])
      case None => ForwardedCalls(msgs[1..])
  }

  /** Forwarding a run of deliveries forwards each part of it in turn. */
  lemma {:induction false} ForwardedCallsAppend(a: seq<RemoteData>, b: seq<RemoteData>)
    ensures ForwardedCalls(a + b) == ForwardedCalls(a) + ForwardedCalls(b)
    decreases |a|
  {
    if a != [] {
      assert (a + b)[0] == a[0];
      assert (a + b)[1..] == a[1..] + b;
      ForwardedCallsAppend(a[1..], b);
    } else {
      assert a + b == b;
    }
  }

  /** Deliveries and the collaborators' behaviour in each: the dispatcher calls they turn into. */
  function Invocations(msgs: seq<RemoteData>, envs: seq<CallAlert.Env>): (calls: seq<CallAlert.Invocation>)
    requires |envs| == |msgs|
    ensures |calls| == |ForwardedCalls(msgs)|
    ensures forall i :: 0 <= i < |calls| ==> calls[i].orderId == ForwardedCalls(msgs)[i]
    decreases |msgs|
  {
    if msgs == [] then []
    else
      match HandleBackgroundMessage(msgs[0])
      case Some(id) => [CallAlert.Invocation(envs[0], id)] + Invocations(msgs[1..], envs[1..])
      case None => Invocations(msgs[1..], envs[1..])
  }

  /** The handler does not deduplicate: the same dispatch delivered twice is forwarded twice. */
  lemma DuplicateDeliveryForwardedTwice(m: RemoteData)
    requires IsDispatch(m)
    ensures ForwardedCalls([m, m]) == [ToJsString(m.id), ToJsString(m.id)]
  {
    assert [m, m][1..] == [m];
  }

  /**
   * However often a dispatch is redelivered, the dispatcher behind the handler shows at most
   * one alert per (coerced) order id, and none for an id it has already recorded.
   */
  lemma RedeliveryAlertsAtMostOnce(s: CallAlert.DispatcherState, msgs: seq<RemoteData>, envs: seq<CallAlert.Env>, x: string)
    requires |envs| == |msgs|
    ensures CallAlert.DisplayCount(CallAlert.FireAll(s, Invocations(msgs, envs)).effects, x) <= 1
    ensures x in s.store ==> CallAlert.DisplayCount(CallAlert.FireAll(s, Invocations(msgs, envs)).effects, x) == 0
  {
    CallAlert.AtMostOneAlertPerOrder(s, Invocations(msgs, envs), x);
  }

  /** Numeric ids are forwarded as their decimal strings, and distinct numbers never share a dedup key. */
  lemma NumericIdsKeepDistinctKeys(a: SafeInteger, b: SafeInteger)
    requires a != b
    ensures HandleBackgroundMessage(RemoteData(Num(a), Str(ORDER_DISPATCHED))) == Some(IntToString(a))
    ensures HandleBackgroundMessage(RemoteData(Num(a), Str(ORDER_DISPATCHED))) !=
            HandleBackgroundMessage(RemoteData(Num(b), Str(ORDER_DISPATCHED)))
  {
    if IntToString(a) == IntToString(b) {
      IntToStringInjective(a, b);
    }
  }
}
