/**
 * The call-alert dispatcher of src/utils/call.js: a simulated incoming call is shown
 * for a new order, at most once per order id, behind two process-wide latches
 * (`isCallKeepInitialized`, `listenersSetUp`) and a persistent key-value dedup store.
 *
 * Each operation is first given as a pure step function over the dispatcher state and
 * the collaborators' behaviour in that call (Env); the CallDispatcher class then holds
 * the state in fields and its methods are proved to perform exactly those steps,
 * recording every interaction with a collaborator in a ghost trace.
 */
module CallAlert {

  /** The caller name shown on the alert (call.js line 5). */
  const CALLER_NAME: string := "New Order"

  /** The Android-only pause before display, in milliseconds (call.js line 101). */
  const ANDROID_DISPLAY_DELAY_MS: nat := 100

  datatype CallKeepEvent = AnswerCall | EndCall

  /** One interaction with a collaborator: the native call-alert module or the key-value store. */
  datatype Effect =
    | Setup
    | AddEventListener(event: CallKeepEvent)
    | GetItem(key: string)
    | SetItem(key: string, value: string)
    | Sleep(ms: nat)
    | DisplayIncomingCall(callId: string, handle: string, callerName: string)

  /** How the native module's `addEventListener` behaves when listeners are attached. */
  datatype Registration =
    | NoAddEventListener        // `addEventListener` is not a function
    | AnswerRegistrationThrows  // registering 'answerCall' throws
    | EndRegistrationThrows     // 'answerCall' registers, registering 'endCall' throws
    | BothRegister

  /** What the collaborators do during one `fireCall`: these outcomes are not under the core's control. */
  datatype Env = Env(
    displayAvailable: bool,      // the module is loaded and `displayIncomingCall` is a function
    setupResolves: bool,         // `RNCallKeep.setup(...)` resolves rather than rejects
    registration: Registration,
    getItemThrows: bool,
    setItemThrows: bool,
    isAndroid: bool,
    displayThrows: bool)

  /** The process-wide latches and the persistent store (key and value are both the order id). */
  datatype DispatcherState = DispatcherState(initialized: bool, listenersSetUp: bool, store: map<string, string>)

  /** Which diagnostic a `fireCall` ends with; the JavaScript function itself always resolves to undefined. */
  datatype Outcome =
    | MissingOrderId
    | CallKeepUnavailable
    | InitFailed
    | StorageFailed
    | AlreadyAlerted
    | Displayed
    | DisplayFailed

  datatype InitResult = InitResult(ok: bool, state: DispatcherState, effects: seq<Effect>)
  datatype ListenersResult = ListenersResult(state: DispatcherState, effects: seq<Effect>)
  datatype FireResult = FireResult(outcome: Outcome, state: DispatcherState, effects: seq<Effect>)

  /** The native actions an answer/end callback performs. */
  datatype NativeAction = EndCallSession(callUUID: string) | BackToForeground

  // ---------------------------------------------------------------------------
  // Counting collaborator interactions in a trace

  function SetupCount(t: seq<Effect>): (n: nat)
    ensures n == 0 <==> forall i :: 0 <= i < |t| ==> !t[i].Setup?
  {
    if t == [] then 0 else (if t[0].Setup? then 1 else 0) + SetupCount(t[1..])
  }

  function ListenerCount(t: seq<Effect>): (n: nat)
    ensures n == 0 <==> forall i :: 0 <= i < |t| ==> !t[i].AddEventListener?
  {
    if t == [] then 0 else (if t[0].AddEventListener? then 1 else 0) + ListenerCount(t[1..])
  }

  /** The number of alerts displayed for call id `x`. */
  function DisplayCount(t: seq<Effect>, x: string): (n: nat)
    ensures n <= AnyDisplayCount(t)
  {
    if t == [] then 0
    else (if t[0].DisplayIncomingCall? && t[0].callId == x then 1 else 0) + DisplayCount(t[1..], x)
  }

  /** The number of displays of any call id. */
  function AnyDisplayCount(t: seq<Effect>): (n: nat)
    ensures n == 0 <==> forall i :: 0 <= i < |t| ==> !t[i].DisplayIncomingCall?
  {
    if t == [] then 0 else (if t[0].DisplayIncomingCall? then 1 else 0) + AnyDisplayCount(t[1..])
  }

  /** Store accesses (reads or writes) in a trace. */
  predicate TouchesStore(t: seq<Effect>) {
    exists i :: 0 <= i < |t| && (t[i].GetItem? || t[i].SetItem?)
  }

  lemma {:induction false} CountsAppend(a: seq<Effect>, b: seq<Effect>, x: string)
    ensures SetupCount(a + b) == SetupCount(a) + SetupCount(b)
    ensures ListenerCount(a + b) == ListenerCount(a) + ListenerCount(b)
    ensures DisplayCount(a + b, x) == DisplayCount(a, x) + DisplayCount(b, x)
    ensures AnyDisplayCount(a + b) == AnyDisplayCount(a) + AnyDisplayCount(b)
    decreases |a|
  {
    if a == [] {
      assert a + b == b;
    } else {
      assert (a + b)[0] == a[0];
      assert (a + b)[1..] == a[1..] + b;
      CountsAppend(a[1..], b, x);
    }
  }

  // ---------------------------------------------------------------------------
  // The steps of call.js as functions

  /**
   * `initializeCallKeep` (call.js lines 11-37): a no-op success once the latch is set;
   * otherwise one `setup` call, and the latch is set only when it resolves.
   */
  function InitializeStep(s: DispatcherState, setupResolves: bool): (r: InitResult)
    ensures r.ok <==> r.state.initialized
    ensures r.ok <==> s.initialized || setupResolves
    ensures r.state.listenersSetUp == s.listenersSetUp && r.state.store == s.store
    ensures s.initialized ==> r.effects == []
    ensures !s.initialized ==> r.effects == [Setup]
  {
    if s.initialized then InitResult(true, s, [])
    else if setupResolves then InitResult(true, s.(initialized := true), [Setup])
    else InitResult(false, s, [Setup])
  }

  /**
   * `setupCallKeepListeners` (call.js lines 39-69): nothing once the latch is set; otherwise the
   * 'answerCall' and then the 'endCall' listener are registered, and the latch is set only after both.
   */
  function ListenersStep(s: DispatcherState, reg: Registration): (r: ListenersResult)
    ensures r.state.initialized == s.initialized && r.state.store == s.store
    ensures s.listenersSetUp ==> r.state == s && r.effects == []
    ensures r.state.listenersSetUp <==> s.listenersSetUp || reg == BothRegister
    ensures forall i :: 0 <= i < |r.effects| ==> r.effects[i] == AddEventListener(if i == 0 then AnswerCall else EndCall)
    ensures !s.listenersSetUp && reg == BothRegister ==> |r.effects| == 2
    ensures reg == NoAddEventListener ==> r.effects == []
  {
    if s.listenersSetUp then ListenersResult(s, [])
    else
      match reg
      case NoAddEventListener => ListenersResult(s, [])
      case AnswerRegistrationThrows => ListenersResult(s, [AddEventListener(AnswerCall)])
      case EndRegistrationThrows => ListenersResult(s, [AddEventListener(AnswerCall), AddEventListener(EndCall)])
      case BothRegister =>
        ListenersResult(s.(listenersSetUp := true), [AddEventListener(AnswerCall), AddEventListener(EndCall)])
  }

  /** True when a `fireCall` gets as far as reading the store. */
  predicate ReachesStore(s: DispatcherState, env: Env, orderId: string) {
    orderId != "" && env.displayAvailable && (s.initialized || env.setupResolves)
  }

  /** The Android pause, a no-op step elsewhere. */
  function DisplayDelay(isAndroid: bool): seq<Effect> {
    if isAndroid then [Sleep(ANDROID_DISPLAY_DELAY_MS)] else []
  }

  /** The trace of a call that reached the store: setup, listener registration, then the lookup. */
  function LookupTrace(s: DispatcherState, env: Env, orderId: string): seq<Effect> {
    InitializeStep(s, env.setupResolves).effects
      + ListenersStep(InitializeStep(s, env.setupResolves).state, env.registration).effects
      + [GetItem(orderId)]
  }

  /** The trace of a call that missed in the store and wrote its record. */
  function WriteTrace(s: DispatcherState, env: Env, orderId: string): seq<Effect> {
    LookupTrace(s, env, orderId) + [SetItem(orderId, orderId)]
  }

  /** The trace of a call that went on to display the alert. */
  function DisplayTrace(s: DispatcherState, env: Env, orderId: string): seq<Effect> {
    WriteTrace(s, env, orderId) + DisplayDelay(env.isAndroid)
      + [DisplayIncomingCall(orderId, CALLER_NAME, CALLER_NAME)]
  }

  /**
   * `fireCall` (call.js lines 71-115). The checks run in this order: the id, the native module,
   * initialisation, listeners, the store lookup; on a miss the record is written and only
   * then is the alert displayed. No path raises: every failure ends in an Outcome.
   */
  function FireCallStep(s: DispatcherState, env: Env, orderId: string): (r: FireResult)
    // A falsy id, or a missing native module, touches nothing.
    ensures orderId == "" ==> r == FireResult(MissingOrderId, s, [])
    ensures orderId != "" && !env.displayAvailable ==> r == FireResult(CallKeepUnavailable, s, [])
    // A failed setup leaves every latch and the store as they were, and touches neither store nor display.
    ensures orderId != "" && env.displayAvailable && !s.initialized && !env.setupResolves ==>
      r == FireResult(InitFailed, s, [Setup])
    // The store only ever gains the record `orderId -> orderId`; no other key changes.
    ensures r.state.store == s.store || (orderId !in s.store && r.state.store == s.store[orderId := orderId])
    // The record is written before the display is attempted, so a failed display still leaves it.
    ensures r.outcome in {Displayed, DisplayFailed} <==> orderId !in s.store && orderId in r.state.store
    // The latches are never reset; the init latch is set exactly when setup was reached and resolved.
    ensures r.state.initialized <==> s.initialized || (orderId != "" && env.displayAvailable && env.setupResolves)
    ensures s.listenersSetUp ==> r.state.listenersSetUp
    // A write that throws leaves no record.
    ensures env.setItemThrows ==> r.state.store == s.store
    // A failed or missing registration leaves the listener latch unset while the call goes on to the store.
    ensures r.state.listenersSetUp <==> s.listenersSetUp || (ReachesStore(s, env, orderId) && env.registration == BothRegister)
  {
    if orderId == "" then FireResult(MissingOrderId, s, [])
    else if !env.displayAvailable then FireResult(CallKeepUnavailable, s, [])
    else
      var init := InitializeStep(s, env.setupResolves);
      if !init.ok then FireResult(InitFailed, init.state, init.effects)
      else
        var ls := ListenersStep(init.state, env.registration);
        if env.getItemThrows then FireResult(StorageFailed, ls.state, LookupTrace(s, env, orderId))
        else if orderId in ls.state.store then FireResult(AlreadyAlerted, ls.state, LookupTrace(s, env, orderId))
        else if env.setItemThrows then FireResult(StorageFailed, ls.state, WriteTrace(s, env, orderId))
        else
          FireResult(if env.displayThrows then DisplayFailed else Displayed,
            ls.state.(store := ls.state.store[orderId := orderId]), DisplayTrace(s, env, orderId))
  }

  lemma LookupTraceCounts(s: DispatcherState, env: Env, orderId: string, x: string)
    ensures var t := LookupTrace(s, env, orderId);
      DisplayCount(t, x) == 0 && AnyDisplayCount(t) == 0 &&
      SetupCount(t) == (if s.initialized then 0 else 1) &&
      ListenerCount(t) == |ListenersStep(InitializeStep(s, env.setupResolves).state, env.registration).effects|
  {
    var init := InitializeStep(s, env.setupResolves);
    var ls := ListenersStep(init.state, env.registration);
    CountsAppend(init.effects, ls.effects, x);
    CountsAppend(init.effects + ls.effects, [GetItem(orderId)], x);
    ListenerEffectsCounts(ls.effects, x);
  }

  lemma {:induction false} ListenerEffectsCounts(t: seq<Effect>, x: string)
    requires forall i :: 0 <= i < |t| ==> t[i].AddEventListener?
    ensures DisplayCount(t, x) == 0 && AnyDisplayCount(t) == 0 && SetupCount(t) == 0 && ListenerCount(t) == |t|
    decreases |t|
  {
    if t != [] {
      ListenerEffectsCounts(t[1..], x);
    }
  }

  lemma DisplayTraceCounts(s: DispatcherState, env: Env, orderId: string, x: string)
    ensures var t := WriteTrace(s, env, orderId);
      DisplayCount(t, x) == 0 && AnyDisplayCount(t) == 0 &&
      SetupCount(t) == SetupCount(LookupTrace(s, env, orderId)) &&
      ListenerCount(t) == ListenerCount(LookupTrace(s, env, orderId))
    ensures var t := DisplayTrace(s, env, orderId);
      DisplayCount(t, x) == (if x == orderId then 1 else 0) && AnyDisplayCount(t) == 1 &&
      SetupCount(t) == SetupCount(LookupTrace(s, env, orderId)) &&
      ListenerCount(t) == ListenerCount(LookupTrace(s, env, orderId))
  {
    var l := LookupTrace(s, env, orderId);
    var w := WriteTrace(s, env, orderId);
    var d := DisplayDelay(env.isAndroid);
    LookupTraceCounts(s, env, orderId, x);
    CountsAppend(l, [SetItem(orderId, orderId)], x);
    CountsAppend(w, d, x);
    CountsAppend(w + d, [DisplayIncomingCall(orderId, CALLER_NAME, CALLER_NAME)], x);
  }

  /**
   * What one `fireCall` does with the native module: setup only while the init latch is unset,
   * and an alert, with the order id as call id and "New Order" as the name, exactly when the
   * store was reached, read, missed and written.
   */
  lemma FireCallEffects(s: DispatcherState, env: Env, orderId: string, x: string)
    ensures var r := FireCallStep(s, env, orderId);
      SetupCount(r.effects) == (if orderId != "" && env.displayAvailable && !s.initialized then 1 else 0)
    ensures var r := FireCallStep(s, env, orderId);
      AnyDisplayCount(r.effects) == DisplayCount(r.effects, orderId) <= 1 &&
      (x != orderId ==> DisplayCount(r.effects, x) == 0)
    ensures var r := FireCallStep(s, env, orderId);
      DisplayCount(r.effects, orderId) == 1 <==>
        ReachesStore(s, env, orderId) && !env.getItemThrows && orderId !in s.store && !env.setItemThrows
    ensures var r := FireCallStep(s, env, orderId);
      DisplayCount(r.effects, orderId) == 1 ==>
        r.outcome in {Displayed, DisplayFailed} && orderId in r.state.store &&
        r.effects[|r.effects| - 1] == DisplayIncomingCall(orderId, CALLER_NAME, CALLER_NAME)
    ensures var r := FireCallStep(s, env, orderId);
      s.listenersSetUp ==> ListenerCount(r.effects) == 0
  {
    LookupTraceCounts(s, env, orderId, x);
    LookupTraceCounts(s, env, orderId, orderId);
    DisplayTraceCounts(s, env, orderId, x);
    DisplayTraceCounts(s, env, orderId, orderId);
  }

  /** The 'answerCall' callback (call.js lines 48-55): end the call with that id, then foreground the app. */
  function OnAnswerCall(callUUID: string, endCallThrows: bool): (r: seq<NativeAction>)
    ensures |r| >= 1 && r[0] == EndCallSession(callUUID)
    ensures BackToForeground in r <==> !endCallThrows
    ensures !endCallThrows ==> r == [EndCallSession(callUUID), BackToForeground]
  {
    if endCallThrows then [EndCallSession(callUUID)] else [EndCallSession(callUUID), BackToForeground]
  }

  /** The 'endCall' callback (call.js lines 57-63): foreground the app and end no session. */
  function OnEndCall(): (r: seq<NativeAction>)
    ensures BackToForeground in r && forall a :: a in r ==> !a.EndCallSession?
  {
    [BackToForeground]
  }

  // ---------------------------------------------------------------------------
  // Sequential runs of fireCall

  datatype Invocation = Invocation(env: Env, orderId: string)
  datatype RunResult = RunResult(state: DispatcherState, effects: seq<Effect>)

  /** A sequence of `fireCall`s, each started after the previous one has finished. */
  function FireAll(s: DispatcherState, calls: seq<Invocation>): (r: RunResult)
    decreases |calls|
  {
    if calls == [] then RunResult(s, [])
    else
      var first := FireCallStep(s, calls[0].env, calls[0].orderId);
      var rest := FireAll(first.state, calls[1..]);
      RunResult(rest.state, first.effects + rest.effects)
  }

  /** At most one alert per order id over any run of sequential calls, none when a record already exists. */
  lemma {:induction false} AtMostOneAlertPerOrder(s: DispatcherState, calls: seq<Invocation>, x: string)
    ensures x in s.store ==> DisplayCount(FireAll(s, calls).effects, x) == 0
    ensures DisplayCount(FireAll(s, calls).effects, x) <= 1
    ensures DisplayCount(FireAll(s, calls).effects, x) == 1 ==> x in FireAll(s, calls).state.store
    ensures x in s.store ==> x in FireAll(s, calls).state.store
    decreases |calls|
  {
    if calls != [] {
      var first := FireCallStep(s, calls[0].env, calls[0].orderId);
      var rest := FireAll(first.state, calls[1..]);
      CountsAppend(first.effects, rest.effects, x);
      FireCallEffects(s, calls[0].env, calls[0].orderId, x);
      AtMostOneAlertPerOrder(first.state, calls[1..], x);
    }
  }

  /** Once setup has succeeded, no later call in a run calls `setup` again. */
  lemma {:induction false} NoSetupAfterSuccess(s: DispatcherState, calls: seq<Invocation>)
    requires s.initialized
    ensures SetupCount(FireAll(s, calls).effects) == 0
    ensures FireAll(s, calls).state.initialized
    decreases |calls|
  {
    if calls != [] {
      var first := FireCallStep(s, calls[0].env, calls[0].orderId);
      CountsAppend(first.effects, FireAll(first.state, calls[1..]).effects, "");
      FireCallEffects(s, calls[0].env, calls[0].orderId, "");
      NoSetupAfterSuccess(first.state, calls[1..]);
    }
  }

  /** Once both listeners are attached, no later call in a run registers a listener again. */
  lemma {:induction false} NoListenersAfterLatch(s: DispatcherState, calls: seq<Invocation>)
    requires s.listenersSetUp
    ensures ListenerCount(FireAll(s, calls).effects) == 0
    decreases |calls|
  {
    if calls != [] {
      var first := FireCallStep(s, calls[0].env, calls[0].orderId);
      CountsAppend(first.effects, FireAll(first.state, calls[1..]).effects, "");
      FireCallEffects(s, calls[0].env, calls[0].orderId, "");
      NoListenersAfterLatch(first.state, calls[1..]);
    }
  }

  /** Two sequential calls with the same id: once the first has found or written the record, the second shows nothing. */
  lemma SecondCallSuppressed(s: DispatcherState, e1: Env, e2: Env, x: string)
    requires FireCallStep(s, e1, x).outcome in {Displayed, DisplayFailed, AlreadyAlerted}
    ensures DisplayCount(FireCallStep(FireCallStep(s, e1, x).state, e2, x).effects, x) == 0
    ensures FireCallStep(FireCallStep(s, e1, x).state, e2, x).outcome !in {Displayed, DisplayFailed}
  {
    FireCallEffects(FireCallStep(s, e1, x).state, e2, x, x);
  }

  /** Marking `x` never changes what a call for a different id `y` does. */
  lemma MarkingIsPerId(s: DispatcherState, env: Env, x: string, y: string)
    requires x != y
    ensures var marked := s.(store := s.store[x := x]);
      FireCallStep(marked, env, y).outcome == FireCallStep(s, env, y).outcome &&
      FireCallStep(marked, env, y).effects == FireCallStep(s, env, y).effects
  {
  }

  /**
   * A failed setup is retried: the first call for `x` shows nothing and records nothing; a second call
   * whose setup resolves, with a working store, shows the alert once and records it.
   */
  lemma SetupFailureIsRetried(s: DispatcherState, e1: Env, e2: Env, x: string)
    requires !s.initialized && x != "" && x !in s.store
    requires e1.displayAvailable && !e1.setupResolves
    requires e2.displayAvailable && e2.setupResolves && !e2.getItemThrows && !e2.setItemThrows
    ensures var r1 := FireCallStep(s, e1, x);
      r1.outcome == InitFailed && r1.state == s && !TouchesStore(r1.effects) && DisplayCount(r1.effects, x) == 0
    ensures var r2 := FireCallStep(FireCallStep(s, e1, x).state, e2, x);
      r2.state.initialized && DisplayCount(r2.effects, x) == 1 && r2.state.store == s.store[x := x]
  {
    FireCallEffects(s, e2, x, x);
  }

  /** A display that throws is swallowed, and the record written before it stays: a later delivery is suppressed. */
  lemma DisplayFailureStillSuppresses(s: DispatcherState, e1: Env, e2: Env, x: string)
    requires FireCallStep(s, e1, x).outcome == DisplayFailed
    ensures x in FireCallStep(s, e1, x).state.store
    ensures DisplayCount(FireCallStep(s, e1, x).effects, x) == 1
    ensures DisplayCount(FireCallStep(FireCallStep(s, e1, x).state, e2, x).effects, x) == 0
  {
    FireCallEffects(s, e1, x, x);
    SecondCallSuppressed(s, e1, e2, x);
  }

  // ---------------------------------------------------------------------------
  // The module state of call.js as an object

  class CallDispatcher {
    var isCallKeepInitialized: bool
    var listenersSetUp: bool
    var storage: map<string, string>
    /** Every interaction with the native module and the store, in order. */
    ghost var trace: seq<Effect>

    function State(): DispatcherState
      reads this
    {
      DispatcherState(isCallKeepInitialized, listenersSetUp, storage)
    }

    /** A fresh process: both latches unset, the store as persisted by earlier processes. */
    constructor (persisted: map<string, string>)
      ensures State() == DispatcherState(false, false, persisted) && trace == []
    {
      isCallKeepInitialized := false;
      listenersSetUp := false;
      storage := persisted;
      trace := [];
    }

    method InitializeCallKeep(setupResolves: bool) returns (ok: bool)
      modifies this
      ensures var r := InitializeStep(old(State()), setupResolves);
        ok == r.ok && State() == r.state && trace == old(trace) + r.effects
    {
      if isCallKeepInitialized {
        return true;
      }
      trace := trace + [Setup];
      if setupResolves {
        isCallKeepInitialized := true;
        ok := true;
      } else {
        ok := false;
      }
    }

    method SetupCallKeepListeners(reg: Registration)
      modifies this
      ensures var r := ListenersStep(old(State()), reg);
        State() == r.state && trace == old(trace) + r.effects
    {
      if listenersSetUp {
        return;
      }
      if reg == NoAddEventListener {
        return;
      }
      trace := trace + [AddEventListener(AnswerCall)];
      if reg == AnswerRegistrationThrows {
        return;
      }
      trace := trace + [AddEventListener(EndCall)];
      if reg == EndRegistrationThrows {
        return;
      }
      listenersSetUp := true;
    }

    method FireCall(orderId: string, env: Env) returns (outcome: Outcome)
      modifies this
      ensures var r := FireCallStep(old(State()), env, orderId);
        outcome == r.outcome && State() == r.state && trace == old(trace) + r.effects
    {
      ghost var s0, t0 := State(), trace;
      if orderId == "" {
        return MissingOrderId;
      }
      if !env.displayAvailable {
        return CallKeepUnavailable;
      }
      var initialized := InitializeCallKeep(env.setupResolves);
      if !initialized {
        return InitFailed;
      }
      SetupCallKeepListeners(env.registration);
      ghost var s2 := State();
      assert s2 == ListenersStep(InitializeStep(s0, env.setupResolves).state, env.registration).state;
      trace := trace + [GetItem(orderId)];
      assert trace == t0 + LookupTrace(s0, env, orderId);
      if env.getItemThrows {
        return StorageFailed;
      }
      if orderId in storage {
        return AlreadyAlerted;
      }
      trace := trace + [SetItem(orderId, orderId)];
      assert trace == t0 + WriteTrace(s0, env, orderId);
      if env.setItemThrows {
        return StorageFailed;
      }
      storage := storage[orderId := orderId];
      if env.isAndroid {
        trace := trace + [Sleep(ANDROID_DISPLAY_DELAY_MS)];
      }
      trace := trace + [DisplayIncomingCall(orderId, CALLER_NAME, CALLER_NAME)];
      assert trace == t0 + DisplayTrace(s0, env, orderId);
      outcome := if env.displayThrows then DisplayFailed else Displayed;
    }
  }
}
