# Order dispatch, call alert and route display of the driver app

This Dafny project models the part of the driver app that turns a dispatched order into something the driver notices and can act on:

- **Call-alert dispatcher** (`src/utils/call.js`). It shows a simulated incoming call for a new order, at most once per order id. Two process-wide latches guard it: one for native-module setup and one for listener registration. A persistent key-value store remembers which ids have already alerted.
- **Background push handler** (`index.native.tsx`). It coerces the payload id with `String(...)` and forwards `order_dispatched` messages to the dispatcher.
- **Order management screen** (`src/screens/DriverOrderManagementScreen.tsx`), which covers:
  - the stop, duration and distance totals over the active current orders, and the header's plural choices;
  - push-notification and socket-event routing;
  - the focus lifecycle, which owns two refresh intervals and one realtime subscription;
  - local dismissal of adhoc orders, and which order cards are rendered.
- **Live route** (`src/components/LiveOrderRoute.tsx`). It picks the start place, the end place and the middle waypoints of an order.
- **Map view** (`src/components/OpenStreetMapView.tsx`). It decides:
  - which coordinates are valid and collected;
  - where the map is centred, with one marker per point;
  - the ordered coordinate list of the route query;
  - whether bounds are fitted, and whether a click is reported.

Modules, one per concern:

- **Wrappers:** `Option`.
- **JsValues:** loose JavaScript values, truthiness and `String(x)`.
- **CallAlert:** `fireCall`, its latches and its dedup store.
- **BackgroundHandler:** the background push handler.
- **Orders:** the screen's pure folds and rendering rules.
- **OrderScreen:** the screen's routing rules and its lifecycle, as the class `DriverOrderScreen`.
- **MapView:** the map view.
- **LiveOrderRoute:** the live route.

The dispatcher is modelled twice, at two levels:
- **Step functions:** `InitializeStep`, `ListenersStep` and `FireCallStep` are pure functions over the latches and the store. They also take the collaborators' behaviour in that call, `Env`: whether setup resolves, whether the storage calls throw, whether display throws, the platform.
- **The class `CallDispatcher`:** it holds the module state in fields. Its methods are proved to perform exactly those steps, and they log every interaction with the native module and the store in a ghost trace.

The per-call and per-run properties are proved as lemmas on the step functions and on `FireAll`, a run of sequential calls. The main one is that every order id alerts at most once.

The map view's coordinates are a type parameter `C`:
- a validity function `valid` stands for `isValidCoord`;
- a `CoordFormat` stands for the number formatting of template literals.

In `LiveOrderRoute`, `restoreFleetbasePlace` followed by `getCoordinates` becomes a parameter `coords`.

Collaborators whose outcome the core does not control become parameters:
- the native call module;
- the key-value store's failures;
- the platform;
- the socket subscription handle;
- the coordinate lookup.

## Model

| member | source | states |
|---|---|---|
| `CallAlert.InitializeStep` | src/utils/call.js:11-37 | Success iff the latch was already set or setup resolves. Once the latch is set there are no effects; otherwise exactly one `setup`. The latch is set only on success. The other latch and the store are untouched. |
| `CallAlert.ListenersStep` | src/utils/call.js:39-69 | Nothing happens once the latch is set. Otherwise 'answerCall' is registered, then 'endCall'. The latch is set iff both registrations succeed, so a throw or a missing `addEventListener` leaves it unset for a retry. |
| `CallAlert.FireCallStep` | src/utils/call.js:71-115 | A falsy id and a missing native module do nothing. A failed setup leaves the state as it was, with only the `setup` effect. The store gains only `orderId -> orderId`, and nothing when the write throws. An alert is attempted iff the id was unrecorded and is recorded afterwards. The latches are never reset. The listener latch is set afterwards iff it was set or the call reached the store with both registrations succeeding, so a missing `addEventListener` leaves it unset while the call goes on. |
| `CallAlert.FireCallEffects` | src/utils/call.js:84-110 | One call shows at most one alert, only for its own id, as ("New Order", "New Order"), as the last effect. It does so iff the store was reached, the read did not throw, the id was absent and the write did not throw. `setup` is called iff the id is non-empty, the module is present and the init latch was unset. No listeners are added once the listener latch is set. |
| `CallAlert.OnAnswerCall` | src/utils/call.js:48-55 | Ends the session with the answered call's UUID, then brings the app to the foreground unless `endCall` threw. |
| `CallAlert.OnEndCall` | src/utils/call.js:57-63 | Brings the app to the foreground and ends no session. |
| `CallAlert.AtMostOneAlertPerOrder` | src/utils/call.js:94-110 | Over any run of sequential calls, each id gets at most one alert, and none if it was already recorded. A recorded id stays recorded. |
| `CallAlert.NoSetupAfterSuccess` | src/utils/call.js:12-31 | Once setup has succeeded, no later call in a run calls `setup` again, and the latch stays set. |
| `CallAlert.NoListenersAfterLatch` | src/utils/call.js:40-65 | Once both listeners are attached, no later call registers a listener. |
| `CallAlert.SecondCallSuppressed` | src/utils/call.js:94-97 | A second call with the same id, after the first found or wrote the record, shows nothing. |
| `CallAlert.MarkingIsPerId` | src/utils/call.js:94-97 | The dedup record of one id changes nothing about a call for another id. |
| `CallAlert.SetupFailureIsRetried` | src/utils/call.js:30-36 | A rejected setup changes no state and touches neither the store nor the display. A later call whose setup resolves shows the alert and records the id. |
| `CallAlert.DisplayFailureStillSuppresses` | src/utils/call.js:96-109 | A display that throws is swallowed. The record written before it stays, so a redelivery is suppressed. |
| `CallAlert.CallDispatcher.constructor` | src/utils/call.js:7-9 | A fresh process has both latches unset and the store as persisted. |
| `CallAlert.CallDispatcher.InitializeCallKeep` | src/utils/call.js:11-37 | Result, new fields and logged effects are those of `InitializeStep`. |
| `CallAlert.CallDispatcher.SetupCallKeepListeners` | src/utils/call.js:39-69 | New fields and logged effects are those of `ListenersStep`. |
| `CallAlert.CallDispatcher.FireCall` | src/utils/call.js:71-115 | Outcome, new fields and logged effects are those of `FireCallStep`. |
| `JsValues.ToJsString` | index.native.tsx:17 | `String(v)` is the string itself for a string. It is empty only for the empty string, so a missing id becomes the truthy "undefined". |
| `JsValues.DecimalRoundTrip` | index.native.tsx:17 | Reading back the decimal digits of a number gives that number. |
| `JsValues.IntToStringInjective` | index.native.tsx:17 | Distinct integers have distinct `String` forms. |
| `BackgroundHandler.HandleBackgroundMessage` | index.native.tsx:14-25 | A `fireCall` is started iff the type is 'order_dispatched'. Its argument is `String(id)`, which is empty iff the id is the empty string. |
| `BackgroundHandler.ForwardedCalls` | index.native.tsx:14-25 | When every delivery is a dispatch, each is forwarded in place as its coerced id. When none is, nothing is forwarded. |
| `BackgroundHandler.ForwardedCallsAppend` | index.native.tsx:14-25 | Forwarding a run of deliveries is forwarding each part in turn, so the handler keeps no state between deliveries. |
| `BackgroundHandler.Invocations` | index.native.tsx:20-22 | The dispatcher calls for a sequence of deliveries are the forwarded ids, in delivery order. |
| `BackgroundHandler.DuplicateDeliveryForwardedTwice` | index.native.tsx:14-25 | The handler keeps no state: a redelivered dispatch is forwarded again. |
| `BackgroundHandler.RedeliveryAlertsAtMostOnce` | index.native.tsx:20-22 | However the deliveries repeat, the dispatcher behind the handler alerts at most once per coerced id, and never for a recorded id. |
| `BackgroundHandler.NumericIdsKeepDistinctKeys` | index.native.tsx:17 | A numeric id is forwarded as its decimal string, and two different numbers never share a dedup key. |
| `Orders.Stops` | src/screens/DriverOrderManagementScreen.tsx:23-24 | An order without a payload has no stops. The count is one per present pickup and dropoff plus one per listed waypoint. A place is a stop iff it is the pickup, the dropoff or one of the waypoints. |
| `Orders.CountStops` | src/screens/DriverOrderManagementScreen.tsx:21-26 | The stop count is the length of every order's present stops placed end to end. |
| `Orders.CountStopsAsWritten` | src/screens/DriverOrderManagementScreen.tsx:21-26 | The count as written throws exactly when some order's waypoints are null. Otherwise it equals `CountStops`. |
| `Orders.NullWaypointsThrowAsWritten` | src/screens/DriverOrderManagementScreen.tsx:23-24 | An order with a pickup and `waypoints: null` makes the count as written throw; the corrected count gives 1. |
| `Orders.CountStopsAppend` | src/screens/DriverOrderManagementScreen.tsx:21-26 | The stop count is additive over concatenation. |
| `Orders.CountStopsExample` | src/screens/DriverOrderManagementScreen.tsx:21-26 | Orders with stops [A, B], [C] and none have 3 stops. |
| `Orders.SumsAppend` | src/screens/DriverOrderManagementScreen.tsx:28-36 | The duration and distance sums are additive over concatenation. |
| `Orders.SumsBounded` | src/screens/DriverOrderManagementScreen.tsx:28-36 | With non-negative times and distances, each total is non-negative and at least every single order's value. |
| `Orders.SumDuration` | src/screens/DriverOrderManagementScreen.tsx:28-31 | The total time is non-negative when every order's time is, and zero when every order's time is zero. |
| `Orders.SumDistance` | src/screens/DriverOrderManagementScreen.tsx:33-36 | The total distance is non-negative when every order's distance is, and zero when every order's distance is zero. |
| `Orders.IsActive` | src/screens/DriverOrderManagementScreen.tsx:60 | A status that is not a string is always active. A string status is active iff it is none of 'completed', 'created' and 'canceled'. |
| `Orders.ActiveOrders` | src/screens/DriverOrderManagementScreen.tsx:60 | An order is kept iff it is in the list and its status is not 'completed', 'created' or 'canceled'. The result is no longer than the input. |
| `Orders.ActiveOrdersAppend` | src/screens/DriverOrderManagementScreen.tsx:60 | The filter keeps the original order: filtering a concatenation concatenates the filtered parts. |
| `Orders.HeaderSummary` | src/screens/DriverOrderManagementScreen.tsx:224-244 | The order count is that of all current orders, plural iff more than one. The stop count is at most that of all orders, plural iff more than one, and equals the count as written whenever that does not throw. With no active order the stops, duration and distance are zero. |
| `Orders.NoActiveMeansEmpty` | src/screens/DriverOrderManagementScreen.tsx:60 | If no order is active, the active set is empty. |
| `Orders.ActiveStopsBounded` | src/screens/DriverOrderManagementScreen.tsx:60-61 | The active orders never have more stops than all the orders. |
| `Orders.InactiveOrderAddsOnlyToCount` | src/screens/DriverOrderManagementScreen.tsx:60-63 | A completed, created or canceled order raises the order count by one and adds no stops, time or distance. |
| `Orders.ActiveOrderAddsItsOwn` | src/screens/DriverOrderManagementScreen.tsx:60-63 | An active order adds exactly its own stops, time and distance to the header. |
| `Orders.IsAdhoc` | src/screens/DriverOrderManagementScreen.tsx:151 | An adhoc order has a truthy `adhoc` and a falsy `driver_assigned`. By strict equality, an `adhoc` other than `true` or an undefined `driver_assigned` is never adhoc. |
| `Orders.RenderOrder` | src/screens/DriverOrderManagementScreen.tsx:150-171 | Nothing is rendered iff the order is adhoc (`adhoc === true`, `driver_assigned === null`) and dismissed. Otherwise the order gets the adhoc card iff it is adhoc. |
| `Orders.RenderList` | src/screens/DriverOrderManagementScreen.tsx:248-250 | There are no more cards than orders, and with no adhoc order exactly as many. Every card is the rendering of an order of the data, and every order that renders has its card in the list. |
| `Orders.VisibleCards` | src/screens/DriverOrderManagementScreen.tsx:248 | The cards shown are the nearby orders' cards followed by the current orders' cards. |
| `Orders.RenderListMembers` | src/screens/DriverOrderManagementScreen.tsx:248-250 | A card is in the list iff its order is in the data and renders to that card. |
| `Orders.NonAdhocNeverHidden` | src/screens/DriverOrderManagementScreen.tsx:150-170 | A non-adhoc order, nearby or current, always has its order card, whatever was dismissed. |
| `Orders.DismissedAdhocHidden` | src/screens/DriverOrderManagementScreen.tsx:151-153 | A dismissed adhoc order has no card of either kind. |
| `Orders.RenderDependsOnDismissedSet` | src/screens/DriverOrderManagementScreen.tsx:153 | The rendered list depends only on which ids were dismissed, not on order or repetition. |
| `Orders.DismissTwiceSameAsOnce` | src/screens/DriverOrderManagementScreen.tsx:140 | Dismissing an order twice shows the same list as dismissing it once. |
| `Orders.RenderListAppend` | src/screens/DriverOrderManagementScreen.tsx:248 | The screen lists the nearby cards, then the current cards. |
| `OrderScreen.HandlePushNotification` | src/screens/DriverOrderManagementScreen.tsx:66-79 | The current orders are reloaded iff the id is a string starting with "order_". A `fireCall` with the raw id is started iff the type is 'order_dispatched'. Nothing else is reloaded. |
| `OrderScreen.PushDecisionsIndependent` | src/screens/DriverOrderManagementScreen.tsx:72-78 | The reload depends only on the id, and the alert only on the type. |
| `OrderScreen.DispatchOfOrderDoesBoth` | src/screens/DriverOrderManagementScreen.tsx:72-78 | A dispatch of an "order_…" id both reloads the current orders and starts an alert for that id. |
| `OrderScreen.ChannelFor` | src/screens/DriverOrderManagementScreen.tsx:115 | The channel is "driver." followed by `String(driver.id)`. |
| `OrderScreen.ChannelsAreDistinct` | src/screens/DriverOrderManagementScreen.tsx:115 | Distinct string driver ids listen on distinct channels. |
| `OrderScreen.HandleSocketEvent` | src/screens/DriverOrderManagementScreen.tsx:115-122 | 'order.ready' reloads exactly the current orders and 'order.ping' exactly the nearby ones, with no arguments. Any other event does nothing. |
| `OrderScreen.DriverOrderScreen.constructor` | src/screens/DriverOrderManagementScreen.tsx:43-56 | A mounted, unfocused screen has no interval and no subscription. Its dismissal list is the one the order manager already holds. |
| `OrderScreen.DriverOrderScreen.Focus` | src/screens/DriverOrderManagementScreen.tsx:88-136 | On focus, both intervals run with their fixed periods (30000 and 90000 ms). The active, then the current orders are reloaded at once, but the nearby ones are not. The driver's channel is listened on. The subscription is stored only if one was returned. |
| `OrderScreen.DriverOrderScreen.Blur` | src/screens/DriverOrderManagementScreen.tsx:95-134 | On blur, both intervals are cleared and the stored subscription, if any, is stopped. Nothing is reloaded. |
| `OrderScreen.DriverOrderScreen.TimerFires` | src/screens/DriverOrderManagementScreen.tsx:90-107 | Only a running interval reloads its collection, with `setLoadingFlag: false`. After blur a tick has no effect. |
| `OrderScreen.DriverOrderScreen.OnSocketEvent` | src/screens/DriverOrderManagementScreen.tsx:115-122 | The reloads made are those of `HandleSocketEvent`. |
| `OrderScreen.DriverOrderScreen.OnPushNotification` | src/screens/DriverOrderManagementScreen.tsx:66-79 | The reloads and the `fireCall` are those of `HandlePushNotification`. |
| `OrderScreen.DriverOrderScreen.DismissAdhoc` | src/screens/DriverOrderManagementScreen.tsx:138-143 | The order's id is appended to the dismissal list. Afterwards the dismissed order, if adhoc, never shows its card. |
| `OrderScreen.DriverOrderScreen.AcceptAdhoc` | src/screens/DriverOrderManagementScreen.tsx:145-148 | Accepting reloads the nearby, then the current orders. |
| `MapView.IsValidCoord` | src/components/OpenStreetMapView.tsx:32-42 | A coordinate prop is valid iff it is present and satisfies `valid`, so null and undefined are never valid. |
| `MapView.ValidPoints` | src/components/OpenStreetMapView.tsx:75-79 | Every kept waypoint is valid, and there are no more than the waypoints. |
| `MapView.ValidPointsMembers` | src/components/OpenStreetMapView.tsx:75-79 | A point is kept iff it is one of the waypoints and is valid. |
| `MapView.AllPoints` | src/components/OpenStreetMapView.tsx:67-79 | Every collected point is valid. There is one per valid endpoint plus the valid waypoints. A valid origin comes first, a valid destination next, and the valid waypoints form the rest. |
| `MapView.CollectPoints` | src/components/OpenStreetMapView.tsx:67-79 | The push loop collects the valid origin, then the valid destination, then the valid waypoints in order. |
| `MapView.ChooseCenter` | src/components/OpenStreetMapView.tsx:81-96 | The requested endpoint is the centre if it is valid. 'fitAll' centres on the mean of the points. Otherwise the centre is the first collected point. The default centre (1.369, 103.8864) is used iff no point is valid. |
| `MapView.Markers` | src/components/OpenStreetMapView.tsx:99-112 | There is one marker per collected point, in order, filled with the marker colour. |
| `MapView.LonLats` | src/components/OpenStreetMapView.tsx:119 | Each point is written "lon,lat", in order. |
| `MapView.Join` | src/components/OpenStreetMapView.tsx:120-122 | Joined non-empty parts are empty, hence falsy, iff there are no parts. A join starts with its first part. |
| `MapView.JoinAppend` | src/components/OpenStreetMapView.tsx:120-124 | Joining two non-empty lists puts one `;` between the two joins. |
| `MapView.RouteStops` | src/components/OpenStreetMapView.tsx:116-125 | A route is requested iff `showRoute` holds and both endpoints are valid. It starts at the origin, ends at the destination, and between them runs through exactly the valid waypoints, in order. |
| `MapView.RouteCoords` | src/components/OpenStreetMapView.tsx:117-124 | Both branches of the query string are the `;`-join of the origin, the valid waypoints and the destination, each written "lon,lat". |
| `MapView.FitBoundsPoints` | src/components/OpenStreetMapView.tsx:152-158 | Bounds are fitted, to all collected points, iff centring on all of them, with more than one point and no route. |
| `MapView.HandleMessage` | src/components/OpenStreetMapView.tsx:215-219 | `onPress` is called iff the message is 'mapPressed' and a callback was given. |
| `MapView.BuildMapScript` | src/components/OpenStreetMapView.tsx:59-208 | The script's centre, markers, route query, bounds fit and click handler are those of the rules above. |
| `MapView.RouteAndFitBoundsExclusive` | src/components/OpenStreetMapView.tsx:116-158 | A route and a bounds fit are never both emitted. |
| `MapView.MarkersCoverValidPoints` | src/components/OpenStreetMapView.tsx:67-112 | Every marker is valid, and every valid waypoint gets a marker. |
| `LiveOrderRoute.RouteWaypoints` | src/components/LiveOrderRoute.tsx:32 | Undefined and null waypoints both read as the empty list. |
| `LiveOrderRoute.StartWaypoint` | src/components/LiveOrderRoute.tsx:35 | The start is the pickup if present, else the first waypoint. There is no start iff there is neither. |
| `LiveOrderRoute.EndWaypoint` | src/components/LiveOrderRoute.tsx:39 | The end is the dropoff if present. Otherwise it is the last waypoint iff that is not also the first, so a single waypoint gives no end. |
| `LiveOrderRoute.JsSlice` | src/components/LiveOrderRoute.tsx:49 | In-range bounds select `s[start..end]`, and a negative end stops that many elements before the end. Bounds that meet or cross select nothing. |
| `LiveOrderRoute.MiddleWaypoints` | src/components/LiveOrderRoute.tsx:47-52 | There are none when focusing on the current destination. Otherwise they are all waypoints but the first and the last, in order, each labelled with its address. |
| `LiveOrderRoute.LiveMapProps` | src/components/LiveOrderRoute.tsx:43-67 | The map always gets an origin and a destination, `showRoute`, origin centring and no `onPress`. |
| `LiveOrderRoute.SingleWaypointHasNoEnd` | src/components/LiveOrderRoute.tsx:35-52 | With no pickup or dropoff and one waypoint, that waypoint is the start, there is no end place and there are no middle waypoints. |
| `LiveOrderRoute.LiveRouteNeverFitsBounds` | src/components/LiveOrderRoute.tsx:63 | The live route never fits bounds. |
| `LiveOrderRoute.LiveRouteCentersOnStart` | src/components/LiveOrderRoute.tsx:65 | The live route centres on the start's coordinates whenever they are valid. |
| `LiveOrderRoute.LiveRouteStops` | src/components/LiveOrderRoute.tsx:43-63 | The route is drawn iff the start and end coordinates are valid. It runs start, valid middle waypoints, end, and goes straight from start to end when focusing on the current destination. |
| `LiveOrderRoute.MiddleWaypointsAreInner` | src/components/LiveOrderRoute.tsx:47-52 | The i-th middle point on the map is the coordinates of the order's waypoint i+1. |

## Left out

A stricter policy would write the dedup record only after a successful display, and treat a storage error as "not yet alerted". The code does neither, and the model follows the code:
- `fireCall` writes the dedup record before it displays the alert, not after a successful display. A display that throws therefore still suppresses later deliveries.
- A throwing store read or write ends in the outer catch with no alert. It does not degrade to "not yet alerted".
- The refresh periods are `6000 * 5` = 30000 ms and `6000 * 15` = 90000 ms. The source comments say five and fifteen minutes.

Not modelled, one item per line:
- Concurrency: overlapping `fireCall`s that interleave between the store read and write. `FireAll` only models sequential calls, each finishing before the next starts.
- Logging (`console.*`), the `setup` options object and the 100 ms sleep's real time. The sleep appears only as an effect in the trace.
- `fireCall`'s return value, which is always `undefined`. The model returns a diagnostic `Outcome` instead.
- A background message whose `data` is missing. In the source, `remoteMessage.data.id` then throws before anything is forwarded.
- The foreground push handler passes the raw `payload.id`, not a coerced string, to `fireCall`. The model records that argument as a JavaScript value but does not run the dispatcher on non-string keys: AsyncStorage's behaviour on non-string keys is not part of this model.
- JavaScript numbers are the safe integers here (magnitude at most 2^53 - 1), whose `String` form is plain decimal. Fractional values, `NaN`, the infinities, larger integers (which lose distinctness, and are written with an exponent from 1e21) are left out, including the `NaN` sums that an undefined `time` or `distance` produces.
- Null entries inside a waypoints array.
- Object identity of places is modelled by a key field.
- The order manager's collections and fetching. The screen only requests reloads, which are logged.
- The re-run of the listen effect when `listen` or `driver.id` changes.
- The push listener's registration and removal on mount and unmount.
- The `await` between `listen` and storing its result: the model takes the returned subscription as an argument to `Focus`.
- Navigation, translation, date formatting, `formatDuration`/`formatMeters` and the past-orders list.
- The map's generated HTML and Leaflet calls, the routing-service fetch and its response, the mean arithmetic behind the `fitAll` centre, and the `centerLat || 0` fallback. The model keeps only the decisions and the route query's coordinate list.
- The memo dependencies of the map's HTML. `onPress` is not among them, so a changed callback presence does not rebuild the click wiring. The model rebuilds the script from all props.
- `restoreFleetbasePlace` and `getCoordinates` are not part of this model. They enter as the parameter `coords`, which is also applied to raw middle waypoints.
- MapView.ChooseCenter: the 'fitAll' centre is stated as the mean of all collected points, not as the computed latitude and longitude.
- The map view's default props (src/components/OpenStreetMapView.tsx:47-55): the model's props are always given in full. The defaults are `waypoints = []`, `showRoute = true`, `markerColor = '#3b82f6'` and `centerOn = 'destination'`. `LiveOrderRoute` passes no marker colour, so its props carry that default.
- Orders.HeaderSummary: the stop count is stated as bounded by that of all orders. Its exact value over the active set is proved by `Orders.InactiveOrderAddsOnlyToCount` and `Orders.ActiveOrderAddsItsOwn`. The header uses the corrected `Orders.CountStops`: where an active order has `waypoints: null`, the source's render throws (see Findings), while the model shows the corrected count.
- OrderScreen.ChannelsAreDistinct: stated for string ids only, because the template literal gives a numeric id and its decimal string the same channel (`Num(1)` and `Str("1")` both listen on "driver.1").
- OrderScreen.DriverOrderScreen.Focus: it requires an unfocused screen, and `Blur` requires a focused one, because the navigation framework alternates them.

## Findings

| source | as written | input that shows it | evidently intended | confidence | as-written member | corrected member |
|---|---|---|---|---|---|---|
| src/screens/DriverOrderManagementScreen.tsx:23-24 | `waypoints = []` replaces only `undefined`, so a payload with `waypoints: null` reaches `...waypoints` and the reduce throws a TypeError while the header renders | an active order with a pickup and `waypoints: null` (`Orders.NullWaypointsThrowAsWritten`) | null waypoints count as none, as `LiveOrderRoute.tsx` line 32 reads them with `?? []` | not executed | `Orders.CountStopsAsWritten` | `Orders.CountStops` |
