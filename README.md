# Test-event publisher: event generation and the publish path

A model, in Dafny, of the core of a small mobile utility. The utility makes synthetic
clinical telemetry events and publishes them to a companion app through a bridge
transport. The events are continuous-glucose-monitor hypo and hyper readings, device
status pings and device alerts. The model covers:

- the event schema (`AppBridgeTypes`);
- the counter-based generator (`EventGeneration`, class `EventGenerator`): one counter
  shared by all four kinds of event, and ids `{hypo|hyper|device|alert}-event-{n}`,
  `event-{n}`, `hypo-{n+456}` and `hyper-{n+789}` derived from it;
- the real publisher (`BridgeService`, class `AppBridgeService`): a lazily created
  transport handle, a `connected` flag and a publish counter;
- the always-connected stand-in (`SimpleService`, class `SimpleEventService`);
- the sender component without its rendering (`Sender`): the stream-key router, the
  glucose-input fallback, and the connect, disconnect and send handlers (class
  `EventSender`);
- the root component's sent-event ledger (`Ledger`, class `App`).

The transport is an oracle. Each call the service makes to it is answered by a `Reply`
(`Resolved` or `Rejected(reason)`) passed in as a parameter. The ghost log
`TransportCalls` records every call, so a contract can say that an operation did not
reach the transport. `new Date().toISOString()` is a `timestamp` string parameter and
`Date.now()` is a `nowMs` parameter. Each `Math.floor(Math.random() * k)` is a
`...Draw` parameter constrained to `[0, k)`. A handler's user-facing `Alert.alert` is
returned as its title in `notice`.

Main proved facts:

- Decimal rendering round-trips (`DigitsValueOfNatToString`).
- Event ids parse back to their kind and number (`ParseEventIdOfEventId`), so ids from
  different (kind, number) pairs differ (`EventIdInjective`).
- Every generated event satisfies an independent well-formedness predicate.
- Between resets, the generator's history is numbered 1, 2, … and its ids are pairwise
  distinct.
- The executable `includes` agrees with an existential definition of occurrence
  (`Includes`).
- The router's three outcomes are characterised in both directions. It agrees with the
  fixed handlers except on alerts.
- The sender keeps the invariant "the component shows connected ⇒ the service is
  connected". So a send from a connected component always reaches the transport, and the
  ledger grows exactly when the publish resolves.

Behaviour of the code that the model keeps:

- `connect` has no "already connected" short cut: a connected service asks the
  transport again. Only the sender's `handleConnect` guard skips the call.
- When the transport's disconnect throws, `disconnect` swallows the error and
  `connected` keeps its value (`Disconnect`).
  The sender still shows "disconnected", because the service never throws
  (`HandleDisconnect`).
- The router is total: an event type that matches no test goes to `"alert"`. Alert events (`"device_alert"` contains `"device"`) go to
  `"device"`, not to `"alert"` (`RouterAgainstHandlers`).
- The declared `RemoteStreamKey` values are `"data"`, `"device"` and `"alert"`. The
  glucose handlers publish to `"dataEvents"`, which is not one of them
  (`StreamKeyValues`).
- The service's connection state is a single boolean. The sender's `isConnecting` flag
  is true only inside `handleConnect`.

## Model

| member | source | states |
|---|---|---|
| JsStrings.NatToString | src/services/EventGenerator.ts:15 | the `${n}` rendering of a counter is a non-empty string of decimal digits with no leading zero |
| JsStrings.DigitsValueOfNatToString | src/services/EventGenerator.ts:15 | reading the rendering back as decimal digits gives the number: the rendering loses nothing |
| JsStrings.NatToStringOfDigitsValue | src/services/EventGenerator.ts:15 | a numeral with no leading zero is exactly the rendering of its value, so only the canonical spelling of a number reads back |
| JsStrings.NatToStringInjective | src/services/EventGenerator.ts:22 | distinct counter values give distinct `event-{n}` suffixes |
| JsStrings.Includes | src/components/EventSender.tsx:117-119 | `s.includes(sub)` holds exactly when `sub` occurs in `s` at some position |
| AppBridgeTypes.ExactlyOneVariant | src/types/AppBridgeTypes.ts:55 | every `TestEvent` is exactly one of a data, device or alert event; this restates the union's declaration, which the datatype already enforces |
| AppBridgeTypes.StreamKeyValue | src/types/AppBridgeTypes.ts:67-71 | each declared stream key has one of the values "data", "device", "alert" |
| AppBridgeTypes.StreamKeyValues | src/types/AppBridgeTypes.ts:67-71 | the keys are exactly DATA, DEVICE and ALERT, with distinct values making up exactly {"data", "device", "alert"}; "dataEvents" is not one of them |
| AppBridgeTypes.SixOperations | src/types/AppBridgeTypes.ts:73-89 | the bridge interface has exactly six operations, two of them read queries; this restates the interface's declaration, as `BridgeOperation` is tied to no method |
| EventGeneration.ParseEventIdOfEventId | src/services/EventGenerator.ts:15 | an id `{prefix}-event-{n}` reads back as its kind and its number `n` |
| EventGeneration.EventIdOfParsed | src/services/EventGenerator.ts:15 | any string that reads back as a kind and a number is the id `{prefix}-event-{n}` built from them (leading zeros are refused) |
| EventGeneration.EventIdInjective | src/services/EventGenerator.ts:13-15 | two ids are equal only when made from the same kind and the same counter value |
| EventGeneration.TransmitterTime | src/services/EventGenerator.ts:32 | `transmitter_time` is the whole number of seconds in the millisecond clock |
| EventGeneration.HypoEvent | src/services/EventGenerator.ts:12-37 | the hypo record for counter `n` is well formed: its id reads back as (hypo, n), `sequence_number == n`, `hypo_id` is `hypo-{n+456}`, the unit is mg/dL, `reading_time` is the timestamp, and `glucose` is the argument |
| EventGeneration.HyperEvent | src/services/EventGenerator.ts:39-64 | as for hypo, with `hyper_id` `hyper-{n+789}` and type `cgm_hyper_high` |
| EventGeneration.DeviceEvent | src/services/EventGenerator.ts:66-83 | the device record for `n` is well formed: battery in [0,100), signal in [1,5], the given `deviceId`, type `device_status` |
| EventGeneration.AlertEvent | src/services/EventGenerator.ts:85-101 | the alert record for `n` is well formed: message `Test alert: {alertType}`, priority "high", type `device_alert` |
| EventGeneration.HistoryIdsDistinct | src/services/EventGenerator.ts:13-15 | a history numbered 1, 2, … in order never repeats an event id |
| EventGeneration.EventGenerator.constructor | src/services/EventGenerator.ts:10 | a new generator has counter 0 and an empty history |
| EventGeneration.EventGenerator.GenerateHypoEvent | src/services/EventGenerator.ts:12-37 | the counter rises by exactly 1; the event is the hypo record for the new counter value (glucose default 55) and is appended to the history; the history stays numbered and well formed |
| EventGeneration.EventGenerator.GenerateHyperEvent | src/services/EventGenerator.ts:39-64 | as for hypo, default glucose 300 |
| EventGeneration.EventGenerator.GenerateDeviceEvent | src/services/EventGenerator.ts:66-83 | as for hypo, a device record, default device id `test-device-123` |
| EventGeneration.EventGenerator.GenerateAlertEvent | src/services/EventGenerator.ts:85-101 | as for hypo, an alert record, default alert type `low_battery` |
| EventGeneration.EventGenerator.GenerateRandomEvent | src/services/EventGenerator.ts:103-130 | delegates to exactly one generator (counter +1) by the drawn kind; hypo glucose in [30,70), hyper glucose in [250,450), device id `device-{k}` with k in [0,1000), alert type from the four-element list |
| EventGeneration.EventGenerator.GetEventCount | src/services/EventGenerator.ts:132-134 | returns the number of events generated since construction or the last reset |
| EventGeneration.EventGenerator.ResetCounter | src/services/EventGenerator.ts:136-138 | the counter and the history go back to empty, so the next event is number 1 |
| EventGeneration.EventGenerator.IdsDistinctSinceReset | src/services/EventGenerator.ts:13-15 | between resets the generator never hands out the same event id twice |
| BridgeService.AppBridgeService.constructor | src/services/AppBridgeService.ts:16-24 | no handle, not connected, publish counter 0, nothing called |
| BridgeService.AppBridgeService.InitializeAppBridge | src/services/AppBridgeService.ts:26-41 | creates the handle with the fixed app configuration only when there is none; with a handle it changes nothing and calls nothing (idempotent) |
| BridgeService.AppBridgeService.Connect | src/services/AppBridgeService.ts:43-58 | resolves exactly when the handle exists or is created and the transport connect resolves; `connected` becomes true only then; on failure the rejecting call's own error (from `getInstance` or from `connect`) is thrown on and `connected` is unchanged; the handle left and the transport calls made are stated; no short cut when already connected |
| BridgeService.AppBridgeService.Disconnect | src/services/AppBridgeService.ts:60-73 | never throws; `connected` becomes false when there is no handle or the transport resolves, and keeps its value when the transport throws |
| BridgeService.AppBridgeService.IsConnected | src/services/AppBridgeService.ts:75-77 | returns `connected`, which implies a handle exists |
| BridgeService.AppBridgeService.AddObjectToSharedStream | src/services/AppBridgeService.ts:79-109 | not connected: throws "Not connected to Lumiere app" without calling the transport or changing the counter; connected: one publish call, counter +1 exactly when it resolves, the transport error thrown on otherwise |
| BridgeService.AppBridgeService.GetItemsFromRemoteStream | src/services/AppBridgeService.ts:112-119 | always throws the "use Lumiere app to get items" error |
| BridgeService.AppBridgeService.ListenForChangesToRemoteStream | src/services/AppBridgeService.ts:121-128 | always throws the "use Lumiere app to listen" error |
| BridgeService.AppBridgeService.GetEventCount | src/services/AppBridgeService.ts:131-133 | returns the number of publishes the transport accepted |
| SimpleService.SimpleEventService.constructor | src/services/SimpleEventService.ts:8 | the count starts at 0 |
| SimpleService.SimpleEventService.Connect | src/services/SimpleEventService.ts:10-13 | always resolves, changes nothing |
| SimpleService.SimpleEventService.Disconnect | src/services/SimpleEventService.ts:15-18 | always resolves, changes nothing |
| SimpleService.SimpleEventService.IsConnected | src/services/SimpleEventService.ts:20-22 | always true |
| SimpleService.SimpleEventService.AddObjectToSharedStream | src/services/SimpleEventService.ts:24-41 | never fails; the count rises by exactly 1 |
| SimpleService.SimpleEventService.GetEventCount | src/services/SimpleEventService.ts:43-45 | equals the number of publishes so far |
| Ledger.App.constructor | App.tsx:9 | the ledger starts empty |
| Ledger.App.HandleEventSent | App.tsx:11-13 | appends the event at the end, keeping every earlier entry in order; grows by exactly one, no deduplication |
| Ledger.App.HandleClearAll | App.tsx:15-17 | leaves the ledger empty |
| Sender.StreamKeyFor | src/components/EventSender.tsx:116-121 | total and ordered: "dataEvents" exactly when the type contains "hypo" or "hyper"; otherwise "device" exactly when it contains "device"; otherwise "alert" |
| Sender.RouterAgainstHandlers | src/components/EventSender.tsx:87-121 | the router sends hypo, hyper and device events where the fixed handlers do, but sends alerts to "device" while the alert handler uses "alert" |
| Sender.GlucoseOrDefault | src/components/EventSender.tsx:88 | the parsed glucose when it parsed to a non-zero number; the default when parsing failed or gave 0 |
| Sender.EventSender.constructor | src/components/EventSender.tsx:17-20 | not connected, not connecting, glucose field "55" |
| Sender.EventSender.SetCustomGlucose | src/components/EventSender.tsx:169 | the field now holds the new parsed text |
| Sender.EventSender.HandleConnect | src/components/EventSender.tsx:22-41 | no-op when already connected; otherwise shows connected exactly when the service connect resolves, tells the user otherwise, and always ends not connecting; the service's handle and transport calls are those of `connect`; keeps "shown connected ⇒ service connected" |
| Sender.EventSender.HandleDisconnect | src/components/EventSender.tsx:43-55 | no-op when not connected; otherwise calls the service and always ends showing disconnected, with exactly one transport disconnect call and the handle kept, while the service stays connected if the transport threw |
| Sender.EventSender.SendEvent | src/components/EventSender.tsx:57-85 | not connected: no publish, no ledger entry, "Not Connected"; connected: exactly one publish call, and the event is appended to the ledger exactly when the publish resolves ("Send Failed" otherwise) |
| Sender.EventSender.HandleSendHypoEvent | src/components/EventSender.tsx:87-92 | generates (and numbers) a hypo event with the field's glucose or 55, even when not connected, and sends it to "dataEvents"; when not connected the service and the ledger are untouched |
| Sender.EventSender.HandleSendHyperEvent | src/components/EventSender.tsx:94-99 | as for hypo, default 300, to "dataEvents" |
| Sender.EventSender.HandleSendDeviceEvent | src/components/EventSender.tsx:101-105 | a default device event, to "device" |
| Sender.EventSender.HandleSendAlertEvent | src/components/EventSender.tsx:107-111 | a default alert event, to "alert" |
| Sender.EventSender.HandleSendRandomEvent | src/components/EventSender.tsx:113-123 | a random event of the drawn kind, sent to the stream the router picks from its type |
| Scenarios.TwoAlertsFromFreshGenerator | src/services/EventGenerator.ts:85-101 | two `sensor_error` alerts from a fresh generator are `alert-event-1` and `alert-event-2`, both with message `Test alert: sensor_error` |
| Scenarios.ResetThenDeviceEvent | src/services/EventGenerator.ts:136-138 | after two events and a reset, the default device event is `device-event-1` and the count is 1 |
| Scenarios.DefaultGlucose | src/services/EventGenerator.ts:12-64 | with no argument, glucose is 55 for hypo and 300 for hyper, in mg/dL |
| Scenarios.PublishBeforeConnect | src/services/AppBridgeService.ts:92-94 | a publish before any connect throws "Not connected to Lumiere app" and counts nothing |
| Scenarios.DisconnectBeforeConnect | src/services/AppBridgeService.ts:60-73 | disconnecting a service that never connected leaves it disconnected and makes no transport call |
| Scenarios.FailedDisconnectKeepsConnection | src/services/AppBridgeService.ts:64-72 | after a failed transport disconnect the service is still connected and still publishes |
| Scenarios.ConnectAndSendHypo | src/components/EventSender.tsx:57-92 | connect, type 40, send hypo: the ledger holds exactly `hypo-event-1` with glucose 40 and type `cgm_hypo_low`, published on "dataEvents", and one publish was counted |
| Scenarios.SendWhileDisconnected | src/components/EventSender.tsx:107-111 | sending while disconnected still numbers an event but leaves the ledger empty and shows "Not Connected" |
| Scenarios.RandomAlertGoesToDeviceStream | src/components/EventSender.tsx:113-123 | a random alert, sent while connected, is recorded and was published on "device" |
| Scenarios.StandInCountsPublishes | src/services/SimpleEventService.ts:15-45 | the stand-in stays connected after disconnect and counts both publishes |

## Left out

- Rendering, styling and layout (all JSX and style sheets). The event monitor component
  and the bundler configuration are not part of this model.
- The external bridge transport and the linking module are foreign code. They appear
  only as `Reply` parameters. The `linkingApi` entry of the handle's configuration is not
  modelled.
- `Math.random()` and the clock are parameters. The uniform distribution of the random
  draws is not modelled, only their ranges.
- Console logging, `JSON.stringify` and the message bodies of user alerts are left out.
  Only the alert titles are kept, as the `notice` results.
- The dynamic `import()` of the service and generator modules is assumed to resolve. The
  service and generator singletons are explicit objects passed to the sender.
- Async interleavings. Each handler runs as one sequential step, and the un-awaited
  `sendEvent` call inside each send handler runs to completion before the handler ends.
  Because of this, `isConnecting` is observable only inside `HandleConnect`.
- JavaScript `parseInt`: the glucose field is modelled as its parse result, `Option<int>`
  (`None` for NaN).
- JavaScript numbers. Glucose values are integers; fractional numbers are not modelled.
  The counters are unbounded, so precision loss above 2^53 is not modelled.
- The `[key: string]: any` index signatures, which allow extra payload keys.
- The paging parameters of `getItemsFromRemoteStream` are accepted and ignored, as in the
  code, which always throws. The listener callback of `listenForChangesToRemoteStream` is
  not a parameter of the model; the code ignores it and always throws.
- The `default` branch of `generateRandomEvent`'s switch. A draw in [0,4) always selects
  one of the four named kinds, so that branch cannot run.
- Serialising an event for the transport and reading it back. No such code exists in the
  core: the object is handed to the transport as is.
- The bridge interface `AppBridgeMock` is not a Dafny trait. Its six operations are the
  `BridgeOperation` datatype, which no method is tied to. `AppBridgeService` has methods
  for all six. The stand-in `SimpleEventService` does not implement the interface: it has
  only connect, disconnect, isConnected, addObjectToSharedStream and getEventCount.
- Sender.EventSender.HandleSendRandomEvent: states the kind of the event and the stream
  it is sent to, not its field values; `GenerateRandomEvent` states those.
