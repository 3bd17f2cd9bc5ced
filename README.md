# Call-session bookkeeping of the Vidyo CallKit connector

This project models the part of the Xamarin Vidyo connector app that keeps track of a call
and of the media connection:

- **ActiveCall** (`Calls`): one call record. It has a fixed identity (UUID, handle,
  direction) and three flags (connecting, connected, on hold). The flag setters stamp
  millisecond timestamps. They synchronously raise `StartingConnectionChanged` /
  `ConnectedChanged` to the subscribers, in subscription order.
- **CallManager** (`Manager`): the single active-call slot. It also submits start, end
  and set-held transactions to the OS call controller, modelled as an outbox of actions.
- **ProviderDelegate** (`Bridge`): the OS-event state machine. Each perform-action
  handler checks the slot, changes the slot and/or the call, and answers `Fulfilled` or
  `Failed`. The audio-session and reset events clear or start the call. It also reports
  incoming calls.
- **CallCenter** (`Center`): the facade. Hang-up is an end request followed by an
  explicit slot clear. Incoming calls are delegated to the provider delegate.
- **VidyoController** (`Media`): the connector state, the wrap-up callback, the wrap-ups
  queued for the main thread, once-only initialisation, and the camera privacy remembered
  across app sleep.
- `CallKit` holds the OS boundary's value types. It also holds `CallKitProvider`, which
  records every report the app makes to the native call UI.
- `Scenarios` proves end-to-end properties of the pieces. The objects are wired as
  `AppDelegate` wires them, with one `CallManager` shared by the provider delegate and
  the call center (`CallCenter.Shared`).

The OS's answers, fresh UUIDs and clock values are inputs:
- which action the OS performs;
- whether an incoming-call report completes with an error;
- `DateTime.Now.Millisecond`, typed `Millisecond`, 0..999.

The engine's answers are inputs too: `ConnectorPKG.Initialize()`, `GetState()`, and
whether a connect is accepted.

A subscriber is one of three handler kinds:
- `ReportConnecting(provider)` and `ReportConnected(provider)` are the two lambdas that
  `PerformStartCallAction` attaches;
- `PageObserver` is the home page's observer, whose navigation is not modelled.

Each call keeps a ghost log of every event it raised. An entry records the event, its
receivers, and the call as they saw it.

`Scenarios.HangUpThenOsPerformsEnd` proves a consequence of the code as written.
`CallCenter.EndCall` clears the slot right after submitting the end transaction. So when
the OS later performs that end action, `PerformEndCallAction` finds an empty slot and
fails the action. The call's `EndCall` never runs and the call stays connected.

## Model

| member | source | states |
|---|---|---|
| `CallKit.CallKitProvider.ReportConnectingOutgoingCall` | VidyoConnector.iOS/Call/ProviderDelegate.cs:61 | the provider's report log grows by exactly one "connecting" report with the given UUID and time |
| `CallKit.CallKitProvider.ReportConnectedOutgoingCall` | VidyoConnector.iOS/Call/ProviderDelegate.cs:70 | the log grows by exactly one "connected" report with the given UUID and time |
| `CallKit.CallKitProvider.ReportNewIncomingCall` | VidyoConnector.iOS/Call/ProviderDelegate.cs:161 | the log grows by exactly one new-incoming-call report with the given UUID and handle |
| `Calls.ActiveCall.constructor` | VidyoConnector/Call/ActiveCall.cs:66-72 | the call stores exactly the given UUID, handle and direction; connecting, connected and on-hold are false; timestamps are 0; there are no subscribers and no notifications |
| `Calls.ActiveCall.SubscribeStartingConnection` | VidyoConnector/Call/ActiveCall.cs:98 | `+=` appends the handler to the StartingConnectionChanged subscribers and changes nothing else |
| `Calls.ActiveCall.SubscribeConnected` | VidyoConnector/Call/ActiveCall.cs:104 | `+=` appends the handler to the ConnectedChanged subscribers and changes nothing else |
| `Calls.ActiveCall.SetConnecting` | VidyoConnector/Call/ActiveCall.cs:22-31 | stores the value; `StartedConnectingOn` becomes the clock value only when the value is true and is untouched otherwise; no other field changes; exactly one StartingConnectionChanged is logged, even for an unchanged value, and its receivers see the updated call; every reachable provider gets exactly what those receivers report |
| `Calls.ActiveCall.SetConnected` | VidyoConnector/Call/ActiveCall.cs:33-49 | true stamps `ConnectedOn` and leaves `EndedOn`; false stamps `EndedOn` and leaves `ConnectedOn`; nothing else changes; exactly one ConnectedChanged is logged after the update, and each provider receives what its subscribers report |
| `Calls.ActiveCall.SetOnHold` | VidyoConnector/Call/ActiveCall.cs:51-58 | only the hold flag changes: no timestamp, no notification, no report |
| `Calls.ActiveCall.StartCall` | VidyoConnector/Call/ActiveCall.cs:76-79 | the call becomes connected, stamped now; identity, connecting and hold are unchanged; one ConnectedChanged |
| `Calls.ActiveCall.AnswerCall` | VidyoConnector/Call/ActiveCall.cs:81-85 | same as `StartCall`: connected, stamped, one ConnectedChanged, nothing else changed |
| `Calls.ActiveCall.EndCall` | VidyoConnector/Call/ActiveCall.cs:87-91 | the call becomes disconnected with `EndedOn` stamped; identity, connecting, hold and `ConnectedOn` are unchanged; one ConnectedChanged |
| `Calls.ActiveCall.RaiseStartingConnectionChanged` | VidyoConnector/Call/ActiveCall.cs:98-102 | one notification is logged with the current subscriber list as receivers (empty list: nothing is delivered); the providers receive exactly those subscribers' reports |
| `Calls.ActiveCall.RaiseConnectedChanged` | VidyoConnector/Call/ActiveCall.cs:104-108 | same as above for ConnectedChanged |
| `Calls.DeliverAll` | VidyoConnector/Call/ActiveCall.cs:101 | multicast invocation: after running every subscriber in order, each reachable provider's log is its old log followed by `ReportsTo` of the whole list |
| `Calls.SingleSubscriber` | VidyoConnector.iOS/Call/ProviderDelegate.cs:56-72 | a one-handler list reaches only that handler's provider and reports exactly what that handler reports |
| `Calls.ReportsOnlyToSinks` | VidyoConnector/Call/ActiveCall.cs:99-108 | a provider that no subscriber names receives nothing from a raise |
| `Calls.ReportsAreTruthful` | VidyoConnector.iOS/Call/ProviderDelegate.cs:56-72 | for any subscriber list, each report sent matches the call's state at delivery: a "connecting" report only while `IsConnecting` is true and carrying `StartedConnectingOn`; a "connected" report only while `IsConnected` is true and carrying `ConnectedOn` |
| `Calls.StartActionReporters` | VidyoConnector.iOS/Call/ProviderDelegate.cs:56-72 | for the lists the start handler attaches, each reaches only its provider: a StartingConnectionChanged raise reports exactly one "connecting" report stamped `StartedConnectingOn` when the call is connecting and nothing when it is not; a ConnectedChanged raise reports exactly one "connected" report stamped `ConnectedOn` when the call is connected and nothing when it is not (so setting a flag to false reports nothing) |
| `Calls.Deliver` | VidyoConnector.iOS/Call/ProviderDelegate.cs:56-72 | running one subscriber appends to its provider's log exactly that subscriber's report for the call as it is now, and to no other provider |
| `Calls.AtMostOneReportPerSubscriber` | VidyoConnector/Call/ActiveCall.cs:99-108 | one raise produces at most one report per subscriber |
| `Manager.CallManager.constructor` | VidyoConnector.iOS/Call/CallManager.cs:8-17 | a new manager has an empty slot and has submitted nothing |
| `Manager.CallManager.SendTransactionRequest` | VidyoConnector.iOS/Call/CallManager.cs:20-36 | exactly the given action is appended to the outbox; the slot is untouched |
| `Manager.CallManager.TransactionCompleted` | VidyoConnector.iOS/Call/CallManager.cs:23-35 | on success or error, the completion changes neither the slot, the outbox nor the active call (it only logs) |
| `Manager.CallManager.GetActiveCall` | VidyoConnector.iOS/Call/CallManager.cs:40-43 | returns exactly the value last placed in the slot |
| `Manager.CallManager.StartCall` | VidyoConnector.iOS/Call/CallManager.cs:45-56 | submits one start action with the fresh UUID and a Generic handle whose value is the contact; the slot is untouched |
| `Manager.CallManager.PlaceCall` | VidyoConnector.iOS/Call/CallManager.cs:58-61 | the slot is replaced by the argument unconditionally, null included; nothing else changes |
| `Manager.CallManager.EndCall` | VidyoConnector.iOS/Call/CallManager.cs:63-75 | empty slot: "No active calls" and nothing submitted; otherwise exactly one end action with the active call's UUID; slot and call are unchanged either way |
| `Manager.CallManager.PlaceCallOnHold` | VidyoConnector.iOS/Call/CallManager.cs:77-89 | empty slot: failure and nothing submitted; otherwise one set-held action for the active UUID with held = true |
| `Manager.CallManager.RemoveCallFromOnHold` | VidyoConnector.iOS/Call/CallManager.cs:91-103 | empty slot: failure and nothing submitted; otherwise one set-held action for the active UUID with held = false |
| `Bridge.ProviderDelegate.constructor` | VidyoConnector.iOS/Call/ProviderDelegate.cs:17-38 | keeps the given manager (the shared one) and creates a provider with no reports yet |
| `Bridge.ProviderDelegate.DidReset` | VidyoConnector.iOS/Call/ProviderDelegate.cs:42-46 | the slot is empty afterwards, whatever it held; no identity check; nothing else changes |
| `Bridge.ProviderDelegate.PerformStartCallAction` | VidyoConnector.iOS/Call/ProviderDelegate.cs:48-80 | always fulfills; the slot then holds a fresh call with the action's UUID and handle value, outgoing, not connecting/connected/held; its subscribers are exactly the connecting and connected reporters for this provider; the previous call is replaced and left untouched |
| `Bridge.ProviderDelegate.PerformAnswerCallAction` | VidyoConnector.iOS/Call/ProviderDelegate.cs:82-94 | fails exactly when the slot is empty, otherwise fulfills; slot and call are unchanged either way |
| `Bridge.ProviderDelegate.PerformEndCallAction` | VidyoConnector.iOS/Call/ProviderDelegate.cs:96-109 | empty slot: fails and changes nothing; otherwise the call becomes disconnected with `EndedOn` stamped, raises one ConnectedChanged, the slot is emptied, and the action is fulfilled |
| `Bridge.ProviderDelegate.PerformSetHeldCallAction` | VidyoConnector.iOS/Call/ProviderDelegate.cs:111-122 | empty slot: fails and changes nothing; otherwise the action's hold flag is copied into the call (its only change) and the action is fulfilled; the slot is unchanged |
| `Bridge.ProviderDelegate.TimedOutPerformingAction` | VidyoConnector.iOS/Call/ProviderDelegate.cs:124-127 | changes nothing: no compensating transition |
| `Bridge.ProviderDelegate.DidActivateAudioSession` | VidyoConnector.iOS/Call/ProviderDelegate.cs:129-139 | an active call becomes connected, stamped, with one ConnectedChanged and its reports; with an empty slot nothing happens; the slot is unchanged |
| `Bridge.ProviderDelegate.DidDeactivateAudioSession` | VidyoConnector.iOS/Call/ProviderDelegate.cs:141-148 | the slot is empty afterwards, whatever it held; nothing else changes |
| `Bridge.ProviderDelegate.ReportIncomingCall` | VidyoConnector.iOS/Call/ProviderDelegate.cs:152-175 | the OS receives one incoming-call report with the call's UUID and a Generic handle; the call is placed only when the completion has no error; on error the slot stays as it was; the call object is not changed |
| `Center.CallCenter.constructor` | VidyoConnector.iOS/Call/CallCenter.cs:11-15 | keeps exactly the given provider delegate and manager |
| `Center.CallCenter.ReportIncomingCall` | VidyoConnector.iOS/Call/CallCenter.cs:17-20 | forwards the same call object to the provider delegate; the effect is exactly the delegate's |
| `Center.CallCenter.EndCall` | VidyoConnector.iOS/Call/CallCenter.cs:22-26 | empty slot: fails in the manager before the clear and submits nothing; otherwise submits exactly one end action for the call's UUID and then empties the slot; either way the slot ends empty (the clear is idempotent) and the call's flags, timestamps and notifications are unchanged |
| `Media.StateAfterDisconnect` | Common/VidyoController.cs:275-283 | the state is Disconnected exactly when the reason is the expected disconnect, and DisconnectedUnexpected exactly for every other reason |
| `Media.LastAppend` | Common/VidyoController.cs:151-168 | the engine's current setting after extra calls is the last one those calls make, or the earlier setting if they make none |
| `Media.SleepResumeRestoresPrivacy` | Common/VidyoController.cs:151-168 | after any history, sleep leaves the camera private and the engine in background mode; a following resume restores the remembered privacy and foreground mode |
| `Media.VidyoController.constructor` | Common/VidyoController.cs:29-49 | the shared instance starts Idle, uninitialised, with no connector, no callback, no pending wrap-ups and no effects |
| `Media.VidyoController.SetConnectorState` | Common/VidyoController.cs:51-60 | the whole state is replaced and exactly one PropertyChanged named "ConnectorState" is raised |
| `Media.VidyoController.Initialize` | Common/VidyoController.cs:63-89 | once initialised, answers true without calling the engine again; otherwise calls the engine once and remembers and returns its answer |
| `Media.VidyoController.Construct` | Common/VidyoController.cs:91-104 | fails exactly when initialisation fails, leaving the callback and the connector as they were; otherwise stores the wrap-up callback and creates the connector |
| `Media.VidyoController.OnAppSleep` | Common/VidyoController.cs:151-158 | with a connector: privacy true, then background mode; the remembered privacy is kept; without a connector nothing happens |
| `Media.VidyoController.OnAppResume` | Common/VidyoController.cs:161-168 | with a connector: foreground mode, then the remembered privacy; without a connector nothing happens |
| `Media.VidyoController.Connect` | Common/VidyoController.cs:188-191 | one connect call to the engine with these room parameters; the engine's answer is returned |
| `Media.VidyoController.Disconnect` | Common/VidyoController.cs:193-196 | exactly one disconnect call to the engine |
| `Media.VidyoController.WrapCall` | Common/VidyoController.cs:198-210 | engine connected: one disconnect and no callback; engine idle or ready: the callback if one is registered; any other engine state: nothing |
| `Media.VidyoController.SetCameraPrivacy` | Common/VidyoController.cs:219-223 | remembers the value and passes exactly that value to the engine |
| `Media.VidyoController.OnSuccess` | Common/VidyoController.cs:251-255 | the state becomes Connected with one notification; no wrap-up is scheduled |
| `Media.VidyoController.OnFailure` | Common/VidyoController.cs:257-269 | the state becomes ConnectionFailure with one notification; exactly one main-thread wrap-up is scheduled |
| `Media.VidyoController.OnDisconnected` | Common/VidyoController.cs:271-292 | the state follows `StateAfterDisconnect(reason)` with one notification; exactly one wrap-up is scheduled |
| `Media.VidyoController.RunPendingWrapUp` | Common/VidyoController.cs:262-268 | running one posted closure removes it from the queue; it invokes the callback only if one is registered at run time |
| `Scenarios.OutgoingCallConnects` | VidyoConnector.iOS/Call/ProviderDelegate.cs:48-80 | start request, performed start, then audio activation: one start action for the contact; the OS heard exactly one "connected" report, at activation time, and no "connecting"; the call ends connected |
| `Scenarios.OutgoingCallTimesOut` | VidyoConnector.iOS/Call/ProviderDelegate.cs:124-127 | a timeout after the performed start leaves the call in the slot, neither connected nor connecting, with nothing reported |
| `Scenarios.IncomingCallRejected` | VidyoConnector.iOS/Call/ProviderDelegate.cs:161-174 | an incoming call the OS rejects is reported once and the slot stays empty |
| `Scenarios.StartThenEnd` | VidyoConnector.iOS/Call/ProviderDelegate.cs:96-109 | performed start then performed end: both fulfilled; the slot is filled between them and empty after; the call ends disconnected and the OS heard nothing |
| `Scenarios.HangUpThenOsPerformsEnd` | VidyoConnector.iOS/Call/CallCenter.cs:22-26 | hanging up submits the end action with the call's UUID and clears the slot; when the OS then performs it, the delegate fails it and the call stays connected |
| `Scenarios.EmptySlotRequestsFail` | VidyoConnector.iOS/Call/CallManager.cs:63-103 | with an empty slot, every request and every slot-reading perform handler fails, hang-up included; nothing is submitted or placed |
| `Scenarios.HoldAndResume` | VidyoConnector.iOS/Call/CallManager.cs:77-103 | hold and resume requests carry the active UUID with true and false; performing the hold sets the call's hold flag and leaves it connected |
| `Scenarios.UnexpectedDisconnectWrapsUpOnce` | Common/VidyoController.cs:271-292 | connected, then an unexpected disconnect, then the main thread runs the posted closure: the state is DisconnectedUnexpected and the callback fired exactly once |
| `Scenarios.FailureWithoutCallback` | Common/VidyoController.cs:257-269 | a connection failure with no callback registered ends in ConnectionFailure; running the posted closure invokes nothing |
| `Scenarios.SleepAndResumeKeepPrivacy` | Common/VidyoController.cs:151-168 | the privacy the app asked for is forced private while asleep and restored, in foreground mode, on resume |
| `Scenarios.InitializeOnlyOnce` | Common/VidyoController.cs:63-99 | a failed initialisation is retried by the next construction; once it has succeeded it is not repeated, even when the engine would now refuse |

## Left out

- Concurrency and asynchrony are not modelled. OS callbacks, engine callbacks and main-thread dispatch arrive as a sequence of method calls. `BeginInvokeOnMainThread` becomes the `pendingWrapUps` counter plus the explicit `RunPendingWrapUp` step.
- The completion of `ReportNewIncomingCall` is handled at once. Its error/no-error outcome is a parameter.
- The completion of `RequestTransaction` only writes to the console. It is `TransactionCompleted`, which changes nothing.
- `ConfigureAudioSession`, `CXProviderConfiguration` (one call per group, video, phone-number handles), `NSUuid` and `NSDate` construction, and console/debug logging are not modelled. UUIDs are kept as strings; fresh UUIDs and clock values are parameters.
- The parameterless `ActiveCall()` constructor is not modelled; the core never uses it.
- UUID, Handle and direction are public settable properties in the source. They are `const` here because no core code writes them after construction.
- The timestamps are `long` properties in the source. Here they have type `Millisecond`, because the only values ever stored in them are `DateTime.Millisecond` values or the default 0. So the 0..999 bound holds by typing.
- The start handler's connecting lambda reports through the `Provider` property, and its connected lambda through the `provider` parameter. The OS passes the provider the delegate is attached to, so both are modelled as the one `provider`.
- The home page's ConnectedChanged handler (navigation, or `WrapCall`) is the opaque `PageObserver` subscriber. Its effect is not modelled. Unsubscribing (`-=`) is never used and is not modelled.
- Media.VidyoController.SetConnectorState: the source calls `PropertyChanged.Invoke` without a null check, so it throws when nothing is subscribed. The model assumes a subscriber (the page's binding) and always records the notification.
- The `VidyoConnectorState` enum's declaration is not part of this model. `Idle` is taken as the initial value.
- The engine's `ConnectorState` is reduced to Idle, Ready, Connected and "any other state" (`EngineBusy`), the only distinction `WrapCall` makes. `ConnectorDisconnectReason` is reduced to the expected `Disconnected` reason versus any other code.
- VidyoClient SDK calls are not modelled: connector construction details, `GetVersion` (the version string `Construct` returns), `EnableDebug`/`DisableDebug`, experimental options, listener (un)registration, device selection, `CleanUp`, `ShowViewAt`/`RefreshUI`, `CycleCamera` and microphone privacy. Only initialisation, connector creation, connect, disconnect, camera privacy and mode are recorded, as effects.
- Device and log listener callbacks only log and are not modelled. `WrapCall`, `SetCameraPrivacy`, `Connect` and `Disconnect` require a connector, because the source dereferences `mConnector` there without a check.
- Nothing in the code restricts which `ConnectorState` follows which: every engine callback overwrites the state. Every slot clear is unconditional; none checks the call's identity. No core code ever sets `IsConnecting`, so an outgoing call never shows as connecting.
- The setters stamp on every assignment, not on changes of value: `StartedConnectingOn` on every true assignment to `IsConnecting`, `ConnectedOn` on every true assignment to `IsConnected` and `EndedOn` on every false one, even when the flag already had that value. A false assignment to `IsConnecting` stamps nothing. The model does the same.
