/** End-to-end properties of the call integration and of the connector state machine,
    with the objects wired the way the iOS app delegate wires them: one call manager
    shared by the provider delegate and the call center. The OS's answers (which action
    it performs, whether it accepts an incoming call) and the clock are inputs. */
module Scenarios {
  import opened CallKit
  import opened Calls
  import opened Manager
  import opened Bridge
  import opened Center
  import opened Media

  /** An outgoing call: the manager submits the start, the OS performs it and then
      activates the audio session. The call ends connected, and the OS has heard exactly
      one "connected" report, stamped with the activation time, and no "connecting". */
  method OutgoingCallConnects(contact: string, uuid: string, now: Millisecond)
    returns (startOutcome: Outcome, submitted: seq<CallAction>, connected: bool, reports: seq<UiReport>)
    ensures startOutcome == Fulfilled
    ensures submitted == [StartCallAction(uuid, CallHandle(Generic, contact))]
    ensures connected
    ensures reports == [ConnectedOutgoing(uuid, now)]
  {
    var manager := new CallManager();
    var bridge := new ProviderDelegate(manager);
    var center := new CallCenter(bridge, manager);
    manager.StartCall(contact, uuid);
    submitted := manager.outbox;
    startOutcome := bridge.PerformStartCallAction(submitted[0]);
    SingleSubscriber(bridge.provider, ReportConnected(bridge.provider), manager.activeCall.View());
    bridge.DidActivateAudioSession(now);
    SingleSubscriber(bridge.provider, ReportConnected(bridge.provider), manager.activeCall.View());
    var call := manager.GetActiveCall();
    connected := call != null && call.isConnected;
    reports := bridge.provider.reports;
  }

  /** An outgoing call whose OS action times out after being performed: the slot keeps the
      call, which is neither connected nor connecting, and nothing was reported. */
  method OutgoingCallTimesOut(contact: string, uuid: string)
    returns (slotFilled: bool, connected: bool, connecting: bool, reports: seq<UiReport>)
    ensures slotFilled && !connected && !connecting && reports == []
  {
    var manager := new CallManager();
    var bridge := new ProviderDelegate(manager);
    manager.StartCall(contact, uuid);
    var action := manager.outbox[0];
    var _ := bridge.PerformStartCallAction(action);
    bridge.TimedOutPerformingAction(action);
    var call := manager.GetActiveCall();
    slotFilled := call != null;
    connected := call != null && call.isConnected;
    connecting := call != null && call.isConnecting;
    reports := bridge.provider.reports;
  }

  /** An incoming call the OS rejects: the OS heard the report, the slot stays empty. */
  method IncomingCallRejected(uuid: string, handle: string)
    returns (slotFilled: bool, reports: seq<UiReport>)
    ensures !slotFilled
    ensures reports == [NewIncomingCall(uuid, CallHandle(Generic, handle))]
  {
    var manager := new CallManager();
    var bridge := new ProviderDelegate(manager);
    var center := new CallCenter(bridge, manager);
    var call := new ActiveCall(uuid, handle, false);
    center.ReportIncomingCall(call, true);
    slotFilled := manager.activeCall != null;
    reports := bridge.provider.reports;
  }

  /** A performed start followed by a performed end: the slot is filled between the two
      and empty after; both actions are fulfilled; the ended call raised one
      ConnectedChanged with connected false and the OS heard nothing. */
  method StartThenEnd(uuid: string, handle: CallHandle, now: Millisecond)
    returns (startOutcome: Outcome, filledBetween: bool, endOutcome: Outcome, filledAfter: bool,
             endedConnected: bool, reports: seq<UiReport>)
    ensures startOutcome == Fulfilled && filledBetween
    ensures endOutcome == Fulfilled && !filledAfter
    ensures !endedConnected && reports == []
  {
    var manager := new CallManager();
    var bridge := new ProviderDelegate(manager);
    startOutcome := bridge.PerformStartCallAction(StartCallAction(uuid, handle));
    var call := manager.GetActiveCall();
    filledBetween := call != null;
    SingleSubscriber(bridge.provider, ReportConnected(bridge.provider), call.View());
    endOutcome := bridge.PerformEndCallAction(EndCallAction(uuid), now);
    SingleSubscriber(bridge.provider, ReportConnected(bridge.provider), call.View());
    filledAfter := manager.activeCall != null;
    endedConnected := call != null && call.isConnected;
    reports := bridge.provider.reports;
  }

  /** Hanging up through the call center clears the slot before the OS performs the end
      action it was sent; the provider delegate then finds the slot empty and fails that
      action, so the call's `EndCall` never runs and the call stays connected. */
  method HangUpThenOsPerformsEnd(contact: string, uuid: string, now: Millisecond, later: Millisecond)
    returns (hangUp: Status, submittedEnd: CallAction, endOutcome: Outcome, stillConnected: bool)
    ensures hangUp == Ok
    ensures submittedEnd == EndCallAction(uuid)
    ensures endOutcome == Failed
    ensures stillConnected
  {
    var manager := new CallManager();
    var bridge := new ProviderDelegate(manager);
    var center := new CallCenter(bridge, manager);
    manager.StartCall(contact, uuid);
    var _ := bridge.PerformStartCallAction(manager.outbox[0]);
    SingleSubscriber(bridge.provider, ReportConnected(bridge.provider), manager.activeCall.View());
    bridge.DidActivateAudioSession(now);
    var call := manager.GetActiveCall();
    hangUp := center.EndCall();
    submittedEnd := manager.outbox[|manager.outbox| - 1];
    endOutcome := bridge.PerformEndCallAction(submittedEnd, later);
    stillConnected := call != null && call.isConnected;
  }

  /** With an empty slot every request and every slot-reading action fails, the call
      center's hang-up included, and nothing is submitted or placed. */
  method EmptySlotRequestsFail(uuid: string, now: Millisecond)
    returns (answer: Outcome, end: Outcome, held: Outcome, requests: seq<Status>, hangUp: Status,
             submitted: seq<CallAction>, slotFilled: bool)
    ensures answer == Failed && end == Failed && held == Failed
    ensures requests == [NoActiveCalls, NoActiveCalls, NoActiveCalls] && hangUp == NoActiveCalls
    ensures submitted == [] && !slotFilled
  {
    var manager := new CallManager();
    var bridge := new ProviderDelegate(manager);
    var center := new CallCenter(bridge, manager);
    answer := bridge.PerformAnswerCallAction(AnswerCallAction(uuid));
    end := bridge.PerformEndCallAction(EndCallAction(uuid), now);
    held := bridge.PerformSetHeldCallAction(SetHeldCallAction(uuid, true));
    var r1 := manager.EndCall();
    var r2 := manager.PlaceCallOnHold();
    var r3 := manager.RemoveCallFromOnHold();
    requests := [r1, r2, r3];
    hangUp := center.EndCall();
    submitted := manager.outbox;
    slotFilled := manager.activeCall != null;
  }

  /** Hold and resume requests for a connected call carry its UUID; performing the hold
      sets only the call's hold flag. */
  method HoldAndResume(uuid: string, handle: CallHandle, now: Millisecond)
    returns (submitted: seq<CallAction>, heldOutcome: Outcome, onHold: bool, connected: bool)
    ensures submitted == [SetHeldCallAction(uuid, true), SetHeldCallAction(uuid, false)]
    ensures heldOutcome == Fulfilled && onHold && connected
  {
    var manager := new CallManager();
    var bridge := new ProviderDelegate(manager);
    var _ := bridge.PerformStartCallAction(StartCallAction(uuid, handle));
    SingleSubscriber(bridge.provider, ReportConnected(bridge.provider), manager.activeCall.View());
    bridge.DidActivateAudioSession(now);
    var s1 := manager.PlaceCallOnHold();
    heldOutcome := bridge.PerformSetHeldCallAction(manager.outbox[0]);
    var s2 := manager.RemoveCallFromOnHold();
    submitted := manager.outbox;
    var call := manager.GetActiveCall();
    onHold := call != null && call.isOnHold;
    connected := call != null && call.isConnected;
  }

  /** A connected media session that the engine reports as disconnected for an unexpected
      reason: the state is DisconnectedUnexpected and, once the main thread has run the
      posted closure, the wrap-up callback has fired exactly once. */
  method UnexpectedDisconnectWrapsUpOnce(code: int)
    returns (state: ConnectorState, effects: seq<Effect>, pending: nat, changes: seq<string>)
    ensures state == DisconnectedUnexpected
    ensures effects == [EngineInitialize, EngineCreateConnector, WrapUpInvoked]
    ensures pending == 0
    ensures changes == ["ConnectorState", "ConnectorState"]
  {
    var controller := new VidyoController();
    var ok := controller.Construct(true, true);
    controller.OnSuccess();
    controller.OnDisconnected(ReasonOther(code));
    controller.RunPendingWrapUp();
    state := controller.state;
    effects := controller.effects;
    pending := controller.pendingWrapUps;
    changes := controller.propertyChanges;
  }

  /** A connection failure with no wrap-up callback registered: the state says so, one
      closure is posted, and running it invokes nothing. */
  method FailureWithoutCallback(reason: FailReason)
    returns (state: ConnectorState, effects: seq<Effect>)
    ensures state == ConnectionFailure
    ensures effects == [EngineInitialize, EngineCreateConnector]
  {
    var controller := new VidyoController();
    var ok := controller.Construct(false, true);
    controller.OnFailure(reason);
    controller.RunPendingWrapUp();
    state := controller.state;
    effects := controller.effects;
  }

  /** The app asks for a camera privacy, goes to sleep and comes back: asleep the camera is
      private, awake it has the privacy the app asked for. */
  method SleepAndResumeKeepPrivacy(privacy: bool)
    returns (asleep: Option<bool>, resumed: Option<bool>, mode: Option<ConnectorMode>)
    ensures asleep == Some(true)
    ensures resumed == Some(privacy)
    ensures mode == Some(Foreground)
  {
    var controller := new VidyoController();
    var ok := controller.Construct(true, true);
    controller.SetCameraPrivacy(privacy);
    controller.OnAppSleep();
    SleepResumeRestoresPrivacy(controller.effects[..|controller.effects| - 2], privacy);
    assert controller.effects == controller.effects[..|controller.effects| - 2] + SleepEffects;
    asleep := Last(controller.effects, PrivacySetting);
    controller.OnAppResume();
    resumed := Last(controller.effects, PrivacySetting);
    mode := Last(controller.effects, ModeSetting);
  }

  /** Construction retried after a failed initialisation initialises again; once it has
      succeeded, a further construction does not, even if the engine would now refuse. */
  method InitializeOnlyOnce()
    returns (first: bool, second: bool, third: bool, effects: seq<Effect>)
    ensures !first && second && third
    ensures effects == [EngineInitialize, EngineInitialize, EngineCreateConnector, EngineCreateConnector]
  {
    var controller := new VidyoController();
    first := controller.Construct(true, false);
    second := controller.Construct(true, true);
    third := controller.Construct(true, false);
    effects := controller.effects;
  }
}
