/** The inbound half of the call integration: the handlers the OS calls on the provider
    delegate. Each perform-action handler reads the shared slot, changes the slot and/or
    the call, and answers the action. */
module Bridge {
  import opened CallKit
  import opened Calls
  import opened Manager

  class ProviderDelegate {
    /** The `CallManager` property, shared with the call center. */
    const manager: CallManager
    /** The `Provider` property: the OS provider this delegate is attached to. */
    const provider: CallKitProvider

    /** `new ProviderDelegate(callManager)`: keeps the manager and creates the provider. */
    constructor (manager: CallManager)
      ensures this.manager == manager
      ensures fresh(provider) && provider.reports == []
    {
      this.manager := manager;
      provider := new CallKitProvider();
    }

    /** `DidReset`: the slot is emptied, whatever it held. */
    method DidReset()
      modifies manager`activeCall
      ensures manager.activeCall == null
    {
      manager.PlaceCall(null);
    }

    /** `PerformStartCallAction`: always fulfills, and leaves in the slot a new outgoing,
        unconnected call with the action's UUID and handle value, whose connecting
        subscriber reports "connecting" and whose connected subscriber reports
        "connected" to this provider. Any previous call is replaced, not touched. */
    method PerformStartCallAction(action: CallAction) returns (outcome: Outcome)
      requires action.StartCallAction?
      modifies manager`activeCall
      ensures outcome == Fulfilled
      ensures manager.activeCall != null && fresh(manager.activeCall)
      ensures manager.activeCall.View()
              == CallView(action.callUuid, action.handle.value, true, false, false, false, 0, 0, 0)
      ensures manager.activeCall.connectingSubscribers == [ReportConnecting(provider)]
      ensures manager.activeCall.connectedSubscribers == [ReportConnected(provider)]
      ensures manager.activeCall.notifications == []
    {
      var call := new ActiveCall(action.callUuid, action.handle.value, true);
      call.SubscribeStartingConnection(ReportConnecting(provider));
      call.SubscribeConnected(ReportConnected(provider));
      outcome := Fulfilled;
      manager.PlaceCall(call);
    }

    /** `PerformAnswerCallAction`: fails on an empty slot, otherwise fulfills; neither the
        slot nor the call changes (the call's `AnswerCall` is not invoked). */
    method PerformAnswerCallAction(action: CallAction) returns (outcome: Outcome)
      requires action.AnswerCallAction?
      ensures outcome == if manager.activeCall == null then Failed else Fulfilled
    {
      var call := manager.GetActiveCall();
      if call == null {
        return Failed;
      }
      outcome := Fulfilled;
    }

    /** `PerformEndCallAction`: fails on an empty slot and changes nothing; otherwise ends
        the call (raising ConnectedChanged), empties the slot and fulfills. */
    method PerformEndCallAction(action: CallAction, now: Millisecond) returns (outcome: Outcome)
      requires action.EndCallAction?
      modifies manager`activeCall, manager.ConnectedFrame()
      ensures manager.activeCall == null
      ensures outcome == if old(manager.activeCall) == null then Failed else Fulfilled
      ensures var call := old(manager.activeCall);
              call != null ==>
                && call.View() == old(call.View()).(isConnected := false, endedOn := now)
                && call.connectingSubscribers == old(call.connectingSubscribers)
                && call.connectedSubscribers == old(call.connectedSubscribers)
                && call.notifications == old(call.notifications) + [Raised(ConnectedChanged, call.connectedSubscribers, call.View())]
                && Delivered(call.connectedSubscribers, call.View())
    {
      var call := manager.GetActiveCall();
      if call == null {
        return Failed;
      }
      call.EndCall(now);
      manager.PlaceCall(null);
      outcome := Fulfilled;
    }

    /** `PerformSetHeldCallAction`: fails on an empty slot and changes nothing; otherwise
        copies the action's hold flag into the call and fulfills. */
    method PerformSetHeldCallAction(action: CallAction) returns (outcome: Outcome)
      requires action.SetHeldCallAction?
      modifies manager.activeCall
      ensures manager.activeCall == old(manager.activeCall)
      ensures outcome == if manager.activeCall == null then Failed else Fulfilled
      ensures manager.activeCall != null ==>
                && manager.activeCall.View() == old(manager.activeCall.View()).(isOnHold := action.onHold)
                && manager.activeCall.connectingSubscribers == old(manager.activeCall.connectingSubscribers)
                && manager.activeCall.connectedSubscribers == old(manager.activeCall.connectedSubscribers)
                && manager.activeCall.notifications == old(manager.activeCall.notifications)
    {
      var call := manager.GetActiveCall();
      if call == null {
        return Failed;
      }
      call.SetOnHold(action.onHold);
      outcome := Fulfilled;
    }

    /** `TimedOutPerformingAction`: nothing happens; no compensating change. */
    method TimedOutPerformingAction(action: CallAction)
      ensures manager.activeCall == old(manager.activeCall) && manager.outbox == old(manager.outbox)
      ensures provider.reports == old(provider.reports)
    {
    }

    /** `DidActivateAudioSession`: the active call, if any, becomes connected (its
        `StartCall`); with an empty slot nothing happens. */
    method DidActivateAudioSession(now: Millisecond)
      modifies manager.ConnectedFrame()
      ensures manager.activeCall == old(manager.activeCall)
      ensures var call := manager.activeCall;
              call != null ==>
                && call.View() == old(call.View()).(isConnected := true, connectedOn := now)
                && call.connectingSubscribers == old(call.connectingSubscribers)
                && call.connectedSubscribers == old(call.connectedSubscribers)
                && call.notifications == old(call.notifications) + [Raised(ConnectedChanged, call.connectedSubscribers, call.View())]
                && Delivered(call.connectedSubscribers, call.View())
    {
      var call := manager.GetActiveCall();
      if call != null {
        call.StartCall(now);
      }
    }

    /** `DidDeactivateAudioSession`: the slot is emptied, whatever it held. */
    method DidDeactivateAudioSession()
      modifies manager`activeCall
      ensures manager.activeCall == null
    {
      manager.PlaceCall(null);
    }

    /** `ReportIncomingCall(call)`: reports the call to the OS with a generic handle; when
        the OS completion comes back without an error the call is placed in the slot,
        otherwise the slot stays as it was. The call object itself is not changed. */
    method ReportIncomingCall(call: ActiveCall, completionError: bool)
      modifies provider, manager`activeCall
      ensures provider.reports == old(provider.reports) + [NewIncomingCall(call.uuid, CallHandle(Generic, call.handle))]
      ensures manager.activeCall == if completionError then old(manager.activeCall) else call
    {
      provider.ReportNewIncomingCall(call.uuid, CallHandle(Generic, call.handle));
      if !completionError {
        manager.PlaceCall(call);
      }
    }
  }
}
