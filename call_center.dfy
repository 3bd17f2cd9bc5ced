/** The facade the rest of the application uses for calls: reporting an incoming call and
    hanging up. */
module Center {
  import opened CallKit
  import opened Calls
  import opened Manager
  import opened Bridge

  class CallCenter {
    const manager: CallManager
    const bridge: ProviderDelegate

    /** The call center and its provider delegate work on the same call manager, as the
        app delegate wires them. */
    predicate Shared()
    {
      bridge.manager == manager
    }

    /** `new CallCenter(providerDelegate, callManager)`. */
    constructor (bridge: ProviderDelegate, manager: CallManager)
      ensures this.bridge == bridge && this.manager == manager
      ensures Shared() <==> bridge.manager == manager
    {
      this.manager := manager;
      this.bridge := bridge;
    }

    /** `ReportIncomingCall(call)`: hands the same call object, unchanged, to the provider
        delegate. */
    method ReportIncomingCall(call: ActiveCall, completionError: bool)
      modifies bridge.provider, bridge.manager`activeCall
      ensures bridge.provider.reports
              == old(bridge.provider.reports) + [NewIncomingCall(call.uuid, CallHandle(Generic, call.handle))]
      ensures bridge.manager.activeCall == if completionError then old(bridge.manager.activeCall) else call
      ensures Shared() ==> manager.activeCall == if completionError then old(manager.activeCall) else call
    {
      bridge.ReportIncomingCall(call, completionError);
    }

    /** `EndCall`: with an empty slot the manager's "No active calls" ends it before the
        clear and nothing is submitted; otherwise one end action for the call's UUID is
        submitted and the slot is then emptied. The call's flags are never touched here. */
    method EndCall() returns (status: Status)
      modifies manager
      ensures manager.activeCall == null
      ensures old(manager.activeCall) == null ==> status == NoActiveCalls && manager.outbox == old(manager.outbox)
      ensures old(manager.activeCall) != null ==>
                status == Ok && manager.outbox == old(manager.outbox) + [EndCallAction(old(manager.activeCall).uuid)]
      ensures var call := old(manager.activeCall);
              call != null ==> call.View() == old(call.View()) && call.notifications == old(call.notifications)
    {
      status := manager.EndCall();
      if status == NoActiveCalls {
        return;
      }
      manager.PlaceCall(null);
    }
  }
}
