/** The outbound half of the call integration: the single active-call slot and the
    transactions (start, end, set-held) submitted to the OS call controller. The call
    controller is modelled as the outbox of submitted actions. */
module Manager {
  import opened CallKit
  import opened Calls

  /** How a request method ends: normally, or with the "No active calls" exception. */
  datatype Status = Ok | NoActiveCalls

  class CallManager {
    /** The `ActiveCall` property: the slot, possibly empty. */
    var activeCall: ActiveCall?
    /** Every action whose transaction was handed to the OS call controller, in order. */
    var outbox: seq<CallAction>

    constructor ()
      ensures activeCall == null && outbox == []
    {
      activeCall := null;
      outbox := [];
    }

    /** The slot's call with the providers its ConnectedChanged subscribers report to:
        what setting that call's connected flag may change. */
    function ConnectedFrame(): set<object>
      reads this, activeCall
    {
      if activeCall == null then {} else {activeCall} + SinksOf(activeCall.connectedSubscribers)
    }

    /** `SendTransactionRequest`: the transaction goes to the OS. Its completion only logs
        a line (see `TransactionCompleted`). */
    method SendTransactionRequest(action: CallAction)
      modifies this`outbox
      ensures outbox == old(outbox) + [action]
    {
      outbox := outbox + [action];
    }

    /** The completion of a transaction request, with or without an error: it writes a
        console line and nothing else, so neither the slot, the outbox nor any call changes. */
    method TransactionCompleted(error: bool)
      ensures activeCall == old(activeCall) && outbox == old(outbox)
      ensures activeCall != null ==> activeCall.View() == old(activeCall.View())
    {
    }

    /** `GetActiveCall`: exactly what the slot holds. */
    method GetActiveCall() returns (call: ActiveCall?)
      ensures call == activeCall
    {
      call := activeCall;
    }

    /** `StartCall(contact)`: one start action with a fresh UUID and a generic handle whose
        value is the contact; the slot is not touched. */
    method StartCall(contact: string, freshUuid: string)
      modifies this`outbox
      ensures outbox == old(outbox) + [StartCallAction(freshUuid, CallHandle(Generic, contact))]
    {
      var handle := CallHandle(Generic, contact);
      SendTransactionRequest(StartCallAction(freshUuid, handle));
    }

    /** `PlaceCall(call)`: the slot is replaced by the argument, null included. */
    method PlaceCall(call: ActiveCall?)
      modifies this`activeCall
      ensures activeCall == call
    {
      activeCall := call;
    }

    /** `EndCall`: with an empty slot, "No active calls" and nothing submitted; otherwise
        one end action for the active call's UUID. The slot and the call are not touched. */
    method EndCall() returns (status: Status)
      modifies this`outbox
      ensures activeCall == null ==> status == NoActiveCalls && outbox == old(outbox)
      ensures activeCall != null ==> status == Ok && outbox == old(outbox) + [EndCallAction(activeCall.uuid)]
    {
      if activeCall == null {
        return NoActiveCalls;
      }
      SendTransactionRequest(EndCallAction(activeCall.uuid));
      status := Ok;
    }

    /** `PlaceCallOnHold`: as `EndCall`, with a set-held action whose flag is true. */
    method PlaceCallOnHold() returns (status: Status)
      modifies this`outbox
      ensures activeCall == null ==> status == NoActiveCalls && outbox == old(outbox)
      ensures activeCall != null ==> status == Ok && outbox == old(outbox) + [SetHeldCallAction(activeCall.uuid, true)]
    {
      if activeCall == null {
        return NoActiveCalls;
      }
      SendTransactionRequest(SetHeldCallAction(activeCall.uuid, true));
      status := Ok;
    }

    /** `RemoveCallFromOnHold`: as `EndCall`, with a set-held action whose flag is false. */
    method RemoveCallFromOnHold() returns (status: Status)
      modifies this`outbox
      ensures activeCall == null ==> status == NoActiveCalls && outbox == old(outbox)
      ensures activeCall != null ==> status == Ok && outbox == old(outbox) + [SetHeldCallAction(activeCall.uuid, false)]
    {
      if activeCall == null {
        return NoActiveCalls;
      }
      SendTransactionRequest(SetHeldCallAction(activeCall.uuid, false));
      status := Ok;
    }
  }
}
