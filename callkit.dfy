/** The operating system's call integration (CallKit) as the rest of the model sees it:
    the call actions that travel between the app and the OS, the answer a perform-action
    handler gives, and the provider object that records what the app reports to the
    native call UI. */
module CallKit {

  /** CXHandleType: the kind of value a call handle carries. The core only ever builds
      generic handles. */
  datatype HandleType = Generic

  /** CXHandle: the counterparty of a call. */
  datatype CallHandle = CallHandle(kind: HandleType, value: string)

  /** The call actions (CXStartCallAction, CXAnswerCallAction, CXEndCallAction,
      CXSetHeldCallAction). The same values leave the app inside a transaction and come
      back to it in a perform-action callback. UUIDs are kept as their string form. */
  datatype CallAction =
    | StartCallAction(callUuid: string, handle: CallHandle)
    | AnswerCallAction(callUuid: string)
    | EndCallAction(callUuid: string)
    | SetHeldCallAction(callUuid: string, onHold: bool)

  /** How a perform-action handler answers the OS: `action.Fulfill()` or `action.Fail()`. */
  datatype Outcome = Fulfilled | Failed

  /** What the app tells the native call UI through the provider. */
  datatype UiReport =
    | ConnectingOutgoing(callUuid: string, at: int)
    | ConnectedOutgoing(callUuid: string, at: int)
    | NewIncomingCall(callUuid: string, remoteHandle: CallHandle)

  /** CXProvider: the OS side keeps, in order, every report the app made. */
  class CallKitProvider {
    var reports: seq<UiReport>

    constructor ()
      ensures reports == []
    {
      reports := [];
    }

    /** ReportConnectingOutgoingCall(uuid, date). */
    method ReportConnectingOutgoingCall(callUuid: string, at: int)
      modifies this
      ensures reports == old(reports) + [ConnectingOutgoing(callUuid, at)]
    {
      reports := reports + [ConnectingOutgoing(callUuid, at)];
    }

    /** ReportConnectedOutgoingCall(uuid, date). */
    method ReportConnectedOutgoingCall(callUuid: string, at: int)
      modifies this
      ensures reports == old(reports) + [ConnectedOutgoing(callUuid, at)]
    {
      reports := reports + [ConnectedOutgoing(callUuid, at)];
    }

    /** ReportNewIncomingCall(uuid, update, completion): the report itself; the
        completion's result is handled by the caller. */
    method ReportNewIncomingCall(callUuid: string, remoteHandle: CallHandle)
      modifies this
      ensures reports == old(reports) + [NewIncomingCall(callUuid, remoteHandle)]
    {
      reports := reports + [NewIncomingCall(callUuid, remoteHandle)];
    }
  }
}
