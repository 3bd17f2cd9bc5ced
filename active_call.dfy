/** One call record: its fixed identity, its connecting / connected / on-hold flags, the
    timestamps the flag setters stamp, and the two change events the setters raise
    synchronously to their subscribers. */
module Calls {
  import opened CallKit

  /** A `DateTime.Now.Millisecond` value: the only values the setters ever stamp. */
  type Millisecond = x: int | 0 <= x < 1000

  /** The two events of a call. */
  datatype CallEvent = StartingConnectionChanged | ConnectedChanged

  /** The kinds of subscriber a call can have. The first two are the handlers that the
      provider delegate attaches to an outgoing call; the third stands for the home page's
      observer, whose navigation is outside this model. */
  datatype Handler =
    | ReportConnecting(provider: CallKitProvider)
    | ReportConnected(provider: CallKitProvider)
    | PageObserver

  /** Everything about a call except its subscribers, as a value. */
  datatype CallView = CallView(
    uuid: string, handle: string, isOutgoing: bool,
    isConnecting: bool, isConnected: bool, isOnHold: bool,
    startedConnectingOn: Millisecond, connectedOn: Millisecond, endedOn: Millisecond)

  /** One raised event: which event, the subscribers it went to (in order), and the call
      as those subscribers saw it. */
  datatype Notification = Raised(event: CallEvent, receivers: seq<Handler>, observed: CallView)

  /** The providers a handler can report to. */
  function SinkOf(h: Handler): set<CallKitProvider>
  {
    if h.PageObserver? then {} else {h.provider}
  }

  /** The providers a subscriber list can report to. */
  function SinksOf(hs: seq<Handler>): set<CallKitProvider>
  {
    if hs == [] then {} else SinksOf(hs[..|hs| - 1]) + SinkOf(hs[|hs| - 1])
  }

  /** What handler `h`, run on a call that looks like `v`, reports to provider `p`: a
      connecting reporter reports only while the call is connecting, a connected reporter
      only while it is connected, each with the matching timestamp. */
  function ReportOf(p: CallKitProvider, h: Handler, v: CallView): seq<UiReport>
  {
    match h
    case ReportConnecting(q) =>
      if q == p && v.isConnecting then [ConnectingOutgoing(v.uuid, v.startedConnectingOn)] else []
    case ReportConnected(q) =>
      if q == p && v.isConnected then [ConnectedOutgoing(v.uuid, v.connectedOn)] else []
    case PageObserver => []
  }

  /** What provider `p` receives when an event is delivered, in subscription order, to `hs`. */
  function ReportsTo(p: CallKitProvider, hs: seq<Handler>, v: CallView): seq<UiReport>
  {
    if hs == [] then [] else ReportsTo(p, hs[..|hs| - 1], v) + ReportOf(p, hs[|hs| - 1], v)
  }

  /** A report is truthful about `v` when it describes the call's current flag and stamp. */
  predicate Truthful(r: UiReport, v: CallView)
  {
    || (r == ConnectingOutgoing(v.uuid, v.startedConnectingOn) && v.isConnecting)
    || (r == ConnectedOutgoing(v.uuid, v.connectedOn) && v.isConnected)
  }

  /** Delivering to `hs` appended exactly `ReportsTo(p, hs, v)` to every provider it can reach. */
  twostate predicate Delivered(hs: seq<Handler>, v: CallView)
    reads SinksOf(hs)
  {
    forall p :: p in SinksOf(hs) && old(allocated(p)) ==> p.reports == old(p.reports) + ReportsTo(p, hs, v)
  }

  lemma {:induction false} SinkInSinksOf(hs: seq<Handler>, i: nat)
    requires i < |hs|
    ensures SinkOf(hs[i]) <= SinksOf(hs)
  {
    if i < |hs| - 1 {
      SinkInSinksOf(hs[..|hs| - 1], i);
    }
  }

  /** A one-subscriber list, such as each list the provider delegate attaches, reaches
      that subscriber's provider and reports what that subscriber reports. */
  lemma SingleSubscriber(p: CallKitProvider, h: Handler, v: CallView)
    ensures SinksOf([h]) == SinkOf(h)
    ensures ReportsTo(p, [h], v) == ReportOf(p, h, v)
  {
    assert [h][..0] == [];
  }

  /** The two lists the provider delegate attaches to an outgoing call, the connecting
      reporter on StartingConnectionChanged and the connected reporter on ConnectedChanged,
      reach only that provider. A raise on the first reports exactly one "connecting" report,
      stamped `StartedConnectingOn`, when the call is connecting and nothing when it is not;
      a raise on the second reports exactly one "connected" report, stamped `ConnectedOn`,
      when the call is connected and nothing when it is not. */
  lemma StartActionReporters(p: CallKitProvider, v: CallView)
    ensures SinksOf([ReportConnecting(p)]) == {p} && SinksOf([ReportConnected(p)]) == {p}
    ensures ReportsTo(p, [ReportConnecting(p)], v)
            == if v.isConnecting then [ConnectingOutgoing(v.uuid, v.startedConnectingOn)] else []
    ensures ReportsTo(p, [ReportConnected(p)], v)
            == if v.isConnected then [ConnectedOutgoing(v.uuid, v.connectedOn)] else []
  {
    SingleSubscriber(p, ReportConnecting(p), v);
    SingleSubscriber(p, ReportConnected(p), v);
  }

  /** A provider that no subscriber names hears nothing. */
  lemma {:induction false} ReportsOnlyToSinks(p: CallKitProvider, hs: seq<Handler>, v: CallView)
    requires p !in SinksOf(hs)
    ensures ReportsTo(p, hs, v) == []
  {
    if hs != [] {
      ReportsOnlyToSinks(p, hs[..|hs| - 1], v);
    }
  }

  /** Whatever the subscriber list, every report reaching the OS describes the call as it
      is at delivery time: no "connecting" report unless the call is connecting, no
      "connected" report unless it is connected. */
  lemma {:induction false} ReportsAreTruthful(p: CallKitProvider, hs: seq<Handler>, v: CallView)
    ensures forall r | r in ReportsTo(p, hs, v) :: Truthful(r, v)
  {
    if hs != [] {
      ReportsAreTruthful(p, hs[..|hs| - 1], v);
    }
  }

  /** Each subscriber contributes at most one report per delivery. */
  lemma {:induction false} AtMostOneReportPerSubscriber(p: CallKitProvider, hs: seq<Handler>, v: CallView)
    ensures |ReportsTo(p, hs, v)| <= |hs|
  {
    if hs != [] {
      AtMostOneReportPerSubscriber(p, hs[..|hs| - 1], v);
    }
  }

  /** Delivering to one more subscriber appends that subscriber's report. */
  lemma ReportsToStep(p: CallKitProvider, hs: seq<Handler>, i: nat, v: CallView)
    requires i < |hs|
    ensures ReportsTo(p, hs[..i + 1], v) == ReportsTo(p, hs[..i], v) + ReportOf(p, hs[i], v)
  {
    assert hs[..i + 1][..i] == hs[..i];
  }

  /** One subscriber run on a call that looks like `v`: the connecting reporter reports
      "connecting" only while the call is connecting, the connected reporter reports
      "connected" only while it is connected, the page observer reports nothing. */
  method Deliver(h: Handler, v: CallView)
    modifies SinkOf(h)
    ensures forall p :: p in SinkOf(h) ==> p.reports == old(p.reports) + ReportOf(p, h, v)
  {
    match h {
      case ReportConnecting(q) =>
        if v.isConnecting {
          q.ReportConnectingOutgoingCall(v.uuid, v.startedConnectingOn);
        }
      case ReportConnected(q) =>
        if v.isConnected {
          q.ReportConnectedOutgoingCall(v.uuid, v.connectedOn);
        }
      case PageObserver =>
    }
  }

  /** The multicast delegate invocation `Event(this)`: every subscriber, in subscription
      order, runs on the same view of the call. */
  method DeliverAll(hs: seq<Handler>, v: CallView)
    modifies SinksOf(hs)
    ensures Delivered(hs, v)
  {
    var i := 0;
    while i < |hs|
      invariant 0 <= i <= |hs|
      invariant forall p {:trigger p.reports} :: p in SinksOf(hs) && old(allocated(p)) ==> p.reports == old(p.reports) + ReportsTo(p, hs[..i], v)
    {
      SinkInSinksOf(hs, i);
      label BeforeStep:
      Deliver(hs[i], v);
      forall p | p in SinksOf(hs) && old(allocated(p))
        ensures p.reports == old(p.reports) + ReportsTo(p, hs[..i + 1], v)
      {
        assert old@BeforeStep(p.reports) == old(p.reports) + ReportsTo(p, hs[..i], v);
        assert p.reports == old@BeforeStep(p.reports) + ReportOf(p, hs[i], v);
        ReportsToStep(p, hs, i, v);
      }
      i := i + 1;
    }
    assert hs[..|hs|] == hs;
  }

  class ActiveCall {
    const uuid: string
    const handle: string
    const isOutgoing: bool

    var isConnecting: bool
    var isConnected: bool
    var isOnHold: bool
    var startedConnectingOn: Millisecond
    var connectedOn: Millisecond
    var endedOn: Millisecond

    /** Subscribers of StartingConnectionChanged and of ConnectedChanged, in order. */
    var connectingSubscribers: seq<Handler>
    var connectedSubscribers: seq<Handler>

    /** Every event this call raised, including those raised with no subscriber. */
    ghost var notifications: seq<Notification>

    function View(): CallView
      reads this
    {
      CallView(uuid, handle, isOutgoing, isConnecting, isConnected, isOnHold,
               startedConnectingOn, connectedOn, endedOn)
    }

    /** `new ActiveCall(uuid, handle, outgoing)`: the identity as given, every flag false,
        the timestamps at their default, no subscriber. */
    constructor (uuid: string, handle: string, outgoing: bool)
      ensures View() == CallView(uuid, handle, outgoing, false, false, false, 0, 0, 0)
      ensures connectingSubscribers == [] && connectedSubscribers == []
      ensures notifications == []
    {
      this.uuid := uuid;
      this.handle := handle;
      this.isOutgoing := outgoing;
      isConnecting, isConnected, isOnHold := false, false, false;
      startedConnectingOn, connectedOn, endedOn := 0, 0, 0;
      connectingSubscribers, connectedSubscribers := [], [];
      notifications := [];
    }

    /** `StartingConnectionChanged += h`. */
    method SubscribeStartingConnection(h: Handler)
      modifies this`connectingSubscribers
      ensures connectingSubscribers == old(connectingSubscribers) + [h]
    {
      connectingSubscribers := connectingSubscribers + [h];
    }

    /** `ConnectedChanged += h`. */
    method SubscribeConnected(h: Handler)
      modifies this`connectedSubscribers
      ensures connectedSubscribers == old(connectedSubscribers) + [h]
    {
      connectedSubscribers := connectedSubscribers + [h];
    }

    method RaiseStartingConnectionChanged()
      modifies this`notifications, SinksOf(connectingSubscribers)
      ensures notifications == old(notifications) + [Raised(StartingConnectionChanged, connectingSubscribers, View())]
      ensures Delivered(connectingSubscribers, View())
    {
      notifications := notifications + [Raised(StartingConnectionChanged, connectingSubscribers, View())];
      DeliverAll(connectingSubscribers, View());
    }

    method RaiseConnectedChanged()
      modifies this`notifications, SinksOf(connectedSubscribers)
      ensures notifications == old(notifications) + [Raised(ConnectedChanged, connectedSubscribers, View())]
      ensures Delivered(connectedSubscribers, View())
    {
      notifications := notifications + [Raised(ConnectedChanged, connectedSubscribers, View())];
      DeliverAll(connectedSubscribers, View());
    }

    /** The `IsConnecting` setter: store the value, stamp `StartedConnectingOn` only when
        it is true, then raise StartingConnectionChanged once, whether or not the value
        changed, to subscribers that see the updated call. */
    method SetConnecting(value: bool, now: Millisecond)
      modifies this`isConnecting, this`startedConnectingOn, this`notifications, SinksOf(connectingSubscribers)
      ensures View() == old(View()).(isConnecting := value,
                                     startedConnectingOn := if value then now else old(startedConnectingOn))
      ensures notifications == old(notifications) + [Raised(StartingConnectionChanged, connectingSubscribers, View())]
      ensures Delivered(connectingSubscribers, View())
    {
      isConnecting := value;
      if isConnecting {
        startedConnectingOn := now;
      }
      RaiseStartingConnectionChanged();
    }

    /** The `IsConnected` setter: store the value, stamp `ConnectedOn` when it is true and
        `EndedOn` when it is false, then raise ConnectedChanged once. */
    method SetConnected(value: bool, now: Millisecond)
      modifies this`isConnected, this`connectedOn, this`endedOn, this`notifications, SinksOf(connectedSubscribers)
      ensures View() == old(View()).(isConnected := value,
                                     connectedOn := if value then now else old(connectedOn),
                                     endedOn := if value then old(endedOn) else now)
      ensures notifications == old(notifications) + [Raised(ConnectedChanged, connectedSubscribers, View())]
      ensures Delivered(connectedSubscribers, View())
    {
      isConnected := value;
      if isConnected {
        connectedOn := now;
      } else {
        endedOn := now;
      }
      RaiseConnectedChanged();
    }

    /** The `IsOnHold` setter: the hold flag only; no stamp, no event. */
    method SetOnHold(value: bool)
      modifies this`isOnHold
      ensures View() == old(View()).(isOnHold := value)
    {
      isOnHold := value;
    }

    /** `StartCall()`: `IsConnected = true`. */
    method StartCall(now: Millisecond)
      modifies this`isConnected, this`connectedOn, this`endedOn, this`notifications, SinksOf(connectedSubscribers)
      ensures View() == old(View()).(isConnected := true, connectedOn := now)
      ensures notifications == old(notifications) + [Raised(ConnectedChanged, connectedSubscribers, View())]
      ensures Delivered(connectedSubscribers, View())
    {
      SetConnected(true, now);
    }

    /** `AnswerCall()`: `IsConnected = true` (plus a debug line). */
    method AnswerCall(now: Millisecond)
      modifies this`isConnected, this`connectedOn, this`endedOn, this`notifications, SinksOf(connectedSubscribers)
      ensures View() == old(View()).(isConnected := true, connectedOn := now)
      ensures notifications == old(notifications) + [Raised(ConnectedChanged, connectedSubscribers, View())]
      ensures Delivered(connectedSubscribers, View())
    {
      SetConnected(true, now);
    }

    /** `EndCall()`: `IsConnected = false` (plus a debug line). */
    method EndCall(now: Millisecond)
      modifies this`isConnected, this`connectedOn, this`endedOn, this`notifications, SinksOf(connectedSubscribers)
      ensures View() == old(View()).(isConnected := false, endedOn := now)
      ensures notifications == old(notifications) + [Raised(ConnectedChanged, connectedSubscribers, View())]
      ensures Delivered(connectedSubscribers, View())
    {
      SetConnected(false, now);
    }
  }
}
