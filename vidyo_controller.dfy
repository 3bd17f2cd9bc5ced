/** The media connector's state machine as the controller keeps it: the observable
    connector state, the wrap-up callback, the wrap-ups queued for the main thread, the
    once-only engine initialisation and the camera privacy remembered across app sleep.
    Calls into the media engine and invocations of the wrap-up callback are recorded, in
    order, as effects. */
module Media {

  datatype Option<T> = None | Some(value: T)

  /** The controller's observable state (VidyoConnectorState). */
  datatype ConnectorState = Idle | Connected | ConnectionFailure | Disconnected | DisconnectedUnexpected

  /** The engine's own state as `GetState()` reports it, grouped as `WrapCall` reads it. */
  datatype EngineState = EngineIdle | EngineReady | EngineConnected | EngineBusy

  /** The engine's reason for a disconnect: the expected one, or any other code. */
  datatype DisconnectReason = ReasonDisconnected | ReasonOther(code: int)

  /** The engine's reason for a failed connection (only logged). */
  datatype FailReason = FailReason(code: int)

  datatype ConnectorMode = Foreground | Background

  /** What the controller does to the outside: engine calls and wrap-up invocations. */
  datatype Effect =
    | EngineInitialize
    | EngineCreateConnector
    | EngineConnect(portal: string, displayName: string, roomKey: string, pin: string)
    | EngineDisconnect
    | EngineSetCameraPrivacy(privacy: bool)
    | EngineSetMode(mode: ConnectorMode)
    | WrapUpInvoked

  /** The state `OnDisconnected` moves to for a reason: Disconnected for the expected
      reason and DisconnectedUnexpected for every other. */
  function StateAfterDisconnect(reason: DisconnectReason): (s: ConnectorState)
    ensures s == Disconnected <==> reason == ReasonDisconnected
    ensures s == DisconnectedUnexpected <==> reason != ReasonDisconnected
  {
    match reason
    case ReasonDisconnected => Disconnected
    case ReasonOther(_) => DisconnectedUnexpected
  }

  function PrivacySetting(e: Effect): Option<bool>
  {
    if e.EngineSetCameraPrivacy? then Some(e.privacy) else None
  }

  function ModeSetting(e: Effect): Option<ConnectorMode>
  {
    if e.EngineSetMode? then Some(e.mode) else None
  }

  /** The value the engine was last given for one setting, if any: the engine's current
      camera privacy is `Last(effects, PrivacySetting)`, its mode `Last(effects, ModeSetting)`. */
  function Last<T>(log: seq<Effect>, setting: Effect -> Option<T>): Option<T>
  {
    if log == [] then None
    else if setting(log[|log| - 1]).Some? then setting(log[|log| - 1])
    else Last(log[..|log| - 1], setting)
  }

  /** Later engine calls win: appending effects changes a setting exactly when the
      appended part sets it. */
  lemma {:induction false} LastAppend<T>(log: seq<Effect>, tail: seq<Effect>, setting: Effect -> Option<T>)
    ensures Last(log + tail, setting) == if Last(tail, setting).Some? then Last(tail, setting) else Last(log, setting)
  {
    if tail == [] {
      assert log + tail == log;
    } else {
      assert (log + tail)[..|log + tail| - 1] == log + tail[..|tail| - 1];
      LastAppend(log, tail[..|tail| - 1], setting);
    }
  }

  /** What `OnAppSleep` asks of a present connector. */
  const SleepEffects: seq<Effect> := [EngineSetCameraPrivacy(true), EngineSetMode(Background)]

  /** What `OnAppResume` asks of a present connector, given the remembered privacy. */
  function ResumeEffects(remembered: bool): seq<Effect>
  {
    [EngineSetMode(Foreground), EngineSetCameraPrivacy(remembered)]
  }

  /** Whatever happened before, sleep leaves the camera private and the engine in
      background mode, and a following resume restores the remembered privacy and
      foreground mode. */
  lemma {:induction false} SleepResumeRestoresPrivacy(log: seq<Effect>, remembered: bool)
    ensures Last(log + SleepEffects, PrivacySetting) == Some(true)
    ensures Last(log + SleepEffects, ModeSetting) == Some(Background)
    ensures Last(log + SleepEffects + ResumeEffects(remembered), PrivacySetting) == Some(remembered)
    ensures Last(log + SleepEffects + ResumeEffects(remembered), ModeSetting) == Some(Foreground)
  {
    LastAppend(log, SleepEffects, PrivacySetting);
    LastAppend(log, SleepEffects, ModeSetting);
    LastAppend(log + SleepEffects, ResumeEffects(remembered), PrivacySetting);
    LastAppend(log + SleepEffects, ResumeEffects(remembered), ModeSetting);
  }

  class VidyoController {
    /** `mState`, exposed as the `ConnectorState` property. */
    var state: ConnectorState
    /** The property names of every PropertyChanged event raised, in order. */
    var propertyChanges: seq<string>
    /** Whether `mWrapCallAction` is non-null. */
    var hasWrapCallback: bool
    /** Wrap-up closures posted with `BeginInvokeOnMainThread` and not yet run. */
    var pendingWrapUps: nat
    /** `mIsVidyoClientInitialized`. */
    var initialized: bool
    /** `mCameraPrivacyState`: the privacy last asked for by the app. */
    var cameraPrivacy: bool
    /** Whether `mConnector` is non-null. */
    var hasConnector: bool
    var effects: seq<Effect>

    /** The shared instance as the private constructor leaves it. */
    constructor ()
      ensures state == Idle && propertyChanges == [] && !hasWrapCallback && pendingWrapUps == 0
      ensures !initialized && !cameraPrivacy && !hasConnector && effects == []
    {
      state := Idle;
      propertyChanges := [];
      hasWrapCallback := false;
      pendingWrapUps := 0;
      initialized := false;
      cameraPrivacy := false;
      hasConnector := false;
      effects := [];
    }

    /** The `ConnectorState` setter: the whole value is replaced and one PropertyChanged
        named "ConnectorState" is raised. */
    method SetConnectorState(value: ConnectorState)
      modifies this`state, this`propertyChanges
      ensures state == value
      ensures propertyChanges == old(propertyChanges) + ["ConnectorState"]
    {
      state := value;
      propertyChanges := propertyChanges + ["ConnectorState"];
    }

    /** `Initialize`: once it has succeeded it answers true without touching the engine;
        before that it asks the engine (whose answer is `engineResult`) and remembers the
        answer. */
    method Initialize(engineResult: bool) returns (ok: bool)
      modifies this`initialized, this`effects
      ensures old(initialized) ==> ok && initialized && effects == old(effects)
      ensures !old(initialized) ==>
                ok == engineResult && initialized == engineResult && effects == old(effects) + [EngineInitialize]
    {
      if initialized {
        return true;
      }
      effects := effects + [EngineInitialize];
      initialized := engineResult;
      ok := initialized;
    }

    /** `Construct`: fails ("Client initialization error.") when initialisation fails,
        leaving the callback and the connector as they were; otherwise stores the wrap-up
        callback and creates the connector. */
    method Construct(wrapCallback: bool, engineInitResult: bool) returns (ok: bool)
      modifies this`initialized, this`effects, this`hasWrapCallback, this`hasConnector
      ensures ok == (old(initialized) || engineInitResult)
      ensures initialized == ok
      ensures !ok ==> hasWrapCallback == old(hasWrapCallback) && hasConnector == old(hasConnector)
                      && effects == old(effects) + [EngineInitialize]
      ensures ok ==> hasWrapCallback == wrapCallback && hasConnector
                     && effects == old(effects) + (if old(initialized) then [] else [EngineInitialize]) + [EngineCreateConnector]
    {
      ok := Initialize(engineInitResult);
      if !ok {
        return;
      }
      hasWrapCallback := wrapCallback;
      effects := effects + [EngineCreateConnector];
      hasConnector := true;
    }

    /** `OnAppSleep`: a present connector is made private and put in background mode; the
        remembered privacy is kept. Nothing happens without a connector. */
    method OnAppSleep()
      modifies this`effects
      ensures effects == old(effects) + (if hasConnector then SleepEffects else [])
    {
      if hasConnector {
        effects := effects + SleepEffects;
      }
    }

    /** `OnAppResume`: a present connector is put in foreground mode and given back the
        remembered privacy. Nothing happens without a connector. */
    method OnAppResume()
      modifies this`effects
      ensures effects == old(effects) + (if hasConnector then ResumeEffects(cameraPrivacy) else [])
    {
      if hasConnector {
        effects := effects + [EngineSetMode(Foreground)];
        effects := effects + [EngineSetCameraPrivacy(cameraPrivacy)];
      }
    }

    /** `Connect`: the engine is asked to join the room; its answer is `engineAccepted`. */
    method Connect(portal: string, roomKey: string, displayName: string, pin: string, engineAccepted: bool)
      returns (ok: bool)
      requires hasConnector
      modifies this`effects
      ensures ok == engineAccepted
      ensures effects == old(effects) + [EngineConnect(portal, displayName, roomKey, pin)]
    {
      effects := effects + [EngineConnect(portal, displayName, roomKey, pin)];
      ok := engineAccepted;
    }

    /** `Disconnect`. */
    method Disconnect()
      requires hasConnector
      modifies this`effects
      ensures effects == old(effects) + [EngineDisconnect]
    {
      effects := effects + [EngineDisconnect];
    }

    /** `WrapCall`: a connected engine is asked to disconnect (the callback is not
        invoked); an idle or ready engine leads to the callback when one is registered;
        in any other engine state nothing happens. */
    method WrapCall(engine: EngineState)
      requires hasConnector
      modifies this`effects
      ensures engine == EngineConnected ==> effects == old(effects) + [EngineDisconnect]
      ensures engine == EngineIdle || engine == EngineReady ==>
                effects == old(effects) + (if hasWrapCallback then [WrapUpInvoked] else [])
      ensures engine == EngineBusy ==> effects == old(effects)
    {
      if engine == EngineConnected {
        Disconnect();
      } else if engine == EngineIdle || engine == EngineReady {
        if hasWrapCallback {
          effects := effects + [WrapUpInvoked];
        }
      }
    }

    /** `SetCameraPrivacy`: remembers the value and passes it to the engine. */
    method SetCameraPrivacy(privacy: bool)
      requires hasConnector
      modifies this`cameraPrivacy, this`effects
      ensures cameraPrivacy == privacy
      ensures effects == old(effects) + [EngineSetCameraPrivacy(privacy)]
    {
      cameraPrivacy := privacy;
      effects := effects + [EngineSetCameraPrivacy(privacy)];
    }

    /** `OnSuccess`: the state becomes Connected; no wrap-up is scheduled. */
    method OnSuccess()
      modifies this`state, this`propertyChanges
      ensures state == Connected
      ensures propertyChanges == old(propertyChanges) + ["ConnectorState"]
    {
      SetConnectorState(Connected);
    }

    /** `OnFailure`: the state becomes ConnectionFailure and exactly one wrap-up is posted
        to the main thread. */
    method OnFailure(reason: FailReason)
      modifies this`state, this`propertyChanges, this`pendingWrapUps
      ensures state == ConnectionFailure
      ensures propertyChanges == old(propertyChanges) + ["ConnectorState"]
      ensures pendingWrapUps == old(pendingWrapUps) + 1
    {
      SetConnectorState(ConnectionFailure);
      pendingWrapUps := pendingWrapUps + 1;
    }

    /** `OnDisconnected`: the state follows the reason and exactly one wrap-up is posted to
        the main thread. */
    method OnDisconnected(reason: DisconnectReason)
      modifies this`state, this`propertyChanges, this`pendingWrapUps
      ensures state == StateAfterDisconnect(reason)
      ensures propertyChanges == old(propertyChanges) + ["ConnectorState"]
      ensures pendingWrapUps == old(pendingWrapUps) + 1
    {
      match reason {
        case ReasonDisconnected => SetConnectorState(Disconnected);
        case ReasonOther(_) => SetConnectorState(DisconnectedUnexpected);
      }
      pendingWrapUps := pendingWrapUps + 1;
    }

    /** The main thread runs one posted wrap-up closure: it invokes the callback only if
        one is registered at that moment. */
    method RunPendingWrapUp()
      requires pendingWrapUps > 0
      modifies this`pendingWrapUps, this`effects
      ensures pendingWrapUps == old(pendingWrapUps) - 1
      ensures effects == old(effects) + (if hasWrapCallback then [WrapUpInvoked] else [])
    {
      pendingWrapUps := pendingWrapUps - 1;
      if hasWrapCallback {
        effects := effects + [WrapUpInvoked];
      }
    }
  }
}
