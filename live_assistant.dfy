/** The Live Assistant screen of src/components/LiveAssistant.tsx: its
    connection status, the toggle button, the mapping of the service's
    status reports, the dismiss button of the error overlay and the unmount
    teardown. The visualiser (canvas, volume smoothing) is not modelled. */
module LiveAssistant {
  import GeminiService

  /** The component's `status` state. */
  datatype Status = Idle | Connecting | Connected | Error | PermissionDenied

  /** The string each component status is held as. */
  function StatusName(s: Status): string {
    match s
    case Idle => "idle"
    case Connecting => "connecting"
    case Connected => "connected"
    case Error => "error"
    case PermissionDenied => "permission_denied"
  }

  /** The string each service status is reported as. */
  function ServiceStatusName(s: GeminiService.ServiceStatus): string {
    match s
    case Connected => "connected"
    case Disconnected => "disconnected"
    case Error => "error"
    case PermissionDenied => "permission_denied"
  }

  /** The `onStatusChange` mapping: `disconnected` becomes `idle`, every other
      report is stored under the same name. */
  function MapStatus(s: GeminiService.ServiceStatus): (r: Status)
    ensures s == GeminiService.Disconnected ==> r == Idle
    ensures s != GeminiService.Disconnected ==> StatusName(r) == ServiceStatusName(s)
    ensures r != Connecting
  {
    match s
    case Connected => Connected
    case Disconnected => Idle
    case Error => Error
    case PermissionDenied => PermissionDenied
  }

  /** The status names are distinct, so a mapped status is determined by the
      name it is stored under. */
  lemma MapStatusInjectiveOffDisconnected(a: GeminiService.ServiceStatus, b: GeminiService.ServiceStatus)
    requires a != GeminiService.Disconnected && b != GeminiService.Disconnected
    ensures MapStatus(a) == MapStatus(b) <==> a == b
  {
  }

  /** The error overlay (with its Dismiss button) is shown in these states. */
  predicate ShowsOverlay(s: Status) {
    s == Error || s == PermissionDenied
  }

  /** How the optional key picker of the hosting page answers: no picker,
      a key already selected, a key selected in the picker, still no key
      after the picker, or a picker call that threw. */
  datatype KeyCheck = NoPicker | HasKey | SelectedNow | StillNoKey | PickerThrew

  /** Only a picker that still reports no key stops the connection. */
  predicate KeyBlocks(k: KeyCheck) {
    k == StillNoKey
  }

  class Assistant {
    var status: Status
    var volume: real
    const session: GeminiService.LiveSession

    ghost predicate Valid()
      reads this, session
    {
      session.Valid()
    }

    constructor (s: GeminiService.LiveSession)
      requires s.Valid()
      ensures Valid() && session == s
      ensures status == Idle && volume == 0.0
    {
      session := s;
      status, volume := Idle, 0.0;
    }

    /** `onStatusChange`. */
    method OnStatusChange(s: GeminiService.ServiceStatus)
      modifies this`status
      ensures status == MapStatus(s)
    {
      if s == GeminiService.Disconnected {
        status := Idle;
      } else {
        status := MapStatus(s);
      }
    }

    /** `handleToggleConnection`. While connected or connecting it tears the
        session down and goes idle with zero volume. Otherwise, unless the
        key picker still reports no key, it shows `connecting` and starts the
        session; a report the service makes while connecting is mapped into
        the status. Without an API key the service rejects before any report,
        so the status stays `connecting`. */
    method Toggle(key: KeyCheck, admin: bool, cb: GeminiService.Callbacks, apiKeyPresent: bool,
                  mic: GeminiService.MicOutcome, connectThrows: bool)
      requires Valid()
      modifies this`status, this`volume, session`inputSource, session`processor, session`inputAudioContext,
               session`outputAudioContext, session`liveSession, session`sources, session`stopped, session`released
      modifies session`created, session`isAdmin, session`callbacks, session`declaredTools
      ensures Valid()
      ensures old(status) == Connected || old(status) == Connecting ==>
        && status == Idle && volume == 0.0 && session.TornDown()
        && session.released == old(session.released) + GeminiService.Releases(old(session.inputSource),
             old(session.processor), old(session.inputAudioContext), old(session.outputAudioContext),
             old(session.liveSession))
        && session.stopped == old(session.stopped) + old(session.sources)
        && session.created == old(session.created) && session.isAdmin == old(session.isAdmin)
        && session.callbacks == old(session.callbacks) && session.declaredTools == old(session.declaredTools)
      ensures old(status) != Connected && old(status) != Connecting && KeyBlocks(key) ==>
        status == old(status) && volume == old(volume) && unchanged(session)
      ensures old(status) != Connected && old(status) != Connecting && !KeyBlocks(key) ==>
        && volume == old(volume)
        && session.inputAudioContext.Some? && session.outputAudioContext.Some?
        && session.inputSource == old(session.inputSource) && session.processor == old(session.processor)
        && session.sources == old(session.sources) && session.stopped == old(session.stopped)
        && session.released == old(session.released)
        && (!apiKeyPresent ==> status == Connecting)
        && (apiKeyPresent && mic.Refused? ==> status == MapStatus(GeminiService.MicErrorStatus(mic.errorName)))
        && (apiKeyPresent && mic.Granted? && connectThrows ==> status == Error)
        && (apiKeyPresent && mic.Granted? && !connectThrows ==>
              status == Connecting && session.liveSession.Some? && session.isAdmin == admin
              && session.callbacks == cb && session.declaredTools == GeminiService.ActiveTools(admin))
        && (!(apiKeyPresent && mic.Granted? && !connectThrows) ==>
              session.liveSession == old(session.liveSession) && session.isAdmin == old(session.isAdmin)
              && session.callbacks == old(session.callbacks) && session.declaredTools == old(session.declaredTools))
    {
      if status == Connected || status == Connecting {
        session.Disconnect();
        status := Idle;
        volume := 0.0;
        return;
      }
      if KeyBlocks(key) {
        return;
      }
      status := Connecting;
      var reported := session.Connect(admin, cb, apiKeyPresent, mic, connectThrows);
      if reported.Some? {
        OnStatusChange(reported.value);
      }
    }

    /** The session's `onopen`: the service reports `connected`. */
    method SessionOpened()
      requires Valid()
      modifies this`status, session`inputSource, session`processor, session`created
      ensures Valid()
      ensures status == Connected
    {
      var reported := session.OnOpen();
      OnStatusChange(reported);
    }

    /** The session's `onclose`: the service reports `disconnected`, which
        shows as `idle`, and tears down. */
    method SessionClosed()
      requires Valid()
      modifies this`status, session`inputSource, session`processor, session`inputAudioContext,
               session`outputAudioContext, session`liveSession, session`sources, session`stopped, session`released
      ensures Valid() && session.TornDown()
      ensures session.released == old(session.released) + GeminiService.Releases(old(session.inputSource),
             old(session.processor), old(session.inputAudioContext), old(session.outputAudioContext),
             old(session.liveSession))
      ensures session.stopped == old(session.stopped) + old(session.sources)
      ensures status == Idle
    {
      var reported := session.OnClose();
      OnStatusChange(reported);
    }

    /** The session's `onerror`: the service reports `error`, which opens the
        overlay, and tears down. */
    method SessionFailed()
      requires Valid()
      modifies this`status, session`inputSource, session`processor, session`inputAudioContext,
               session`outputAudioContext, session`liveSession, session`sources, session`stopped, session`released
      ensures Valid() && session.TornDown()
      ensures session.released == old(session.released) + GeminiService.Releases(old(session.inputSource),
             old(session.processor), old(session.inputAudioContext), old(session.outputAudioContext),
             old(session.liveSession))
      ensures session.stopped == old(session.stopped) + old(session.sources)
      ensures status == Error && ShowsOverlay(status)
    {
      var reported := session.OnError();
      OnStatusChange(reported);
    }

    /** The overlay's Dismiss button. */
    method Dismiss()
      requires ShowsOverlay(status)
      modifies this`status
      ensures status == Idle
    {
      status := Idle;
    }

    /** The unmount cleanup: always tears the session down. */
    method Unmount()
      requires Valid()
      modifies session`inputSource, session`processor, session`inputAudioContext,
               session`outputAudioContext, session`liveSession, session`sources, session`stopped, session`released
      ensures Valid() && session.TornDown()
      ensures session.released == old(session.released) + GeminiService.Releases(old(session.inputSource),
             old(session.processor), old(session.inputAudioContext), old(session.outputAudioContext),
             old(session.liveSession))
      ensures session.stopped == old(session.stopped) + old(session.sources)
      ensures old(session.TornDown()) ==> unchanged(session)
    {
      session.Disconnect();
    }
  }
}
