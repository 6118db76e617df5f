/**
  The client's screen-sharing coordinator, client/screen_manager.py: three flags (presenter,
  sharing, request pending) moved by the user's buttons, by the server's answers and by the
  connection's callbacks, in front of one `ScreenCapture` and one `ScreenPlayback`. The calls it
  makes on the connection manager are recorded in order; what the connection manager answers is
  the parameter `sendOk`. GUI updates and the 10 s request timer's scheduling are not modelled
  (the timer's firing is `ResetPresenterRequestTimeout`).
 */
module ScreenManagerModel {
  import opened Wrappers
  import opened Bytes
  import opened JsonModel
  import opened Messages
  import opened ScreenCaptureModel
  import opened ScreenPlaybackModel

  /** A call on the connection manager. */
  datatype ServerRequest = RequestPresenter | StartSharing | StopSharing

  /** `message.data.get('presenter_id') == client_id`, where data that is empty or None gives None. */
  predicate GrantsTo(data: Json, clientId: string)
  {
    data.JObject? && "presenter_id" in data.fields && data.fields["presenter_id"] == JStr(clientId)
  }

  /** Whether `message.data.get(...) if message.data else default` evaluates without raising. */
  predicate DataReadable(data: Json)
  {
    !Truthy(data) || data.JObject?
  }

  class ScreenManager {
    const clientId: string
    const hasConnectionManager: bool
    const capture: ScreenCapture
    const playback: ScreenPlayback
    var isPresenter: bool
    var isSharing: bool
    var presenterRequestPending: bool
    var requests: seq<ServerRequest>

    /** A pending request is never outstanding for a client that already holds the role. */
    ghost predicate Valid()
      reads this
    {
      !(isPresenter && presenterRequestPending)
    }

    /** `ScreenManager(...)`: the callbacks are wired and playback starts receiving at once. */
    constructor(clientId: string, hasConnectionManager: bool, captureAvailable: bool, now: real)
      ensures Valid() && fresh(capture) && fresh(playback)
      ensures this.clientId == clientId && this.hasConnectionManager == hasConnectionManager
      ensures !isPresenter && !isSharing && !presenterRequestPending && requests == []
      ensures !capture.isCapturing && capture.captureAvailable == captureAvailable && capture.sent == []
      ensures playback.isReceiving && playback.hasFrameCallback && playback.hasPresenterCallback
      ensures playback.currentPresenterId.None? && playback.presenterNotices == []
    {
      this.clientId := clientId;
      this.hasConnectionManager := hasConnectionManager;
      var c := new ScreenCapture(clientId, hasConnectionManager, captureAvailable);
      var p := new ScreenPlayback(clientId);
      p.SetFrameCallback();
      p.SetPresenterChangeCallback();
      var _ := p.StartReceiving(now);
      capture := c;
      playback := p;
      isPresenter, isSharing, presenterRequestPending := false, false, false;
      requests := [];
    }

    /** `start_screen_sharing`: never changes a flag; the start request goes out only for a presenter not yet sharing. */
    method StartScreenSharing(sendOk: bool) returns (ok: bool)
      modifies this`requests
      ensures !isPresenter ==> !ok && requests == old(requests)
      ensures isPresenter && isSharing ==> ok && requests == old(requests)
      ensures isPresenter && !isSharing ==>
                ok == (hasConnectionManager && sendOk)
                && requests == if hasConnectionManager then old(requests) + [StartSharing] else old(requests)
    {
      if !isPresenter {
        return false;
      }
      if isSharing {
        return true;
      }
      if !hasConnectionManager {
        return false;
      }
      requests := requests + [StartSharing];
      ok := sendOk;
    }

    /** `stop_screen_sharing`: a no-op unless sharing; otherwise all three flags drop, capture stops and the server is told. */
    method StopScreenSharing()
      requires Valid()
      modifies this`isSharing, this`isPresenter, this`presenterRequestPending, this`requests, capture`isCapturing
      ensures Valid()
      ensures !old(isSharing) ==>
                isPresenter == old(isPresenter) && presenterRequestPending == old(presenterRequestPending)
                && !isSharing && requests == old(requests) && capture.isCapturing == old(capture.isCapturing)
      ensures old(isSharing) ==>
                !isSharing && !isPresenter && !presenterRequestPending && !capture.isCapturing
                && requests == old(requests) + (if hasConnectionManager then [StopSharing] else [])
    {
      if !isSharing {
        return;
      }
      isSharing := false;
      isPresenter := false;
      presenterRequestPending := false;
      capture.StopCapture();
      if hasConnectionManager {
        requests := requests + [StopSharing];
      }
    }

    /** `_release_presenter_role`: stops a running share, then gives up the role; nothing is sent to ask for the release. */
    method ReleasePresenterRole()
      requires Valid()
      modifies this`isSharing, this`isPresenter, this`presenterRequestPending, this`requests, capture`isCapturing
      ensures Valid() && !isPresenter && !isSharing
      ensures presenterRequestPending == (old(presenterRequestPending) && !old(isSharing))
      ensures requests == old(requests) + (if old(isSharing) && hasConnectionManager then [StopSharing] else [])
      ensures capture.isCapturing == (old(capture.isCapturing) && !old(isSharing))
    {
      if isSharing {
        StopScreenSharing();
      }
      isPresenter := false;
    }

    /**
      `request_presenter_role`: the button toggles. Without a connection manager nothing happens;
      a presenter releases the role; a request already pending is not repeated; otherwise the
      request goes out and stays pending unless it could not be sent.
     */
    method RequestPresenterRole(sendOk: bool)
      requires Valid()
      modifies this`isSharing, this`isPresenter, this`presenterRequestPending, this`requests, capture`isCapturing
      ensures Valid()
      ensures !hasConnectionManager || (!old(isPresenter) && old(presenterRequestPending)) ==>
                isPresenter == old(isPresenter) && isSharing == old(isSharing) && presenterRequestPending == old(presenterRequestPending)
                && requests == old(requests) && capture.isCapturing == old(capture.isCapturing)
      ensures hasConnectionManager && old(isPresenter) ==>
                !isPresenter && !isSharing && !presenterRequestPending
                && requests == old(requests) + (if old(isSharing) then [StopSharing] else [])
                && capture.isCapturing == (old(capture.isCapturing) && !old(isSharing))
      ensures hasConnectionManager && !old(isPresenter) && !old(presenterRequestPending) ==>
                !isPresenter && isSharing == old(isSharing) && capture.isCapturing == old(capture.isCapturing)
                && presenterRequestPending == sendOk && requests == old(requests) + [RequestPresenter]
    {
      if !hasConnectionManager {
        return;
      }
      if isPresenter {
        ReleasePresenterRole();
        return;
      }
      if presenterRequestPending {
        return;
      }
      presenterRequestPending := true;
      requests := requests + [RequestPresenter];
      if !sendOk {
        presenterRequestPending := false;
      }
    }

    /** `handle_presenter_granted`: the role is taken, the request is answered, and sharing is asked for at once. */
    method HandlePresenterGranted(sendOk: bool) returns (ok: bool)
      modifies this`isPresenter, this`presenterRequestPending, this`requests
      ensures Valid() && isPresenter && !presenterRequestPending
      ensures ok == (isSharing || (hasConnectionManager && sendOk))
      ensures requests == old(requests) + (if !isSharing && hasConnectionManager then [StartSharing] else [])
    {
      isPresenter := true;
      presenterRequestPending := false;
      ok := StartScreenSharing(sendOk);
    }

    /**
      `handle_screen_share_confirmed` as written: it unpacks two values from `start_capture`,
      which returns one boolean. The capture is started all the same; the unpacking then raises,
      the handler reports a failed capture to the server, and `is_sharing` is never set.
     */
    method HandleScreenShareConfirmed(testShot: Option<Frame>, now: real)
      modifies this`requests, capture`isCapturing, capture`captureStartTime, capture`sequenceNumber
      ensures capture.isCapturing == (old(capture.isCapturing) || (capture.captureAvailable && CaptureScreen(testShot).Some?))
      ensures requests == old(requests) + (if hasConnectionManager then [StopSharing] else [])
    {
      var _ := capture.StartCapture(testShot, now);
      NotifyServerCaptureFailed();
    }

    /** `handle_screen_share_confirmed` as evidently intended: sharing is marked exactly when the capture runs; a refused capture is reported. */
    method HandleScreenShareConfirmedCorrected(testShot: Option<Frame>, now: real) returns (started: bool)
      modifies this`isSharing, this`requests, capture`isCapturing, capture`captureStartTime, capture`sequenceNumber
      ensures started <==> capture.captureAvailable && (old(capture.isCapturing) || CaptureScreen(testShot).Some?)
      ensures capture.isCapturing == (old(capture.isCapturing) || started)
      ensures isSharing == (old(isSharing) || started)
      ensures requests == old(requests) + (if !started && hasConnectionManager then [StopSharing] else [])
    {
      started := capture.StartCapture(testShot, now);
      if started {
        isSharing := true;
      } else {
        NotifyServerCaptureFailed();
      }
    }

    /** `_notify_server_capture_failed`: the server is asked to stop the share, when there is a connection manager. */
    method NotifyServerCaptureFailed()
      modifies this`requests
      ensures requests == old(requests) + (if hasConnectionManager then [StopSharing] else [])
    {
      if hasConnectionManager {
        requests := requests + [StopSharing];
      }
    }

    /** `handle_presenter_denied`: the request is answered. */
    method HandlePresenterDenied()
      modifies this`presenterRequestPending
      ensures !presenterRequestPending
    {
      presenterRequestPending := false;
    }

    /** `_reset_presenter_request_timeout`: the 10 s timer gives up on an unanswered request. */
    method ResetPresenterRequestTimeout()
      modifies this`presenterRequestPending
      ensures !presenterRequestPending
    {
      if presenterRequestPending {
        presenterRequestPending := false;
      }
    }

    /**
      `handle_screen_share_message`: frames go to playback; a grant naming this client makes it
      presenter; a denial answers the request, unless its data is not a dict (reading its reason
      then raises and the handler gives up). Start and stop announcements only touch the GUI.
     */
    method HandleScreenShareMessage(m: TCPMessage, sendOk: bool, imdecode: seq<byte> -> Option<seq<byte>>, now: real, displayOk: bool)
      returns (displayed: bool)
      requires Valid()
      modifies this`isPresenter, this`presenterRequestPending, this`requests
      modifies playback`currentPresenterId, playback`presenterNotices, playback`totalBytesReceived, playback`framesReceived
      modifies playback`lastFrame, playback`lastFrameTime, playback`framesDisplayed, playback`playbackErrors
      ensures Valid()
      ensures m.msgType != PresenterGranted && m.msgType != PresenterDenied ==>
                isPresenter == old(isPresenter) && presenterRequestPending == old(presenterRequestPending) && requests == old(requests)
      ensures m.msgType != ScreenShare ==>
                !displayed && playback.lastFrame == old(playback.lastFrame)
                && playback.currentPresenterId == old(playback.currentPresenterId) && playback.presenterNotices == old(playback.presenterNotices)
      ensures m.msgType == ScreenShare && !old(playback.Accepts(m)) ==> !displayed && playback.lastFrame == old(playback.lastFrame)
      ensures displayed ==> playback.lastFrame.Some? && playback.lastFrameTime == Some(now) && playback.currentPresenterId == Some(m.senderId)
      ensures m.msgType == PresenterGranted && GrantsTo(m.data, clientId) ==>
                isPresenter && !presenterRequestPending
                && requests == old(requests) + (if !isSharing && hasConnectionManager then [StartSharing] else [])
      ensures m.msgType == PresenterGranted && !GrantsTo(m.data, clientId) ==>
                isPresenter == old(isPresenter) && presenterRequestPending == old(presenterRequestPending) && requests == old(requests)
      ensures m.msgType == PresenterDenied ==>
                isPresenter == old(isPresenter) && requests == old(requests)
                && presenterRequestPending == (old(presenterRequestPending) && !DataReadable(m.data))
    {
      displayed := false;
      if m.msgType == ScreenShare {
        displayed := playback.ProcessScreenMessage(m, imdecode, now, displayOk);
      } else if m.msgType == PresenterGranted {
        if GrantsTo(m.data, clientId) {
          var _ := HandlePresenterGranted(sendOk);
        }
      } else if m.msgType == PresenterDenied {
        if DataReadable(m.data) {
          HandlePresenterDenied();
        }
      }
    }

    /** `_on_connection_lost`: only the user is told; a running share keeps going and every flag stays as it was. */
    method OnConnectionLost()
      ensures isPresenter == old(isPresenter) && isSharing == old(isSharing)
      ensures presenterRequestPending == old(presenterRequestPending) && capture.isCapturing == old(capture.isCapturing)
    {
    }

    /**
      `_on_connection_restored`: a presenter who was sharing asks for the role again, and since the
      request toggles, that releases the role and stops the share instead of resuming it.
     */
    method OnConnectionRestored(sendOk: bool)
      requires Valid()
      modifies this`isSharing, this`isPresenter, this`presenterRequestPending, this`requests, capture`isCapturing
      ensures Valid()
      ensures old(isPresenter && isSharing) && hasConnectionManager ==>
                !isPresenter && !isSharing && !presenterRequestPending && !capture.isCapturing
                && requests == old(requests) + [StopSharing]
      ensures !(old(isPresenter && isSharing) && hasConnectionManager) ==>
                isPresenter == old(isPresenter) && isSharing == old(isSharing) && presenterRequestPending == old(presenterRequestPending)
                && requests == old(requests) && capture.isCapturing == old(capture.isCapturing)
    {
      if isPresenter && isSharing {
        RequestPresenterRole(sendOk);
      }
    }

    /**
      `_on_connection_restored` as its comment intends ("resume screen sharing"): a presenter that
      was sharing keeps the role, the share and the capture, and asks the server again for the
      role and for the share, which the server lost with the old connection.
     */
    method OnConnectionRestoredCorrected()
      requires Valid()
      modifies this`requests
      ensures Valid()
      ensures old(isPresenter && isSharing) && hasConnectionManager ==> requests == old(requests) + [RequestPresenter, StartSharing]
      ensures !(old(isPresenter && isSharing) && hasConnectionManager) ==> requests == old(requests)
    {
      if isPresenter && isSharing && hasConnectionManager {
        requests := requests + [RequestPresenter, StartSharing];
      }
    }

    /** `_on_connection_failed`: a running share is ended locally; the server is not told. */
    method OnConnectionFailed()
      modifies this`isSharing, this`isPresenter, this`presenterRequestPending, capture`isCapturing
      ensures old(isSharing) ==> !isSharing && !isPresenter && !presenterRequestPending && !capture.isCapturing
      ensures !old(isSharing) ==>
                !isSharing && isPresenter == old(isPresenter) && presenterRequestPending == old(presenterRequestPending)
                && capture.isCapturing == old(capture.isCapturing)
    {
      if isSharing {
        isSharing, isPresenter, presenterRequestPending := false, false, false;
        capture.StopCapture();
      }
    }

    /** `handle_screen_sharing_stopped_by_server`: every flag drops and the capture stops, whatever the state. */
    method HandleScreenSharingStoppedByServer()
      modifies this`isSharing, this`isPresenter, this`presenterRequestPending, capture`isCapturing
      ensures Valid() && !isSharing && !isPresenter && !presenterRequestPending && !capture.isCapturing
    {
      isSharing, isPresenter, presenterRequestPending := false, false, false;
      capture.StopCapture();
    }

    /** `cleanup`: a running share is stopped (and the server told), capture and playback stop, every flag drops. */
    method Cleanup()
      requires Valid()
      modifies this`isSharing, this`isPresenter, this`presenterRequestPending, this`requests, capture`isCapturing
      modifies playback`isReceiving, playback`currentPresenterId, playback`lastFrame, playback`lastFrameTime
      ensures Valid() && !isSharing && !isPresenter && !presenterRequestPending
      ensures !capture.isCapturing && !playback.isReceiving
      ensures requests == old(requests) + (if old(isSharing) && hasConnectionManager then [StopSharing] else [])
    {
      if isSharing {
        StopScreenSharing();
      }
      capture.StopCapture();
      playback.StopReceiving();
      isPresenter, isSharing, presenterRequestPending := false, false, false;
    }
  }

  /** The grant the server sends to `clientId`. */
  function Grant(clientId: string, now: real): TCPMessage
  {
    TCPMessage(PresenterGranted, "server", JObject(map["presenter_id" := JStr(clientId)]), now, "grant")
  }

  /**
    The whole presenter flow as written: request, grant, confirmation with a working screen.
    The capture runs, yet the client never counts itself as sharing and has asked the server to
    stop the share it just confirmed.
   */
  method ConfirmedShareIsNeverMarked(shot: Frame, now: real) returns (sharing: bool, capturing: bool, requests: seq<ServerRequest>)
    requires shot.width <= MaxWidth && shot.height <= MaxHeight
    ensures !sharing && capturing
    ensures requests == [RequestPresenter, StartSharing, StopSharing]
  {
    var manager := new ScreenManager("me", true, true, now);
    manager.RequestPresenterRole(true);
    var _ := manager.HandleScreenShareMessage(Grant("me", now), true, (b: seq<byte>) => None, now, true);
    manager.HandleScreenShareConfirmed(Some(shot), now);
    sharing, capturing, requests := manager.isSharing, manager.capture.isCapturing, manager.requests;
  }

  /** The same flow with the corrected confirmation: the share is marked, runs, and nothing asks to stop it. */
  method ConfirmedShareIsMarkedWhenCorrected(shot: Frame, now: real) returns (sharing: bool, capturing: bool, requests: seq<ServerRequest>)
    requires shot.width <= MaxWidth && shot.height <= MaxHeight
    ensures sharing && capturing
    ensures requests == [RequestPresenter, StartSharing]
  {
    var manager := new ScreenManager("me", true, true, now);
    manager.RequestPresenterRole(true);
    var _ := manager.HandleScreenShareMessage(Grant("me", now), true, (b: seq<byte>) => None, now, true);
    var _ := manager.HandleScreenShareConfirmedCorrected(Some(shot), now);
    sharing, capturing, requests := manager.isSharing, manager.capture.isCapturing, manager.requests;
  }

  /** A reconnection in the middle of a (correctly started) share ends it and gives up the role. */
  method ReconnectEndsShare(shot: Frame, now: real) returns (presenter: bool, sharing: bool, capturing: bool)
    requires shot.width <= MaxWidth && shot.height <= MaxHeight
    ensures !presenter && !sharing && !capturing
  {
    var manager := new ScreenManager("me", true, true, now);
    manager.RequestPresenterRole(true);
    var _ := manager.HandleScreenShareMessage(Grant("me", now), true, (b: seq<byte>) => None, now, true);
    var _ := manager.HandleScreenShareConfirmedCorrected(Some(shot), now);
    manager.OnConnectionRestored(true);
    presenter, sharing, capturing := manager.isPresenter, manager.isSharing, manager.capture.isCapturing;
  }

  /** With the corrected handler, the same reconnection leaves the share running and re-announced. */
  method ReconnectKeepsShareWhenCorrected(shot: Frame, now: real) returns (presenter: bool, sharing: bool, capturing: bool, requests: seq<ServerRequest>)
    requires shot.width <= MaxWidth && shot.height <= MaxHeight
    ensures presenter && sharing && capturing
    ensures requests == [RequestPresenter, StartSharing, RequestPresenter, StartSharing]
  {
    var manager := new ScreenManager("me", true, true, now);
    manager.RequestPresenterRole(true);
    var _ := manager.HandleScreenShareMessage(Grant("me", now), true, (b: seq<byte>) => None, now, true);
    var _ := manager.HandleScreenShareConfirmedCorrected(Some(shot), now);
    manager.OnConnectionRestoredCorrected();
    presenter, sharing, capturing := manager.isPresenter, manager.isSharing, manager.capture.isCapturing;
    requests := manager.requests;
  }

  /** A second press while the first request is still pending sends nothing more. */
  method PendingRequestIsNotRepeated() returns (requests: seq<ServerRequest>, pending: bool)
    ensures requests == [RequestPresenter] && pending
  {
    var manager := new ScreenManager("me", true, true, 0.0);
    manager.RequestPresenterRole(true);
    manager.RequestPresenterRole(true);
    requests, pending := manager.requests, manager.presenterRequestPending;
  }
}
