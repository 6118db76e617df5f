/**
  The viewer's side of screen sharing in client/screen_playback.py: which presenter is being
  shown, the last decoded frame and when it arrived, the counters, and the two callbacks (the
  GUI's frame display and its presenter label). The JPEG decoder is the parameter `imdecode`;
  the callbacks are recorded as the calls they receive, and whether the frame display raised is
  the parameter `displayOk`. The running average frame size is not modelled.
 */
module ScreenPlaybackModel {
  import opened Wrappers
  import opened Bytes
  import opened JsonModel
  import opened Messages
  import opened HexText

  /** How long after its last frame a screen share still counts as active, in seconds. */
  const ActivityWindow: real := 10.0

  /** `data['frame_data']` as Python evaluates it once `'frame_data' in data` held: only a dict can be indexed by a string. */
  function FrameField(data: Json): Option<Json>
  {
    if data.JObject? && "frame_data" in data.fields then Some(data.fields["frame_data"]) else None
  }

  /** `bytes.fromhex(value)`; anything but a string, or text it refuses, raises, which the decoder turns into None. */
  function FrameBytes(value: Json): (r: Option<seq<byte>>)
    ensures r.Some? <==> value.JStr? && SpacedHexText(value.s)
  {
    if value.JStr? then FromHex(value.s) else None
  }

  class ScreenPlayback {
    const clientId: string
    var isReceiving: bool
    var currentPresenterId: Option<string>
    var lastFrame: Option<seq<byte>>
    var lastFrameTime: Option<real>
    var framesReceived: nat
    var framesDisplayed: nat
    var playbackErrors: nat
    var totalBytesReceived: nat
    var playbackStartTime: Option<real>
    var hasFrameCallback: bool
    var hasPresenterCallback: bool
    /** The arguments the presenter-change callback was called with, in order. */
    var presenterNotices: seq<Option<string>>

    constructor(clientId: string)
      ensures this.clientId == clientId && !isReceiving
      ensures currentPresenterId.None? && lastFrame.None? && lastFrameTime.None?
      ensures framesReceived == 0 && framesDisplayed == 0 && playbackErrors == 0 && totalBytesReceived == 0
      ensures playbackStartTime.None? && !hasFrameCallback && !hasPresenterCallback && presenterNotices == []
    {
      this.clientId := clientId;
      isReceiving := false;
      currentPresenterId, lastFrame, lastFrameTime := None, None, None;
      framesReceived, framesDisplayed, playbackErrors, totalBytesReceived := 0, 0, 0, 0;
      playbackStartTime := None;
      hasFrameCallback, hasPresenterCallback := false, false;
      presenterNotices := [];
    }

    /** `set_frame_callback` */
    method SetFrameCallback()
      modifies this`hasFrameCallback
      ensures hasFrameCallback
    {
      hasFrameCallback := true;
    }

    /** `set_presenter_change_callback` */
    method SetPresenterChangeCallback()
      modifies this`hasPresenterCallback
      ensures hasPresenterCallback
    {
      hasPresenterCallback := true;
    }

    /** `start_receiving`: a second start succeeds without touching the start time. */
    method StartReceiving(now: real) returns (ok: bool)
      modifies this`isReceiving, this`playbackStartTime
      ensures ok && isReceiving
      ensures playbackStartTime == if old(isReceiving) then old(playbackStartTime) else Some(now)
    {
      if isReceiving {
        return true;
      }
      isReceiving := true;
      playbackStartTime := Some(now);
      ok := true;
    }

    /** `stop_receiving`: forgets the presenter and the last frame; a no-op when not receiving. */
    method StopReceiving()
      modifies this`isReceiving, this`currentPresenterId, this`lastFrame, this`lastFrameTime
      ensures !isReceiving
      ensures old(isReceiving) ==> currentPresenterId.None? && lastFrame.None? && lastFrameTime.None?
      ensures !old(isReceiving) ==>
                currentPresenterId == old(currentPresenterId) && lastFrame == old(lastFrame) && lastFrameTime == old(lastFrameTime)
    {
      if !isReceiving {
        return;
      }
      isReceiving := false;
      currentPresenterId := None;
      lastFrame := None;
      lastFrameTime := None;
    }

    /** `_update_presenter`: the presenter is replaced and the callback, if any, told. */
    method UpdatePresenter(presenterId: string)
      modifies this`currentPresenterId, this`presenterNotices
      ensures currentPresenterId == Some(presenterId)
      ensures presenterNotices == if hasPresenterCallback then old(presenterNotices) + [Some(presenterId)] else old(presenterNotices)
    {
      currentPresenterId := Some(presenterId);
      if hasPresenterCallback {
        presenterNotices := presenterNotices + [Some(presenterId)];
      }
    }

    /**
      `_decompress_frame`: hex to bytes, bytes counted, then the JPEG decoder; only a decoded
      image counts as received.
     */
    method DecompressFrame(value: Json, imdecode: seq<byte> -> Option<seq<byte>>) returns (frame: Option<seq<byte>>)
      modifies this`totalBytesReceived, this`framesReceived
      ensures frame == (if FrameBytes(value).Some? then imdecode(FrameBytes(value).value) else None)
      ensures totalBytesReceived == old(totalBytesReceived) + (if FrameBytes(value).Some? then |FrameBytes(value).value| else 0)
      ensures framesReceived == if frame.Some? then old(framesReceived) + 1 else old(framesReceived)
    {
      var bytes := FrameBytes(value);
      if bytes.None? {
        return None;
      }
      totalBytesReceived := totalBytesReceived + |bytes.value|;
      frame := imdecode(bytes.value);
      if frame.Some? {
        framesReceived := framesReceived + 1;
      }
    }

    /** `_display_frame`: the frame becomes the last one; a display callback that returns counts as displayed. */
    method DisplayFrame(frame: seq<byte>, now: real, displayOk: bool)
      modifies this`lastFrame, this`lastFrameTime, this`framesDisplayed
      ensures lastFrame == Some(frame) && lastFrameTime == Some(now)
      ensures framesDisplayed == if hasFrameCallback && displayOk then old(framesDisplayed) + 1 else old(framesDisplayed)
    {
      lastFrame := Some(frame);
      lastFrameTime := Some(now);
      if hasFrameCallback && displayOk {
        framesDisplayed := framesDisplayed + 1;
      }
    }

    /**
      Whether `process_screen_message` gets past its three guards without returning early; data
      for which the `in` test raises gets past them too, into the error handler.
     */
    predicate Accepts(m: TCPMessage)
      reads this
    {
      isReceiving && m.msgType == ScreenShare && PyIn("frame_data", m.data) != Some(false)
    }

    /**
      `process_screen_message`. Nothing changes unless receiving, the type is SCREEN_SHARE and the
      data has `frame_data`. Then a new sender becomes the presenter (and the callback is told),
      and the frame is decoded: a decoded frame is displayed and the call succeeds; a failure,
      including data that cannot be searched or indexed by name, counts a playback error.
     */
    method ProcessScreenMessage(m: TCPMessage, imdecode: seq<byte> -> Option<seq<byte>>, now: real, displayOk: bool)
      returns (ok: bool)
      modifies this`currentPresenterId, this`presenterNotices, this`totalBytesReceived, this`framesReceived
      modifies this`lastFrame, this`lastFrameTime, this`framesDisplayed, this`playbackErrors
      ensures !old(Accepts(m)) ==>
                !ok && currentPresenterId == old(currentPresenterId) && presenterNotices == old(presenterNotices)
                && lastFrame == old(lastFrame) && framesReceived == old(framesReceived) && playbackErrors == old(playbackErrors)
      ensures old(Accepts(m)) && FrameField(m.data).None? ==>
                !ok && currentPresenterId == old(currentPresenterId) && presenterNotices == old(presenterNotices)
                && lastFrame == old(lastFrame) && framesReceived == old(framesReceived) && playbackErrors == old(playbackErrors) + 1
      ensures old(Accepts(m)) && FrameField(m.data).Some? ==>
                && currentPresenterId == Some(m.senderId)
                && presenterNotices == (if old(currentPresenterId) != Some(m.senderId) && hasPresenterCallback
                                        then old(presenterNotices) + [Some(m.senderId)] else old(presenterNotices))
                && var frame := if FrameBytes(FrameField(m.data).value).Some? then imdecode(FrameBytes(FrameField(m.data).value).value) else None;
                   && ok == frame.Some?
                   && (frame.Some? ==> lastFrame == frame && lastFrameTime == Some(now) && playbackErrors == old(playbackErrors))
                   && (frame.None? ==> lastFrame == old(lastFrame) && playbackErrors == old(playbackErrors) + 1)
                   && framesReceived == if frame.Some? then old(framesReceived) + 1 else old(framesReceived)
    {
      if !isReceiving || m.msgType != ScreenShare || PyIn("frame_data", m.data) == Some(false) {
        return false;
      }
      var field := FrameField(m.data);
      if field.None? {
        playbackErrors := playbackErrors + 1;
        return false;
      }
      if currentPresenterId != Some(m.senderId) {
        UpdatePresenter(m.senderId);
      }
      var frame := DecompressFrame(field.value, imdecode);
      if frame.Some? {
        DisplayFrame(frame.value, now, displayOk);
        return true;
      }
      playbackErrors := playbackErrors + 1;
      ok := false;
    }

    /** `handle_presenter_start`: the callback is told even when the presenter does not change. */
    method HandlePresenterStart(presenterId: string)
      modifies this`currentPresenterId, this`presenterNotices
      ensures currentPresenterId == Some(presenterId)
      ensures presenterNotices == if hasPresenterCallback then old(presenterNotices) + [Some(presenterId)] else old(presenterNotices)
    {
      UpdatePresenter(presenterId);
    }

    /** `handle_presenter_stop`: only the current presenter's stop clears the screen and tells the callback. */
    method HandlePresenterStop(presenterId: string)
      modifies this`currentPresenterId, this`lastFrame, this`lastFrameTime, this`presenterNotices
      ensures old(currentPresenterId) == Some(presenterId) ==>
                currentPresenterId.None? && lastFrame.None? && lastFrameTime.None?
                && presenterNotices == if hasPresenterCallback then old(presenterNotices) + [None] else old(presenterNotices)
      ensures old(currentPresenterId) != Some(presenterId) ==>
                currentPresenterId == old(currentPresenterId) && lastFrame == old(lastFrame)
                && lastFrameTime == old(lastFrameTime) && presenterNotices == old(presenterNotices)
    {
      if currentPresenterId == Some(presenterId) {
        currentPresenterId := None;
        lastFrame := None;
        lastFrameTime := None;
        if hasPresenterCallback {
          presenterNotices := presenterNotices + [None];
        }
      }
    }

    /** `is_screen_sharing_active`: receiving, with a (non-zero) last frame time less than 10 s ago. */
    predicate IsScreenSharingActive(now: real)
      reads this
    {
      isReceiving && lastFrameTime.Some? && lastFrameTime.value != 0.0 && now - lastFrameTime.value < ActivityWindow
    }

    /** `get_current_presenter` */
    function CurrentPresenter(): Option<string>
      reads this
    {
      currentPresenterId
    }
  }

  /**
    A screen frame from a presenter, as the capture side encodes it, is shown by a receiving
    viewer: the viewer decodes exactly the JPEG bytes that were sent, the sender becomes the
    presenter, and the share counts as active.
   */
  method SentFrameIsShown(jpeg: seq<byte>, image: seq<byte>, now: real) returns (shown: Option<seq<byte>>, active: bool)
    requires now > 0.0
    ensures shown == Some(image) && active
  {
    var viewer := new ScreenPlayback("viewer");
    var _ := viewer.StartReceiving(now);
    var imdecode := (b: seq<byte>) => if b == jpeg then Some(image) else None;
    FromHexHex(jpeg);
    var m := TCPMessage(ScreenShare, "presenter", JObject(map["sequence_num" := JInt(0), "frame_data" := JStr(Hex(jpeg))]), now, "m0");
    var ok := viewer.ProcessScreenMessage(m, imdecode, now, true);
    shown := viewer.lastFrame;
    active := viewer.IsScreenSharingActive(now);
  }
}
