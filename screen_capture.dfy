/**
  The presenter's side of screen sharing in client/screen_capture.py: the capture settings and
  their clamping, the resize bound applied to every screenshot, the start/stop guards, one pass of
  the capture loop and the numbered SCREEN_SHARE messages it sends (JPEG bytes as hex text).
  The screenshot library, the JPEG encoder and the connection are parameters: a screenshot is
  `Some` frame or None where pyautogui fails, `encode` is what the JPEG encoder returns, and
  `sendOk` is what `send_tcp_message` answers.
 */
module ScreenCaptureModel {
  import opened Wrappers
  import opened Bytes
  import opened JsonModel
  import opened Messages
  import opened HexText

  const DefaultFps: int := 2
  const DefaultCompressionQuality: int := 30
  const MaxWidth: nat := 800
  const MaxHeight: nat := 600

  /** A captured image: its size, and its pixels as bytes. */
  datatype Frame = Frame(width: nat, height: nat, pixels: seq<byte>)

  /** A capture region `(x, y, width, height)`. */
  datatype Region = Region(x: int, y: int, width: int, height: int)

  /** `max(lo, min(hi, v))` */
  function Clamp(v: int, lo: int, hi: int): (r: int)
    requires lo <= hi
    ensures lo <= r <= hi
    ensures lo <= v <= hi ==> r == v
    ensures v < lo ==> r == lo
    ensures v > hi ==> r == hi
  {
    Max(lo, MinInt(hi, v))
  }

  /**
    The size `_capture_screen` reduces a screenshot to: one that exceeds 800x600 is scaled by
    `min(800 / w, 600 / h)` and truncated, so it fits and keeps at least one side at its bound.
    A screenshot with a zero side that is too large in the other raises (division by zero) and
    yields None. Python's floating point is taken as exact.
   */
  function FittedSize(width: nat, height: nat): (r: Option<(nat, nat)>)
    ensures width <= MaxWidth && height <= MaxHeight ==> r == Some((width, height))
    ensures r.None? <==> (width > MaxWidth || height > MaxHeight) && (width == 0 || height == 0)
    ensures r.Some? ==> r.value.0 <= MaxWidth && r.value.1 <= MaxHeight
    ensures r.Some? ==> r.value.0 <= width && r.value.1 <= height
    ensures r.Some? && (width > MaxWidth || height > MaxHeight) ==> r.value.0 == MaxWidth || r.value.1 == MaxHeight
  {
    if width <= MaxWidth && height <= MaxHeight then Some((width, height))
    else if width == 0 || height == 0 then None
    else
      var w := width as real;
      var h := height as real;
      var scaleW := (MaxWidth as real) / w;
      var scaleH := (MaxHeight as real) / h;
      var scale := if scaleW < scaleH then scaleW else scaleH;
      ScaledBounds(w, h, scaleW, scaleH, scale);
      Some(((w * scale).Floor as nat, (h * scale).Floor as nat))
  }

  lemma ScaledBounds(w: real, h: real, scaleW: real, scaleH: real, scale: real)
    requires w >= 1.0 && h >= 1.0 && (w > MaxWidth as real || h > MaxHeight as real)
    requires scaleW == (MaxWidth as real) / w && scaleH == (MaxHeight as real) / h
    requires scale == if scaleW < scaleH then scaleW else scaleH
    ensures 0.0 < scale < 1.0
    ensures 0.0 <= w * scale <= MaxWidth as real && w * scale <= w
    ensures 0.0 <= h * scale <= MaxHeight as real && h * scale <= h
    ensures w * scale == MaxWidth as real || h * scale == MaxHeight as real
  {
    assert w * scaleW == MaxWidth as real;
    assert h * scaleH == MaxHeight as real;
    if w > MaxWidth as real {
      assert scaleW < 1.0;
    } else {
      assert scaleH < 1.0;
    }
    assert w * scale <= w * scaleW;
    assert h * scale <= h * scaleH;
    assert w * scale < w;
    assert h * scale < h;
  }

  /** `_capture_screen`: the screenshot fitted to the size bound, or None. */
  function CaptureScreen(shot: Option<Frame>): (r: Option<Frame>)
    ensures r.Some? ==> r.value.width <= MaxWidth && r.value.height <= MaxHeight
  {
    match shot
    case None => None
    case Some(f) =>
      match FittedSize(f.width, f.height)
      case None => None
      case Some((w, h)) => Some(Frame(w, h, f.pixels))
  }

  /** The SCREEN_SHARE message `_send_screen_frame` builds around one JPEG image. */
  function ScreenFrameMessage(clientId: string, sequence: int, jpeg: seq<byte>, now: real, freshId: string): (m: TCPMessage)
    ensures m.msgType == ScreenShare && m.senderId == clientId
    ensures m.data.JObject? && "frame_data" in m.data.fields && "sequence_num" in m.data.fields
    ensures m.data.fields["sequence_num"] == JInt(sequence)
    ensures m.data.fields["frame_data"].JStr? && FromHex(m.data.fields["frame_data"].s) == Some(jpeg)
  {
    FromHexHex(jpeg);
    NewTcpMessage(ScreenShare, clientId,
                  JObject(map["sequence_num" := JInt(sequence), "frame_data" := JStr(Hex(jpeg)), "timestamp" := JFloat(now)]),
                  None, None, now, freshId)
  }

  class ScreenCapture {
    const clientId: string
    const hasConnectionManager: bool
    /** The platform capability and the screenshot library, both present. */
    const captureAvailable: bool
    var isCapturing: bool
    var fps: int
    var compressionQuality: int
    var captureRegion: Option<Region>
    var sequenceNumber: int
    var framesCaptured: nat
    var framesSent: nat
    var captureErrors: nat
    var totalBytesSent: nat
    var captureStartTime: Option<real>
    /** Every message handed to the connection manager, in order. */
    var sent: seq<TCPMessage>

    ghost predicate Valid()
      reads this
    {
      1 <= fps <= 15
    }

    constructor(clientId: string, hasConnectionManager: bool, captureAvailable: bool)
      ensures Valid()
      ensures this.clientId == clientId && this.hasConnectionManager == hasConnectionManager
      ensures this.captureAvailable == captureAvailable
      ensures !isCapturing && fps == DefaultFps && compressionQuality == DefaultCompressionQuality
      ensures captureRegion.None? && sequenceNumber == 0 && sent == []
      ensures framesCaptured == 0 && framesSent == 0 && captureErrors == 0 && totalBytesSent == 0
      ensures captureStartTime.None?
    {
      this.clientId := clientId;
      this.hasConnectionManager := hasConnectionManager;
      this.captureAvailable := captureAvailable;
      isCapturing := false;
      fps := DefaultFps;
      compressionQuality := DefaultCompressionQuality;
      captureRegion := None;
      sequenceNumber := 0;
      framesCaptured, framesSent, captureErrors, totalBytesSent := 0, 0, 0, 0;
      captureStartTime := None;
      sent := [];
    }

    /** `set_capture_settings`: fps clamped to [1, 15], quality to [10, 100]; an absent value changes nothing. */
    method SetCaptureSettings(newFps: Option<int>, quality: Option<int>, region: Option<Region>)
      requires Valid()
      modifies this`fps, this`compressionQuality, this`captureRegion
      ensures Valid()
      ensures fps == if newFps.Some? then Clamp(newFps.value, 1, 15) else old(fps)
      ensures compressionQuality == if quality.Some? then Clamp(quality.value, 10, 100) else old(compressionQuality)
      ensures captureRegion == if region.Some? then region else old(captureRegion)
    {
      if newFps.Some? {
        fps := Clamp(newFps.value, 1, 15);
      }
      if quality.Some? {
        compressionQuality := Clamp(quality.value, 10, 100);
      }
      if region.Some? {
        captureRegion := region;
      }
    }

    /**
      `start_capture`: refused when capture is unavailable or the test screenshot fails; already
      capturing is a success that changes nothing; a real start resets the sequence to 0.
     */
    method StartCapture(testShot: Option<Frame>, now: real) returns (ok: bool)
      modifies this`isCapturing, this`captureStartTime, this`sequenceNumber
      ensures ok <==> captureAvailable && (old(isCapturing) || CaptureScreen(testShot).Some?)
      ensures !captureAvailable || old(isCapturing) || !ok ==>
                isCapturing == old(isCapturing) && sequenceNumber == old(sequenceNumber) && captureStartTime == old(captureStartTime)
      ensures captureAvailable && !old(isCapturing) && ok ==> isCapturing && sequenceNumber == 0 && captureStartTime == Some(now)
    {
      if !captureAvailable {
        return false;
      }
      if isCapturing {
        return true;
      }
      if CaptureScreen(testShot).None? {
        return false;
      }
      isCapturing := true;
      captureStartTime := Some(now);
      sequenceNumber := 0;
      ok := true;
    }

    /** `stop_capture` */
    method StopCapture()
      modifies this`isCapturing
      ensures !isCapturing
    {
      if !isCapturing {
        return;
      }
      isCapturing := false;
    }

    /**
      `_send_screen_frame`: without a connection manager nothing happens; otherwise the frame goes
      out under the current sequence number, which then moves on by one, and `framesSent` counts
      the sends the connection accepted.
     */
    method SendScreenFrame(jpeg: seq<byte>, now: real, freshId: string, sendOk: bool)
      modifies this`sequenceNumber, this`sent, this`framesSent
      ensures !hasConnectionManager ==> sequenceNumber == old(sequenceNumber) && sent == old(sent) && framesSent == old(framesSent)
      ensures hasConnectionManager ==>
                && sent == old(sent) + [ScreenFrameMessage(clientId, old(sequenceNumber), jpeg, now, freshId)]
                && sequenceNumber == old(sequenceNumber) + 1
                && framesSent == if sendOk then old(framesSent) + 1 else old(framesSent)
    {
      if !hasConnectionManager {
        return;
      }
      var message := ScreenFrameMessage(clientId, sequenceNumber, jpeg, now, freshId);
      sequenceNumber := sequenceNumber + 1;
      sent := sent + [message];
      if sendOk {
        framesSent := framesSent + 1;
      }
    }

    /**
      One pass of `_capture_loop`. Inside the frame interval nothing happens; a failed screenshot
      counts an error; otherwise the fitted frame is JPEG-encoded and, if that worked, counted in
      the bytes sent and sent, and the capture is counted. `lastFrameTime` is the loop's local clock.
     */
    method CaptureLoopStep(now: real, lastFrameTime: real, frameInterval: real, shot: Option<Frame>,
                           encode: Frame -> Option<seq<byte>>, freshId: string, sendOk: bool)
      returns (newLastFrameTime: real)
      requires isCapturing
      modifies this`sequenceNumber, this`sent, this`framesSent, this`framesCaptured, this`captureErrors, this`totalBytesSent
      ensures now - lastFrameTime < frameInterval ==>
                newLastFrameTime == lastFrameTime && sent == old(sent) && sequenceNumber == old(sequenceNumber)
                && framesCaptured == old(framesCaptured) && captureErrors == old(captureErrors)
      ensures now - lastFrameTime >= frameInterval && CaptureScreen(shot).None? ==>
                newLastFrameTime == lastFrameTime && sent == old(sent) && sequenceNumber == old(sequenceNumber)
                && framesCaptured == old(framesCaptured) && captureErrors == old(captureErrors) + 1
      ensures now - lastFrameTime >= frameInterval && CaptureScreen(shot).Some? ==>
                && newLastFrameTime == now && framesCaptured == old(framesCaptured) + 1 && captureErrors == old(captureErrors)
                && var jpeg := encode(CaptureScreen(shot).value);
                   if jpeg.Some? && hasConnectionManager
                   then sent == old(sent) + [ScreenFrameMessage(clientId, old(sequenceNumber), jpeg.value, now, freshId)]
                        && sequenceNumber == old(sequenceNumber) + 1
                        && totalBytesSent == old(totalBytesSent) + |jpeg.value|
                   else sent == old(sent) && sequenceNumber == old(sequenceNumber)
    {
      newLastFrameTime := lastFrameTime;
      if now - lastFrameTime < frameInterval {
        return;
      }
      var frame := CaptureScreen(shot);
      if frame.None? {
        captureErrors := captureErrors + 1;
        return;
      }
      var jpeg := encode(frame.value);
      if jpeg.Some? {
        totalBytesSent := totalBytesSent + |jpeg.value|;
        SendScreenFrame(jpeg.value, now, freshId, sendOk);
      }
      newLastFrameTime := now;
      framesCaptured := framesCaptured + 1;
    }

    /**
      `set_capture_window`: no title or "Full Screen" selects the whole screen. On Windows the
      first window with that title (`found`) is selected, and a missing one is refused; elsewhere
      the whole screen is used.
     */
    method SetCaptureWindow(title: Option<string>, windowsCapture: bool, found: Option<Region>) returns (ok: bool)
      modifies this`captureRegion
      ensures title.None? || title == Some("Full Screen") ==> ok && captureRegion.None?
      ensures title.Some? && title != Some("Full Screen") && windowsCapture ==>
                ok == found.Some? && captureRegion == (if found.Some? then found else old(captureRegion))
      ensures title.Some? && title != Some("Full Screen") && !windowsCapture ==> ok && captureRegion.None?
    {
      if title.None? || title.value == "Full Screen" {
        captureRegion := None;
        return true;
      }
      if windowsCapture {
        if found.Some? {
          captureRegion := found;
          return true;
        }
        return false;
      }
      captureRegion := None;
      ok := true;
    }
  }

  /** Two frames captured back to back go out numbered 0 and 1 after a fresh start. */
  method FramesAreNumberedFromZero(a: seq<byte>, b: seq<byte>, shot: Frame, now: real)
    returns (first: TCPMessage, second: TCPMessage)
    requires shot.width <= MaxWidth && shot.height <= MaxHeight
    ensures first.data.JObject? && "sequence_num" in first.data.fields && first.data.fields["sequence_num"] == JInt(0)
    ensures second.data.JObject? && "sequence_num" in second.data.fields && second.data.fields["sequence_num"] == JInt(1)
  {
    var capture := new ScreenCapture("presenter", true, true);
    var started := capture.StartCapture(Some(shot), now);
    capture.SendScreenFrame(a, now, "m0", true);
    capture.SendScreenFrame(b, now, "m1", true);
    first, second := capture.sent[0], capture.sent[1];
  }
}
