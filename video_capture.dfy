/**
  The webcam side of video in client/video_capture.py: the capture settings and their clamping,
  the start/stop guards, one pass of the stable capture loop, the capture-timestamp adjustment and
  the four packet senders with their size limits and sequence numbering. The camera, the JPEG
  encoder and the connection are parameters: a read either yields a frame or not, `jpeg` is what
  the encoder returns, and `sendOk` is what `send_udp_packet` answers.
 */
module VideoCaptureModel {
  import opened Wrappers
  import opened Bytes
  import opened Messages
  import ScreenCaptureModel

  const DefaultWidth: int := 320
  const DefaultHeight: int := 240
  const DefaultFps: int := 30
  const DefaultCompressionQuality: int := 60
  /** The capture loop restarts its error run after this many failed reads in a row. */
  const MaxConsecutiveErrors: nat := 5
  /** `frame_timestamps` is a deque of this length. */
  const TimestampHistory: nat := 100
  const TimestampStep: real := 0.001

  /** The four `_send_video_packet*` variants. */
  datatype Sender = StableSequenced | Stable | Extreme | Plain

  /** The largest JPEG each sender transmits; a larger one is skipped. */
  function SizeLimit(s: Sender): (r: nat)
    ensures r > 0
  {
    match s
    case StableSequenced => 262144
    case Stable => 262144
    case Extreme => 524288
    case Plain => 131072
  }

  /** Only the extreme sender counts a frame as sent without looking at the send's answer. */
  predicate CountsUnchecked(s: Sender)
  {
    s == Extreme
  }

  /**
    The capture timestamp `_process_frame_stable` uses: one that does not exceed the previous RAW
    timestamp is moved 1 ms past it. `previous` is None for the first frame of the history.
   */
  function AdjustedTimestamp(previous: Option<real>, raw: real): (r: real)
    ensures r >= raw
    ensures previous.Some? ==> r > previous.value
    ensures previous.None? || raw > previous.value ==> r == raw
  {
    if previous.Some? && raw <= previous.value then previous.value + TimestampStep else raw
  }

  /** The previous raw timestamp, as `frame_timestamps[-2]` reads it after the append. */
  function PreviousRaw(history: seq<real>): Option<real>
  {
    if |history| == 0 then None else Some(history[|history| - 1])
  }

  /**
    Because the comparison is with the previous raw value and not the previous adjusted one, the
    adjusted timestamps are not monotonic: raw readings 1.0, 1.0, 1.0005 become 1.0, 1.001, 1.0005.
   */
  lemma AdjustmentCanGoBackwards()
    ensures AdjustedTimestamp(None, 1.0) == 1.0
    ensures AdjustedTimestamp(Some(1.0), 1.0) == 1.001
    ensures AdjustedTimestamp(Some(1.0), 1.0005) == 1.0005
    ensures AdjustedTimestamp(Some(1.0), 1.0005) < AdjustedTimestamp(Some(1.0), 1.0)
  {
  }

  class VideoCapture {
    const clientId: string
    const hasConnectionManager: bool
    /** OpenCV is importable and the platform reports the video capability. */
    const videoAvailable: bool
    var isCapturing: bool
    /** A camera handle is held. */
    var hasCamera: bool
    var width: int
    var height: int
    var fps: int
    var compressionQuality: int
    var sequenceNumber: int
    var framesCaptured: nat
    var framesSent: nat
    var framesDropped: nat
    var captureErrors: nat
    var totalBytesSent: nat
    var captureStartTime: Option<real>
    /** The raw capture timestamps, at most the last 100. */
    var frameTimestamps: seq<real>
    /** Every packet handed to the connection manager, in order. */
    var sent: seq<UDPPacket>

    ghost predicate Valid()
      reads this
    {
      && 160 <= width <= 1920 && 120 <= height <= 1080
      && 5 <= fps <= 30 && 10 <= compressionQuality <= 100
      && |frameTimestamps| <= TimestampHistory
    }

    constructor(clientId: string, hasConnectionManager: bool, videoAvailable: bool)
      ensures Valid()
      ensures this.clientId == clientId && this.hasConnectionManager == hasConnectionManager
      ensures this.videoAvailable == videoAvailable
      ensures !isCapturing && !hasCamera
      ensures width == DefaultWidth && height == DefaultHeight && fps == DefaultFps
      ensures compressionQuality == DefaultCompressionQuality
      ensures sequenceNumber == 0 && sent == [] && frameTimestamps == []
      ensures framesCaptured == 0 && framesSent == 0 && framesDropped == 0 && captureErrors == 0 && totalBytesSent == 0
      ensures captureStartTime.None?
    {
      this.clientId := clientId;
      this.hasConnectionManager := hasConnectionManager;
      this.videoAvailable := videoAvailable;
      isCapturing, hasCamera := false, false;
      width, height, fps := DefaultWidth, DefaultHeight, DefaultFps;
      compressionQuality := DefaultCompressionQuality;
      sequenceNumber := 0;
      framesCaptured, framesSent, framesDropped, captureErrors, totalBytesSent := 0, 0, 0, 0, 0;
      captureStartTime := None;
      frameTimestamps := [];
      sent := [];
    }

    /**
      `set_video_settings`: width clamped to [160, 1920], height to [120, 1080], fps to [5, 30] and
      quality to [10, 100]; an absent value leaves its setting as it was.
     */
    method SetVideoSettings(newWidth: Option<int>, newHeight: Option<int>, newFps: Option<int>, quality: Option<int>)
      requires Valid()
      modifies this`width, this`height, this`fps, this`compressionQuality
      ensures Valid()
      ensures width == if newWidth.Some? then ScreenCaptureModel.Clamp(newWidth.value, 160, 1920) else old(width)
      ensures height == if newHeight.Some? then ScreenCaptureModel.Clamp(newHeight.value, 120, 1080) else old(height)
      ensures fps == if newFps.Some? then ScreenCaptureModel.Clamp(newFps.value, 5, 30) else old(fps)
      ensures compressionQuality == if quality.Some? then ScreenCaptureModel.Clamp(quality.value, 10, 100) else old(compressionQuality)
    {
      if newWidth.Some? {
        width := ScreenCaptureModel.Clamp(newWidth.value, 160, 1920);
      }
      if newHeight.Some? {
        height := ScreenCaptureModel.Clamp(newHeight.value, 120, 1080);
      }
      if newFps.Some? {
        fps := ScreenCaptureModel.Clamp(newFps.value, 5, 30);
      }
      if quality.Some? {
        compressionQuality := ScreenCaptureModel.Clamp(quality.value, 10, 100);
      }
    }

    /**
      `start_capture`: refused without OpenCV or the platform capability; already capturing is a
      success that changes nothing; refused when no device is listed or no camera among the
      requested one and the alternatives 0..2 opens (`cameraOpens`); otherwise capturing starts
      with the sequence reset to 0.
     */
    method StartCapture(deviceCount: nat, cameraOpens: bool, now: real) returns (ok: bool)
      modifies this`isCapturing, this`hasCamera, this`captureStartTime, this`sequenceNumber
      ensures ok <==> videoAvailable && (old(isCapturing) || (deviceCount > 0 && cameraOpens))
      ensures !ok || old(isCapturing) ==>
                isCapturing == old(isCapturing) && sequenceNumber == old(sequenceNumber) && captureStartTime == old(captureStartTime)
      ensures !ok && videoAvailable && !old(isCapturing) && deviceCount > 0 ==> !hasCamera
      ensures (!ok && (!videoAvailable || deviceCount == 0)) || old(isCapturing) ==> hasCamera == old(hasCamera)
      ensures ok && !old(isCapturing) ==> isCapturing && hasCamera && sequenceNumber == 0 && captureStartTime == Some(now)
    {
      if !videoAvailable {
        return false;
      }
      if isCapturing {
        return true;
      }
      if deviceCount == 0 {
        return false;
      }
      if !cameraOpens {
        hasCamera := false;
        return false;
      }
      hasCamera := true;
      isCapturing := true;
      captureStartTime := Some(now);
      sequenceNumber := 0;
      ok := true;
    }

    /** `stop_capture`: a no-op when idle; otherwise capturing stops and the camera is released. */
    method StopCapture()
      modifies this`isCapturing, this`hasCamera
      ensures !isCapturing
      ensures old(isCapturing) ==> !hasCamera
      ensures !old(isCapturing) ==> hasCamera == old(hasCamera)
    {
      if !isCapturing {
        return;
      }
      isCapturing := false;
      hasCamera := false;
    }

    /**
      The `_send_video_packet*` family. Without a connection manager, or for a JPEG over the
      sender's size limit, nothing happens and no sequence number is used. Otherwise a VIDEO packet
      goes out under the current sequence number, which then moves on by exactly one. The checked
      senders count a frame as sent only when the send reports success; the extreme one always does.
      The sequenced sender's timestamped factory does not exist in common/messages.py, so it always
      takes its fallback and sends the plain packet.
     */
    method SendVideoPacket(sender: Sender, jpeg: seq<byte>, now: real, sendOk: bool)
      modifies this`sequenceNumber, this`sent, this`framesSent
      ensures !hasConnectionManager || |jpeg| > SizeLimit(sender) ==>
                sequenceNumber == old(sequenceNumber) && sent == old(sent) && framesSent == old(framesSent)
      ensures hasConnectionManager && |jpeg| <= SizeLimit(sender) ==>
                && sent == old(sent) + [CreateVideoPacket(clientId, old(sequenceNumber), jpeg, now)]
                && sequenceNumber == old(sequenceNumber) + 1
                && framesSent == if sendOk || CountsUnchecked(sender) then old(framesSent) + 1 else old(framesSent)
    {
      if !hasConnectionManager || |jpeg| > SizeLimit(sender) {
        return;
      }
      sent := sent + [CreateVideoPacket(clientId, sequenceNumber, jpeg, now)];
      sequenceNumber := sequenceNumber + 1;
      if sendOk || CountsUnchecked(sender) {
        framesSent := framesSent + 1;
      }
    }

    /**
      `_process_frame_stable`: the raw capture timestamp joins the bounded history and is adjusted
      against the previous raw one; a frame the encoder could not compress is counted as dropped,
      otherwise its bytes are counted and it goes to the sequenced sender.
     */
    method ProcessFrameStable(raw: real, jpeg: Option<seq<byte>>, now: real, sendOk: bool) returns (stamp: real)
      requires Valid()
      modifies this`frameTimestamps, this`framesDropped, this`totalBytesSent, this`sequenceNumber, this`sent, this`framesSent
      ensures Valid()
      ensures frameTimestamps == KeepLast(old(frameTimestamps) + [raw], TimestampHistory)
      ensures stamp == AdjustedTimestamp(PreviousRaw(old(frameTimestamps)), raw)
      ensures jpeg.None? ==> framesDropped == old(framesDropped) + 1 && totalBytesSent == old(totalBytesSent)
                             && sent == old(sent) && sequenceNumber == old(sequenceNumber) && framesSent == old(framesSent)
      ensures jpeg.Some? ==> framesDropped == old(framesDropped) && totalBytesSent == old(totalBytesSent) + |jpeg.value|
      ensures jpeg.Some? && hasConnectionManager && |jpeg.value| <= SizeLimit(StableSequenced) ==>
                sent == old(sent) + [CreateVideoPacket(clientId, old(sequenceNumber), jpeg.value, now)]
                && sequenceNumber == old(sequenceNumber) + 1
      ensures jpeg.Some? && (!hasConnectionManager || |jpeg.value| > SizeLimit(StableSequenced)) ==>
                sent == old(sent) && sequenceNumber == old(sequenceNumber)
    {
      stamp := AdjustedTimestamp(PreviousRaw(frameTimestamps), raw);
      frameTimestamps := KeepLast(frameTimestamps + [raw], TimestampHistory);
      if jpeg.None? {
        framesDropped := framesDropped + 1;
        return;
      }
      totalBytesSent := totalBytesSent + |jpeg.value|;
      SendVideoPacket(StableSequenced, jpeg.value, now, sendOk);
    }

    /**
      One pass of `_capture_loop` (25 frames a second). Inside the frame interval nothing happens.
      A failed read counts an error and extends the run of consecutive errors, which restarts at 0
      once it reaches 5. A good read ends the run, is processed, and is counted as captured.
      `lastFrameTime` and `consecutiveErrors` are the loop's locals.
     */
    method CaptureLoopStep(now: real, lastFrameTime: real, consecutiveErrors: nat, readOk: bool, raw: real,
                           jpeg: Option<seq<byte>>, sendOk: bool)
      returns (newLastFrameTime: real, newConsecutiveErrors: nat)
      requires Valid() && isCapturing && hasCamera
      requires consecutiveErrors < MaxConsecutiveErrors
      modifies this`frameTimestamps, this`framesDropped, this`totalBytesSent, this`sequenceNumber, this`sent,
               this`framesSent, this`framesCaptured, this`captureErrors
      ensures Valid()
      ensures newConsecutiveErrors < MaxConsecutiveErrors
      ensures now - lastFrameTime < 1.0 / 25.0 ==>
                newLastFrameTime == lastFrameTime && newConsecutiveErrors == consecutiveErrors
                && sent == old(sent) && framesCaptured == old(framesCaptured) && captureErrors == old(captureErrors)
      ensures now - lastFrameTime >= 1.0 / 25.0 && !readOk ==>
                && newLastFrameTime == lastFrameTime && sent == old(sent) && sequenceNumber == old(sequenceNumber)
                && framesCaptured == old(framesCaptured) && captureErrors == old(captureErrors) + 1
                && newConsecutiveErrors == (if consecutiveErrors + 1 >= MaxConsecutiveErrors then 0 else consecutiveErrors + 1)
      ensures now - lastFrameTime >= 1.0 / 25.0 && readOk ==>
                && newLastFrameTime == now && newConsecutiveErrors == 0
                && framesCaptured == old(framesCaptured) + 1 && captureErrors == old(captureErrors)
                && frameTimestamps == KeepLast(old(frameTimestamps) + [raw], TimestampHistory)
    {
      newLastFrameTime, newConsecutiveErrors := lastFrameTime, consecutiveErrors;
      if now - lastFrameTime < 1.0 / 25.0 {
        return;
      }
      if !readOk {
        captureErrors := captureErrors + 1;
        newConsecutiveErrors := consecutiveErrors + 1;
        if newConsecutiveErrors >= MaxConsecutiveErrors {
          newConsecutiveErrors := 0;
        }
        return;
      }
      newConsecutiveErrors := 0;
      var _ := ProcessFrameStable(raw, jpeg, now, sendOk);
      framesCaptured := framesCaptured + 1;
      newLastFrameTime := now;
    }
  }

  /**
    After a fresh start, two frames go out numbered 0 and 1, and an oversized frame in between is
    skipped without using up a number.
   */
  method FramesAreNumberedFromZero(a: seq<byte>, big: seq<byte>, b: seq<byte>, now: real)
    returns (first: UDPPacket, second: UDPPacket)
    requires |a| <= 262144 && |b| <= 262144 && |big| > 262144
    ensures first.sequenceNum == 0 && first.data == a
    ensures second.sequenceNum == 1 && second.data == b
  {
    var capture := new VideoCapture("cam", true, true);
    var started := capture.StartCapture(1, true, now);
    capture.SendVideoPacket(Stable, a, now, true);
    capture.SendVideoPacket(Stable, big, now, true);
    capture.SendVideoPacket(Stable, b, now, true);
    first, second := capture.sent[0], capture.sent[1];
  }
}
