/**
  The client's microphone side, client/audio_capture.py: start and stop flags, mute, and one
  iteration of the capture thread, which numbers each chunk it sends. The microphone read is
  the parameter `chunk` (None where the read raises), and the packets handed to the audio
  callback are recorded in `emitted`.
 */
module AudioCaptureModel {
  import opened Wrappers
  import opened Bytes
  import opened Messages

  /** `_encode_audio`: raw PCM is sent as it was read. */
  function EncodeAudio(raw: seq<byte>): seq<byte>
  {
    raw
  }

  class AudioCapture {
    const clientId: string
    var hasPyaudio: bool
    var hasStream: bool
    var isCapturing: bool
    var isMuted: bool
    var sequenceNumber: nat
    var hasCallback: bool
    /** The packets handed to the audio callback, in order. */
    var emitted: seq<UDPPacket>

    constructor(clientId: string)
      ensures this.clientId == clientId && hasPyaudio && !hasStream && !isCapturing && !isMuted
      ensures sequenceNumber == 0 && !hasCallback && emitted == []
    {
      this.clientId := clientId;
      hasPyaudio, hasStream, isCapturing, isMuted := true, false, false, false;
      sequenceNumber := 0;
      hasCallback := false;
      emitted := [];
    }

    /** `set_audio_callback` */
    method SetAudioCallback()
      modifies this`hasCallback
      ensures hasCallback
    {
      hasCallback := true;
    }

    /**
      `start_capture`: already capturing is a success that changes nothing; a microphone that
      cannot be opened is a failure that changes nothing; a real start resets the numbering.
     */
    method StartCapture(openOk: bool) returns (ok: bool)
      modifies this`hasStream, this`isCapturing, this`sequenceNumber
      ensures ok <==> old(isCapturing) || (hasPyaudio && openOk)
      ensures !old(isCapturing) && ok ==> isCapturing && hasStream && sequenceNumber == 0
      ensures old(isCapturing) || !ok ==>
                isCapturing == old(isCapturing) && hasStream == old(hasStream) && sequenceNumber == old(sequenceNumber)
    {
      if isCapturing {
        return true;
      }
      if !hasPyaudio || !openOk {
        return false;
      }
      hasStream := true;
      isCapturing := true;
      sequenceNumber := 0;
      ok := true;
    }

    /** `stop_capture`: a no-op when not capturing. */
    method StopCapture()
      modifies this`isCapturing, this`hasStream
      ensures !isCapturing
      ensures old(isCapturing) ==> !hasStream
      ensures !old(isCapturing) ==> hasStream == old(hasStream)
    {
      if !isCapturing {
        return;
      }
      isCapturing := false;
      hasStream := false;
    }

    /** `set_muted` */
    method SetMuted(muted: bool)
      modifies this`isMuted
      ensures isMuted == muted
    {
      isMuted := muted;
    }

    /**
      One iteration of `_capture_loop`; `running` says whether the loop goes on. A chunk read
      while muted is dropped without using a sequence number; otherwise it goes out under the
      current number, which then moves on by one. A failed read ends the loop.
     */
    method CaptureStep(chunk: Option<seq<byte>>, now: real) returns (running: bool)
      modifies this`sequenceNumber, this`emitted
      ensures running <==> isCapturing && hasStream && chunk.Some?
      ensures !running || isMuted ==> sequenceNumber == old(sequenceNumber) && emitted == old(emitted)
      ensures running && !isMuted ==>
                sequenceNumber == old(sequenceNumber) + 1
                && emitted == old(emitted) + (if hasCallback then [CreateAudioPacket(clientId, old(sequenceNumber), chunk.value, now)] else [])
    {
      if !isCapturing || !hasStream {
        return false;
      }
      if chunk.None? {
        return false;
      }
      running := true;
      if isMuted {
        return;
      }
      var packet := CreateAudioPacket(clientId, sequenceNumber, EncodeAudio(chunk.value), now);
      sequenceNumber := sequenceNumber + 1;
      if hasCallback {
        emitted := emitted + [packet];
      }
    }

    /** `cleanup`: capture stops and the audio system is released, so a later start fails. */
    method Cleanup()
      modifies this`isCapturing, this`hasStream, this`hasPyaudio
      ensures !isCapturing && !hasPyaudio
      ensures old(isCapturing) ==> !hasStream
      ensures !old(isCapturing) ==> hasStream == old(hasStream)
    {
      StopCapture();
      hasPyaudio := false;
    }
  }

  /**
    Three chunks read after a start, the second while muted: two packets go out, numbered 0 and
    1, carrying the first and third chunks.
   */
  method MutedChunkTakesNoNumber(clientId: string, a: seq<byte>, b: seq<byte>, c: seq<byte>, now: real)
    returns (packets: seq<UDPPacket>)
    ensures |packets| == 2
    ensures packets[0].sequenceNum == 0 && packets[0].data == a
    ensures packets[1].sequenceNum == 1 && packets[1].data == c
  {
    var mic := new AudioCapture(clientId);
    mic.SetAudioCallback();
    var _ := mic.StartCapture(true);
    var _ := mic.CaptureStep(Some(a), now);
    mic.SetMuted(true);
    var _ := mic.CaptureStep(Some(b), now);
    mic.SetMuted(false);
    var _ := mic.CaptureStep(Some(c), now);
    packets := mic.emitted;
  }
}
