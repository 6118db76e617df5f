/**
  The client's audio coordinator, client/audio_manager.py: it starts and stops the microphone
  and the speaker together, keeps the two mute flags, forwards captured chunks to the
  connection and received chunks to the speaker. The connection manager is represented by
  what is handed to it: media-status reports in `statusReports` and audio payloads in `sent`.
 */
module AudioManagerModel {
  import opened Wrappers
  import opened Bytes
  import opened Messages
  import opened AudioCaptureModel
  import opened AudioPlaybackModel

  /** One `update_media_status` call on the connection manager. */
  datatype MediaStatus = MediaStatus(videoEnabled: bool, audioEnabled: bool)

  class AudioManager {
    const clientId: string
    const capture: AudioCapture
    const playback: AudioPlayback
    var isAudioEnabled: bool
    var isCaptureMuted: bool
    var isPlaybackMuted: bool
    var statusReports: seq<MediaStatus>
    /** Payloads passed to `send_audio_data`, in order. */
    var sent: seq<seq<byte>>

    /**
      Audio is enabled exactly when both the microphone and the speaker run, the two never run
      apart, a running component has its device open, and the manager's mute flags are those of
      the components.
     */
    ghost predicate Valid()
      reads this, capture, playback
    {
      && playback.Valid()
      && isAudioEnabled == capture.isCapturing
      && capture.isCapturing == playback.isPlaying
      && (capture.isCapturing ==> capture.hasStream)
      && (playback.isPlaying ==> playback.hasStream)
      && capture.isMuted == isCaptureMuted
      && playback.isMuted == isPlaybackMuted
      && capture.hasCallback
      && capture.clientId == clientId
    }

    /** `__init__` and `_initialize_audio_components` */
    constructor(clientId: string)
      ensures Valid() && fresh(capture) && fresh(playback)
      ensures this.clientId == clientId && !isAudioEnabled && !isCaptureMuted && !isPlaybackMuted
      ensures statusReports == [] && sent == []
      ensures capture.sequenceNumber == 0 && capture.emitted == [] && capture.hasPyaudio && !capture.hasStream
      ensures playback.buffer == [] && playback.hasPyaudio && !playback.hasStream && playback.written == []
    {
      this.clientId := clientId;
      var mic := new AudioCapture(clientId);
      mic.SetAudioCallback();
      capture := mic;
      playback := new AudioPlayback();
      isAudioEnabled, isCaptureMuted, isPlaybackMuted := false, false, false;
      statusReports, sent := [], [];
    }

    /**
      `start_audio`: already enabled is a success that changes nothing. Otherwise the microphone
      starts first; if the speaker then fails, the microphone is stopped again, so a failure
      leaves neither running. Success reports audio on and, as written, video off.
     */
    method StartAudio(captureOpenOk: bool, playbackOpenOk: bool, now: real) returns (ok: bool)
      requires Valid()
      modifies this`isAudioEnabled, this`statusReports
      modifies capture`hasStream, capture`isCapturing, capture`sequenceNumber
      modifies playback`hasStream, playback`isPlaying, playback`playbackStartTime
      ensures Valid()
      ensures ok <==> old(isAudioEnabled)
                      || (capture.hasPyaudio && captureOpenOk && playback.hasPyaudio && playbackOpenOk)
      ensures ok == isAudioEnabled
      ensures !old(isAudioEnabled) && ok ==>
                statusReports == old(statusReports) + [MediaStatus(false, true)] && capture.sequenceNumber == 0
      ensures old(isAudioEnabled) || !ok ==> statusReports == old(statusReports)
    {
      if isAudioEnabled {
        return true;
      }
      var captureOk := capture.StartCapture(captureOpenOk);
      if !captureOk {
        return false;
      }
      var playbackOk := playback.StartPlayback(playbackOpenOk, now);
      if !playbackOk {
        capture.StopCapture();
        return false;
      }
      isAudioEnabled := true;
      statusReports := statusReports + [MediaStatus(false, true)];
      ok := true;
    }

    /** `stop_audio`: a no-op when disabled; otherwise both components stop and audio is reported off. */
    method StopAudio()
      requires Valid()
      modifies this`isAudioEnabled, this`statusReports
      modifies capture`isCapturing, capture`hasStream
      modifies playback`isPlaying, playback`hasStream, playback`buffer
      ensures Valid() && !isAudioEnabled
      ensures old(isAudioEnabled) ==>
                statusReports == old(statusReports) + [MediaStatus(false, false)] && playback.buffer == []
      ensures !old(isAudioEnabled) ==> statusReports == old(statusReports) && playback.buffer == old(playback.buffer)
    {
      if !isAudioEnabled {
        return;
      }
      capture.StopCapture();
      playback.StopPlayback();
      isAudioEnabled := false;
      statusReports := statusReports + [MediaStatus(false, false)];
    }

    /** `set_capture_muted` */
    method SetCaptureMuted(muted: bool)
      requires Valid()
      modifies this`isCaptureMuted, capture`isMuted
      ensures Valid() && isCaptureMuted == muted
    {
      isCaptureMuted := muted;
      capture.SetMuted(muted);
    }

    /** `set_playback_muted` */
    method SetPlaybackMuted(muted: bool)
      requires Valid()
      modifies this`isPlaybackMuted, playback`isMuted
      ensures Valid() && isPlaybackMuted == muted
    {
      isPlaybackMuted := muted;
      playback.SetMuted(muted);
    }

    /** `set_muted`: muting oneself mutes the microphone only; the speaker keeps its setting. */
    method SetMuted(muted: bool)
      requires Valid()
      modifies this`isCaptureMuted, capture`isMuted
      ensures Valid() && isCaptureMuted == muted
    {
      SetCaptureMuted(muted);
    }

    /**
      `_handle_captured_audio`: the chunk goes to the connection unless the microphone is muted.
      Only the payload is passed on; the capture's sequence number is dropped here.
     */
    method HandleCapturedAudio(p: UDPPacket)
      modifies this`sent
      ensures sent == old(sent) + (if isCaptureMuted then [] else [p.data])
    {
      if !isCaptureMuted {
        sent := sent + [p.data];
      }
    }

    /** `_handle_incoming_audio`: a received chunk reaches the speaker only while audio is enabled. */
    method HandleIncomingAudio(p: UDPPacket)
      requires Valid()
      modifies playback`buffer, playback`packetsReceived
      ensures Valid()
      ensures !isAudioEnabled ==> playback.buffer == old(playback.buffer)
      ensures isAudioEnabled ==>
                playback.buffer == KeepLast(old(playback.buffer) + [AudioEntry(p.data, p.timestamp, p.sequenceNum)], BufferSize)
    {
      if isAudioEnabled {
        playback.AddAudioPacket(p);
      }
    }

    /**
      One iteration of the microphone thread with its callback: a chunk read while audio runs
      and the microphone is open goes to the connection, numbered in turn; a muted chunk goes
      nowhere.
     */
    method CaptureTick(chunk: seq<byte>, now: real) returns (running: bool)
      requires Valid()
      modifies capture`sequenceNumber, capture`emitted, this`sent
      ensures Valid()
      ensures running == isAudioEnabled
      ensures running && !isCaptureMuted ==>
                sent == old(sent) + [chunk] && capture.sequenceNumber == old(capture.sequenceNumber) + 1
      ensures !running || isCaptureMuted ==> sent == old(sent) && capture.sequenceNumber == old(capture.sequenceNumber)
    {
      var before := |capture.emitted|;
      running := capture.CaptureStep(Some(chunk), now);
      if |capture.emitted| > before {
        HandleCapturedAudio(capture.emitted[before]);
      }
    }

    /** `cleanup`: audio stops, then both components release the audio system. */
    method Cleanup()
      requires Valid()
      modifies this`isAudioEnabled, this`statusReports
      modifies capture`isCapturing, capture`hasStream, capture`hasPyaudio
      modifies playback`isPlaying, playback`hasStream, playback`buffer, playback`hasPyaudio
      ensures Valid() && !isAudioEnabled && !capture.hasPyaudio && !playback.hasPyaudio
      ensures old(isAudioEnabled) ==> statusReports == old(statusReports) + [MediaStatus(false, false)]
      ensures !old(isAudioEnabled) ==> statusReports == old(statusReports)
    {
      StopAudio();
      capture.Cleanup();
      playback.Cleanup();
    }
  }

  /**
    A speaker that cannot be opened: start fails, the microphone is left stopped, and nothing is
    reported to the server.
   */
  method FailedSpeakerStopsMicrophone(clientId: string, now: real) returns (ok: bool, capturing: bool, reports: nat)
    ensures !ok && !capturing && reports == 0
  {
    var audio := new AudioManager(clientId);
    ok := audio.StartAudio(true, false, now);
    capturing, reports := audio.capture.isCapturing, |audio.statusReports|;
  }

  /**
    Audio started, one chunk sent, then the user mutes: the next chunk is not sent, and a start
    and stop report audio on and then off, each with video off.
   */
  method MuteWithholdsAudio(clientId: string, a: seq<byte>, b: seq<byte>, now: real)
    returns (sent: seq<seq<byte>>, reports: seq<MediaStatus>)
    ensures sent == [a]
    ensures reports == [MediaStatus(false, true), MediaStatus(false, false)]
  {
    var audio := new AudioManager(clientId);
    var _ := audio.StartAudio(true, true, now);
    var _ := audio.CaptureTick(a, now);
    audio.SetMuted(true);
    var _ := audio.CaptureTick(b, now);
    audio.StopAudio();
    sent, reports := audio.sent, audio.statusReports;
  }
}
