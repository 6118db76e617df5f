/**
  The client's speaker side, client/audio_playback.py: a `deque(maxlen=5)` of received audio
  chunks, one iteration of the playback thread (take the oldest chunk, play it or play
  silence), and the buffer-health report. The sound device is left out: whether opening the
  output stream succeeds is the parameter `openOk`, and what is written to the stream is
  recorded in `written`.
 */
module AudioPlaybackModel {
  import opened Wrappers
  import opened Bytes
  import opened Messages

  /** `BUFFER_SIZE` */
  const BufferSize: nat := 5
  /** `CHUNK_SIZE`, in 16-bit samples. */
  const ChunkSize: nat := 320

  /** What the playback thread writes when it has nothing to play: one chunk of 16-bit zeros. */
  const Silence: seq<byte> := seq(2 * ChunkSize, _ => 0)

  datatype AudioEntry = AudioEntry(data: seq<byte>, timestamp: real, sequence: int)

  datatype Health = Empty | Low | Good | Full

  datatype BufferStatus = BufferStatus(currentSize: nat, maxSize: nat, fillPercentage: real, health: Health, underruns: nat)

  /**
    `get_buffer_status` for a buffer holding `size` chunks. The health label agrees with the fill
    level: empty exactly at 0 %, full exactly from 80 % on, low exactly at 20 %.
   */
  function Status(size: nat, underruns: nat): (r: BufferStatus)
    requires size <= BufferSize
    ensures r.currentSize == size && r.maxSize == BufferSize && r.underruns == underruns
    ensures r.fillPercentage == 20.0 * size as real
    ensures r.health == Empty <==> r.fillPercentage == 0.0
    ensures r.health == Full <==> r.fillPercentage >= 80.0
    ensures r.health == Low <==> r.fillPercentage == 20.0
    ensures r.health == Good <==> 20.0 < r.fillPercentage < 80.0
  {
    var health :=
      if size == 0 then Empty
      else if size < 2 then Low
      else if size >= BufferSize - 1 then Full
      else Good;
    BufferStatus(size, BufferSize, size as real / BufferSize as real * 100.0, health, underruns)
  }

  /** `_decode_audio`: raw PCM passes through unchanged. */
  function DecodeAudio(encoded: seq<byte>): seq<byte>
  {
    encoded
  }

  class AudioPlayback {
    var hasPyaudio: bool
    var hasStream: bool
    var isPlaying: bool
    var isMuted: bool
    var buffer: seq<AudioEntry>
    var packetsReceived: nat
    var packetsPlayed: nat
    var bufferUnderruns: nat
    var playbackStartTime: Option<real>
    /** Everything written to the output stream, in order. */
    var written: seq<seq<byte>>

    ghost predicate Valid()
      reads this`buffer
    {
      |buffer| <= BufferSize
    }

    constructor()
      ensures Valid() && hasPyaudio && !hasStream && !isPlaying && !isMuted && buffer == []
      ensures packetsReceived == 0 && packetsPlayed == 0 && bufferUnderruns == 0
      ensures playbackStartTime.None? && written == []
    {
      hasPyaudio, hasStream, isPlaying, isMuted := true, false, false, false;
      buffer := [];
      packetsReceived, packetsPlayed, bufferUnderruns := 0, 0, 0;
      playbackStartTime := None;
      written := [];
    }

    /** `start_playback`: already playing is a success that changes nothing; a device that cannot be opened is a failure that changes nothing. */
    method StartPlayback(openOk: bool, now: real) returns (ok: bool)
      modifies this`hasStream, this`isPlaying, this`playbackStartTime
      ensures ok <==> old(isPlaying) || (hasPyaudio && openOk)
      ensures !old(isPlaying) && ok ==> isPlaying && hasStream && playbackStartTime == Some(now)
      ensures old(isPlaying) || !ok ==>
                isPlaying == old(isPlaying) && hasStream == old(hasStream) && playbackStartTime == old(playbackStartTime)
    {
      if isPlaying {
        return true;
      }
      if !hasPyaudio || !openOk {
        return false;
      }
      hasStream := true;
      isPlaying := true;
      playbackStartTime := Some(now);
      ok := true;
    }

    /** `stop_playback`: closes the stream and empties the buffer; a no-op when not playing. */
    method StopPlayback()
      requires Valid()
      modifies this`isPlaying, this`hasStream, this`buffer
      ensures Valid() && !isPlaying
      ensures old(isPlaying) ==> !hasStream && buffer == []
      ensures !old(isPlaying) ==> hasStream == old(hasStream) && buffer == old(buffer)
    {
      if !isPlaying {
        return;
      }
      isPlaying := false;
      hasStream := false;
      buffer := [];
    }

    /** `add_audio_packet`: while playing, the chunk joins the buffer, the oldest falling out beyond five. */
    method AddAudioPacket(p: UDPPacket)
      requires Valid()
      modifies this`buffer, this`packetsReceived
      ensures Valid()
      ensures !isPlaying ==> buffer == old(buffer) && packetsReceived == old(packetsReceived)
      ensures isPlaying ==>
                buffer == KeepLast(old(buffer) + [AudioEntry(p.data, p.timestamp, p.sequenceNum)], BufferSize)
                && packetsReceived == old(packetsReceived) + 1
    {
      if !isPlaying {
        return;
      }
      buffer := KeepLast(buffer + [AudioEntry(DecodeAudio(p.data), p.timestamp, p.sequenceNum)], BufferSize);
      packetsReceived := packetsReceived + 1;
    }

    /** `set_muted` */
    method SetMuted(muted: bool)
      modifies this`isMuted
      ensures isMuted == muted
    {
      isMuted := muted;
    }

    /**
      One iteration of `_playback_loop`; `running` is the loop condition. The oldest chunk is
      taken out whether or not it is played. A non-empty chunk is played unless muted; otherwise
      silence is written, and an underrun is counted when there was no chunk or it was empty
      (muting alone is not an underrun).
     */
    method PlaybackStep() returns (running: bool)
      requires Valid()
      modifies this`buffer, this`packetsPlayed, this`bufferUnderruns, this`written
      ensures Valid()
      ensures running == (isPlaying && hasStream)
      ensures !running ==>
                buffer == old(buffer) && packetsPlayed == old(packetsPlayed)
                && bufferUnderruns == old(bufferUnderruns) && written == old(written)
      ensures running ==>
                && buffer == (if old(buffer) == [] then [] else old(buffer)[1..])
                && var chunk := if old(buffer) == [] then [] else old(buffer)[0].data;
                   && (chunk != [] && !isMuted ==>
                         written == old(written) + [chunk] && packetsPlayed == old(packetsPlayed) + 1
                         && bufferUnderruns == old(bufferUnderruns))
                   && (chunk == [] || isMuted ==>
                         written == old(written) + [Silence] && packetsPlayed == old(packetsPlayed)
                         && bufferUnderruns == old(bufferUnderruns) + (if chunk == [] then 1 else 0))
    {
      running := isPlaying && hasStream;
      if !running {
        return;
      }
      var chunk: seq<byte> := [];
      if buffer != [] {
        chunk := buffer[0].data;
        buffer := buffer[1..];
      }
      if chunk != [] && !isMuted {
        written := written + [chunk];
        packetsPlayed := packetsPlayed + 1;
      } else {
        if chunk == [] {
          bufferUnderruns := bufferUnderruns + 1;
        }
        written := written + [Silence];
      }
    }

    /** `get_buffer_status` */
    function BufferStatusNow(): (r: BufferStatus)
      reads this
      requires Valid()
      ensures r.currentSize == |buffer| && r.underruns == bufferUnderruns
    {
      Status(|buffer|, bufferUnderruns)
    }

    /** `cleanup`: playback stops and the audio system is released, so a later start fails. */
    method Cleanup()
      requires Valid()
      modifies this`isPlaying, this`hasStream, this`buffer, this`hasPyaudio
      ensures Valid() && !isPlaying && !hasPyaudio
      ensures old(isPlaying) ==> buffer == [] && !hasStream
      ensures !old(isPlaying) ==> buffer == old(buffer) && hasStream == old(hasStream)
    {
      StopPlayback();
      hasPyaudio := false;
    }
  }

  /**
    A muted speaker still drains the buffer: the chunk is taken out and silence written, with
    no underrun; with the buffer then empty, the next step counts one.
   */
  method MutedPlaybackDrains(kind: string, mixer: string, chunk: seq<byte>, now: real) returns (played: nat, underruns: nat, written: seq<seq<byte>>)
    requires chunk != []
    ensures played == 0 && underruns == 1
    ensures written == [Silence, Silence]
  {
    var speaker := MutedSpeakerHolding(kind, mixer, chunk, now);
    var _ := speaker.PlaybackStep();
    assert speaker.buffer == [] && speaker.written == [Silence] && speaker.bufferUnderruns == 0;
    var _ := speaker.PlaybackStep();
    played, underruns, written := speaker.packetsPlayed, speaker.bufferUnderruns, speaker.written;
  }

  /** A playing, muted speaker that has received one chunk and played nothing yet. */
  method MutedSpeakerHolding(kind: string, mixer: string, chunk: seq<byte>, now: real) returns (speaker: AudioPlayback)
    ensures fresh(speaker) && speaker.Valid() && speaker.isPlaying && speaker.hasStream && speaker.isMuted
    ensures speaker.buffer == [AudioEntry(chunk, now, 0)]
    ensures speaker.written == [] && speaker.packetsPlayed == 0 && speaker.bufferUnderruns == 0
  {
    speaker := new AudioPlayback();
    var _ := speaker.StartPlayback(true, now);
    speaker.AddAudioPacket(UDPPacket(kind, mixer, 0, chunk, now));
    KeepLastFits([AudioEntry(chunk, now, 0)], BufferSize);
    speaker.SetMuted(true);
  }

  /** Six chunks into a buffer of five: the first is lost and playback starts from the second. */
  method OverflowDropsOldest(chunks: seq<seq<byte>>, now: real) returns (first: seq<byte>, size: nat)
    requires |chunks| == 6 && forall i :: 0 <= i < 6 ==> chunks[i] != []
    ensures first == chunks[1] && size == 4
  {
    var speaker := new AudioPlayback();
    var _ := speaker.StartPlayback(true, now);
    var i := 0;
    while i < 6
      invariant 0 <= i <= 6 && speaker.Valid() && speaker.isPlaying && speaker.hasStream && !speaker.isMuted
      invariant |speaker.buffer| == if i <= 5 then i else 5
      invariant forall k :: 0 <= k < |speaker.buffer| ==> speaker.buffer[k].data == chunks[i - |speaker.buffer| + k]
      invariant speaker.written == []
    {
      speaker.AddAudioPacket(UDPPacket(Audio, "mixer", i, chunks[i], now));
      i := i + 1;
    }
    var _ := speaker.PlaybackStep();
    first, size := speaker.written[0], |speaker.buffer|;
  }
}
