/**
  The server's media relay (server/media_relay.py): the audio mixer that averages one
  buffered packet per speaker, the video broadcaster that forwards each camera packet to the
  other participants, the screen-share relay, and the coordinator that ties them to the
  session. Threads become explicit steps (`MixingStep`, `CleanupInactiveStreams`), the clock
  is the `now` parameter and each socket send is the `delivered` predicate's answer.
 */
module MediaRelayModel {
  import opened Wrappers
  import opened Bytes
  import opened JsonModel
  import opened Messages
  import opened Pcm
  import opened Sessions

  /** `deque(maxlen=10)`: the packets kept per speaker. */
  const AudioBufferPackets: nat := 10
  /** The sender id of every mixed packet. */
  const MixerSenderId := "server_mixer"
  /** The default of `cleanup_inactive_streams`, used by the cleanup loop. */
  const VideoStreamTimeout: real := 30.0

  // ------------------------------------------------------------------ audio mixing

  /** One buffered audio packet (`{'data', 'timestamp', 'sequence'}`). */
  datatype AudioEntry = AudioEntry(data: seq<byte>, timestamp: real, sequence: int)

  /** The payloads at the front of the non-empty buffers, visiting the speakers in order `ids`. */
  function Heads(ids: seq<string>, buffers: map<string, seq<AudioEntry>>): (r: seq<seq<byte>>)
    ensures |r| <= |ids|
  {
    if ids == [] then []
    else
      var last := ids[|ids| - 1];
      Heads(ids[..|ids| - 1], buffers) + (if last in buffers && buffers[last] != [] then [buffers[last][0].data] else [])
  }

  /** The payloads that unpack as 16-bit PCM, unpacked; an odd-length payload is skipped. */
  function Decodable(payloads: seq<seq<byte>>): (r: seq<seq<int>>)
    ensures |r| <= |payloads|
    ensures forall k :: 0 <= k < |r| ==> AllSamples(r[k])
  {
    if payloads == [] then []
    else
      var last := payloads[|payloads| - 1];
      Decodable(payloads[..|payloads| - 1]) + (match Unpack(last) case Some(s) => [s] case None => [])
  }

  /** The buffers after popping the front of each of `ids`, one after the other. */
  function PopEach(ids: seq<string>, buffers: map<string, seq<AudioEntry>>): map<string, seq<AudioEntry>>
  {
    if ids == [] then buffers
    else
      var m := PopEach(ids[..|ids| - 1], buffers);
      var last := ids[|ids| - 1];
      if last in m && m[last] != [] then m[last := m[last][1..]] else m
  }

  /** Popping distinct speakers pops each of them once and leaves everyone else alone. */
  lemma {:induction false} PopEachSpec(ids: seq<string>, buffers: map<string, seq<AudioEntry>>)
    requires forall i, j :: 0 <= i < j < |ids| ==> ids[i] != ids[j]
    ensures PopEach(ids, buffers).Keys == buffers.Keys
    ensures forall id :: id in buffers ==> PopEach(ids, buffers)[id] == if id in ids then Popped(buffers[id]) else buffers[id]
  {
    if ids != [] {
      var init := ids[..|ids| - 1];
      var last := ids[|ids| - 1];
      PopEachSpec(init, buffers);
      assert ids == init + [last];
      assert last !in init;
    }
  }

  lemma HeadsStep(ids: seq<string>, k: nat, buffers: map<string, seq<AudioEntry>>)
    requires k < |ids|
    ensures ids[..k + 1] == ids[..k] + [ids[k]]
    ensures Heads(ids[..k + 1], buffers) == Heads(ids[..k], buffers)
              + (if ids[k] in buffers && buffers[ids[k]] != [] then [buffers[ids[k]][0].data] else [])
  {
    assert ids[..k + 1][..k] == ids[..k];
  }

  /** A buffer after `popleft` (an empty buffer is left alone). */
  function Popped(b: seq<AudioEntry>): seq<AudioEntry>
  {
    if b == [] then [] else b[1..]
  }

  /**
    What one pass of `_mix_audio_buffers` produces from the decodable sources: nothing when
    none decoded, otherwise the packed mix. Packing never fails, the mix being clamped.
   */
  function MixedPayload(sources: seq<seq<int>>): (r: Option<seq<byte>>)
    ensures r.None? <==> sources == []
    ensures r.Some? ==> Unpack(r.value) == Some(Mix(sources))
  {
    if sources == [] then None
    else
      UnpackPack(Mix(sources));
      Some(Pack(Mix(sources)).value)
  }

  /** The payload of a single decodable speaker is relayed sample for sample. */
  lemma SingleSpeakerPassesThrough(b: seq<byte>)
    requires Unpack(b).Some?
    ensures MixedPayload(Decodable([b])) == Some(b)
  {
    var s := Unpack(b).value;
    assert [b][..0] == [];
    assert Decodable([b]) == [s];
    SingleSourceMix(s);
    PackUnpack(b);
  }

  class AudioMixer {
    var clientBuffers: map<string, seq<AudioEntry>>
    var isMixing: bool
    var totalMixedPackets: nat
    var activeAudioClients: nat
    var mixingStartTime: Option<real>
    var lastMixTime: Option<real>
    /** Whether `mixed_audio_callback` is set; a mix is only sent out, and counted, through it. */
    var hasMixedCallback: bool

    /** No speaker ever has more than ten packets waiting. */
    ghost predicate Valid()
      reads this`clientBuffers
    {
      forall id :: id in clientBuffers ==> |clientBuffers[id]| <= AudioBufferPackets
    }

    constructor()
      ensures Valid()
      ensures clientBuffers == map[] && !isMixing && totalMixedPackets == 0 && activeAudioClients == 0
      ensures mixingStartTime.None? && lastMixTime.None? && !hasMixedCallback
    {
      clientBuffers := map[];
      hasMixedCallback := false;
      isMixing := false;
      totalMixedPackets := 0;
      activeAudioClients := 0;
      mixingStartTime := None;
      lastMixTime := None;
    }

    /** `set_mixed_audio_callback` */
    method SetMixedAudioCallback()
      modifies this`hasMixedCallback
      ensures hasMixedCallback
    {
      hasMixedCallback := true;
    }

    /** `start_mixing`: a second start changes nothing; it always succeeds. */
    method StartMixing(now: real) returns (ok: bool)
      modifies this`isMixing, this`mixingStartTime
      ensures ok && isMixing
      ensures mixingStartTime == if old(isMixing) then old(mixingStartTime) else Some(now)
    {
      if isMixing {
        return true;
      }
      isMixing := true;
      mixingStartTime := Some(now);
      ok := true;
    }

    /** `stop_mixing`: stopping drops every buffered packet; stopping a stopped mixer does nothing. */
    method StopMixing()
      requires Valid()
      modifies this`isMixing, this`clientBuffers
      ensures Valid() && !isMixing
      ensures clientBuffers == if old(isMixing) then map[] else old(clientBuffers)
    {
      if !isMixing {
        return;
      }
      isMixing := false;
      clientBuffers := map[];
    }

    /** `add_audio_stream`: append to the speaker's buffer, the oldest packet falling out past ten. */
    method AddAudioStream(clientId: string, p: UDPPacket)
      requires Valid()
      modifies this`clientBuffers
      ensures Valid()
      ensures clientBuffers == old(clientBuffers)[clientId :=
                KeepLast((if clientId in old(clientBuffers) then old(clientBuffers)[clientId] else [])
                         + [AudioEntry(p.data, p.timestamp, p.sequenceNum)], AudioBufferPackets)]
      ensures clientBuffers[clientId] != [] && clientBuffers[clientId][|clientBuffers[clientId]| - 1].data == p.data
    {
      var buffer := if clientId in clientBuffers then clientBuffers[clientId] else [];
      KeepLastEndsWith(buffer, AudioEntry(p.data, p.timestamp, p.sequenceNum), AudioBufferPackets);
      clientBuffers := clientBuffers[clientId := KeepLast(buffer + [AudioEntry(p.data, p.timestamp, p.sequenceNum)], AudioBufferPackets)];
    }

    /** `remove_audio_stream` */
    method RemoveAudioStream(clientId: string)
      requires Valid()
      modifies this`clientBuffers
      ensures Valid()
      ensures clientBuffers == old(clientBuffers) - {clientId}
    {
      clientBuffers := clientBuffers - {clientId};
    }

    /**
      `_mix_audio_buffers`: pop the front packet of every non-empty buffer (in the dictionary's
      order, returned as `order`), unpack the ones that decode, count them as the active
      speakers and return their packed mix. With no buffers at all nothing changes.
     */
    method MixAudioBuffers() returns (mixed: Option<seq<byte>>, order: seq<string>)
      requires Valid()
      modifies this`clientBuffers, this`activeAudioClients
      ensures Valid()
      ensures forall id :: id in order <==> id in old(clientBuffers)
      ensures forall i, j :: 0 <= i < j < |order| ==> order[i] != order[j]
      ensures clientBuffers.Keys == old(clientBuffers).Keys
      ensures forall id :: id in clientBuffers ==> clientBuffers[id] == Popped(old(clientBuffers)[id])
      ensures old(clientBuffers) != map[] ==> activeAudioClients == |Decodable(Heads(order, old(clientBuffers)))|
      ensures old(clientBuffers) == map[] ==> activeAudioClients == old(activeAudioClients)
      ensures mixed == MixedPayload(Decodable(Heads(order, old(clientBuffers))))
    {
      order := Enumerate(clientBuffers.Keys);
      if clientBuffers == map[] {
        assert order == [];
        return None, order;
      }
      var heads := PopFronts(order);
      var sources := Decodable(heads);
      activeAudioClients := |sources|;
      if sources == [] {
        return None, order;
      }
      var samples := AverageAudioSamples(sources);
      mixed := Some(Pack(samples).value);
    }

    /** The loop of `_mix_audio_buffers`: visit the speakers in `order`, popping each front packet. */
    method PopFronts(order: seq<string>) returns (heads: seq<seq<byte>>)
      requires Valid()
      requires forall id :: id in order <==> id in clientBuffers
      requires forall i, j :: 0 <= i < j < |order| ==> order[i] != order[j]
      modifies this`clientBuffers
      ensures Valid()
      ensures clientBuffers.Keys == old(clientBuffers).Keys
      ensures forall id :: id in clientBuffers ==> clientBuffers[id] == Popped(old(clientBuffers)[id])
      ensures heads == Heads(order, old(clientBuffers))
    {
      ghost var b0 := clientBuffers;
      var buffers := clientBuffers;
      heads := [];
      var k := 0;
      while k < |order|
        invariant 0 <= k <= |order|
        invariant buffers == PopEach(order[..k], b0)
        invariant heads == Heads(order[..k], b0)
      {
        var id := order[k];
        HeadsStep(order, k, b0);
        PopEachSpec(order[..k], b0);
        assert id !in order[..k];
        var buffer := buffers[id];
        if buffer != [] {
          buffers := buffers[id := buffer[1..]];
          heads := heads + [buffer[0].data];
        }
        k := k + 1;
      }
      assert order[..|order|] == order;
      PopEachSpec(order, b0);
      clientBuffers := buffers;
    }

    /**
      One turn of `_mixing_loop` while mixing: every speaker's front packet is popped (in the
      dictionary's order, returned as `order`), and a non-empty mix of the decodable ones goes
      out through the mixed-audio callback as the next numbered packet from the mixer, stamped
      `now`. An empty mix, or any mix while no callback is set, is dropped and not counted.
     */
    method MixingStep(now: real) returns (packet: Option<UDPPacket>, order: seq<string>)
      requires Valid()
      modifies this`clientBuffers, this`activeAudioClients, this`totalMixedPackets, this`lastMixTime
      ensures Valid()
      ensures !old(isMixing) ==> packet.None? && clientBuffers == old(clientBuffers) && order == []
      ensures old(isMixing) ==>
                && (forall id :: id in order <==> id in old(clientBuffers))
                && (forall i, j :: 0 <= i < j < |order| ==> order[i] != order[j])
                && clientBuffers.Keys == old(clientBuffers).Keys
                && (forall id :: id in clientBuffers ==> clientBuffers[id] == Popped(old(clientBuffers)[id]))
      ensures old(isMixing) ==>
                var mixed := MixedPayload(Decodable(Heads(order, old(clientBuffers))));
                packet.Some? <==> hasMixedCallback && mixed.Some? && mixed.value != []
      ensures packet.Some? ==>
                && packet.value == CreateAudioPacket(MixerSenderId, old(totalMixedPackets),
                                                     MixedPayload(Decodable(Heads(order, old(clientBuffers)))).value, now)
                && packet.value.data != []
                && totalMixedPackets == old(totalMixedPackets) + 1 && lastMixTime == Some(now)
      ensures packet.None? ==> totalMixedPackets == old(totalMixedPackets) && lastMixTime == old(lastMixTime)
    {
      if !isMixing {
        return None, [];
      }
      var mixed;
      mixed, order := MixAudioBuffers();
      if mixed.None? || mixed.value == [] || !hasMixedCallback {
        return None, order;
      }
      packet := Some(CreateAudioPacket(MixerSenderId, totalMixedPackets, mixed.value, now));
      totalMixedPackets := totalMixedPackets + 1;
      lastMixTime := Some(now);
    }
  }

  // ------------------------------------------------------------------ video broadcasting

  /** Per-sender video statistics (`last_sequence` is -1 until the first packet is counted). */
  datatype StreamInfo = StreamInfo(lastPacketTime: real, packetsReceived: nat, bytesReceived: nat, lastSequence: int)

  /** A stream counts as inactive once its last packet is more than `timeout` seconds old. */
  predicate Inactive(info: StreamInfo, timeout: real, now: real)
  {
    now - info.lastPacketTime > timeout
  }

  class VideoBroadcaster {
    var streams: map<string, StreamInfo>
    var videoPacketsRelayed: nat
    var activeVideoClients: nat
    var totalVideoBytesRelayed: nat

    /**
      The active count is the number of streams, and no stream has seen more packets or
      bytes than the broadcaster has relayed in total.
     */
    ghost predicate Valid()
      reads this`activeVideoClients, this`streams, this`videoPacketsRelayed, this`totalVideoBytesRelayed
    {
      && activeVideoClients == |streams|
      && forall id :: id in streams ==>
           && 1 <= streams[id].packetsReceived <= videoPacketsRelayed
           && streams[id].bytesReceived <= totalVideoBytesRelayed
    }

    constructor()
      ensures Valid()
      ensures streams == map[] && videoPacketsRelayed == 0 && totalVideoBytesRelayed == 0
    {
      streams := map[];
      videoPacketsRelayed := 0;
      activeVideoClients := 0;
      totalVideoBytesRelayed := 0;
    }

    /**
      `add_video_stream`: count the packet against its sender's stream (opened on the first
      packet) and in the totals; the caller then forwards it.
     */
    method AddVideoStream(clientId: string, p: UDPPacket, now: real)
      requires Valid()
      modifies this
      ensures Valid()
      ensures streams.Keys == old(streams).Keys + {clientId}
      ensures forall id :: id in old(streams) && id != clientId ==> streams[id] == old(streams)[id]
      ensures streams[clientId].lastPacketTime == now && streams[clientId].lastSequence == p.sequenceNum
      ensures clientId in old(streams) ==>
                && streams[clientId].packetsReceived == old(streams)[clientId].packetsReceived + 1
                && streams[clientId].bytesReceived == old(streams)[clientId].bytesReceived + |p.data|
      ensures clientId !in old(streams) ==> streams[clientId].packetsReceived == 1 && streams[clientId].bytesReceived == |p.data|
      ensures videoPacketsRelayed == old(videoPacketsRelayed) + 1
      ensures totalVideoBytesRelayed == old(totalVideoBytesRelayed) + |p.data|
    {
      var info := if clientId in streams then streams[clientId] else StreamInfo(now, 0, 0, -1);
      streams := streams[clientId := StreamInfo(now, info.packetsReceived + 1, info.bytesReceived + |p.data|, p.sequenceNum)];
      videoPacketsRelayed := videoPacketsRelayed + 1;
      totalVideoBytesRelayed := totalVideoBytesRelayed + |p.data|;
      activeVideoClients := |streams|;
    }

    /** `remove_video_stream` */
    method RemoveVideoStream(clientId: string)
      requires Valid()
      modifies this`streams, this`activeVideoClients
      ensures Valid()
      ensures streams == old(streams) - {clientId}
    {
      if clientId in streams {
        streams := streams - {clientId};
        activeVideoClients := |streams|;
      }
    }

    /** `get_active_video_clients` (in no particular order). */
    method GetActiveVideoClients() returns (ids: seq<string>)
      ensures forall id :: id in ids <==> id in streams
      ensures |ids| == |streams|
    {
      ids := Enumerate(streams.Keys);
    }

    /**
      `cleanup_inactive_streams`: collect the streams silent for more than `timeout` seconds,
      then remove each; the others keep their statistics.
     */
    method CleanupInactiveStreams(timeout: real, now: real) returns (removed: seq<string>)
      requires Valid()
      modifies this`streams, this`activeVideoClients
      ensures Valid()
      ensures forall id :: id in removed <==> id in old(streams) && Inactive(old(streams)[id], timeout, now)
      ensures forall id :: id in streams <==> id in old(streams) && !Inactive(old(streams)[id], timeout, now)
      ensures forall id :: id in streams ==> streams[id] == old(streams)[id]
    {
      var ids := Enumerate(streams.Keys);
      removed := [];
      var k := 0;
      while k < |ids|
        invariant 0 <= k <= |ids|
        invariant forall id :: id in removed <==> id in ids[..k] && Inactive(streams[id], timeout, now)
      {
        assert ids[..k + 1] == ids[..k] + [ids[k]];
        if Inactive(streams[ids[k]], timeout, now) {
          removed := removed + [ids[k]];
        }
        k := k + 1;
      }
      assert ids[..|ids|] == ids;
      ghost var s0 := streams;
      for j := 0 to |removed|
        invariant Valid()
        invariant forall id :: id in streams <==> id in s0 && id !in removed[..j]
        invariant forall id :: id in streams ==> streams[id] == s0[id]
      {
        assert removed[..j + 1] == removed[..j] + [removed[j]];
        RemoveVideoStream(removed[j]);
      }
      assert removed[..|removed|] == removed;
    }
  }

  // ------------------------------------------------------------------ screen sharing

  /**
    The bytes a screen frame adds to the statistics: half the length of its hex `frame_data`,
    nothing without one. Err where Python raises: `frame_data` found in something that is not a
    dictionary, or holding a value without a length.
   */
  function FrameBytes(data: Json): (r: Result<nat, string>)
    ensures PyIn("frame_data", data) == Some(false) ==> r == Ok(0)
    ensures data.JObject? && "frame_data" in data.fields && data.fields["frame_data"].JStr? ==>
              r == Ok(|data.fields["frame_data"].s| / 2)
    ensures r.Err? <==> PyIn("frame_data", data) != Some(false) && !(data.JObject? && PyLen(data.fields["frame_data"]).Some?)
  {
    if PyIn("frame_data", data) == Some(false) then Ok(0)
    else if PyIn("frame_data", data).None? then Err("data cannot be searched for frame_data")
    else if !data.JObject? then Err("frame_data is not a dictionary entry")
    else match PyLen(data.fields["frame_data"])
      case None => Err("frame_data has no length")
      case Some(n) => Ok(n / 2)
  }

  class ScreenShareRelay {
    var framesRelayed: nat
    var totalScreenBytesRelayed: nat
    var lastFrameTime: Option<real>
    var presenterId: Option<string>

    constructor()
      ensures framesRelayed == 0 && totalScreenBytesRelayed == 0 && lastFrameTime.None? && presenterId.None?
    {
      framesRelayed := 0;
      totalScreenBytesRelayed := 0;
      lastFrameTime := None;
      presenterId := None;
    }

    /**
      `relay_screen_frame`: count the frame and note its presenter and time, then add its size;
      `ok` is false where sizing the frame raises, which happens after the count and before
      the frame is forwarded.
     */
    method RelayScreenFrame(m: TCPMessage, presenter: string, now: real) returns (ok: bool)
      modifies this
      ensures framesRelayed == old(framesRelayed) + 1 && lastFrameTime == Some(now) && presenterId == Some(presenter)
      ensures ok <==> FrameBytes(m.data).Ok?
      ensures totalScreenBytesRelayed == old(totalScreenBytesRelayed) + (if ok then FrameBytes(m.data).value else 0)
    {
      framesRelayed := framesRelayed + 1;
      lastFrameTime := Some(now);
      presenterId := Some(presenter);
      match FrameBytes(m.data)
      case Err(_) =>
        return false;
      case Ok(n) =>
        totalScreenBytesRelayed := totalScreenBytesRelayed + n;
        ok := true;
    }
  }

  // ------------------------------------------------------------------ recipients

  /** Mixed audio goes to every client with a UDP address, the speakers included. */
  function MixedAudioTargets(clients: map<string, Client>): set<string>
  {
    set id | id in clients && clients[id].udpAddress.Some?
  }

  /** A video packet goes to every client with a UDP address except its sender. */
  /** The audio buffers after `add_audio_stream` of packet `p`: its sender keeps only the newest AudioBufferPackets. */
  function Buffered(buffers: map<string, seq<AudioEntry>>, p: UDPPacket): (r: map<string, seq<AudioEntry>>)
    ensures r.Keys == buffers.Keys + {p.senderId}
    ensures forall id :: id in buffers && id != p.senderId ==> r[id] == buffers[id]
    ensures 0 < |r[p.senderId]| <= AudioBufferPackets
    ensures r[p.senderId][|r[p.senderId]| - 1] == AudioEntry(p.data, p.timestamp, p.sequenceNum)
  {
    var old_ := if p.senderId in buffers then buffers[p.senderId] else [];
    KeepLastEndsWith(old_, AudioEntry(p.data, p.timestamp, p.sequenceNum), AudioBufferPackets);
    buffers[p.senderId := KeepLast(old_ + [AudioEntry(p.data, p.timestamp, p.sequenceNum)], AudioBufferPackets)]
  }

  function VideoTargets(clients: map<string, Client>, sender: string): (r: set<string>)
    ensures sender !in r
    ensures r == MixedAudioTargets(clients) - {sender}
  {
    set id | id in clients && clients[id].udpAddress.Some? && id != sender
  }

  /** A screen frame goes over TCP to every client except the presenter, with or without UDP. */
  function ScreenTargets(clients: map<string, Client>, presenter: string): (r: set<string>)
    ensures presenter !in r
    ensures VideoTargets(clients, presenter) <= r
    ensures r + {presenter} >= clients.Keys
  {
    set id | id in clients && id != presenter
  }

  // ------------------------------------------------------------------ the coordinator

  class MediaRelay {
    const session: SessionManager
    const mixer: AudioMixer
    const video: VideoBroadcaster
    const screen: ScreenShareRelay
    var isRunning: bool
    var relayStartTime: Option<real>
    var audioPacketsProcessed: nat
    var videoPacketsProcessed: nat
    var screenFramesProcessed: nat
    var broadcastPacketsSent: nat

    ghost predicate Valid()
      reads session`clients, session`activePresenter, session`activeScreenSharer, session`uploads, mixer`clientBuffers,
            video`activeVideoClients, video`streams, video`videoPacketsRelayed, video`totalVideoBytesRelayed
    {
      session.Valid() && mixer.Valid() && video.Valid()
    }

    /** `MediaRelay(session_manager, udp_server)`: fresh components, stopped, all counts zero. */
    constructor(s: SessionManager)
      requires s.Valid()
      ensures Valid() && session == s && fresh(mixer) && fresh(video) && fresh(screen)
      ensures !isRunning && relayStartTime.None? && !mixer.isMixing && mixer.hasMixedCallback
      ensures audioPacketsProcessed == 0 && videoPacketsProcessed == 0 && screenFramesProcessed == 0 && broadcastPacketsSent == 0
    {
      session := s;
      var m := new AudioMixer();
      m.SetMixedAudioCallback();
      mixer := m;
      video := new VideoBroadcaster();
      screen := new ScreenShareRelay();
      isRunning := false;
      relayStartTime := None;
      audioPacketsProcessed := 0;
      videoPacketsProcessed := 0;
      screenFramesProcessed := 0;
      broadcastPacketsSent := 0;
    }

    /** `start_relay`: starts the mixer too; a second start changes nothing. */
    method StartRelay(now: real) returns (ok: bool)
      modifies this`isRunning, this`relayStartTime, mixer`isMixing, mixer`mixingStartTime
      ensures ok && isRunning
      ensures old(isRunning) ==> relayStartTime == old(relayStartTime) && mixer.isMixing == old(mixer.isMixing)
      ensures !old(isRunning) ==> relayStartTime == Some(now) && mixer.isMixing
    {
      if isRunning {
        return true;
      }
      isRunning := true;
      relayStartTime := Some(now);
      ok := mixer.StartMixing(now);
    }

    /** `stop_relay`: stops the mixer, which drops its buffers. */
    method StopRelay()
      requires Valid()
      modifies this`isRunning, mixer`isMixing, mixer`clientBuffers
      ensures Valid() && !isRunning
      ensures old(isRunning) ==> !mixer.isMixing && (old(mixer.isMixing) ==> mixer.clientBuffers == map[])
      ensures !old(isRunning) ==> mixer.isMixing == old(mixer.isMixing) && mixer.clientBuffers == old(mixer.clientBuffers)
    {
      if !isRunning {
        return;
      }
      isRunning := false;
      mixer.StopMixing();
    }

    /**
      The per-recipient send loop shared by the three broadcasts: each send either goes
      through (`delivered`) and is counted, or fails and is skipped.
     */
    method SendToEach(targets: set<string>, delivered: string -> bool) returns (sent: set<string>)
      modifies this`broadcastPacketsSent
      ensures sent == set id | id in targets && delivered(id)
      ensures broadcastPacketsSent == old(broadcastPacketsSent) + |sent|
    {
      var order := Enumerate(targets);
      sent := {};
      var k := 0;
      while k < |order|
        invariant 0 <= k <= |order|
        invariant sent == set id | id in order[..k] && delivered(id)
        invariant broadcastPacketsSent == old(broadcastPacketsSent) + |sent|
      {
        var id := order[k];
        assert order[..k + 1] == order[..k] + [id];
        assert id !in order[..k];
        if delivered(id) {
          sent := sent + {id};
          broadcastPacketsSent := broadcastPacketsSent + 1;
        }
        k := k + 1;
      }
      assert order[..|order|] == order;
    }

    /** `_broadcast_mixed_audio`: nothing goes out if the packet does not serialize. */
    method BroadcastMixedAudio(c: Codec, p: UDPPacket, delivered: string -> bool) returns (sent: set<string>)
      modifies this`broadcastPacketsSent
      ensures SerializeUdp(c, p).Err? ==> sent == {}
      ensures SerializeUdp(c, p).Ok? ==> sent == set id | id in MixedAudioTargets(session.clients) && delivered(id)
      ensures broadcastPacketsSent == old(broadcastPacketsSent) + |sent|
    {
      var targets := MixedAudioTargets(session.clients);
      if targets == {} || SerializeUdp(c, p).Err? {
        return {};
      }
      sent := SendToEach(targets, delivered);
    }

    /** `_broadcast_video_packet`: to everyone with UDP but the sender. */
    method BroadcastVideoPacket(c: Codec, p: UDPPacket, delivered: string -> bool) returns (sent: set<string>)
      modifies this`broadcastPacketsSent
      ensures SerializeUdp(c, p).Err? ==> sent == {}
      ensures SerializeUdp(c, p).Ok? ==> sent == set id | id in VideoTargets(session.clients, p.senderId) && delivered(id)
      ensures broadcastPacketsSent == old(broadcastPacketsSent) + |sent|
    {
      if MixedAudioTargets(session.clients) == {} || SerializeUdp(c, p).Err? {
        return {};
      }
      sent := SendToEach(VideoTargets(session.clients, p.senderId), delivered);
    }

    /**
      `_broadcast_screen_frame`: over TCP, length-prefixed, to everyone but the presenter. The
      message's data is JSON it was parsed from, so serializing it cannot fail and the failure
      branch of the source's `try` has no counterpart.
     */
    method BroadcastScreenFrame(presenter: string, delivered: string -> bool) returns (sent: set<string>)
      modifies this`broadcastPacketsSent
      ensures sent == set id | id in ScreenTargets(session.clients, presenter) && delivered(id)
      ensures broadcastPacketsSent == old(broadcastPacketsSent) + |sent|
    {
      sent := SendToEach(ScreenTargets(session.clients, presenter), delivered);
    }

    /** `process_audio_packet`: while running, buffer the packet under its sender. */
    method ProcessAudioPacket(p: UDPPacket)
      requires mixer.Valid()
      modifies this`audioPacketsProcessed, mixer`clientBuffers
      ensures mixer.Valid()
      ensures !isRunning ==> audioPacketsProcessed == old(audioPacketsProcessed) && mixer.clientBuffers == old(mixer.clientBuffers)
      ensures isRunning ==> audioPacketsProcessed == old(audioPacketsProcessed) + 1
      ensures isRunning ==> p.senderId in mixer.clientBuffers
                            && mixer.clientBuffers[p.senderId] != []
                            && mixer.clientBuffers[p.senderId][|mixer.clientBuffers[p.senderId]| - 1].data == p.data
      ensures isRunning ==> mixer.clientBuffers == Buffered(old(mixer.clientBuffers), p)
    {
      if isRunning {
        audioPacketsProcessed := audioPacketsProcessed + 1;
        mixer.AddAudioStream(p.senderId, p);
      }
    }

    /** `process_video_packet`: while running, count the packet and forward it to the others. */
    method ProcessVideoPacket(c: Codec, p: UDPPacket, delivered: string -> bool, now: real) returns (sent: set<string>)
      requires Valid()
      modifies this`videoPacketsProcessed, this`broadcastPacketsSent, video
      ensures Valid()
      ensures !isRunning ==> sent == {} && videoPacketsProcessed == old(videoPacketsProcessed) && video.streams == old(video.streams)
      ensures isRunning ==> videoPacketsProcessed == old(videoPacketsProcessed) + 1 && p.senderId in video.streams
      ensures isRunning && SerializeUdp(c, p).Ok? ==> sent == set id | id in VideoTargets(session.clients, p.senderId) && delivered(id)
      ensures p.senderId !in sent
    {
      if !isRunning {
        return {};
      }
      video.AddVideoStream(p.senderId, p, now);
      sent := BroadcastVideoPacket(c, p, delivered);
      videoPacketsProcessed := videoPacketsProcessed + 1;
    }

    /**
      `process_screen_frame`: while running, and only while screen sharing is on and the
      sender is the presenter, stamp the session's frame time, relay and forward the frame.
     */
    method ProcessScreenFrame(m: TCPMessage, presenter: string, delivered: string -> bool, now: real)
      returns (sent: set<string>)
      requires Valid()
      modifies this`screenFramesProcessed, this`broadcastPacketsSent, session`lastScreenFrameTime, screen
      ensures Valid()
      ensures var accepted := old(isRunning) && session.screenSharingActive && session.activePresenter == Some(presenter);
              && (!accepted ==> sent == {} && screenFramesProcessed == old(screenFramesProcessed)
                                && session.lastScreenFrameTime == old(session.lastScreenFrameTime)
                                && screen.framesRelayed == old(screen.framesRelayed))
              && (accepted ==> session.lastScreenFrameTime == Some(now) && screen.framesRelayed == old(screen.framesRelayed) + 1)
              && (accepted && FrameBytes(m.data).Ok? ==>
                    sent == (set id | id in ScreenTargets(session.clients, presenter) && delivered(id))
                    && screenFramesProcessed == old(screenFramesProcessed) + 1)
              && (FrameBytes(m.data).Err? ==> sent == {} && screenFramesProcessed == old(screenFramesProcessed))
      ensures presenter !in sent
    {
      if !isRunning || !session.screenSharingActive {
        return {};
      }
      var current := session.GetPresenter();
      if current.None? || current.value.clientId != presenter {
        return {};
      }
      session.UpdateScreenFrameTime(now);
      var ok := screen.RelayScreenFrame(m, presenter, now);
      if !ok {
        return {};
      }
      sent := BroadcastScreenFrame(presenter, delivered);
      screenFramesProcessed := screenFramesProcessed + 1;
    }

    /** One turn of the mixing thread, its output sent to every UDP client. */
    method MixAndBroadcast(c: Codec, delivered: string -> bool, now: real) returns (packet: Option<UDPPacket>, sent: set<string>)
      requires Valid()
      modifies this`broadcastPacketsSent, mixer`clientBuffers, mixer`activeAudioClients, mixer`totalMixedPackets, mixer`lastMixTime
      ensures Valid()
      ensures packet.None? ==> sent == {}
      ensures packet.Some? ==> packet.value.senderId == MixerSenderId && packet.value.packetType == Audio
      ensures packet.Some? && SerializeUdp(c, packet.value).Ok? ==>
                sent == set id | id in MixedAudioTargets(session.clients) && delivered(id)
    {
      var order;
      packet, order := mixer.MixingStep(now);
      if packet.None? {
        return None, {};
      }
      sent := BroadcastMixedAudio(c, packet.value, delivered);
    }

    /** One turn of the cleanup thread: drop video streams silent for more than thirty seconds. */
    method CleanupStep(now: real) returns (removed: seq<string>)
      requires Valid()
      modifies video`streams, video`activeVideoClients
      ensures Valid()
      ensures !isRunning ==> removed == [] && video.streams == old(video.streams)
      ensures isRunning ==> forall id :: id in video.streams <==>
                id in old(video.streams) && !Inactive(old(video.streams)[id], VideoStreamTimeout, now)
    {
      if !isRunning {
        return [];
      }
      removed := video.CleanupInactiveStreams(VideoStreamTimeout, now);
    }

    /** `remove_client_audio_stream` */
    method RemoveClientAudioStream(clientId: string)
      requires mixer.Valid()
      modifies mixer`clientBuffers
      ensures mixer.Valid()
      ensures mixer.clientBuffers == old(mixer.clientBuffers) - {clientId}
    {
      mixer.RemoveAudioStream(clientId);
    }

    /** `remove_client_video_stream` */
    method RemoveClientVideoStream(clientId: string)
      requires video.Valid()
      modifies video`streams, video`activeVideoClients
      ensures video.Valid()
      ensures video.streams == old(video.streams) - {clientId}
    {
      video.RemoveVideoStream(clientId);
    }
  }
}
