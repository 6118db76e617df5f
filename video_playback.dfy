/**
  The client's renderer for incoming camera streams, client/video_playback.py: a table of
  streams keyed by sender, a `deque(maxlen=5)` of decoded frames per stream, one tick of the
  render loop (pop the oldest frame of every stream) and the cleanup of idle streams. The JPEG
  decoder is the parameter `imdecode`, the clock the parameter `now`; the two GUI callbacks are
  the values the methods return.
 */
module VideoPlayback {
  import opened Wrappers
  import opened Bytes
  import opened Messages

  /** `max_buffer_size` */
  const MaxBufferSize: nat := 5
  /** `_cleanup_inactive_streams`' default timeout, in seconds. */
  const StreamTimeout: real := 10.0

  datatype StreamInfo = StreamInfo(lastPacketTime: real, packetsReceived: nat, framesDecoded: nat, lastSequence: int, active: bool)

  datatype BufferedFrame = BufferedFrame(frame: seq<byte>, timestamp: real, sequence: int)

  /** The streams `_cleanup_inactive_streams` removes: active ones whose last packet is more than `timeout` old. */
  function Stale(streams: map<string, StreamInfo>, now: real, timeout: real): (r: set<string>)
    ensures r <= streams.Keys
    ensures forall c :: c in r <==> c in streams && streams[c].active && now - streams[c].lastPacketTime > timeout
  {
    set c | c in streams && now - streams[c].lastPacketTime > timeout && streams[c].active
  }

  /** Every buffer after one tick: its oldest frame gone. */
  function PopOldest(buffers: map<string, seq<BufferedFrame>>): (r: map<string, seq<BufferedFrame>>)
    ensures r.Keys == buffers.Keys
    ensures forall c :: c in r ==> r[c] == if buffers[c] == [] then [] else buffers[c][1..]
  {
    map c | c in buffers :: if buffers[c] == [] then [] else buffers[c][1..]
  }

  /** The frames one tick hands to the display: the oldest of every non-empty buffer. */
  function Oldest(buffers: map<string, seq<BufferedFrame>>): (r: map<string, seq<byte>>)
    ensures forall c :: c in r <==> c in buffers && buffers[c] != []
    ensures forall c :: c in r ==> r[c] == buffers[c][0].frame
  {
    map c | c in buffers && buffers[c] != [] :: buffers[c][0].frame
  }

  /** A sender's stream entry after one packet: created if new, then stamped, counted and given the packet's sequence number. */
  function StreamAfter(streams: map<string, StreamInfo>, p: UDPPacket, now: real, decoded: bool): (r: StreamInfo)
    ensures r.active && r.lastPacketTime == now && r.lastSequence == p.sequenceNum
    ensures r.packetsReceived == (if p.senderId in streams then streams[p.senderId].packetsReceived else 0) + 1
    ensures r.framesDecoded == (if p.senderId in streams then streams[p.senderId].framesDecoded else 0) + (if decoded then 1 else 0)
  {
    var before := if p.senderId in streams then streams[p.senderId] else StreamInfo(now, 0, 0, -1, true);
    before.(lastPacketTime := now, packetsReceived := before.packetsReceived + 1,
            framesDecoded := before.framesDecoded + (if decoded then 1 else 0), lastSequence := p.sequenceNum, active := true)
  }

  /** A sender's buffer after one packet: a decoded frame is appended to a deque of at most five. */
  function BufferAfter(buffers: map<string, seq<BufferedFrame>>, p: UDPPacket, now: real, decoded: Option<seq<byte>>): (r: seq<BufferedFrame>)
    ensures |r| <= MaxBufferSize || (p.senderId in buffers && r == buffers[p.senderId])
    ensures decoded.Some? ==> r != [] && r[|r| - 1] == BufferedFrame(decoded.value, now, p.sequenceNum)
    ensures decoded.None? ==> r == if p.senderId in buffers then buffers[p.senderId] else []
  {
    var frames := if p.senderId in buffers then buffers[p.senderId] else [];
    if decoded.Some? then KeepLast(frames + [BufferedFrame(decoded.value, now, p.sequenceNum)], MaxBufferSize) else frames
  }

  /** The loop of `_process_frame_buffers`: every non-empty buffer gives up its oldest frame. */
  method TakeOldest(buffers: map<string, seq<BufferedFrame>>) returns (rest: map<string, seq<BufferedFrame>>, taken: map<string, seq<byte>>)
    ensures rest == PopOldest(buffers) && taken == Oldest(buffers)
  {
    rest := buffers;
    var todo := buffers.Keys;
    taken := map[];
    while todo != {}
      invariant todo <= buffers.Keys && rest.Keys == buffers.Keys
      invariant forall c :: c in rest ==> rest[c] == if c !in todo && buffers[c] != [] then buffers[c][1..] else buffers[c]
      invariant forall c :: c in taken <==> c in buffers && c !in todo && buffers[c] != []
      invariant forall c :: c in taken ==> taken[c] == buffers[c][0].frame
      decreases todo
    {
      var c := Pick(todo);
      if rest[c] != [] {
        taken := taken[c := rest[c][0].frame];
        rest := rest[c := rest[c][1..]];
      }
      todo := todo - {c};
    }
  }

  class VideoRenderer {
    var streams: map<string, StreamInfo>
    var buffers: map<string, seq<BufferedFrame>>
    var isRendering: bool
    var hasFrameCallback: bool
    var hasStatusCallback: bool
    var totalFramesReceived: nat
    var totalFramesRendered: nat
    var activeVideoStreams: nat
    var renderStartTime: Option<real>

    /**
      Streams and buffers are created and deleted together, no buffer holds more than five
      frames, and a stream is marked inactive only on its way out of the table.
     */
    ghost predicate Valid()
      reads this`streams, this`buffers
    {
      && streams.Keys == buffers.Keys
      && (forall c :: c in buffers ==> |buffers[c]| <= MaxBufferSize)
      && (forall c :: c in streams ==> streams[c].active)
    }

    constructor()
      ensures Valid() && streams == map[] && buffers == map[] && !isRendering
      ensures !hasFrameCallback && !hasStatusCallback
      ensures totalFramesReceived == 0 && totalFramesRendered == 0 && activeVideoStreams == 0 && renderStartTime.None?
    {
      streams, buffers := map[], map[];
      isRendering := false;
      hasFrameCallback, hasStatusCallback := false, false;
      totalFramesReceived, totalFramesRendered, activeVideoStreams := 0, 0, 0;
      renderStartTime := None;
    }

    /** `set_frame_update_callback` */
    method SetFrameUpdateCallback()
      modifies this`hasFrameCallback
      ensures hasFrameCallback
    {
      hasFrameCallback := true;
    }

    /** `set_stream_status_callback` */
    method SetStreamStatusCallback()
      modifies this`hasStatusCallback
      ensures hasStatusCallback
    {
      hasStatusCallback := true;
    }

    /** `start_rendering`: a second start succeeds and changes nothing. */
    method StartRendering(now: real) returns (ok: bool)
      modifies this`isRendering, this`renderStartTime
      ensures ok && isRendering
      ensures renderStartTime == if old(isRendering) then old(renderStartTime) else Some(now)
    {
      if isRendering {
        return true;
      }
      isRendering := true;
      renderStartTime := Some(now);
      ok := true;
    }

    /** `stop_rendering`: both tables are emptied; a no-op when not rendering. */
    method StopRendering()
      requires Valid()
      modifies this`isRendering, this`streams, this`buffers
      ensures Valid() && !isRendering
      ensures old(isRendering) ==> streams == map[] && buffers == map[]
      ensures !old(isRendering) ==> streams == old(streams) && buffers == old(buffers)
    {
      if !isRendering {
        return;
      }
      isRendering := false;
      streams := map[];
      buffers := map[];
    }

    /**
      `process_video_packet`. Nothing happens unless rendering. A sender seen for the first time
      gets a stream and an empty buffer, and the status callback is told it is active. Every
      packet updates the stream's time, count and last sequence (with no ordering check); a
      frame that decodes joins the sender's buffer, whose oldest frame falls out beyond five,
      and is handed to the frame callback.
     */
    method ProcessVideoPacket(p: UDPPacket, now: real, imdecode: seq<byte> -> Option<seq<byte>>)
      returns (announced: bool, shown: Option<seq<byte>>)
      requires Valid()
      modifies this`streams, this`buffers, this`totalFramesReceived, this`activeVideoStreams
      ensures Valid()
      ensures !isRendering ==>
                !announced && shown.None? && streams == old(streams) && buffers == old(buffers)
                && totalFramesReceived == old(totalFramesReceived)
      ensures isRendering ==>
                && announced == (p.senderId !in old(streams) && hasStatusCallback)
                && streams == old(streams)[p.senderId := StreamAfter(old(streams), p, now, imdecode(p.data).Some?)]
                && buffers == old(buffers)[p.senderId := BufferAfter(old(buffers), p, now, imdecode(p.data))]
                && shown == (if hasFrameCallback then imdecode(p.data) else None)
                && totalFramesReceived == old(totalFramesReceived) + 1
                && activeVideoStreams == |streams|
    {
      announced, shown := false, None;
      if !isRendering {
        return;
      }
      var client := p.senderId;
      announced := client !in streams && hasStatusCallback;
      var frame := imdecode(p.data);
      streams := streams[client := StreamAfter(streams, p, now, frame.Some?)];
      buffers := buffers[client := BufferAfter(buffers, p, now, frame)];
      totalFramesReceived := totalFramesReceived + 1;
      activeVideoStreams := |streams|;
      if frame.Some? && hasFrameCallback {
        shown := frame;
      }
    }

    /**
      `_process_frame_buffers`, one tick of the render loop: the oldest frame of every non-empty
      buffer is taken out and counted as rendered; `shown` is what the frame callback is given.
     */
    method ProcessFrameBuffers() returns (shown: map<string, seq<byte>>)
      requires Valid()
      modifies this`buffers, this`totalFramesRendered
      ensures Valid()
      ensures buffers == PopOldest(old(buffers))
      ensures totalFramesRendered == old(totalFramesRendered) + |Oldest(old(buffers))|
      ensures shown == if hasFrameCallback then Oldest(old(buffers)) else map[]
    {
      var rest, taken := TakeOldest(buffers);
      buffers := rest;
      totalFramesRendered := totalFramesRendered + |taken|;
      shown := if hasFrameCallback then taken else map[];
    }

    /**
      `_cleanup_inactive_streams`: active streams idle for more than `timeout` are marked
      inactive, then deleted with their buffers; `removed` is the set the status callback is told
      about, and the active count is recounted.
     */
    method CleanupInactiveStreams(now: real, timeout: real) returns (removed: set<string>)
      requires Valid()
      modifies this`streams, this`buffers, this`activeVideoStreams
      ensures Valid()
      ensures removed == Stale(old(streams), now, timeout)
      ensures streams == map c | c in old(streams) && c !in removed :: old(streams)[c]
      ensures buffers == map c | c in old(buffers) && c !in removed :: old(buffers)[c]
      ensures activeVideoStreams == |streams|
    {
      var s, b := streams, buffers;
      var todo := s.Keys;
      var inactive: set<string> := {};
      while todo != {}
        invariant streams == old(streams) && buffers == old(buffers)
        invariant todo <= streams.Keys && s.Keys == streams.Keys
        invariant forall c :: c in inactive <==> c in streams && c !in todo && streams[c].active && now - streams[c].lastPacketTime > timeout
        invariant forall c :: c in s ==> s[c] == if c in inactive then streams[c].(active := false) else streams[c]
        decreases todo
      {
        var c := Pick(todo);
        var info := s[c];
        if now - info.lastPacketTime > timeout && info.active {
          s := s[c := info.(active := false)];
          inactive := inactive + {c};
        }
        todo := todo - {c};
      }
      var left := inactive;
      while left != {}
        invariant streams == old(streams) && buffers == old(buffers)
        invariant left <= inactive
        invariant forall c :: c in s <==> c in streams && (c !in inactive || c in left)
        invariant forall c :: c in s ==> s[c] == if c in inactive then streams[c].(active := false) else streams[c]
        invariant forall c :: c in b <==> c in buffers && (c !in inactive || c in left)
        invariant forall c :: c in b ==> b[c] == buffers[c]
        decreases left
      {
        var c := Pick(left);
        if c in b {
          b := b - {c};
        }
        if c in s {
          s := s - {c};
        }
        left := left - {c};
      }
      assert inactive == Stale(streams, now, timeout);
      assert s == map c | c in streams && c !in inactive :: streams[c];
      assert b == map c | c in buffers && c !in inactive :: buffers[c];
      removed := inactive;
      streams, buffers := s, b;
      activeVideoStreams := |streams|;
    }

    /** `remove_video_stream`: a known stream is dropped with its buffer and reported inactive; an unknown one changes nothing. */
    method RemoveVideoStream(client: string) returns (announced: bool)
      requires Valid()
      modifies this`streams, this`buffers, this`activeVideoStreams
      ensures Valid()
      ensures streams == old(streams) - {client} && buffers == old(buffers) - {client}
      ensures announced == (client in old(streams) && hasStatusCallback)
      ensures client in old(streams) ==> activeVideoStreams == |streams|
      ensures client !in old(streams) ==> activeVideoStreams == old(activeVideoStreams)
    {
      announced := false;
      if client in streams {
        announced := hasStatusCallback;
        if client in buffers {
          buffers := buffers - {client};
        }
        streams := streams - {client};
        activeVideoStreams := |streams|;
      }
    }

    /** `get_active_streams`: in a consistent renderer, every stream in the table. */
    function ActiveStreams(): (r: set<string>)
      reads this`streams
      ensures r <= streams.Keys
      ensures Valid() ==> r == streams.Keys
    {
      set c | c in streams && streams[c].active
    }

    /** `get_latest_frame`: the newest buffered frame, left in place. */
    function LatestFrame(client: string): (r: Option<seq<byte>>)
      reads this`buffers
      ensures r.Some? <==> client in buffers && buffers[client] != []
      ensures r.Some? ==> r.value == buffers[client][|buffers[client]| - 1].frame
    {
      if client in buffers && buffers[client] != [] then Some(buffers[client][|buffers[client]| - 1].frame) else None
    }
  }

  /** A decoder that accepts every payload as it is. */
  function AcceptAll(data: seq<byte>): Option<seq<byte>>
  {
    Some(data)
  }

  /** With a single stream, a tick shows exactly that stream's oldest frame. */
  lemma OldestOfOneStream(sender: string, frames: seq<BufferedFrame>)
    requires frames != []
    ensures Oldest(map[sender := frames]) == map[sender := frames[0].frame]
  {
    var r := Oldest(map[sender := frames]);
    assert r.Keys == {sender};
  }

  /** A sender's first decoded frame is its whole buffer. */
  lemma FirstFrameIsTheBuffer(buffers: map<string, seq<BufferedFrame>>, p: UDPPacket, now: real, frame: seq<byte>)
    requires p.senderId !in buffers
    ensures BufferAfter(buffers, p, now, Some(frame)) == [BufferedFrame(frame, now, p.sequenceNum)]
  {
    KeepLastFits([BufferedFrame(frame, now, p.sequenceNum)], MaxBufferSize);
  }

  /** A renderer that is rendering, fresh from its constructor and `start_rendering`, with both callbacks as requested. */
  method RenderingRenderer(now: real, frameCallback: bool, statusCallback: bool) returns (r: VideoRenderer)
    ensures fresh(r) && r.Valid() && r.isRendering
    ensures r.streams == map[] && r.buffers == map[]
    ensures r.hasFrameCallback == frameCallback && r.hasStatusCallback == statusCallback
  {
    r := new VideoRenderer();
    if frameCallback {
      r.SetFrameUpdateCallback();
    }
    if statusCallback {
      r.SetStreamStatusCallback();
    }
    var _ := r.StartRendering(now);
  }

  /**
    A sender's frames, one packet after another: the first packet opens the stream and is
    announced, the second is not, and the newest decoded frame is the one `get_latest_frame`
    returns.
   */
  method NewestFrameIsLatest(sender: string, kind: string, a: seq<byte>, b: seq<byte>, now: real)
    returns (firstAnnounced: bool, secondAnnounced: bool, latest: Option<seq<byte>>)
    ensures firstAnnounced && !secondAnnounced
    ensures latest == Some(b)
  {
    var r := RenderingRenderer(now, false, true);
    var shown;
    var first, second := UDPPacket(kind, sender, 0, a, now), UDPPacket(kind, sender, 1, b, now);
    assert AcceptAll(second.data) == Some(b);
    firstAnnounced, shown := r.ProcessVideoPacket(first, now, AcceptAll);
    assert sender in r.streams;
    secondAnnounced, shown := r.ProcessVideoPacket(second, now, AcceptAll);
    latest := r.LatestFrame(sender);
  }

  /** One tick shows a buffered frame and takes it out of the buffer. */
  method TickTakesTheFrame(sender: string, kind: string, a: seq<byte>, now: real)
    returns (ticked: map<string, seq<byte>>, latest: Option<seq<byte>>)
    ensures ticked == map[sender := a]
    ensures latest.None?
  {
    var r := RenderingRenderer(now, true, false);
    var p := UDPPacket(kind, sender, 0, a, now);
    assert AcceptAll(p.data) == Some(a);
    FirstFrameIsTheBuffer(r.buffers, p, now, a);
    var announced, shown := r.ProcessVideoPacket(p, now, AcceptAll);
    assert r.buffers == map[sender := [BufferedFrame(a, now, 0)]];
    OldestOfOneStream(sender, [BufferedFrame(a, now, 0)]);
    ticked := r.ProcessFrameBuffers();
    latest := r.LatestFrame(sender);
  }
}
