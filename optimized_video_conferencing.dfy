/**
  The temporal filter layered over the per-source frame sequencer
  (client/optimized_video_conferencing.py): `TemporalValidator`,
  `OptimizedFrameSequencer` and the sequencer table of `OptimizedVideoConferencing`.
 */
module OptimizedVideoConferencing {
  import opened Wrappers
  import opened Bytes
  import opened FrameSequencing

  /** `temporal_tolerance` of the validator and `max_temporal_jump` of the optimized sequencer (10 ms). */
  const TemporalTolerance: real := 0.01
  const MaxTemporalJump: real := 0.01
  /** Default buffer size of an optimized sequencer. */
  const OptimizedBufferSize: nat := 15

  /** The verdict of `validate_frame_timing`: nothing is refused before anything was displayed. */
  predicate TimingAcceptable(current: real, lastDisplayed: real)
  {
    lastDisplayed == 0.0 || !(current < lastDisplayed - TemporalTolerance)
  }

  /** `_validate_chronological_progression` against the given last-displayed markers. */
  predicate ChronologicallyProgresses(lastSeq: int, lastTs: real, f: TimestampedFrame)
  {
    || lastSeq == -1
    || (!(f.captureTimestamp < lastTs && lastTs - f.captureTimestamp > MaxTemporalJump)
        && f.sequenceNumber >= lastSeq)
  }

  /**
    The optimized sequencer checks a frame only after the parent has released it and
    moved its markers to max(old, frame). Once something has been displayed, that check
    amounts to comparing the frame with the markers held BEFORE the release.
   */
  lemma {:induction false} CheckAfterReleaseUsesOldMarkers(oldSeq: int, oldTs: real, f: TimestampedFrame)
    requires oldSeq >= 0
    ensures ChronologicallyProgresses(Max(oldSeq, f.sequenceNumber), MaxReal(oldTs, f.captureTimestamp), f)
            <==> (f.sequenceNumber >= oldSeq && !(oldTs - f.captureTimestamp > MaxTemporalJump))
  {
    var s := Max(oldSeq, f.sequenceNumber);
    var t := MaxReal(oldTs, f.captureTimestamp);
    if f.sequenceNumber >= oldSeq {
      assert s == f.sequenceNumber;
    } else {
      assert s == oldSeq && f.sequenceNumber < s;
    }
    if f.captureTimestamp < oldTs {
      assert t == oldTs;
    } else {
      assert t == f.captureTimestamp && !(f.captureTimestamp < t);
    }
  }

  /**
    The validator's tolerance (10 ms) is wider than the sequencer's staleness tolerance
    (5 ms): a frame 8 ms behind the last displayed one passes `add_frame`'s temporal
    filter, yet the readiness rule calls it stale, so it is buffered and then blocks
    the head of the heap.
   */
  lemma ValidatorAdmitsStaleFrames()
    ensures
      var f := TimestampedFrame(3, 0.992, 0.993, 0.995, [], "peer");
      && TimingAcceptable(f.captureTimestamp, 1.0)
      && CheckReadiness(2, 1.0, f, 1.0) == Stale
  {
  }

  /**
    Whether `add_frame` of an optimized sequencer whose parent has displayed up to `lastTs`,
    buffers the numbers `buffered` and has the base timestamp and clock offset given, accepts
    a frame: the temporal filter passes it, its number is not buffered yet and, unless it is
    the first frame (which fixes the offset to the frame's own arrival), it is no older than
    MaxFrameAge.
   */
  predicate Admits(lastTs: real, buffered: set<int>, base: Option<real>, offset: real,
                   sequenceNumber: int, captureTimestamp: real, networkTimestamp: real, now: real)
  {
    && TimingAcceptable(captureTimestamp, lastTs)
    && sequenceNumber !in buffered
    && (base.None? || now - (networkTimestamp + offset) <= MaxFrameAge)
  }

  /** A sequencer that has never seen a frame accepts any frame. */
  lemma FreshSequencerAdmits(sequenceNumber: int, captureTimestamp: real, networkTimestamp: real, now: real)
    ensures Admits(0.0, {}, None, 0.0, sequenceNumber, captureTimestamp, networkTimestamp, now)
  {
  }

  /** `TemporalValidator`: remembers the latest timestamp it has let through. */
  class TemporalValidator {
    var lastValidTimestamp: real

    constructor ()
      ensures lastValidTimestamp == 0.0
    {
      lastValidTimestamp := 0.0;
    }

    /**
      `validate_frame_timing`. With nothing displayed yet every timestamp passes and is
      recorded as is (so the recorded timestamp can move backwards then); otherwise a
      timestamp more than the tolerance behind the last displayed one is refused, and
      an accepted one can only raise the recorded timestamp.
     */
    method ValidateFrameTiming(current: real, lastDisplayed: real) returns (ok: bool)
      modifies this
      ensures ok <==> TimingAcceptable(current, lastDisplayed)
      ensures lastDisplayed == 0.0 ==> lastValidTimestamp == current
      ensures lastDisplayed != 0.0 ==>
                lastValidTimestamp == (if ok then MaxReal(old(lastValidTimestamp), current) else old(lastValidTimestamp))
      ensures lastDisplayed != 0.0 ==> lastValidTimestamp >= old(lastValidTimestamp)
    {
      if lastDisplayed == 0.0 {
        lastValidTimestamp := current;
        return true;
      }
      if current < lastDisplayed - TemporalTolerance {
        return false;
      }
      lastValidTimestamp := MaxReal(lastValidTimestamp, current);
      return true;
    }
  }

  /** The recorded timestamp is not monotone: before anything is displayed a later, older frame overwrites it. */
  method ValidatorCanMoveBackwards() returns (first: real, second: real)
    ensures first == 5.0 && second == 1.0
  {
    var v := new TemporalValidator();
    var ok := v.ValidateFrameTiming(5.0, 0.0);
    first := v.lastValidTimestamp;
    ok := v.ValidateFrameTiming(1.0, 0.0);
    second := v.lastValidTimestamp;
  }

  datatype ChronologicalStats = ChronologicalStats(
    framesProcessed: nat,
    chronologicalViolations: nat,
    temporalJumpsPrevented: nat,
    perfectOrderingRate: real)

  /** `_update_chronological_stats`: the rate is recomputed from the counters when something was processed. */
  function UpdatedRate(st: ChronologicalStats): (r: ChronologicalStats)
    ensures r.framesProcessed == st.framesProcessed && r.chronologicalViolations == st.chronologicalViolations
    ensures r.temporalJumpsPrevented == st.temporalJumpsPrevented
    ensures st.framesProcessed == 0 ==> r == st
    ensures st.framesProcessed > 0 ==> r.perfectOrderingRate <= 1.0
    ensures st.framesProcessed > 0 && st.chronologicalViolations <= st.framesProcessed ==> 0.0 <= r.perfectOrderingRate
    ensures st.framesProcessed > 0 && st.chronologicalViolations == 0 ==> r.perfectOrderingRate == 1.0
  {
    if st.framesProcessed > 0 then
      st.(perfectOrderingRate := 1.0 - (st.chronologicalViolations as real) / (st.framesProcessed as real))
    else st
  }

  /**
    One `add_frame` of an optimized sequencer, as a relation between the parent's state `a`,
    the statistics `st` and the validator's timestamp `v` before, and `b`, `st2`, `v2` after.
    The validator records the timestamp (see `ValidateFrameTiming`); a frame it refuses
    leaves the parent alone and counts a prevented jump; otherwise the parent's `add_frame`
    runs, and an accepted frame is counted and the rate refreshed.
   */
  ghost predicate FilteredAdd(a: SequencerState, st: ChronologicalStats, v: real,
                              b: SequencerState, st2: ChronologicalStats, v2: real,
                              clientId: string, capacity: nat, sequenceNumber: int, captureTimestamp: real,
                              networkTimestamp: real, frameData: seq<byte>, now: real)
  {
    var passes := TimingAcceptable(captureTimestamp, a.lastDisplayedTimestamp);
    && v2 == (if a.lastDisplayedTimestamp == 0.0 then captureTimestamp
              else if passes then MaxReal(v, captureTimestamp) else v)
    && if !passes then
         b == a && st2 == st.(temporalJumpsPrevented := st.temporalJumpsPrevented + 1)
       else
         && Added(a, b, clientId, capacity, sequenceNumber, captureTimestamp, networkTimestamp, frameData, now)
         && st2 == (if AddAccepts(a, sequenceNumber, networkTimestamp, now)
                    then UpdatedRate(st.(framesProcessed := st.framesProcessed + 1)) else st)
  }

  /**
    One `get_next_frame` of an optimized sequencer: the parent releases as `Release` says,
    and the frame it released is returned only if it passes the chronological check against
    the parent's NEW markers; a frame that fails is counted as a violation and lost.
   */
  ghost predicate FilteredRelease(a: SequencerState, st: ChronologicalStats,
                                  b: SequencerState, st2: ChronologicalStats, r: Option<TimestampedFrame>, now: real)
  {
    && Consistent(a)
    && var out := Release(a, now);
    && b == out.0
    && r == (if out.1.Some? && ChronologicallyProgresses(b.lastDisplayedSequence, b.lastDisplayedTimestamp, out.1.value)
             then out.1 else None)
    && st2 == (if out.1.Some? && r.None?
               then st.(chronologicalViolations := st.chronologicalViolations + 1) else st)
  }

  /**
    `OptimizedFrameSequencer`, a subclass of `FrameSequencer` in the source, holds its
    parent sequencer here; the parent's state is reached through `inner`.
   */
  class OptimizedFrameSequencer {
    const inner: FrameSequencer
    const validator: TemporalValidator
    ghost const Repr: set<object>
    var stats: ChronologicalStats

    ghost predicate Valid()
      reads Repr
    {
      && Repr == {this, inner, validator}
      && inner.Valid()
    }

    constructor (clientId: string, maxBufferSize: nat)
      ensures Valid() && fresh(Repr)
      ensures inner.clientId == clientId && inner.maxBufferSize == maxBufferSize
      ensures inner.sequenceBuffer == map[] && inner.lastDisplayedSequence == -1
      ensures inner.lastDisplayedTimestamp == 0.0 && inner.baseTimestamp == None && inner.clockOffset == 0.0
      ensures stats == ChronologicalStats(0, 0, 0, 0.0)
      ensures inner.State() == InitialState && validator.lastValidTimestamp == 0.0
    {
      inner := new FrameSequencer(clientId, maxBufferSize);
      validator := new TemporalValidator();
      Repr := {this, inner, validator};
      stats := ChronologicalStats(0, 0, 0, 0.0);
    }

    /**
      `add_frame`: a frame the temporal filter refuses is counted as a prevented jump and
      never reaches the parent; otherwise the parent decides, and an accepted frame is
      counted and the ordering rate refreshed.
     */
    /** Whether `add_frame` would accept the frame now. */
    predicate Accepts(sequenceNumber: int, captureTimestamp: real, networkTimestamp: real, now: real)
      reads this, inner
    {
      Admits(inner.lastDisplayedTimestamp, inner.sequenceBuffer.Keys, inner.baseTimestamp, inner.clockOffset,
             sequenceNumber, captureTimestamp, networkTimestamp, now)
    }

    method AddFrame(sequenceNumber: int, captureTimestamp: real, networkTimestamp: real,
                    frameData: seq<byte>, now: real) returns (accepted: bool)
      requires Valid()
      modifies Repr
      ensures Valid()
      ensures accepted <==> old(Accepts(sequenceNumber, captureTimestamp, networkTimestamp, now))
      ensures !TimingAcceptable(captureTimestamp, old(inner.lastDisplayedTimestamp)) ==>
                && !accepted
                && unchanged(inner)
                && stats == old(stats).(temporalJumpsPrevented := old(stats).temporalJumpsPrevented + 1)
      ensures TimingAcceptable(captureTimestamp, old(inner.lastDisplayedTimestamp)) ==>
                && (accepted <==> sequenceNumber !in old(inner.sequenceBuffer)
                                  && now - (networkTimestamp + inner.clockOffset) <= MaxFrameAge)
                && stats == (if accepted
                             then UpdatedRate(old(stats).(framesProcessed := old(stats).framesProcessed + 1))
                             else old(stats))
      ensures inner.lastDisplayedSequence == old(inner.lastDisplayedSequence)
      ensures inner.lastDisplayedTimestamp == old(inner.lastDisplayedTimestamp)
      // the whole new state
      ensures FilteredAdd(old(inner.State()), old(stats), old(validator.lastValidTimestamp),
                          inner.State(), stats, validator.lastValidTimestamp,
                          inner.clientId, inner.maxBufferSize, sequenceNumber, captureTimestamp,
                          networkTimestamp, frameData, now)
    {
      var ok := validator.ValidateFrameTiming(captureTimestamp, inner.lastDisplayedTimestamp);
      if !ok {
        stats := stats.(temporalJumpsPrevented := stats.temporalJumpsPrevented + 1);
        return false;
      }
      accepted := inner.AddFrame(sequenceNumber, captureTimestamp, networkTimestamp, frameData, now);
      if accepted {
        stats := UpdatedRate(stats.(framesProcessed := stats.framesProcessed + 1));
      }
    }

    /**
      `get_next_frame`: the parent releases a frame and only then is the frame checked
      against the (already advanced) markers. A frame that fails the check is counted as
      a violation and is lost: it has left the parent's buffer and is not returned.
     */
    method GetNextFrame(now: real) returns (r: Option<TimestampedFrame>)
      requires Valid()
      modifies this, inner
      ensures Valid()
      ensures inner.lastDisplayedSequence >= old(inner.lastDisplayedSequence)
      ensures r.Some? ==>
                && r.value.clientId == inner.clientId
                && r.value.sequenceNumber in old(inner.sequenceBuffer)
                && r.value.sequenceNumber !in inner.sequenceBuffer
                && (old(inner.lastDisplayedSequence) == -1 || r.value.sequenceNumber >= old(inner.lastDisplayedSequence))
      ensures r.Some? || inner.sequenceBuffer == old(inner.sequenceBuffer) ==> stats == old(stats)
      ensures r.None? && inner.sequenceBuffer != old(inner.sequenceBuffer) ==>
                && |inner.sequenceBuffer| == |old(inner.sequenceBuffer)| - 1
                && inner.sequenceBuffer.Keys < old(inner.sequenceBuffer).Keys
                && stats == old(stats).(chronologicalViolations := old(stats).chronologicalViolations + 1)
      // the whole new state
      ensures FilteredRelease(old(inner.State()), old(stats), inner.State(), stats, r, now)
    {
      var frame := inner.GetNextFrame(now);
      if frame.Some? {
        if ChronologicallyProgresses(inner.lastDisplayedSequence, inner.lastDisplayedTimestamp, frame.value) {
          return frame;
        }
        stats := stats.(chronologicalViolations := stats.chronologicalViolations + 1);
        return None;
      }
      return None;
    }
  }

  /**
    The sequencer table of `OptimizedVideoConferencing`, with its activity flags and the
    counters it keeps. Starting the renderer, starting the camera and decoding a JPEG
    are outside the model: their outcomes are parameters.
   */
  /** A new sequencer whose parts are all new keeps the table's parts owned and pairwise disjoint. */
  lemma OwnersStayDisjoint(m: map<string, OptimizedFrameSequencer>, parts: set<object>, id: string, s: OptimizedFrameSequencer,
                            grown: map<string, OptimizedFrameSequencer>)
    requires id !in m && grown == m[id := s]
    requires forall c :: c in m ==> m[c].Repr <= parts
    requires forall c, d :: c in m && d in m && c != d ==> m[c].Repr !! m[d].Repr
    requires s.Repr !! parts
    ensures forall c :: c in grown ==> grown[c].Repr <= parts + s.Repr
    ensures forall c, d :: c in grown && d in grown && c != d ==> grown[c].Repr !! grown[d].Repr
  {
  }

  class OptimizedVideoConferencing {
    const clientId: string
    var sequencers: map<string, OptimizedFrameSequencer>
    var isActive: bool
    var videoEnabled: bool
    var totalFramesReceived: nat
    var chronologicalAccuracy: real
    var temporalJumpsPrevented: nat

    /** Every object owned by some sequencer in the table. */
    ghost var Parts: set<object>

    ghost predicate Valid()
      reads this`sequencers, this`Parts, Parts
    {
      && (forall c :: c in sequencers ==> sequencers[c].Repr <= Parts)
      && (forall c :: c in sequencers ==> sequencers[c].Valid() && sequencers[c].inner.clientId == c)
      && (forall c, d :: c in sequencers && d in sequencers && c != d ==> sequencers[c].Repr !! sequencers[d].Repr)
      && this !in Parts
    }

    constructor (clientId: string)
      ensures Valid() && this.clientId == clientId && sequencers == map[]
      ensures !isActive && !videoEnabled && totalFramesReceived == 0
    {
      this.clientId := clientId;
      sequencers := map[];
      Parts := {};
      isActive := false;
      videoEnabled := false;
      totalFramesReceived := 0;
      chronologicalAccuracy := 0.0;
      temporalJumpsPrevented := 0;
    }

    /** `start_video_conferencing`: true when already active; otherwise active iff the renderer started. */
    method StartVideoConferencing(rendererStarted: bool) returns (ok: bool)
      modifies this`isActive
      ensures old(isActive) ==> ok && isActive
      ensures !old(isActive) ==> ok == rendererStarted && isActive == rendererStarted
    {
      if isActive {
        return true;
      }
      if !rendererStarted {
        return false;
      }
      isActive := true;
      return true;
    }

    /** `stop_video_conferencing`: when active, deactivates, stops the camera and forgets every sequencer. */
    method StopVideoConferencing()
      requires Valid()
      modifies this`isActive, this`videoEnabled, this`sequencers
      ensures Valid()
      ensures !old(isActive) ==> sequencers == old(sequencers) && videoEnabled == old(videoEnabled) && !isActive
      ensures old(isActive) ==> !isActive && !videoEnabled && sequencers == map[]
    {
      if !isActive {
        return;
      }
      isActive := false;
      if videoEnabled {
        videoEnabled := false;
      }
      sequencers := map[];
    }

    /** `enable_video`: true when already enabled; otherwise enabled iff the capture started. */
    method EnableVideo(captureStarted: bool) returns (ok: bool)
      modifies this`videoEnabled
      ensures old(videoEnabled) ==> ok && videoEnabled
      ensures !old(videoEnabled) ==> ok == captureStarted && videoEnabled == captureStarted
    {
      if videoEnabled {
        return true;
      }
      if captureStarted {
        videoEnabled := true;
        return true;
      }
      return false;
    }

    /** `disable_video` */
    method DisableVideo()
      modifies this`videoEnabled
      ensures !videoEnabled
    {
      if videoEnabled {
        videoEnabled := false;
      }
    }

    /**
      `process_incoming_video`: ignored while inactive; otherwise the sender gets a
      sequencer if it has none, and a frame that decoded is offered to it, an accepted
      frame being counted.
     */
    method ProcessIncomingVideo(senderId: string, sequenceNumber: int, captureTimestamp: real,
                                networkTimestamp: real, decoded: Option<seq<byte>>, now: real)
      requires Valid()
      modifies this`sequencers, this`Parts, this`totalFramesReceived, Parts
      ensures Valid()
      ensures !isActive ==> sequencers == old(sequencers) && totalFramesReceived == old(totalFramesReceived)
      ensures isActive ==> senderId in sequencers && sequencers == old(sequencers)[senderId := sequencers[senderId]]
      ensures senderId in old(sequencers) ==> sequencers == old(sequencers)
      ensures forall c :: c in old(sequencers) && c != senderId ==> unchanged(sequencers[c].Repr)
      ensures var admitted := if senderId in old(sequencers)
                              then old(sequencers[senderId].Accepts(sequenceNumber, captureTimestamp, networkTimestamp, now))
                              else Admits(0.0, {}, None, 0.0, sequenceNumber, captureTimestamp, networkTimestamp, now);
              totalFramesReceived == old(totalFramesReceived) + (if isActive && decoded.Some? && admitted then 1 else 0)
      // a new sender's sequencer starts empty; the decoded frame takes the step `add_frame` describes
      ensures isActive ==>
                var sq := sequencers[senderId];
                var known := senderId in old(sequencers);
                var a := if known then old(sq.inner.State()) else InitialState;
                var st := if known then old(sq.stats) else ChronologicalStats(0, 0, 0, 0.0);
                var v := if known then old(sq.validator.lastValidTimestamp) else 0.0;
                && (!known ==> sq.inner.maxBufferSize == OptimizedBufferSize)
                && (decoded.None? ==> sq.inner.State() == a && sq.stats == st && sq.validator.lastValidTimestamp == v)
                && (decoded.Some? ==>
                      FilteredAdd(a, st, v, sq.inner.State(), sq.stats, sq.validator.lastValidTimestamp,
                                  senderId, sq.inner.maxBufferSize, sequenceNumber, captureTimestamp,
                                  networkTimestamp, decoded.value, now))
    {
      if isActive {
        ReceiveVideo(senderId, sequenceNumber, captureTimestamp, networkTimestamp, decoded, now);
      }
    }

    /** The active branch of `process_incoming_video`. */
    method ReceiveVideo(senderId: string, sequenceNumber: int, captureTimestamp: real,
                        networkTimestamp: real, decoded: Option<seq<byte>>, now: real)
      requires Valid()
      modifies this`sequencers, this`Parts, this`totalFramesReceived, Parts
      ensures Valid()
      ensures senderId in sequencers && sequencers == old(sequencers)[senderId := sequencers[senderId]]
      ensures senderId in old(sequencers) ==> sequencers == old(sequencers)
      ensures forall c :: c in old(sequencers) && c != senderId ==> unchanged(sequencers[c].Repr)
      ensures var admitted := if senderId in old(sequencers)
                              then old(sequencers[senderId].Accepts(sequenceNumber, captureTimestamp, networkTimestamp, now))
                              else Admits(0.0, {}, None, 0.0, sequenceNumber, captureTimestamp, networkTimestamp, now);
              totalFramesReceived == old(totalFramesReceived) + (if decoded.Some? && admitted then 1 else 0)
      ensures var sq := sequencers[senderId];
              var known := senderId in old(sequencers);
              var a := if known then old(sq.inner.State()) else InitialState;
              var st := if known then old(sq.stats) else ChronologicalStats(0, 0, 0, 0.0);
              var v := if known then old(sq.validator.lastValidTimestamp) else 0.0;
              && (!known ==> sq.inner.maxBufferSize == OptimizedBufferSize)
              && (decoded.None? ==> sq.inner.State() == a && sq.stats == st && sq.validator.lastValidTimestamp == v)
              && (decoded.Some? ==>
                    FilteredAdd(a, st, v, sq.inner.State(), sq.stats, sq.validator.lastValidTimestamp,
                                senderId, sq.inner.maxBufferSize, sequenceNumber, captureTimestamp,
                                networkTimestamp, decoded.value, now))
    {
      EnsureSequencer(senderId);
      assert sequencers[senderId].Accepts(sequenceNumber, captureTimestamp, networkTimestamp, now)
             <==> if senderId in old(sequencers)
                  then old(sequencers[senderId].Accepts(sequenceNumber, captureTimestamp, networkTimestamp, now))
                  else Admits(0.0, {}, None, 0.0, sequenceNumber, captureTimestamp, networkTimestamp, now);
      if decoded.Some? {
        CountOffer(senderId, sequenceNumber, captureTimestamp, networkTimestamp, decoded.value, now);
      }
    }

    /** Offers a decoded frame to the sender's sequencer and counts it when accepted. */
    method CountOffer(senderId: string, sequenceNumber: int, captureTimestamp: real,
                      networkTimestamp: real, frameData: seq<byte>, now: real)
      requires Valid() && senderId in sequencers
      modifies this`totalFramesReceived, sequencers[senderId].Repr
      ensures Valid()
      ensures totalFramesReceived == old(totalFramesReceived)
                + (if old(sequencers[senderId].Accepts(sequenceNumber, captureTimestamp, networkTimestamp, now)) then 1 else 0)
      ensures forall c :: c in sequencers && c != senderId ==> unchanged(sequencers[c].Repr)
      ensures var sq := sequencers[senderId];
              FilteredAdd(old(sq.inner.State()), old(sq.stats), old(sq.validator.lastValidTimestamp),
                          sq.inner.State(), sq.stats, sq.validator.lastValidTimestamp,
                          senderId, sq.inner.maxBufferSize, sequenceNumber, captureTimestamp,
                          networkTimestamp, frameData, now)
    {
      var ok := OfferFrame(senderId, sequenceNumber, captureTimestamp, networkTimestamp, frameData, now);
      if ok {
        totalFramesReceived := totalFramesReceived + 1;
      }
    }

    /** Hands a decoded frame to the sender's sequencer; nothing else in the table changes. */
    method OfferFrame(senderId: string, sequenceNumber: int, captureTimestamp: real,
                      networkTimestamp: real, frameData: seq<byte>, now: real) returns (accepted: bool)
      requires Valid() && senderId in sequencers
      modifies sequencers[senderId].Repr
      ensures Valid()
      ensures accepted <==> old(sequencers[senderId].Accepts(sequenceNumber, captureTimestamp, networkTimestamp, now))
      ensures forall c :: c in sequencers && c != senderId ==> unchanged(sequencers[c].Repr)
      // the sender's sequencer takes the step `add_frame` describes
      ensures var sq := sequencers[senderId];
              FilteredAdd(old(sq.inner.State()), old(sq.stats), old(sq.validator.lastValidTimestamp),
                          sq.inner.State(), sq.stats, sq.validator.lastValidTimestamp,
                          senderId, sq.inner.maxBufferSize, sequenceNumber, captureTimestamp,
                          networkTimestamp, frameData, now)
    {
      var sequencer := sequencers[senderId];
      accepted := sequencer.AddFrame(sequenceNumber, captureTimestamp, networkTimestamp, frameData, now);
      assert forall c :: c in sequencers && c != senderId ==> sequencers[c].Repr !! sequencer.Repr;
    }

    /** The get-or-create step of `process_incoming_video`. */
    method EnsureSequencer(senderId: string)
      requires Valid()
      modifies this`sequencers, this`Parts
      ensures Valid() && senderId in sequencers
      ensures sequencers == old(sequencers)[senderId := sequencers[senderId]]
      ensures senderId in old(sequencers) ==> sequencers == old(sequencers)
      ensures Parts == old(Parts) + (if senderId in old(sequencers) then {} else sequencers[senderId].Repr)
      ensures senderId !in old(sequencers) ==> fresh(sequencers[senderId].Repr)
      ensures senderId !in old(sequencers) ==>
                var inner := sequencers[senderId].inner;
                inner.lastDisplayedTimestamp == 0.0 && inner.sequenceBuffer == map[]
                && inner.baseTimestamp == None && inner.clockOffset == 0.0
      ensures senderId !in old(sequencers) ==>
                var sq := sequencers[senderId];
                && sq.inner.State() == InitialState && sq.inner.maxBufferSize == OptimizedBufferSize
                && sq.stats == ChronologicalStats(0, 0, 0, 0.0) && sq.validator.lastValidTimestamp == 0.0
    {
      if senderId !in sequencers {
        var created := new OptimizedFrameSequencer(senderId, OptimizedBufferSize);
        OwnersStayDisjoint(sequencers, Parts, senderId, created, sequencers[senderId := created]);
        sequencers := sequencers[senderId := created];
        Parts := Parts + created.Repr;
      }
    }

    /**
      `_on_remote_video_frame`: asks the client's sequencer for its next frame; when one
      comes out the accuracy figures are copied from that sequencer's statistics.
     */
    method OnRemoteVideoFrame(clientId: string, now: real) returns (displayed: Option<TimestampedFrame>)
      requires Valid()
      modifies this`chronologicalAccuracy, this`temporalJumpsPrevented, Parts
      ensures Valid() && sequencers == old(sequencers)
      ensures clientId !in sequencers ==> displayed == None && unchanged(Parts)
      ensures forall c :: c in sequencers && c != clientId ==> unchanged(sequencers[c].Repr)
      ensures displayed.Some? ==> clientId in sequencers && displayed.value.clientId == clientId
      ensures displayed.Some? && sequencers[clientId].stats.framesProcessed > 0 ==>
                chronologicalAccuracy == sequencers[clientId].stats.perfectOrderingRate
                && temporalJumpsPrevented == sequencers[clientId].stats.temporalJumpsPrevented
      // with nothing shown, or nothing processed yet, the figures are kept
      ensures displayed.None? || sequencers[clientId].stats.framesProcessed == 0 ==>
                chronologicalAccuracy == old(chronologicalAccuracy)
                && temporalJumpsPrevented == old(temporalJumpsPrevented)
      // the client's sequencer takes the step `get_next_frame` describes, and its frame is the one shown
      ensures clientId in sequencers ==>
                var sq := sequencers[clientId];
                && FilteredRelease(old(sq.inner.State()), old(sq.stats), sq.inner.State(), sq.stats, displayed, now)
                && unchanged(sq.validator)
    {
      displayed := None;
      if clientId in sequencers {
        var sequencer := sequencers[clientId];
        displayed := NextFrom(clientId, sequencer, now);
        if displayed.Some? {
          if sequencer.stats.framesProcessed > 0 {
            chronologicalAccuracy := sequencer.stats.perfectOrderingRate;
            temporalJumpsPrevented := sequencer.stats.temporalJumpsPrevented;
          }
        }
      }
    }

    /** The sequencer step of `_on_remote_video_frame`: only the client's own sequencer changes. */
    method NextFrom(clientId: string, sequencer: OptimizedFrameSequencer, now: real) returns (displayed: Option<TimestampedFrame>)
      requires Valid() && clientId in sequencers && sequencers[clientId] == sequencer
      modifies sequencer.Repr
      ensures Valid()
      ensures forall c :: c in sequencers && c != clientId ==> unchanged(sequencers[c].Repr)
      ensures displayed.Some? ==> displayed.value.clientId == clientId
      ensures FilteredRelease(old(sequencer.inner.State()), old(sequencer.stats), sequencer.inner.State(), sequencer.stats, displayed, now)
      ensures unchanged(sequencer.validator)
    {
      displayed := sequencer.GetNextFrame(now);
      forall c | c in sequencers && c != clientId
        ensures unchanged(sequencers[c].Repr) && sequencers[c].Valid()
      {
        assert sequencers[c].Repr !! sequencer.Repr;
      }
    }

    /** `_on_video_stream_status`: a stream reported inactive loses its sequencer. */
    method OnVideoStreamStatus(clientId: string, active: bool)
      requires Valid()
      modifies this`sequencers
      ensures Valid()
      ensures sequencers == if active then old(sequencers) else old(sequencers) - {clientId}
    {
      if !active {
        if clientId in sequencers {
          sequencers := sequencers - {clientId};
        }
      }
    }
  }
}
