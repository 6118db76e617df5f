/**
  Per-source chronological reorder buffer (client/frame_sequencer.py).

  A `FrameSequencer` keeps a min-heap of `(capture_timestamp, sequence)` entries
  and a dictionary from sequence number to frame. Entries whose frame has left the
  dictionary stay in the heap and are skipped when popped (lazy deletion). The heap
  is modelled as a sequence kept sorted by the same lexicographic order, so that the
  head is what `heapq.heappop` returns.
 */
module FrameSequencing {
  import opened Wrappers
  import opened Bytes

  /** A received frame together with its timing information. */
  datatype TimestampedFrame = TimestampedFrame(
    sequenceNumber: int,
    captureTimestamp: real,
    networkTimestamp: real,
    arrivalTimestamp: real,
    frameData: seq<byte>,
    clientId: string)

  /** One heap entry: the tuple `(capture_timestamp, sequence_number)`. */
  datatype HeapEntry = HeapEntry(captureTimestamp: real, sequenceNumber: int)

  /** Python's tuple order on heap entries. */
  predicate EntryLe(a: HeapEntry, b: HeapEntry)
  {
    a.captureTimestamp < b.captureTimestamp
    || (a.captureTimestamp == b.captureTimestamp && a.sequenceNumber <= b.sequenceNumber)
  }

  predicate Sorted(h: seq<HeapEntry>)
  {
    forall i, j :: 0 <= i < j < |h| ==> EntryLe(h[i], h[j])
  }

  /** `heapq.heappush` followed by `heapq.heapify`: the entry joins the heap. */
  function HeapPush(h: seq<HeapEntry>, e: HeapEntry): (r: seq<HeapEntry>)
    requires Sorted(h)
    ensures Sorted(r)
    ensures multiset(r) == multiset(h) + multiset{e}
    ensures |r| == |h| + 1
  {
    if h == [] then [e]
    else if EntryLe(e, h[0]) then [e] + h
    else
      var rest := HeapPush(h[1..], e);
      assert h == [h[0]] + h[1..];
      PrependSorted(h[0], rest, h[1..], e);
      [h[0]] + rest
  }

  lemma PrependSorted(x: HeapEntry, rest: seq<HeapEntry>, tail: seq<HeapEntry>, e: HeapEntry)
    requires Sorted(rest) && multiset(rest) == multiset(tail) + multiset{e}
    requires forall i :: 0 <= i < |tail| ==> EntryLe(x, tail[i])
    requires !EntryLe(e, x)
    ensures Sorted([x] + rest)
  {
    forall j | 0 <= j < |rest|
      ensures EntryLe(x, rest[j])
    {
      assert rest[j] in multiset(rest);
      if rest[j] != e {
        assert rest[j] in multiset(tail);
        assert rest[j] in tail;
      }
    }
  }

  /** Every entry of the heap is still there after a push. */
  lemma PushKeeps(h: seq<HeapEntry>, e: HeapEntry)
    requires Sorted(h)
    ensures e in HeapPush(h, e)
    ensures forall x :: x in h ==> x in HeapPush(h, e)
  {
    var r := HeapPush(h, e);
    assert e in multiset(r);
    forall x | x in h
      ensures x in r
    {
      assert x in multiset(h);
      assert x in multiset(r);
    }
  }

  /** Pushing back the entry just popped restores the heap exactly. */
  lemma PushBackHead(h: seq<HeapEntry>)
    requires Sorted(h) && h != []
    ensures HeapPush(h[1..], h[0]) == h
  {
    if |h| > 1 {
      assert EntryLe(h[0], h[1]);
    }
  }

  const MaxFrameAge: real := 0.5
  /** A head frame this much older than the last displayed one is refused. */
  const StaleTolerance: real := 0.005
  /** How long a frame two ahead of the last displayed one waits for the missing one. */
  const SmallGapWait: real := 0.01
  /** A frame behind in sequence must be this much newer than the last displayed one. */
  const DuplicateMargin: real := 0.001

  /**
    Verdict of `_is_frame_ready_for_synchronized_display`. `Ready` carries the number
    of sequence numbers skipped (added to `sequence_gaps`); `Stale` is the refusal
    that also counts the frame in `frames_dropped_old` (without dropping it).
   */
  datatype Readiness = Ready(gapsSkipped: nat) | Waiting | Stale

  /** The frame was captured more than StaleTolerance before the last displayed one. */
  predicate TooOld(lastTs: real, f: TimestampedFrame)
  {
    f.captureTimestamp < lastTs && lastTs - f.captureTimestamp > StaleTolerance
  }

  function CheckReadiness(lastSeq: int, lastTs: real, f: TimestampedFrame, now: real): (r: Readiness)
    // the first frame ever displayed never waits
    ensures lastSeq == -1 ==> r == Ready(0)
    // a released frame is never more than StaleTolerance older than the last displayed one
    ensures lastSeq != -1 && r.Ready? ==> f.captureTimestamp >= lastTs - StaleTolerance
    // a frame behind (or equal) in sequence is released only when strictly newer by the margin
    ensures lastSeq != -1 && f.sequenceNumber <= lastSeq ==>
              (r.Ready? <==> f.captureTimestamp > lastTs + DuplicateMargin)
    // the gap counter grows only by the numbers actually skipped
    ensures r.Ready? && r.gapsSkipped > 0 ==> f.sequenceNumber - lastSeq == r.gapsSkipped + 1
    // a frame is refused as too old exactly when something was displayed and it is older by more than the tolerance
    ensures r == Stale <==> lastSeq != -1 && TooOld(lastTs, f)
    // a frame not too old that is next in sequence is always released
    ensures lastSeq != -1 && !TooOld(lastTs, f) && f.sequenceNumber - lastSeq == 1 ==> r == Ready(0)
    // a frame two ahead waits exactly while it arrived less than SmallGapWait ago, then skips one number
    ensures lastSeq != -1 && !TooOld(lastTs, f) && f.sequenceNumber - lastSeq == 2 ==>
              r == (if now - f.arrivalTimestamp < SmallGapWait then Waiting else Ready(1))
    // a frame further ahead is released at once, counting the numbers it skips
    ensures lastSeq != -1 && !TooOld(lastTs, f) && f.sequenceNumber - lastSeq > 2 ==>
              r == Ready(f.sequenceNumber - lastSeq - 1)
  {
    if lastSeq == -1 then Ready(0)
    else if TooOld(lastTs, f) then Stale
    else
      var gap := f.sequenceNumber - lastSeq;
      if gap == 1 then Ready(0)
      else if gap > 1 then
        if gap <= 2 && now - f.arrivalTimestamp < SmallGapWait then Waiting
        else Ready(gap - 1)
      else if f.captureTimestamp > lastTs + DuplicateMargin then Ready(0)
      else Waiting
  }

  /** A stale verdict does not depend on the clock: the frame stays refused. */
  lemma StaleIsPermanent(lastSeq: int, lastTs: real, f: TimestampedFrame, now: real, later: real)
    requires CheckReadiness(lastSeq, lastTs, f, now) == Stale
    ensures CheckReadiness(lastSeq, lastTs, f, later) == Stale
  {
  }

  /**
    The only wait that time resolves is the gap-of-two wait: once SmallGapWait has
    passed since arrival the frame is released, skipping exactly one number.
   */
  lemma SmallGapWaitIsBounded(lastSeq: int, lastTs: real, f: TimestampedFrame, now: real, later: real)
    requires CheckReadiness(lastSeq, lastTs, f, now) == Waiting
    requires f.sequenceNumber - lastSeq == 2
    requires later - f.arrivalTimestamp >= SmallGapWait
    ensures CheckReadiness(lastSeq, lastTs, f, later) == Ready(1)
  {
  }

  /** A waiting frame that is not two ahead waits forever: it is behind and not newer. */
  lemma WaitingBehindIsPermanent(lastSeq: int, lastTs: real, f: TimestampedFrame, now: real, later: real)
    requires CheckReadiness(lastSeq, lastTs, f, now) == Waiting
    requires f.sequenceNumber - lastSeq != 2
    ensures f.sequenceNumber <= lastSeq
    ensures CheckReadiness(lastSeq, lastTs, f, later) == Waiting
  {
  }

  /** Index of the first heap entry whose frame is still buffered (|h| if none). */
  function FirstLive(h: seq<HeapEntry>, buffer: map<int, TimestampedFrame>): (k: nat)
    ensures k <= |h|
    ensures forall i :: 0 <= i < k ==> h[i].sequenceNumber !in buffer
    ensures k < |h| ==> h[k].sequenceNumber in buffer
  {
    if h == [] then 0
    else if h[0].sequenceNumber in buffer then 0
    else 1 + FirstLive(h[1..], buffer)
  }

  /** The statistics dictionary, without the floating-point jitter average. */
  datatype SequencerStats = SequencerStats(
    framesReceived: nat,
    framesDisplayed: nat,
    framesDroppedOld: nat,
    framesDroppedDuplicate: nat,
    framesReordered: nat,
    sequenceGaps: nat)

  const ZeroStats := SequencerStats(0, 0, 0, 0, 0, 0)

  /** Frames in `buffer` that are no older than MaxFrameAge at time `now`. */
  function FreshPart(buffer: map<int, TimestampedFrame>, now: real): (m: map<int, TimestampedFrame>)
    ensures m.Keys <= buffer.Keys && |m| <= |buffer|
    ensures forall s :: s in m ==> m[s] == buffer[s] && now - m[s].arrivalTimestamp <= MaxFrameAge
    ensures forall s :: s in buffer && now - buffer[s].arrivalTimestamp <= MaxFrameAge ==> s in m
  {
    var m := map s | s in buffer && now - buffer[s].arrivalTimestamp <= MaxFrameAge :: buffer[s];
    SubmapCard(m, buffer);
    m
  }

  /**
    `kept` is what the capacity rule of `_cleanup_old_frames` may leave of `young`:
    all of it when it fits, otherwise exactly `capacity` frames none of which is
    older in capture time than a discarded one.
   */
  ghost predicate KeepsNewest(young: map<int, TimestampedFrame>, kept: map<int, TimestampedFrame>, capacity: nat)
  {
    && kept.Keys <= young.Keys
    && (forall s :: s in kept ==> kept[s] == young[s])
    && (if |young| <= capacity then kept == young else |kept| == capacity)
    && (forall k, d :: k in kept && d in young && d !in kept ==>
          young[d].captureTimestamp <= kept[k].captureTimestamp)
  }

  /** The mutable part of a `FrameSequencer`, as one value. */
  datatype SequencerState = SequencerState(
    frameHeap: seq<HeapEntry>,
    sequenceBuffer: map<int, TimestampedFrame>,
    lastDisplayedSequence: int,
    lastDisplayedTimestamp: real,
    baseTimestamp: Option<real>,
    clockOffset: real,
    stats: SequencerStats)

  /** What a new or reset sequencer holds. */
  const InitialState := SequencerState([], map[], -1, 0.0, None, 0.0, ZeroStats)

  /** The heap is sorted and every buffered frame is filed under its own sequence number. */
  predicate Consistent(a: SequencerState)
  {
    && Sorted(a.frameHeap)
    && forall q :: q in a.sequenceBuffer ==> a.sequenceBuffer[q].sequenceNumber == q
  }

  /**
    One `get_next_frame` call on state `a` at time `now`: the new state and the frame
    released, if any. The first live heap entry is popped (dead ones before it are
    discarded); a ready frame leaves the buffer and moves the markers, any other is
    pushed back, a stale one being counted.
   */
  function Release(a: SequencerState, now: real): (out: (SequencerState, Option<TimestampedFrame>))
    requires Consistent(a)
    ensures Consistent(out.0)
  {
    var k := FirstLive(a.frameHeap, a.sequenceBuffer);
    if k == |a.frameHeap| then (a.(frameHeap := []), None)
    else
      var e := a.frameHeap[k];
      var f := a.sequenceBuffer[e.sequenceNumber];
      var verdict := CheckReadiness(a.lastDisplayedSequence, a.lastDisplayedTimestamp, f, now);
      if verdict.Ready? then
        (a.(frameHeap := a.frameHeap[k + 1..],
            sequenceBuffer := a.sequenceBuffer - {e.sequenceNumber},
            lastDisplayedSequence := Max(a.lastDisplayedSequence, f.sequenceNumber),
            lastDisplayedTimestamp := MaxReal(a.lastDisplayedTimestamp, e.captureTimestamp),
            stats := a.stats.(framesDisplayed := a.stats.framesDisplayed + 1,
                              sequenceGaps := a.stats.sequenceGaps + verdict.gapsSkipped)),
         Some(f))
      else
        (a.(frameHeap := a.frameHeap[k..],
            stats := if verdict.Stale? then a.stats.(framesDroppedOld := a.stats.framesDroppedOld + 1) else a.stats),
         None)
  }

  /** `Release` spelled out field by field, with the candidate shown to be the least live entry. */
  lemma ReleaseSpelled(a: SequencerState, now: real)
    requires Consistent(a)
    ensures
      var out := Release(a, now);
      var k := FirstLive(a.frameHeap, a.sequenceBuffer);
      if k == |a.frameHeap| then out == (a.(frameHeap := []), None)
      else
        var e := a.frameHeap[k];
        var f := a.sequenceBuffer[e.sequenceNumber];
        var verdict := CheckReadiness(a.lastDisplayedSequence, a.lastDisplayedTimestamp, f, now);
        && (forall i :: 0 <= i < |a.frameHeap| && a.frameHeap[i].sequenceNumber in a.sequenceBuffer ==>
              EntryLe(e, a.frameHeap[i]))
        && (verdict.Ready? ==>
              out == (a.(frameHeap := a.frameHeap[k + 1..],
                         sequenceBuffer := a.sequenceBuffer - {e.sequenceNumber},
                         lastDisplayedSequence := Max(a.lastDisplayedSequence, f.sequenceNumber),
                         lastDisplayedTimestamp := MaxReal(a.lastDisplayedTimestamp, e.captureTimestamp),
                         stats := a.stats.(framesDisplayed := a.stats.framesDisplayed + 1,
                                           sequenceGaps := a.stats.sequenceGaps + verdict.gapsSkipped)),
                      Some(f)))
        && (!verdict.Ready? ==>
              out == (a.(frameHeap := a.frameHeap[k..],
                         stats := if verdict.Stale? then a.stats.(framesDroppedOld := a.stats.framesDroppedOld + 1) else a.stats),
                      None))
  {
    var k := FirstLive(a.frameHeap, a.sequenceBuffer);
    if k < |a.frameHeap| {
      LeastLiveEntry(a.frameHeap, k, a.sequenceBuffer);
    }
  }

  /**
    What one release does: a released frame is the frame of the least live heap entry,
    it was ready and it alone leaves the buffer; when nothing is released the buffer is
    untouched. The markers never move backwards and the clock fields stay.
   */
  lemma ReleaseFacts(a: SequencerState, now: real)
    requires Consistent(a)
    ensures var out := Release(a, now);
      && out.0.baseTimestamp == a.baseTimestamp && out.0.clockOffset == a.clockOffset
      && out.0.lastDisplayedSequence >= a.lastDisplayedSequence
      && out.0.lastDisplayedTimestamp >= a.lastDisplayedTimestamp
      && (out.1.None? ==> out.0.sequenceBuffer == a.sequenceBuffer)
      && (out.1.Some? ==>
            var f := out.1.value;
            var k := FirstLive(a.frameHeap, a.sequenceBuffer);
            && k < |a.frameHeap| && a.frameHeap[k].sequenceNumber == f.sequenceNumber
            && (forall i :: 0 <= i < |a.frameHeap| && a.frameHeap[i].sequenceNumber in a.sequenceBuffer ==>
                  EntryLe(a.frameHeap[k], a.frameHeap[i]))
            && f.sequenceNumber in a.sequenceBuffer && a.sequenceBuffer[f.sequenceNumber] == f
            && CheckReadiness(a.lastDisplayedSequence, a.lastDisplayedTimestamp, f, now).Ready?
            && out.0.sequenceBuffer == a.sequenceBuffer - {f.sequenceNumber}
            && |out.0.sequenceBuffer| == |a.sequenceBuffer| - 1
            && out.0.lastDisplayedSequence == Max(a.lastDisplayedSequence, f.sequenceNumber)
            && out.0.stats.framesDisplayed == a.stats.framesDisplayed + 1)
  {
    var k := FirstLive(a.frameHeap, a.sequenceBuffer);
    if k < |a.frameHeap| {
      LeastLiveEntry(a.frameHeap, k, a.sequenceBuffer);
      MapRemoveSize(a.sequenceBuffer, a.frameHeap[k].sequenceNumber);
    }
  }

  /** The clock offset `add_frame` measures the frame's age with: fixed by the first frame. */
  function OffsetFor(a: SequencerState, networkTimestamp: real, now: real): real
  {
    if a.baseTimestamp.None? then now - networkTimestamp else a.clockOffset
  }

  /** Whether `add_frame` on state `a` accepts the frame: its number is new and it is not too old. */
  predicate AddAccepts(a: SequencerState, sequenceNumber: int, networkTimestamp: real, now: real)
  {
    sequenceNumber !in a.sequenceBuffer && now - (networkTimestamp + OffsetFor(a, networkTimestamp, now)) <= MaxFrameAge
  }

  /**
    `b` is a state `add_frame` may leave after state `a` (of the source `clientId`, with
    the given capacity) received the frame at time `now`: the base timestamp and offset
    are fixed by the first frame, the markers stay, a refused frame changes only the
    counters, and an accepted frame is filed, pushed on the heap and followed by the
    clean-up.
   */
  ghost predicate Added(a: SequencerState, b: SequencerState, clientId: string, capacity: nat,
                        sequenceNumber: int, captureTimestamp: real, networkTimestamp: real,
                        frameData: seq<byte>, now: real)
  {
    var f := TimestampedFrame(sequenceNumber, captureTimestamp, networkTimestamp, now, frameData, clientId);
    var received := a.stats.(framesReceived := a.stats.framesReceived + 1);
    var grown := a.sequenceBuffer[sequenceNumber := f];
    && b.baseTimestamp == (if a.baseTimestamp.None? then Some(captureTimestamp) else a.baseTimestamp)
    && b.clockOffset == OffsetFor(a, networkTimestamp, now)
    && b.lastDisplayedSequence == a.lastDisplayedSequence
    && b.lastDisplayedTimestamp == a.lastDisplayedTimestamp
    && if sequenceNumber in a.sequenceBuffer then
         && b.frameHeap == a.frameHeap && b.sequenceBuffer == a.sequenceBuffer
         && b.stats == received.(framesDroppedDuplicate := a.stats.framesDroppedDuplicate + 1)
       else if !AddAccepts(a, sequenceNumber, networkTimestamp, now) then
         && b.frameHeap == a.frameHeap && b.sequenceBuffer == a.sequenceBuffer
         && b.stats == received.(framesDroppedOld := a.stats.framesDroppedOld + 1)
       else
         && Sorted(a.frameHeap)
         && b.frameHeap == HeapPush(a.frameHeap, HeapEntry(captureTimestamp, sequenceNumber))
         && KeepsNewest(FreshPart(grown, now), b.sequenceBuffer, capacity)
         && b.stats == received.(framesDroppedOld := a.stats.framesDroppedOld + (|grown| - |FreshPart(grown, now)|))
  }

  /**
    The inner loop of `_processing_loop` for one source, on values: up to `budget`
    `get_next_frame` calls, stopping at the first that releases nothing. Without a
    callback the loop stops after its first call, so a frame that call released is
    consumed and lost.
   */
  function Drain(a: SequencerState, now: real, hasCallback: bool, budget: nat): (out: (SequencerState, seq<TimestampedFrame>))
    requires Consistent(a)
    decreases budget
    ensures Consistent(out.0)
  {
    if budget == 0 then (a, [])
    else
      var step := Release(a, now);
      if step.1.Some? && hasCallback then
        var rest := Drain(step.0, now, hasCallback, budget - 1);
        (rest.0, [step.1.value] + rest.1)
      else (step.0, [])
  }

  /**
    How much a drain does: at most `budget` frames, none without a callback (a frame the
    single call then released is lost with the state it leaves); with a callback exactly
    the frames handed over leave the buffer; the last displayed number never goes back.
   */
  lemma {:induction false} DrainFacts(a: SequencerState, now: real, hasCallback: bool, budget: nat)
    requires Consistent(a)
    decreases budget
    ensures var out := Drain(a, now, hasCallback, budget);
      && |out.1| <= budget
      && (!hasCallback ==> out.1 == [])
      && (!hasCallback && budget > 0 ==> out.0 == Release(a, now).0)
      && (hasCallback ==> |out.0.sequenceBuffer| == |a.sequenceBuffer| - |out.1|)
      && out.0.lastDisplayedSequence >= a.lastDisplayedSequence
  {
    if budget > 0 {
      var step := Release(a, now);
      ReleaseFacts(a, now);
      if step.1.Some? && hasCallback {
        DrainFacts(step.0, now, hasCallback, budget - 1);
      }
    }
  }

  /**
    What a drain takes from the buffer: nothing enters it, what stays is unchanged, and
    every frame handed over was buffered and has left it.
   */
  lemma {:induction false} DrainTakes(a: SequencerState, now: real, hasCallback: bool, budget: nat)
    requires Consistent(a)
    decreases budget
    ensures var out := Drain(a, now, hasCallback, budget);
      && out.0.sequenceBuffer.Keys <= a.sequenceBuffer.Keys
      && (forall q :: q in out.0.sequenceBuffer ==> out.0.sequenceBuffer[q] == a.sequenceBuffer[q])
      && (forall f :: f in out.1 ==>
            && f.sequenceNumber in a.sequenceBuffer && a.sequenceBuffer[f.sequenceNumber] == f
            && f.sequenceNumber !in out.0.sequenceBuffer)
  {
    if budget > 0 {
      var step := Release(a, now);
      ReleaseFacts(a, now);
      if step.1.Some? && hasCallback {
        DrainTakes(step.0, now, hasCallback, budget - 1);
      }
    }
  }

  class FrameSequencer {
    const clientId: string
    const maxBufferSize: nat

    var frameHeap: seq<HeapEntry>
    var sequenceBuffer: map<int, TimestampedFrame>
    var lastDisplayedSequence: int
    var lastDisplayedTimestamp: real
    var baseTimestamp: Option<real>
    var clockOffset: real
    var stats: SequencerStats

    /**
      The heap is sorted, every buffered frame is filed under its own sequence number,
      belongs to this source and still has its own heap entry, and the buffer never
      exceeds its capacity.
     */
    ghost predicate Valid()
      reads this`frameHeap, this`sequenceBuffer
    {
      && Sorted(frameHeap)
      && |sequenceBuffer| <= maxBufferSize
      && forall s :: s in sequenceBuffer ==>
           && sequenceBuffer[s].sequenceNumber == s
           && sequenceBuffer[s].clientId == clientId
           && HeapEntry(sequenceBuffer[s].captureTimestamp, s) in frameHeap
    }

    /** The sequencer's mutable fields, as one value. */
    function State(): SequencerState
      reads this
    {
      SequencerState(frameHeap, sequenceBuffer, lastDisplayedSequence, lastDisplayedTimestamp,
                     baseTimestamp, clockOffset, stats)
    }

    constructor (clientId: string, maxBufferSize: nat)
      ensures Valid() && State() == InitialState
      ensures this.clientId == clientId && this.maxBufferSize == maxBufferSize
      ensures frameHeap == [] && sequenceBuffer == map[]
      ensures lastDisplayedSequence == -1 && lastDisplayedTimestamp == 0.0
      ensures baseTimestamp == None && clockOffset == 0.0 && stats == ZeroStats
    {
      this.clientId := clientId;
      this.maxBufferSize := maxBufferSize;
      frameHeap := [];
      sequenceBuffer := map[];
      lastDisplayedSequence := -1;
      lastDisplayedTimestamp := 0.0;
      baseTimestamp := None;
      clockOffset := 0.0;
      stats := ZeroStats;
    }

    /**
      `add_frame` with arrival time `now`. The first frame since construction or reset
      fixes the clock offset; a duplicate sequence number or a frame older than
      MaxFrameAge (by the sender's clock shifted by the offset) is refused and counted.
     */
    method AddFrame(sequenceNumber: int, captureTimestamp: real, networkTimestamp: real,
                    frameData: seq<byte>, now: real) returns (accepted: bool)
      requires Valid()
      modifies this
      ensures Valid()
      ensures baseTimestamp == (if old(baseTimestamp).None? then Some(captureTimestamp) else old(baseTimestamp))
      ensures clockOffset == (if old(baseTimestamp).None? then now - networkTimestamp else old(clockOffset))
      ensures accepted <==>
                sequenceNumber !in old(sequenceBuffer)
                && now - (networkTimestamp + clockOffset) <= MaxFrameAge
      ensures lastDisplayedSequence == old(lastDisplayedSequence)
      ensures lastDisplayedTimestamp == old(lastDisplayedTimestamp)
      ensures !accepted ==> sequenceBuffer == old(sequenceBuffer) && frameHeap == old(frameHeap)
      ensures sequenceNumber in old(sequenceBuffer) ==>
                stats == old(stats).(framesReceived := old(stats).framesReceived + 1,
                                     framesDroppedDuplicate := old(stats).framesDroppedDuplicate + 1)
      ensures sequenceNumber !in old(sequenceBuffer) && !accepted ==>
                stats == old(stats).(framesReceived := old(stats).framesReceived + 1,
                                     framesDroppedOld := old(stats).framesDroppedOld + 1)
      ensures accepted ==>
                var f := TimestampedFrame(sequenceNumber, captureTimestamp, networkTimestamp, now, frameData, clientId);
                && frameHeap == HeapPush(old(frameHeap), HeapEntry(captureTimestamp, sequenceNumber))
                && KeepsNewest(FreshPart(old(sequenceBuffer)[sequenceNumber := f], now), sequenceBuffer, maxBufferSize)
                && stats.framesReceived == old(stats).framesReceived + 1
                && stats.framesDroppedOld == old(stats).framesDroppedOld
                     + (|old(sequenceBuffer)[sequenceNumber := f]| - |FreshPart(old(sequenceBuffer)[sequenceNumber := f], now)|)
      // the whole new state
      ensures accepted == AddAccepts(old(State()), sequenceNumber, networkTimestamp, now)
      ensures Added(old(State()), State(), clientId, maxBufferSize, sequenceNumber, captureTimestamp,
                    networkTimestamp, frameData, now)
    {
      stats := stats.(framesReceived := stats.framesReceived + 1);
      if baseTimestamp.None? {
        baseTimestamp := Some(captureTimestamp);
        clockOffset := now - networkTimestamp;
      }
      if sequenceNumber in sequenceBuffer {
        stats := stats.(framesDroppedDuplicate := stats.framesDroppedDuplicate + 1);
        return false;
      }
      var frameAge := now - (networkTimestamp + clockOffset);
      if frameAge > MaxFrameAge {
        stats := stats.(framesDroppedOld := stats.framesDroppedOld + 1);
        return false;
      }
      StoreFrame(TimestampedFrame(sequenceNumber, captureTimestamp, networkTimestamp, now, frameData, clientId), now);
      accepted := true;
    }

    /** The accepting tail of `add_frame`: file the frame, push its heap entry, clean up. */
    method StoreFrame(f: TimestampedFrame, now: real)
      requires Valid()
      requires f.sequenceNumber !in sequenceBuffer && f.clientId == clientId
      modifies this`sequenceBuffer, this`stats, this`frameHeap
      ensures Valid()
      ensures frameHeap == HeapPush(old(frameHeap), HeapEntry(f.captureTimestamp, f.sequenceNumber))
      ensures KeepsNewest(FreshPart(old(sequenceBuffer)[f.sequenceNumber := f], now), sequenceBuffer, maxBufferSize)
      ensures stats == old(stats).(framesDroppedOld := old(stats).framesDroppedOld
                + (|old(sequenceBuffer)[f.sequenceNumber := f]| - |FreshPart(old(sequenceBuffer)[f.sequenceNumber := f], now)|))
    {
      MapUpdateSize(sequenceBuffer, f.sequenceNumber, f);
      sequenceBuffer := sequenceBuffer[f.sequenceNumber := f];
      PushKeeps(frameHeap, HeapEntry(f.captureTimestamp, f.sequenceNumber));
      frameHeap := HeapPush(frameHeap, HeapEntry(f.captureTimestamp, f.sequenceNumber));
      CleanupOldFrames(now);
    }

    /**
      `_cleanup_old_frames`: drops (and counts) every frame older than MaxFrameAge, then,
      if the buffer is still over capacity, keeps only the frames with the latest capture
      timestamps. Capacity evictions are not counted; heap entries stay behind.
     */
    method CleanupOldFrames(now: real)
      requires Sorted(frameHeap)
      requires |sequenceBuffer| <= maxBufferSize + 1
      requires forall s :: s in sequenceBuffer ==>
                 && sequenceBuffer[s].sequenceNumber == s
                 && sequenceBuffer[s].clientId == clientId
                 && HeapEntry(sequenceBuffer[s].captureTimestamp, s) in frameHeap
      modifies this`sequenceBuffer, this`stats
      ensures Valid()
      ensures KeepsNewest(FreshPart(old(sequenceBuffer), now), sequenceBuffer, maxBufferSize)
      ensures stats == old(stats).(framesDroppedOld := old(stats).framesDroppedOld
                                     + (|old(sequenceBuffer)| - |FreshPart(old(sequenceBuffer), now)|))
    {
      PurgeExpired(now);
      EnforceCapacity();
    }

    /** The age rule of `_cleanup_old_frames`: every frame older than MaxFrameAge goes, and is counted. */
    method PurgeExpired(now: real)
      modifies this`sequenceBuffer, this`stats
      ensures sequenceBuffer == FreshPart(old(sequenceBuffer), now)
      ensures stats == old(stats).(framesDroppedOld := old(stats).framesDroppedOld
                                     + (|old(sequenceBuffer)| - |sequenceBuffer|))
    {
      ghost var original := sequenceBuffer;
      ghost var young := FreshPart(original, now);
      var pending := sequenceBuffer.Keys;
      while pending != {}
        invariant pending <= original.Keys
        invariant sequenceBuffer.Keys <= original.Keys
        invariant forall s :: s in sequenceBuffer ==> sequenceBuffer[s] == original[s]
        invariant forall s :: s in original && s !in pending ==>
                    (s in sequenceBuffer <==> now - original[s].arrivalTimestamp <= MaxFrameAge)
        invariant pending <= sequenceBuffer.Keys
        invariant |sequenceBuffer| <= |original|
        invariant stats == old(stats).(framesDroppedOld := old(stats).framesDroppedOld + (|original| - |sequenceBuffer|))
        decreases pending
      {
        var s := Pick(pending);
        pending := pending - {s};
        if now - sequenceBuffer[s].arrivalTimestamp > MaxFrameAge {
          MapRemoveSize(sequenceBuffer, s);
          sequenceBuffer := sequenceBuffer - {s};
          stats := stats.(framesDroppedOld := stats.framesDroppedOld + 1);
        }
      }
      forall s
        ensures s in sequenceBuffer <==> s in young
      {
        if s in original { assert s !in pending; }
      }
      forall s | s in sequenceBuffer
        ensures sequenceBuffer[s] == young[s]
      {
      }
    }

    /** The capacity rule of `_cleanup_old_frames`: frames with the earliest capture timestamps go first. */
    method EnforceCapacity()
      modifies this`sequenceBuffer
      ensures KeepsNewest(old(sequenceBuffer), sequenceBuffer, maxBufferSize)
    {
      ghost var young := sequenceBuffer;
      if |sequenceBuffer| > maxBufferSize {
        while |sequenceBuffer| > maxBufferSize
          invariant sequenceBuffer.Keys <= young.Keys
          invariant forall s :: s in sequenceBuffer ==> sequenceBuffer[s] == young[s]
          invariant |sequenceBuffer| >= maxBufferSize
          invariant forall k, d :: k in sequenceBuffer && d in young && d !in sequenceBuffer ==>
                      young[d].captureTimestamp <= young[k].captureTimestamp
          decreases |sequenceBuffer|
        {
          var oldest := OldestFrame(sequenceBuffer);
          MapRemoveSize(sequenceBuffer, oldest);
          sequenceBuffer := sequenceBuffer - {oldest};
        }
      }
    }

    /**
      The popping loop of `get_next_frame`: pops heap entries, discarding those whose
      frame is no longer buffered, and returns the first live one it pops (None when
      the heap runs out).
     */
    method PopFirstLive() returns (entry: Option<HeapEntry>)
      requires Valid()
      modifies this`frameHeap
      ensures Sorted(frameHeap)
      ensures
        var k := FirstLive(old(frameHeap), sequenceBuffer);
        if k == |old(frameHeap)| then entry == None && frameHeap == []
        else entry == Some(old(frameHeap)[k]) && frameHeap == old(frameHeap)[k + 1..]
    {
      ghost var h0 := frameHeap;
      ghost var popped := 0;
      while frameHeap != []
        invariant 0 <= popped <= FirstLive(h0, sequenceBuffer)
        invariant frameHeap == h0[popped..]
        decreases |frameHeap|
      {
        var head := frameHeap[0];
        frameHeap := frameHeap[1..];
        if head.sequenceNumber !in sequenceBuffer {
          popped := popped + 1;
          continue;
        }
        return Some(head);
      }
      return None;
    }

    /**
      `get_next_frame` at time `now`: takes the first live heap entry; releases its frame
      if it is ready, otherwise pushes the entry back and returns None.
     */
    method GetNextFrame(now: real) returns (r: Option<TimestampedFrame>)
      requires Valid()
      modifies this`frameHeap, this`sequenceBuffer, this`lastDisplayedSequence, this`lastDisplayedTimestamp, this`stats
      ensures Valid()
      // the last-displayed markers never move backwards
      ensures lastDisplayedSequence >= old(lastDisplayedSequence)
      ensures lastDisplayedTimestamp >= old(lastDisplayedTimestamp)
      // whatever is released came out of this source's buffer and has left it
      ensures r.Some? ==> r.value.clientId == clientId && r.value.sequenceNumber in old(sequenceBuffer)
                          && r.value.sequenceNumber !in sequenceBuffer
                          && lastDisplayedSequence == Max(old(lastDisplayedSequence), r.value.sequenceNumber)
                          && |sequenceBuffer| == |old(sequenceBuffer)| - 1
      ensures r.None? ==> sequenceBuffer == old(sequenceBuffer)
      ensures
        var k := FirstLive(old(frameHeap), old(sequenceBuffer));
        if k == |old(frameHeap)| then
          && r == None && frameHeap == []
          && sequenceBuffer == old(sequenceBuffer) && stats == old(stats)
          && lastDisplayedSequence == old(lastDisplayedSequence)
          && lastDisplayedTimestamp == old(lastDisplayedTimestamp)
        else
          var e := old(frameHeap)[k];
          var f := old(sequenceBuffer)[e.sequenceNumber];
          var verdict := CheckReadiness(old(lastDisplayedSequence), old(lastDisplayedTimestamp), f, now);
          // the candidate is the least live entry of the heap
          && (forall i :: 0 <= i < |old(frameHeap)| && old(frameHeap)[i].sequenceNumber in old(sequenceBuffer) ==>
                EntryLe(e, old(frameHeap)[i]))
          && (verdict.Ready? ==>
                && r == Some(f)
                && frameHeap == old(frameHeap)[k + 1..]
                && sequenceBuffer == old(sequenceBuffer) - {e.sequenceNumber}
                && lastDisplayedSequence == Max(old(lastDisplayedSequence), f.sequenceNumber)
                && lastDisplayedTimestamp == MaxReal(old(lastDisplayedTimestamp), e.captureTimestamp)
                && stats == old(stats).(framesDisplayed := old(stats).framesDisplayed + 1,
                                        sequenceGaps := old(stats).sequenceGaps + verdict.gapsSkipped))
          && (!verdict.Ready? ==>
                && r == None
                && frameHeap == old(frameHeap)[k..]
                && sequenceBuffer == old(sequenceBuffer)
                && lastDisplayedSequence == old(lastDisplayedSequence)
                && lastDisplayedTimestamp == old(lastDisplayedTimestamp)
                && stats == (if verdict.Stale?
                             then old(stats).(framesDroppedOld := old(stats).framesDroppedOld + 1)
                             else old(stats)))
      // the whole new state
      ensures (State(), r) == Release(old(State()), now)
    {
      ghost var a := State();
      ReleaseSpelled(a, now);
      ReleaseFacts(a, now);
      r := ReleaseInPlace(now);
    }

    /** The work of `get_next_frame`, done in place: the state and frame `Release` describes. */
    method ReleaseInPlace(now: real) returns (r: Option<TimestampedFrame>)
      requires Valid()
      modifies this`frameHeap, this`sequenceBuffer, this`lastDisplayedSequence, this`lastDisplayedTimestamp, this`stats
      ensures Valid()
      ensures (State(), r) == Release(old(State()), now)
    {
      ghost var a := State();
      ghost var h0 := frameHeap;
      ghost var k := FirstLive(h0, sequenceBuffer);
      ghost var expected := Release(a, now);
      var popped := PopFirstLive();
      if popped.None? {
        assert expected == (a.(frameHeap := []), None);
        assert State() == a.(frameHeap := []);
        return None;
      }
      var entry := popped.value;
      var frame := sequenceBuffer[entry.sequenceNumber];
      var verdict := CheckReadiness(lastDisplayedSequence, lastDisplayedTimestamp, frame, now);
      if verdict.Ready? {
        ghost var want := a.(frameHeap := h0[k + 1..],
                             sequenceBuffer := sequenceBuffer - {entry.sequenceNumber},
                             lastDisplayedSequence := Max(lastDisplayedSequence, frame.sequenceNumber),
                             lastDisplayedTimestamp := MaxReal(lastDisplayedTimestamp, entry.captureTimestamp),
                             stats := stats.(framesDisplayed := stats.framesDisplayed + 1,
                                             sequenceGaps := stats.sequenceGaps + verdict.gapsSkipped));
        assert expected == (want, Some(frame));
        LiveEntriesSurvive(h0, k, sequenceBuffer);
        MapRemoveSize(sequenceBuffer, entry.sequenceNumber);
        sequenceBuffer := sequenceBuffer - {entry.sequenceNumber};
        lastDisplayedSequence := Max(lastDisplayedSequence, frame.sequenceNumber);
        lastDisplayedTimestamp := MaxReal(lastDisplayedTimestamp, entry.captureTimestamp);
        stats := stats.(framesDisplayed := stats.framesDisplayed + 1,
                        sequenceGaps := stats.sequenceGaps + verdict.gapsSkipped);
        r := Some(frame);
        assert State() == want;
      } else {
        ghost var want := a.(frameHeap := h0[k..],
                             stats := if verdict.Stale? then stats.(framesDroppedOld := stats.framesDroppedOld + 1) else stats);
        assert expected == (want, None);
        if verdict.Stale? {
          stats := stats.(framesDroppedOld := stats.framesDroppedOld + 1);
        }
        PushBackHead(h0[k..]);
        assert h0[k..][1..] == frameHeap;
        frameHeap := HeapPush(frameHeap, entry);
        r := None;
        assert State() == want;
      }
    }

    /** The state `reset` leaves behind: nothing buffered, nothing shown, no base timestamp. */
    predicate IsReset()
      reads this`frameHeap, this`sequenceBuffer, this`lastDisplayedSequence, this`baseTimestamp
    {
      frameHeap == [] && sequenceBuffer == map[] && lastDisplayedSequence == -1 && baseTimestamp == None
    }

    /** `reset`: empties the heap and buffer and forgets markers, clock offset and statistics. */
    method Reset()
      requires Valid()
      modifies this
      ensures Valid() && IsReset() && State() == InitialState
      ensures frameHeap == [] && sequenceBuffer == map[]
      ensures lastDisplayedSequence == -1 && lastDisplayedTimestamp == 0.0
      ensures baseTimestamp == None && clockOffset == 0.0 && stats == ZeroStats
    {
      frameHeap := [];
      sequenceBuffer := map[];
      lastDisplayedSequence := -1;
      lastDisplayedTimestamp := 0.0;
      baseTimestamp := None;
      clockOffset := 0.0;
      stats := ZeroStats;
    }
  }

  /** Index of a frame with the earliest capture timestamp (the first one `sorted(..., reverse=True)` cuts off). */
  method OldestFrame(buffer: map<int, TimestampedFrame>) returns (oldest: int)
    requires buffer != map[]
    ensures oldest in buffer
    ensures forall s :: s in buffer ==> buffer[oldest].captureTimestamp <= buffer[s].captureTimestamp
  {
    var remaining := buffer.Keys;
    oldest := Pick(remaining);
    remaining := remaining - {oldest};
    while remaining != {}
      invariant remaining <= buffer.Keys
      invariant oldest in buffer
      invariant forall s :: s in buffer && s !in remaining ==>
                  buffer[oldest].captureTimestamp <= buffer[s].captureTimestamp
      decreases remaining
    {
      var s := Pick(remaining);
      remaining := remaining - {s};
      if buffer[s].captureTimestamp < buffer[oldest].captureTimestamp {
        oldest := s;
      }
    }
  }

  /** In a sorted heap the first live entry is the least of the live entries. */
  lemma LeastLiveEntry(h: seq<HeapEntry>, k: nat, buffer: map<int, TimestampedFrame>)
    requires Sorted(h) && k < |h|
    requires forall i :: 0 <= i < k ==> h[i].sequenceNumber !in buffer
    ensures forall i :: 0 <= i < |h| && h[i].sequenceNumber in buffer ==> EntryLe(h[k], h[i])
  {
    forall i | 0 <= i < |h| && h[i].sequenceNumber in buffer
      ensures EntryLe(h[k], h[i])
    {
      if i != k { assert k < i; }
    }
  }

  /** After the first live entry is released, every other live frame keeps its entry in the rest of the heap. */
  lemma LiveEntriesSurvive(h: seq<HeapEntry>, k: nat, buffer: map<int, TimestampedFrame>)
    requires k < |h|
    requires forall i :: 0 <= i < k ==> h[i].sequenceNumber !in buffer
    ensures forall e :: e in h && e.sequenceNumber in buffer && e.sequenceNumber != h[k].sequenceNumber ==> e in h[k + 1..]
  {
    forall e | e in h && e.sequenceNumber in buffer && e.sequenceNumber != h[k].sequenceNumber
      ensures e in h[k + 1..]
    {
      var i :| 0 <= i < |h| && h[i] == e;
      assert i > k;
      assert h[k + 1..][i - k - 1] == e;
    }
  }

  /**
    The frames waiting in `s` are exactly the next `n` sequence numbers after the last
    displayed one, their capture timestamps increase with their sequence numbers and are
    not older than the last displayed timestamp, and no heap entry of a buffered frame
    carries a stale timestamp.
   */
  ghost predicate ConsecutiveRun(s: FrameSequencer, n: nat)
    reads s
  {
    var buffer := s.sequenceBuffer;
    && (forall i :: i in buffer <==> s.lastDisplayedSequence < i <= s.lastDisplayedSequence + n)
    && (forall i, j :: i in buffer && j in buffer && i < j ==> buffer[i].captureTimestamp < buffer[j].captureTimestamp)
    && (forall i :: i in buffer ==> buffer[i].captureTimestamp >= s.lastDisplayedTimestamp)
    && (forall e :: e in s.frameHeap && e.sequenceNumber in buffer ==>
          e.captureTimestamp == buffer[e.sequenceNumber].captureTimestamp)
  }

  /**
    In-order delivery: whatever order a consecutive run of frames arrived in, successive
    `get_next_frame` calls release it in sequence order, one frame per call.
   */
  method DrainConsecutiveRun(s: FrameSequencer, n: nat, now: real) returns (released: seq<int>)
    requires s.Valid() && ConsecutiveRun(s, n)
    modifies s
    ensures s.Valid()
    ensures released == seq(n, i => old(s.lastDisplayedSequence) + 1 + i)
    ensures s.sequenceBuffer == map[]
  {
    ghost var first := s.lastDisplayedSequence;
    released := [];
    var i := 0;
    while i < n
      invariant 0 <= i <= n
      invariant s.Valid() && ConsecutiveRun(s, n - i)
      invariant s.lastDisplayedSequence == first + i
      invariant released == seq(i, j => first + 1 + j)
    {
      var next := ReleaseNextOfRun(s, n - i, now);
      released := released + [next];
      i := i + 1;
    }
    assert s.sequenceBuffer.Keys == {} by {
      forall i | i in s.sequenceBuffer ensures false { }
    }
  }

  /** One `get_next_frame` call on a consecutive run releases its first frame. */
  method ReleaseNextOfRun(s: FrameSequencer, n: nat, now: real) returns (next: int)
    requires s.Valid() && ConsecutiveRun(s, n) && n > 0
    modifies s
    ensures s.Valid() && ConsecutiveRun(s, n - 1)
    ensures next == old(s.lastDisplayedSequence) + 1 && s.lastDisplayedSequence == next
  {
    next := s.lastDisplayedSequence + 1;
    RunHeadIsNext(s, n, now);
    var f := s.GetNextFrame(now);
    assert f.Some? && f.value.sequenceNumber == next;
    RunShrinks(s, n - 1, next);
  }

  /** In a consecutive run the first live heap entry is the next sequence number, and it is ready. */
  lemma RunHeadIsNext(s: FrameSequencer, n: nat, now: real)
    requires s.Valid() && ConsecutiveRun(s, n) && n > 0
    ensures
      var k := FirstLive(s.frameHeap, s.sequenceBuffer);
      && k < |s.frameHeap|
      && s.frameHeap[k].sequenceNumber == s.lastDisplayedSequence + 1
      && CheckReadiness(s.lastDisplayedSequence, s.lastDisplayedTimestamp,
                        s.sequenceBuffer[s.lastDisplayedSequence + 1], now).Ready?
  {
    var buffer := s.sequenceBuffer;
    var h := s.frameHeap;
    var next := s.lastDisplayedSequence + 1;
    assert next in buffer;
    var own := HeapEntry(buffer[next].captureTimestamp, next);
    assert own in h;
    var k := FirstLive(h, buffer);
    var j :| 0 <= j < |h| && h[j] == own;
    LeastLiveEntry(h, k, buffer);
    assert EntryLe(h[k], own);
  }

  /** Releasing the next frame of a run leaves a run one shorter. */
  lemma RunShrinks(s: FrameSequencer, n: nat, released: int)
    requires s.lastDisplayedSequence == released
    requires released !in s.sequenceBuffer
    requires forall i :: i in s.sequenceBuffer <==> released < i <= released + n
    requires forall i, j :: i in s.sequenceBuffer && j in s.sequenceBuffer && i < j ==>
               s.sequenceBuffer[i].captureTimestamp < s.sequenceBuffer[j].captureTimestamp
    requires forall i :: i in s.sequenceBuffer ==> s.sequenceBuffer[i].captureTimestamp >= s.lastDisplayedTimestamp
    requires forall e :: e in s.frameHeap && e.sequenceNumber in s.sequenceBuffer ==>
               e.captureTimestamp == s.sequenceBuffer[e.sequenceNumber].captureTimestamp
    ensures ConsecutiveRun(s, n)
  {
  }

  /**
    A late frame blocks the source. Frames 0 and 2 arrive, are displayed (2 after its
    10 ms wait), then frame 1 arrives late and frame 3 after it. Frame 1 heads the heap,
    is more than StaleTolerance older than frame 2, is refused and pushed back, and frame
    3 is held behind it on every later call.
   */
  method LateFrameBlocksScenario() returns (late: Option<TimestampedFrame>, later: Option<TimestampedFrame>)
    ensures late == None && later == None
  {
    var s := new FrameSequencer("peer", 10);
    ShowZeroThenTwo(s);
    AddLateOneAndThree(s);
    late := s.GetNextFrame(1.110);
    later := s.GetNextFrame(1.400);
  }

  /** Frames 0 and 2 arrive and are displayed; 2 only once it has waited 10 ms for 1. */
  method ShowZeroThenTwo(s: FrameSequencer)
    requires s.Valid() && s.clientId == "peer" && s.maxBufferSize == 10
    requires s.frameHeap == [] && s.sequenceBuffer == map[]
    requires s.lastDisplayedSequence == -1 && s.lastDisplayedTimestamp == 0.0 && s.baseTimestamp == None
    modifies s
    ensures s.Valid() && s.frameHeap == [] && s.sequenceBuffer == map[]
    ensures s.lastDisplayedSequence == 2 && s.lastDisplayedTimestamp == 1.066
    ensures s.clockOffset == 1.010 - 1.002 && s.baseTimestamp.Some?
  {
    AddZeroAndTwo(s);
    ShowZero(s);
    ShowTwoAfterWait(s);
  }

  /** Frame 0 is displayed at once: nothing has been displayed before it. */
  method ShowZero(s: FrameSequencer)
    requires s.Valid() && s.frameHeap == [HeapEntry(1.000, 0), HeapEntry(1.066, 2)]
    requires s.sequenceBuffer == map[0 := TimestampedFrame(0, 1.000, 1.002, 1.010, [], "peer"),
                                     2 := TimestampedFrame(2, 1.066, 1.068, 1.076, [], "peer")]
    requires s.lastDisplayedSequence == -1 && s.lastDisplayedTimestamp == 0.0
    modifies s
    ensures s.Valid() && s.frameHeap == [HeapEntry(1.066, 2)]
    ensures s.sequenceBuffer == map[2 := TimestampedFrame(2, 1.066, 1.068, 1.076, [], "peer")]
    ensures s.lastDisplayedSequence == 0 && s.lastDisplayedTimestamp == 1.000
    ensures s.clockOffset == old(s.clockOffset) && s.baseTimestamp == old(s.baseTimestamp)
  {
    var shown := s.GetNextFrame(1.080);
    assert shown == Some(TimestampedFrame(0, 1.000, 1.002, 1.010, [], "peer"));
  }

  /** Frame 2 is held while it may still be waiting for frame 1, and shown 10 ms after it arrived. */
  method ShowTwoAfterWait(s: FrameSequencer)
    requires s.Valid() && s.frameHeap == [HeapEntry(1.066, 2)]
    requires s.sequenceBuffer == map[2 := TimestampedFrame(2, 1.066, 1.068, 1.076, [], "peer")]
    requires s.lastDisplayedSequence == 0 && s.lastDisplayedTimestamp == 1.000
    modifies s
    ensures s.Valid() && s.frameHeap == [] && s.sequenceBuffer == map[]
    ensures s.lastDisplayedSequence == 2 && s.lastDisplayedTimestamp == 1.066
    ensures s.clockOffset == old(s.clockOffset) && s.baseTimestamp == old(s.baseTimestamp)
  {
    var shown := s.GetNextFrame(1.081);
    assert shown == None;
    shown := s.GetNextFrame(1.090);
    assert shown == Some(TimestampedFrame(2, 1.066, 1.068, 1.076, [], "peer"));
  }

  /** Frames 0 and 2 arrive in order and are both accepted. */
  method AddZeroAndTwo(s: FrameSequencer)
    requires s.Valid() && s.clientId == "peer" && s.maxBufferSize == 10
    requires s.frameHeap == [] && s.sequenceBuffer == map[]
    requires s.lastDisplayedSequence == -1 && s.lastDisplayedTimestamp == 0.0 && s.baseTimestamp == None
    modifies s
    ensures s.Valid() && s.frameHeap == [HeapEntry(1.000, 0), HeapEntry(1.066, 2)]
    ensures s.sequenceBuffer == map[0 := TimestampedFrame(0, 1.000, 1.002, 1.010, [], "peer"),
                                    2 := TimestampedFrame(2, 1.066, 1.068, 1.076, [], "peer")]
    ensures s.lastDisplayedSequence == -1 && s.lastDisplayedTimestamp == 0.0
    ensures s.clockOffset == 1.010 - 1.002 && s.baseTimestamp.Some?
  {
    var ok := s.AddFrame(0, 1.000, 1.002, [], 1.010);
    var f0 := TimestampedFrame(0, 1.000, 1.002, 1.010, [], "peer");
    assert s.clockOffset == 1.010 - 1.002;
    assert ok && s.frameHeap == [HeapEntry(1.000, 0)];
    assert s.sequenceBuffer == map[0 := f0];
    ok := s.AddFrame(2, 1.066, 1.068, [], 1.076);
    var f2 := TimestampedFrame(2, 1.066, 1.068, 1.076, [], "peer");
    assert ok && s.frameHeap == [HeapEntry(1.000, 0), HeapEntry(1.066, 2)];
    assert s.sequenceBuffer == map[0 := f0, 2 := f2];
  }

  /** Frame 1 arrives late, then frame 3; both are accepted. */
  method AddLateOneAndThree(s: FrameSequencer)
    requires s.Valid() && s.clientId == "peer" && s.maxBufferSize == 10
    requires s.frameHeap == [] && s.sequenceBuffer == map[]
    requires s.lastDisplayedSequence == 2 && s.lastDisplayedTimestamp == 1.066
    requires s.clockOffset == 1.010 - 1.002 && s.baseTimestamp.Some?
    modifies s
    ensures s.Valid()
    ensures s.frameHeap == [HeapEntry(1.033, 1), HeapEntry(1.100, 3)]
    ensures s.sequenceBuffer.Keys == {1, 3} && s.sequenceBuffer[1].captureTimestamp == 1.033
    ensures s.lastDisplayedSequence == 2 && s.lastDisplayedTimestamp == 1.066
  {
    var ok := s.AddFrame(1, 1.033, 1.035, [], 1.100);
    var f1 := TimestampedFrame(1, 1.033, 1.035, 1.100, [], "peer");
    assert ok && s.frameHeap == [HeapEntry(1.033, 1)] && s.sequenceBuffer == map[1 := f1];
    ok := s.AddFrame(3, 1.100, 1.102, [], 1.110);
    var f3 := TimestampedFrame(3, 1.100, 1.102, 1.110, [], "peer");
    assert ok && s.frameHeap == [HeapEntry(1.033, 1), HeapEntry(1.100, 3)];
    assert s.sequenceBuffer == map[1 := f1, 3 := f3];
  }

  /** Frames the processing loop takes from one source per tick. */
  const FramesPerClientPerTick: nat := 10

  /**
    `FrameSequencingManager`: one sequencer per registered client. The frame callbacks
    are represented by the set of clients that have one; what a callback does with a
    frame is the caller's business, so a processing tick returns the frames it hands over.
   */
  class FrameSequencingManager {
    var sequencers: map<string, FrameSequencer>
    var callbacks: set<string>
    const globalSyncEnabled: bool
    var globalBaseTimestamp: Option<real>
    var isProcessing: bool

    /** Every sequencer is valid and filed under its own client id (so no two clients share one). */
    ghost predicate Valid()
      reads this`sequencers, this`callbacks, sequencers.Values
    {
      && (forall c :: c in sequencers ==> sequencers[c].Valid() && sequencers[c].clientId == c)
      && callbacks == sequencers.Keys
    }

    constructor ()
      ensures Valid() && sequencers == map[] && callbacks == {}
      ensures globalSyncEnabled && globalBaseTimestamp == None && !isProcessing
    {
      sequencers := map[];
      callbacks := {};
      globalSyncEnabled := true;
      globalBaseTimestamp := None;
      isProcessing := false;
    }

    /** `register_client`: a new client gets a fresh sequencer and a callback; a known one is left alone. */
    method RegisterClient(clientId: string, maxBufferSize: nat)
      requires Valid()
      modifies this`sequencers, this`callbacks, this`isProcessing
      ensures Valid()
      ensures clientId in old(sequencers) ==>
                sequencers == old(sequencers) && callbacks == old(callbacks) && isProcessing == old(isProcessing)
      ensures clientId !in old(sequencers) ==>
                && clientId in sequencers
                && sequencers == old(sequencers)[clientId := sequencers[clientId]]
                && fresh(sequencers[clientId])
                && sequencers[clientId].IsReset()
                && sequencers[clientId].State() == InitialState
                && sequencers[clientId].maxBufferSize == maxBufferSize
                && callbacks == old(callbacks) + {clientId}
                && isProcessing
    {
      if clientId !in sequencers {
        var sequencer := new FrameSequencer(clientId, maxBufferSize);
        sequencers, callbacks := sequencers[clientId := sequencer], callbacks + {clientId};
        isProcessing := true;
      }
    }

    /** `unregister_client`: the client's sequencer and callback are dropped (if any). */
    method UnregisterClient(clientId: string)
      requires Valid()
      modifies this`sequencers, this`callbacks
      ensures Valid()
      ensures sequencers == old(sequencers) - {clientId}
      ensures callbacks == old(callbacks) - {clientId}
      ensures isProcessing == old(isProcessing) && globalBaseTimestamp == old(globalBaseTimestamp)
    {
      if clientId in sequencers {
        sequencers := sequencers - {clientId};
      }
      if clientId in callbacks {
        callbacks := callbacks - {clientId};
      }
    }

    /**
      `add_frame`: refused (with nothing changed) for an unregistered client; otherwise,
      with global sync on, the first frame seen by the manager fixes the global base
      timestamp, and the frame goes to the client's sequencer.
     */
    method AddFrame(clientId: string, sequenceNumber: int, captureTimestamp: real,
                    networkTimestamp: real, frameData: seq<byte>, now: real) returns (accepted: bool)
      requires Valid()
      modifies this`globalBaseTimestamp, sequencers.Values
      ensures Valid()
      ensures clientId !in sequencers ==>
                !accepted && globalBaseTimestamp == old(globalBaseTimestamp)
                && forall c :: c in sequencers ==> unchanged(sequencers[c])
      ensures clientId in sequencers ==>
                && globalBaseTimestamp == (if old(globalBaseTimestamp).None? && globalSyncEnabled
                                           then Some(captureTimestamp) else old(globalBaseTimestamp))
                && (forall c :: c in sequencers && c != clientId ==> unchanged(sequencers[c]))
                && (accepted <==> sequenceNumber !in old(sequencers[clientId].sequenceBuffer)
                                  && now - (networkTimestamp + sequencers[clientId].clockOffset) <= MaxFrameAge)
      // the client's sequencer takes the step its own `add_frame` describes
      ensures clientId in sequencers ==>
                var s := sequencers[clientId];
                && accepted == AddAccepts(old(s.State()), sequenceNumber, networkTimestamp, now)
                && Added(old(s.State()), s.State(), clientId, s.maxBufferSize, sequenceNumber, captureTimestamp,
                         networkTimestamp, frameData, now)
    {
      if clientId !in sequencers {
        return false;
      }
      if globalBaseTimestamp.None? && globalSyncEnabled {
        globalBaseTimestamp := Some(captureTimestamp);
      }
      accepted := sequencers[clientId].AddFrame(sequenceNumber, captureTimestamp, networkTimestamp, frameData, now);
    }

    /**
      One pass of `_processing_loop`: every registered client is asked for up to
      FramesPerClientPerTick frames, stopping at the first None; frames are handed to
      the client's callback, tagged with the client they belong to.
     */
    method ProcessingTick(now: real) returns (delivered: seq<(string, TimestampedFrame)>)
      requires Valid()
      modifies sequencers.Values
      ensures Valid()
      ensures |delivered| <= FramesPerClientPerTick * |sequencers|
      ensures TaggedBy(delivered, sequencers.Keys)
      // each client gets at most FramesPerClientPerTick frames
      ensures forall c :: c in sequencers ==> |FramesOf(delivered, c)| <= FramesPerClientPerTick
      // each client's sequencer is drained (every registered client has a callback), and its frames are handed over in release order
      ensures TickDrained(old(States()), States(), delivered, now)
    {
      ghost var before := States();
      ghost var target := TickTargets(before, now);
      TickStart(before, target);
      assert Ticking(before, target, now, [], {});
      delivered := TickClients(now, before, target);
      TickDone(before, now, target, States(), delivered, sequencers.Keys);
    }

    /** The loop of a tick over the registered clients, each taking its turn once, in no particular order. */
    method TickClients(now: real, ghost before: map<string, SequencerState>,
                       ghost target: map<string, (SequencerState, seq<TimestampedFrame>)>)
      returns (delivered: seq<(string, TimestampedFrame)>)
      requires Ticking(before, target, now, [], {})
      modifies sequencers.Values
      ensures Ticking(before, target, now, delivered, sequencers.Keys)
    {
      delivered := [];
      var todo := sequencers.Keys;
      ghost var done: set<string> := {};
      while todo != {}
        invariant Ticking(before, target, now, delivered, done)
        invariant todo + done == sequencers.Keys && todo !! done
        decreases |todo|
      {
        var clientId :| clientId in todo;
        delivered := TickClient(clientId, now, delivered, before, target, done);
        MoveOne(todo, done, clientId);
        todo := todo - {clientId};
        done := done + {clientId};
      }
      assert done == sequencers.Keys;
    }

    /**
      Part way through a tick that started from the states `before`, whose drains are
      `target`: the clients in `done` have had their turn, between them receiving no more
      than their budgets, and every frame handed over is tagged with its own client.
     */
    ghost predicate Ticking(before: map<string, SequencerState>, target: map<string, (SequencerState, seq<TimestampedFrame>)>,
                            now: real, delivered: seq<(string, TimestampedFrame)>, done: set<string>)
      reads this`sequencers, this`callbacks, sequencers.Values
    {
      && Valid()
      && done <= sequencers.Keys
      && target.Keys == before.Keys
      && (forall c :: c in before ==> Consistent(before[c]) && target[c] == Drain(before[c], now, true, FramesPerClientPerTick))
      && |delivered| <= FramesPerClientPerTick * |done|
      && TaggedBy(delivered, sequencers.Keys)
      && DrainedSoFar(before, target, States(), delivered, done)
    }

    /**
      One client's turn in a tick: its frames, handed to its callback, are added to
      `delivered`, and the client joins those already drained.
     */
    method TickClient(clientId: string, now: real, delivered: seq<(string, TimestampedFrame)>,
                      ghost before: map<string, SequencerState>,
                      ghost target: map<string, (SequencerState, seq<TimestampedFrame>)>,
                      ghost done: set<string>) returns (grown: seq<(string, TimestampedFrame)>)
      requires Ticking(before, target, now, delivered, done)
      requires clientId in sequencers && clientId !in done
      modifies sequencers[clientId]
      ensures Ticking(before, target, now, grown, done + {clientId})
    {
      ghost var prev := States();
      var frames := TickOne(clientId, now);
      TickClientDone(clientId, now, delivered, before, target, done, prev, frames);
      grown := delivered + Tagged(clientId, frames);
    }

    /** After one client's turn, the tick goes on with that client drained and its frames handed over. */
    lemma TickClientDone(clientId: string, now: real, delivered: seq<(string, TimestampedFrame)>,
                         before: map<string, SequencerState>,
                         target: map<string, (SequencerState, seq<TimestampedFrame>)>,
                         done: set<string>, prev: map<string, SequencerState>, frames: seq<TimestampedFrame>)
      requires Valid() && clientId in sequencers && clientId !in done && done <= sequencers.Keys
      requires target.Keys == before.Keys
      requires forall c :: c in before ==> Consistent(before[c]) && target[c] == Drain(before[c], now, true, FramesPerClientPerTick)
      requires |delivered| <= FramesPerClientPerTick * |done|
      requires TaggedBy(delivered, sequencers.Keys)
      requires DrainedSoFar(before, target, prev, delivered, done)
      requires prev.Keys == sequencers.Keys
      requires forall c :: c in sequencers && c != clientId ==> sequencers[c].State() == prev[c]
      requires (sequencers[clientId].State(), frames) == Drain(prev[clientId], now, true, FramesPerClientPerTick)
      requires |frames| <= FramesPerClientPerTick && forall f :: f in frames ==> f.clientId == clientId
      ensures Ticking(before, target, now, delivered + Tagged(clientId, frames), done + {clientId})
    {
      var next := States();
      TickStep(before, target, prev, next, delivered, done, clientId, frames);
      TaggedAppend(delivered, clientId, frames, sequencers.Keys);
      AddOneCard(done, clientId);
      BudgetStep(|delivered|, |frames|, |done|);
    }

    /** Every client's sequencer state, by client id. */
    ghost function States(): (m: map<string, SequencerState>)
      reads this`sequencers, sequencers.Values
      ensures m.Keys == sequencers.Keys
      ensures forall c :: c in m ==> m[c] == sequencers[c].State()
    {
      map c | c in sequencers :: sequencers[c].State()
    }

    /** The frames one client's sequencer releases in a tick; no other sequencer is touched. */
    method TickOne(clientId: string, now: real) returns (frames: seq<TimestampedFrame>)
      requires Valid() && clientId in sequencers
      modifies sequencers[clientId]
      ensures Valid()
      ensures |frames| <= FramesPerClientPerTick
      ensures forall f :: f in frames ==> f.clientId == clientId
      ensures forall c :: c in sequencers && c != clientId ==> unchanged(sequencers[c])
      ensures (sequencers[clientId].State(), frames)
              == Drain(old(sequencers[clientId].State()), now, clientId in callbacks, FramesPerClientPerTick)
    {
      frames := DrainSource(sequencers[clientId], clientId in callbacks, FramesPerClientPerTick, now);
    }

    /** Resets one client's sequencer; no other sequencer is touched. */
    method ResetOne(clientId: string)
      requires Valid() && clientId in sequencers
      modifies sequencers[clientId]
      ensures Valid() && sequencers[clientId].IsReset() && sequencers[clientId].State() == InitialState
      ensures forall c :: c in sequencers && c != clientId ==> unchanged(sequencers[c])
    {
      sequencers[clientId].Reset();
    }

    /** `stop_processing`: the loop stops; registrations are kept. */
    method StopProcessing()
      modifies this`isProcessing
      ensures !isProcessing
    {
      isProcessing := false;
    }

    /** `reset_all`: every sequencer is reset and the global base timestamp forgotten. */
    method ResetAll()
      requires Valid()
      modifies this`globalBaseTimestamp, sequencers.Values
      ensures Valid() && globalBaseTimestamp == None
      ensures forall c :: c in sequencers ==> sequencers[c].IsReset()
      // every sequencer is back in its initial state, statistics and clock offset included
      ensures forall c :: c in sequencers ==> sequencers[c].State() == InitialState
    {
      var pending := sequencers.Keys;
      while pending != {}
        invariant pending <= sequencers.Keys
        invariant Valid()
        invariant forall c :: c in sequencers && c !in pending ==> sequencers[c].State() == InitialState
        decreases pending
      {
        var clientId :| clientId in pending;
        pending := pending - {clientId};
        ResetOne(clientId);
      }
      globalBaseTimestamp := None;
    }
  }

  /** One more client's frames keep a tick within its per-client budget. */
  lemma BudgetStep(before: nat, added: nat, done: nat)
    requires before <= FramesPerClientPerTick * done && added <= FramesPerClientPerTick
    ensures before + added <= FramesPerClientPerTick * (done + 1)
  {}

  /** Every delivered frame belongs to a client in `ids`, and is tagged with that client's id. */
  ghost predicate TaggedBy(delivered: seq<(string, TimestampedFrame)>, ids: set<string>)
  {
    forall k :: 0 <= k < |delivered| ==> delivered[k].0 in ids && delivered[k].1.clientId == delivered[k].0
  }

  lemma TaggedAppend(delivered: seq<(string, TimestampedFrame)>, clientId: string,
                     frames: seq<TimestampedFrame>, ids: set<string>)
    requires TaggedBy(delivered, ids) && clientId in ids
    requires forall f :: f in frames ==> f.clientId == clientId
    ensures TaggedBy(delivered + Tagged(clientId, frames), ids)
  {
    var t := Tagged(clientId, frames);
    forall k | 0 <= k < |delivered + t|
      ensures (delivered + t)[k].0 in ids && (delivered + t)[k].1.clientId == (delivered + t)[k].0
    {
      if k >= |delivered| {
        assert t[k - |delivered|] == (clientId, frames[k - |delivered|]);
      }
    }
  }

  /** The frames of one client, each paired with that client's id for its callback. */
  function Tagged(clientId: string, frames: seq<TimestampedFrame>): (r: seq<(string, TimestampedFrame)>)
    ensures |r| == |frames|
    ensures forall k :: 0 <= k < |r| ==> r[k] == (clientId, frames[k])
  {
    if frames == [] then [] else [(clientId, frames[0])] + Tagged(clientId, frames[1..])
  }

  /**
    The inner loop of `_processing_loop` for one source: up to FramesPerClientPerTick
    frames are taken while the source releases one and a callback is registered.
   */
  method DrainSource(s: FrameSequencer, hasCallback: bool, budget: nat, now: real) returns (frames: seq<TimestampedFrame>)
    requires s.Valid()
    modifies s
    ensures s.Valid()
    ensures |frames| <= budget
    ensures !hasCallback ==> |frames| == 0
    ensures forall f :: f in frames ==> f.clientId == s.clientId
    ensures s.lastDisplayedSequence >= old(s.lastDisplayedSequence)
    // the frames are the successive releases of the sequencer, and the new state is what they leave
    ensures (s.State(), frames) == Drain(old(s.State()), now, hasCallback, budget)
    // without a callback the one release still happens: a frame it released is lost
    ensures !hasCallback && budget > 0 ==> s.State() == Release(old(s.State()), now).0
    // the frames handed over were buffered and have left the buffer; what stays is unchanged
    ensures hasCallback ==> |s.sequenceBuffer| == |old(s.sequenceBuffer)| - |frames|
    ensures s.sequenceBuffer.Keys <= old(s.sequenceBuffer).Keys
    ensures forall q :: q in s.sequenceBuffer ==> s.sequenceBuffer[q] == old(s.sequenceBuffer)[q]
    ensures forall f :: f in frames ==>
              && f.sequenceNumber in old(s.sequenceBuffer) && old(s.sequenceBuffer)[f.sequenceNumber] == f
              && f.sequenceNumber !in s.sequenceBuffer
  {
    ghost var start := s.State();
    frames := TakeFrames(s, hasCallback, budget, now);
    DrainFacts(start, now, hasCallback, budget);
    DrainTakes(start, now, hasCallback, budget);
  }

  /** The loop of `DrainSource`: each pass asks for one frame and stops at the first it cannot hand over. */
  method TakeFrames(s: FrameSequencer, hasCallback: bool, budget: nat, now: real) returns (frames: seq<TimestampedFrame>)
    requires s.Valid()
    modifies s
    ensures s.Valid()
    ensures (s.State(), frames) == Drain(old(s.State()), now, hasCallback, budget)
  {
    ghost var goal := Drain(s.State(), now, hasCallback, budget);
    ghost var rem: nat := budget;
    frames := [];
    var taken := 0;
    assert frames + goal.1 == goal.1;
    while taken < budget
      invariant s.Valid() && taken <= budget && rem == budget - taken
      invariant DrainsTo(s.State(), now, hasCallback, rem, frames, goal)
    {
      var frame := TakePass(s, hasCallback, rem, frames, goal, now);
      if frame.Some? && hasCallback {
        frames := frames + [frame.value];
      } else {
        break;
      }
      taken := taken + 1;
      rem := rem - 1;
    }
    if taken == budget {
      assert frames + [] == frames;
    }
  }

  /** `frames` already handed over, then a drain of `passes` passes from `a`, ends at `goal`. */
  ghost predicate DrainsTo(a: SequencerState, now: real, hasCallback: bool, passes: nat,
                           frames: seq<TimestampedFrame>, goal: (SequencerState, seq<TimestampedFrame>))
  {
    && Consistent(a)
    && goal == (Drain(a, now, hasCallback, passes).0, frames + Drain(a, now, hasCallback, passes).1)
  }

  /**
    One pass of the loop of `TakeFrames`: when the frame is handed over the rest of the
    drain has one pass fewer, and otherwise the drain ends here.
   */
  method TakePass(s: FrameSequencer, hasCallback: bool, ghost passes: nat, ghost frames: seq<TimestampedFrame>,
                  ghost goal: (SequencerState, seq<TimestampedFrame>), now: real) returns (frame: Option<TimestampedFrame>)
    requires s.Valid() && passes > 0
    requires DrainsTo(s.State(), now, hasCallback, passes, frames, goal)
    modifies s
    ensures s.Valid()
    ensures frame.Some? && hasCallback ==> DrainsTo(s.State(), now, hasCallback, passes - 1, frames + [frame.value], goal)
    ensures !(frame.Some? && hasCallback) ==> goal == (s.State(), frames)
  {
    frame := NextRelease(s, hasCallback, passes, now);
    if frame.Some? && hasCallback {
      ghost var tail := Drain(s.State(), now, hasCallback, passes - 1).1;
      assert frames + ([frame.value] + tail) == (frames + [frame.value]) + tail;
    } else {
      assert frames + [] == frames;
    }
  }

  /** What a whole tick does to each client: its sequencer drained with a callback present. */
  lemma TickTargets(before: map<string, SequencerState>, now: real) returns (target: map<string, (SequencerState, seq<TimestampedFrame>)>)
    requires forall c :: c in before ==> Consistent(before[c])
    ensures target.Keys == before.Keys
    ensures forall c :: c in before ==> target[c] == Drain(before[c], now, true, FramesPerClientPerTick)
  {
    target := map c | c in before :: Drain(before[c], now, true, FramesPerClientPerTick);
  }

  /**
    Part way through a tick: each client in `done` is in the state `target` gives it and
    has received exactly the frames `target` gives it; every other client is as it was
    in `before` and has received nothing.
   */
  ghost predicate DrainedSoFar(before: map<string, SequencerState>, target: map<string, (SequencerState, seq<TimestampedFrame>)>,
                               current: map<string, SequencerState>,
                               delivered: seq<(string, TimestampedFrame)>, done: set<string>)
  {
    && current.Keys == before.Keys && target.Keys == before.Keys
    && (forall c :: c in before && c in done ==> current[c] == target[c].0 && FramesOf(delivered, c) == target[c].1)
    && (forall c :: c in before && c !in done ==> current[c] == before[c] && FramesOf(delivered, c) == [])
  }

  /** Taking one more client, not taken yet, to its target state extends a partial tick by that client. */
  lemma TickStep(before: map<string, SequencerState>, target: map<string, (SequencerState, seq<TimestampedFrame>)>,
                 prev: map<string, SequencerState>, next: map<string, SequencerState>,
                 delivered: seq<(string, TimestampedFrame)>, done: set<string>, clientId: string,
                 frames: seq<TimestampedFrame>)
    requires DrainedSoFar(before, target, prev, delivered, done)
    requires clientId in prev && clientId !in done
    requires next.Keys == prev.Keys && forall c :: c in prev && c != clientId ==> next[c] == prev[c]
    requires (next[clientId], frames) == target[clientId]
    ensures DrainedSoFar(before, target, next, delivered + Tagged(clientId, frames), done + {clientId})
  {
    var grown := delivered + Tagged(clientId, frames);
    forall c | c in before
      ensures (c in done + {clientId}) ==> next[c] == target[c].0 && FramesOf(grown, c) == target[c].1
      ensures (c !in done + {clientId}) ==> next[c] == before[c] && FramesOf(grown, c) == []
    {
      FramesOfAppend(delivered, clientId, frames, c);
      if c == clientId {
        assert FramesOf(delivered, c) == [];
      }
    }
  }

  /**
    A whole tick: every client is in the state a drain of its state in `before` leaves,
    and has received exactly the frames that drain releases, in release order.
   */
  ghost predicate TickDrained(before: map<string, SequencerState>, after: map<string, SequencerState>,
                              delivered: seq<(string, TimestampedFrame)>, now: real)
  {
    && after.Keys == before.Keys
    && forall c :: c in before ==>
         Consistent(before[c])
         && (after[c], FramesOf(delivered, c)) == Drain(before[c], now, true, FramesPerClientPerTick)
  }

  /** At the start of a tick no client has been drained and nothing has been handed over. */
  lemma TickStart(before: map<string, SequencerState>, target: map<string, (SequencerState, seq<TimestampedFrame>)>)
    requires target.Keys == before.Keys
    ensures DrainedSoFar(before, target, before, [], {})
  {
  }

  /** A tick that has taken every client leaves each one drained, with at most its budget of frames. */
  lemma TickDone(before: map<string, SequencerState>, now: real,
                 target: map<string, (SequencerState, seq<TimestampedFrame>)>, current: map<string, SequencerState>,
                 delivered: seq<(string, TimestampedFrame)>, done: set<string>)
    requires forall c :: c in before ==> Consistent(before[c])
    requires DrainedSoFar(before, target, current, delivered, done)
    requires forall c :: c in before ==> target[c] == Drain(before[c], now, true, FramesPerClientPerTick)
    requires before.Keys <= done
    ensures TickDrained(before, current, delivered, now)
    ensures forall c :: c in before ==> |FramesOf(delivered, c)| <= FramesPerClientPerTick
  {
    forall c | c in before
      ensures |FramesOf(delivered, c)| <= FramesPerClientPerTick
    {
      DrainFacts(before[c], now, true, FramesPerClientPerTick);
    }
  }

  /** One step of a drain: the first release decides whether the drain goes on. */
  lemma DrainStep(a: SequencerState, now: real, hasCallback: bool, budget: nat)
    requires Consistent(a) && budget > 0
    ensures var step := Release(a, now);
      Drain(a, now, hasCallback, budget)
      == if step.1.Some? && hasCallback
         then (Drain(step.0, now, hasCallback, budget - 1).0, [step.1.value] + Drain(step.0, now, hasCallback, budget - 1).1)
         else (step.0, [])
  {
  }

  /**
    One pass of the loop of `DrainSource`, seen as the first step of a drain of `passes`
    passes: the drain goes on from the new state exactly when a frame came out and there
    is a callback to hand it to.
   */
  method NextRelease(s: FrameSequencer, hasCallback: bool, ghost passes: nat, now: real) returns (frame: Option<TimestampedFrame>)
    requires s.Valid() && passes > 0
    modifies s
    ensures s.Valid()
    ensures frame.Some? && hasCallback ==>
              Drain(old(s.State()), now, hasCallback, passes)
              == (Drain(s.State(), now, hasCallback, passes - 1).0, [frame.value] + Drain(s.State(), now, hasCallback, passes - 1).1)
    ensures !(frame.Some? && hasCallback) ==> Drain(old(s.State()), now, hasCallback, passes) == (s.State(), [])
  {
    DrainStep(s.State(), now, hasCallback, passes);
    frame := s.GetNextFrame(now);
  }

  /** The frames of `delivered` handed to client `c`, in the order they were handed over. */
  function FramesOf(delivered: seq<(string, TimestampedFrame)>, c: string): (r: seq<TimestampedFrame>)
    ensures |r| <= |delivered|
    ensures forall f :: f in r ==> (c, f) in delivered
  {
    if delivered == [] then []
    else (if delivered[0].0 == c then [delivered[0].1] else []) + FramesOf(delivered[1..], c)
  }

  /** Handing one client's frames over after `delivered` adds them to that client's share only. */
  lemma {:induction false} FramesOfAppend(delivered: seq<(string, TimestampedFrame)>, clientId: string,
                                          frames: seq<TimestampedFrame>, c: string)
    ensures FramesOf(delivered + Tagged(clientId, frames), c)
            == FramesOf(delivered, c) + (if c == clientId then frames else [])
  {
    if delivered == [] {
      assert delivered + Tagged(clientId, frames) == Tagged(clientId, frames);
      FramesOfTagged(clientId, frames, c);
    } else {
      assert (delivered + Tagged(clientId, frames))[1..] == delivered[1..] + Tagged(clientId, frames);
      FramesOfAppend(delivered[1..], clientId, frames, c);
    }
  }

  /** A client's own tagged frames are its whole share; another client gets none of them. */
  lemma {:induction false} FramesOfTagged(clientId: string, frames: seq<TimestampedFrame>, c: string)
    ensures FramesOf(Tagged(clientId, frames), c) == if c == clientId then frames else []
  {
    if frames != [] {
      assert Tagged(clientId, frames)[1..] == Tagged(clientId, frames[1..]);
      FramesOfTagged(clientId, frames[1..], c);
      assert frames == [frames[0]] + frames[1..];
    }
  }
}
