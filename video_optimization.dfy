/**
  Client-side stream tuning of client/video_optimization.py: the five-rung quality ladder of
  `AdaptiveBitrateController`, the bounded drop-oldest `FrameBuffer`, and the bounded per-client
  timing table of `SynchronizationManager`. The clock is a parameter; the jitter average, the
  pipeline latency statistics and the throughput history's use are not modelled.
 */
module VideoOptimization {
  import opened Wrappers
  import opened Bytes

  /** The rungs of `quality_levels`, worst first. */
  datatype QualityLevel = UltraLow | Low | Medium | High | UltraHigh

  /** Position on the ladder: 0 is `ultra_low`, 4 is `ultra_high`. */
  function Rung(l: QualityLevel): nat
  {
    match l
    case UltraLow => 0
    case Low => 1
    case Medium => 2
    case High => 3
    case UltraHigh => 4
  }

  /** The level on a given rung. */
  function LevelAt(r: nat): (l: QualityLevel)
    requires r <= 4
    ensures Rung(l) == r
  {
    if r == 0 then UltraLow else if r == 1 then Low else if r == 2 then Medium else if r == 3 then High else UltraHigh
  }

  datatype QualitySettings = QualitySettings(quality: nat, fps: nat, resolutionScale: real)

  /** One row of the `quality_levels` table. */
  function Settings(l: QualityLevel): (s: QualitySettings)
    ensures 30 <= s.quality <= 95 && 0.0 < s.resolutionScale <= 1.0
  {
    match l
    case UltraLow => QualitySettings(30, 15, 0.5)
    case Low => QualitySettings(40, 20, 0.7)
    case Medium => QualitySettings(60, 25, 0.8)
    case High => QualitySettings(80, 30, 1.0)
    case UltraHigh => QualitySettings(95, 30, 1.0)
  }

  /** Climbing the ladder never lowers the JPEG quality, the frame rate or the scale. */
  lemma SettingsClimb(lower: QualityLevel, higher: QualityLevel)
    requires Rung(lower) <= Rung(higher)
    ensures Settings(lower).quality <= Settings(higher).quality
    ensures Settings(lower).fps <= Settings(higher).fps
    ensures Settings(lower).resolutionScale <= Settings(higher).resolutionScale
    ensures Rung(lower) < Rung(higher) ==> Settings(lower).quality < Settings(higher).quality
  {
  }

  /** The averages `adapt_quality` looks at; an empty history averages 0. */
  datatype Averages = Averages(packetLoss: real, latency: real, frameDrops: real, encodingTime: real)

  predicate NetworkDegraded(a: Averages)
  {
    a.packetLoss > 0.05 || a.latency > 100.0
  }

  predicate PerformanceDegraded(a: Averages)
  {
    a.frameDrops > 2.0 || a.encodingTime > 0.05
  }

  predicate ConditionsGood(a: Averages)
  {
    a.packetLoss < 0.01 && a.latency < 30.0 && a.frameDrops < 1.0
  }

  /**
    The ladder step of `adapt_quality`: network trouble moves one rung down, performance trouble
    moves `ultra_high` and `high` to `medium` and `medium` to `low`, good conditions move one rung
    up (the last step to `ultra_high` also wants encoding under 20 ms). The first rule that applies wins.
   */
  function TargetLevel(current: QualityLevel, a: Averages): (t: QualityLevel)
    ensures NetworkDegraded(a) ==> Rung(t) == if Rung(current) == 0 then 0 else Rung(current) - 1
    ensures !NetworkDegraded(a) && PerformanceDegraded(a) ==>
              t == (if Rung(current) >= 3 then Medium else if current == Medium then Low else current)
    ensures !NetworkDegraded(a) && !PerformanceDegraded(a) && ConditionsGood(a) ==>
              Rung(t) == if current == UltraHigh || (current == High && a.encodingTime >= 0.02) then Rung(current) else Rung(current) + 1
    ensures !NetworkDegraded(a) && !PerformanceDegraded(a) && !ConditionsGood(a) ==> t == current
  {
    if NetworkDegraded(a) then
      match current
      case UltraHigh => High
      case High => Medium
      case Medium => Low
      case Low => UltraLow
      case UltraLow => UltraLow
    else if PerformanceDegraded(a) then
      if current == UltraHigh || current == High then Medium
      else if current == Medium then Low
      else current
    else if ConditionsGood(a) then
      match current
      case UltraLow => Low
      case Low => Medium
      case Medium => High
      case High => if a.encodingTime < 0.02 then UltraHigh else High
      case UltraHigh => UltraHigh
    else current
  }

  /** One adaptation moves at most one rung, except performance trouble at `ultra_high`, which drops two. */
  lemma StepSize(current: QualityLevel, a: Averages)
    ensures Rung(TargetLevel(current, a)) + 1 >= Rung(current) || (current == UltraHigh && TargetLevel(current, a) == Medium)
    ensures Rung(TargetLevel(current, a)) <= Rung(current) + 1
    ensures !NetworkDegraded(a) && PerformanceDegraded(a) && current == UltraHigh ==> Rung(current) - Rung(TargetLevel(current, a)) == 2
  {
  }

  /** With no samples at all every average is 0, so the controller can only climb. */
  lemma NoSamplesClimb(current: QualityLevel)
    ensures Rung(TargetLevel(current, Averages(0.0, 0.0, 0.0, 0.0))) == if current == UltraHigh then 4 else Rung(current) + 1
  {
  }

  /** `n` adaptations in a row under the same averages. */
  function Adapted(current: QualityLevel, a: Averages, n: nat): (l: QualityLevel)
    decreases n
  {
    if n == 0 then current else Adapted(TargetLevel(current, a), a, n - 1)
  }

  /** Persistent network trouble walks down one rung per adaptation and stops at `ultra_low`. */
  lemma {:induction false} SustainedLossReachesFloor(current: QualityLevel, a: Averages, n: nat)
    requires NetworkDegraded(a)
    ensures Rung(Adapted(current, a, n)) == if n >= Rung(current) then 0 else Rung(current) - n
    decreases n
  {
    if n > 0 {
      SustainedLossReachesFloor(TargetLevel(current, a), a, n - 1);
    }
  }

  /** Persistently good conditions with fast encoding climb one rung per adaptation up to `ultra_high`. */
  lemma {:induction false} SustainedGoodReachesTop(current: QualityLevel, a: Averages, n: nat)
    requires !NetworkDegraded(a) && !PerformanceDegraded(a) && ConditionsGood(a) && a.encodingTime < 0.02
    ensures Rung(Adapted(current, a, n)) == if Rung(current) + n >= 4 then 4 else Rung(current) + n
    decreases n
  {
    if n > 0 {
      SustainedGoodReachesTop(TargetLevel(current, a), a, n - 1);
    }
  }

  function Sum(s: seq<real>): real
  {
    if s == [] then 0.0 else Sum(s[..|s| - 1]) + s[|s| - 1]
  }

  /** `statistics.mean(h) if h else 0`. */
  function Mean(s: seq<real>): (m: real)
    ensures s == [] ==> m == 0.0
  {
    if s == [] then 0.0 else Sum(s) / (|s| as real)
  }

  /** The mean lies between the smallest and the largest sample. */
  lemma {:induction false} MeanBounds(s: seq<real>, lo: real, hi: real)
    requires s != []
    requires forall i :: 0 <= i < |s| ==> lo <= s[i] <= hi
    ensures lo <= Mean(s) <= hi
  {
    SumBounds(s, lo, hi);
  }

  lemma {:induction false} SumBounds(s: seq<real>, lo: real, hi: real)
    requires forall i :: 0 <= i < |s| ==> lo <= s[i] <= hi
    ensures (|s| as real) * lo <= Sum(s) <= (|s| as real) * hi
  {
    if s != [] {
      SumBounds(s[..|s| - 1], lo, hi);
    }
  }

  function IntsAsReals(s: seq<int>): (r: seq<real>)
    ensures |r| == |s| && forall i :: 0 <= i < |s| ==> r[i] == s[i] as real
  {
    seq(|s|, i requires 0 <= i < |s| => s[i] as real)
  }

  const NetworkHistoryLength: nat := 50
  const PerformanceHistoryLength: nat := 30
  const AdaptationInterval: real := 2.0

  class AdaptiveBitrateController {
    var currentQuality: int
    var packetLossHistory: seq<real>
    var latencyHistory: seq<real>
    var throughputHistory: seq<real>
    var frameDropHistory: seq<int>
    var encodingTimeHistory: seq<real>
    var lastAdaptationTime: real
    var currentLevel: QualityLevel

    /** Each history is a `deque(maxlen=…)`. */
    ghost predicate Valid()
      reads this
    {
      && |packetLossHistory| <= NetworkHistoryLength
      && |latencyHistory| <= NetworkHistoryLength
      && |throughputHistory| <= NetworkHistoryLength
      && |frameDropHistory| <= PerformanceHistoryLength
      && |encodingTimeHistory| <= PerformanceHistoryLength
    }

    constructor()
      ensures Valid()
      ensures currentQuality == 70 && currentLevel == Medium && lastAdaptationTime == 0.0
      ensures packetLossHistory == [] && latencyHistory == [] && throughputHistory == []
      ensures frameDropHistory == [] && encodingTimeHistory == []
    {
      currentQuality := 70;
      packetLossHistory, latencyHistory, throughputHistory := [], [], [];
      frameDropHistory, encodingTimeHistory := [], [];
      lastAdaptationTime := 0.0;
      currentLevel := Medium;
    }

    /** `update_network_metrics`: each sample joins its bounded history. */
    method UpdateNetworkMetrics(packetLoss: real, latency: real, throughput: real)
      requires Valid()
      modifies this`packetLossHistory, this`latencyHistory, this`throughputHistory
      ensures Valid()
      ensures packetLossHistory == KeepLast(old(packetLossHistory) + [packetLoss], NetworkHistoryLength)
      ensures latencyHistory == KeepLast(old(latencyHistory) + [latency], NetworkHistoryLength)
      ensures throughputHistory == KeepLast(old(throughputHistory) + [throughput], NetworkHistoryLength)
    {
      packetLossHistory := KeepLast(packetLossHistory + [packetLoss], NetworkHistoryLength);
      latencyHistory := KeepLast(latencyHistory + [latency], NetworkHistoryLength);
      throughputHistory := KeepLast(throughputHistory + [throughput], NetworkHistoryLength);
    }

    /** `update_performance_metrics` */
    method UpdatePerformanceMetrics(frameDrops: int, encodingTime: real)
      requires Valid()
      modifies this`frameDropHistory, this`encodingTimeHistory
      ensures Valid()
      ensures frameDropHistory == KeepLast(old(frameDropHistory) + [frameDrops], PerformanceHistoryLength)
      ensures encodingTimeHistory == KeepLast(old(encodingTimeHistory) + [encodingTime], PerformanceHistoryLength)
    {
      frameDropHistory := KeepLast(frameDropHistory + [frameDrops], PerformanceHistoryLength);
      encodingTimeHistory := KeepLast(encodingTimeHistory + [encodingTime], PerformanceHistoryLength);
    }

    /** `should_adapt` */
    predicate ShouldAdapt(now: real)
      reads this
    {
      now - lastAdaptationTime >= AdaptationInterval
    }

    function CurrentAverages(): Averages
      reads this
    {
      Averages(Mean(packetLossHistory), Mean(latencyHistory), Mean(IntsAsReals(frameDropHistory)), Mean(encodingTimeHistory))
    }

    /**
      `adapt_quality`: inside the 2 s interval nothing changes; otherwise the clock is recorded and
      the ladder takes one step on the current averages. Either way the current level's row is returned.
     */
    method AdaptQuality(now: real) returns (s: QualitySettings)
      modifies this`lastAdaptationTime, this`currentLevel
      ensures s == Settings(currentLevel)
      ensures !old(ShouldAdapt(now)) ==> currentLevel == old(currentLevel) && lastAdaptationTime == old(lastAdaptationTime)
      ensures old(ShouldAdapt(now)) ==> lastAdaptationTime == now && currentLevel == TargetLevel(old(currentLevel), CurrentAverages())
    {
      if !ShouldAdapt(now) {
        return Settings(currentLevel);
      }
      lastAdaptationTime := now;
      var target := TargetLevel(currentLevel, CurrentAverages());
      if target != currentLevel {
        currentLevel := target;
      }
      s := Settings(currentLevel);
    }
  }

  /** A fresh controller that adapts before any metric arrives climbs from `medium` to `high`. */
  method FreshControllerClimbs(now: real) returns (s: QualitySettings)
    requires now >= AdaptationInterval
    ensures s == Settings(High)
  {
    var c := new AdaptiveBitrateController();
    NoSamplesClimb(Medium);
    s := c.AdaptQuality(now);
  }

  /** One entry of a `FrameBuffer`. */
  datatype FrameInfo = FrameInfo(data: seq<byte>, timestamp: real, sequence: int, arrivalTime: real)

  class FrameBuffer {
    const clientId: string
    var targetBufferSize: int
    const maxBufferSize: int
    var frames: seq<FrameInfo>
    var lastFrameTime: real
    var framesAdded: nat
    var bufferOverruns: nat

    ghost predicate Valid()
      reads this
    {
      maxBufferSize >= 2 && |frames| <= maxBufferSize
    }

    /** `FrameBuffer(client_id, target_buffer_size)`: capacity twice the target, at least 2. */
    constructor(clientId: string, targetBufferSize: int)
      ensures Valid()
      ensures this.clientId == clientId && this.targetBufferSize == targetBufferSize
      ensures maxBufferSize == Max(2 * targetBufferSize, 2)
      ensures frames == [] && lastFrameTime == 0.0 && framesAdded == 0 && bufferOverruns == 0
    {
      this.clientId := clientId;
      this.targetBufferSize := targetBufferSize;
      maxBufferSize := Max(2 * targetBufferSize, 2);
      frames := [];
      lastFrameTime := 0.0;
      framesAdded, bufferOverruns := 0, 0;
    }

    /**
      `add_frame`: a full buffer first drops its oldest frame and counts an overrun; the new frame
      always goes in, so the buffer holds the newest `maxBufferSize` frames.
     */
    method AddFrame(data: seq<byte>, timestamp: real, sequence: int, now: real) returns (ok: bool)
      requires Valid()
      modifies this`frames, this`lastFrameTime, this`framesAdded, this`bufferOverruns
      ensures Valid() && ok
      ensures frames == KeepLast(old(frames) + [FrameInfo(data, timestamp, sequence, now)], maxBufferSize)
      ensures bufferOverruns == if |old(frames)| == maxBufferSize then old(bufferOverruns) + 1 else old(bufferOverruns)
      ensures framesAdded == old(framesAdded) + 1 && lastFrameTime == now
    {
      ok := true;
      lastFrameTime := now;
      if |frames| >= maxBufferSize {
        frames := frames[1..];
        bufferOverruns := bufferOverruns + 1;
      }
      frames := frames + [FrameInfo(data, timestamp, sequence, now)];
      framesAdded := framesAdded + 1;
    }

    /**
      `get_frame` in ultra-low-latency mode, the only mode the buffer is ever in: the oldest frame
      leaves the buffer, or None when it is empty.
     */
    method GetFrame() returns (r: Option<seq<byte>>)
      requires Valid()
      modifies this`frames
      ensures Valid()
      ensures r.Some? <==> old(frames) != []
      ensures r.Some? ==> r.value == old(frames)[0].data && frames == old(frames)[1..]
      ensures r.None? ==> frames == old(frames)
    {
      if |frames| > 0 {
        var f := frames[0];
        frames := frames[1..];
        return Some(f.data);
      }
      return None;
    }

    /** `adjust_target_size`: the request clamped to `[1, maxBufferSize // 2]`. */
    method AdjustTargetSize(newSize: int)
      requires Valid()
      modifies this`targetBufferSize
      ensures 1 <= targetBufferSize <= maxBufferSize / 2
      ensures 1 <= newSize <= maxBufferSize / 2 ==> targetBufferSize == newSize
      ensures newSize < 1 ==> targetBufferSize == 1
      ensures newSize > maxBufferSize / 2 ==> targetBufferSize == maxBufferSize / 2
    {
      targetBufferSize := Max(1, MinInt(newSize, maxBufferSize / 2));
    }
  }

  /** Frames come out of a buffer in the order they went in: two adds then two gets return both, oldest first. */
  method BufferIsFifo(clientId: string, a: seq<byte>, b: seq<byte>, now: real) returns (first: Option<seq<byte>>, second: Option<seq<byte>>)
    ensures first == Some(a) && second == Some(b)
  {
    var buffer := BufferOfTwo(clientId, a, b, now);
    first := buffer.GetFrame();
    second := buffer.GetFrame();
  }

  /** A buffer of target size 1 (capacity 2) after `a` then `b` were added. */
  method BufferOfTwo(clientId: string, a: seq<byte>, b: seq<byte>, now: real) returns (buffer: FrameBuffer)
    ensures fresh(buffer) && buffer.Valid()
    ensures buffer.frames == [FrameInfo(a, now, 0, now), FrameInfo(b, now, 1, now)]
  {
    buffer := new FrameBuffer(clientId, 1);
    var _ := buffer.AddFrame(a, now, 0, now);
    KeepLastFits([FrameInfo(a, now, 0, now)], buffer.maxBufferSize);
    var _ := buffer.AddFrame(b, now, 1, now);
    KeepLastFits([FrameInfo(a, now, 0, now), FrameInfo(b, now, 1, now)], buffer.maxBufferSize);
  }


  /** Every non-empty finite set of sequence numbers has a least element. */
  lemma {:induction false} HasLeast(s: set<int>)
    requires s != {}
    ensures exists m :: m in s && forall k :: k in s ==> m <= k
    decreases |s|
  {
    if forall y :: y !in s {
      assert false;
    }
    var x :| x in s;
    if s - {x} == {} {
      LeastOfSingleton(s, x);
    } else {
      HasLeast(s - {x});
      var r :| r in s - {x} && forall k :: k in s - {x} ==> r <= k;
      LeastOfAddition(s, x, r);
    }
  }

  lemma LeastOfSingleton(s: set<int>, x: int)
    requires x in s && s - {x} == {}
    ensures forall k :: k in s ==> x <= k
  {
    assert s == {x};
  }

  lemma LeastOfAddition(s: set<int>, x: int, r: int)
    requires x in s && r in s - {x} && forall k :: k in s - {x} ==> r <= k
    ensures var least := if x < r then x else r; least in s && forall k :: k in s ==> least <= k
  {
    forall k | k in s ensures (if x < r then x else r) <= k {
      if k != x { assert k in s - {x}; }
    }
  }

  /** The smallest element of a non-empty finite set of sequence numbers. */
  ghost function Smallest(s: set<int>): (m: int)
    requires s != {}
    ensures m in s && forall k :: k in s ==> m <= k
  {
    HasLeast(s);
    var m :| m in s && forall k :: k in s ==> m <= k;
    m
  }

  /** `min(keys)` */
  method SmallestKey(s: set<int>) returns (m: int)
    requires s != {}
    ensures m == Smallest(s)
  {
    ghost var least := Smallest(s);
    m :| m in s && forall k :: k in s ==> m <= k;
  }

  const MaxTimedFrames: nat := 50

  /**
    One client's timing table after `register_frame_timing` records `stage` of frame `sequence`:
    the entry is created or extended, and a table grown past 50 frames loses its smallest sequence number.
   */
  ghost function RecordTiming(table: map<int, map<string, real>>, sequence: int, stage: string, timestamp: real): (r: map<int, map<string, real>>)
    requires |table| <= MaxTimedFrames
    ensures |r| <= MaxTimedFrames
    ensures r.Keys <= table.Keys + {sequence}
    ensures forall k :: k in r && k != sequence ==> r[k] == table[k]
    ensures sequence in r ==> r[sequence] == (if sequence in table then table[sequence] else map[])[stage := timestamp]
    ensures forall k :: k in table && k !in r ==> forall j :: j in r ==> k < j
    ensures sequence in table ==> r == table[sequence := table[sequence][stage := timestamp]]
  {
    var entry := if sequence in table then table[sequence] else map[];
    var grown := table[sequence := entry[stage := timestamp]];
    if sequence in table then
      assert grown.Keys == table.Keys;
      grown
    else if |table| < MaxTimedFrames then
      MapUpdateSize(table, sequence, entry[stage := timestamp]);
      grown
    else
      MapUpdateSize(table, sequence, entry[stage := timestamp]);
      var oldest := Smallest(grown.Keys);
      MapRemoveSize(grown, oldest);
      grown - {oldest}
  }

  /** A newly seen frame whose sequence number is below all 50 recorded ones is dropped at once. */
  lemma {:induction false} EarlyStragglerIsDropped(table: map<int, map<string, real>>, sequence: int, stage: string, timestamp: real)
    requires |table| == MaxTimedFrames
    requires forall k :: k in table ==> sequence < k
    ensures RecordTiming(table, sequence, stage, timestamp) == table
  {
    var entry := map[stage := timestamp];
    var grown := table[sequence := entry];
    MapUpdateSize(table, sequence, entry);
    assert sequence !in table;
    assert Smallest(grown.Keys) == sequence;
    assert grown - {sequence} == table;
  }

  class SynchronizationManager {
    var frameTimings: map<string, map<int, map<string, real>>>

    ghost predicate Valid()
      reads this
    {
      forall c :: c in frameTimings ==> |frameTimings[c]| <= MaxTimedFrames
    }

    constructor()
      ensures Valid() && frameTimings == map[]
    {
      frameTimings := map[];
    }

    /** `register_frame_timing`: only the client's own table changes, and it stays within 50 frames. */
    method RegisterFrameTiming(clientId: string, stage: string, timestamp: real, sequence: int)
      requires Valid()
      modifies this
      ensures Valid()
      ensures frameTimings == old(frameTimings)[clientId :=
                RecordTiming(if clientId in old(frameTimings) then old(frameTimings)[clientId] else map[], sequence, stage, timestamp)]
    {
      var table := if clientId in frameTimings then frameTimings[clientId] else map[];
      var entry := if sequence in table then table[sequence] else map[];
      ghost var before := table;
      table := table[sequence := entry[stage := timestamp]];
      if sequence in before {
        assert table.Keys == before.Keys;
      } else {
        MapUpdateSize(before, sequence, entry[stage := timestamp]);
      }
      if |table| > MaxTimedFrames {
        var oldest := SmallestKey(table.Keys);
        table := table - {oldest};
      }
      frameTimings := frameTimings[clientId := table];
    }
  }
}
