/**
  Adaptive compression and packet-loss accounting of server/performance_monitor.py: the
  threshold rules that pick a video and an audio quality tier from the latest metrics, the
  per-tier settings tables, and the per-sender packet-loss trackers. Collecting the metrics
  (psutil, the monitoring thread, the latency and jitter estimates) is not modelled: the
  metrics are parameters.
 */
module PerformanceMonitorModel {
  import opened Wrappers

  /** The four quality tiers, best first. */
  datatype Tier = High | Medium | Low | Minimal

  /** Position in the ladder: 0 is the best tier. */
  function Rank(t: Tier): nat
  {
    match t
    case High => 0
    case Medium => 1
    case Low => 2
    case Minimal => 3
  }

  datatype NetworkMetrics = NetworkMetrics(latencyMs: real, packetLossRate: real, bandwidthUtilization: real, jitterMs: real, timestamp: real)

  datatype SystemMetrics = SystemMetrics(cpuUsagePercent: real, memoryUsagePercent: real, timestamp: real)

  /** `_determine_video_quality`: the first rule that fires decides. */
  function VideoTier(n: NetworkMetrics, s: SystemMetrics): (t: Tier)
    ensures t == Minimal <==> s.cpuUsagePercent <= 80.0 && n.packetLossRate > 0.05
    ensures t == Low <==> (|| s.cpuUsagePercent > 80.0
                           || 0.02 < n.packetLossRate <= 0.05
                           || (n.packetLossRate <= 0.02 && n.latencyMs > 200.0))
    ensures t == High <==> s.cpuUsagePercent < 50.0 && n.latencyMs < 50.0 && n.packetLossRate < 0.01 && n.jitterMs <= 50.0
  {
    if s.cpuUsagePercent > 80.0 then Low
    else if n.packetLossRate > 0.05 then Minimal
    else if n.packetLossRate > 0.02 then Low
    else if n.latencyMs > 200.0 then Low
    else if n.latencyMs > 100.0 then Medium
    else if n.jitterMs > 50.0 then Medium
    else if s.cpuUsagePercent < 50.0 && n.latencyMs < 50.0 && n.packetLossRate < 0.01 then High
    else Medium
  }

  /** `_determine_audio_quality`: never Minimal unless the CPU is above 90%; jitter plays no part. */
  function AudioTier(n: NetworkMetrics, s: SystemMetrics): (t: Tier)
    ensures t == Minimal <==> s.cpuUsagePercent > 90.0
    ensures t == Low <==> s.cpuUsagePercent <= 90.0 && (n.packetLossRate > 0.03 || n.latencyMs > 150.0)
    ensures t == High <==> s.cpuUsagePercent < 60.0 && n.latencyMs < 30.0 && n.packetLossRate < 0.005
  {
    if s.cpuUsagePercent > 90.0 then Minimal
    else if n.packetLossRate > 0.03 then Low
    else if n.latencyMs > 150.0 then Low
    else if n.latencyMs > 75.0 then Medium
    else if s.cpuUsagePercent < 60.0 && n.latencyMs < 30.0 && n.packetLossRate < 0.005 then High
    else Medium
  }

  /**
    The CPU rule is checked first, so a loaded CPU caps video at Low even when the packet loss
    alone would have chosen Minimal: more load can mean a better video tier.
   */
  lemma CpuRuleShadowsLoss(n: NetworkMetrics, s: SystemMetrics, busier: SystemMetrics)
    requires n.packetLossRate > 0.05 && s.cpuUsagePercent <= 80.0 && busier.cpuUsagePercent > 80.0
    ensures VideoTier(n, s) == Minimal && VideoTier(n, busier) == Low
    ensures Rank(VideoTier(n, busier)) < Rank(VideoTier(n, s))
  {
  }

  datatype VideoSettings = VideoSettings(bitrate: nat, fps: nat, resolutionScale: real)

  datatype AudioSettings = AudioSettings(sampleRate: nat, bitrate: nat, channels: nat)

  /** `video_quality_levels` */
  function VideoLevel(t: Tier): (v: VideoSettings)
    ensures 0.0 < v.resolutionScale <= 1.0
  {
    match t
    case High => VideoSettings(2000000, 30, 1.0)
    case Medium => VideoSettings(1000000, 24, 0.8)
    case Low => VideoSettings(500000, 15, 0.6)
    case Minimal => VideoSettings(250000, 10, 0.4)
  }

  /** `audio_quality_levels` */
  function AudioLevel(t: Tier): (a: AudioSettings)
    ensures a.channels == if t == High then 2 else 1
  {
    match t
    case High => AudioSettings(44100, 128000, 2)
    case Medium => AudioSettings(22050, 64000, 1)
    case Low => AudioSettings(16000, 32000, 1)
    case Minimal => AudioSettings(8000, 16000, 1)
  }

  /** A lower tier never asks for more: bitrate, frame rate, scale and sample rate all fall down the ladder. */
  lemma LevelsDescend(better: Tier, worse: Tier)
    requires Rank(better) <= Rank(worse)
    ensures VideoLevel(worse).bitrate <= VideoLevel(better).bitrate
    ensures VideoLevel(worse).fps <= VideoLevel(better).fps
    ensures VideoLevel(worse).resolutionScale <= VideoLevel(better).resolutionScale
    ensures AudioLevel(worse).sampleRate <= AudioLevel(better).sampleRate
    ensures AudioLevel(worse).bitrate <= AudioLevel(better).bitrate
  {
  }

  class AdaptiveCompressionManager {
    var currentVideoQuality: Tier
    var currentAudioQuality: Tier

    constructor()
      ensures currentVideoQuality == High && currentAudioQuality == High
    {
      currentVideoQuality := High;
      currentAudioQuality := High;
    }

    /** `adapt_quality_based_on_metrics`: store both tiers; `changed` says whether either moved. */
    method AdaptQualityBasedOnMetrics(n: NetworkMetrics, s: SystemMetrics) returns (video: Tier, audio: Tier, changed: bool)
      modifies this
      ensures currentVideoQuality == VideoTier(n, s) && currentAudioQuality == AudioTier(n, s)
      ensures video == currentVideoQuality && audio == currentAudioQuality
      ensures changed <==> old(currentVideoQuality) != video || old(currentAudioQuality) != audio
    {
      var newVideo := VideoTier(n, s);
      var newAudio := AudioTier(n, s);
      changed := false;
      if newVideo != currentVideoQuality {
        currentVideoQuality := newVideo;
        changed := true;
      }
      if newAudio != currentAudioQuality {
        currentAudioQuality := newAudio;
        changed := true;
      }
      video, audio := currentVideoQuality, currentAudioQuality;
    }

    /** `get_current_video_settings` */
    function CurrentVideoSettings(): (v: VideoSettings)
      reads this
      ensures v == VideoLevel(currentVideoQuality)
    {
      VideoLevel(currentVideoQuality)
    }

    /** `get_current_audio_settings` */
    function CurrentAudioSettings(): (a: AudioSettings)
      reads this
      ensures a == AudioLevel(currentAudioQuality)
    {
      AudioLevel(currentAudioQuality)
    }
  }

  /**
    Worse network conditions never raise the video tier: more loss, latency or jitter and more
    CPU load give the same tier or a lower one, as long as the load stays on the same side of the
    80% rule (across it, `CpuRuleShadowsLoss` shows the order breaks).
   */
  lemma VideoTierMonotone(n: NetworkMetrics, s: SystemMetrics, n2: NetworkMetrics, s2: SystemMetrics)
    requires n.packetLossRate <= n2.packetLossRate && n.latencyMs <= n2.latencyMs && n.jitterMs <= n2.jitterMs
    requires s.cpuUsagePercent <= s2.cpuUsagePercent && (s.cpuUsagePercent > 80.0 <==> s2.cpuUsagePercent > 80.0)
    ensures Rank(VideoTier(n, s)) <= Rank(VideoTier(n2, s2))
  {
  }

  /** Worse conditions never raise the audio tier: more loss, latency or CPU load give the same tier or a lower one. */
  lemma AudioTierMonotone(n: NetworkMetrics, s: SystemMetrics, n2: NetworkMetrics, s2: SystemMetrics)
    requires n.packetLossRate <= n2.packetLossRate && n.latencyMs <= n2.latencyMs
    requires s.cpuUsagePercent <= s2.cpuUsagePercent
    ensures Rank(AudioTier(n, s)) <= Rank(AudioTier(n2, s2))
  {
  }

  // ------------------------------------------------------------------ packet loss

  /** `{'expected_packets', 'received_packets', 'last_sequence'}`; -1 means no packet yet. */
  datatype PacketTracker = PacketTracker(expectedPackets: int, receivedPackets: int, lastSequence: int)

  const NewTracker := PacketTracker(0, 0, -1)

  /**
    `track_packet_loss` as written: once a sequence number has been seen, each packet adds the
    distance from the previous one to the expected count, even when that distance is zero or
    negative (a duplicate or a late packet).
   */
  function TrackAsWritten(t: PacketTracker, received: int): (r: PacketTracker)
    ensures r.lastSequence == received
    ensures t.lastSequence < 0 ==> r.expectedPackets == t.expectedPackets && r.receivedPackets == t.receivedPackets
  {
    if t.lastSequence >= 0 then PacketTracker(t.expectedPackets + received - t.lastSequence, t.receivedPackets + 1, received)
    else PacketTracker(t.expectedPackets, t.receivedPackets, received)
  }

  /**
    The corrected tracker: a packet that is not newer than the last one counted is ignored,
    so a received packet is never counted without being expected.
   */
  function Track(t: PacketTracker, received: int): (r: PacketTracker)
    ensures t.lastSequence < 0 ==> r == PacketTracker(t.expectedPackets, t.receivedPackets, received)
    ensures t.lastSequence >= 0 && received <= t.lastSequence ==> r == t
    ensures t.lastSequence >= 0 && received > t.lastSequence ==>
              r == PacketTracker(t.expectedPackets + (received - t.lastSequence), t.receivedPackets + 1, received)
  {
    if t.lastSequence < 0 then PacketTracker(t.expectedPackets, t.receivedPackets, received)
    else if received <= t.lastSequence then t
    else PacketTracker(t.expectedPackets + (received - t.lastSequence), t.receivedPackets + 1, received)
  }

  /** Trackers whose counts can be turned into a loss rate between 0 and 1. */
  predicate Sane(t: PacketTracker)
  {
    0 <= t.receivedPackets <= t.expectedPackets
  }

  /** The corrected tracker keeps its counts sane. */
  lemma TrackKeepsSane(t: PacketTracker, received: int)
    requires Sane(t)
    ensures Sane(Track(t, received))
  {
  }

  /** Whatever order the packets arrive in, the corrected tracker's loss rate stays between 0 and 1. */
  lemma {:induction false} CorrectedRateBounded(t: PacketTracker, seqs: seq<int>)
    requires Sane(t)
    ensures Sane(Feed(t, seqs, true))
    ensures var r := Feed(t, seqs, true); 0.0 <= LossRate(r.expectedPackets, r.receivedPackets) <= 1.0
    decreases seqs
  {
    if seqs != [] {
      TrackKeepsSane(t, seqs[0]);
      CorrectedRateBounded(Track(t, seqs[0]), seqs[1..]);
    } else {
      LossRateBounded(t.expectedPackets, t.receivedPackets);
    }
  }

  /** `1 - received / expected`, or 0 when nothing is expected. */
  function LossRate(expected: int, received: int): real
  {
    if expected == 0 then 0.0 else 1.0 - received as real / expected as real
  }

  /** Sane counts give a rate between 0 and 1. */
  lemma LossRateBounded(expected: int, received: int)
    requires 0 <= received <= expected
    ensures 0.0 <= LossRate(expected, received) <= 1.0
  {
    if expected != 0 {
      assert received as real / expected as real <= 1.0 by {
        assert received as real <= expected as real;
      }
    }
  }

  /** A tracker fed the given sequence numbers in order. */
  function Feed(t: PacketTracker, seqs: seq<int>, corrected: bool): PacketTracker
    decreases seqs
  {
    if seqs == [] then t
    else Feed(if corrected then Track(t, seqs[0]) else TrackAsWritten(t, seqs[0]), seqs[1..], corrected)
  }

  /**
    The discrepancy: a duplicated packet followed by the next one (5, 5, 6) leaves the
    tracker as written expecting one packet and counting two, a loss rate of -1; the
    corrected tracker reports no loss.
   */
  lemma DuplicateMakesLossNegative()
    ensures var t := Feed(NewTracker, [5, 5, 6], false); LossRate(t.expectedPackets, t.receivedPackets) == -1.0
    ensures var t := Feed(NewTracker, [5, 5, 6], true); LossRate(t.expectedPackets, t.receivedPackets) == 0.0
  {
    assert [5, 5, 6][1..] == [5, 6];
    assert [5, 6][1..] == [6];
  }

  /** A run of consecutive sequence numbers expects exactly what it receives: no loss. */
  lemma {:induction false} ConsecutiveMeansNoLoss(t: PacketTracker, first: int, k: nat)
    requires t.lastSequence >= 0 && first == t.lastSequence + 1
    requires t.expectedPackets == t.receivedPackets
    ensures var r := Feed(t, seq(k, i => first + i), false);
            r.expectedPackets == r.receivedPackets && LossRate(r.expectedPackets, r.receivedPackets) == 0.0
    decreases k
  {
    if k > 0 {
      var s := seq(k, i => first + i);
      assert s[0] == first;
      assert s[1..] == seq(k - 1, i => (first + 1) + i);
      ConsecutiveMeansNoLoss(TrackAsWritten(t, first), first + 1, k - 1);
    }
  }

  /** Skipping a sequence number after a loss-free run shows a positive loss rate. */
  lemma GapShowsLoss(t: PacketTracker)
    requires t.lastSequence >= 0 && 0 <= t.receivedPackets == t.expectedPackets
    ensures var r := TrackAsWritten(t, t.lastSequence + 2); LossRate(r.expectedPackets, r.receivedPackets) > 0.0
  {
    var r := TrackAsWritten(t, t.lastSequence + 2);
    assert r.expectedPackets == r.receivedPackets + 1;
    assert r.receivedPackets as real / r.expectedPackets as real < 1.0;
  }

  /** The sum of one of the two counts over the trackers of `ids`. */
  function Count(t: PacketTracker, received: bool): int
  {
    if received then t.receivedPackets else t.expectedPackets
  }

  ghost function SumOver(m: map<string, PacketTracker>, ids: set<string>, received: bool): int
    requires ids <= m.Keys
    decreases ids
  {
    if ids == {} then 0
    else
      var id :| id in ids;
      Count(m[id], received) + SumOver(m, ids - {id}, received)
  }

  /** The sum does not depend on which tracker is taken first. */
  lemma {:induction false} SumOverRemove(m: map<string, PacketTracker>, ids: set<string>, y: string, received: bool)
    requires ids <= m.Keys && y in ids
    ensures SumOver(m, ids, received) == Count(m[y], received) + SumOver(m, ids - {y}, received)
    decreases ids
  {
    var x :| x in ids && SumOver(m, ids, received) == Count(m[x], received) + SumOver(m, ids - {x}, received);
    if x != y {
      SumOverRemove(m, ids - {x}, y, received);
      SumOverRemove(m, ids - {y}, x, received);
      assert ids - {x} - {y} == ids - {y} - {x};
    }
  }

  /** Sane trackers add up to sane totals. */
  lemma {:induction false} SumOverSane(m: map<string, PacketTracker>, ids: set<string>)
    requires ids <= m.Keys
    requires forall id :: id in m ==> Sane(m[id])
    ensures 0 <= SumOver(m, ids, true) <= SumOver(m, ids, false)
    decreases ids
  {
    if ids != {} {
      var y :| y in ids;
      SumOverRemove(m, ids, y, true);
      SumOverRemove(m, ids, y, false);
      SumOverSane(m, ids - {y});
    }
  }

  class PerformanceMonitor {
    var trackers: map<string, PacketTracker>

    constructor()
      ensures trackers == map[]
    {
      trackers := map[];
    }

    /**
      `track_packet_loss`: the first packet from a sender only records its sequence number.
      The `expected` argument is not used.
     */
    method TrackPacketLoss(clientId: string, expected: int, received: int)
      modifies this
      ensures trackers == old(trackers)[clientId := TrackAsWritten(if clientId in old(trackers) then old(trackers)[clientId] else NewTracker, received)]
    {
      var t := if clientId in trackers then trackers[clientId] else NewTracker;
      trackers := trackers[clientId := TrackAsWritten(t, received)];
    }

    /** `get_packet_loss_rate(client_id)` for a non-empty id: 0 for an unknown sender. */
    function ClientLossRate(clientId: string): (r: real)
      reads this
      ensures clientId !in trackers || trackers[clientId].expectedPackets == 0 ==> r == 0.0
      ensures clientId in trackers && Sane(trackers[clientId]) ==> 0.0 <= r <= 1.0
    {
      if clientId !in trackers then 0.0
      else
        var t := trackers[clientId];
        if Sane(t) then LossRateBounded(t.expectedPackets, t.receivedPackets); LossRate(t.expectedPackets, t.receivedPackets)
        else LossRate(t.expectedPackets, t.receivedPackets)
    }

    /**
      `get_packet_loss_rate()`: the loss over the totals of all trackers. An empty id is
      falsy in Python and also yields the overall rate.
     */
    method GetPacketLossRate(clientId: Option<string>) returns (r: real)
      ensures clientId.Some? && clientId.value != "" ==> r == ClientLossRate(clientId.value)
      ensures !(clientId.Some? && clientId.value != "") ==>
                r == LossRate(SumOver(trackers, trackers.Keys, false), SumOver(trackers, trackers.Keys, true))
      ensures !(clientId.Some? && clientId.value != "") && (forall id :: id in trackers ==> Sane(trackers[id])) ==>
                0.0 <= r <= 1.0
    {
      if clientId.Some? && clientId.value != "" {
        return ClientLossRate(clientId.value);
      }
      var ids := Enumerate(trackers.Keys);
      var totalExpected := 0;
      var totalReceived := 0;
      ghost var seen: set<string> := {};
      var k := 0;
      while k < |ids|
        invariant 0 <= k <= |ids|
        invariant seen == set i | 0 <= i < k :: ids[i]
        invariant seen <= trackers.Keys
        invariant totalExpected == SumOver(trackers, seen, false)
        invariant totalReceived == SumOver(trackers, seen, true)
      {
        var id := ids[k];
        assert id !in seen;
        SumOverRemove(trackers, seen + {id}, id, false);
        SumOverRemove(trackers, seen + {id}, id, true);
        assert seen + {id} - {id} == seen;
        totalExpected := totalExpected + trackers[id].expectedPackets;
        totalReceived := totalReceived + trackers[id].receivedPackets;
        seen := seen + {id};
        k := k + 1;
      }
      assert seen == trackers.Keys by {
        forall id | id in trackers
          ensures id in seen
        {
          assert id in ids;
          var i :| 0 <= i < |ids| && ids[i] == id;
        }
      }
      if forall id :: id in trackers ==> Sane(trackers[id]) {
        SumOverSane(trackers, trackers.Keys);
        LossRateBounded(totalExpected, totalReceived);
      }
      r := LossRate(totalExpected, totalReceived);
    }
  }
}
