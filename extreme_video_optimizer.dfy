/**
  The "extreme" receive path for video in client/extreme_video_optimizer.py: the anti-flicker gate
  that lets at most one frame per 1/120 s through per client, the network handler with its
  capacity-one drop-oldest queue and its per-client display callbacks, and the optimizer that
  counts processed, displayed and suppressed frames. Clocks are parameters and the JPEG decoder's
  verdict is the boolean `decodedOk`; what the application's display callback receives is
  recorded in `displayed`.
 */
module ExtremeVideoModel {
  import opened Bytes

  /** `min_frame_interval` */
  const MinFrameInterval: real := 1.0 / 120.0

  /** An entry of the packet queue: sender, packet bytes and arrival time. */
  datatype QueuedPacket = QueuedPacket(clientId: string, data: seq<byte>, timestamp: real)

  /**
    The gate `should_display_frame` applies, as a pure decision on the client's recorded time:
    no recorded time, or a recorded 0, always passes; otherwise the interval must have elapsed.
   */
  predicate DisplayAllowed(last: map<string, real>, clientId: string, now: real)
  {
    clientId !in last || last[clientId] == 0.0 || now - last[clientId] >= MinFrameInterval
  }

  /** `AntiFlickerSystem` */
  class AntiFlickerSystem {
    var lastDisplayTimes: map<string, real>
    var activeDisplays: map<string, bool>
    var frameCounters: map<string, int>

    constructor()
      ensures lastDisplayTimes == map[] && activeDisplays == map[] && frameCounters == map[]
    {
      lastDisplayTimes, activeDisplays, frameCounters := map[], map[], map[];
    }

    /**
      `should_display_frame`: the first frame of a client (no recorded time) passes and starts its
      counter at 1; later frames pass only once 1/120 s has elapsed since the last one that passed,
      and only a passing frame records the time and counts. A refused frame changes nothing.
     */
    method ShouldDisplayFrame(clientId: string, now: real) returns (show: bool)
      modifies this`lastDisplayTimes, this`frameCounters
      ensures show <==> DisplayAllowed(old(lastDisplayTimes), clientId, now)
      ensures show ==> lastDisplayTimes == old(lastDisplayTimes)[clientId := now]
      ensures show && (clientId !in old(lastDisplayTimes) || old(lastDisplayTimes)[clientId] == 0.0) ==>
                frameCounters == old(frameCounters)[clientId := 1]
      ensures show && clientId in old(lastDisplayTimes) && old(lastDisplayTimes)[clientId] != 0.0 ==>
                frameCounters == old(frameCounters)[clientId := (if clientId in old(frameCounters) then old(frameCounters)[clientId] else 0) + 1]
      ensures !show ==> lastDisplayTimes == old(lastDisplayTimes) && frameCounters == old(frameCounters)
    {
      var last := if clientId in lastDisplayTimes then lastDisplayTimes[clientId] else 0.0;
      if last == 0.0 {
        lastDisplayTimes := lastDisplayTimes[clientId := now];
        frameCounters := frameCounters[clientId := 1];
        return true;
      }
      if now - last >= MinFrameInterval {
        lastDisplayTimes := lastDisplayTimes[clientId := now];
        var count := if clientId in frameCounters then frameCounters[clientId] else 0;
        frameCounters := frameCounters[clientId := count + 1];
        return true;
      }
      show := false;
    }

    /** `mark_display_active` */
    method MarkDisplayActive(clientId: string)
      modifies this`activeDisplays
      ensures activeDisplays == old(activeDisplays)[clientId := true]
    {
      activeDisplays := activeDisplays[clientId := true];
    }

    /** `mark_display_inactive`: the client's time and counter are forgotten, so its next frame passes. */
    method MarkDisplayInactive(clientId: string)
      modifies this`activeDisplays, this`lastDisplayTimes, this`frameCounters
      ensures activeDisplays == old(activeDisplays)[clientId := false]
      ensures lastDisplayTimes == old(lastDisplayTimes) - {clientId}
      ensures frameCounters == old(frameCounters) - {clientId}
      ensures forall now: real :: DisplayAllowed(lastDisplayTimes, clientId, now)
    {
      activeDisplays := activeDisplays[clientId := false];
      lastDisplayTimes := lastDisplayTimes - {clientId};
      frameCounters := frameCounters - {clientId};
    }
  }

  /**
    `UltraFastNetworkHandler` together with the callback registry of its `ZeroLatencyFrameProcessor`.
    `immediateProcessing` is never switched off, so the queue is used only by `QueuePacket`.
   */
  class UltraFastNetworkHandler {
    var isRunning: bool
    /** `packet_queue`, a `queue.Queue(maxsize=1)`. */
    var queued: seq<QueuedPacket>
    /** Clients with a registered display callback. */
    var callbacks: set<string>

    ghost predicate Valid()
      reads this
    {
      |queued| <= 1
    }

    constructor()
      ensures Valid() && !isRunning && queued == [] && callbacks == {}
    {
      isRunning, queued, callbacks := false, [], {};
    }

    /** `start_processing` / `stop_processing` */
    method SetRunning(run: bool)
      modifies this`isRunning
      ensures isRunning == run
    {
      isRunning := run;
    }

    /** `register_display_callback` */
    method RegisterDisplayCallback(clientId: string)
      modifies this`callbacks
      ensures callbacks == old(callbacks) + {clientId}
    {
      callbacks := callbacks + {clientId};
    }

    /**
      The queued fallback of `process_video_packet_immediate`: a full queue gives up its held packet
      for the new one, so the queue holds exactly the newest packet.
     */
    method QueuePacket(p: QueuedPacket)
      requires Valid()
      modifies this`queued
      ensures Valid()
      ensures queued == [p]
    {
      if |queued| < 1 {
        queued := queued + [p];
      } else {
        queued := queued[1..] + [p];
      }
    }
  }

  /** `ExtremeVideoOptimizer` */
  class ExtremeVideoOptimizer {
    const antiFlicker: AntiFlickerSystem
    const handler: UltraFastNetworkHandler
    var isActive: bool
    var startTime: real
    var framesProcessed: nat
    var framesDisplayed: nat
    var flickerEventsPrevented: nat
    /** Clients whose frames reached the application's display callback, in order. */
    var displayed: seq<string>

    /** The network thread runs exactly while the optimizer is active. */
    ghost predicate Valid()
      reads this, handler
    {
      handler.Valid() && handler.isRunning == isActive
    }

    constructor()
      ensures Valid() && fresh(antiFlicker) && fresh(handler)
      ensures !isActive && framesProcessed == 0 && framesDisplayed == 0 && flickerEventsPrevented == 0
      ensures displayed == [] && handler.callbacks == {} && antiFlicker.lastDisplayTimes == map[]
    {
      antiFlicker := new AntiFlickerSystem();
      handler := new UltraFastNetworkHandler();
      isActive := false;
      startTime := 0.0;
      framesProcessed, framesDisplayed, flickerEventsPrevented := 0, 0, 0;
      displayed := [];
    }

    /** `start_optimization`: a no-op when active. */
    method StartOptimization(now: real)
      requires Valid()
      modifies this`isActive, this`startTime, handler`isRunning
      ensures Valid() && isActive
      ensures old(isActive) ==> startTime == old(startTime)
      ensures !old(isActive) ==> startTime == now
    {
      if isActive {
        return;
      }
      isActive := true;
      startTime := now;
      handler.SetRunning(true);
    }

    /** `stop_optimization`: a no-op when inactive. */
    method StopOptimization()
      requires Valid()
      modifies this`isActive, handler`isRunning
      ensures Valid() && !isActive
    {
      if !isActive {
        return;
      }
      isActive := false;
      handler.SetRunning(false);
    }

    /** `register_client_display`: starts the optimizer if needed, registers the callback, marks the display active. */
    method RegisterClientDisplay(clientId: string, now: real)
      requires Valid()
      modifies this`isActive, this`startTime, handler`isRunning, handler`callbacks, antiFlicker`activeDisplays
      ensures Valid() && isActive
      ensures handler.callbacks == old(handler.callbacks) + {clientId}
      ensures antiFlicker.activeDisplays == old(antiFlicker.activeDisplays)[clientId := true]
    {
      if !isActive {
        StartOptimization(now);
      }
      handler.RegisterDisplayCallback(clientId);
      antiFlicker.MarkDisplayActive(clientId);
    }

    /**
      `unregister_client`: only the anti-flicker state is dropped; the display callback stays
      registered, so the client's frames keep being displayed.
     */
    method UnregisterClient(clientId: string)
      modifies antiFlicker`activeDisplays, antiFlicker`lastDisplayTimes, antiFlicker`frameCounters
      ensures antiFlicker.activeDisplays == old(antiFlicker.activeDisplays)[clientId := false]
      ensures antiFlicker.lastDisplayTimes == old(antiFlicker.lastDisplayTimes) - {clientId}
      ensures antiFlicker.frameCounters == old(antiFlicker.frameCounters) - {clientId}
    {
      antiFlicker.MarkDisplayInactive(clientId);
    }

    /**
      `_optimized_display_callback`: a frame the anti-flicker gate refuses is counted as a
      prevented flicker and not shown; otherwise it goes to the application and is counted.
     */
    method OptimizedDisplayCallback(clientId: string, now: real)
      modifies this`framesDisplayed, this`flickerEventsPrevented, this`displayed
      modifies antiFlicker`lastDisplayTimes, antiFlicker`frameCounters
      ensures var show := DisplayAllowed(old(antiFlicker.lastDisplayTimes), clientId, now);
              if show
              then displayed == old(displayed) + [clientId] && framesDisplayed == old(framesDisplayed) + 1
                   && flickerEventsPrevented == old(flickerEventsPrevented)
                   && antiFlicker.lastDisplayTimes == old(antiFlicker.lastDisplayTimes)[clientId := now]
              else displayed == old(displayed) && framesDisplayed == old(framesDisplayed)
                   && flickerEventsPrevented == old(flickerEventsPrevented) + 1
                   && antiFlicker.lastDisplayTimes == old(antiFlicker.lastDisplayTimes)
    {
      var show := antiFlicker.ShouldDisplayFrame(clientId, now);
      if !show {
        flickerEventsPrevented := flickerEventsPrevented + 1;
        return;
      }
      displayed := displayed + [clientId];
      framesDisplayed := framesDisplayed + 1;
    }

    /**
      `process_video_packet_extreme`: a no-op when inactive. Otherwise the packet is handed straight
      to the frame processor, which shows a decodable frame of a client with a registered callback
      through the display callback, and the packet is counted as processed.
     */
    method ProcessVideoPacketExtreme(clientId: string, decodedOk: bool, now: real)
      modifies this`framesProcessed, this`framesDisplayed, this`flickerEventsPrevented, this`displayed
      modifies antiFlicker`lastDisplayTimes, antiFlicker`frameCounters
      ensures !isActive ==>
                framesProcessed == old(framesProcessed) && displayed == old(displayed)
                && framesDisplayed == old(framesDisplayed) && flickerEventsPrevented == old(flickerEventsPrevented)
                && antiFlicker.lastDisplayTimes == old(antiFlicker.lastDisplayTimes)
      ensures isActive ==> framesProcessed == old(framesProcessed) + 1
      ensures isActive && !(decodedOk && clientId in handler.callbacks) ==>
                displayed == old(displayed) && framesDisplayed == old(framesDisplayed)
                && flickerEventsPrevented == old(flickerEventsPrevented)
      ensures isActive && decodedOk && clientId in handler.callbacks ==>
                if DisplayAllowed(old(antiFlicker.lastDisplayTimes), clientId, now)
                then displayed == old(displayed) + [clientId] && framesDisplayed == old(framesDisplayed) + 1
                     && flickerEventsPrevented == old(flickerEventsPrevented)
                     && antiFlicker.lastDisplayTimes == old(antiFlicker.lastDisplayTimes)[clientId := now]
                else displayed == old(displayed) && framesDisplayed == old(framesDisplayed)
                     && flickerEventsPrevented == old(flickerEventsPrevented) + 1
                     && antiFlicker.lastDisplayTimes == old(antiFlicker.lastDisplayTimes)
    {
      if !isActive {
        return;
      }
      if decodedOk && clientId in handler.callbacks {
        OptimizedDisplayCallback(clientId, now);
      }
      framesProcessed := framesProcessed + 1;
    }
  }

  /**
    Two frames from one client 1 ms apart: the first is shown, the second suppressed; after the
    client is unregistered a third frame at the same instant is shown again, because the callback
    survives the unregistration and the gate has forgotten the client.
   */
  method FlickerGateDemo(clientId: string, t: real) returns (shownAfterUnregister: seq<string>)
    requires t > 0.0
    ensures shownAfterUnregister == [clientId, clientId]
  {
    var optimizer := new ExtremeVideoOptimizer();
    optimizer.RegisterClientDisplay(clientId, t);
    optimizer.ProcessVideoPacketExtreme(clientId, true, t);
    assert optimizer.displayed == [clientId];
    optimizer.ProcessVideoPacketExtreme(clientId, true, t + 0.001);
    assert optimizer.displayed == [clientId] && optimizer.flickerEventsPrevented == 1;
    optimizer.UnregisterClient(clientId);
    optimizer.ProcessVideoPacketExtreme(clientId, true, t + 0.001);
    shownAfterUnregister := optimizer.displayed;
  }
}
