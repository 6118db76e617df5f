/**
  The rate-limited display path of client/stable_video_system.py: a per-client frame buffer that
  accepts at most one frame per 1/30 s, a renderer that redraws a client's widget at most once per
  1/25 s and counts its failures, and the stability manager that counts successful and failed
  updates. Widgets are not modelled: whether a redraw worked is the boolean `widgetOk`, and a
  reset the renderer schedules on a timer is recorded in `scheduledResets`. One clock reading
  `now` stands for the two `time.time()` calls of an update.
 */
module StableVideoModel {
  import opened Wrappers
  import opened Bytes

  /** A decoded video frame. */
  type Image = seq<byte>

  /** `min_update_interval` of a frame buffer */
  const BufferInterval: real := 1.0 / 30.0
  /** `stable_update_rate` of the renderer */
  const WidgetInterval: real := 1.0 / 25.0
  /** `max_client_errors` */
  const MaxClientErrors: nat := 10

  /** `StableFrameBuffer`: the latest accepted frame of one client. */
  class StableFrameBuffer {
    const clientId: string
    var currentFrame: Image
    var frameReady: bool
    var lastUpdateTime: real
    var consecutiveErrors: nat

    constructor(clientId: string)
      ensures this.clientId == clientId && !frameReady && lastUpdateTime == 0.0 && consecutiveErrors == 0
    {
      this.clientId := clientId;
      currentFrame := [];
      frameReady := false;
      lastUpdateTime := 0.0;
      consecutiveErrors := 0;
    }

    /** Whether `add_frame` at `now` would accept a frame. */
    predicate Accepts(now: real)
      reads this`lastUpdateTime
    {
      now - lastUpdateTime >= BufferInterval
    }

    /**
      `add_frame`: a frame within 1/30 s of the last accepted one is refused and changes nothing;
      otherwise it becomes the current frame, the buffer is ready, and the error run ends.
     */
    method AddFrame(frame: Image, now: real) returns (ok: bool)
      modifies this`currentFrame, this`frameReady, this`lastUpdateTime, this`consecutiveErrors
      ensures ok <==> old(Accepts(now))
      ensures ok ==> currentFrame == frame && frameReady && lastUpdateTime == now && consecutiveErrors == 0
      ensures !ok ==> currentFrame == old(currentFrame) && frameReady == old(frameReady)
                      && lastUpdateTime == old(lastUpdateTime) && consecutiveErrors == old(consecutiveErrors)
    {
      if now - lastUpdateTime < BufferInterval {
        return false;
      }
      currentFrame, frameReady, lastUpdateTime, consecutiveErrors := frame, true, now, 0;
      ok := true;
    }

    /** `get_frame`: nothing until a frame has been accepted, then the latest accepted frame. */
    method GetFrame() returns (frame: Option<Image>)
      ensures frame.Some? <==> frameReady
      ensures frame.Some? ==> frame.value == currentFrame
    {
      frame := if frameReady then Some(currentFrame) else None;
    }
  }

  /** `StableVideoRenderer` */
  class StableVideoRenderer {
    var frameBuffers: map<string, StableFrameBuffer>
    /** `video_widgets[client]['last_update']` */
    var widgetLastUpdate: map<string, real>
    var clientErrors: map<string, nat>
    /** Clients for which `_handle_client_error` started the 2 s reset timer, in order. */
    var scheduledResets: seq<string>

    /** Every registered client has both a frame buffer and widget information. */
    ghost predicate Valid()
      reads this
    {
      frameBuffers.Keys == widgetLastUpdate.Keys
    }

    constructor()
      ensures Valid() && frameBuffers == map[] && widgetLastUpdate == map[] && clientErrors == map[]
      ensures scheduledResets == []
    {
      frameBuffers, widgetLastUpdate, clientErrors, scheduledResets := map[], map[], map[], [];
    }

    /** `register_client`: a fresh buffer, a widget never updated, and no errors; an earlier registration is replaced. */
    method RegisterClient(clientId: string)
      requires Valid()
      modifies this`frameBuffers, this`widgetLastUpdate, this`clientErrors
      ensures Valid()
      ensures clientId in frameBuffers && fresh(frameBuffers[clientId])
      ensures frameBuffers[clientId].clientId == clientId && !frameBuffers[clientId].frameReady
      ensures frameBuffers[clientId].lastUpdateTime == 0.0
      ensures frameBuffers == old(frameBuffers)[clientId := frameBuffers[clientId]]
      ensures widgetLastUpdate == old(widgetLastUpdate)[clientId := 0.0]
      ensures clientErrors == old(clientErrors)[clientId := 0]
    {
      var buffer := new StableFrameBuffer(clientId);
      frameBuffers := frameBuffers[clientId := buffer];
      widgetLastUpdate := widgetLastUpdate[clientId := 0.0];
      clientErrors := clientErrors[clientId := 0];
    }

    /** `_handle_client_error`: one more error; reaching 10 starts the reset timer. */
    method HandleClientError(clientId: string)
      modifies this`clientErrors, this`scheduledResets
      ensures var n := (if clientId in old(clientErrors) then old(clientErrors)[clientId] else 0) + 1;
              && clientErrors == old(clientErrors)[clientId := n]
              && scheduledResets == if n >= MaxClientErrors then old(scheduledResets) + [clientId] else old(scheduledResets)
    {
      var n := (if clientId in clientErrors then clientErrors[clientId] else 0) + 1;
      clientErrors := clientErrors[clientId := n];
      if n >= MaxClientErrors {
        scheduledResets := scheduledResets + [clientId];
      }
    }

    /** `_reset_client_errors`, as the timer runs it: the count is 0 again, registered or not. */
    method ResetClientErrors(clientId: string)
      modifies this`clientErrors
      ensures clientErrors == old(clientErrors)[clientId := 0]
    {
      clientErrors := clientErrors[clientId := 0];
    }

    /**
      `update_video_stable`: refused for an unregistered client and for a frame its buffer refuses,
      before any widget work; a widget redraw within 1/25 s of the last one is refused too. Only then
      is the widget redrawn: success records the time and clears the client's errors, failure is
      handled as a client error.
     */
    method UpdateVideoStable(clientId: string, frame: Image, now: real, widgetOk: bool) returns (ok: bool)
      requires Valid()
      modifies this`widgetLastUpdate, this`clientErrors, this`scheduledResets
      modifies if clientId in frameBuffers then {frameBuffers[clientId]} else {}
      ensures Valid()
      ensures ok <==> clientId in frameBuffers && old(frameBuffers[clientId].Accepts(now))
                      && now - old(widgetLastUpdate[clientId]) >= WidgetInterval && widgetOk
      ensures clientId !in frameBuffers || !old(frameBuffers[clientId].Accepts(now)) ==>
                widgetLastUpdate == old(widgetLastUpdate) && clientErrors == old(clientErrors)
                && scheduledResets == old(scheduledResets)
      ensures frameBuffers == old(frameBuffers)
      // a frame the buffer refuses leaves the buffer as it was
      ensures clientId in frameBuffers && !old(frameBuffers[clientId].Accepts(now)) ==>
                var b := frameBuffers[clientId];
                && b.currentFrame == old(b.currentFrame) && b.frameReady == old(b.frameReady)
                && b.lastUpdateTime == old(b.lastUpdateTime) && b.consecutiveErrors == old(b.consecutiveErrors)
      ensures clientId in frameBuffers && old(frameBuffers[clientId].Accepts(now)) ==>
                var b := frameBuffers[clientId];
                && b.currentFrame == frame && b.frameReady && b.lastUpdateTime == now && b.consecutiveErrors == 0
      ensures ok ==> widgetLastUpdate == old(widgetLastUpdate)[clientId := now] && clientErrors == old(clientErrors)[clientId := 0]
                     && scheduledResets == old(scheduledResets)
      // a failed redraw is one more error for this client only, the tenth scheduling a reset
      ensures clientId in frameBuffers && old(frameBuffers[clientId].Accepts(now))
              && now - old(widgetLastUpdate[clientId]) >= WidgetInterval && !widgetOk ==>
                var n := (if clientId in old(clientErrors) then old(clientErrors)[clientId] else 0) + 1;
                && widgetLastUpdate == old(widgetLastUpdate)
                && clientErrors == old(clientErrors)[clientId := n]
                && scheduledResets == if n >= MaxClientErrors then old(scheduledResets) + [clientId] else old(scheduledResets)
      ensures clientId in frameBuffers && old(frameBuffers[clientId].Accepts(now))
              && now - old(widgetLastUpdate[clientId]) < WidgetInterval ==>
                widgetLastUpdate == old(widgetLastUpdate) && clientErrors == old(clientErrors)
                && scheduledResets == old(scheduledResets)
    {
      if clientId !in frameBuffers {
        return false;
      }
      var buffer := frameBuffers[clientId];
      var added := buffer.AddFrame(frame, now);
      if !added {
        return false;
      }
      if now - widgetLastUpdate[clientId] < WidgetInterval {
        return false;
      }
      var stable := buffer.GetFrame();
      if stable.None? {
        return false;
      }
      if widgetOk {
        widgetLastUpdate := widgetLastUpdate[clientId := now];
        clientErrors := clientErrors[clientId := 0];
        return true;
      }
      HandleClientError(clientId);
      ok := false;
    }

    /** `unregister_client`: the buffer, the widget information and the error count go. */
    method UnregisterClient(clientId: string)
      requires Valid()
      modifies this`frameBuffers, this`widgetLastUpdate, this`clientErrors
      ensures Valid()
      ensures frameBuffers == old(frameBuffers) - {clientId}
      ensures widgetLastUpdate == old(widgetLastUpdate) - {clientId}
      ensures clientErrors == old(clientErrors) - {clientId}
    {
      frameBuffers := frameBuffers - {clientId};
      widgetLastUpdate := widgetLastUpdate - {clientId};
      clientErrors := clientErrors - {clientId};
    }
  }

  /** `StabilityManager` */
  class StabilityManager {
    const renderer: StableVideoRenderer
    var stabilityActive: bool
    var startTime: real
    var frameCount: nat
    var errorCount: nat

    constructor(now: real)
      ensures fresh(renderer) && renderer.Valid() && renderer.frameBuffers == map[]
      ensures !stabilityActive && frameCount == 0 && errorCount == 0 && startTime == now
    {
      renderer := new StableVideoRenderer();
      stabilityActive := false;
      startTime := now;
      frameCount, errorCount := 0, 0;
    }

    /** `enable_stability` */
    method EnableStability(now: real)
      modifies this`stabilityActive, this`startTime
      ensures stabilityActive && startTime == now
    {
      stabilityActive, startTime := true, now;
    }

    /** `disable_stability` */
    method DisableStability()
      modifies this`stabilityActive
      ensures !stabilityActive
    {
      stabilityActive := false;
    }

    /** `register_video_slot`: turns the manager on if it is off, then registers the client. */
    method RegisterVideoSlot(clientId: string, now: real)
      requires renderer.Valid()
      modifies this`stabilityActive, this`startTime, renderer`frameBuffers, renderer`widgetLastUpdate, renderer`clientErrors
      ensures renderer.Valid() && stabilityActive
      ensures old(stabilityActive) ==> startTime == old(startTime)
      ensures clientId in renderer.frameBuffers && renderer.widgetLastUpdate == old(renderer.widgetLastUpdate)[clientId := 0.0]
      ensures renderer.clientErrors == old(renderer.clientErrors)[clientId := 0]
    {
      if !stabilityActive {
        EnableStability(now);
      }
      renderer.RegisterClient(clientId);
    }

    /**
      `update_video_frame`: refused when the manager is off, with no counter touched; otherwise
      exactly one of the frame and error counters grows, according to the renderer's answer.
     */
    method UpdateVideoFrame(clientId: string, frame: Image, now: real, widgetOk: bool) returns (ok: bool)
      requires renderer.Valid()
      modifies this`frameCount, this`errorCount
      modifies renderer`widgetLastUpdate, renderer`clientErrors, renderer`scheduledResets
      modifies if clientId in renderer.frameBuffers then {renderer.frameBuffers[clientId]} else {}
      ensures renderer.Valid()
      ensures !stabilityActive ==> !ok && frameCount == old(frameCount) && errorCount == old(errorCount)
                                   && renderer.widgetLastUpdate == old(renderer.widgetLastUpdate)
      ensures stabilityActive ==>
                (ok <==> clientId in renderer.frameBuffers && old(renderer.frameBuffers[clientId].Accepts(now))
                         && now - old(renderer.widgetLastUpdate[clientId]) >= WidgetInterval && widgetOk)
      ensures stabilityActive && ok ==> frameCount == old(frameCount) + 1 && errorCount == old(errorCount)
      ensures stabilityActive && !ok ==> frameCount == old(frameCount) && errorCount == old(errorCount) + 1
    {
      if !stabilityActive {
        return false;
      }
      ok := renderer.UpdateVideoStable(clientId, frame, now, widgetOk);
      if ok {
        frameCount := frameCount + 1;
      } else {
        errorCount := errorCount + 1;
      }
    }

    /** `remove_video_slot` */
    method RemoveVideoSlot(clientId: string)
      requires renderer.Valid()
      modifies renderer`frameBuffers, renderer`widgetLastUpdate, renderer`clientErrors
      ensures renderer.Valid()
      ensures renderer.frameBuffers == old(renderer.frameBuffers) - {clientId}
      ensures renderer.clientErrors == old(renderer.clientErrors) - {clientId}
    {
      renderer.UnregisterClient(clientId);
    }
  }

  /**
    The tenth failed redraw in a row starts the reset timer, the ninth does not; running the timer
    brings the count back to 0.
   */
  method TenthErrorSchedulesReset(clientId: string) returns (count: nat, resets: seq<string>)
    ensures resets == [clientId] && count == 0
  {
    var renderer := new StableVideoRenderer();
    renderer.clientErrors := map[clientId := 8];
    renderer.HandleClientError(clientId);
    assert renderer.scheduledResets == [];
    renderer.HandleClientError(clientId);
    renderer.ResetClientErrors(clientId);
    count, resets := renderer.clientErrors[clientId], renderer.scheduledResets;
  }
}
