/**
  The video tiles of client/ultra_stable_gui.py: a per-client widget that redraws at most 20 times
  a second, parks early frames in a queue of two, and enters an error state after three failures
  in a row until a recovery timer clears it; and the manager that limits all redraws together to
  15 a second, parks early frames in a queue of ten and keeps the widget registry. Tk is not
  modelled: the outcomes of preparing an image, configuring the label and building the labels are
  the booleans of a `Redraw`, and the label's existence is the field `labelExists`.
 */
module UltraStableGuiModel {
  import opened Wrappers
  import opened Bytes

  /** A decoded video frame. */
  type Image = seq<byte>

  const WidgetInterval: real := 1.0 / 20.0
  const WidgetQueueSize: nat := 2
  const MaxErrors: nat := 3
  const GlobalInterval: real := 1.0 / 15.0
  const ManagerQueueSize: nat := 10
  /** The processor thread drops a parked frame this old. */
  const MaxFrameAge: real := 0.5

  /**
    What Tk does during one redraw: whether the image could be prepared, whether configuring the
    label worked, and whether rebuilding the labels (after the label was found destroyed) worked.
   */
  datatype Redraw = Redraw(prepared: bool, configured: bool, rebuilt: bool)

  /** An entry of the manager's queue: client, frame and the time it was parked. */
  datatype ParkedFrame = ParkedFrame(clientId: string, frame: Image, time: real)

  /** `UltraStableVideoWidget` */
  class UltraStableVideoWidget {
    const clientId: string
    var isInitialized: bool
    var labelExists: bool
    var lastUpdateTime: real
    var currentPhoto: Option<Image>
    /** `frame_queue`, a deque of length 2; nothing ever reads it. */
    var frameQueue: seq<Image>
    var consecutiveErrors: nat
    var isErrorState: bool
    /** Recovery timers started by `_handle_error`. */
    var scheduledRecoveries: nat

    /** `__init__` with its `_initialize_widget`: building the labels either works or leaves the widget in the error state. */
    constructor(clientId: string, built: bool)
      ensures this.clientId == clientId && lastUpdateTime == 0.0 && frameQueue == [] && currentPhoto.None?
      ensures consecutiveErrors == 0 && scheduledRecoveries == 0
      ensures isInitialized == built && labelExists == built && isErrorState == !built
    {
      this.clientId := clientId;
      lastUpdateTime := 0.0;
      currentPhoto := None;
      frameQueue := [];
      consecutiveErrors, scheduledRecoveries := 0, 0;
      isInitialized, labelExists, isErrorState := built, built, !built;
    }

    /** `_initialize_widget`: a no-op once initialized. */
    method Initialize(built: bool)
      modifies this`isInitialized, this`labelExists, this`isErrorState
      ensures old(isInitialized) ==> isInitialized && labelExists == old(labelExists) && isErrorState == old(isErrorState)
      ensures !old(isInitialized) && built ==> isInitialized && labelExists && isErrorState == old(isErrorState)
      ensures !old(isInitialized) && !built ==> !isInitialized && labelExists == old(labelExists) && isErrorState
    {
      if isInitialized {
        return;
      }
      if built {
        isInitialized, labelExists := true, true;
      } else {
        isErrorState := true;
      }
    }

    /** `_handle_error`: one more error; the third in a row enters the error state and starts the recovery timer. */
    method HandleError()
      modifies this`consecutiveErrors, this`isErrorState, this`scheduledRecoveries
      ensures consecutiveErrors == old(consecutiveErrors) + 1
      ensures consecutiveErrors >= MaxErrors ==> isErrorState && scheduledRecoveries == old(scheduledRecoveries) + 1
      ensures consecutiveErrors < MaxErrors ==> isErrorState == old(isErrorState) && scheduledRecoveries == old(scheduledRecoveries)
    {
      consecutiveErrors := consecutiveErrors + 1;
      if consecutiveErrors >= MaxErrors {
        isErrorState := true;
        scheduledRecoveries := scheduledRecoveries + 1;
      }
    }

    /** `_recover_from_error`: the error run and state are cleared; a destroyed label is rebuilt. */
    method RecoverFromError(built: bool)
      modifies this`consecutiveErrors, this`isErrorState, this`isInitialized, this`labelExists
      ensures consecutiveErrors == 0
      ensures old(labelExists) ==> !isErrorState && isInitialized == old(isInitialized) && labelExists
      ensures !old(labelExists) ==> isInitialized == built && labelExists == built && isErrorState == !built
    {
      consecutiveErrors, isErrorState := 0, false;
      if !labelExists {
        isInitialized := false;
        Initialize(built);
      }
    }

    /**
      `update_frame`. Within 1/20 s of the last redraw the frame is parked (the queue keeps the two
      newest) and nothing else changes. Otherwise an uninitialized widget or one in the error state
      refuses; an image that cannot be prepared, or a label that refuses the image, counts an error;
      a destroyed label is rebuilt and the frame is not shown. A redraw that works records the time
      and clears the error run and the error state.
     */
    method UpdateFrame(frame: Image, now: real, r: Redraw) returns (ok: bool)
      modifies this`frameQueue, this`currentPhoto, this`lastUpdateTime, this`consecutiveErrors, this`isErrorState
      modifies this`scheduledRecoveries, this`isInitialized, this`labelExists
      ensures old(labelExists) ==> isInitialized == old(isInitialized) && labelExists
      ensures ok <==> now - old(lastUpdateTime) >= WidgetInterval && old(isInitialized) && !old(isErrorState)
                      && |frame| > 0 && r.prepared && old(labelExists) && r.configured
      ensures now - old(lastUpdateTime) < WidgetInterval ==>
                frameQueue == KeepLast(old(frameQueue) + [frame], WidgetQueueSize)
                && lastUpdateTime == old(lastUpdateTime) && consecutiveErrors == old(consecutiveErrors)
                && isErrorState == old(isErrorState) && currentPhoto == old(currentPhoto)
      ensures now - old(lastUpdateTime) >= WidgetInterval ==> frameQueue == old(frameQueue)
      ensures now - old(lastUpdateTime) >= WidgetInterval && (!old(isInitialized) || old(isErrorState)) ==>
                lastUpdateTime == old(lastUpdateTime) && consecutiveErrors == old(consecutiveErrors)
                && isErrorState == old(isErrorState)
      ensures ok ==> lastUpdateTime == now && currentPhoto == Some(frame) && consecutiveErrors == 0 && !isErrorState
      ensures !ok ==> lastUpdateTime == old(lastUpdateTime) && currentPhoto == old(currentPhoto)
      ensures now - old(lastUpdateTime) >= WidgetInterval && old(isInitialized) && !old(isErrorState)
              && (|frame| == 0 || !r.prepared || (old(labelExists) && !r.configured)) ==>
                consecutiveErrors == old(consecutiveErrors) + 1
                && (consecutiveErrors >= MaxErrors ==> isErrorState)
      ensures now - old(lastUpdateTime) >= WidgetInterval && old(isInitialized) && !old(isErrorState)
              && |frame| > 0 && r.prepared && !old(labelExists) ==>
                isInitialized == r.rebuilt && labelExists == r.rebuilt && isErrorState == !r.rebuilt
                && consecutiveErrors == old(consecutiveErrors)
    {
      if now - lastUpdateTime < WidgetInterval {
        frameQueue := KeepLast(frameQueue + [frame], WidgetQueueSize);
        return false;
      }
      if !isInitialized || isErrorState {
        return false;
      }
      if |frame| == 0 || !r.prepared {
        HandleError();
        return false;
      }
      if labelExists {
        if r.configured {
          currentPhoto := Some(frame);
          lastUpdateTime := now;
          consecutiveErrors, isErrorState := 0, false;
          return true;
        }
        HandleError();
        return false;
      }
      isInitialized := false;
      Initialize(r.rebuilt);
      ok := false;
    }

    /** `destroy` */
    method Destroy()
      modifies this`isInitialized, this`labelExists
      ensures !isInitialized && !labelExists
    {
      isInitialized, labelExists := false, false;
    }
  }

  /** `UltraStableVideoManager` */
  class UltraStableVideoManager {
    var widgets: map<string, UltraStableVideoWidget>
    /** The keys of `video_slots`. */
    var slots: set<string>
    var lastGlobalUpdate: real
    /** `frame_queue`, a deque of length 10. */
    var frameQueue: seq<ParkedFrame>
    var processingActive: bool

    /** `__init__`, which also starts the frame processor. */
    constructor()
      ensures widgets == map[] && slots == {} && lastGlobalUpdate == 0.0 && frameQueue == [] && processingActive
    {
      widgets, slots, lastGlobalUpdate, frameQueue := map[], {}, 0.0, [];
      processingActive := true;
    }

    /** `register_video_slot`: the slot is recorded; a widget is created only for a client without one. */
    method RegisterVideoSlot(clientId: string, built: bool)
      modifies this`widgets, this`slots
      ensures slots == old(slots) + {clientId}
      ensures clientId in old(widgets) ==> widgets == old(widgets)
      ensures clientId !in old(widgets) ==>
                clientId in widgets && fresh(widgets[clientId]) && widgets == old(widgets)[clientId := widgets[clientId]]
                && widgets[clientId].isInitialized == built && widgets[clientId].lastUpdateTime == 0.0
                && widgets[clientId].consecutiveErrors == 0 && widgets[clientId].isErrorState == !built
    {
      slots := slots + {clientId};
      if clientId !in widgets {
        var widget := new UltraStableVideoWidget(clientId, built);
        widgets := widgets[clientId := widget];
      }
    }

    /**
      `update_video_frame`: within 1/15 s of the last successful redraw of any client the frame is
      parked in the manager's queue (the ten newest are kept) and refused. Otherwise an unknown
      client is refused, and a known one's widget decides; only its success moves the global time.
     */
    method UpdateVideoFrame(clientId: string, frame: Image, now: real, r: Redraw) returns (ok: bool)
      modifies this`frameQueue, this`lastGlobalUpdate
      modifies if clientId in widgets then {widgets[clientId]} else {}
      ensures now - old(lastGlobalUpdate) < GlobalInterval ==>
                !ok && frameQueue == KeepLast(old(frameQueue) + [ParkedFrame(clientId, frame, now)], ManagerQueueSize)
                && lastGlobalUpdate == old(lastGlobalUpdate)
      ensures now - old(lastGlobalUpdate) >= GlobalInterval ==> frameQueue == old(frameQueue)
      ensures now - old(lastGlobalUpdate) >= GlobalInterval && clientId !in widgets ==> !ok && lastGlobalUpdate == old(lastGlobalUpdate)
      ensures now - old(lastGlobalUpdate) >= GlobalInterval && clientId in widgets ==>
                var w := widgets[clientId];
                (ok <==> now - old(w.lastUpdateTime) >= WidgetInterval && old(w.isInitialized) && !old(w.isErrorState)
                         && |frame| > 0 && r.prepared && old(w.labelExists) && r.configured)
                && lastGlobalUpdate == if ok then now else old(lastGlobalUpdate)
      ensures ok ==> clientId in widgets
      ensures now - old(lastGlobalUpdate) < GlobalInterval && clientId in widgets ==> unchanged(widgets[clientId])
      // the widget's new state, as its own redraw leaves it
      ensures clientId in widgets ==>
                var w := widgets[clientId];
                && (ok ==> w.lastUpdateTime == now && w.currentPhoto == Some(frame) && w.consecutiveErrors == 0 && !w.isErrorState)
                && (!ok ==> w.lastUpdateTime == old(w.lastUpdateTime) && w.currentPhoto == old(w.currentPhoto))
      ensures now - old(lastGlobalUpdate) >= GlobalInterval && clientId in widgets ==>
                var w := widgets[clientId];
                now - old(w.lastUpdateTime) >= WidgetInterval && old(w.isInitialized) && !old(w.isErrorState)
                && (|frame| == 0 || !r.prepared || (old(w.labelExists) && !r.configured)) ==>
                  w.consecutiveErrors == old(w.consecutiveErrors) + 1 && (w.consecutiveErrors >= MaxErrors ==> w.isErrorState)
    {
      if now - lastGlobalUpdate < GlobalInterval {
        frameQueue := KeepLast(frameQueue + [ParkedFrame(clientId, frame, now)], ManagerQueueSize);
        return false;
      }
      if clientId !in widgets {
        return false;
      }
      ok := widgets[clientId].UpdateFrame(frame, now, r);
      if ok {
        lastGlobalUpdate := now;
      }
    }

    /**
      One pass of `_process_frame_queue`: the oldest parked frame is taken out and redrawn only if
      it was parked less than 0.5 s ago; an older one is dropped. `taken` is the frame taken, if any.
     */
    method ProcessQueueStep(now: real, r: Redraw) returns (taken: Option<ParkedFrame>, ok: bool)
      modifies this`frameQueue, this`lastGlobalUpdate, widgets.Values
      ensures old(frameQueue) == [] ==> taken.None? && !ok && frameQueue == [] && lastGlobalUpdate == old(lastGlobalUpdate)
      ensures old(frameQueue) != [] ==> taken == Some(old(frameQueue)[0])
      ensures old(frameQueue) != [] && now - old(frameQueue)[0].time >= MaxFrameAge ==>
                !ok && frameQueue == old(frameQueue)[1..] && lastGlobalUpdate == old(lastGlobalUpdate)
      ensures ok ==> old(frameQueue) != [] && now - old(frameQueue)[0].time < MaxFrameAge
                     && taken.value.clientId in widgets && lastGlobalUpdate == now
      ensures widgets == old(widgets)
      ensures old(frameQueue) == [] || now - old(frameQueue)[0].time >= MaxFrameAge ==> unchanged(widgets.Values)
      // a fresh frame goes through `update_video_frame` again: parked anew while the global limit
      // holds, otherwise redrawn by its client's widget
      ensures old(frameQueue) != [] && now - old(frameQueue)[0].time < MaxFrameAge ==>
                var p := old(frameQueue)[0];
                && (now - old(lastGlobalUpdate) < GlobalInterval ==>
                      !ok && lastGlobalUpdate == old(lastGlobalUpdate) && unchanged(widgets.Values)
                      && frameQueue == KeepLast(old(frameQueue)[1..] + [ParkedFrame(p.clientId, p.frame, now)], ManagerQueueSize))
                && (now - old(lastGlobalUpdate) >= GlobalInterval ==>
                      && frameQueue == old(frameQueue)[1..]
                      && lastGlobalUpdate == (if ok then now else old(lastGlobalUpdate))
                      && (ok <==> p.clientId in widgets && now - old(widgets[p.clientId].lastUpdateTime) >= WidgetInterval
                                  && old(widgets[p.clientId].isInitialized) && !old(widgets[p.clientId].isErrorState)
                                  && |p.frame| > 0 && r.prepared && old(widgets[p.clientId].labelExists) && r.configured))
      ensures old(frameQueue) != [] && now - old(frameQueue)[0].time < MaxFrameAge && old(frameQueue)[0].clientId in widgets ==>
                var p := old(frameQueue)[0];
                var w := widgets[p.clientId];
                && (forall c :: c in widgets && widgets[c] != w ==> unchanged(widgets[c]))
                && (ok ==> w.lastUpdateTime == now && w.currentPhoto == Some(p.frame) && w.consecutiveErrors == 0 && !w.isErrorState)
                && (!ok ==> w.lastUpdateTime == old(w.lastUpdateTime) && w.currentPhoto == old(w.currentPhoto))
                && (now - old(lastGlobalUpdate) >= GlobalInterval && now - old(w.lastUpdateTime) >= WidgetInterval
                    && old(w.isInitialized) && !old(w.isErrorState)
                    && (|p.frame| == 0 || !r.prepared || (old(w.labelExists) && !r.configured)) ==>
                      w.consecutiveErrors == old(w.consecutiveErrors) + 1 && (w.consecutiveErrors >= MaxErrors ==> w.isErrorState))
    {
      if frameQueue == [] {
        return None, false;
      }
      var parked := frameQueue[0];
      frameQueue := frameQueue[1..];
      taken := Some(parked);
      ok := false;
      if now - parked.time < MaxFrameAge {
        ok := UpdateVideoFrame(parked.clientId, parked.frame, now, r);
      }
    }

    /** `unregister_video_slot`: the widget (destroyed) and the slot both go. */
    method UnregisterVideoSlot(clientId: string)
      modifies this`widgets, this`slots
      modifies if clientId in widgets then {widgets[clientId]} else {}
      ensures widgets == old(widgets) - {clientId}
      ensures slots == old(slots) - {clientId}
      ensures clientId in old(widgets) ==> !old(widgets)[clientId].isInitialized && !old(widgets)[clientId].labelExists
    {
      if clientId in widgets {
        widgets[clientId].Destroy();
        widgets := widgets - {clientId};
      }
      slots := slots - {clientId};
    }
    /**
      `shutdown`: the frame processor is stopped and every client with a widget is unregistered,
      one by one; slots without a widget stay.
     */
    method Shutdown()
      modifies this`processingActive, this`widgets, this`slots, widgets.Values
      ensures !processingActive && widgets == map[]
      ensures slots == old(slots) - old(widgets).Keys
      ensures forall c :: c in old(widgets) ==> !old(widgets)[c].isInitialized && !old(widgets)[c].labelExists
    {
      processingActive := false;
      ghost var original := widgets;
      while widgets != map[]
        invariant !processingActive && widgets.Keys <= original.Keys
        invariant forall c :: c in widgets ==> widgets[c] == original[c]
        invariant slots == old(slots) - (original.Keys - widgets.Keys)
        invariant forall c :: c in original && c !in widgets ==> !original[c].isInitialized && !original[c].labelExists
        decreases |widgets.Keys|
      {
        var c :| c in widgets;
        ghost var before := widgets.Keys;
        UnregisterVideoSlot(c);
        assert widgets.Keys == before - {c};
      }
    }
  }

  /**
    Three failed redraws in a row put a widget in the error state, where even a good redraw is
    refused; after the recovery timer runs, the next good redraw is shown.
   */
  method ErrorStateDemo(frame: Image) returns (shownInError: bool, shown: bool)
    requires |frame| > 0
    ensures !shownInError && shown
  {
    var w := new UltraStableVideoWidget("peer", true);
    var bad := Redraw(false, true, true);
    var good := Redraw(true, true, true);
    var a := w.UpdateFrame(frame, 1.0, bad);
    var b := w.UpdateFrame(frame, 1.1, bad);
    var c := w.UpdateFrame(frame, 1.2, bad);
    assert w.isErrorState;
    shownInError := w.UpdateFrame(frame, 1.3, good);
    w.RecoverFromError(true);
    shown := w.UpdateFrame(frame, 1.4, good);
  }
}
