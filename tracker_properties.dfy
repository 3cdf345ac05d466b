/**
 * What the tracker promises: which events it leaves alone, which it absorbs,
 * how a drag starts and ends, and that a drag's accumulated geometry never
 * loses motion to the write throttle.
 */
module TrackerProperties {
  import opened Options
  import opened Geometry
  import opened Modifiers
  import opened UsageMetrics
  import opened Accessibility
  import opened Tracker

  /** A tap-disabled notification is never absorbed and changes nothing. */
  lemma TapDisabledChangesNothing(from: State, info: TrackingInfo, moveModifiers: ModifierSet,
                                  resizeModifiers: ModifierSet, layout: Layout, kind: EventKind,
                                  event: Event, now: real, length: Length)
    requires kind.IsTapDisabled()
    ensures Step(from, info, moveModifiers, resizeModifiers, layout, kind, event, now, length)
         == Outcome(from, info, false, None, None)
  {
  }

  /** With both modifier sets empty, no event is absorbed and nothing changes. */
  lemma NoModifiersChangesNothing(from: State, info: TrackingInfo, layout: Layout, kind: EventKind,
                                  event: Event, now: real, length: Length)
    ensures Step(from, info, {}, {}, layout, kind, event, now, length) == Outcome(from, info, false, None, None)
  {
  }

  /** Classification: moving when the move set matches, else resizing when the resize set does. */
  lemma ClassificationTable(moveModifiers: ModifierSet, resizeModifiers: ModifierSet, flags: EventFlags)
    ensures Classify(moveModifiers, resizeModifiers, flags) == Moving
        <==> ExclusivelySet(moveModifiers, flags)
    ensures Classify(moveModifiers, resizeModifiers, flags) == Resizing
        <==> !ExclusivelySet(moveModifiers, flags) && ExclusivelySet(resizeModifiers, flags)
    ensures Classify(moveModifiers, resizeModifiers, flags) == Idle
        <==> !ExclusivelySet(moveModifiers, flags) && !ExclusivelySet(resizeModifiers, flags)
  {
  }

  /**
   * An event that gets past the guards always leaves the tracker in the state
   * it asks for, even when no window was found to start a drag on.
   */
  lemma StateFollowsEvent(from: State, info: TrackingInfo, moveModifiers: ModifierSet,
                          resizeModifiers: ModifierSet, layout: Layout, kind: EventKind,
                          event: Event, now: real, length: Length)
    requires Considered(kind, moveModifiers, resizeModifiers)
    ensures Step(from, info, moveModifiers, resizeModifiers, layout, kind, event, now, length).state
         == Classify(moveModifiers, resizeModifiers, event.flags)
  {
  }

  /**
   * The absorbed events: starting a drag from idle, switching from resizing to
   * moving, and switching from moving to resizing when the tracked window's
   * size can be read. Continuing and ending a drag are never absorbed.
   */
  lemma AbsorbedEvents(from: State, info: TrackingInfo, moveModifiers: ModifierSet,
                       resizeModifiers: ModifierSet, layout: Layout, kind: EventKind,
                       event: Event, now: real, length: Length)
    ensures
      var o := Step(from, info, moveModifiers, resizeModifiers, layout, kind, event, now, length);
      var next := Classify(moveModifiers, resizeModifiers, event.flags);
      o.absorbed <==>
        Considered(kind, moveModifiers, resizeModifiers) &&
        ((from == Idle && next != Idle)
         || (from == Resizing && next == Moving)
         || (from == Moving && next == Resizing
             && info.window.Some? && SizeOf(layout, info.window.value).Some?))
  {
  }

  /**
   * Leaving a drag resets the timer and hands the drag's distance and area to
   * today's metrics; nothing is written to the window.
   */
  lemma DragEnd(from: State, info: TrackingInfo, moveModifiers: ModifierSet,
                resizeModifiers: ModifierSet, layout: Layout, kind: EventKind,
                event: Event, now: real, length: Length)
    requires Considered(kind, moveModifiers, resizeModifiers)
    requires from != Idle && Classify(moveModifiers, resizeModifiers, event.flags) == Idle
    ensures Step(from, info, moveModifiers, resizeModifiers, layout, kind, event, now, length)
         == Outcome(Idle, info.(time := 0.0), false, None, Some(Metrics(info.distanceMoved, info.areaResized)))
  {
  }

  /** An event that is not for the tracker while idle does nothing. */
  lemma IdleStaysIdle(info: TrackingInfo, moveModifiers: ModifierSet, resizeModifiers: ModifierSet,
                      layout: Layout, kind: EventKind, event: Event, now: real, length: Length)
    requires Classify(moveModifiers, resizeModifiers, event.flags) == Idle
    ensures Step(Idle, info, moveModifiers, resizeModifiers, layout, kind, event, now, length)
         == Outcome(Idle, info, false, None, None)
  {
  }

  /**
   * Only the end of a drag touches the metrics, and only continuing a drag
   * writes to a window.
   */
  lemma EffectsBelongToDrags(from: State, info: TrackingInfo, moveModifiers: ModifierSet,
                             resizeModifiers: ModifierSet, layout: Layout, kind: EventKind,
                             event: Event, now: real, length: Length)
    ensures
      var o := Step(from, info, moveModifiers, resizeModifiers, layout, kind, event, now, length);
      && (o.dragTotal.Some? ==> from != Idle && o.state == Idle)
      && (o.write.Some? ==> from != Idle && o.state == from)
  {
  }

  /**
   * `startTracking`: with no window under the mouse the record is left as it
   * was; otherwise it tracks that window from its origin (zero when
   * unreadable), starting the clock and zeroing distance and area.
   */
  lemma StartTrackingSnapshot(info: TrackingInfo, layout: Layout, location: Point, now: real)
    ensures WindowAt(layout, location).None? ==> Started(info, layout, location, now) == info
    ensures WindowAt(layout, location).Some? ==>
      var r := Started(info, layout, location, now);
      && r.window == WindowAt(layout, location)
      && r.origin == OriginOf(layout, r.window.value).GetOr(ZeroPoint)
      && r.time == now && r.distanceMoved == 0.0 && r.areaResized == 0.0
      && r.size == info.size
  {
  }

  /**
   * `keepMoving`: distance and origin always accumulate; the origin is written,
   * and the timer reset, only once more than the move interval has passed.
   */
  lemma MoveStepAccumulates(info: TrackingInfo, delta: Delta, length: Length, now: real)
    ensures info.window.None? ==> MoveStep(info, delta, length, now) == (info, None)
    ensures info.window.Some? ==>
      var (r, write) := MoveStep(info, delta, length, now);
      && r.window == info.window && r.size == info.size && r.areaResized == info.areaResized
      && r.origin == Offset(info.origin, delta)
      && r.distanceMoved == info.distanceMoved + length
      && (write.Some? <==> now - info.time > MoveFilterInterval)
      && (write.Some? ==> write.value == SetOrigin(info.window.value, r.origin) && r.time == now)
      && (write.None? ==> r.time == info.time)
  {
  }

  /**
   * `keepResizing`: distance, area, origin and size always accumulate; the
   * size is written, and the timer reset, only once more than the resize
   * interval has passed.
   */
  lemma ResizeStepAccumulates(info: TrackingInfo, delta: Delta, length: Length, now: real)
    ensures info.window.None? ==> ResizeStep(info, delta, length, now) == (info, None)
    ensures info.window.Some? ==>
      var (r, write) := ResizeStep(info, delta, length, now);
      && r.window == info.window
      && r.origin == Offset(info.origin, delta)
      && r.size == Grow(info.size, delta)
      && r.distanceMoved == info.distanceMoved + length
      && r.areaResized == info.areaResized + AreaDelta(info.size, delta)
      && (write.Some? <==> now - info.time > ResizeFilterInterval)
      && (write.Some? ==> write.value == SetSize(info.window.value, r.size) && r.time == now)
      && (write.None? ==> r.time == info.time)
  {
  }

  /**
   * Starting a move where there is no window still enters the moving state,
   * absorbs the event and keeps the previous drag's record, so the next
   * continuing event moves the previously tracked window.
   */
  lemma StartWithoutWindowKeepsPreviousWindow(info: TrackingInfo, moveModifiers: ModifierSet,
                                              resizeModifiers: ModifierSet, layout: Layout,
                                              first: Event, now: real, length: Length,
                                              second: Event, later: real, secondLength: Length)
    requires info.window.Some? && WindowAt(layout, first.location).None?
    requires Considered(MouseMoved, moveModifiers, resizeModifiers)
    requires Classify(moveModifiers, resizeModifiers, first.flags) == Moving
    requires Classify(moveModifiers, resizeModifiers, second.flags) == Moving
    requires later - info.time > MoveFilterInterval
    ensures
      var o1 := Step(Idle, info, moveModifiers, resizeModifiers, layout, MouseMoved, first, now, length);
      var o2 := Step(o1.state, o1.info, moveModifiers, resizeModifiers, layout, MouseMoved, second, later, secondLength);
      && o1 == Outcome(Moving, info, true, None, None)
      && o2.write == Some(SetOrigin(info.window.value, Offset(info.origin, second.mouseDelta)))
  {
  }

  /** One mouse-moved event of a drag: its delta, the delta's length and the media time. */
  datatype Motion = Motion(delta: Delta, length: Length, time: real)

  /** The record after a run of events that all continue a move. */
  function MoveDrag(info: TrackingInfo, motions: seq<Motion>): TrackingInfo
    decreases |motions|
  {
    if motions == [] then info
    else MoveDrag(MoveStep(info, motions[0].delta, motions[0].length, motions[0].time).0, motions[1..])
  }

  /** The record after a run of events that all continue a resize. */
  function ResizeDrag(info: TrackingInfo, motions: seq<Motion>): TrackingInfo
    decreases |motions|
  {
    if motions == [] then info
    else ResizeDrag(ResizeStep(info, motions[0].delta, motions[0].length, motions[0].time).0, motions[1..])
  }

  function TotalDelta(motions: seq<Motion>): Delta
  {
    if motions == [] then NoMotion else Combine(motions[0].delta, TotalDelta(motions[1..]))
  }

  function TotalLength(motions: seq<Motion>): real
  {
    if motions == [] then 0.0 else motions[0].length + TotalLength(motions[1..])
  }

  /**
   * However the throttle spaces out the writes, a move drag's origin is the
   * start origin plus every delta, and its distance the sum of every length.
   */
  lemma {:induction false} NoMovementLost(info: TrackingInfo, motions: seq<Motion>)
    requires info.window.Some?
    ensures MoveDrag(info, motions).window == info.window
    ensures MoveDrag(info, motions).origin == Offset(info.origin, TotalDelta(motions))
    ensures MoveDrag(info, motions).distanceMoved == info.distanceMoved + TotalLength(motions)
    decreases |motions|
  {
    if motions != [] {
      var m := motions[0];
      var next := MoveStep(info, m.delta, m.length, m.time).0;
      MoveStepAccumulates(info, m.delta, m.length, m.time);
      NoMovementLost(next, motions[1..]);
    }
  }

  /**
   * A resize drag's size is the start size plus every delta; when the window
   * only grows, the area it accumulates is exactly the area gained.
   */
  lemma {:induction false} ResizeAreaTelescopes(info: TrackingInfo, motions: seq<Motion>)
    requires info.window.Some?
    ensures ResizeDrag(info, motions).window == info.window
    ensures ResizeDrag(info, motions).size == Grow(info.size, TotalDelta(motions))
    ensures ResizeDrag(info, motions).distanceMoved == info.distanceMoved + TotalLength(motions)
    ensures (forall i :: 0 <= i < |motions| ==> 0.0 <= motions[i].delta.dx && 0.0 <= motions[i].delta.dy) ==>
      ResizeDrag(info, motions).areaResized
        == info.areaResized + Area(ResizeDrag(info, motions).size) - Area(info.size)
    decreases |motions|
  {
    if motions != [] {
      var m := motions[0];
      var next := ResizeStep(info, m.delta, m.length, m.time).0;
      ResizeStepAccumulates(info, m.delta, m.length, m.time);
      ResizeAreaTelescopes(next, motions[1..]);
      assert forall i :: 0 <= i < |motions[1..]| ==> motions[1..][i] == motions[i + 1];
    }
  }

  /**
   * A whole move: window 7 sits at (10, 20) under the mouse. Holding the
   * move keys starts a drag (absorbed); a (5, 0) motion 1 s later moves the
   * window to (15, 20) (not absorbed); releasing the keys ends the drag, not
   * absorbed, with distance 5 for today's metrics.
   */
  lemma MoveScenario(moveModifiers: ModifierSet, resizeModifiers: ModifierSet, held: EventFlags, released: EventFlags)
    requires !IsEmpty(moveModifiers) && ExclusivelySet(moveModifiers, held)
    requires !ExclusivelySet(moveModifiers, released) && !ExclusivelySet(resizeModifiers, released)
    ensures
      var layout := Layout(map[Point(12.0, 25.0) := 7], map[7 := Point(10.0, 20.0)], map[]);
      var o1 := Step(Idle, InitialInfo, moveModifiers, resizeModifiers, layout, MouseMoved,
                     Event(Point(12.0, 25.0), held, NoMotion), 100.0, 0.0);
      var o2 := Step(o1.state, o1.info, moveModifiers, resizeModifiers, layout, MouseMoved,
                     Event(Point(17.0, 25.0), held, Delta(5.0, 0.0)), 101.0, 5.0);
      var o3 := Step(o2.state, o2.info, moveModifiers, resizeModifiers, layout, MouseMoved,
                     Event(Point(17.0, 25.0), released, NoMotion), 102.0, 0.0);
      && o1.state == Moving && o1.absorbed && o1.info.origin == Point(10.0, 20.0)
      && o2.state == Moving && !o2.absorbed && o2.write == Some(SetOrigin(7, Point(15.0, 20.0)))
      && o3.state == Idle && !o3.absorbed && o3.dragTotal == Some(Metrics(5.0, 0.0))
  {
    var layout := Layout(map[Point(12.0, 25.0) := 7], map[7 := Point(10.0, 20.0)], map[]);
    assert WindowAt(layout, Point(12.0, 25.0)) == Some(7);
    var started := Started(InitialInfo, layout, Point(12.0, 25.0), 100.0);
    assert started.window == Some(7) && started.origin == Point(10.0, 20.0) && started.time == 100.0;
    var (moved, write) := MoveStep(started, Delta(5.0, 0.0), 5.0, 101.0);
    assert write == Some(SetOrigin(7, Point(15.0, 20.0)));
    assert moved.distanceMoved == 5.0 && moved.areaResized == 0.0;
  }
}
