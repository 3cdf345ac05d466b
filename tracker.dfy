/**
 * The mouse-tracking state machine. Each mouse-moved event is classified by
 * the move and resize modifier sets into idle, moving or resizing; a 3x3
 * transition table over the current state then starts, continues or ends a
 * drag. A drag accumulates origin, size, distance and swept area on every
 * event, while writes to the window are throttled by elapsed time.
 *
 * The media clock (`CACurrentMediaTime`) is a `now` parameter in seconds, the
 * wall clock a `clock` date, and the length of a mouse delta (a square root)
 * the tracker's `magnitude` function, about which only that it is never
 * negative is known.
 */
module Tracker {
  import opened Options
  import opened Geometry
  import opened Modifiers
  import opened UsageMetrics
  import opened History
  import opened Accessibility

  /** Minimum seconds between two origin writes while moving. */
  const MoveFilterInterval: real := 0.01

  /** Minimum seconds between two size writes while resizing. */
  const ResizeFilterInterval: real := 0.02

  datatype State = Idle | Moving | Resizing

  datatype EventKind = MouseMoved | TapDisabledByTimeout | TapDisabledByUserInput {
    /** The event source reports that the system switched the event tap off. */
    predicate IsTapDisabled()
    {
      TapDisabledByTimeout? || TapDisabledByUserInput?
    }
  }

  /** What the tracker reads of an event: where, which flags, how far the mouse moved. */
  datatype Event = Event(location: Point, flags: EventFlags, mouseDelta: Delta)

  /** The per-drag record. */
  datatype TrackingInfo = TrackingInfo(
    window: Option<WindowId>,
    time: real,
    origin: Point,
    size: Size,
    distanceMoved: real,
    areaResized: real)

  /** A fresh record: no window, everything zero. */
  const InitialInfo := TrackingInfo(None, 0.0, ZeroPoint, Size(0.0, 0.0), 0.0, 0.0)

  /** The state an event asks for; when both sets match, moving wins. */
  function NextState(move: bool, resize: bool): (s: State)
    ensures s == Moving <==> move
    ensures s == Resizing <==> !move && resize
    ensures s == Idle <==> !move && !resize
  {
    match (move, resize)
    case (true, false) => Moving
    case (false, true) => Resizing
    case (true, true) => Moving
    case (false, false) => Idle
  }

  function Classify(moveModifiers: ModifierSet, resizeModifiers: ModifierSet, flags: EventFlags): State
  {
    NextState(ExclusivelySet(moveModifiers, flags), ExclusivelySet(resizeModifiers, flags))
  }

  /** `startTracking`: snapshot the window under the mouse, if there is one. */
  function Started(info: TrackingInfo, layout: Layout, location: Point, now: real): (r: TrackingInfo)
    ensures r == info || (r.window == WindowAt(layout, location) && r.distanceMoved == 0.0 && r.areaResized == 0.0)
    ensures r.size == info.size
  {
    match WindowAt(layout, location)
    case None => info
    case Some(w) =>
      info.(time := now, origin := OriginOf(layout, w).GetOr(ZeroPoint), window := Some(w),
            distanceMoved := 0.0, areaResized := 0.0)
  }

  /** `determineResizeParams`: record the tracked window's size, if it can be read. */
  function ResizeParams(info: TrackingInfo, layout: Layout): (r: (TrackingInfo, bool))
    ensures r.1 <==> info.window.Some? && SizeOf(layout, info.window.value).Some?
    ensures r.1 ==> SizeOf(layout, info.window.value) == Some(r.0.size)
    ensures r.0 == info.(size := r.0.size)
    ensures !r.1 ==> r.0 == info
  {
    if info.window.Some? && SizeOf(layout, info.window.value).Some? then
      (info.(size := SizeOf(layout, info.window.value).value), true)
    else
      (info, false)
  }

  /** `keepMoving`: accumulate, then write the origin if the interval has passed. */
  function MoveStep(info: TrackingInfo, delta: Delta, length: Length, now: real): (r: (TrackingInfo, Option<Write>))
    ensures r.0.window == info.window && r.0.size == info.size && r.0.areaResized == info.areaResized
    ensures r.1.Some? ==> r.1.value.SetOrigin? && Some(r.1.value.window) == info.window && r.1.value.origin == r.0.origin
  {
    match info.window
    case None => (info, None)
    case Some(w) =>
      var moved := info.(distanceMoved := info.distanceMoved + length, origin := Offset(info.origin, delta));
      if now - moved.time > MoveFilterInterval then
        (moved.(time := now), Some(SetOrigin(w, moved.origin)))
      else
        (moved, None)
  }

  /** `keepResizing`: accumulate, then write the size if the interval has passed. */
  function ResizeStep(info: TrackingInfo, delta: Delta, length: Length, now: real): (r: (TrackingInfo, Option<Write>))
    ensures r.0.window == info.window
    ensures r.1.Some? ==> r.1.value.SetSize? && Some(r.1.value.window) == info.window && r.1.value.size == r.0.size
  {
    match info.window
    case None => (info, None)
    case Some(w) =>
      var resized := info.(distanceMoved := info.distanceMoved + length,
                           areaResized := info.areaResized + AreaDelta(info.size, delta),
                           origin := Offset(info.origin, delta),
                           size := Grow(info.size, delta));
      if now - resized.time > ResizeFilterInterval then
        (resized.(time := now), Some(SetSize(w, resized.size)))
      else
        (resized, None)
  }

  /** What one drag contributes to the day's metrics. */
  function DragTotal(info: TrackingInfo): Metrics
  {
    Metrics(info.distanceMoved, info.areaResized)
  }

  /** The metrics history after a drag's total is added to today's bucket (absent reads as zero). */
  function Folded(h: map<Day, Metrics>, clock: Date, total: Option<Metrics>): map<Day, Metrics>
  {
    match total
    case None => h
    case Some(m) => Assign(h, Truncate(clock), Some(Add(Lookup(h, Truncate(clock)).GetOr(Initial), m)))
  }

  /** Everything one event does: new state and record, absorption, window write, drag total. */
  datatype Outcome = Outcome(
    state: State,
    info: TrackingInfo,
    absorbed: bool,
    write: Option<Write>,
    dragTotal: Option<Metrics>)

  /** The transition table, for an event that asks for state `next`. */
  function Transition(from: State, next: State, info: TrackingInfo, layout: Layout, event: Event, now: real, length: Length): (o: Outcome)
    ensures o.state == next
    ensures o.dragTotal.Some? <==> from != Idle && next == Idle
    ensures o.write.Some? ==> from == next
  {
    match (from, next)
    case (Idle, Idle) => Outcome(next, info, false, None, None)
    case (Idle, Moving) => Outcome(next, Started(info, layout, event.location, now), true, None, None)
    case (Idle, Resizing) =>
      Outcome(next, ResizeParams(Started(info, layout, event.location, now), layout).0, true, None, None)
    case (Moving, Idle) => Outcome(next, info.(time := 0.0), false, None, Some(DragTotal(info)))
    case (Moving, Moving) =>
      var (moved, write) := MoveStep(info, event.mouseDelta, length, now);
      Outcome(next, moved, false, write, None)
    case (Moving, Resizing) =>
      var (sized, found) := ResizeParams(info, layout);
      Outcome(next, sized, found, None, None)
    case (Resizing, Idle) => Outcome(next, info.(time := 0.0), false, None, Some(DragTotal(info)))
    case (Resizing, Moving) => Outcome(next, Started(info, layout, event.location, now), true, None, None)
    case (Resizing, Resizing) =>
      var (resized, write) := ResizeStep(info, event.mouseDelta, length, now);
      Outcome(next, resized, false, write, None)
  }

  /** Whether an event reaches the classification at all. */
  predicate Considered(kind: EventKind, moveModifiers: ModifierSet, resizeModifiers: ModifierSet)
  {
    !kind.IsTapDisabled() && !(IsEmpty(moveModifiers) && IsEmpty(resizeModifiers))
  }

  /** `handleEvent`, as a function of the state before the event. */
  function Step(from: State, info: TrackingInfo, moveModifiers: ModifierSet, resizeModifiers: ModifierSet,
                layout: Layout, kind: EventKind, event: Event, now: real, length: Length): (o: Outcome)
    ensures o.absorbed ==> o.state != Idle && o.write.None? && o.dragTotal.None?
    ensures !Considered(kind, moveModifiers, resizeModifiers) ==>
      o.state == from && o.info == info && !o.absorbed && o.write.None? && o.dragTotal.None?
  {
    if !Considered(kind, moveModifiers, resizeModifiers) then
      Outcome(from, info, false, None, None)
    else
      Transition(from, Classify(moveModifiers, resizeModifiers, event.flags), info, layout, event, now, length)
  }

  /** The write log entries of an outcome. */
  function Logged(write: Option<Write>): seq<Write>
  {
    match write
    case None => []
    case Some(w) => [w]
  }

  /** The layout after an outcome's write, if any. */
  function Written(l: Layout, write: Option<Write>): Layout
  {
    match write
    case None => l
    case Some(w) => Apply(l, w)
  }

  class Tracker {
    var currentState: State
    var moveModifiers: ModifierSet
    var resizeModifiers: ModifierSet
    var trackingInfo: TrackingInfo
    const screen: Screen
    const metricsHistory: History<Metrics>
    /** `Delta.magnitude`. */
    const magnitude: Delta -> Length

    constructor(screen: Screen, metricsHistory: History<Metrics>, moveModifiers: ModifierSet,
                resizeModifiers: ModifierSet, magnitude: Delta -> Length)
      ensures this.screen == screen && this.metricsHistory == metricsHistory && this.magnitude == magnitude
      ensures this.moveModifiers == moveModifiers && this.resizeModifiers == resizeModifiers
      ensures currentState == Idle && trackingInfo == InitialInfo
    {
      this.screen := screen;
      this.metricsHistory := metricsHistory;
      this.magnitude := magnitude;
      this.moveModifiers := moveModifiers;
      this.resizeModifiers := resizeModifiers;
      currentState := Idle;
      trackingInfo := InitialInfo;
    }

    /**
     * `handleEvent`: `now` is the media clock, `clock` the current date.
     * Returns whether the event is absorbed.
     */
    method HandleEvent(event: Event, kind: EventKind, now: real, clock: Date) returns (absorb: bool)
      modifies this, screen, metricsHistory
      ensures moveModifiers == old(moveModifiers) && resizeModifiers == old(resizeModifiers)
      ensures
        var o := Step(old(currentState), old(trackingInfo), moveModifiers, resizeModifiers,
                      old(screen.layout), kind, event, now, magnitude(event.mouseDelta));
        && currentState == o.state
        && trackingInfo == o.info
        && absorb == o.absorbed
        && screen.layout == Written(old(screen.layout), o.write)
        && screen.writes == old(screen.writes) + Logged(o.write)
        && metricsHistory.history == Folded(old(metricsHistory.history), clock, o.dragTotal)
    {
      if kind == TapDisabledByTimeout || kind == TapDisabledByUserInput {
        // The tap is switched back on; that call is outside this model.
        return false;
      }

      if IsEmpty(moveModifiers) && IsEmpty(resizeModifiers) {
        return false;
      }

      var eventModifiers := event.flags;
      var move := ExclusivelySet(moveModifiers, eventModifiers);
      var resize := ExclusivelySet(resizeModifiers, eventModifiers);

      var nextState: State;
      if move && !resize {
        nextState := Moving;
      } else if !move && resize {
        nextState := Resizing;
      } else if move && resize {
        nextState := Moving;
      } else {
        nextState := Idle;
      }

      absorb := false;

      match (currentState, nextState) {
        case (Idle, Idle) =>
        case (Idle, Moving) =>
          StartTracking(event, now);
          absorb := true;
        case (Idle, Resizing) =>
          StartTracking(event, now);
          var _ := DetermineResizeParams();
          absorb := true;
        case (Moving, Idle) =>
          StopTracking(clock);
        case (Moving, Moving) =>
          KeepMoving(event, now);
        case (Moving, Resizing) =>
          absorb := DetermineResizeParams();
        case (Resizing, Idle) =>
          StopTracking(clock);
        case (Resizing, Moving) =>
          StartTracking(event, now);
          absorb := true;
        case (Resizing, Resizing) =>
          KeepResizing(event, now);
      }

      currentState := nextState;
    }

    /** `startTracking`. */
    method StartTracking(event: Event, now: real)
      modifies this`trackingInfo
      ensures trackingInfo == Started(old(trackingInfo), screen.layout, event.location, now)
    {
      var clicked := WindowAt(screen.layout, event.location);
      if clicked.None? {
        return;
      }
      var clickedWindow := clicked.value;
      trackingInfo := trackingInfo.(time := now);
      trackingInfo := trackingInfo.(origin := OriginOf(screen.layout, clickedWindow).GetOr(ZeroPoint));
      trackingInfo := trackingInfo.(window := Some(clickedWindow));
      trackingInfo := trackingInfo.(distanceMoved := 0.0);
      trackingInfo := trackingInfo.(areaResized := 0.0);
    }

    /** `stopTracking`: end the drag and add its total to today's metrics. */
    method StopTracking(clock: Date)
      modifies this`trackingInfo, metricsHistory
      ensures trackingInfo == old(trackingInfo).(time := 0.0)
      ensures metricsHistory.history == Folded(old(metricsHistory.history), clock, Some(DragTotal(old(trackingInfo))))
    {
      trackingInfo := trackingInfo.(time := 0.0);
      var current := metricsHistory.CurrentValue(clock).GetOr(Initial);
      current := current.(distanceMoved := current.distanceMoved + trackingInfo.distanceMoved);
      current := current.(areaResized := current.areaResized + trackingInfo.areaResized);
      metricsHistory.SetCurrentValue(clock, Some(current));
    }

    /** `keepMoving`. */
    method KeepMoving(event: Event, now: real)
      modifies this`trackingInfo, screen
      ensures
        var (moved, write) := MoveStep(old(trackingInfo), event.mouseDelta, magnitude(event.mouseDelta), now);
        && trackingInfo == moved
        && screen.layout == Written(old(screen.layout), write)
        && screen.writes == old(screen.writes) + Logged(write)
    {
      if trackingInfo.window.None? {
        return;
      }
      var window := trackingInfo.window.value;
      var delta := event.mouseDelta;
      trackingInfo := trackingInfo.(distanceMoved := trackingInfo.distanceMoved + magnitude(delta));
      trackingInfo := trackingInfo.(origin := Offset(trackingInfo.origin, delta));

      if !(now - trackingInfo.time > MoveFilterInterval) {
        return;
      }

      screen.Perform(SetOrigin(window, trackingInfo.origin));
      trackingInfo := trackingInfo.(time := now);
    }

    /** `determineResizeParams`: whether the tracked window's size could be read. */
    method DetermineResizeParams() returns (found: bool)
      modifies this`trackingInfo
      ensures (trackingInfo, found) == ResizeParams(old(trackingInfo), screen.layout)
    {
      if trackingInfo.window.None? {
        return false;
      }
      var size := SizeOf(screen.layout, trackingInfo.window.value);
      if size.None? {
        return false;
      }
      trackingInfo := trackingInfo.(size := size.value);
      return true;
    }

    /** `keepResizing`. */
    method KeepResizing(event: Event, now: real)
      modifies this`trackingInfo, screen
      ensures
        var (resized, write) := ResizeStep(old(trackingInfo), event.mouseDelta, magnitude(event.mouseDelta), now);
        && trackingInfo == resized
        && screen.layout == Written(old(screen.layout), write)
        && screen.writes == old(screen.writes) + Logged(write)
    {
      if trackingInfo.window.None? {
        return;
      }
      var window := trackingInfo.window.value;
      var delta := event.mouseDelta;
      trackingInfo := trackingInfo.(distanceMoved := trackingInfo.distanceMoved + magnitude(delta));
      trackingInfo := trackingInfo.(areaResized := trackingInfo.areaResized + AreaDelta(trackingInfo.size, delta));
      trackingInfo := trackingInfo.(origin := Offset(trackingInfo.origin, delta));
      trackingInfo := trackingInfo.(size := Grow(trackingInfo.size, delta));

      if !(now - trackingInfo.time > ResizeFilterInterval) {
        return;
      }

      screen.Perform(SetSize(window, trackingInfo.size));
      trackingInfo := trackingInfo.(time := now);
    }

    /** `updateModifiers`: both sets are replaced wholesale by the stored ones. */
    method UpdateModifiers(storedMove: ModifierSet, storedResize: ModifierSet)
      modifies this`moveModifiers, this`resizeModifiers
      ensures moveModifiers == storedMove && resizeModifiers == storedResize
    {
      moveModifiers := storedMove;
      resizeModifiers := storedResize;
    }
  }
}
