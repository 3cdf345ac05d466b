/**
 * The window accessor the tracker drives: which window lies under a point,
 * the origin and size it can read of a window, and the geometry writes made
 * to windows. A window missing from `origins` (or `sizes`) is one whose
 * origin (or size) cannot be read, because it has closed or is inaccessible.
 * A geometry write changes only `origins` or `sizes`: `hit` stays as it was,
 * so `WindowAt` still finds a moved or resized window at its old points.
 */
module Accessibility {
  import opened Options
  import opened Geometry

  type WindowId = nat

  /** What the accessor shows of the windows on screen. */
  datatype Layout = Layout(hit: map<Point, WindowId>, origins: map<WindowId, Point>, sizes: map<WindowId, Size>)

  /** `AXUIElement.window(at:)`. */
  function WindowAt(l: Layout, p: Point): Option<WindowId>
  {
    if p in l.hit then Some(l.hit[p]) else None
  }

  /** A window's `origin` read. */
  function OriginOf(l: Layout, w: WindowId): Option<Point>
  {
    if w in l.origins then Some(l.origins[w]) else None
  }

  /** A window's `size` read. */
  function SizeOf(l: Layout, w: WindowId): Option<Size>
  {
    if w in l.sizes then Some(l.sizes[w]) else None
  }

  /** A geometry write: `window.origin = ...` or `window.size = ...`. */
  datatype Write = SetOrigin(window: WindowId, origin: Point) | SetSize(window: WindowId, size: Size)

  /** The layout after a write; a write to a window that cannot be read has no effect. */
  function Apply(l: Layout, w: Write): Layout
  {
    match w
    case SetOrigin(id, p) =>
      if id in l.origins then l.(origins := l.origins[id := p]) else l
    case SetSize(id, s) =>
      if id in l.sizes then l.(sizes := l.sizes[id := s]) else l
  }

  /** The windows on screen, with a log of every geometry write made to them. */
  class Screen {
    var layout: Layout
    ghost var writes: seq<Write>

    constructor(layout: Layout)
      ensures this.layout == layout && writes == []
    {
      this.layout := layout;
      writes := [];
    }

    method Perform(w: Write)
      modifies this
      ensures layout == Apply(old(layout), w)
      ensures writes == old(writes) + [w]
    {
      writes := writes + [w];
      match w
      case SetOrigin(id, p) =>
        if id in layout.origins {
          layout := layout.(origins := layout.origins[id := p]);
        }
      case SetSize(id, s) =>
        if id in layout.sizes {
          layout := layout.(sizes := layout.sizes[id := s]);
        }
    }
  }
}
