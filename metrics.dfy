/**
 * Usage metrics: how far windows were moved and how much area was resized,
 * and the area swept by one resize step.
 */
module UsageMetrics {
  import opened Geometry

  datatype Metrics = Metrics(distanceMoved: real, areaResized: real)

  /** `Metrics()`: both counters at zero. */
  const Initial := Metrics(0.0, 0.0)

  /** `a + b`. */
  function Add(a: Metrics, b: Metrics): (r: Metrics)
    ensures b == Initial ==> r == a
    ensures 0.0 <= b.distanceMoved && 0.0 <= b.areaResized ==>
      a.distanceMoved <= r.distanceMoved && a.areaResized <= r.areaResized
  {
    Metrics(a.distanceMoved + b.distanceMoved, a.areaResized + b.areaResized)
  }

  /** `a / k`, used to average metrics. */
  function Divide(a: Metrics, k: real): (r: Metrics)
    requires k != 0.0
    ensures r.distanceMoved * k == a.distanceMoved && r.areaResized * k == a.areaResized
  {
    Metrics(a.distanceMoved / k, a.areaResized / k)
  }

  lemma AddCommutative(a: Metrics, b: Metrics)
    ensures Add(a, b) == Add(b, a)
  {
  }

  lemma AddAssociative(a: Metrics, b: Metrics, c: Metrics)
    ensures Add(Add(a, b), c) == Add(a, Add(b, c))
  {
  }

  lemma AddIdentity(a: Metrics)
    ensures Add(Initial, a) == a && Add(a, Initial) == a
  {
  }

  /** Dividing by a non-zero `k` distributes over addition. */
  lemma DivideDistributes(a: Metrics, b: Metrics, k: real)
    requires k != 0.0
    ensures Divide(Add(a, b), k) == Add(Divide(a, k), Divide(b, k))
  {
  }

  /** The average of two equal metrics is those metrics. */
  lemma AverageOfTwin(a: Metrics)
    ensures Divide(Add(a, a), 2.0) == a
  {
  }

  /**
   * `areaDelta(a:d:)` exactly as written: the diagonal term is guarded by
   * `d.magnitude >= 0`. A magnitude is never negative, so the guard always
   * takes the diagonal term and the result is `AreaDelta`.
   */
  function AreaDeltaAsWritten(a: Size, d: Delta, magnitude: real): (r: real)
    ensures 0.0 <= magnitude ==> r == AreaDelta(a, d)
    ensures magnitude < 0.0 ==> r == AreaDelta(a, d) - d.dx * d.dy
  {
    (if magnitude >= 0.0 then d.dx * d.dy else 0.0) + Abs(d.dx) * a.height + a.width * Abs(d.dy)
  }

  /**
   * The area swept when the bottom-right corner of a window of size `a` moves
   * by `d`. For a growing window it is exactly the area gained.
   */
  function AreaDelta(a: Size, d: Delta): (r: real)
    ensures 0.0 <= d.dx && 0.0 <= d.dy ==> r == Area(Grow(a, d)) - Area(a)
    ensures d == NoMotion ==> r == 0.0
  {
    d.dx * d.dy + Abs(d.dx) * a.height + a.width * Abs(d.dy)
  }

  /** Moving the corner back along the same delta sweeps the same area. */
  lemma AreaDeltaReversed(a: Size, d: Delta)
    ensures AreaDelta(a, Delta(-d.dx, -d.dy)) == AreaDelta(a, d)
  {
  }

  /** Swapping the axes of both the size and the delta sweeps the same area. */
  lemma AreaDeltaTransposed(a: Size, d: Delta)
    ensures AreaDelta(Size(a.height, a.width), Delta(d.dy, d.dx)) == AreaDelta(a, d)
  {
  }

  /** The regression values of the unit tests. */
  lemma AreaDeltaExamples()
    ensures AreaDelta(Size(2.0, 2.0), Delta(2.0, 1.0)) == 8.0
    ensures AreaDelta(Size(2.0, 2.0), Delta(2.0, -1.0)) == 4.0
  {
  }
}
