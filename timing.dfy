/** Frame durations and the drift-compensating remainder used by the throttled loop. */
module Timing {

  /** Milliseconds per frame at `fps` frames per second: `(1 / fps) * 1000`. */
  function FpsToMs(fps: real): (ms: real)
    requires fps > 0.0
    ensures ms > 0.0
    ensures ms * fps == 1000.0
  {
    (1.0 / fps) * 1000.0
  }

  /** Whole periods of length `f` contained in a non-negative `d`. */
  function Periods(d: real, f: real): (k: int)
    requires 0.0 <= d && 0.0 < f
    ensures k >= 0
    ensures (k as real) * f <= d < ((k + 1) as real) * f
  {
    var q := d / f;
    var k := q.Floor;
    assert q * f == d;
    assert k as real <= q < (k + 1) as real;
    assert q * f < ((k + 1) as real) * f;
    k
  }

  /** Dividing both sides of a strict inequality by a positive factor. */
  lemma UnscaleLt(a: real, b: real, f: real)
    requires 0.0 < f && a * f < b * f
    ensures a < b
  {
  }

  /** The length of `k` whole periods of length `f` (negative for negative `k`). */
  function Span(k: int, f: real): real
  {
    k as real * f
  }

  /**
   * JavaScript's `d % f` for a positive divisor: the remainder is truncated toward
   * zero, so it takes the sign of the dividend, is smaller than `f` in magnitude, and
   * differs from `d` by a whole number of periods.
   */
  function Remainder(d: real, f: real): (r: real)
    requires 0.0 < f
    ensures 0.0 <= d ==> 0.0 <= r < f
    ensures d < 0.0 ==> -f < r <= 0.0
    ensures exists k: int :: d - r == Span(k, f)
  {
    if 0.0 <= d then
      var k := Periods(d, f);
      assert d - (d - k as real * f) == Span(k, f);
      d - k as real * f
    else
      var k := Periods(-d, f);
      assert d - -(-d - k as real * f) == Span(-k, f);
      -(-d - k as real * f)
  }

  /**
   * For a non-negative dividend the remainder is the only value in `[0, f)` that
   * differs from `d` by a whole number of periods.
   */
  lemma RemainderUnique(d: real, f: real, k: int, r: real)
    requires 0.0 < f && 0.0 <= d
    requires 0.0 <= r < f
    requires d == k as real * f + r
    ensures r == Remainder(d, f)
    ensures k == Periods(d, f)
  {
    var p := Periods(d, f);
    assert ((k + 1) as real) * f == (k as real) * f + f;
    UnscaleLt(p as real, (k + 1) as real, f);
    UnscaleLt(k as real, (p + 1) as real, f);
  }

  /**
   * The latest point at or before `t` on the grid of frame boundaries that starts at
   * `origin` and is spaced `f` apart.
   */
  function GridFloor(origin: real, t: real, f: real): (g: real)
    requires 0.0 < f && origin <= t
    ensures t - f < g <= t
    ensures origin <= g
  {
    origin + Periods(t - origin, f) as real * f
  }

  /** The grid point at the origin itself is the origin. */
  lemma GridFloorAtOrigin(origin: real, f: real)
    requires 0.0 < f
    ensures GridFloor(origin, origin, f) == origin
  {
    RemainderUnique(0.0, f, 0, 0.0);
  }

  /**
   * Drift compensation keeps the reference time on the grid: when `prev` is the grid
   * point for `t` and a frame fires at `now` (more than one period later), moving the
   * reference to `now - (now - prev) % f` lands exactly on the grid point for `now`.
   */
  lemma GridStep(origin: real, t: real, now: real, f: real)
    requires 0.0 < f && origin <= t
    requires now - GridFloor(origin, t, f) > f
    ensures origin <= now
    ensures now - Remainder(now - GridFloor(origin, t, f), f) == GridFloor(origin, now, f)
  {
    var prev := GridFloor(origin, t, f);
    var k := Periods(t - origin, f);
    var d := now - prev;
    var q := Periods(d, f);
    var r := Remainder(d, f);
    assert now - r == prev + q as real * f;
    assert now - origin == (k + q) as real * f + r;
    RemainderUnique(now - origin, f, k + q, r);
  }
}
