/** The sampling window: sums, averages, the closing rule and the performance ratio. */
module Sampling {
  import opened Config

  /** Left-to-right sum of the samples, as `samples.reduce((a, b) => a + b)` adds them. */
  function Sum(s: seq<real>): real
  {
    if s == [] then 0.0 else Sum(s[..|s| - 1]) + s[|s| - 1]
  }

  /** Mean sample duration; the window is never averaged while empty. */
  function Average(s: seq<real>): (a: real)
    requires |s| > 0
    ensures a * |s| as real == Sum(s)
  {
    Sum(s) / |s| as real
  }

  /** Every sample is a positive duration. */
  ghost predicate AllPositive(s: seq<real>)
  {
    s == [] || (AllPositive(s[..|s| - 1]) && s[|s| - 1] > 0.0)
  }

  /** The mean of positive samples is positive. */
  lemma AveragePositive(s: seq<real>)
    requires |s| > 0 && AllPositive(s)
    ensures Average(s) > 0.0
  {
    SumPositive(s);
  }

  /**
   * The performance ratio `frameDuration / average`: how many target frame
   * durations fit in the mean measured tick interval.
   */
  function Ratio(frameDuration: real, window: seq<real>): (r: real)
    requires frameDuration > 0.0 && |window| > 0 && AllPositive(window)
    ensures r > 0.0
    ensures r * Average(window) == frameDuration
  {
    AveragePositive(window);
    frameDuration / Average(window)
  }

  /** Pushing a positive sample keeps every sample positive. */
  lemma PushPositive(s: seq<real>, x: real)
    requires AllPositive(s) && x > 0.0
    ensures AllPositive(s + [x])
  {
  }

  /**
   * The closing rule evaluated right after a sample is pushed: enough time has
   * passed (only when `sampleDuration` is truthy) or the window holds more than
   * `samplesCount` samples.
   */
  predicate WindowCloses(p: Performances, elapsed: real, count: nat)
  {
    (p.sampleDuration != 0.0 && elapsed > p.sampleDuration) || count > p.samplesCount
  }

  /** Appending one sample adds exactly that sample to the sum. */
  lemma SumAppend(s: seq<real>, x: real)
    ensures Sum(s + [x]) == Sum(s) + x
  {
    assert (s + [x])[..|s|] == s;
  }

  /** A window of positive durations has a positive sum. */
  lemma {:induction false} SumPositive(s: seq<real>)
    requires |s| > 0 && AllPositive(s)
    ensures Sum(s) > 0.0
  {
    if |s| > 1 {
      SumPositive(s[..|s| - 1]);
    }
  }

  /** A window in which every sample equals `c` sums to `|s| * c`. */
  lemma {:induction false} SumConstant(s: seq<real>, c: real)
    requires forall i :: 0 <= i < |s| ==> s[i] == c
    ensures Sum(s) == |s| as real * c
  {
    if s != [] {
      SumConstant(s[..|s| - 1], c);
    }
  }

  /**
   * A steady stream at the target rate: when every sample equals the frame
   * duration, the published ratio is exactly 1.
   */
  lemma SteadyRatio(s: seq<real>, frameDuration: real)
    requires |s| > 0 && frameDuration > 0.0
    requires forall i :: 0 <= i < |s| ==> s[i] == frameDuration
    ensures AllPositive(s)
    ensures Ratio(frameDuration, s) == 1.0
  {
    SumConstant(s, frameDuration);
    Cancel(Ratio(frameDuration, s), Average(s), frameDuration);
  }

  /**
   * The ratio is the achieved tick rate over the target rate: `frameDuration`
   * times the number of samples, divided by the time the samples span.
   */
  lemma RatioIsRate(s: seq<real>, frameDuration: real)
    requires |s| > 0 && frameDuration > 0.0 && AllPositive(s)
    ensures Ratio(frameDuration, s) * Sum(s) == frameDuration * |s| as real
  {
    var r, a, n := Ratio(frameDuration, s), Average(s), |s| as real;
    assert a * n == Sum(s);
    Associate(r, a, n);
  }

  /**
   * Reading of the ratio: above 1 exactly when the samples average less than the
   * frame duration (ticks come faster than targeted), below 1 exactly when they
   * average more.
   */
  lemma RatioMeaning(s: seq<real>, frameDuration: real)
    requires |s| > 0 && AllPositive(s) && frameDuration > 0.0
    ensures Ratio(frameDuration, s) > 1.0 <==> Average(s) < frameDuration
    ensures Ratio(frameDuration, s) < 1.0 <==> Average(s) > frameDuration
  {
    var r, a := Ratio(frameDuration, s), Average(s);
    AveragePositive(s);
    if r > 1.0 {
      FasterThanTarget(r, a, frameDuration);
    } else if r < 1.0 {
      SlowerThanTarget(r, a, frameDuration);
    } else {
      OnTarget(r, a, frameDuration);
    }
  }

  // Single steps of real arithmetic, kept apart so that each is proved on its own.

  lemma Cancel(r: real, a: real, f: real)
    requires f > 0.0 && a == f && r * a == f
    ensures r == 1.0
  {
    assert (r - 1.0) * f == 0.0;
  }

  lemma Associate(r: real, a: real, n: real)
    ensures r * (a * n) == (r * a) * n
  {
  }

  lemma FasterThanTarget(r: real, a: real, f: real)
    requires a > 0.0 && r * a == f && r > 1.0
    ensures a < f
  {
    assert (r - 1.0) * a > 0.0;
  }

  lemma SlowerThanTarget(r: real, a: real, f: real)
    requires a > 0.0 && r * a == f && r < 1.0
    ensures a > f
  {
    assert (1.0 - r) * a > 0.0;
  }

  lemma OnTarget(r: real, a: real, f: real)
    requires r * a == f && r == 1.0
    ensures a == f
  {
  }

  /**
   * With duration-based closing switched off, a window that held at most
   * `samplesCount` samples before the push closes exactly when the push brings it
   * to `samplesCount + 1`.
   */
  lemma CountOnlyWindow(p: Performances, elapsed: real, before: nat)
    requires p.sampleDuration == 0.0 && before <= p.samplesCount
    ensures WindowCloses(p, elapsed, before + 1) <==> before == p.samplesCount
  {
  }
}
