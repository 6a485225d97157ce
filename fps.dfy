/** `fpsToInterval` of src/shared/fps.ts: the capture interval in milliseconds for a
    requested frame rate. Arithmetic is over the reals; the bounds are finite numbers. */
module Fps {
  import opened Common
  import opened Js

  const DEFAULT_MIN_FPS: real := 1.0
  const DEFAULT_MAX_FPS: real := 60.0

  /** `Math.round`: the nearest integer, halves rounded up. */
  function Round(x: real): (n: int)
    ensures n as real - 0.5 <= x < n as real + 0.5
  {
    (x + 0.5).Floor
  }

  /** The frame rate actually used: a non-finite or non-positive request becomes
      `minFps`, and the result is clamped into `[minFps, maxFps]`. */
  function ClampedFps(fps: Num, minFps: real, maxFps: real): (c: real)
    ensures minFps <= maxFps ==> minFps <= c <= maxFps
    ensures minFps <= maxFps && fps.Finite? && minFps <= fps.v <= maxFps && 0.0 < fps.v ==> c == fps.v
    ensures (!IsFinite(fps) || fps.v <= 0.0) ==> c == MinReal(minFps, maxFps)
  {
    var f := if !IsFinite(fps) || fps.v <= 0.0 then minFps else fps.v;
    MinReal(MaxReal(f, minFps), maxFps)
  }

  /** `fpsToInterval(fps, minFps, maxFps)`: `Math.round(1000 / clampedFps)`; a clamped
      rate of zero divides to Infinity, which `Math.round` keeps. */
  function FpsToInterval(fps: Num, minFps: real, maxFps: real): (interval: Num)
    ensures 0.0 < minFps <= maxFps ==>
              interval.Finite? && Round(1000.0 / maxFps) as real <= interval.v <= Round(1000.0 / minFps) as real
  {
    var c := ClampedFps(fps, minFps, maxFps);
    if c == 0.0 then PosInf
    else
      var interval := Finite(Round(1000.0 / c) as real);
      assert 0.0 < minFps <= maxFps ==>
               Round(1000.0 / maxFps) as real <= interval.v <= Round(1000.0 / minFps) as real by {
        if 0.0 < minFps <= maxFps {
          ReciprocalAntitone(c, maxFps);
          ReciprocalAntitone(minFps, c);
          RoundMonotone(1000.0 / maxFps, 1000.0 / c);
          RoundMonotone(1000.0 / c, 1000.0 / minFps);
        }
      }
      interval
  }

  lemma ReciprocalAntitone(a: real, b: real)
    requires 0.0 < a <= b
    ensures 1000.0 / b <= 1000.0 / a
  {
    var qa, qb := 1000.0 / a, 1000.0 / b;
    assert qa * a == 1000.0 && qb * b == 1000.0;
  }

  lemma RoundMonotone(x: real, y: real)
    requires x <= y
    ensures Round(x) <= Round(y)
  {
  }

  /** The case of src/shared/fps.test.ts:7: 10 fps with the default bounds. */
  lemma DefaultBoundsExample()
    ensures FpsToInterval(Finite(10.0), DEFAULT_MIN_FPS, DEFAULT_MAX_FPS) == Finite(100.0)
  {
    assert ClampedFps(Finite(10.0), DEFAULT_MIN_FPS, DEFAULT_MAX_FPS) == 10.0;
    assert 1000.0 / 10.0 == 100.0;
  }

  /** The cases of src/shared/fps.test.ts:11 and 15: a request below or above the bounds. */
  lemma ClampExamples()
    ensures FpsToInterval(Finite(0.5), 5.0, 60.0) == Finite(200.0)
    ensures FpsToInterval(Finite(240.0), 5.0, 60.0) == Finite(Round(1000.0 / 60.0) as real)
  {
    assert ClampedFps(Finite(0.5), 5.0, 60.0) == 5.0;
    assert 1000.0 / 5.0 == 200.0;
    assert ClampedFps(Finite(240.0), 5.0, 60.0) == 60.0;
  }

  /** The case of src/shared/fps.test.ts:19: NaN is served at the default minimum. */
  lemma NaNExample()
    ensures FpsToInterval(NaN, DEFAULT_MIN_FPS, DEFAULT_MAX_FPS) == Finite(1000.0)
  {
    assert ClampedFps(NaN, DEFAULT_MIN_FPS, DEFAULT_MAX_FPS) == 1.0;
  }

  /** A non-finite or non-positive request is served at `minFps` (src/shared/fps.ts:2-4). */
  lemma {:induction false} InvalidFpsUsesMinimum(fps: Num, minFps: real, maxFps: real)
    requires 0.0 < minFps <= maxFps
    requires !IsFinite(fps) || fps.v <= 0.0
    ensures FpsToInterval(fps, minFps, maxFps) == FpsToInterval(Finite(minFps), minFps, maxFps)
    ensures FpsToInterval(fps, minFps, maxFps) == Finite(Round(1000.0 / minFps) as real)
  {
  }

  /** A request outside the bounds is served at the nearer bound (src/shared/fps.ts:5). */
  lemma OutOfRangeFpsIsClamped(fps: real, minFps: real, maxFps: real)
    requires 0.0 < minFps <= maxFps
    ensures 0.0 < fps < minFps ==> FpsToInterval(Finite(fps), minFps, maxFps) == Finite(Round(1000.0 / minFps) as real)
    ensures maxFps < fps ==> FpsToInterval(Finite(fps), minFps, maxFps) == Finite(Round(1000.0 / maxFps) as real)
    ensures minFps <= fps <= maxFps ==> FpsToInterval(Finite(fps), minFps, maxFps) == Finite(Round(1000.0 / fps) as real)
  {
  }
}
