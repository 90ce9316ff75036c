/**
 * The colour helpers of frontend/src/services/mapService.ts: a blue-to-red hue ramp and the
 * clamped bucketing of a value into a colour scale.
 */
module MapService {
  import opened Wrappers

  /**
   * The colour string `hsl(<hue>, 100%, 50%)`. `HslNaN` is the string the template literal
   * produces when the hue is `NaN`, which happens for a one-step scale (`0 / 0`).
   */
  datatype Color = Hsl(hue: real) | HslNaN

  /** The colour at position `i` of a ramp of `steps` colours: `(1 - i / (steps - 1)) * 240`. */
  function HueAt(i: int, steps: int): Color
  {
    if steps == 1 then HslNaN else Hsl((1.0 - (i as real) / ((steps - 1) as real)) * 240.0)
  }

  /**
   * `generateColorScale(min, max, steps)`: the `for` loop pushing one colour per step. The result
   * has exactly `steps` colours (none for a non-positive count), the i-th being `HueAt(i, steps)`;
   * `min` and `max` play no part in it.
   */
  method GenerateColorScale(min: real, max: real, steps: int) returns (colors: seq<Color>)
    ensures |colors| == if steps > 0 then steps else 0
    ensures forall i :: 0 <= i < |colors| ==> colors[i] == HueAt(i, steps)
  {
    colors := [];
    var i := 0;
    while i < steps
      invariant 0 <= i <= if steps > 0 then steps else 0
      invariant |colors| == i
      invariant forall j :: 0 <= j < i ==> colors[j] == HueAt(j, steps)
    {
      colors := colors + [HueAt(i, steps)];
      i := i + 1;
    }
  }

  /** A ramp of at least two colours starts at hue 240 (blue) and ends at hue 0 (red). */
  lemma RampEnds(steps: int)
    requires steps >= 2
    ensures HueAt(0, steps) == Hsl(240.0)
    ensures HueAt(steps - 1, steps) == Hsl(0.0)
  {
  }

  /** Along a ramp of at least two colours the hue strictly falls and never leaves [0, 240]. */
  lemma {:induction false} RampFalls(i: int, j: int, steps: int)
    requires steps >= 2 && 0 <= i < j < steps
    ensures HueAt(i, steps).Hsl? && HueAt(j, steps).Hsl?
    ensures HueAt(j, steps).hue < HueAt(i, steps).hue
    ensures 0.0 <= HueAt(j, steps).hue && HueAt(i, steps).hue <= 240.0
  {
    var d := (steps - 1) as real;
    RatioBounds(i as real, d);
    RatioBounds(j as real, d);
    assert (i as real) / d < (j as real) / d by {
      DivideStrictlyMonotone(i as real, j as real, d);
    }
  }

  lemma RatioBounds(x: real, d: real)
    requires d > 0.0 && 0.0 <= x <= d
    ensures 0.0 <= x / d <= 1.0
  {
    assert x / d * d == x;
  }

  lemma DivideStrictlyMonotone(x: real, y: real, d: real)
    requires d > 0.0 && x < y
    ensures x / d < y / d
  {
    assert x / d * d == x;
    assert y / d * d == y;
  }

  /**
   * The index `getValueColor` reads: 0 at or below `min`, the last index at or above `max`, and
   * `floor((value - min) / (max - min) * (n - 1))` strictly between them.
   */
  function ColorIndex(value: real, min: real, max: real, n: nat): int
  {
    if value <= min then 0
    else if value >= max then n - 1
    else (((value - min) / (max - min)) * ((n - 1) as real)).Floor
  }

  /**
   * `getValueColor(value, min, max, colorScale)`: the colour at `ColorIndex`, or `None` where
   * JavaScript would read `undefined` (only possible for an empty scale).
   */
  function GetValueColor<T>(value: real, min: real, max: real, colorScale: seq<T>): (r: Option<T>)
    ensures value <= min ==> r == if |colorScale| > 0 then Some(colorScale[0]) else None
    ensures min < value && max <= value ==>
              r == if |colorScale| > 0 then Some(colorScale[|colorScale| - 1]) else None
    ensures |colorScale| > 0 ==> r.Some? && r.value in colorScale
    ensures |colorScale| > 0 ==>
              0 <= ColorIndex(value, min, max, |colorScale|) < |colorScale|
              && r == Some(colorScale[ColorIndex(value, min, max, |colorScale|)])
    ensures colorScale == [] ==> r == None
  {
    var i := ColorIndex(value, min, max, |colorScale|);
    ColorIndexBounds(value, min, max, |colorScale|);
    if 0 <= i < |colorScale| then Some(colorScale[i]) else None
  }

  /**
   * A value strictly between the bounds lands in a bucket from 0 to n - 2, so only values at or
   * above `max` get the last colour.
   */
  lemma InteriorBucket(value: real, min: real, max: real, n: nat)
    requires min < value < max && n >= 2
    ensures 0 <= ColorIndex(value, min, max, n) <= n - 2
  {
    var ratio := (value - min) / (max - min);
    RatioStrictBounds(value - min, max - min);
    var x := ratio * ((n - 1) as real);
    assert 0.0 <= x < (n - 1) as real by {
      ScaleBelow(ratio, (n - 1) as real);
    }
  }

  lemma RatioStrictBounds(x: real, d: real)
    requires 0.0 < x < d
    ensures 0.0 < x / d < 1.0
  {
    var q := x / d;
    assert q * d == x;
    assert (q - 1.0) * d == x - d < 0.0;
    NonnegativeProduct(q - 1.0, d);
  }

  lemma NonnegativeProduct(a: real, b: real)
    requires b >= 0.0
    ensures a >= 0.0 ==> a * b >= 0.0
  {
  }

  lemma ScaleBelow(ratio: real, k: real)
    requires 0.0 < ratio < 1.0 && k > 0.0
    ensures 0.0 <= ratio * k < k
  {
  }

  /** Every index `getValueColor` reads lies inside a non-empty scale. */
  lemma ColorIndexBounds(value: real, min: real, max: real, n: nat)
    ensures n >= 1 ==> 0 <= ColorIndex(value, min, max, n) < n
  {
    if n >= 1 && min < value < max {
      if n >= 2 {
        InteriorBucket(value, min, max, n);
      } else {
        assert (n - 1) as real == 0.0;
      }
    }
  }

  /** A larger value never gets an earlier colour: the bucketing is monotone. */
  lemma ColorIndexMonotone(v: real, w: real, min: real, max: real, n: nat)
    requires v <= w && n >= 1
    ensures ColorIndex(v, min, max, n) <= ColorIndex(w, min, max, n)
  {
    ColorIndexBounds(v, min, max, n);
    ColorIndexBounds(w, min, max, n);
    if min < v && w < max {
      var rv := (v - min) / (max - min);
      var rw := (w - min) / (max - min);
      assert rv <= rw by {
        if v < w {
          DivideStrictlyMonotone(v - min, w - min, max - min);
        }
      }
      assert rv * ((n - 1) as real) <= rw * ((n - 1) as real);
    }
  }
}
