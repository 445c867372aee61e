/**
 * numpy.interp, in exact arithmetic, for sample points on a uniform grid.
 * Both the ADC (rail re-alignment and resampling) and the VGA (gain
 * trajectory between block centres) query a sequence of values whose sample
 * points are equally spaced; a query is then a fractional index `pos` into
 * that sequence, clamped to its two ends as numpy.interp does.
 */
module Interp {
  import opened Common

  /** numpy.interp(x, xp, fp) with xp = 0, 1, ..., |fp| - 1 and x = pos. */
  function InterpAt(fp: seq<real>, pos: real): (r: real)
    requires |fp| >= 1
    ensures pos <= 0.0 ==> r == fp[0]
    ensures pos >= (|fp| - 1) as real ==> r == fp[|fp| - 1]
    ensures 0 <= pos.Floor && pos.Floor + 1 < |fp| && 0.0 < pos ==>
              Min(fp[pos.Floor], fp[pos.Floor + 1]) <= r <= Max(fp[pos.Floor], fp[pos.Floor + 1])
  {
    if pos <= 0.0 then fp[0]
    else if pos >= (|fp| - 1) as real then fp[|fp| - 1]
    else
      var k := pos.Floor;
      var t := pos - k as real;
      assert 0 <= k < |fp| - 1 && 0.0 <= t < 1.0;
      LerpBetween(fp[k], fp[k + 1], t);
      fp[k] + t * (fp[k + 1] - fp[k])
  }

  /** A point of the segment from a to b lies between a and b. */
  lemma LerpBetween(a: real, b: real, t: real)
    requires 0.0 <= t <= 1.0
    ensures Min(a, b) <= a + t * (b - a) <= Max(a, b)
  {
    var d := if a <= b then b - a else a - b;
    MulNonneg(t, d);
    MulNonneg(1.0 - t, d);
    assert (1.0 - t) * d == d - t * d;
  }

  /** At a sample point the interpolant takes the sample's value. */
  lemma InterpAtSamplePoint(fp: seq<real>, k: nat)
    requires k < |fp|
    ensures InterpAt(fp, k as real) == fp[k]
  {
    if 0 < k < |fp| - 1 {
      assert (k as real).Floor == k;
    }
  }

  /** Interpolating values that all lie in [lo, hi] gives a value in [lo, hi]. */
  lemma InterpAtBounded(fp: seq<real>, pos: real, lo: real, hi: real)
    requires |fp| >= 1
    requires forall k :: 0 <= k < |fp| ==> lo <= fp[k] <= hi
    ensures lo <= InterpAt(fp, pos) <= hi
  {
    if 0.0 < pos < (|fp| - 1) as real {
      var k := pos.Floor;
      assert 0 <= k && k + 1 < |fp|;
      assert lo <= fp[k] <= hi && lo <= fp[k + 1] <= hi;
    }
  }
}
