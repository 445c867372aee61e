/** The transmitter's symbol-rate feed-forward equalizer (pre-emphasis), tx/ffe.py. */
module Ffe {
  import opened Common
  import opened Convolution

  /** apply_ffe: the same 'same'-mode convolution the receiver CTLE uses. */
  function ApplyFfe(symbols: seq<real>, taps: seq<real>): (r: Result<seq<real>>)
    ensures r.Err? <==> |symbols| == 0 || |taps| == 0
    ensures r.Ok? ==> |r.value| == (if |symbols| >= |taps| then |symbols| else |taps|)
  {
    ConvolveSame(symbols, taps)
  }

  /** With the single tap 1.0 pre-emphasis leaves the symbols unchanged. */
  lemma ApplyFfeIdentity(symbols: seq<real>)
    requires |symbols| >= 1
    ensures ApplyFfe(symbols, [1.0]) == Ok(symbols)
  {
    ConvolveSameUnitTap(symbols);
  }

  /**
   * normalize_taps: every tap divided by the taps' sum. Empty taps come back
   * empty (no division happens); non-empty taps summing to zero raise
   * ZeroDivisionError. A result sums to one.
   */
  function NormalizeTaps(taps: seq<real>): (r: Result<seq<real>>)
    ensures r.Err? <==> |taps| > 0 && Sum(taps) == 0.0
    ensures r.Err? ==> r.error == ZeroDivisionError
    ensures r.Ok? ==> |r.value| == |taps|
    ensures r.Ok? && |taps| > 0 ==> Sum(r.value) == 1.0
  {
    if |taps| == 0 then Ok([])
    else
      var s := Sum(taps);
      if s == 0.0 then Err(ZeroDivisionError)
      else
        SumScale(1.0 / s, taps);
        Ok(Scale(1.0 / s, taps))
  }

  /** Normalising keeps the ratio of every pair of taps. */
  lemma NormalizeKeepsRatios(taps: seq<real>, i: nat, j: nat)
    requires NormalizeTaps(taps).Ok? && i < |taps| && j < |taps|
    ensures NormalizeTaps(taps).value[i] * taps[j] == NormalizeTaps(taps).value[j] * taps[i]
  {
    ScaleRatio(1.0 / Sum(taps), taps, NormalizeTaps(taps).value, i, j);
  }

  /** Normalising taps that are already normalised changes nothing. */
  lemma NormalizeTapsIdempotent(taps: seq<real>)
    requires NormalizeTaps(taps).Ok?
    ensures NormalizeTaps(NormalizeTaps(taps).value) == NormalizeTaps(taps)
  {
    var n := NormalizeTaps(taps).value;
    if |taps| > 0 {
      assert Sum(n) == 1.0;
      assert Scale(1.0 / 1.0, n) == n;
    }
  }
}
