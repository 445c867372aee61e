/**
 * The transmitter output driver of tx/driver.py: scaling a waveform to a
 * peak-to-peak swing and adding a common-mode voltage.
 */
module Driver {
  import opened Common

  /** The index of a sample of largest magnitude (the first one, scanning left to right). */
  function PeakIndex(w: seq<real>): (k: nat)
    requires |w| >= 1
    ensures k < |w|
    decreases |w|
  {
    if |w| == 1 then 0
    else
      var k := PeakIndex(w[..|w| - 1]);
      if Abs(w[|w| - 1]) > Abs(w[k]) then |w| - 1 else k
  }

  /** No sample is larger in magnitude than the one at PeakIndex. */
  lemma {:induction false} PeakIndexIsPeak(w: seq<real>)
    requires |w| >= 1
    ensures forall i :: 0 <= i < |w| ==> Abs(w[i]) <= Abs(w[PeakIndex(w)])
    decreases |w|
  {
    if |w| > 1 {
      var front := w[..|w| - 1];
      PeakIndexIsPeak(front);
      assert forall i :: 0 <= i < |w| - 1 ==> front[i] == w[i];
    }
  }

  /** np.max(np.abs(w)). */
  function MaxAbs(w: seq<real>): (m: real)
    requires |w| >= 1
    ensures m >= 0.0
  {
    Abs(w[PeakIndex(w)])
  }

  /** np.max(np.abs(w)) bounds every magnitude and is the magnitude of a sample. */
  lemma MaxAbsBounds(w: seq<real>)
    requires |w| >= 1
    ensures forall i :: 0 <= i < |w| ==> Abs(w[i]) <= MaxAbs(w)
    ensures exists k :: 0 <= k < |w| && Abs(w[k]) == MaxAbs(w)
  {
    PeakIndexIsPeak(w);
    var k := PeakIndex(w);
    assert Abs(w[k]) == MaxAbs(w);
  }

  /** The factor swing / (2 max|w|) apply_swing multiplies by. */
  function SwingGain(w: seq<real>, swing: real): (g: real)
    requires |w| >= 1 && MaxAbs(w) > 0.0
    ensures swing >= 0.0 ==> g >= 0.0
  {
    swing / (2.0 * MaxAbs(w))
  }

  /** The factor times twice the peak magnitude is the swing. */
  lemma SwingGainTimesPeak(w: seq<real>, swing: real)
    requires |w| >= 1 && MaxAbs(w) > 0.0
    ensures SwingGain(w, swing) * (2.0 * MaxAbs(w)) == swing
  {
  }

  /**
   * apply_swing: every sample multiplied by swing / (2 max|w|). An empty
   * waveform makes np.max raise ValueError; an all-zero waveform would
   * divide by zero and is excluded.
   */
  function ApplySwing(w: seq<real>, swing: real): (r: Result<seq<real>>)
    requires |w| == 0 || MaxAbs(w) > 0.0
    ensures r.Err? <==> |w| == 0
    ensures r.Err? ==> r.error == ValueError
    ensures r.Ok? ==> |r.value| == |w|
  {
    if |w| == 0 then Err(ValueError)
    else Ok(Scale(SwingGain(w, swing), w))
  }

  /** The magnitude of a non-negative multiple. */
  lemma AbsScale(g: real, x: real)
    requires g >= 0.0
    ensures Abs(g * x) == g * Abs(x)
  {
  }

  /** Scaling by g >= 0 scales a magnitude bound m to g * m. */
  lemma ScaleBound(g: real, w: seq<real>, m: real)
    requires g >= 0.0
    requires forall i :: 0 <= i < |w| ==> Abs(w[i]) <= m
    ensures forall i :: 0 <= i < |w| ==> Abs(Scale(g, w)[i]) <= g * m
  {
    forall i | 0 <= i < |w|
      ensures Abs(Scale(g, w)[i]) <= g * m
    {
      AbsScale(g, w[i]);
      assert g * (m - Abs(w[i])) >= 0.0;
    }
  }

  /** g * (2m) = s means g * m = s / 2. */
  lemma HalfProduct(g: real, m: real, s: real)
    requires g * (2.0 * m) == s
    ensures g * m == s / 2.0
  {
    assert g * (2.0 * m) == 2.0 * (g * m);
  }

  /** The gain for a waveform already peaking at swing / 2 is 1. */
  lemma UnitFactor(g: real, m: real, s: real)
    requires s != 0.0 && g * (2.0 * m) == s && m == s / 2.0
    ensures g == 1.0
  {
    assert 2.0 * m == s;
    assert (g - 1.0) * s == 0.0;
  }

  /** For swing >= 0 the scaled waveform peaks at exactly swing / 2 in magnitude. */
  lemma SwingPeak(w: seq<real>, swing: real)
    requires |w| >= 1 && MaxAbs(w) > 0.0 && swing >= 0.0
    ensures MaxAbs(ApplySwing(w, swing).value) == swing / 2.0
  {
    var m := MaxAbs(w);
    var g := SwingGain(w, swing);
    var out := ApplySwing(w, swing).value;
    SwingIsScale(w, swing);
    MaxAbsBounds(w);
    ScaleBound(g, w, m);
    SwingGainTimesPeak(w, swing);
    HalfProduct(g, m, swing);
    var k := PeakIndex(w);
    AbsScale(g, w[k]);
    assert Abs(out[k]) == swing / 2.0;
    PeakIndexIsPeak(out);
    assert Abs(out[PeakIndex(out)]) <= swing / 2.0;
  }

  /** Every sample keeps its ratio to every other sample. */
  lemma SwingKeepsRatios(w: seq<real>, swing: real)
    requires |w| >= 1 && MaxAbs(w) > 0.0
    ensures forall i, j :: 0 <= i < |w| && 0 <= j < |w| ==>
              ApplySwing(w, swing).value[i] * w[j] == ApplySwing(w, swing).value[j] * w[i]
  {
    var g := SwingGain(w, swing);
    var out := ApplySwing(w, swing).value;
    SwingIsScale(w, swing);
    forall i, j | 0 <= i < |w| && 0 <= j < |w|
      ensures out[i] * w[j] == out[j] * w[i]
    {
      ScaleRatio(g, w, out, i, j);
    }
  }

  /** apply_swing multiplies every sample by the one factor SwingGain. */
  lemma SwingIsScale(w: seq<real>, swing: real)
    requires |w| >= 1 && MaxAbs(w) > 0.0
    ensures ApplySwing(w, swing).value == Scale(SwingGain(w, swing), w)
  {
  }

  /** With a positive swing, scaling an already scaled waveform changes nothing. */
  lemma SwingIdempotent(w: seq<real>, swing: real)
    requires |w| >= 1 && MaxAbs(w) > 0.0 && swing > 0.0
    ensures MaxAbs(ApplySwing(w, swing).value) > 0.0
    ensures ApplySwing(ApplySwing(w, swing).value, swing) == ApplySwing(w, swing)
  {
    var out := ApplySwing(w, swing).value;
    SwingPeak(w, swing);
    SwingGainTimesPeak(out, swing);
    UnitFactor(SwingGain(out, swing), MaxAbs(out), swing);
    assert Scale(1.0, out) == out;
  }

  /** apply_vcm: vcm added to every sample. */
  function ApplyVcm(w: seq<real>, vcm: real): (r: seq<real>)
    ensures |r| == |w|
  {
    seq(|w|, i requires 0 <= i < |w| => w[i] + vcm)
  }

  /** Removing the common mode that was added gives the waveform back. */
  lemma VcmRoundTrip(w: seq<real>, vcm: real)
    ensures ApplyVcm(ApplyVcm(w, vcm), -vcm) == w
  {
  }

  /** Every sample of the driver output lies in [vcm - swing / 2, vcm + swing / 2]. */
  lemma DriverOutputRange(w: seq<real>, swing: real, vcm: real)
    requires |w| >= 1 && MaxAbs(w) > 0.0 && swing >= 0.0
    ensures forall i :: 0 <= i < |w| ==>
              vcm - swing / 2.0 <= ApplyVcm(ApplySwing(w, swing).value, vcm)[i] <= vcm + swing / 2.0
  {
    SwingPeak(w, swing);
    var out := ApplySwing(w, swing).value;
    MaxAbsBounds(out);
    assert forall i :: 0 <= i < |w| ==> Abs(out[i]) <= swing / 2.0;
  }
}
