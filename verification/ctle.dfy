/** The receiver's continuous-time linear equalizer, modelled as the FIR filter rx/ctle.py applies. */
module Ctle {
  import opened Common
  import opened Convolution

  /**
   * ctle_fir: numpy 'same'-mode convolution of the signal with the taps. The
   * result has max(|signal|, |taps|) samples; sample k is element
   * k + (m - 1) / 2 of the full convolution, m the shorter length.
   */
  function CtleFir(signal: seq<real>, taps: seq<real>): (r: Result<seq<real>>)
    ensures r.Err? <==> |signal| == 0 || |taps| == 0
    ensures r.Err? ==> r.error == ValueError
    ensures r.Ok? ==> |r.value| == (if |signal| >= |taps| then |signal| else |taps|)
    ensures r.Ok? ==>
              var m := if |signal| <= |taps| then |signal| else |taps|;
              forall k :: 0 <= k < |r.value| ==> r.value[k] == FullAt(signal, taps, k + (m - 1) / 2)
  {
    ConvolveSame(signal, taps)
  }

  /** The receiver's default taps [1.0] pass the signal through unchanged. */
  lemma CtleFirPassThrough(signal: seq<real>)
    requires |signal| >= 1
    ensures CtleFir(signal, [1.0]) == Ok(signal)
  {
    ConvolveSameUnitTap(signal);
  }

  /** For fixed taps the equalizer is linear in the signal. */
  lemma CtleFirLinear(c: real, a: seq<real>, b: seq<real>, taps: seq<real>)
    requires |a| == |b| && |a| >= 1 && |taps| >= 1
    ensures CtleFir(Add(Scale(c, a), b), taps)
            == Ok(Add(Scale(c, CtleFir(a, taps).value), CtleFir(b, taps).value))
  {
    ConvolveSameAdd(Scale(c, a), b, taps);
    ConvolveSameScale(c, a, taps);
  }
}
