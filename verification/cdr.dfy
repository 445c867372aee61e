/**
 * Clock and data recovery building blocks of rx/cdr.py: the ideal (fixed
 * stride) sampler, the bang-bang and Hogge phase detectors, and the
 * integrating loop filter. Nothing in the source connects a detector to the
 * oscillator of the Nco module, so no closed loop is modelled.
 */
module Cdr {
  import opened Common
  import Slicer

  /** s reversed. */
  function Reverse(s: seq<real>): (r: seq<real>)
    ensures |r| == |s|
    ensures forall i :: 0 <= i < |s| ==> r[i] == s[|s| - 1 - i]
  {
    seq(|s|, i requires 0 <= i < |s| => s[|s| - 1 - i])
  }

  /** Python's s[::k] for a positive stride: every k-th element, from the first. */
  function Decimate(s: seq<real>, k: int): seq<real>
    requires k >= 1
    decreases |s|
  {
    if |s| == 0 then []
    else if |s| <= k then [s[0]]
    else [s[0]] + Decimate(s[k..], k)
  }

  /** s[::k] has ceil(|s| / k) elements. */
  lemma {:induction false} DecimateLength(s: seq<real>, k: int)
    requires k >= 1
    ensures |Decimate(s, k)| == (|s| + k - 1) / k
    decreases |s|
  {
    if |s| == 0 {
    } else if |s| <= k {
      DivOfMulPlus(1, k, |s| - 1);
    } else {
      DecimateLength(s[k..], k);
      DivAddDivisor(|s| - 1, k);
    }
  }

  /** Element i of s[::k] is s[i * k]. */
  lemma {:induction false} DecimateAt(s: seq<real>, k: int, i: nat)
    requires k >= 1 && i < |Decimate(s, k)|
    ensures i * k < |s| && Decimate(s, k)[i] == s[i * k]
    decreases |s|
  {
    if i > 0 {
      var t := s[k..];
      assert |s| > k && Decimate(s, k) == [s[0]] + Decimate(t, k);
      DecimateAt(t, k, i - 1);
      var j := (i - 1) * k;
      assert k + j == i * k by {
        MulPred(i, k);
      }
      assert t[j] == s[k + j];
    }
  }

  /**
   * ideal_sampler: waveform[::sps]. A zero stride raises ValueError; a
   * negative stride walks backwards from the last sample.
   */
  function IdealSampler(waveform: seq<real>, sps: int): (r: Result<seq<real>>)
    ensures r.Err? <==> sps == 0
    ensures r.Err? ==> r.error == ValueError
    ensures sps >= 1 ==> |r.value| == (|waveform| + sps - 1) / sps
    ensures sps >= 1 ==> forall i :: 0 <= i < |r.value| ==> i * sps < |waveform| && r.value[i] == waveform[i * sps]
    ensures sps <= -1 ==> |r.value| == (|waveform| - sps - 1) / -sps
    ensures sps <= -1 ==> forall i :: 0 <= i < |r.value| ==>
                            i * -sps < |waveform| && r.value[i] == waveform[|waveform| - 1 - i * -sps]
  {
    if sps == 0 then Err(ValueError)
    else if sps > 0 then
      DecimateLength(waveform, sps);
      forall i | 0 <= i < |Decimate(waveform, sps)|
        ensures i * sps < |waveform| && Decimate(waveform, sps)[i] == waveform[i * sps]
      {
        DecimateAt(waveform, sps, i);
      }
      Ok(Decimate(waveform, sps))
    else
      var rev := Reverse(waveform);
      var stride := -sps;
      var d := Decimate(rev, stride);
      DecimateLength(rev, stride);
      forall i | 0 <= i < |d|
        ensures i * stride < |waveform| && d[i] == waveform[|waveform| - 1 - i * stride]
      {
        DecimateAt(rev, stride, i);
      }
      Ok(d)
  }

  /**
   * The bang-bang rule on three decisions: +1 (clock early) when the early
   * decision differs from the mid one, otherwise -1 (clock late) when the
   * late decision differs from the mid one, otherwise 0.
   */
  function BangBangRule(early: Bit, mid: Bit, late: Bit): (e: int)
    ensures e == -1 || e == 0 || e == 1
    ensures e == 1 <==> early != mid
    ensures e == -1 <==> early == mid && late != mid
    ensures e == 0 <==> early == mid && late == mid
  {
    if early != mid then 1 else if late != mid then -1 else 0
  }

  /** Python's (n - sps) // sps, the loop bound of bang_bang_phase_detector. */
  function BangBangSymbols(n: int, sps: int): int
    requires sps >= 1
  {
    (n - sps) / sps
  }

  /** The number of errors bang_bang_phase_detector emits: one per i in range(1, n_symbols). */
  function BangBangCount(n: int, sps: int): nat
    requires sps >= 1
  {
    if BangBangSymbols(n, sps) >= 1 then BangBangSymbols(n, sps) - 1 else 0
  }

  /**
   * For every symbol index the loop visits, the late sample index is inside
   * the waveform, so the loop's `break` never fires.
   */
  lemma BangBangIndicesInRange(n: int, sps: int, i: int)
    requires sps >= 1 && 1 <= i < BangBangSymbols(n, sps)
    ensures 0 <= i * sps && i * sps + 2 * (sps / 2) < n
  {
    MulLeIffLeDiv(i + 1, sps, n - sps);
    assert (i + 1) * sps == i * sps + sps;
  }

  /** The error the bang-bang detector emits for symbol index i. */
  function BangBangAt(waveform: seq<real>, sps: int, threshold: real, i: int): int
    requires sps >= 1 && 1 <= i < BangBangSymbols(|waveform|, sps)
  {
    BangBangIndicesInRange(|waveform|, sps, i);
    var half := sps / 2;
    var mid := i * sps + half;
    BangBangRule(
      Slicer.NrzDecision(waveform[mid - half], threshold),
      Slicer.NrzDecision(waveform[mid], threshold),
      Slicer.NrzDecision(waveform[mid + half], threshold))
  }

  /** All the errors of bang_bang_phase_detector, for symbol indices 1, 2, .... */
  function BangBangErrors(waveform: seq<real>, sps: int, threshold: real): (r: seq<int>)
    requires sps >= 1
    ensures |r| == BangBangCount(|waveform|, sps)
  {
    seq(BangBangCount(|waveform|, sps), k requires 0 <= k < BangBangCount(|waveform|, sps) =>
      BangBangAt(waveform, sps, threshold, k + 1))
  }

  /**
   * bang_bang_phase_detector: for i in 1 .. n_symbols - 1 the early, mid and
   * late samples are at i * sps, i * sps + sps / 2 and i * sps + 2 * (sps / 2);
   * each is decided against the threshold and the bang-bang rule gives the
   * error. A zero sps raises ZeroDivisionError; a negative one gives no errors
   * (Python's floor division makes n_symbols negative). The loop's `break` on
   * a late index past the end is the second half of the loop guard.
   */
  method BangBangPhaseDetector(waveform: seq<real>, sps: int, threshold: real) returns (r: Result<seq<int>>)
    ensures r.Err? <==> sps == 0
    ensures r.Err? ==> r.error == ZeroDivisionError
    ensures sps < 0 ==> r == Ok([])
    ensures sps >= 1 ==> r.Ok? && |r.value| == BangBangCount(|waveform|, sps)
    ensures sps >= 1 ==> forall k :: 0 <= k < |r.value| ==>
                           r.value[k] == BangBangAt(waveform, sps, threshold, k + 1)
    ensures r.Ok? ==> forall k :: 0 <= k < |r.value| ==> -1 <= r.value[k] <= 1
  {
    if sps == 0 {
      return Err(ZeroDivisionError);
    }
    if sps < 0 {
      return Ok([]);
    }
    var errors: seq<int> := [];
    var half := sps / 2;
    var nSymbols := (|waveform| - sps) / sps;
    var i := 1;
    while i < nSymbols && i * sps + half + half < |waveform|
      invariant 1 <= i && (i <= nSymbols || i == 1)
      invariant |errors| == i - 1
      invariant forall k :: 0 <= k < |errors| ==> errors[k] == BangBangAt(waveform, sps, threshold, k + 1)
      invariant forall k :: 0 <= k < |errors| ==> -1 <= errors[k] <= 1
      decreases nSymbols - i
    {
      BangBangIndicesInRange(|waveform|, sps, i);
      var midIdx := i * sps + half;
      var earlyIdx := midIdx - half;
      var lateIdx := midIdx + half;
      var early := if waveform[earlyIdx] > threshold then 1 else 0;
      var mid := if waveform[midIdx] > threshold then 1 else 0;
      var late := if waveform[lateIdx] > threshold then 1 else 0;
      var phase;
      if early != mid {
        phase := 1;
      } else if late != mid {
        phase := -1;
      } else {
        phase := 0;
      }
      errors := errors + [phase];
      i := i + 1;
    }
    if i < nSymbols {
      BangBangIndicesInRange(|waveform|, sps, i);
    }
    return Ok(errors);
  }

  /**
   * An aligned alternating sample-and-hold waveform: symbol j occupies samples
   * j * sps .. j * sps + sps - 1 and is +1 for even j, -1 for odd j.
   */
  function AlternatingHold(n: nat, sps: int): (w: seq<real>)
    requires sps >= 1
    ensures |w| == n
  {
    seq(n, k => if (k / sps) % 2 == 0 then 1.0 else -1.0)
  }

  /** Sample idx = j * sps + h (h < sps) of the alternating waveform is +1 for an even j and -1 for an odd one. */
  lemma AlternatingHoldAt(n: nat, sps: int, j: nat, h: int, idx: nat)
    requires sps >= 1 && 0 <= h < sps && idx == j * sps + h && idx < n
    ensures AlternatingHold(n, sps)[idx] == if j % 2 == 0 then 1.0 else -1.0
  {
    DivOfMulPlus(j, sps, h);
  }

  /** Neighbouring symbol indices have opposite parities. */
  lemma ParityStep(i: int)
    ensures (i + 1) % 2 != i % 2
  {
  }

  /**
   * With an even sps the late sample of symbol i is the first sample of
   * symbol i + 1, so an aligned alternating waveform makes the detector report
   * "late" (-1) at every position.
   */
  lemma BangBangAlternatingEvenSps(n: nat, sps: int, k: nat)
    requires sps >= 2 && sps % 2 == 0
    requires k < BangBangCount(n, sps)
    ensures BangBangAt(AlternatingHold(n, sps), sps, 0.0, k + 1) == -1
  {
    var w := AlternatingHold(n, sps);
    var i := k + 1;
    BangBangIndicesInRange(n, sps, i);
    var half := sps / 2;
    var start := i * sps;
    var mid := start + half;
    var next := mid + half;
    assert next == (i + 1) * sps + 0 by {
      assert half + half == sps;
      assert (i + 1) * sps == start + sps;
    }
    AlternatingHoldAt(n, sps, i, 0, start);
    AlternatingHoldAt(n, sps, i, half, mid);
    AlternatingHoldAt(n, sps, i + 1, 0, next);
    ParityStep(i);
    assert w[start] == w[mid] && w[next] == -w[mid];
    assert Slicer.NrzDecision(w[start], 0.0) == Slicer.NrzDecision(w[mid], 0.0) != Slicer.NrzDecision(w[next], 0.0);
  }

  /** The number of errors hogge_phase_detector emits: one per i in range(sps, n - sps, sps). */
  function HoggeCount(n: int, sps: int): nat
    requires sps >= 1
  {
    if (n - 1) / sps - 1 >= 0 then (n - 1) / sps - 1 else 0
  }

  /** The loop of hogge_phase_detector runs at (m + 1) * sps exactly for m below the count. */
  lemma HoggeLoopBound(n: int, sps: int, m: nat)
    requires sps >= 1
    ensures sps <= (m + 1) * sps
    ensures (m + 1) * sps < n - sps <==> m < HoggeCount(n, sps)
  {
    MulLeIffLeDiv(m + 2, sps, n - 1);
    assert (m + 2) * sps == (m + 1) * sps + sps;
    assert (m + 1) * sps == m * sps + sps;
  }

  /**
   * The Hogge error of the k-th loop iteration, at sample i = (k + 1) * sps:
   * (early - late) * mid with the early and late samples sps / 2 either side.
   * Inside the loop i + sps / 2 is always below n, so the source's fallback
   * of late to mid never applies.
   */
  function HoggeAt(waveform: seq<real>, sps: int, k: nat): real
    requires sps >= 1 && k < HoggeCount(|waveform|, sps)
  {
    HoggeLoopBound(|waveform|, sps, k);
    var i := (k + 1) * sps;
    (waveform[i - sps / 2] - waveform[i + sps / 2]) * waveform[i]
  }

  /**
   * hogge_phase_detector: one error for each i = sps, 2 * sps, ... below
   * n - sps. A zero sps raises ValueError (a zero range step); a negative one
   * gives an empty range.
   */
  method HoggePhaseDetector(waveform: seq<real>, sps: int) returns (r: Result<seq<real>>)
    ensures r.Err? <==> sps == 0
    ensures r.Err? ==> r.error == ValueError
    ensures sps < 0 ==> r == Ok([])
    ensures sps >= 1 ==> r.Ok? && |r.value| == HoggeCount(|waveform|, sps)
    ensures sps >= 1 ==> forall k :: 0 <= k < |r.value| ==> r.value[k] == HoggeAt(waveform, sps, k)
  {
    if sps == 0 {
      return Err(ValueError);
    }
    if sps < 0 {
      return Ok([]);
    }
    var errors: seq<real> := [];
    var i := sps;
    HoggeLoopBound(|waveform|, sps, 0);
    while i < |waveform| - sps
      invariant i == (|errors| + 1) * sps
      invariant |errors| <= HoggeCount(|waveform|, sps)
      invariant i < |waveform| - sps <==> |errors| < HoggeCount(|waveform|, sps)
      invariant forall k :: 0 <= k < |errors| ==> errors[k] == HoggeAt(waveform, sps, k)
      decreases |waveform| - i
    {
      HoggeLoopBound(|waveform|, sps, |errors|);
      var mid := waveform[i];
      var early := waveform[i - sps / 2];
      var late := if i + sps / 2 < |waveform| then waveform[i + sps / 2] else mid;
      errors := errors + [(early - late) * mid];
      HoggeLoopBound(|waveform|, sps, |errors|);
      i := i + sps;
    }
    return Ok(errors);
  }

  /**
   * simple_loop_filter: a running phase accumulates alpha * error; output k is
   * the phase after error k, i.e. alpha times the sum of errors 0 .. k.
   */
  method SimpleLoopFilter(errors: seq<real>, alpha: real) returns (out: seq<real>)
    ensures |out| == |errors|
    ensures forall k :: 0 <= k < |errors| ==> out[k] == alpha * Sum(errors[..k + 1])
  {
    var phase := 0.0;
    out := [];
    var i := 0;
    while i < |errors|
      invariant 0 <= i <= |errors| && |out| == i
      invariant phase == alpha * Sum(errors[..i])
      invariant forall k :: 0 <= k < i ==> out[k] == alpha * Sum(errors[..k + 1])
    {
      SumPrefixStep(errors, i);
      phase := phase + alpha * errors[i];
      out := out + [phase];
      i := i + 1;
    }
  }

  /**
   * The loop filter's successive outputs differ by alpha times the new error:
   * the filter is a pure integrator.
   */
  lemma LoopFilterIncrement(errors: seq<real>, alpha: real, k: nat)
    requires 1 <= k < |errors|
    ensures alpha * Sum(errors[..k + 1]) - alpha * Sum(errors[..k]) == alpha * errors[k]
  {
    SumPrefixStep(errors, k);
  }
}
