/**
 * The two channel models of channel/simple.py, without their additive
 * noise: the simple channel (FIR inter-symbol interference, a fixed loss
 * and a delay) and the copper channel (a fixed loss, a single-pole IIR
 * roll-off run in place over the samples, and the same delay).
 */
module Channel {
  import opened Common
  import opened Convolution

  /** The channel fields the two channels read; None stands for a field left unset. */
  datatype ChannelCfg = ChannelCfg(
    fixedLossDb: Option<real>,
    isiTaps: Option<seq<real>>,
    awgnSigma: Option<real>,
    delay: Option<real>,
    alphaDbPerInGhz: Option<real>,
    lengthIn: Option<real>,
    fRefGhz: Option<real>)

  /** ChannelCfg(type, fixed_loss_db) with every optional field at its dataclass default. */
  function DefaultChannelCfg(fixedLossDb: real): ChannelCfg
  {
    ChannelCfg(Some(fixedLossDb), None, None, None, Some(0.5), Some(20.0), Some(10.0))
  }

  /** The linear gain of the fixed loss, 10 ** (-loss / 20), with 0 dB when unset. */
  function LossGain(cfg: ChannelCfg, tr: Transcendentals): real
  {
    tr.pow10(-cfg.fixedLossDb.GetOr(0.0) / 20.0)
  }

  /** int(cfg.delay), truncating toward zero, and 0 when unset. */
  function DelaySamples(cfg: ChannelCfg): int
  {
    TruncToInt(cfg.delay.GetOr(0.0))
  }

  /**
   * The delay stage: for d > 0, d zeros followed by out[:-d], which is
   * empty once d reaches the length (the result then holds d zeros and is
   * longer than the input); d <= 0 leaves the samples alone.
   */
  function Delay(out: seq<real>, d: int): (r: seq<real>)
    ensures d <= 0 ==> r == out
    ensures 0 < d <= |out| ==> |r| == |out|
    ensures d > |out| ==> |r| == d
    ensures d > 0 ==> forall i :: 0 <= i < d && i < |r| ==> r[i] == 0.0
    ensures d > 0 ==> forall i :: d <= i < |r| ==> r[i] == out[i - d]
  {
    if d <= 0 then out
    else if d >= |out| then Fill(d, 0.0)
    else Fill(d, 0.0) + out[..|out| - d]
  }

  /** Two delays that stay within the record add up. */
  lemma DelayCompose(out: seq<real>, a: int, b: int)
    requires a >= 0 && b >= 0 && a + b <= |out|
    ensures Delay(Delay(out, a), b) == Delay(out, a + b)
  {
    var l := Delay(Delay(out, a), b);
    var r := Delay(out, a + b);
    assert |l| == |r|;
    forall i | 0 <= i < |l|
      ensures l[i] == r[i]
    {
    }
  }

  /**
   * simple_channel without noise: 'same'-mode convolution with the ISI
   * taps ([1.0] when unset), the fixed-loss gain, then the delay. An empty
   * waveform or an empty tap list makes np.convolve raise ValueError.
   */
  function SimpleChannel(waveform: seq<real>, cfg: ChannelCfg, tr: Transcendentals): (r: Result<seq<real>>)
    ensures r.Err? <==> |waveform| == 0 || |cfg.isiTaps.GetOr([1.0])| == 0
    ensures r.Err? ==> r.error == ValueError
  {
    match ConvolveSame(waveform, cfg.isiTaps.GetOr([1.0]))
    case Err(e) => Err(e)
    case Ok(filtered) => Ok(Delay(Scale(LossGain(cfg, tr), filtered), DelaySamples(cfg)))
  }

  /**
   * With taps no longer than the waveform and a delay no longer than it,
   * the output has the waveform's length (as the channel test asserts);
   * a longer delay makes the output that many samples long.
   */
  lemma SimpleChannelLength(waveform: seq<real>, cfg: ChannelCfg, tr: Transcendentals)
    requires |waveform| >= 1 && 1 <= |cfg.isiTaps.GetOr([1.0])| <= |waveform|
    ensures DelaySamples(cfg) <= |waveform| ==> |SimpleChannel(waveform, cfg, tr).value| == |waveform|
    ensures DelaySamples(cfg) > |waveform| ==> |SimpleChannel(waveform, cfg, tr).value| == DelaySamples(cfg)
  {
  }

  /** With only a 0 dB loss set (and 10 ** 0 = 1), the simple channel passes the waveform through. */
  lemma SimpleChannelDefaults(waveform: seq<real>, tr: Transcendentals)
    requires |waveform| >= 1 && tr.pow10(0.0) == 1.0
    ensures SimpleChannel(waveform, DefaultChannelCfg(0.0), tr) == Ok(waveform)
  {
    ConvolveSameUnitTap(waveform);
    assert -0.0 / 20.0 == 0.0;
    assert Scale(1.0, waveform) == waveform;
  }

  /** Scaling commutes with the delay. */
  lemma DelayScale(c: real, s: seq<real>, d: int)
    ensures Delay(Scale(c, s), d) == Scale(c, Delay(s, d))
  {
    var l := Delay(Scale(c, s), d);
    var r := Scale(c, Delay(s, d));
    assert |l| == |r|;
    forall i | 0 <= i < |l|
      ensures l[i] == r[i]
    {
    }
  }

  /** Two scalings commute. */
  lemma ScaleSwap(g: real, c: real, s: seq<real>)
    ensures Scale(g, Scale(c, s)) == Scale(c, Scale(g, s))
  {
    forall i | 0 <= i < |s|
      ensures Scale(g, Scale(c, s))[i] == Scale(c, Scale(g, s))[i]
    {
      assert g * (c * s[i]) == c * (g * s[i]);
    }
  }

  /** The noise-free simple channel is linear: scaling the input scales the output. */
  lemma SimpleChannelScales(c: real, waveform: seq<real>, cfg: ChannelCfg, tr: Transcendentals)
    requires |waveform| >= 1 && |cfg.isiTaps.GetOr([1.0])| >= 1
    ensures SimpleChannel(Scale(c, waveform), cfg, tr) == Ok(Scale(c, SimpleChannel(waveform, cfg, tr).value))
  {
    var taps := cfg.isiTaps.GetOr([1.0]);
    var g := LossGain(cfg, tr);
    var d := DelaySamples(cfg);
    ConvolveSameScale(c, waveform, taps);
    var f := ConvolveSame(waveform, taps).value;
    ScaleSwap(g, c, f);
    DelayScale(c, Scale(g, f), d);
  }

  // ---------------------------------------------------------------------
  // The copper channel
  // ---------------------------------------------------------------------

  /**
   * The normalised cutoff min(0.5, cutoff / (2 f_ref)) with cutoff =
   * f_ref / (1 + alpha length). Python raises ZeroDivisionError when
   * 1 + alpha length is zero, and when f_ref is zero.
   */
  function NormCutoff(alpha: real, length: real, fRef: real): (r: Result<real>)
    ensures r.Err? <==> 1.0 + alpha * length == 0.0 || fRef == 0.0
    ensures r.Err? ==> r.error == ZeroDivisionError
    ensures r.Ok? ==> r.value <= 0.5
  {
    if 1.0 + alpha * length == 0.0 then Err(ZeroDivisionError)
    else
      var cutoff := fRef / (1.0 + alpha * length);
      if fRef == 0.0 then Err(ZeroDivisionError)
      else Ok(Min(0.5, cutoff / (2.0 * fRef)))
  }

  /**
   * For a non-negative loss slope and length the cutoff is
   * 1 / (2 (1 + alpha length)), whatever the reference frequency, and lies in (0, 0.5].
   */
  lemma NormCutoffValue(alpha: real, length: real, fRef: real)
    requires alpha * length >= 0.0 && fRef != 0.0
    ensures NormCutoff(alpha, length, fRef) == Ok(1.0 / (2.0 * (1.0 + alpha * length)))
    ensures 0.0 < NormCutoff(alpha, length, fRef).value <= 0.5
  {
    var s := 1.0 + alpha * length;
    var cutoff := fRef / s;
    assert cutoff * s == fRef;
    assert cutoff / (2.0 * fRef) == 1.0 / (2.0 * s) by {
      assert (1.0 / (2.0 * s)) * (2.0 * fRef) == fRef / s;
    }
    assert 1.0 / (2.0 * s) <= 0.5 by {
      assert (1.0 / (2.0 * s)) * (2.0 * s) == 1.0;
    }
  }

  /** The defaults (alpha 0.5, 20 inches, 10 GHz) give a normalised cutoff of 1/22. */
  lemma DefaultCutoff()
    ensures NormCutoff(0.5, 20.0, 10.0) == Ok(1.0 / 22.0)
  {
    NormCutoffValue(0.5, 20.0, 10.0);
  }

  /** One step of a first-order difference equation with a0 = 1: y = b0 x + a1 y_prev. */
  function FirstOrderStep(b0: real, a1: real, xv: real, yPrev: real): real
  {
    b0 * xv + a1 * yPrev
  }

  /**
   * The recurrence copper_channel runs in place: y[0] = x[0] and
   * y[i] = c x[i] + (c - 1) y[i - 1], with a[1] = c - 1 added where the
   * difference equation of a lowpass subtracts it.
   */
  function IirAsWritten(x: seq<real>, c: real): (y: seq<real>)
    ensures |y| == |x|
    decreases |x|
  {
    if |x| <= 1 then x
    else
      var p := IirAsWritten(x[..|x| - 1], c);
      p + [FirstOrderStep(c, c - 1.0, x[|x| - 1], p[|p| - 1])]
  }

  /** Each output of the as-written recurrence depends only on the inputs up to it. */
  lemma {:induction false} IirAsWrittenPrefix(x: seq<real>, c: real, k: nat)
    requires 1 <= k <= |x|
    ensures IirAsWritten(x, c)[..k] == IirAsWritten(x[..k], c)
    decreases |x|
  {
    if k < |x| {
      var p := IirAsWritten(x[..|x| - 1], c);
      assert IirAsWritten(x, c)[..k] == p[..k];
      assert x[..|x| - 1][..k] == x[..k];
      IirAsWrittenPrefix(x[..|x| - 1], c, k);
    } else {
      assert x[..k] == x;
    }
  }

  /** Extending the input by one sample extends the as-written output by one recurrence step. */
  lemma IirAsWrittenSnoc(x: seq<real>, c: real, i: nat)
    requires 1 <= i < |x|
    ensures IirAsWritten(x[..i + 1], c) ==
            IirAsWritten(x[..i], c) + [FirstOrderStep(c, c - 1.0, x[i], IirAsWritten(x[..i], c)[i - 1])]
  {
    var y := x[..i + 1];
    assert |y| > 1;
    assert IirAsWritten(y, c) == IirAsWritten(y[..|y| - 1], c) + [FirstOrderStep(c, c - 1.0, y[|y| - 1], IirAsWritten(y[..|y| - 1], c)[|y| - 2])];
    assert y[..|y| - 1] == x[..i];
    assert y[|y| - 1] == x[i];
  }

  /** Step i of the as-written recurrence. */
  lemma IirAsWrittenStep(x: seq<real>, c: real, i: nat)
    requires 1 <= i < |x|
    ensures IirAsWritten(x, c)[0] == x[0]
    ensures IirAsWritten(x, c)[i] == FirstOrderStep(c, c - 1.0, x[i], IirAsWritten(x, c)[i - 1])
  {
    IirAsWrittenPrefix(x, c, i + 1);
    IirAsWrittenPrefix(x, c, 1);
    assert x[..1] == [x[0]];
    IirAsWrittenSnoc(x, c, i);
    IirAsWrittenPrefix(x, c, i);
    assert IirAsWritten(x, c)[i] == IirAsWritten(x, c)[..i + 1][i];
    assert IirAsWritten(x, c)[i - 1] == IirAsWritten(x, c)[..i][i - 1];
  }

  /** The copper channel's fields with their defaults applied. */
  function CopperCutoff(cfg: ChannelCfg): Result<real>
  {
    NormCutoff(cfg.alphaDbPerInGhz.GetOr(0.5), cfg.lengthIn.GetOr(20.0), cfg.fRefGhz.GetOr(10.0))
  }

  /** copper_channel without noise, as written: gain, the in-place recurrence, then the delay. */
  function CopperAsWritten(waveform: seq<real>, cfg: ChannelCfg, tr: Transcendentals): (r: Result<seq<real>>)
    ensures r.Err? <==> CopperCutoff(cfg).Err?
  {
    match CopperCutoff(cfg)
    case Err(e) => Err(e)
    case Ok(c) => Ok(Delay(IirAsWritten(Scale(LossGain(cfg, tr), waveform), c), DelaySamples(cfg)))
  }

  /**
   * The loop of copper_channel: for i from 1, out[i] = b0 out[i] + a1
   * out[i - 1] with a1 = b0 - 1, each step reading the output already
   * written at i - 1.
   */
  method FilterInPlace(out: array<real>, b0: real)
    modifies out
    ensures out[..] == IirAsWritten(old(out[..]), b0)
  {
    ghost var x := out[..];
    var a1 := b0 - 1.0;
    if out.Length >= 1 {
      var i := 1;
      assert out[..1] == IirAsWritten(x[..1], b0);
      while i < out.Length
        invariant 1 <= i <= out.Length
        invariant out[..i] == IirAsWritten(x[..i], b0)
        invariant out[i..] == x[i..]
        decreases out.Length - i
      {
        ghost var prev := out[..i];
        var xi, yp := out[i], out[i - 1];
        assert xi == x[i] && yp == prev[i - 1];
        out[i] := FirstOrderStep(b0, a1, xi, yp);
        assert out[..i] == prev;
        IirAsWrittenSnoc(x, b0, i);
        assert out[..i + 1] == prev + [FirstOrderStep(b0, a1, xi, yp)];
        i := i + 1;
      }
      assert x[..i] == x;
    }
  }

  /**
   * copper_channel: scales a copy of the waveform by the loss gain,
   * filters it in place and delays the result.
   */
  method CopperChannel(waveform: seq<real>, cfg: ChannelCfg, tr: Transcendentals) returns (r: Result<seq<real>>)
    ensures r == CopperAsWritten(waveform, cfg, tr)
  {
    var gain := LossGain(cfg, tr);
    var x := Scale(gain, waveform);
    var out := new real[|x|](i requires 0 <= i < |x| => x[i]);
    assert out[..] == x;
    var cut := CopperCutoff(cfg);
    if cut.Err? {
      return Err(cut.error);
    }
    FilterInPlace(out, cut.value);
    r := Ok(Delay(out[..], DelaySamples(cfg)));
  }

  /**
   * The as-written recurrence does not keep a constant input constant: for
   * any cutoff up to 0.5, a constant non-zero input changes at the second
   * sample (its value there is (2c - 1) v).
   */
  lemma IirAsWrittenBreaksConstant(x: seq<real>, c: real)
    requires |x| >= 2 && x[0] == x[1] && x[0] != 0.0 && c <= 0.5
    ensures IirAsWritten(x, c)[1] == (2.0 * c - 1.0) * x[0]
    ensures IirAsWritten(x, c)[1] != x[1]
  {
    IirAsWrittenStep(x, c, 1);
    assert (2.0 * c - 1.0) * x[0] - x[0] == (2.0 * c - 2.0) * x[0];
  }

  /** With c = 0.5 the constant input [1, 1] comes out as [1, 0]. */
  lemma IirAsWrittenExample()
    ensures IirAsWritten([1.0, 1.0], 0.5) == [1.0, 0.0]
  {
    IirAsWrittenStep([1.0, 1.0], 0.5, 1);
  }

  /** The evidently intended first-order lowpass: y[0] = x[0], y[i] = c x[i] + (1 - c) y[i - 1]. */
  function Lowpass(x: seq<real>, c: real): (y: seq<real>)
    ensures |y| == |x|
    decreases |x|
  {
    if |x| <= 1 then x
    else
      var p := Lowpass(x[..|x| - 1], c);
      p + [FirstOrderStep(c, 1.0 - c, x[|x| - 1], p[|p| - 1])]
  }

  /** A constant input passes the intended lowpass unchanged (unit gain at DC). */
  lemma {:induction false} LowpassKeepsConstant(x: seq<real>, c: real, v: real)
    requires forall i :: 0 <= i < |x| ==> x[i] == v
    ensures Lowpass(x, c) == x
    decreases |x|
  {
    if |x| > 1 {
      var y := Lowpass(x, c);
      LowpassStep(x, c);
      LowpassKeepsConstant(x[..|x| - 1], c, v);
      assert y[|x| - 1] == c * v + (1.0 - c) * v == v;
      forall i | 0 <= i < |x|
        ensures y[i] == x[i]
      {
        if i < |x| - 1 {
          assert y[i] == y[..|x| - 1][i];
        }
      }
    }
  }

  /** One step of the intended lowpass: the prefix is the lowpass of the prefix, then one recurrence step. */
  lemma LowpassStep(x: seq<real>, c: real)
    requires |x| > 1
    ensures Lowpass(x, c)[..|x| - 1] == Lowpass(x[..|x| - 1], c)
    ensures Lowpass(x, c)[|x| - 1] == FirstOrderStep(c, 1.0 - c, x[|x| - 1], Lowpass(x[..|x| - 1], c)[|x| - 2])
  {
  }

  /** For 0 <= c <= 1 every output of the intended lowpass stays within the bounds of the inputs. */
  lemma {:induction false} LowpassBounded(x: seq<real>, c: real, lo: real, hi: real)
    requires 0.0 <= c <= 1.0
    requires forall i :: 0 <= i < |x| ==> lo <= x[i] <= hi
    ensures forall i :: 0 <= i < |x| ==> lo <= Lowpass(x, c)[i] <= hi
    decreases |x|
  {
    if |x| > 1 {
      var p := Lowpass(x[..|x| - 1], c);
      LowpassBounded(x[..|x| - 1], c, lo, hi);
      var u, w := x[|x| - 1], p[|p| - 1];
      assert lo <= w <= hi;
      ConvexBetween(c, u, w, lo, hi);
      var y := Lowpass(x, c);
      LowpassStep(x, c);
      forall i | 0 <= i < |x|
        ensures lo <= y[i] <= hi
      {
        if i < |x| - 1 {
          assert y[i] == y[..|x| - 1][i];
        }
      }
    }
  }

  /** A weighted mean of two values in [lo, hi] with weights c and 1 - c, 0 <= c <= 1, stays in [lo, hi]. */
  lemma ConvexBetween(c: real, u: real, w: real, lo: real, hi: real)
    requires 0.0 <= c <= 1.0 && lo <= u <= hi && lo <= w <= hi
    ensures lo <= c * u + (1.0 - c) * w <= hi
  {
    MulNonneg(c, u - lo);
    MulNonneg(1.0 - c, w - lo);
    MulNonneg(c, hi - u);
    MulNonneg(1.0 - c, hi - w);
  }

  /** The copper channel with the intended lowpass in place of the as-written recurrence. */
  function CopperIntended(waveform: seq<real>, cfg: ChannelCfg, tr: Transcendentals): (r: Result<seq<real>>)
    ensures r.Err? <==> CopperCutoff(cfg).Err?
  {
    match CopperCutoff(cfg)
    case Err(e) => Err(e)
    case Ok(c) => Ok(Delay(Lowpass(Scale(LossGain(cfg, tr), waveform), c), DelaySamples(cfg)))
  }

  /**
   * The intended copper channel with no delay passes a constant waveform
   * through at the fixed-loss gain, as a lossy lowpass should at DC.
   */
  lemma CopperIntendedConstant(waveform: seq<real>, cfg: ChannelCfg, tr: Transcendentals, v: real)
    requires CopperCutoff(cfg).Ok? && DelaySamples(cfg) <= 0
    requires forall i :: 0 <= i < |waveform| ==> waveform[i] == v
    ensures CopperIntended(waveform, cfg, tr) == Ok(Scale(LossGain(cfg, tr), waveform))
  {
    var g := LossGain(cfg, tr);
    LowpassKeepsConstant(Scale(g, waveform), CopperCutoff(cfg).value, g * v);
  }
}
