/**
 * The differential ADC of rx/adc.py: the constructor validates the
 * oversampling factor and fixes the code count 2^resolution_bits; process
 * unpacks the input into two rails, re-aligns rails of different lengths,
 * resamples the differential waveform at the ADC rate and quantizes it
 * to codes (clip, scale, round half to even, clip) or back to volts.
 * Thermal noise is not modelled.
 */
module Adc {
  import opened Common
  import opened Interp

  /** The fields the ADC constructor stores. */
  datatype AdcConfig = AdcConfig(sps: int, resolutionBits: nat, vSwing: real, vCm: real, thermalNoiseStddev: real)
  {
    /** The number of codes, 2 ** resolution_bits. */
    function Levels(): nat
    {
      Pow2(resolutionBits)
    }

    /** The bottom of the differential range, -v_swing / 2. */
    function VDiffMin(): real
    {
      -vSwing / 2.0
    }

    /** The top of the differential range, +v_swing / 2. */
    function VDiffMax(): real
    {
      vSwing / 2.0
    }

    /** The ADC sample rate adc_fs = sps * symbol_rate. */
    function AdcFs(symbolRate: real): real
    {
      sps as real * symbolRate
    }
  }

  /** ADC(...): rejects sps < 1 with ValueError, otherwise stores the settings. */
  function NewAdc(sps: int, resolutionBits: nat, vSwing: real, vCm: real, thermalNoiseStddev: real): (r: Result<AdcConfig>)
    ensures r.Err? <==> sps < 1
    ensures r.Err? ==> r.error == ValueError
    ensures r.Ok? ==> r.value.sps == sps >= 1 && r.value.resolutionBits == resolutionBits
    ensures r.Ok? ==> r.value.vSwing == vSwing && r.value.vCm == vCm && r.value.thermalNoiseStddev == thermalNoiseStddev
    ensures r.Ok? ==> r.value.Levels() >= 1 && (resolutionBits >= 1 ==> r.value.Levels() >= 2)
    ensures r.Ok? ==> r.value.VDiffMax() - r.value.VDiffMin() == vSwing
  {
    if sps < 1 then Err(ValueError)
    else Ok(AdcConfig(sps, resolutionBits, vSwing, vCm, thermalNoiseStddev))
  }

  /**
   * The input shapes process distinguishes:
   * - RailPair: a Python list or tuple of exactly two rails (plus, minus);
   * - Array2D: a two-dimensional array, given by its rows and column count;
   * - Array1D: a one-dimensional array (or a list of any other length), one single-ended rail;
   * - OtherShape: any other number of dimensions.
   */
  datatype AdcInput =
    | RailPair(plus: seq<real>, minus: seq<real>)
    | Array2D(rows: seq<seq<real>>, ncols: nat)
    | Array1D(samples: seq<real>)
    | OtherShape

  /** A numpy two-dimensional array is rectangular. */
  predicate Rectangular(input: AdcInput)
  {
    input.Array2D? ==> forall i :: 0 <= i < |input.rows| ==> |input.rows[i]| == input.ncols
  }

  /**
   * _unpack_input: a pair is read as (plus, minus); a 2-row array is split by
   * rows, else an N x 2 array by columns; a 1-D input gets a minus rail held
   * at v_cm; anything else raises ValueError.
   */
  function Unpack(cfg: AdcConfig, input: AdcInput): (r: Result<(seq<real>, seq<real>)>)
    requires Rectangular(input)
    ensures r.Err? <==> input.OtherShape? || (input.Array2D? && |input.rows| != 2 && input.ncols != 2)
    ensures r.Err? ==> r.error == ValueError
    ensures input.RailPair? ==> r == Ok((input.plus, input.minus))
    ensures input.Array1D? ==> r.Ok? && r.value.0 == input.samples && |r.value.1| == |input.samples|
    ensures input.Array1D? ==> forall k :: 0 <= k < |input.samples| ==> r.value.1[k] == cfg.vCm
    ensures input.Array2D? && |input.rows| == 2 ==> r == Ok((input.rows[0], input.rows[1]))
    ensures input.Array2D? && |input.rows| != 2 && input.ncols == 2 ==>
      r.Ok? && |r.value.0| == |r.value.1| == |input.rows| &&
      forall i :: 0 <= i < |input.rows| ==> r.value.0[i] == input.rows[i][0] && r.value.1[i] == input.rows[i][1]
  {
    match input
    case RailPair(plus, minus) => Ok((plus, minus))
    case Array2D(rows, ncols) =>
      if |rows| == 2 then Ok((rows[0], rows[1]))
      else if ncols == 2 then
        Ok((seq(|rows|, i requires 0 <= i < |rows| => rows[i][0]), seq(|rows|, i requires 0 <= i < |rows| => rows[i][1])))
      else Err(ValueError)
    case Array1D(samples) => Ok((samples, Fill(|samples|, cfg.vCm)))
    case OtherShape => Err(ValueError)
  }

  /** numpy.interp of a rail of length m onto n >= m equally spaced points spanning the same interval. */
  function Realign(v: seq<real>, n: nat): (r: seq<real>)
    requires 1 <= |v| < n
    ensures |r| == n
  {
    seq(n, j requires 0 <= j < n => InterpAt(v, (j * (|v| - 1)) as real / (n - 1) as real))
  }

  /** The code of one differential voltage: clip to the range, scale to [0, levels - 1], round half to even, clip. */
  function Code(cfg: AdcConfig, x: real): (c: int)
    requires cfg.vSwing > 0.0
    ensures 0 <= c <= cfg.Levels() - 1
  {
    ClipInt(RoundHalfEven(Scaled(cfg, Clip(x, cfg.VDiffMin(), cfg.VDiffMax()))), 0, cfg.Levels() - 1)
  }

  /** The position of a voltage on the code scale: (x - v_diff_min) / v_swing * (levels - 1). */
  function Scaled(cfg: AdcConfig, x: real): real
    requires cfg.vSwing > 0.0
  {
    (x - cfg.VDiffMin()) / (cfg.VDiffMax() - cfg.VDiffMin()) * (cfg.Levels() - 1) as real
  }

  /** The voltage a code stands for: code / (levels - 1) * v_swing + v_diff_min. */
  function Dequant(cfg: AdcConfig, c: int): real
    requires cfg.resolutionBits >= 1
  {
    (c as real / (cfg.Levels() - 1) as real) * (cfg.VDiffMax() - cfg.VDiffMin()) + cfg.VDiffMin()
  }

  /** Every code stands for a voltage in [-v_swing / 2, v_swing / 2]. */
  lemma DequantInRange(cfg: AdcConfig, c: int)
    requires cfg.vSwing > 0.0 && cfg.resolutionBits >= 1
    requires 0 <= c <= cfg.Levels() - 1
    ensures cfg.VDiffMin() <= Dequant(cfg, c) <= cfg.VDiffMax()
  {
    var d := (cfg.Levels() - 1) as real;
    var t := c as real / d;
    var s := cfg.vSwing;
    FractionInUnit(c as real, d);
    MulNonneg(t, s);
    MulNonneg(1.0 - t, s);
    assert (1.0 - t) * s == s - t * s;
    assert cfg.VDiffMax() - cfg.VDiffMin() == s;
    assert Dequant(cfg, c) == t * s + cfg.VDiffMin();
  }

  /** Dividing by w and multiplying by d undoes multiplying by w and dividing by d. */
  lemma ScaleBack(c: real, d: real, w: real)
    requires d > 0.0 && w > 0.0
    ensures ((c / d) * w) / w * d == c
  {
    assert ((c / d) * w) / w == c / d;
    assert (c / d) * d == c;
  }

  /** A voltage in range whose scaled position is the whole number k gets code k. */
  lemma CodeOfExact(cfg: AdcConfig, x: real, k: int)
    requires cfg.vSwing > 0.0
    requires cfg.VDiffMin() <= x <= cfg.VDiffMax() && 0 <= k <= cfg.Levels() - 1
    requires Scaled(cfg, x) == k as real
    ensures Code(cfg, x) == k
  {
    assert Clip(x, cfg.VDiffMin(), cfg.VDiffMax()) == x;
    RoundIntegral(k);
  }

  /** Quantizing the voltage of a code gives the code back. */
  lemma CodeOfDequant(cfg: AdcConfig, c: int)
    requires cfg.vSwing > 0.0 && cfg.resolutionBits >= 1
    requires 0 <= c <= cfg.Levels() - 1
    ensures Code(cfg, Dequant(cfg, c)) == c
  {
    DequantInRange(cfg, c);
    var d := (cfg.Levels() - 1) as real;
    var lo := cfg.VDiffMin();
    var w := cfg.VDiffMax() - lo;
    var v := Dequant(cfg, c);
    assert v - lo == (c as real / d) * w;
    ScaleBack(c as real, d, w);
    assert Scaled(cfg, v) == c as real;
    CodeOfExact(cfg, v, c);
  }

  /** Quantizing twice is quantizing once. */
  lemma QuantizeIdempotent(cfg: AdcConfig, x: real)
    requires cfg.vSwing > 0.0 && cfg.resolutionBits >= 1
    ensures Dequant(cfg, Code(cfg, Dequant(cfg, Code(cfg, x)))) == Dequant(cfg, Code(cfg, x))
  {
    CodeOfDequant(cfg, Code(cfg, x));
  }

  /**
   * One-bit quantizer, v_swing 2: -1.5 and 0.0 give code 0 (0.0 sits on the
   * half-way point and rounds to the even code), 1.5 gives code 1; the
   * codes stand for -1.0 and 1.0.
   */
  lemma OneBitExample(cfg: AdcConfig)
    requires cfg.resolutionBits == 1 && cfg.vSwing == 2.0
    ensures Code(cfg, -1.5) == 0 && Code(cfg, 0.0) == 0 && Code(cfg, 1.5) == 1
    ensures Dequant(cfg, 0) == -1.0 && Dequant(cfg, 1) == 1.0
  {
    assert cfg.Levels() == 2;
  }

  /** What process returns: integer codes or reconstructed voltages. */
  datatype AdcSamples = Codes(codes: seq<int>) | Volts(volts: seq<real>)
  {
    function Length(): nat
    {
      match this
      case Codes(c) => |c|
      case Volts(v) => |v|
    }
  }

  datatype AdcOutput = AdcOutput(samples: AdcSamples, adcFs: real)

  /** The number of ADC samples over a record of duration tEnd: floor(tEnd * adc_fs) + 1. */
  function SampleCount(tEnd: real, adcFs: real): (n: nat)
    requires tEnd > 0.0 && adcFs > 0.0
    ensures n >= 1
  {
    assert tEnd * adcFs > 0.0;
    (tEnd * adcFs).Floor + 1
  }

  /**
   * The fractional input index sampled at ADC instant j: the time j / adc_fs,
   * clipped to the input record, on the input grid of spacing 1 / sim_rate.
   */
  function SamplePos(j: nat, adcFs: real, tEnd: real, simRate: real): real
    requires adcFs > 0.0
  {
    Clip(j as real / adcFs, 0.0, tEnd) * simRate
  }

  /** The rails after re-alignment: the shorter one interpolated to the longer one's length. */
  function AlignedDifferential(vp: seq<real>, vn: seq<real>): (d: seq<real>)
    requires |vp| == |vn| || (|vp| >= 1 && |vn| >= 1)
    ensures |d| == if |vp| >= |vn| then |vp| else |vn|
    ensures |vp| == |vn| ==> forall k :: 0 <= k < |vp| ==> d[k] == vp[k] - vn[k]
  {
    var n := if |vp| >= |vn| then |vp| else |vn|;
    var p := if |vp| == n then vp else Realign(vp, n);
    var m := if |vn| == n then vn else Realign(vn, n);
    seq(n, k requires 0 <= k < n => p[k] - m[k])
  }

  /** The codes of the differential waveform sampled at each of the nAdc ADC instants. */
  function SampleCodes(cfg: AdcConfig, diff: seq<real>, nAdc: nat, adcFs: real, tEnd: real, simRate: real): (codes: seq<int>)
    requires cfg.vSwing > 0.0 && |diff| >= 1 && adcFs > 0.0
    ensures |codes| == nAdc
    ensures forall j :: 0 <= j < nAdc ==> 0 <= codes[j] <= cfg.Levels() - 1
    ensures forall j :: 0 <= j < nAdc ==> codes[j] == Code(cfg, InterpAt(diff, SamplePos(j, adcFs, tEnd, simRate)))
  {
    seq(nAdc, j requires 0 <= j < nAdc => Code(cfg, InterpAt(diff, SamplePos(j, adcFs, tEnd, simRate))))
  }

  /**
   * The reconstructed voltages of a sequence of codes: each lies in the
   * differential range, and each quantizes back to its own code.
   */
  function Reconstruct(cfg: AdcConfig, codes: seq<int>): (volts: seq<real>)
    requires cfg.vSwing > 0.0 && cfg.resolutionBits >= 1
    requires forall j :: 0 <= j < |codes| ==> 0 <= codes[j] <= cfg.Levels() - 1
    ensures |volts| == |codes|
    ensures forall j :: 0 <= j < |codes| ==> cfg.VDiffMin() <= volts[j] <= cfg.VDiffMax()
    ensures forall j :: 0 <= j < |codes| ==> Code(cfg, volts[j]) == codes[j]
  {
    var volts := seq(|codes|, j requires 0 <= j < |codes| => Dequant(cfg, codes[j]));
    assert forall j :: 0 <= j < |codes| ==> cfg.VDiffMin() <= volts[j] <= cfg.VDiffMax() && Code(cfg, volts[j]) == codes[j] by {
      forall j | 0 <= j < |codes|
        ensures cfg.VDiffMin() <= volts[j] <= cfg.VDiffMax() && Code(cfg, volts[j]) == codes[j]
      {
        DequantInRange(cfg, codes[j]);
        CodeOfDequant(cfg, codes[j]);
      }
    }
    volts
  }

  /**
   * The resampling and quantizing half of process: a differential record of
   * at most one sample has zero duration and gives an empty result;
   * otherwise the record is sampled at every ADC instant up to t_end and
   * quantized, giving codes or their reconstructed voltages.
   */
  function Quantized(cfg: AdcConfig, diff: seq<real>, simRate: real, adcFs: real, returnCodes: bool): (out: AdcSamples)
    requires cfg.vSwing > 0.0 && simRate > 0.0 && adcFs > 0.0
    requires !returnCodes ==> cfg.resolutionBits >= 1
    ensures out.Codes? <==> returnCodes
    ensures |diff| <= 1 ==> out.Length() == 0
    ensures out.Codes? ==> forall j :: 0 <= j < |out.codes| ==> 0 <= out.codes[j] <= cfg.Levels() - 1
    ensures out.Volts? ==> forall j :: 0 <= j < |out.volts| ==> cfg.VDiffMin() <= out.volts[j] <= cfg.VDiffMax()
    ensures out.Volts? ==> forall j :: 0 <= j < |out.volts| ==> Dequant(cfg, Code(cfg, out.volts[j])) == out.volts[j]
  {
    if |diff| <= 1 then
      if returnCodes then Codes([]) else Volts([])
    else
      var tEnd := (|diff| - 1) as real / simRate;
      var codes := SampleCodes(cfg, diff, SampleCount(tEnd, adcFs), adcFs, tEnd, simRate);
      if returnCodes then Codes(codes) else Volts(Reconstruct(cfg, codes))
  }

  /**
   * process: unpacks, checks the rates, re-aligns, and resamples and
   * quantizes the differential waveform at adc_fs = sps * symbol_rate.
   */
  function Process(cfg: AdcConfig, input: AdcInput, simRate: real, symbolRate: real, returnCodes: bool): (r: Result<AdcOutput>)
    requires cfg.sps >= 1 && cfg.vSwing > 0.0 && Rectangular(input)
    requires !returnCodes ==> cfg.resolutionBits >= 1
    ensures Unpack(cfg, input).Err? ==> r == Err(ValueError)
    ensures Unpack(cfg, input).Ok? ==>
      (r.Err? <==>
        (simRate <= 0.0 || symbolRate <= 0.0 ||
         (|Unpack(cfg, input).value.0| != |Unpack(cfg, input).value.1| &&
          (|Unpack(cfg, input).value.0| == 0 || |Unpack(cfg, input).value.1| == 0))))
    ensures r.Err? ==> r.error == ValueError
    ensures r.Ok? ==> r.value.adcFs == cfg.AdcFs(symbolRate)
    ensures r.Ok? ==>
      r.value.samples == Quantized(cfg, AlignedDifferential(Unpack(cfg, input).value.0, Unpack(cfg, input).value.1),
                                   simRate, cfg.AdcFs(symbolRate), returnCodes)
  {
    match Unpack(cfg, input)
    case Err(e) => Err(e)
    case Ok((vp, vn)) =>
      if simRate <= 0.0 || symbolRate <= 0.0 then Err(ValueError)
      else if |vp| != |vn| && (|vp| == 0 || |vn| == 0) then Err(ValueError)
      else
        var adcFs := cfg.AdcFs(symbolRate);
        Ok(AdcOutput(Quantized(cfg, AlignedDifferential(vp, vn), simRate, adcFs, returnCodes), adcFs))
  }

  /**
   * An input record of at most one sample has zero duration and gives an
   * empty result (of the requested kind); a longer record gives
   * floor(t_end * adc_fs) + 1 samples.
   */
  lemma ProcessLength(cfg: AdcConfig, input: AdcInput, simRate: real, symbolRate: real, returnCodes: bool)
    requires cfg.sps >= 1 && cfg.vSwing > 0.0 && Rectangular(input)
    requires !returnCodes ==> cfg.resolutionBits >= 1
    requires Process(cfg, input, simRate, symbolRate, returnCodes).Ok?
    ensures var (vp, vn) := Unpack(cfg, input).value;
            var n := if |vp| >= |vn| then |vp| else |vn|;
            var out := Process(cfg, input, simRate, symbolRate, returnCodes).value;
            (n <= 1 ==> out.samples.Length() == 0) &&
            (n >= 2 ==> out.samples.Length() == ((n - 1) as real / simRate * cfg.AdcFs(symbolRate)).Floor + 1)
  {
    var (vp, vn) := Unpack(cfg, input).value;
    var diff := AlignedDifferential(vp, vn);
    var adcFs := cfg.AdcFs(symbolRate);
    var out := Process(cfg, input, simRate, symbolRate, returnCodes).value;
    assert out.samples == Quantized(cfg, diff, simRate, adcFs, returnCodes);
    if |diff| >= 2 {
      QuantizedLength(cfg, diff, simRate, adcFs, returnCodes);
    }
  }

  /** A record of n >= 2 samples is resampled at floor(t_end * adc_fs) + 1 instants, t_end = (n - 1) / sim_rate. */
  lemma QuantizedLength(cfg: AdcConfig, diff: seq<real>, simRate: real, adcFs: real, returnCodes: bool)
    requires cfg.vSwing > 0.0 && simRate > 0.0 && adcFs > 0.0 && |diff| >= 2
    requires !returnCodes ==> cfg.resolutionBits >= 1
    ensures Quantized(cfg, diff, simRate, adcFs, returnCodes).Length() == ((|diff| - 1) as real / simRate * adcFs).Floor + 1
  {
    var tEnd := (|diff| - 1) as real / simRate;
    assert SampleCount(tEnd, adcFs) == (tEnd * adcFs).Floor + 1;
  }

  /** At the sample position of the last of n input samples, t_end * adc_fs is n - 1 when adc_fs is the input rate. */
  lemma SampleCountAtSimRate(n: nat, rate: real)
    requires n >= 2 && rate > 0.0
    ensures SampleCount((n - 1) as real / rate, rate) == n
  {
    assert (n - 1) as real / rate * rate == (n - 1) as real;
  }

  /** ADC instant j falls on input sample j when adc_fs is the input rate. */
  lemma SamplePosAtSimRate(j: nat, n: nat, rate: real)
    requires j < n && rate > 0.0
    ensures SamplePos(j, rate, (n - 1) as real / rate, rate) == j as real
  {
    var tEnd := (n - 1) as real / rate;
    DivMonotone(j as real, (n - 1) as real, rate);
    assert 0.0 <= j as real / rate <= tEnd;
    assert Clip(j as real / rate, 0.0, tEnd) == j as real / rate;
    assert j as real / rate * rate == j as real;
  }

  /** Dividing by a positive number keeps the order. */
  lemma DivMonotone(a: real, b: real, d: real)
    requires 0.0 <= a <= b && d > 0.0
    ensures 0.0 <= a / d <= b / d
  {
    assert b / d - a / d == (b - a) / d;
  }

  /** Sampled at the input rate, ADC sample j of an n-sample record reads input sample j. */
  lemma InterpAtSimRate(diff: seq<real>, rate: real, j: nat)
    requires |diff| >= 2 && rate > 0.0 && j < |diff|
    ensures InterpAt(diff, SamplePos(j, rate, (|diff| - 1) as real / rate, rate)) == diff[j]
  {
    SamplePosAtSimRate(j, |diff|, rate);
    InterpAtSamplePoint(diff, j);
  }

  /**
   * Sampled at the input rate, the codes of two equal rails of n >= 2
   * samples are the codes of their sample-by-sample differences.
   */
  lemma SampleCodesAtSimRate(cfg: AdcConfig, vp: seq<real>, vn: seq<real>, rate: real)
    requires cfg.vSwing > 0.0 && |vp| == |vn| >= 2 && rate > 0.0
    ensures var codes := SampleCodes(cfg, AlignedDifferential(vp, vn), |vp|, rate, (|vp| - 1) as real / rate, rate);
            forall j :: 0 <= j < |vp| ==> codes[j] == Code(cfg, vp[j] - vn[j])
  {
    var diff := AlignedDifferential(vp, vn);
    var codes := SampleCodes(cfg, diff, |vp|, rate, (|vp| - 1) as real / rate, rate);
    forall j | 0 <= j < |vp|
      ensures codes[j] == Code(cfg, vp[j] - vn[j])
    {
      InterpAtSimRate(diff, rate, j);
    }
  }

  /**
   * When the ADC samples at the input rate (sps * symbol_rate == sim_rate)
   * and the rails have equal length n >= 2, process returns exactly n codes,
   * code j being the code of the differential vp[j] - vn[j].
   */
  lemma ProcessAtSimRate(cfg: AdcConfig, input: AdcInput, vp: seq<real>, vn: seq<real>, simRate: real, symbolRate: real)
    requires cfg.sps >= 1 && cfg.vSwing > 0.0 && Rectangular(input)
    requires Unpack(cfg, input) == Ok((vp, vn)) && |vp| == |vn| >= 2
    requires simRate > 0.0 && symbolRate > 0.0 && cfg.AdcFs(symbolRate) == simRate
    ensures var r := Process(cfg, input, simRate, symbolRate, true);
            r.Ok? && r.value.samples.Codes? && |r.value.samples.codes| == |vp| &&
            forall j :: 0 <= j < |vp| ==> r.value.samples.codes[j] == Code(cfg, vp[j] - vn[j])
  {
    ProcessIsSampleCodes(cfg, input, vp, vn, simRate, symbolRate);
    SampleCodesAtSimRate(cfg, vp, vn, simRate);
  }

  /** At the input rate, process returns the codes of the differential sampled at every input instant. */
  lemma ProcessIsSampleCodes(cfg: AdcConfig, input: AdcInput, vp: seq<real>, vn: seq<real>, simRate: real, symbolRate: real)
    requires cfg.sps >= 1 && cfg.vSwing > 0.0 && Rectangular(input)
    requires Unpack(cfg, input) == Ok((vp, vn)) && |vp| == |vn| >= 2
    requires simRate > 0.0 && symbolRate > 0.0 && cfg.AdcFs(symbolRate) == simRate
    ensures Process(cfg, input, simRate, symbolRate, true)
         == Ok(AdcOutput(Codes(SampleCodes(cfg, AlignedDifferential(vp, vn), |vp|, simRate, (|vp| - 1) as real / simRate, simRate)), simRate))
  {
    QuantizedAtSimRate(cfg, AlignedDifferential(vp, vn), simRate);
    var r := Process(cfg, input, simRate, symbolRate, true);
    assert r.Ok?;
    assert r.value.samples == Quantized(cfg, AlignedDifferential(vp, vn), simRate, simRate, true);
    assert r.value.adcFs == simRate;
  }

  /** At the input rate, the quantized record has one code per input sample. */
  lemma QuantizedAtSimRate(cfg: AdcConfig, diff: seq<real>, rate: real)
    requires cfg.vSwing > 0.0 && rate > 0.0 && |diff| >= 2
    ensures Quantized(cfg, diff, rate, rate, true)
         == Codes(SampleCodes(cfg, diff, |diff|, rate, (|diff| - 1) as real / rate, rate))
  {
    SampleCountAtSimRate(|diff|, rate);
  }

  /**
   * For a 1-D input the quantity quantized is the input minus v_cm: the
   * differential of the unpacked rails is x - v_cm sample by sample.
   */
  lemma SingleEndedAboutCommonMode(cfg: AdcConfig, samples: seq<real>)
    ensures var (vp, vn) := Unpack(cfg, Array1D(samples)).value;
            var diff := AlignedDifferential(vp, vn);
            |diff| == |samples| && forall k :: 0 <= k < |samples| ==> diff[k] == samples[k] - cfg.vCm
  {
  }

  /** Equal voltages get equal codes. */
  lemma SameCode(cfg: AdcConfig, x: real, y: real)
    requires cfg.vSwing > 0.0 && x == y
    ensures Code(cfg, x) == Code(cfg, y)
  {
  }

  /**
   * A single-ended record of n >= 2 samples, sampled at the input rate, is
   * quantized about v_cm: code j is the code of samples[j] - v_cm.
   */
  lemma ProcessSingleEnded(cfg: AdcConfig, samples: seq<real>, simRate: real, symbolRate: real)
    requires cfg.sps >= 1 && cfg.vSwing > 0.0 && |samples| >= 2
    requires simRate > 0.0 && symbolRate > 0.0 && cfg.AdcFs(symbolRate) == simRate
    ensures var r := Process(cfg, Array1D(samples), simRate, symbolRate, true);
            r.Ok? && r.value.samples.Codes? && |r.value.samples.codes| == |samples| &&
            forall j :: 0 <= j < |samples| ==> r.value.samples.codes[j] == Code(cfg, samples[j] - cfg.vCm)
  {
    var vn := Fill(|samples|, cfg.vCm);
    var diff := AlignedDifferential(samples, vn);
    ProcessIsSampleCodes(cfg, Array1D(samples), samples, vn, simRate, symbolRate);
    var codes := SampleCodes(cfg, diff, |samples|, simRate, (|samples| - 1) as real / simRate, simRate);
    forall j | 0 <= j < |samples|
      ensures codes[j] == Code(cfg, samples[j] - cfg.vCm)
    {
      SingleEndedCode(cfg, samples, simRate, j);
    }
  }

  /** Code j of a single-ended record sampled at the input rate is the code of samples[j] - v_cm. */
  lemma SingleEndedCode(cfg: AdcConfig, samples: seq<real>, rate: real, j: nat)
    requires cfg.vSwing > 0.0 && |samples| >= 2 && rate > 0.0 && j < |samples|
    ensures var diff := AlignedDifferential(samples, Fill(|samples|, cfg.vCm));
            SampleCodes(cfg, diff, |samples|, rate, (|samples| - 1) as real / rate, rate)[j] == Code(cfg, samples[j] - cfg.vCm)
  {
    var diff := AlignedDifferential(samples, Fill(|samples|, cfg.vCm));
    InterpAtSimRate(diff, rate, j);
    SingleEndedAboutCommonMode(cfg, samples);
    SameCode(cfg, diff[j], samples[j] - cfg.vCm);
  }
}
