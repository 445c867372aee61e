/**
 * The transmitter DAC of tx/dac.py: symbols are normalised to the output
 * swing, rounded to one of 2^resolution_bits codes, turned back into
 * voltages and then held for sps samples each.
 */
module Dac {
  import opened Common
  import opened Cdr

  /** The DAC's parameters; the constructor stores them unchecked. */
  datatype DacConfig = DacConfig(sps: int, resolutionBits: nat, vCm: real, vSwing: real)
  {
    /** quantization_levels = 2^resolution_bits. */
    function Levels(): nat
    {
      Pow2(resolutionBits)
    }

    /** The voltage step v_swing / levels. */
    function Lsb(): real
    {
      vSwing / Levels() as real
    }

    /** The lowest output voltage, v_cm - v_swing / 2. */
    function Bottom(): real
    {
      vCm - vSwing / 2.0
    }

    /** The highest output voltage, v_cm + v_swing / 2. */
    function Top(): real
    {
      vCm + vSwing / 2.0
    }
  }

  /**
   * The code of one symbol: normalise to [0, 1] over the swing, scale by
   * levels - 1, round half to even and clip to [0, levels - 1].
   */
  function Code(cfg: DacConfig, s: real): (c: int)
    requires cfg.vSwing > 0.0
    ensures 0 <= c <= cfg.Levels() - 1
  {
    var normalized := (s - cfg.Bottom()) / cfg.vSwing;
    ClipInt(RoundHalfEven(normalized * (cfg.Levels() - 1) as real), 0, cfg.Levels() - 1)
  }

  /** The voltage of a code: code / (levels - 1) * v_swing + v_cm - v_swing / 2. */
  function Level(cfg: DacConfig, c: int): real
    requires cfg.resolutionBits >= 1
  {
    c as real / (cfg.Levels() - 1) as real * cfg.vSwing + cfg.Bottom()
  }

  /** quantize: every symbol replaced by the voltage of its code. */
  function Quantize(cfg: DacConfig, symbols: seq<real>): (q: seq<real>)
    requires cfg.vSwing > 0.0 && cfg.resolutionBits >= 1
    ensures |q| == |symbols|
    ensures forall i :: 0 <= i < |symbols| ==> q[i] == Level(cfg, Code(cfg, symbols[i]))
  {
    seq(|symbols|, i requires 0 <= i < |symbols| => Level(cfg, Code(cfg, symbols[i])))
  }

  /** Every code's voltage lies within the swing around the common mode. */
  lemma LevelInRange(cfg: DacConfig, c: int)
    requires cfg.vSwing > 0.0 && cfg.resolutionBits >= 1
    requires 0 <= c <= cfg.Levels() - 1
    ensures cfg.Bottom() <= Level(cfg, c) <= cfg.Top()
  {
    var d := (cfg.Levels() - 1) as real;
    var t := c as real / d;
    assert t * d == c as real;
    assert 0.0 <= t <= 1.0;
    assert 0.0 <= t * cfg.vSwing;
    assert (1.0 - t) * cfg.vSwing >= 0.0;
  }

  /** Every quantized symbol lies in [v_cm - v_swing / 2, v_cm + v_swing / 2]. */
  lemma QuantizeInRange(cfg: DacConfig, symbols: seq<real>)
    requires cfg.vSwing > 0.0 && cfg.resolutionBits >= 1
    ensures forall i :: 0 <= i < |symbols| ==> cfg.Bottom() <= Quantize(cfg, symbols)[i] <= cfg.Top()
  {
    forall i | 0 <= i < |symbols|
      ensures cfg.Bottom() <= Quantize(cfg, symbols)[i] <= cfg.Top()
    {
      LevelInRange(cfg, Code(cfg, symbols[i]));
    }
  }

  /** A symbol whose scaled position is the whole number k in [0, levels - 1] gets code k. */
  lemma CodeOfExact(cfg: DacConfig, s: real, k: int)
    requires cfg.vSwing > 0.0 && 0 <= k <= cfg.Levels() - 1
    requires (s - cfg.Bottom()) / cfg.vSwing * (cfg.Levels() - 1) as real == k as real
    ensures Code(cfg, s) == k
  {
    RoundIntegral(k);
  }

  /** The code of a code's voltage is that code. */
  lemma CodeOfLevel(cfg: DacConfig, c: int)
    requires cfg.vSwing > 0.0 && cfg.resolutionBits >= 1
    requires 0 <= c <= cfg.Levels() - 1
    ensures Code(cfg, Level(cfg, c)) == c
  {
    var d := (cfg.Levels() - 1) as real;
    var t := c as real / d;
    var v := Level(cfg, c);
    assert v - cfg.Bottom() == t * cfg.vSwing;
    assert (v - cfg.Bottom()) / cfg.vSwing == t;
    assert t * d == c as real;
    CodeOfExact(cfg, v, c);
  }

  /** Quantizing quantized symbols changes nothing. */
  lemma QuantizeIdempotent(cfg: DacConfig, symbols: seq<real>)
    requires cfg.vSwing > 0.0 && cfg.resolutionBits >= 1
    ensures Quantize(cfg, Quantize(cfg, symbols)) == Quantize(cfg, symbols)
  {
    var q := Quantize(cfg, symbols);
    forall i | 0 <= i < |symbols|
      ensures Quantize(cfg, q)[i] == q[i]
    {
      CodeOfLevel(cfg, Code(cfg, symbols[i]));
    }
  }

  /**
   * A 2-bit DAC with v_cm 0 and v_swing 6 has exactly the PAM4 levels
   * -3, -1, 1, 3 as its outputs, so it passes PAM4 symbols through.
   */
  lemma Pam4LevelsPassThrough()
    ensures Quantize(DacConfig(1, 2, 0.0, 6.0), [-3.0, -1.0, 1.0, 3.0]) == [-3.0, -1.0, 1.0, 3.0]
  {
    var levels := [-3.0, -1.0, 1.0, 3.0];
    var q := Quantize(DacConfig(1, 2, 0.0, 6.0), levels);
    forall i | 0 <= i < 4
      ensures q[i] == levels[i]
    {
      Pam4Level(i);
    }
  }

  /** Code c of the 2-bit DAC with swing 6 around 0 has voltage 2c - 3, and that voltage gets code c. */
  lemma Pam4Level(c: int)
    requires 0 <= c <= 3
    ensures var cfg := DacConfig(1, 2, 0.0, 6.0);
            Level(cfg, c) == (2 * c - 3) as real && Code(cfg, (2 * c - 3) as real) == c
  {
    var cfg := DacConfig(1, 2, 0.0, 6.0);
    assert cfg.Levels() == 4;
    assert Level(cfg, c) == (2 * c - 3) as real;
    CodeOfLevel(cfg, c);
  }

  /** np.repeat with a count n >= 0: every element held for n places. */
  function Repeat(q: seq<real>, n: nat): (r: seq<real>)
    ensures |r| == |q| * n
    decreases |q|
  {
    if |q| == 0 then []
    else
      assert (|q| - 1) * n + n == |q| * n;
      Fill(n, q[0]) + Repeat(q[1..], n)
  }

  /** Place k of the repeated sequence holds element k / n. */
  lemma {:induction false} RepeatAt(q: seq<real>, n: nat, k: nat)
    requires k < |q| * n
    ensures n >= 1 && k / n < |q| && Repeat(q, n)[k] == q[k / n]
    decreases |q|
  {
    var r := Repeat(q, n);
    assert |q| >= 1 && r == Fill(n, q[0]) + Repeat(q[1..], n);
    if k >= n {
      RepeatAt(q[1..], n, k - n);
      DivAddDivisor(k - n, n);
      assert r[k] == Repeat(q[1..], n)[k - n];
    } else {
      DivOfMulPlus(0, n, k);
      assert r[k] == q[0];
    }
  }

  /** upsample: np.repeat(q, sps), which raises ValueError for a negative count. */
  function Upsample(q: seq<real>, sps: int): (r: Result<seq<real>>)
    ensures r.Err? <==> sps < 0
    ensures r.Err? ==> r.error == ValueError
    ensures r.Ok? ==> |r.value| == |q| * sps
  {
    if sps < 0 then Err(ValueError) else Ok(Repeat(q, sps))
  }

  /** Taking every sps-th sample of the upsampled sequence gives the symbols back. */
  lemma DecimateUpsample(q: seq<real>, sps: int)
    requires sps >= 1
    ensures Decimate(Upsample(q, sps).value, sps) == q
  {
    var u := Upsample(q, sps).value;
    DecimateLength(u, sps);
    DivOfMulPlus(|q|, sps, sps - 1);
    var d := Decimate(u, sps);
    forall i | 0 <= i < |q|
      ensures d[i] == q[i]
    {
      DecimateAt(u, sps, i);
      RepeatAt(q, sps, i * sps);
      DivOfMulPlus(i, sps, 0);
    }
  }

  /** process: quantize, then upsample. */
  function Process(cfg: DacConfig, symbols: seq<real>): (r: Result<seq<real>>)
    requires cfg.vSwing > 0.0 && cfg.resolutionBits >= 1
    ensures r.Err? <==> cfg.sps < 0
  {
    Upsample(Quantize(cfg, symbols), cfg.sps)
  }

  /**
   * For sps >= 0 the waveform has sps samples per symbol, sample k is the
   * quantized symbol k / sps, and every sample lies within the swing.
   */
  lemma ProcessSamples(cfg: DacConfig, symbols: seq<real>)
    requires cfg.vSwing > 0.0 && cfg.resolutionBits >= 1 && cfg.sps >= 0
    ensures Process(cfg, symbols).Ok?
    ensures |Process(cfg, symbols).value| == |symbols| * cfg.sps
    ensures forall k :: 0 <= k < |symbols| * cfg.sps ==>
              k / cfg.sps < |symbols| &&
              Process(cfg, symbols).value[k] == Level(cfg, Code(cfg, symbols[k / cfg.sps])) &&
              cfg.Bottom() <= Process(cfg, symbols).value[k] <= cfg.Top()
  {
    var q := Quantize(cfg, symbols);
    QuantizeInRange(cfg, symbols);
    forall k | 0 <= k < |symbols| * cfg.sps
      ensures k / cfg.sps < |symbols| && Process(cfg, symbols).value[k] == q[k / cfg.sps]
    {
      RepeatAt(q, cfg.sps, k);
    }
  }
}
