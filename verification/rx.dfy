/**
 * The receiver pipeline of rx/rx.py: CTLE, ideal symbol-rate sampling,
 * optional DFE and a slicer, run in that order by Rx.run, which records
 * each intermediate result on the receiver object.
 */
module Receiver {
  import opened Common
  import opened Ctle
  import opened Cdr
  import opened Dfe
  import opened Slicer

  /**
   * The receiver configuration: CTLE parameters (a dictionary or None), DFE
   * feedback taps (a list or None), the slicer type and the CDR type, which
   * run does not consult.
   */
  datatype RxCfg = RxCfg(ctleParams: Option<map<string, seq<real>>>, dfeTaps: Option<seq<real>>,
                         slicerType: string, cdrType: string)

  /** RxCfg() with every field at its default. */
  const DefaultRxCfg := RxCfg(None, None, "NRZ", "ideal")

  /**
   * The CTLE taps run uses: the 'taps' entry of a non-empty parameter
   * dictionary that has one, and [1.0] otherwise.
   */
  function CtleTaps(cfg: RxCfg): (taps: seq<real>)
    ensures cfg.ctleParams.Some? && |cfg.ctleParams.value| > 0 && "taps" in cfg.ctleParams.value ==>
              taps == cfg.ctleParams.value["taps"]
    ensures !(cfg.ctleParams.Some? && |cfg.ctleParams.value| > 0 && "taps" in cfg.ctleParams.value) ==> taps == [1.0]
  {
    match cfg.ctleParams
    case None => [1.0]
    case Some(params) =>
      if |params| == 0 then [1.0]
      else if "taps" in params then params["taps"] else [1.0]
  }

  /** True when the DFE stage runs: the taps are given and non-empty. */
  predicate DfeEnabled(cfg: RxCfg)
  {
    cfg.dfeTaps.Some? && |cfg.dfeTaps.value| > 0
  }

  /** The symbols after the optional DFE stage. */
  function DfeStage(cfg: RxCfg, symbols: seq<real>): (out: seq<real>)
    ensures |out| == |symbols|
    ensures !DfeEnabled(cfg) ==> out == symbols
    ensures DfeEnabled(cfg) ==> out == DfeOutput(symbols, cfg.dfeTaps.value)
  {
    if DfeEnabled(cfg) then DfeOutput(symbols, cfg.dfeTaps.value) else symbols
  }

  /** str.lower() on ASCII letters. */
  function ToLower(s: string): (r: string)
    ensures |r| == |s|
    ensures forall i :: 0 <= i < |s| ==> (if 'A' <= s[i] <= 'Z' then r[i] as int == s[i] as int + 32 else r[i] == s[i])
  {
    seq(|s|, i requires 0 <= i < |s| => if 'A' <= s[i] <= 'Z' then (s[i] as int + 32) as char else s[i])
  }

  /** The slicer type selects the PAM4 slicer when it reads 'pam4' in any letter case. */
  predicate IsPam4(slicerType: string)
  {
    ToLower(slicerType) == "pam4"
  }

  /** 'PAM4', 'Pam4' and 'pam4' all select the PAM4 branch; 'NRZ' does not. */
  lemma SlicerTypeCaseInsensitive()
    ensures IsPam4("PAM4") && IsPam4("Pam4") && IsPam4("pam4") && !IsPam4("NRZ")
  {
    assert ToLower("PAM4") == "pam4";
    assert ToLower("Pam4") == "pam4";
    assert ToLower("NRZ")[0] == 'n';
  }

  /**
   * The slicer stage as run calls it. The PAM4 branch passes a keyword
   * `threshold=` that slicer_pam4 does not take, so it always raises
   * TypeError; the NRZ branch forwards the threshold, and a missing threshold
   * (None, run's default) raises TypeError at the first comparison.
   */
  function DecideAsWritten(symbols: seq<real>, slicerType: string, threshold: Option<real>): (r: Result<seq<Bit>>)
    ensures IsPam4(slicerType) ==> r == Err(TypeError)
    ensures !IsPam4(slicerType) && threshold.None? ==> (r.Err? <==> |symbols| > 0)
    ensures r.Err? ==> r.error == TypeError
    ensures r.Ok? ==> |r.value| == |symbols|
    ensures !IsPam4(slicerType) && threshold.Some? ==> r == Ok(SlicerNrz(symbols, threshold.value))
  {
    if IsPam4(slicerType) then Err(TypeError)
    else
      match threshold
      case None => if |symbols| == 0 then Ok([]) else Err(TypeError)
      case Some(t) => Ok(SlicerNrz(symbols, t))
  }

  /** What the evidently intended slicer stage returns: NRZ bits or PAM4 bit pairs. */
  datatype Decisions = NrzBits(bits: seq<Bit>) | Pam4Pairs(pairs: seq<(Bit, Bit)>)

  /**
   * The slicer stage as evidently intended: each slicer with its own default
   * when no threshold is given (0 for NRZ, (-2, 0, 2) for PAM4), and a given
   * threshold passed to the NRZ slicer.
   */
  function DecideIntended(symbols: seq<real>, slicerType: string, threshold: Option<real>): (r: Result<Decisions>)
    ensures r.Ok?
    ensures IsPam4(slicerType) ==> r.value.Pam4Pairs? && |r.value.pairs| == |symbols|
    ensures !IsPam4(slicerType) ==> r.value.NrzBits? && |r.value.bits| == |symbols|
  {
    if IsPam4(slicerType) then
      var pairs := SlicerPam4(symbols, DefaultThresholds);
      Ok(Pam4Pairs(pairs.value))
    else Ok(NrzBits(SlicerNrz(symbols, threshold.GetOr(0.0))))
  }

  /** The bits run returns for a configuration, a waveform, sps and a threshold. */
  function RxBits(cfg: RxCfg, waveform: seq<real>, sps: int, threshold: Option<real>): (r: Result<seq<Bit>>)
    ensures r.Ok? ==> !IsPam4(cfg.slicerType)
    ensures r.Err? <==>
      (|waveform| == 0 || |CtleTaps(cfg)| == 0 || sps == 0 || IsPam4(cfg.slicerType) ||
       (threshold.None? && DecideAsWritten(
         DfeStage(cfg, IdealSampler(CtleFir(waveform, CtleTaps(cfg)).value, sps).value), cfg.slicerType, threshold).Err?))
  {
    match CtleFir(waveform, CtleTaps(cfg))
    case Err(e) => Err(e)
    case Ok(eq) =>
      match IdealSampler(eq, sps)
      case Err(e) => Err(e)
      case Ok(symbols) => DecideAsWritten(DfeStage(cfg, symbols), cfg.slicerType, threshold)
  }

  /**
   * With the default configuration, sps >= 1 and a threshold, run slices the
   * waveform's every sps-th sample: the CTLE taps [1.0] pass the waveform
   * through and no DFE runs.
   */
  lemma DefaultPipeline(waveform: seq<real>, sps: int, t: real)
    requires |waveform| >= 1 && sps >= 1
    ensures RxBits(DefaultRxCfg, waveform, sps, Some(t)) == Ok(SlicerNrz(Decimate(waveform, sps), t))
  {
    CtleFirPassThrough(waveform);
    assert !IsPam4("NRZ") by {
      assert ToLower("NRZ")[0] == 'n';
    }
  }

  /** The PAM4 branch never returns bits, whatever the waveform, sps and threshold. */
  lemma Pam4BranchAlwaysRaises(cfg: RxCfg, waveform: seq<real>, sps: int, threshold: Option<real>)
    requires IsPam4(cfg.slicerType)
    ensures RxBits(cfg, waveform, sps, threshold).Err?
  {
  }

  /**
   * Under the default configuration and threshold None, a waveform long
   * enough to give a symbol makes run raise TypeError (as an NRZ receiver
   * called with its own defaults).
   */
  lemma DefaultThresholdRaises(waveform: seq<real>)
    requires |waveform| >= 1
    ensures RxBits(DefaultRxCfg, waveform, 1, None) == Err(TypeError)
  {
    CtleFirPassThrough(waveform);
    assert !IsPam4("NRZ") by {
      assert ToLower("NRZ")[0] == 'n';
    }
    DecimateLength(waveform, 1);
  }

  /**
   * The intended slicer stage recovers what the transmitter mapped: NRZ
   * symbols of 0/1 bits with no threshold give the bits back, and PAM4
   * symbols -3, -1, 1, 3 give back their Gray pairs.
   */
  lemma IntendedDecisionsRecover(bits: seq<Bit>)
    ensures var symbols := seq(|bits|, i requires 0 <= i < |bits| => if bits[i] == 1 then 1.0 else -1.0);
            DecideIntended(symbols, "NRZ", None) == Ok(NrzBits(bits))
    ensures DecideIntended([-3.0, -1.0, 1.0, 3.0], "pam4", None) == Ok(Pam4Pairs([(0, 0), (0, 1), (1, 1), (1, 0)]))
  {
    assert !IsPam4("NRZ") by {
      assert ToLower("NRZ")[0] == 'n';
    }
    assert IsPam4("pam4");
    var symbols := seq(|bits|, i requires 0 <= i < |bits| => if bits[i] == 1 then 1.0 else -1.0);
    assert SlicerNrz(symbols, 0.0) == bits;
    SlicerPam4Levels();
  }

  /** The receiver: its configuration and the results of the last run. */
  class Rx {
    const cfg: RxCfg
    var eqWaveform: Option<seq<real>>
    var symbols: Option<seq<real>>
    var dfeSymbols: Option<seq<real>>
    var bits: Option<seq<Bit>>

    /** Rx(cfg): keeps the configuration; no run results exist yet. */
    constructor(cfg: RxCfg)
      ensures this.cfg == cfg
      ensures eqWaveform.None? && symbols.None? && dfeSymbols.None? && bits.None?
    {
      this.cfg := cfg;
      eqWaveform := None;
      symbols := None;
      dfeSymbols := None;
      bits := None;
    }

    /**
     * run: equalizes, samples every sps-th sample, applies the DFE when taps
     * are configured and slices. Each stage's result is stored as soon as it
     * is computed, so a stage that raises leaves the earlier stages' results
     * of this call (and the later stages' results of the previous call) in place.
     */
    method Run(waveform: seq<real>, sps: int, threshold: Option<real>) returns (r: Result<seq<Bit>>)
      modifies this`eqWaveform, this`symbols, this`dfeSymbols, this`bits
      ensures r == RxBits(cfg, waveform, sps, threshold)
      ensures var eq := CtleFir(waveform, CtleTaps(cfg));
              (eq.Err? ==> eqWaveform == old(eqWaveform) && symbols == old(symbols) &&
                           dfeSymbols == old(dfeSymbols) && bits == old(bits)) &&
              (eq.Ok? ==>
                (eqWaveform == Some(eq.value) &&
                 var sampled := IdealSampler(eq.value, sps);
                 (sampled.Err? ==> symbols == old(symbols) && dfeSymbols == old(dfeSymbols) && bits == old(bits)) &&
                 (sampled.Ok? ==>
                   (symbols == Some(sampled.value) &&
                    dfeSymbols == Some(DfeStage(cfg, sampled.value)) &&
                    (r.Err? ==> bits == old(bits)) && (r.Ok? ==> bits == Some(r.value))))))
    {
      var eq := CtleFir(waveform, CtleTaps(cfg));
      if eq.Err? {
        return Err(eq.error);
      }
      eqWaveform := Some(eq.value);
      var sampled := IdealSampler(eq.value, sps);
      if sampled.Err? {
        return Err(sampled.error);
      }
      symbols := Some(sampled.value);
      if cfg.dfeTaps.Some? && |cfg.dfeTaps.value| > 0 {
        var equalized := ApplyDfe(sampled.value, cfg.dfeTaps.value);
        dfeSymbols := Some(equalized);
      } else {
        dfeSymbols := Some(sampled.value);
      }
      var decided := DecideAsWritten(dfeSymbols.value, cfg.slicerType, threshold);
      if decided.Err? {
        return Err(decided.error);
      }
      bits := Some(decided.value);
      r := decided;
    }
  }
}
