/**
 * The variable gain amplifier of rx/vga.py with its automatic gain control:
 * process splits the waveform into blocks, moves a gain in dB towards each
 * block's desired gain with an attack or a release coefficient, clamps it,
 * spreads the block gains over the samples and keeps the last block gain
 * as the amplifier's state for the next call. Gaussian noise is not
 * modelled; 10 ** x, log10, exp and sqrt are parameters.
 */
module Vga {
  import opened Common
  import opened Interp

  /** The detection modes compute_agc_gain_db accepts. */
  predicate ValidMode(mode: string)
  {
    mode == "p2p" || mode == "rms"
  }

  /** numpy.max of a non-empty block. */
  function MaxOf(s: seq<real>): real
    requires |s| >= 1
  {
    if |s| == 1 then s[0] else Max(MaxOf(s[..|s| - 1]), s[|s| - 1])
  }

  /** numpy.min of a non-empty block. */
  function MinOf(s: seq<real>): real
    requires |s| >= 1
  {
    if |s| == 1 then s[0] else Min(MinOf(s[..|s| - 1]), s[|s| - 1])
  }

  /** The maximum bounds every sample from above and is one of the samples. */
  lemma {:induction false} MaxOfIsMax(s: seq<real>)
    requires |s| >= 1
    ensures forall k :: 0 <= k < |s| ==> s[k] <= MaxOf(s)
    ensures exists k :: 0 <= k < |s| && s[k] == MaxOf(s)
  {
    if |s| > 1 {
      var init := s[..|s| - 1];
      MaxOfIsMax(init);
      var j :| 0 <= j < |init| && init[j] == MaxOf(init);
      forall k | 0 <= k < |s|
        ensures s[k] <= MaxOf(s)
      {
        if k < |s| - 1 {
          assert s[k] == init[k];
        }
      }
      if MaxOf(s) == s[|s| - 1] {
        assert s[|s| - 1] == MaxOf(s);
      } else {
        assert s[j] == MaxOf(s);
      }
    } else {
      assert s[0] == MaxOf(s);
    }
  }

  /** The minimum bounds every sample from below and is one of the samples. */
  lemma {:induction false} MinOfIsMin(s: seq<real>)
    requires |s| >= 1
    ensures forall k :: 0 <= k < |s| ==> MinOf(s) <= s[k]
    ensures exists k :: 0 <= k < |s| && s[k] == MinOf(s)
  {
    if |s| > 1 {
      var init := s[..|s| - 1];
      MinOfIsMin(init);
      var j :| 0 <= j < |init| && init[j] == MinOf(init);
      forall k | 0 <= k < |s|
        ensures MinOf(s) <= s[k]
      {
        if k < |s| - 1 {
          assert s[k] == init[k];
        }
      }
      if MinOf(s) == s[|s| - 1] {
        assert s[|s| - 1] == MinOf(s);
      } else {
        assert s[j] == MinOf(s);
      }
    } else {
      assert s[0] == MinOf(s);
    }
  }

  /** numpy.mean of a non-empty block. */
  function Mean(s: seq<real>): real
    requires |s| >= 1
  {
    Sum(s) / |s| as real
  }

  /** The sum of the squared deviations of the samples from mu. */
  function SquaredDeviation(s: seq<real>, mu: real): real
  {
    if |s| == 0 then 0.0 else SquaredDeviation(s[..|s| - 1], mu) + (s[|s| - 1] - mu) * (s[|s| - 1] - mu)
  }

  /** The mean squared deviation from the mean, whose square root is the block's RMS. */
  function MeanSquareDeviation(s: seq<real>): real
    requires |s| >= 1
  {
    SquaredDeviation(s, Mean(s)) / |s| as real
  }

  /**
   * compute_agc_gain_db: the gain in dB that maps the block to target_vpp
   * less margin_db, clamped to [minDb, maxDb]. An unknown mode raises
   * ValueError; a block without swing gives minDb; numpy.max of an empty
   * block raises ValueError; a zero target gives minDb through the clamp.
   */
  function AgcGainDb(minDb: real, maxDb: real, block: seq<real>, targetVpp: real, marginDb: real,
                     mode: string, tr: Transcendentals): (r: Result<real>)
    requires mode == "rms" ==> |block| >= 1
    requires targetVpp >= 0.0 && tr.sqrt(2.0) > 0.0
    ensures r.Err? <==> !ValidMode(mode) || (mode == "p2p" && |block| == 0)
    ensures r.Err? ==> r.error == ValueError
    ensures r.Ok? && minDb <= maxDb ==> minDb <= r.value <= maxDb
    ensures mode == "p2p" && |block| >= 1 && MaxOf(block) - MinOf(block) <= 0.0 ==> r == Ok(minDb)
    ensures mode == "rms" && tr.sqrt(MeanSquareDeviation(block)) <= 0.0 ==> r == Ok(minDb)
  {
    if !ValidMode(mode) then Err(ValueError)
    else if mode == "p2p" then
      if |block| == 0 then Err(ValueError)
      else
        var curVpp := MaxOf(block) - MinOf(block);
        if curVpp <= 0.0 then Ok(minDb)
        else
          var desiredLin := (targetVpp * tr.pow10(-marginDb / 20.0)) / curVpp;
          Ok(ClampedDb(targetVpp, desiredLin, minDb, maxDb, tr))
    else
      var vrms := tr.sqrt(MeanSquareDeviation(block));
      if vrms <= 0.0 then Ok(minDb)
      else
        var desiredLin := (targetVpp * tr.pow10(-marginDb / 20.0)) / (2.0 * tr.sqrt(2.0) * vrms);
        Ok(ClampedDb(targetVpp, desiredLin, minDb, maxDb, tr))
  }

  /**
   * 20 log10 of the desired linear gain, clamped to [minDb, maxDb]. A zero
   * target makes the linear gain 0, whose dB value is -infinity, and
   * numpy.clip takes -infinity to min(minDb, maxDb).
   */
  function ClampedDb(targetVpp: real, desiredLin: real, minDb: real, maxDb: real, tr: Transcendentals): (g: real)
    ensures minDb <= maxDb ==> minDb <= g <= maxDb
    ensures targetVpp == 0.0 ==> g == Min(minDb, maxDb)
  {
    if targetVpp == 0.0 then Min(minDb, maxDb) else Clip(20.0 * tr.log10(desiredLin), minDb, maxDb)
  }

  /**
   * A zero target asks for the linear gain 0, -infinity in dB, so every
   * block of a valid mode gets min_gain_db.
   */
  lemma AgcZeroTarget(minDb: real, maxDb: real, block: seq<real>, marginDb: real, mode: string, tr: Transcendentals)
    requires |block| >= 1 && ValidMode(mode) && tr.sqrt(2.0) > 0.0 && minDb <= maxDb
    ensures AgcGainDb(minDb, maxDb, block, 0.0, marginDb, mode, tr) == Ok(minDb)
  {
  }

  /**
   * Peak-to-peak detection of a block with swing 2.0, target 1.0 and no
   * margin asks for the linear gain 0.5, i.e. 20 log10(0.5) dB before clamping.
   */
  lemma AgcPeakToPeakExample(minDb: real, maxDb: real, block: seq<real>, tr: Transcendentals)
    requires |block| >= 1 && MaxOf(block) - MinOf(block) == 2.0
    requires tr.pow10(0.0) == 1.0 && tr.sqrt(2.0) > 0.0
    ensures AgcGainDb(minDb, maxDb, block, 1.0, 0.0, "p2p", tr) == Ok(Clip(20.0 * tr.log10(0.5), minDb, maxDb))
  {
    var curVpp := MaxOf(block) - MinOf(block);
    var margin := 0.0;
    assert -margin / 20.0 == 0.0;
    var desiredLin := (1.0 * tr.pow10(-margin / 20.0)) / curVpp;
    assert desiredLin == 0.5;
    assert AgcGainDb(minDb, maxDb, block, 1.0, margin, "p2p", tr) == Ok(Clip(20.0 * tr.log10(desiredLin), minDb, maxDb));
  }

  /** The AGC settings process takes besides the waveform. */
  datatype AgcSettings = AgcSettings(targetVpp: real, attackMs: real, releaseMs: real, marginDb: real,
                                     mode: string, interp: bool)

  /** ceil(n / blockSize): the number of blocks. */
  function BlockCount(n: nat, blockSize: nat): nat
    requires blockSize >= 1
  {
    (n + blockSize - 1) / blockSize
  }

  /** The first sample of block i. */
  function BlockStart(blockSize: nat, i: nat): nat
  {
    i * blockSize
  }

  /** One past the last sample of block i: min((i + 1) * blockSize, n). */
  function BlockEnd(n: nat, blockSize: nat, i: nat): nat
  {
    if (i + 1) * blockSize <= n then (i + 1) * blockSize else n
  }

  /** ceil(n / blockSize) blocks reach just past the last sample: (nb - 1) * blockSize < n <= nb * blockSize. */
  lemma BlockCountBounds(n: nat, blockSize: nat)
    requires blockSize >= 1 && n >= 1
    ensures var nb := BlockCount(n, blockSize);
            nb >= 1 && (nb - 1) * blockSize < n <= nb * blockSize
  {
    var bs := blockSize;
    var nb := BlockCount(n, bs);
    MulLeIffLeDiv(1, bs, n + bs - 1);
    MulLeIffLeDiv(nb, bs, n + bs - 1);
    MulLeIffLeDiv(nb + 1, bs, n + bs - 1);
    assert (nb + 1) * bs == nb * bs + bs;
    assert (nb - 1) * bs == nb * bs - bs;
  }

  /** Every block is non-empty, and the last block ends at the last sample. */
  lemma BlocksNonEmpty(n: nat, blockSize: nat, i: nat)
    requires blockSize >= 1 && n >= 1 && i < BlockCount(n, blockSize)
    ensures BlockStart(blockSize, i) < BlockEnd(n, blockSize, i)
    ensures i == BlockCount(n, blockSize) - 1 ==> BlockEnd(n, blockSize, i) == n
  {
    var bs := blockSize;
    var nb := BlockCount(n, bs);
    BlockCountBounds(n, bs);
    MulLeIffLeDiv(i + 1, bs, (nb - 1) * bs);
    MulLeIffLeDiv(nb - 1, bs, (nb - 1) * bs);
    assert i * bs <= (nb - 1) * bs;
  }

  /**
   * The blocks partition the samples: sample k lies in block k / blockSize,
   * which exists, and in no other block.
   */
  lemma BlocksPartition(n: nat, blockSize: nat, k: nat, i: nat)
    requires blockSize >= 1 && k < n
    ensures k / blockSize < BlockCount(n, blockSize)
    ensures BlockStart(blockSize, k / blockSize) <= k < BlockEnd(n, blockSize, k / blockSize)
    ensures BlockStart(blockSize, i) <= k < BlockEnd(n, blockSize, i) ==> i == k / blockSize
  {
    var bs := blockSize;
    var q := k / bs;
    MulLeIffLeDiv(q, bs, k);
    MulLeIffLeDiv(q + 1, bs, k);
    MulLeIffLeDiv(q + 1, bs, n + bs - 1);
    MulLeIffLeDiv(q, bs, n + bs - 1);
    assert (q + 1) * bs == q * bs + bs;
    if BlockStart(bs, i) <= k < BlockEnd(n, bs, i) {
      MulLeIffLeDiv(i, bs, k);
      MulLeIffLeDiv(i + 1, bs, k);
    }
  }

  /** The samples of block i. */
  function Block(wf: seq<real>, blockSize: nat, i: nat): (b: seq<real>)
    requires blockSize >= 1 && i < BlockCount(|wf|, blockSize)
    ensures |b| >= 1
  {
    BlocksNonEmpty(|wf|, blockSize, i);
    wf[BlockStart(blockSize, i)..BlockEnd(|wf|, blockSize, i)]
  }

  /** The smoothing coefficient 1 - exp(-block_time / tau) with tau = max(1e-6, ms / 1000). */
  function Smoothing(blockLength: nat, fs: real, ms: real, tr: Transcendentals): real
    requires fs != 0.0
  {
    1.0 - tr.exp(-(blockLength as real / fs) / Max(0.000001, ms / 1000.0))
  }

  /**
   * One block update: move from prev towards desired with the attack
   * coefficient when the desired gain is higher and the release coefficient
   * otherwise, then clamp to [minDb, maxDb].
   */
  function BlockGain(prev: real, desired: real, alphaAttack: real, alphaRelease: real, minDb: real, maxDb: real): (g: real)
    ensures minDb <= maxDb ==> minDb <= g <= maxDb
  {
    var alpha := if desired > prev then alphaAttack else alphaRelease;
    Clip((1.0 - alpha) * prev + alpha * desired, minDb, maxDb)
  }

  /** The desired gain of block i: compute_agc_gain_db of the block's samples, which raises nothing for a valid mode. */
  function DesiredDb(wf: seq<real>, blockSize: nat, s: AgcSettings, minDb: real, maxDb: real, tr: Transcendentals, i: nat): (d: real)
    requires blockSize >= 1 && i < BlockCount(|wf|, blockSize) && ValidMode(s.mode)
    requires s.targetVpp >= 0.0 && tr.sqrt(2.0) > 0.0
    ensures AgcGainDb(minDb, maxDb, Block(wf, blockSize, i), s.targetVpp, s.marginDb, s.mode, tr) == Ok(d)
  {
    AgcGainDb(minDb, maxDb, Block(wf, blockSize, i), s.targetVpp, s.marginDb, s.mode, tr).value
  }

  /**
   * The gains of the first k blocks of a call that starts from the stored
   * gain g0: block 0 moves from g0, every later block from its predecessor.
   */
  function Trajectory(wf: seq<real>, fs: real, blockSize: nat, s: AgcSettings, minDb: real, maxDb: real,
                      g0: real, tr: Transcendentals, k: nat): (gains: seq<real>)
    requires blockSize >= 1 && k <= BlockCount(|wf|, blockSize) && ValidMode(s.mode) && fs != 0.0
    requires s.targetVpp >= 0.0 && tr.sqrt(2.0) > 0.0
    ensures |gains| == k
    decreases k
  {
    if k == 0 then []
    else
      var before := Trajectory(wf, fs, blockSize, s, minDb, maxDb, g0, tr, k - 1);
      var blk := Block(wf, blockSize, k - 1);
      var desired := DesiredDb(wf, blockSize, s, minDb, maxDb, tr, k - 1);
      var prev := if k == 1 then g0 else before[k - 2];
      before + [BlockGain(prev, desired, Smoothing(|blk|, fs, s.attackMs, tr), Smoothing(|blk|, fs, s.releaseMs, tr), minDb, maxDb)]
  }

  /** One more block appends that block's update of the previous gain (of g0 for block 0). */
  lemma TrajectoryStep(wf: seq<real>, fs: real, blockSize: nat, s: AgcSettings, minDb: real, maxDb: real,
                       g0: real, tr: Transcendentals, k: nat, prev: real, desired: real)
    requires blockSize >= 1 && k < BlockCount(|wf|, blockSize) && ValidMode(s.mode) && fs != 0.0
    requires s.targetVpp >= 0.0 && tr.sqrt(2.0) > 0.0
    requires prev == if k == 0 then g0 else Trajectory(wf, fs, blockSize, s, minDb, maxDb, g0, tr, k)[k - 1]
    requires AgcGainDb(minDb, maxDb, Block(wf, blockSize, k), s.targetVpp, s.marginDb, s.mode, tr) == Ok(desired)
    ensures Trajectory(wf, fs, blockSize, s, minDb, maxDb, g0, tr, k + 1)
         == Trajectory(wf, fs, blockSize, s, minDb, maxDb, g0, tr, k) +
            [BlockGain(prev, desired, Smoothing(|Block(wf, blockSize, k)|, fs, s.attackMs, tr),
                       Smoothing(|Block(wf, blockSize, k)|, fs, s.releaseMs, tr), minDb, maxDb)]
  {
  }

  /**
   * Block i of any trajectory that reaches it is block i's update of the
   * previous gain (of g0 for block 0): later blocks never change it.
   */
  lemma {:induction false} TrajectoryAt(wf: seq<real>, fs: real, blockSize: nat, s: AgcSettings, minDb: real, maxDb: real,
                                        g0: real, tr: Transcendentals, k: nat, i: nat)
    requires blockSize >= 1 && k <= BlockCount(|wf|, blockSize) && ValidMode(s.mode) && fs != 0.0
    requires s.targetVpp >= 0.0 && tr.sqrt(2.0) > 0.0
    requires i < k
    ensures var gains := Trajectory(wf, fs, blockSize, s, minDb, maxDb, g0, tr, k);
            var blk := Block(wf, blockSize, i);
            gains[i] == BlockGain(if i == 0 then g0 else gains[i - 1],
                                  DesiredDb(wf, blockSize, s, minDb, maxDb, tr, i),
                                  Smoothing(|blk|, fs, s.attackMs, tr), Smoothing(|blk|, fs, s.releaseMs, tr), minDb, maxDb)
    decreases k
  {
    var before := Trajectory(wf, fs, blockSize, s, minDb, maxDb, g0, tr, k - 1);
    var gains := Trajectory(wf, fs, blockSize, s, minDb, maxDb, g0, tr, k);
    assert gains[..k - 1] == before;
    if i < k - 1 {
      TrajectoryAt(wf, fs, blockSize, s, minDb, maxDb, g0, tr, k - 1, i);
      assert gains[i] == before[i];
      assert i > 0 ==> gains[i - 1] == before[i - 1];
    }
  }

  /** Every block gain lies within [minDb, maxDb]. */
  lemma {:induction false} TrajectoryClamped(wf: seq<real>, fs: real, blockSize: nat, s: AgcSettings, minDb: real, maxDb: real,
                                             g0: real, tr: Transcendentals, k: nat)
    requires blockSize >= 1 && k <= BlockCount(|wf|, blockSize) && ValidMode(s.mode) && fs != 0.0
    requires s.targetVpp >= 0.0 && tr.sqrt(2.0) > 0.0
    requires minDb <= maxDb
    ensures forall i :: 0 <= i < k ==> minDb <= Trajectory(wf, fs, blockSize, s, minDb, maxDb, g0, tr, k)[i] <= maxDb
    decreases k
  {
    if k > 0 {
      TrajectoryClamped(wf, fs, blockSize, s, minDb, maxDb, g0, tr, k - 1);
    }
  }

  /** numpy.repeat(gains, blockSize)[:n]: each sample takes its own block's gain. */
  function HeldGains(gains: seq<real>, n: nat, blockSize: nat): (g: seq<real>)
    requires blockSize >= 1 && |gains| == BlockCount(n, blockSize)
    ensures |g| == n
    ensures forall k :: 0 <= k < n ==> k / blockSize < |gains| && g[k] == gains[k / blockSize]
  {
    assert forall k :: 0 <= k < n ==> k / blockSize < |gains| by {
      forall k | 0 <= k < n
        ensures k / blockSize < |gains|
      {
        BlocksPartition(n, blockSize, k, 0);
      }
    }
    seq(n, k requires 0 <= k < n => gains[k / blockSize])
  }

  /**
   * numpy.interp of the block gains at every sample index, with block i
   * centred at i * blockSize + blockSize / 2: on that grid sample k sits at
   * the fractional block index k / blockSize - 1/2.
   */
  function InterpolatedGains(gains: seq<real>, n: nat, blockSize: nat): (g: seq<real>)
    requires blockSize >= 1 && |gains| >= 1
    ensures |g| == n
  {
    seq(n, k requires 0 <= k < n => InterpAt(gains, k as real / blockSize as real - 0.5))
  }

  /**
   * The per-sample gains: interpolated between block centres when asked to
   * and there is more than one block, held per block otherwise.
   */
  function PerSampleGains(gains: seq<real>, n: nat, blockSize: nat, interp: bool): (g: seq<real>)
    requires blockSize >= 1 && |gains| == BlockCount(n, blockSize)
    ensures |g| == n
  {
    if interp && |gains| > 1 then InterpolatedGains(gains, n, blockSize) else HeldGains(gains, n, blockSize)
  }

  /** The per-sample gains stay within any bounds the block gains respect. */
  lemma PerSampleGainsClamped(gains: seq<real>, n: nat, blockSize: nat, interp: bool, minDb: real, maxDb: real)
    requires blockSize >= 1 && |gains| == BlockCount(n, blockSize)
    requires forall i :: 0 <= i < |gains| ==> minDb <= gains[i] <= maxDb
    ensures forall k :: 0 <= k < n ==> minDb <= PerSampleGains(gains, n, blockSize, interp)[k] <= maxDb
  {
    if interp && |gains| > 1 {
      var g := InterpolatedGains(gains, n, blockSize);
      forall k | 0 <= k < n
        ensures minDb <= g[k] <= maxDb
      {
        InterpAtBounded(gains, k as real / blockSize as real - 0.5, minDb, maxDb);
      }
    }
  }

  /** Each sample scaled by its gain converted from dB: 10 ** (gain / 20). */
  function ApplyGain(wf: seq<real>, gainsDb: seq<real>, tr: Transcendentals): (out: seq<real>)
    requires |gainsDb| == |wf|
    ensures |out| == |wf|
  {
    seq(|wf|, k requires 0 <= k < |wf| => wf[k] * tr.pow10(gainsDb[k] / 20.0))
  }

  /** The amplifier: gain limits, the stored gain carried between calls, and the noise level. */
  class VGA {
    var minGainDb: real
    var maxGainDb: real
    var gainDb: real
    var noiseStd: real

    /** VGA(...): stores the settings as given. */
    constructor(minGainDb: real, maxGainDb: real, defaultGainDb: real, noiseStd: real)
      ensures this.minGainDb == minGainDb && this.maxGainDb == maxGainDb
      ensures this.gainDb == defaultGainDb && this.noiseStd == noiseStd
    {
      this.minGainDb := minGainDb;
      this.maxGainDb := maxGainDb;
      this.gainDb := defaultGainDb;
      this.noiseStd := noiseStd;
    }

    /** set_gain_db: stores the requested gain clamped to [min_gain_db, max_gain_db]. */
    method SetGainDb(g: real)
      modifies this`gainDb
      ensures gainDb == Clip(g, minGainDb, maxGainDb)
      ensures minGainDb <= maxGainDb ==> minGainDb <= gainDb <= maxGainDb
    {
      gainDb := Clip(g, minGainDb, maxGainDb);
    }

    /**
     * The block loop of process: block i moves from the stored gain (block 0)
     * or from block i - 1's gain towards the block's desired gain. The first
     * block raises if the mode is unknown, or divides by zero if fs is 0;
     * both are checked before the loop, as nothing is stored before the
     * first block's errors.
     */
    method BlockGains(wf: seq<real>, fs: real, blockSize: nat, s: AgcSettings, tr: Transcendentals)
      returns (r: Result<seq<real>>)
      requires blockSize >= 1 && |wf| >= 1 && s.targetVpp >= 0.0 && tr.sqrt(2.0) > 0.0
      ensures r.Err? <==> !ValidMode(s.mode) || fs == 0.0
      ensures r.Err? ==> r.error == if ValidMode(s.mode) then ZeroDivisionError else ValueError
      ensures r.Ok? ==>
                ValidMode(s.mode) && fs != 0.0 &&
                r.value == Trajectory(wf, fs, blockSize, s, minGainDb, maxGainDb, gainDb, tr, BlockCount(|wf|, blockSize))
    {
      if !ValidMode(s.mode) {
        return Err(ValueError);
      }
      if fs == 0.0 {
        return Err(ZeroDivisionError);
      }
      var gains := RunBlocks(wf, fs, blockSize, s, tr);
      r := Ok(gains);
    }

    /** The loop over the blocks of a waveform whose first block raises nothing. */
    method RunBlocks(wf: seq<real>, fs: real, blockSize: nat, s: AgcSettings, tr: Transcendentals)
      returns (gains: seq<real>)
      requires blockSize >= 1 && |wf| >= 1 && s.targetVpp >= 0.0 && tr.sqrt(2.0) > 0.0
      requires ValidMode(s.mode) && fs != 0.0
      ensures gains == Trajectory(wf, fs, blockSize, s, minGainDb, maxGainDb, gainDb, tr, BlockCount(|wf|, blockSize))
    {
      var nBlocks := BlockCount(|wf|, blockSize);
      ghost var traj := Trajectory(wf, fs, blockSize, s, minGainDb, maxGainDb, gainDb, tr, nBlocks);
      var a := new real[nBlocks];
      var i := 0;
      while i < nBlocks
        invariant 0 <= i <= nBlocks
        invariant a[..i] == traj[..i]
      {
        var blk := Block(wf, blockSize, i);
        var desired := DesiredDb(wf, blockSize, s, minGainDb, maxGainDb, tr, i);
        var alphaAttack := Smoothing(|blk|, fs, s.attackMs, tr);
        var alphaRelease := Smoothing(|blk|, fs, s.releaseMs, tr);
        var prev := if i == 0 then gainDb else a[i - 1];
        a[i] := BlockGain(prev, desired, alphaAttack, alphaRelease, minGainDb, maxGainDb);
        assert a[i] == traj[i] by {
          assert i > 0 ==> prev == traj[i - 1];
          TrajectoryAt(wf, fs, blockSize, s, minGainDb, maxGainDb, gainDb, tr, nBlocks, i);
        }
        assert a[..i + 1] == traj[..i + 1];
        i := i + 1;
      }
      assert a[..] == a[..i];
      assert traj == traj[..i];
      gains := a[..];
    }

    /**
     * process: runs the AGC over the blocks and returns the scaled waveform and
     * the per-sample gains; the stored gain becomes the last block gain. An empty
     * waveform returns at once; a zero block size or sample rate divides by zero;
     * a negative block size and an unknown mode raise ValueError. A call that
     * raises leaves the stored gain as it was.
     */
    method Process(wf: seq<real>, fs: real, blockSize: int, s: AgcSettings, tr: Transcendentals)
      returns (r: Result<(seq<real>, seq<real>)>)
      requires s.targetVpp >= 0.0 && tr.sqrt(2.0) > 0.0
      modifies this`gainDb
      ensures |wf| == 0 ==> r == Ok((wf, [])) && gainDb == old(gainDb)
      ensures r.Err? <==> |wf| > 0 && (blockSize <= 0 || !ValidMode(s.mode) || fs == 0.0)
      ensures r.Err? ==> gainDb == old(gainDb)
      ensures r.Err? ==> r.error == if blockSize == 0 || (blockSize > 0 && ValidMode(s.mode)) then ZeroDivisionError else ValueError
      ensures r.Ok? && |wf| > 0 ==>
        blockSize >= 1 && ValidMode(s.mode) && fs != 0.0 &&
        var gains := Trajectory(wf, fs, blockSize, s, minGainDb, maxGainDb, old(gainDb), tr, BlockCount(|wf|, blockSize));
        var perSample := PerSampleGains(gains, |wf|, blockSize, s.interp);
        gainDb == gains[|gains| - 1] && r.value == (ApplyGain(wf, perSample, tr), perSample)
    {
      var n := |wf|;
      if n == 0 {
        return Ok((wf, []));
      }
      if blockSize == 0 {
        return Err(ZeroDivisionError);
      }
      if blockSize < 0 {
        return Err(ValueError);
      }
      var blockGains := BlockGains(wf, fs, blockSize, s, tr);
      if blockGains.Err? {
        return Err(blockGains.error);
      }
      var gains := blockGains.value;
      BlockCountBounds(n, blockSize);
      var perSample := PerSampleGains(gains, n, blockSize, s.interp);
      gainDb := gains[|gains| - 1];
      r := Ok((ApplyGain(wf, perSample, tr), perSample));
    }
  }
}
