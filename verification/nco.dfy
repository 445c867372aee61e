/**
 * The numerically controlled oscillator of the clock-recovery loop (rx/nco.py):
 * a phase accumulator (in samples) and a per-symbol frequency increment, with
 * the phase wrapped by one correction into [0, phase_modulo).
 */
module Nco {
  import opened Common

  /**
   * The wrap both update rules apply after advancing the phase: subtract the
   * modulus once if the phase reached it, add it once if the phase went
   * negative.
   */
  function Wrap(p: real, m: real): real
  {
    if p >= m then p - m else if p < 0.0 then p + m else p
  }

  /**
   * The wrap keeps the phase in [0, m) provided the phase started there and
   * the step lies in [-m, m].
   */
  lemma WrapKeepsRange(p: real, step: real, m: real)
    requires 0.0 <= p < m
    requires -m <= step <= m
    ensures 0.0 <= Wrap(p + step, m) < m
  {
  }

  /** A phase already in range is left alone by the wrap. */
  lemma WrapInRangeIsIdentity(p: real, m: real)
    requires 0.0 <= p < m
    ensures Wrap(p, m) == p
  {
  }

  /**
   * Only one correction is applied: from phase 0 a step of twice the modulus
   * leaves the phase at the modulus, outside [0, m).
   */
  lemma WrapSingleCorrection(m: real)
    requires m > 0.0
    ensures Wrap(0.0 + 2.0 * m, m) == m
    ensures !(Wrap(0.0 + 2.0 * m, m) < m)
  {
  }

  /** The phases an oscillator goes through when it is advanced by the given steps in turn. */
  function Phases(p0: real, steps: seq<real>, m: real): (r: seq<real>)
    ensures |r| == |steps|
    decreases |steps|
  {
    if |steps| == 0 then []
    else
      var p1 := Wrap(p0 + steps[0], m);
      [p1] + Phases(p1, steps[1..], m)
  }

  /**
   * The phase-wrap invariant along any run: when the start phase is in
   * [0, m) and every step is in [-m, m], every phase visited is in [0, m).
   */
  lemma {:induction false} PhasesInRange(p0: real, steps: seq<real>, m: real)
    requires 0.0 <= p0 < m
    requires forall k :: 0 <= k < |steps| ==> -m <= steps[k] <= m
    ensures forall k :: 0 <= k < |steps| ==> 0.0 <= Phases(p0, steps, m)[k] < m
    decreases |steps|
  {
    if |steps| > 0 {
      var p1 := Wrap(p0 + steps[0], m);
      WrapKeepsRange(p0, steps[0], m);
      PhasesInRange(p1, steps[1..], m);
      var r := Phases(p0, steps, m);
      assert r == [p1] + Phases(p1, steps[1..], m);
      forall k | 0 <= k < |steps| ensures 0.0 <= r[k] < m {
        if k > 0 {
          assert r[k] == Phases(p1, steps[1..], m)[k - 1];
        }
      }
    }
  }

  class NCO {
    /** Samples per symbol. */
    var sps: real
    /** Phase accumulator, in samples. */
    var phase: real
    /** Frequency increment per symbol, in samples per symbol. */
    var freq: real
    /** The modulus the phase is wrapped by. */
    var phaseModulo: real

    /** The phase-wrap invariant. */
    predicate InRange()
      reads this
    {
      0.0 <= phase < phaseModulo
    }

    /**
     * NCO(sps, init_phase, init_freq, phase_modulo): stores the arguments as
     * given; an omitted modulus (None) defaults to sps.
     */
    constructor (sps: real, initPhase: real, initFreq: real, phaseModulo: Option<real>)
      ensures this.sps == sps && phase == initPhase && freq == initFreq
      ensures phaseModulo.None? ==> this.phaseModulo == sps
      ensures phaseModulo.Some? ==> this.phaseModulo == phaseModulo.value
    {
      this.sps := sps;
      phase := initPhase;
      freq := initFreq;
      this.phaseModulo := if phaseModulo.Some? then phaseModulo.value else sps;
    }

    /**
     * update_bang_bang: advance the phase by the nominal increment (sps when
     * omitted) plus kp times the error, then wrap. The frequency is not touched.
     */
    method UpdateBangBang(phaseError: real, nominalFreq: Option<real>, kp: real)
      modifies this`phase
      ensures nominalFreq.None? ==> phase == Wrap(old(phase) + (sps + kp * phaseError), phaseModulo)
      ensures nominalFreq.Some? ==> phase == Wrap(old(phase) + (nominalFreq.value + kp * phaseError), phaseModulo)
      ensures old(InRange()) && -phaseModulo <= nominalFreq.GetOr(sps) + kp * phaseError <= phaseModulo
              ==> InRange()
    {
      var nominal := if nominalFreq.None? then sps else nominalFreq.value;
      if InRange() && -phaseModulo <= nominal + kp * phaseError <= phaseModulo {
        WrapKeepsRange(phase, nominal + kp * phaseError, phaseModulo);
      }
      phase := phase + (nominal + kp * phaseError);
      if phase >= phaseModulo {
        phase := phase - phaseModulo;
      } else if phase < 0.0 {
        phase := phase + phaseModulo;
      }
    }

    /**
     * update_digital_pll: first the integral path, freq += ki * error; then
     * the phase advances by the new frequency plus kp * error and is wrapped.
     */
    method UpdateDigitalPll(phaseError: real, kp: real, ki: real)
      modifies this`phase, this`freq
      ensures freq == old(freq) + ki * phaseError
      ensures phase == Wrap(old(phase) + (freq + kp * phaseError), phaseModulo)
      ensures old(InRange()) && -phaseModulo <= freq + kp * phaseError <= phaseModulo ==> InRange()
    {
      freq := freq + ki * phaseError;
      if InRange() && -phaseModulo <= freq + kp * phaseError <= phaseModulo {
        WrapKeepsRange(phase, freq + kp * phaseError, phaseModulo);
      }
      phase := phase + (freq + kp * phaseError);
      if phase >= phaseModulo {
        phase := phase - phaseModulo;
      } else if phase < 0.0 {
        phase := phase + phaseModulo;
      }
    }

    /**
     * get_sample_index: the phase rounded to the nearest integer, a tie going
     * to the even neighbour.
     */
    method GetSampleIndex() returns (idx: int)
      ensures -0.5 <= phase - idx as real <= 0.5
      ensures (phase - idx as real == 0.5 || idx as real - phase == 0.5) ==> idx % 2 == 0
    {
      idx := RoundHalfEven(phase);
    }

    /** reset: assigns the phase and the frequency only. */
    method Reset(phase: real, freq: real)
      modifies this`phase, this`freq
      ensures this.phase == phase && this.freq == freq
    {
      this.phase := phase;
      this.freq := freq;
    }
  }
}
