# twistedpair link simulator, modelled in Dafny

This project models the sample- and symbol-level logic of the twistedpair
serial-link simulator (a Python/numpy SerDes model) and proves properties
of it. Samples and voltages are exact `real`s. Python exceptions are
`Result` errors named after the exception (`ValueError`, `TypeError`,
`IndexError`, `KeyError`, `ZeroDivisionError`). One module per source file:

- receiver: `Nco` (phase/frequency accumulator, a class), `Cdr` (ideal
  sampler, bang-bang and Hogge phase detectors, loop filter), `Dfe`
  (in-place decision-feedback recurrence), `Slicer` (NRZ and PAM4),
  `Ctle` over `Convolution` (numpy `'same'`-mode convolution), `Adc`
  (input unpacking, validation, quantize/dequantize) over `Interp` (exact
  `np.interp` on a uniform grid), `Vga` (AGC block loop with its carried
  `gain_db`, a class) and `Receiver` (the `Rx` pipeline, a class);
- transmitter: `Mapping` (NRZ and Gray PAM4), `Ffe`, `Dac`, `Driver`,
  `Jitter` (duty-cycle distortion);
- `BitUtils` (seeded LFSR PRBS, Gold code, Gray code pattern, repeat,
  alternating, invert, circular shift);
- `Channel` (simple FIR/loss/delay channel, copper channel IIR);
- `Eye` (eye folding, bathtub curve) and `Ber` (empirical bit error rate);
- `Common`: `Result`, `Option`, bits, clipping, round-half-to-even, sums,
  and `Transcendentals`, a record of the functions `10**x`, `log10`, `exp`
  and `sqrt` passed to every operation that needs them.

Loops that update state in the source are methods with loop invariants,
each proved equal to a recursive specification function
(`Dfe.ApplyDfe`, `BitUtils.PrbsGenerate`, `Mapping.MapPam4`,
`Channel.CopperChannel`, `Jitter.AddDcd`, `Eye.BathtubCurve`,
`Vga.VGA.BlockGains`); the objects whose fields the source updates
(`NCO`, `VGA`, `Rx`) are classes.

Four behaviours of the code shape the contracts:

- rx/nco.py applies a single correction of one `phase_modulo` after each
  update, so the phase stays in `[0, phase_modulo)` only while every step
  lies within one modulus (`Nco.WrapSingleCorrection`);
- with an even samples-per-symbol the bang-bang detector's late sample is
  the next symbol's first sample, so an aligned alternating waveform gives
  an error of -1 at every symbol (`Cdr.BangBangAlternatingEvenSps`);
- `Rx.run` sends every slicer type other than 'pam4' (in any letter case)
  to the NRZ slicer and never reads `cdr_type`, and `slicer_pam4` does not
  check that its thresholds increase (`Slicer.Pam4UnorderedUnreachable`);
- rx/nco.py defaults `init_freq` to 1.0, and `update_bang_bang` uses `sps`
  only when `nominal_freq` is omitted.

## Model

| member | source | states |
|---|---|---|
| Common.Xor | bit_utils/core.py:31 | the XOR of two bits is 1 exactly when they differ |
| Common.Clip | rx/adc.py:111 | np.clip: the result lies in [lo, hi], and a value already inside is unchanged |
| Common.ClipInt | rx/adc.py:113 | np.clip on integer codes: the result lies in [lo, hi], and a code already inside is unchanged |
| Common.RoundHalfEven | rx/adc.py:112 | np.round: within 0.5 of the argument, and an exact tie goes to the even integer |
| Common.RoundIntegral | rx/adc.py:112 | rounding a whole number gives it back |
| Common.TruncToInt | channel/simple.py:18 | int() of a float truncates toward zero |
| Nco.WrapKeepsRange | rx/nco.py:28-31 | from a phase in [0, m), a step in [-m, m] followed by the single wrap lands in [0, m) |
| Nco.WrapInRangeIsIdentity | rx/nco.py:28-31 | a phase already in [0, m) is not changed by the wrap |
| Nco.WrapSingleCorrection | rx/nco.py:28-31 | only one correction is applied: a step of 2m from phase 0 leaves the phase at m, outside [0, m) |
| Nco.Phases | rx/nco.py:26-31 | a run of updates visits one phase per step |
| Nco.PhasesInRange | rx/nco.py:26-31 | along any run whose steps all lie in [-m, m], every phase visited stays in [0, m) |
| Nco.NCO.constructor | rx/nco.py:8-12 | sps, init_phase and init_freq are stored as given; an omitted phase_modulo becomes sps |
| Nco.NCO.UpdateBangBang | rx/nco.py:14-31 | the phase advances by the nominal increment (sps when omitted) plus kp times the error and is wrapped; freq is not modified; the [0, phase_modulo) invariant is kept when the step is within one modulus |
| Nco.NCO.UpdateDigitalPll | rx/nco.py:33-48 | freq grows by ki times the error first, then the phase advances by the new freq plus kp times the error and is wrapped; the range invariant is kept under the same step bound |
| Nco.NCO.GetSampleIndex | rx/nco.py:50-56 | the index is within 0.5 of the phase, and a tie goes to the even integer |
| Nco.NCO.Reset | rx/nco.py:58-60 | phase and freq take the given values; sps and phase_modulo are outside the frame and stay as they were |
| Cdr.Reverse | rx/cdr.py:14 | element i of the reversal is element n - 1 - i (used for a negative stride) |
| Cdr.DecimateLength | rx/cdr.py:14 | s[::k] has ceil(n / k) elements |
| Cdr.DecimateAt | rx/cdr.py:14 | element i of s[::k] is s[i k] |
| Cdr.IdealSampler | rx/cdr.py:5-14 | a zero stride raises ValueError; for sps >= 1 the result has ceil(n / sps) samples and sample i is waveform[i sps]; a negative stride walks back from the last sample |
| Cdr.BangBangRule | rx/cdr.py:46-52 | the output is in {-1, 0, 1}; +1 iff early differs from mid, -1 iff early equals mid and late differs, 0 iff all three agree |
| Cdr.BangBangIndicesInRange | rx/cdr.py:30-38 | for every i the loop visits, the late index i sps + 2 (sps // 2) is inside the waveform, so the break never fires |
| Cdr.BangBangErrors | rx/cdr.py:31-32 | there is one error per i in range(1, (n - sps) // sps) |
| Cdr.BangBangPhaseDetector | rx/cdr.py:16-55 | sps = 0 raises ZeroDivisionError and a negative sps gives no errors; otherwise max(0, (n - sps) // sps - 1) errors, error k being the bang-bang rule on the early/mid/late decisions of symbol k + 1, each in {-1, 0, 1} |
| Cdr.AlternatingHold | rx/cdr.py:34-36 | the aligned alternating sample-and-hold test waveform has the requested length |
| Cdr.AlternatingHoldAt | rx/cdr.py:34-36 | sample h of symbol j of the alternating test waveform is +1 for even j and -1 for odd j |
| Cdr.BangBangAlternatingEvenSps | rx/cdr.py:34-50 | with an even sps the late sample is the first sample of the next symbol, so an aligned alternating waveform gives -1 at every position |
| Cdr.HoggeLoopBound | rx/cdr.py:67 | the loop visits (m + 1) sps exactly for m below the iteration count |
| Cdr.HoggePhaseDetector | rx/cdr.py:57-73 | sps = 0 raises ValueError and a negative sps gives no errors; otherwise one error per i = sps, 2 sps, ... < n - sps, each (w[i - sps // 2] - w[i + sps // 2]) w[i], the late index always inside the waveform |
| Cdr.SimpleLoopFilter | rx/cdr.py:75-89 | the output has the input's length and out[k] = alpha (errors[0] + ... + errors[k]) |
| Cdr.LoopFilterIncrement | rx/cdr.py:86-88 | successive outputs differ by alpha times the new error |
| Dfe.DfeOutput | rx/dfe.py:14-17 | the equalizer returns one output per symbol |
| Dfe.FeedbackReadsPrefix | rx/dfe.py:16 | the feedback at position i depends only on the outputs before i |
| Dfe.DfePrefix | rx/dfe.py:15-17 | the outputs for a prefix of the symbols are the prefix of the outputs |
| Dfe.DfeRecurrence | rx/dfe.py:16-17 | out[i] = symbols[i] - sum over j < min(i, len(taps)) of taps[j] out[i - j - 1] |
| Dfe.DfeCausal | rx/dfe.py:15-17 | symbol streams that agree before position k give outputs that agree before k |
| Dfe.DfeFirst | rx/dfe.py:16-17 | out[0] = symbols[0] whatever the taps |
| Dfe.DfeNoTaps | rx/dfe.py:16-17 | empty taps return the symbols unchanged |
| Dfe.DfeWorkedExample | rx/dfe.py:16-17 | taps [0.5] turn [1, 1, 1] into [1, 0.5, 0.75] |
| Dfe.DfeUnusedTaps | rx/dfe.py:16 | taps at an index of len(symbols) - 1 or more never matter |
| Dfe.FeedbackSameTaps | rx/dfe.py:16 | the feedback over m taps only reads the first m taps |
| Dfe.FeedbackSum | rx/dfe.py:16 | the inner loop sums taps[j] * out[i - j - 1] over the first m taps |
| Dfe.ApplyDfe | rx/dfe.py:5-18 | the in-place loop computes exactly the recurrence's outputs |
| Slicer.NrzDecision | rx/slicer.py:14 | a decision is 1 iff the symbol is strictly above the threshold, so a symbol equal to it gives 0; the bang-bang detector of rx/cdr.py:43-45 decides its samples by the same rule |
| Slicer.SlicerNrz | rx/slicer.py:5-14 | one decision per symbol, in input order, decision i being 1 iff symbol i exceeds the threshold |
| Slicer.SlicerNrzMonotone | rx/slicer.py:14 | raising the threshold only turns 1s into 0s |
| Slicer.Pam4Decision | rx/slicer.py:25-29 | the first matching test wins: (0,0) iff s < t0, (0,1) iff t0 <= s < t1, (1,1) iff s is at or above t0 and t1 and below t2, (1,0) otherwise; a threshold list too short for the symbol raises IndexError |
| Slicer.SlicerPam4 | rx/slicer.py:16-30 | one bit pair per symbol in input order, and the call raises iff some symbol's decision raises |
| Slicer.Pam4OrderedRegions | rx/slicer.py:25-29 | with ordered thresholds the regions are below t0, [t0, t1), [t1, t2) and from t2 up; a symbol equal to a threshold falls in the higher region |
| Slicer.Pam4UnorderedUnreachable | rx/slicer.py:25-29 | unordered thresholds are not rejected: with t1 <= t0 the (0,1) decision is never produced |
| Slicer.Pam4Level | rx/slicer.py:26-29 | a decision's position in the level order is one of the four regions |
| Slicer.Pam4NeighboursGray | rx/slicer.py:26-29 | decisions of neighbouring regions differ in exactly one bit |
| Slicer.SlicerPam4Levels | rx/slicer.py:16-29 | the default thresholds (-2, 0, 2) slice -3, -1, 1, 3 into (0,0), (0,1), (1,1), (1,0) |
| Convolution.ConvolveSame | rx/ctle.py:14 | an empty operand raises ValueError; otherwise the result has max(len(a), len(v)) samples and sample k is full-convolution element k + (min(len(a), len(v)) - 1) // 2 |
| Convolution.PartialConvUnitTap | rx/ctle.py:14 | convolving with the single tap 1.0 picks out one element |
| Convolution.ConvolveSameUnitTap | rx/ctle.py:14 | taps [1.0] are the identity of 'same'-mode convolution |
| Convolution.PartialConvScale | rx/ctle.py:14 | scaling the signal scales every partial sum |
| Convolution.PartialConvAdd | rx/ctle.py:14 | partial sums of a sum of signals add up |
| Convolution.ConvolveSameScale | rx/ctle.py:14 | 'same'-mode convolution is homogeneous in the signal |
| Convolution.ConvolveSameAdd | rx/ctle.py:14 | 'same'-mode convolution is additive in the signal |
| Ctle.CtleFir | rx/ctle.py:5-14 | empty signal or taps raise ValueError; the output has max(len(signal), len(taps)) samples, each the aligned full-convolution element |
| Ctle.CtleFirPassThrough | rx/ctle.py:14 | the receiver's default taps [1.0] return the signal unchanged |
| Ctle.CtleFirLinear | rx/ctle.py:14 | for fixed taps the equalizer is linear: ctle(c a + b) = c ctle(a) + ctle(b) |
| Ffe.ApplyFfe | tx/ffe.py:5-7 | the same convolution as the CTLE: empty operands rejected, max length kept |
| Ffe.ApplyFfeIdentity | tx/ffe.py:7 | taps [1.0] leave the symbols unchanged |
| Ffe.NormalizeTaps | tx/ffe.py:9-12 | empty taps come back empty, non-empty taps summing to zero raise ZeroDivisionError; otherwise the length is kept and the result sums to 1 |
| Ffe.NormalizeKeepsRatios | tx/ffe.py:12 | every pair of taps keeps its ratio |
| Ffe.NormalizeTapsIdempotent | tx/ffe.py:11-12 | normalising normalised taps changes nothing |
| Interp.InterpAt | rx/adc.py:105 | numpy.interp on a uniform grid: clamped to the first and last sample outside the record, the straight line between the two neighbouring samples inside it |
| Interp.InterpAtSamplePoint | rx/adc.py:105 | at a sample point the interpolant takes that sample's value |
| Interp.InterpAtBounded | rx/adc.py:105 | interpolating values in [lo, hi] gives a value in [lo, hi] |
| Adc.NewAdc | rx/adc.py:15-33 | sps < 1 raises ValueError; otherwise the settings are stored, levels = 2^resolution_bits and the differential range [-v_swing / 2, v_swing / 2] is v_swing wide |
| Adc.Unpack | rx/adc.py:35-54 | a list or tuple of two rails is (plus, minus); a 2-row array is split by rows, otherwise an N x 2 array by columns; a 1-D input gets a minus rail of constant v_cm; any other shape raises ValueError |
| Adc.Realign | rx/adc.py:74-84 | the shorter rail is interpolated to the longer one's length |
| Adc.Code | rx/adc.py:111-113 | every code is in [0, levels - 1] |
| Adc.DequantInRange | rx/adc.py:114 | with resolution_bits >= 1 every reconstructed voltage lies in [-v_swing / 2, v_swing / 2] |
| Adc.CodeOfExact | rx/adc.py:111-113 | a voltage in range whose scaled position is the whole number k gets code k |
| Adc.CodeOfDequant | rx/adc.py:111-114 | quantizing the voltage of a code returns that code |
| Adc.QuantizeIdempotent | rx/adc.py:111-114 | re-quantizing a reconstructed voltage changes nothing |
| Adc.OneBitExample | rx/adc.py:111-114 | a 1-bit ADC of swing 2 maps -1.5 and 0.0 (a tie, rounded to the even code) to code 0 and 1.5 to code 1, which stand for -1.0 and 1.0 |
| Adc.SampleCount | rx/adc.py:99 | a record of positive duration gives at least one ADC sample |
| Adc.AlignedDifferential | rx/adc.py:74-104 | the differential has the longer rail's length, and is vp - vn sample by sample when the rails already match |
| Adc.SampleCodes | rx/adc.py:99-113 | one code per ADC instant, each the code of the interpolated differential at that instant and in [0, levels - 1] |
| Adc.Reconstruct | rx/adc.py:114 | each reconstructed voltage lies in the differential range and quantizes back to its own code |
| Adc.Process | rx/adc.py:56-119 | unpacking errors come first; then non-positive rates, or one empty rail against a non-empty one, raise ValueError; otherwise adc_fs = sps * symbol_rate and the samples are the quantized record of the re-aligned differential vp - vn |
| Adc.Quantized | rx/adc.py:91-119 | a record of at most one sample gives an empty result; codes are returned iff requested, codes lie in [0, levels - 1], voltages in the differential range and are fixed points of the quantizer |
| Adc.ProcessLength | rx/adc.py:92-99 | a record of at most one sample gives an empty result of the requested kind; a longer one gives floor(t_end * adc_fs) + 1 samples |
| Adc.SingleEndedAboutCommonMode | rx/adc.py:49-52 | for a 1-D input the quantity quantized is x - v_cm |
| Adc.QuantizedLength | rx/adc.py:92-100 | a record of n >= 2 samples gives floor((n - 1) / sim_rate * adc_fs) + 1 results |
| Adc.SampleCountAtSimRate | rx/adc.py:92-99 | sampled at the input rate, a record of n >= 2 samples gives n ADC samples |
| Adc.SamplePosAtSimRate | rx/adc.py:100-101 | at the input rate ADC instant j falls on input sample j, inside the clip range |
| Adc.InterpAtSimRate | rx/adc.py:100-105 | at the input rate the interpolated differential at ADC instant j is input sample j |
| Adc.SampleCodesAtSimRate | rx/adc.py:99-113 | at the input rate code j is the code of vp[j] - vn[j] |
| Adc.QuantizedAtSimRate | rx/adc.py:92-113 | at the input rate the quantized record is the codes of all n input instants |
| Adc.ProcessIsSampleCodes | rx/adc.py:56-117 | when sps * symbol_rate equals the input rate and the rails have equal length n >= 2, process with return_codes returns the codes of the n input instants and adc_fs equal to the input rate |
| Adc.ProcessAtSimRate | rx/adc.py:56-117 | under the same conditions process returns exactly n codes, code j being the quantization of vp[j] - vn[j] |
| Adc.ProcessSingleEnded | rx/adc.py:49-117 | a 1-D record of n >= 2 samples, sampled at the input rate, gives n codes, code j being the quantization of samples[j] - v_cm |
| Adc.SingleEndedCode | rx/adc.py:49-113 | code j of a single-ended record sampled at the input rate is the code of samples[j] - v_cm |
| Vga.MaxOfIsMax | rx/vga.py:52 | numpy.max of a non-empty block bounds every sample from above and is one of the samples |
| Vga.MinOfIsMin | rx/vga.py:52 | numpy.min of a non-empty block bounds every sample from below and is one of the samples |
| Vga.AgcGainDb | rx/vga.py:33-65 | a mode other than 'p2p' or 'rms' raises ValueError (as does numpy.max of an empty block); a block with no peak-to-peak swing (p2p) or no RMS (rms) gives min_gain_db; given min <= max every result lies in [min_gain_db, max_gain_db] |
| Vga.ClampedDb | rx/vga.py:63-64 | the clamped dB gain lies in [min_gain_db, max_gain_db]; a zero target (a linear gain of 0, minus infinity in dB) gives min(min_gain_db, max_gain_db) |
| Vga.AgcZeroTarget | rx/vga.py:51-64 | with target_vpp = 0 every non-empty block of either mode gets min_gain_db |
| Vga.AgcPeakToPeakExample | rx/vga.py:51-64 | a block of swing 2 with target 1 and no margin asks for 20 log10(0.5) dB, clamped |
| Vga.BlockCountBounds | rx/vga.py:103 | ceil(n / block_size) blocks reach just past the last sample |
| Vga.BlocksNonEmpty | rx/vga.py:106-109 | every block slice is non-empty and the last one ends at the last sample |
| Vga.BlocksPartition | rx/vga.py:103-109 | sample k lies in block k // block_size and in no other block: the slices cover every sample exactly once |
| Vga.Block | rx/vga.py:107-109 | the slice of block i is non-empty |
| Vga.BlockGain | rx/vga.py:121-125 | the update (1 - alpha) prev + alpha desired, with the attack alpha iff desired > prev, is clamped into [min_gain_db, max_gain_db] |
| Vga.Trajectory | rx/vga.py:106-125 | k blocks give k gains |
| Vga.DesiredDb | rx/vga.py:112 | the desired gain of block i is what compute_agc_gain_db returns for that block's samples, which raises nothing for a valid mode |
| Vga.TrajectoryStep | rx/vga.py:121-125 | each block's gain is the update of the stored gain (block 0) or of the previous block's gain |
| Vga.TrajectoryAt | rx/vga.py:106-125 | gain i of any trajectory that reaches block i is block i's update of the previous gain (of the stored gain for block 0): later blocks never change it |
| Vga.TrajectoryClamped | rx/vga.py:125 | every block gain lies in [min_gain_db, max_gain_db] |
| Vga.HeldGains | rx/vga.py:133 | without interpolation sample k gets the gain of block k // block_size, n gains in all |
| Vga.InterpolatedGains | rx/vga.py:128-131 | interpolation between block centres gives one gain per sample |
| Vga.PerSampleGains | rx/vga.py:128-133 | the per-sample gain array has n entries |
| Vga.PerSampleGainsClamped | rx/vga.py:128-133 | per-sample gains stay within any bounds the block gains respect |
| Vga.ApplyGain | rx/vga.py:136-137 | the scaled waveform has one sample per input sample |
| Vga.VGA.constructor | rx/vga.py:14-24 | the settings are stored as given |
| Vga.VGA.SetGainDb | rx/vga.py:30-31 | the stored gain is the request clamped to [min_gain_db, max_gain_db] |
| Vga.VGA.BlockGains | rx/vga.py:103-125 | an unknown mode raises ValueError and fs = 0 raises ZeroDivisionError; otherwise the block gains are the gain trajectory from the stored gain |
| Vga.VGA.RunBlocks | rx/vga.py:104-125 | the loop that fills gains_db block by block produces exactly the gain trajectory from the stored gain |
| Vga.VGA.Process | rx/vga.py:67-144 | an empty waveform returns two empty arrays and keeps gain_db; errors leave gain_db unchanged; otherwise gain_db becomes the last block gain and the result is the waveform scaled by the per-sample gains, which are also returned |
| Receiver.CtleTaps | rx/rx.py:35 | the 'taps' entry of a non-empty CTLE parameter dictionary that has one, [1.0] otherwise |
| Receiver.DfeStage | rx/rx.py:42-45 | the DFE runs exactly when taps are given and non-empty; otherwise the sampled symbols pass unchanged; same length either way |
| Receiver.ToLower | rx/rx.py:48 | lower-casing maps 'A'..'Z' to 'a'..'z' and keeps every other character, same length |
| Receiver.SlicerTypeCaseInsensitive | rx/rx.py:48 | 'PAM4', 'Pam4' and 'pam4' select the PAM4 branch, 'NRZ' does not |
| Receiver.DecideAsWritten | rx/rx.py:47-51 | the PAM4 branch always raises TypeError (unknown keyword); the NRZ branch with no threshold raises TypeError exactly when there is a symbol to compare; with a threshold it is slicer_nrz |
| Receiver.DecideIntended | rx/rx.py:47-51 | with each slicer's own default threshold the stage never raises and returns one decision per symbol of the selected kind |
| Receiver.RxBits | rx/rx.py:24-52 | run fails exactly for an empty waveform, empty CTLE taps, sps = 0, a PAM4 slicer type, or a missing threshold with a symbol to slice; success only on the NRZ branch |
| Receiver.DefaultPipeline | rx/rx.py:35-51 | with the default configuration and a threshold, run returns the NRZ decisions of every sps-th waveform sample |
| Receiver.Pam4BranchAlwaysRaises | rx/rx.py:48-49 | a PAM4 configuration never returns bits |
| Receiver.DefaultThresholdRaises | rx/rx.py:24-51 | the default configuration with threshold None raises TypeError on any non-empty waveform |
| Receiver.IntendedDecisionsRecover | rx/rx.py:47-51 | the intended stage recovers NRZ bits from +-1 symbols and Gray pairs from the levels -3, -1, 1, 3 |
| Receiver.Rx.constructor | rx/rx.py:17-22 | the configuration is stored and no stage results exist |
| Receiver.Rx.Run | rx/rx.py:24-52 | returns what RxBits describes and stores each stage's result (equalized waveform, symbols, DFE symbols, bits) as it is computed; a raising stage leaves that stage and the later ones as they were |
| Mapping.MapNrz | tx/mapping.py:3-5 | one symbol per bit, +1 exactly for a non-zero bit and -1 otherwise |
| Mapping.ToReals | tx/mapping.py:5 | the integer symbols as reals, element by element |
| Mapping.NrzRoundTrip | tx/mapping.py:3-5 | slicing the NRZ symbols of 0/1 bits at 0 gives the bits back |
| Mapping.GrayLevel | tx/mapping.py:9 | the Gray table has an entry exactly for pairs of 0/1 bits |
| Mapping.Pam4Symbols | tx/mapping.py:7-14 | failures are IndexError (odd final bit) or KeyError (pair not in the table) |
| Mapping.Pam4SymbolsMeaning | tx/mapping.py:7-14 | map_pam4 succeeds iff the length is even and every pair is a table key, and then gives each pair's table level, one per pair |
| Mapping.Pam4OddLength | tx/mapping.py:11-12 | an odd number of 0/1 bits raises IndexError |
| Mapping.BitPairs | tx/mapping.py:11-12 | an even bit list gives half as many pairs |
| Mapping.Pam4RoundTrip | tx/mapping.py:7-14 | slicing the PAM4 symbols of an even number of 0/1 bits with the default thresholds gives back every pair |
| Mapping.Pam4Step | tx/mapping.py:11-13 | a pair in the table contributes its level ahead of the rest |
| Mapping.PrependTwice | tx/mapping.py:13 | prepending two prefixes in turn prepends their concatenation |
| Mapping.MapPam4 | tx/mapping.py:7-14 | the loop over pairs computes Pam4Symbols, stopping at the first pair that raises |
| Dac.Code | tx/dac.py:39-46 | the rounded, clipped code always lies in [0, 2^resolution_bits - 1] |
| Dac.Quantize | tx/dac.py:28-54 | one output per symbol, each the voltage of that symbol's code |
| Dac.LevelInRange | tx/dac.py:49-52 | every code's voltage lies in [v_cm - v_swing / 2, v_cm + v_swing / 2] |
| Dac.QuantizeInRange | tx/dac.py:39-54 | every quantized symbol lies within the swing around the common mode |
| Dac.CodeOfExact | tx/dac.py:39-46 | a symbol whose scaled position is the whole number k in range gets code k |
| Dac.CodeOfLevel | tx/dac.py:39-52 | quantizing a code's own voltage gives that code back |
| Dac.QuantizeIdempotent | tx/dac.py:28-54 | quantizing twice is quantizing once |
| Dac.Pam4LevelsPassThrough | tx/dac.py:25-52 | a 2-bit DAC with swing 6 around 0 reproduces the PAM4 levels -3, -1, 1, 3 exactly |
| Dac.Pam4Level | tx/dac.py:39-52 | code c of that DAC has voltage 2c - 3, which quantizes back to c |
| Dac.Repeat | tx/dac.py:66 | np.repeat by n gives n copies of each element |
| Dac.RepeatAt | tx/dac.py:66 | place k of the repeated sequence holds element k // n |
| Dac.Upsample | tx/dac.py:56-66 | a negative sps raises ValueError; otherwise sps samples per symbol |
| Dac.DecimateUpsample | tx/dac.py:66 | taking every sps-th sample of the upsampled symbols gives them back (the CDR's ideal sampler undoes the DAC's hold) |
| Dac.Process | tx/dac.py:68-84 | fails exactly for a negative sps |
| Dac.ProcessSamples | tx/dac.py:79-84 | sample k of the output is the quantized symbol k // sps |
| Driver.PeakIndex | tx/driver.py:17 | the index of a sample of a non-empty waveform |
| Driver.PeakIndexIsPeak | tx/driver.py:17 | the sample at that index bounds every other sample in magnitude |
| Driver.MaxAbs | tx/driver.py:17 | np.max(np.abs(w)) is non-negative |
| Driver.MaxAbsBounds | tx/driver.py:17 | np.max(np.abs(w)) bounds every magnitude and is the magnitude of some sample |
| Driver.SwingGain | tx/driver.py:18 | a non-negative swing gives a non-negative factor |
| Driver.SwingGainTimesPeak | tx/driver.py:18 | the factor times twice the peak magnitude is the swing |
| Driver.SwingIsScale | tx/driver.py:18 | apply_swing multiplies every sample by that one factor |
| Common.ScaleRatio | tx/driver.py:18 | scaling by one factor keeps the cross-ratio of any two samples |
| Driver.ApplySwing | tx/driver.py:6-18 | an empty waveform raises ValueError (np.max of nothing); otherwise one sample per input sample |
| Driver.SwingPeak | tx/driver.py:6-18 | for a non-negative swing the result peaks at exactly swing / 2 in magnitude |
| Driver.SwingKeepsRatios | tx/driver.py:18 | every pair of samples keeps its ratio (the shape is unchanged) |
| Driver.SwingIdempotent | tx/driver.py:6-18 | scaling an already scaled waveform to the same positive swing changes nothing |
| Driver.ApplyVcm | tx/driver.py:20-31 | one sample per input sample |
| Driver.VcmRoundTrip | tx/driver.py:31 | removing the added common mode gives the waveform back |
| Driver.DriverOutputRange | tx/driver.py:6-31 | after apply_swing and apply_vcm every sample lies in [vcm - swing / 2, vcm + swing / 2] |
| Jitter.DcdShifted | tx/jitter.py:34-45 | one edge per input edge |
| Jitter.AddDcd | tx/jitter.py:34-45 | the odd-indexed edges are moved by dcd and the even-indexed ones kept, in a fresh array |
| Jitter.DcdRoundTrip | tx/jitter.py:45 | shifting by dcd and then by -dcd restores the edges |
| Jitter.DcdCompose | tx/jitter.py:45 | a shift by a then by b is a shift by a + b |
| Jitter.DcdGaps | tx/jitter.py:34-45 | odd-indexed gaps grow by dcd and even-indexed gaps shrink by it: the duty cycle, not the period, changes |
| BitUtils.BinaryDigits | bit_utils/core.py:24 | bin(seed)[2:]: at least one digit, enough digits for the seed, and no leading zero |
| BitUtils.BinaryDigitAt | bit_utils/core.py:24 | digit k from the right of bin(seed) is bit k of the seed |
| BitUtils.ZFill | bit_utils/core.py:24 | the padded register is as long as the width, or as the digits when they are longer |
| BitUtils.Register | bit_utils/core.py:24 | a negative seed raises ValueError (bin gives '-0b...'); otherwise the register has max(order, digit count) cells |
| BitUtils.ZFillFromEnd | bit_utils/core.py:24 | counted from the end, a zero-filled list holds the digits, then only zeros |
| BitUtils.RegisterBits | bit_utils/core.py:24 | the register read from its last cell backwards is the seed's bits, least significant first |
| BitUtils.TapTable | bit_utils/core.py:14-30 | two taps for every order: the table entry, [order, order - 1] otherwise |
| BitUtils.PyIndex | bit_utils/core.py:27-31 | Python indexing: negative indices count from the end; anything out of range raises IndexError |
| BitUtils.Feedback | bit_utils/core.py:29-31 | the XOR of reg[-t] fails (IndexError) exactly when some tap addresses no cell |
| BitUtils.FeedbackOfZeros | bit_utils/core.py:29-31 | an all-zero register feeds back 0 |
| BitUtils.Clock | bit_utils/core.py:32 | the feedback enters at the front and every other cell moves one place back |
| BitUtils.Run | bit_utils/core.py:26-32 | n clocks put out n bits; they fail exactly when n >= 1 and a tap is out of range |
| BitUtils.Prbs | bit_utils/core.py:4-33 | prbs with a seed fails exactly for a negative seed (ValueError) or a tap outside the register when bits are asked for (IndexError); otherwise max(n_bits, 0) bits |
| BitUtils.RunShiftsOutRegister | bit_utils/core.py:27-32 | the first outputs are the register's cells from the last backwards |
| BitUtils.PrbsStartsWithSeed | bit_utils/core.py:24-32 | the first max(order, digit count) outputs are the seed's bits, least significant first |
| BitUtils.RunOfZeros | bit_utils/core.py:26-32 | a zero register stays zero and puts out zeros |
| BitUtils.PrbsZeroSeed | bit_utils/core.py:4-33 | seed 0 gives only zeros (the LFSR's lock-up state) |
| BitUtils.PrbsDefined | bit_utils/core.py:14-32 | every order >= 2 with a non-negative seed generates without error |
| BitUtils.PrbsOrderZeroOneCell | bit_utils/core.py:24-31 | order 0 with seed 1 gives a one-cell register and taps [0, -1]; reg[-(-1)] raises IndexError |
| BitUtils.FeedbackOf | bit_utils/core.py:29-31 | the inner tap loop computes Feedback |
| BitUtils.RunStep | bit_utils/core.py:26-32 | one loop iteration emits the last cell and clocks the feedback in |
| BitUtils.PrependBitsTwice | bit_utils/core.py:28 | prepending two prefixes in turn prepends their concatenation |
| BitUtils.PrbsGenerate | bit_utils/core.py:4-33 | the generator loop computes Prbs |
| BitUtils.XorBits | bit_utils/core.py:72 | element-wise XOR: a bit is 1 exactly where the inputs differ |
| BitUtils.GoldCode | bit_utils/core.py:59-72 | succeeds exactly when both PRBS runs do, with n_bits bits, each the XOR of the two runs' bits |
| BitUtils.GoldCodeSameSeeds | bit_utils/core.py:70-72 | equal seeds give all zeros |
| BitUtils.GoldCodeZeroSecondSeed | bit_utils/core.py:70-72 | a second seed of 0 gives the first PRBS unchanged |
| BitUtils.GrayCode | bit_utils/core.py:74-83 | max(n_bits, 0) bits |
| BitUtils.GrayCodePattern | bit_utils/core.py:82-83 | the bits repeat 0, 1, 1, 0 |
| BitUtils.Tile | bit_utils/core.py:96 | np.tile writes the pattern reps times |
| BitUtils.TileAt | bit_utils/core.py:96 | place i of a tiling holds pattern[i mod len] |
| BitUtils.Repeat | bit_utils/core.py:85-96 | an empty pattern raises ZeroDivisionError; a count of tiles below zero raises ValueError; otherwise max(n_bits, 0) bits |
| BitUtils.RepeatAt | bit_utils/core.py:95-96 | place i holds pattern[i mod len] |
| BitUtils.RepeatWhole | bit_utils/core.py:85-96 | repeating a pattern to its own length gives the pattern |
| BitUtils.Alternating | bit_utils/core.py:98-107 | max(n_bits, 0) bits |
| BitUtils.AlternatingAlternates | bit_utils/core.py:107 | neighbouring bits differ and the first bit is start mod 2 |
| BitUtils.Invert | bit_utils/core.py:135-143 | one bit per input bit, each different from its input |
| BitUtils.InvertInvolution | bit_utils/core.py:143 | inverting twice gives the bits back |
| BitUtils.InvertAlternating | bit_utils/core.py:143 | the inverse of the pattern from 0 is the pattern from 1 |
| BitUtils.Shift | bit_utils/core.py:145-155 | an empty sequence raises ZeroDivisionError (k % 0); otherwise the length is kept |
| BitUtils.ShiftMovesAt | bit_utils/core.py:154-155 | bit i lands at place (i + k) mod n |
| BitUtils.ShiftMoves | bit_utils/core.py:154-155 | bit i moves to place (i + k) mod n |
| BitUtils.ShiftBackAt | bit_utils/core.py:154-155 | shifting by k and then by -k puts bit i back at place i |
| BitUtils.ShiftRoundTrip | bit_utils/core.py:145-155 | shifting by k and then by -k gives the bits back |
| Channel.Delay | channel/simple.py:26-27 | a positive delay d puts d zeros in front and drops the last d samples (all zeros, d long, when d exceeds the record); no delay otherwise |
| Channel.DelayCompose | channel/simple.py:26-27 | two delays within the record add up |
| Channel.SimpleChannel | channel/simple.py:7-31 | np.convolve raises ValueError exactly for an empty waveform or empty ISI taps |
| Channel.SimpleChannelLength | channel/simple.py:22-27 | the output keeps the waveform's length, or is as long as a delay that exceeds it |
| Channel.SimpleChannelDefaults | channel/simple.py:16-27 | with only a 0 dB loss set the channel passes the waveform through |
| Channel.DelayScale | channel/simple.py:24-27 | scaling commutes with the delay |
| Channel.ScaleSwap | channel/simple.py:20-24 | two scalings commute |
| Channel.SimpleChannelScales | channel/simple.py:7-27 | the noise-free channel is linear: a scaled input gives the scaled output |
| Channel.NormCutoff | channel/simple.py:57-59 | division by 1 + alpha length = 0 or by f_ref = 0 raises ZeroDivisionError; the normalised cutoff never exceeds 0.5 |
| Channel.NormCutoffValue | channel/simple.py:57-59 | for alpha length >= 0 the cutoff is 1 / (2 (1 + alpha length)), in (0, 0.5] |
| Channel.DefaultCutoff | channel/simple.py:43-59 | the defaults give 1/22 |
| Channel.IirAsWritten | channel/simple.py:61-64 | one output per input |
| Channel.IirAsWrittenPrefix | channel/simple.py:63-64 | each output depends only on the inputs up to it |
| Channel.IirAsWrittenSnoc | channel/simple.py:63-64 | one more input sample adds one recurrence step |
| Channel.IirAsWrittenStep | channel/simple.py:61-64 | y[0] = x[0] and y[i] = c x[i] + (c - 1) y[i - 1] |
| Channel.CopperAsWritten | channel/simple.py:33-72 | fails exactly when the cutoff computation divides by zero |
| Channel.FilterInPlace | channel/simple.py:61-64 | the in-place loop leaves the as-written recurrence of the array's old contents in the array |
| Channel.CopperChannel | channel/simple.py:33-72 | scaling a copy by the loss gain, filtering it in place and delaying it computes CopperAsWritten: the cutoff's ZeroDivisionError, otherwise the delayed recurrence of the scaled input |
| Channel.IirAsWrittenBreaksConstant | channel/simple.py:61-64 | a constant non-zero input with c <= 0.5 does not come out constant: y[1] = (2c - 1) x[0] |
| Channel.IirAsWrittenExample | channel/simple.py:61-64 | [1, 1] with c = 0.5 gives [1, 0] |
| Channel.Lowpass | channel/simple.py:60-64 | one output per input |
| Channel.LowpassKeepsConstant | channel/simple.py:60-64 | the intended lowpass passes a constant input unchanged |
| Channel.LowpassStep | channel/simple.py:63-64 | the intended recurrence y[i] = c x[i] + (1 - c) y[i - 1] |
| Channel.LowpassBounded | channel/simple.py:60-64 | for 0 <= c <= 1 every output stays within the inputs' bounds |
| Channel.ConvexBetween | channel/simple.py:64 | a convex combination of values in [lo, hi] stays in [lo, hi] |
| Channel.CopperIntended | channel/simple.py:33-72 | fails exactly when the cutoff computation divides by zero |
| Channel.CopperIntendedConstant | channel/simple.py:33-68 | with no delay, a constant input comes out scaled by the loss gain only |
| Eye.Chunks | metrics/eye.py:14-15 | len // sps rows of sps samples each |
| Eye.ChunksAt | metrics/eye.py:15 | row i, column j is sample i sps + j |
| Eye.FoldToEye | metrics/eye.py:5-16 | sps = 0 raises ZeroDivisionError and a negative sps ValueError; otherwise an array of len // sps rows of width sps |
| Eye.FoldToEyeAt | metrics/eye.py:14-15 | row i, column j of the eye is sample i sps + j: symbol i at phase j |
| Eye.FlattenChunks | metrics/eye.py:15 | laying the rows end to end gives the first (len // sps) sps samples |
| Eye.QuotientStep | metrics/eye.py:14 | removing sps samples removes one whole symbol |
| Eye.FoldFlatten | metrics/eye.py:5-16 | folding drops only the incomplete last symbol; a whole number of symbols is kept entire |
| Eye.Column | metrics/eye.py:67 | eye[:, c] has one entry per row, row k's sample c |
| Eye.CountNear | metrics/eye.py:69 | the count of samples within 0.5 of the threshold is at most the column length |
| Eye.CountNearAll | metrics/eye.py:69 | every sample within 0.5 is counted |
| Eye.CountNearNone | metrics/eye.py:69 | no sample 0.5 or further away is counted |
| Eye.Opening | metrics/eye.py:67-69 | the fraction of rows near the threshold lies in [0, 1] |
| Eye.BathtubCurve | metrics/eye.py:57-71 | one opening per threshold in order; an eye of width 0 raises IndexError as soon as there is a threshold |
| Eye.OpeningAtCommonLevel | metrics/eye.py:67-69 | a threshold every centre sample sits on gives opening 1 |
| Eye.OpeningFarThreshold | metrics/eye.py:67-69 | a threshold 0.5 or more from every centre sample gives opening 0 |
| Ber.Mismatches | metrics/ber.py:16 | at most one error per bit |
| Ber.CountDiffering | metrics/ber.py:16 | at most one error per bit of the broadcast operand's partner |
| Ber.EmpiricalBer | metrics/ber.py:5-17 | lengths that numpy cannot broadcast (neither equal nor 1) raise ValueError; equal lengths give a rate in [0, 1] |
| Ber.MismatchesSame | metrics/ber.py:16 | identical sequences have no mismatches |
| Ber.MismatchesSymmetric | metrics/ber.py:16 | the count does not depend on which side is received |
| Ber.MismatchesAll | metrics/ber.py:16 | differing everywhere counts every bit |
| Ber.BerOfIdenticalBits | metrics/ber.py:5-17 | an error-free link has BER 0 |
| Ber.BerSymmetric | metrics/ber.py:5-17 | BER of equal-length sequences is symmetric |
| Ber.BerOfInvertedBits | metrics/ber.py:5-17 | inverting every bit gives BER 1 |
| Ber.BerOneErrorInFive | metrics/ber.py:16-17 | one error in five bits gives 0.2 |
| Ber.BerBroadcastCanExceedOne | metrics/ber.py:16-17 | a one-bit tx broadcast against three differing received bits gives 3.0, outside [0, 1] |


## Left out

- Gaussian noise is not modelled: the ADC thermal noise, the VGA `noise_std`, the channel AWGN, `add_rj`, `random_bits`, `scramble` and `prbs` without a seed all draw from numpy's global random generator. Every model is the noise-free path (zero sigma).
- `add_sj` (deterministic sinusoidal jitter, tx/jitter.py) is not part of this model; of the jitter functions only `add_dcd` is modelled.
- Transcendental functions (`10**x`, `log10`, `exp`, `sqrt`) are not computed. They are fields of `Common.Transcendentals`, given to each operation that needs them. Where a result depends on a value of one of them, the lemma says which (`tr.pow10(0.0) == 1.0`, `tr.sqrt(2.0) > 0.0`).
- Floating point is not modelled: arithmetic is exact over the reals. Rounding is half-to-even on exact values. Results that numpy gives as NaN are excluded by preconditions, as the next lines say; the one infinity that matters (the dB value of a zero linear gain in the VGA) is modelled through its effect on the clamp.
- Driver.ApplySwing: requires a non-zero peak when the waveform is non-empty. An all-zero waveform divides 0 by 0 in numpy and yields NaN, which has no real counterpart.
- Eye.Opening: requires at least one row. An eye with no rows divides 0 by 0 (NaN).
- Eye.BathtubCurve: requires at least one row when there is a threshold and the width is non-zero, for the same reason.
- Ber.EmpiricalBer: requires a non-empty `tx_bits`. An empty one divides by zero and numpy yields NaN or raises, depending on the operands.
- Dac.Quantize: requires `v_swing > 0` and `resolution_bits >= 1`. A zero swing or a single level divides by zero in numpy (NaN or infinity).
- Dac.Code: requires `v_swing > 0`, for the same division.
- Dac.Quantize, Dac.Code: a negative `v_swing` is excluded too, although the source computes a result for it: the normalisation divides by the negative swing, so the codes run in reverse order of the symbols. That reversed mapping is not modelled.
- Adc.Process: a negative `v_swing` is excluded too. `Adc.NewAdc` stores one as given, and the source then clips against a reversed range (`v_diff_min > v_diff_max`): numpy.clip maps every sample to `v_diff_max`, which gets code `levels - 1`. That case is not modelled.
- Adc.NewAdc, Dac.Quantize: `resolution_bits` is a `nat` in `AdcConfig` and `DacConfig`. Python's `2 ** bits` also accepts a negative count (a fractional number of levels), which is not modelled.
- Adc.Unpack: a list or tuple of two plain numbers is not representable as an `AdcInput`. The source takes it as two 0-d rails, and the later `len()` of a 0-d array raises TypeError; that error path is not modelled.
- Adc.Process: requires `v_swing > 0`, a rectangular input, and `resolution_bits >= 1` when voltages are returned. The reasons are the same divisions; ragged nested lists are not numpy arrays of numbers.
- Vga.AgcGainDb: requires a non-empty block in 'rms' mode (the mean of nothing is NaN) and `sqrt(2) > 0`. The blocks `process` builds are never empty (`Vga.BlocksNonEmpty`).
- Vga.AgcGainDb: requires `target_vpp >= 0`. A negative target with a block that has swing makes the linear gain negative; `numpy.log10` gives NaN and `numpy.clip` keeps it, so `process` would store NaN as `gain_db`, which has no real counterpart. Vga.VGA.Process, Vga.VGA.BlockGains, Vga.VGA.RunBlocks, Vga.DesiredDb, Vga.Trajectory, Vga.TrajectoryStep, Vga.TrajectoryAt and Vga.TrajectoryClamped carry the same requirement. A zero target is modelled: it gives min_gain_db (`Vga.AgcZeroTarget`).
- Numeric width is not modelled: `int` is unbounded. Python integers are unbounded too. The numpy dtype of arrays (integer arrays under `out *= gain`, the integer dtype of codes) is not modelled.
- BitUtils.Repeat: computes `ceil(n_bits / len(pattern))` exactly rather than through a float division. The two agree for every length a list can have in practice.
- The `print` in the bang-bang detector's out-of-range branch is not modelled; that branch is unreachable (`Cdr.BangBangIndicesInRange`).
- `eye_height_width`, `pam4_eye_heights`, `q_factor_ber`, `correlate`, metrics/eq.py, `from_file`, tx/tx.py, tx/synth.py, link/link.py, the configuration loader and schema, the plots and the demos are not part of this model. They are floating-point statistics, file and plot I/O, or orchestration around the modelled stages.
- No closed clock-recovery loop is modelled. No code in the repository feeds a phase detector's output into the NCO; the detectors and the NCO are modelled separately.
- Python's `str.lower()` is modelled on ASCII letters only (`Receiver.ToLower`). Non-ASCII slicer-type strings are not modelled.

## Findings

| source | as written | input that shows it | evidently intended | confidence | as-written member | corrected member |
|---|---|---|---|---|---|---|
| channel/simple.py:61-64 | the IIR uses `out[i] = c*out[i] + (c - 1)*out[i-1]`, adding a[1] where a difference equation subtracts it | constant input [1, 1] with c = 0.5 gives [1, 0] | `out[i] = c*out[i] + (1 - c)*out[i-1]`, a unit-DC-gain lowpass that passes a constant unchanged | not executed | Channel.IirAsWrittenBreaksConstant | Channel.LowpassKeepsConstant |
| rx/rx.py:49 | `slicer_pam4(self.dfe_symbols, threshold=threshold)` passes a keyword that rx/slicer.py:16 does not declare, so every PAM4 run raises TypeError | slicer_type 'pam4', any waveform | call the PAM4 slicer with its default thresholds (-2, 0, 2), recovering the Gray pairs | not executed | Receiver.Pam4BranchAlwaysRaises | Receiver.IntendedDecisionsRecover |
| rx/rx.py:24, 51 | `threshold` defaults to None and is forwarded to `slicer_nrz`, whose comparison `s > None` raises TypeError | default RxCfg, waveform [1.0], sps 1, no threshold | use the NRZ slicer's own default threshold 0 when none is given | not executed | Receiver.DefaultThresholdRaises | Receiver.DecideIntended |
