/**
 * The bit-pattern generators of bit_utils/core.py: a Fibonacci LFSR
 * pseudo-random bit sequence from an explicit seed, Gold codes, the Gray
 * code bit pattern, pattern repetition, alternating bits, inversion and
 * circular shift.
 */
module BitUtils {
  import opened Common

  // ---------------------------------------------------------------------
  // The shift register
  // ---------------------------------------------------------------------

  /** bin(seed)[2:] for a seed >= 0: its binary digits, most significant first; 0 gives [0]. */
  function BinaryDigits(seed: nat): (d: seq<Bit>)
    ensures |d| >= 1
    ensures seed < Pow2(|d|)
    ensures |d| >= 2 ==> d[0] == 1
    decreases seed
  {
    if seed < 2 then [seed]
    else
      var d := BinaryDigits(seed / 2);
      d + [seed % 2]
  }

  /** Halving and then dividing by m is dividing by 2m. */
  lemma HalfThenDiv(a: nat, m: nat)
    requires m >= 1
    ensures (a / 2) / m == a / (2 * m)
  {
    var q, r := a / (2 * m), a % (2 * m);
    assert a == q * (2 * m) + r;
    assert a == (q * m + r / 2) * 2 + r % 2;
    DivOfMulPlus(q * m + r / 2, 2, r % 2);
    assert r / 2 < m;
    DivOfMulPlus(q, m, r / 2);
  }

  /** Digit k from the right of bin(seed) is bit k of the seed. */
  lemma {:induction false} BinaryDigitAt(seed: nat, k: nat)
    requires k < |BinaryDigits(seed)|
    ensures BinaryDigits(seed)[|BinaryDigits(seed)| - 1 - k] == (seed / Pow2(k)) % 2
    decreases seed
  {
    if seed >= 2 && k > 0 {
      BinaryDigitAt(seed / 2, k - 1);
      HalfThenDiv(seed, Pow2(k - 1));
    }
  }

  /** 2^a <= 2^b for a <= b. */
  lemma {:induction false} Pow2Monotone(a: nat, b: nat)
    requires a <= b
    ensures Pow2(a) <= Pow2(b)
    decreases b
  {
    if a < b {
      Pow2Monotone(a, b - 1);
    }
  }

  /** str.zfill(width) on a digit list: zeros in front up to the width; a shorter width changes nothing. */
  function ZFill(d: seq<Bit>, width: int): (r: seq<Bit>)
    ensures |r| == if width > |d| then width else |d|
  {
    if width > |d| then seq(width - |d|, i => 0) + d else d
  }

  /**
   * The initial register: the seed's binary digits zero-padded to `order`
   * cells. A negative seed makes bin() start with '-', and int() of the
   * letter 'b' raises ValueError.
   */
  function Register(order: int, seed: int): (r: Result<seq<Bit>>)
    ensures r.Err? <==> seed < 0
    ensures r.Err? ==> r.error == ValueError
    ensures r.Ok? ==> |r.value| >= 1 && |r.value| == if order > |BinaryDigits(seed)| then order else |BinaryDigits(seed)|
  {
    if seed < 0 then Err(ValueError) else Ok(ZFill(BinaryDigits(seed), order))
  }

  /** A number below 2^a has no bit k for k >= a. */
  lemma HighBitsZero(seed: nat, a: nat, k: nat)
    requires seed < Pow2(a) && a <= k
    ensures seed / Pow2(k) == 0
  {
    Pow2Monotone(a, k);
    DivOfMulPlus(0, Pow2(k), seed);
  }

  /** Counting from the end, a zero-filled list holds the digits and then zeros. */
  lemma ZFillFromEnd(d: seq<Bit>, width: int, k: nat)
    requires k < |ZFill(d, width)|
    ensures k < |d| ==> ZFill(d, width)[|ZFill(d, width)| - 1 - k] == d[|d| - 1 - k]
    ensures k >= |d| ==> ZFill(d, width)[|ZFill(d, width)| - 1 - k] == 0
  {
    var reg := ZFill(d, width);
    if width > |d| {
      var pad := seq(width - |d|, i => 0);
      assert reg == pad + d;
      if k < |d| {
        assert reg[|reg| - 1 - k] == d[|d| - 1 - k];
      } else {
        assert reg[|reg| - 1 - k] == pad[|reg| - 1 - k];
      }
    }
  }

  /** Reading the register from its last cell backwards gives the seed's bits, least significant first. */
  lemma RegisterBits(order: int, seed: nat, reg: seq<Bit>, k: nat)
    requires Register(order, seed) == Ok(reg) && k < |reg|
    ensures reg[|reg| - 1 - k] == (seed / Pow2(k)) % 2
  {
    var d := BinaryDigits(seed);
    assert reg == ZFill(d, order);
    ZFillFromEnd(d, order, k);
    if k < |d| {
      BinaryDigitAt(seed, k);
    } else {
      HighBitsZero(seed, |d|, k);
    }
  }

  /** The feedback taps for an order: the table entry, or [order, order - 1] for any other order. */
  function TapTable(order: int): (taps: seq<int>)
    ensures |taps| == 2
  {
    if order == 7 then [7, 6]
    else if order == 9 then [9, 5]
    else if order == 15 then [15, 14]
    else if order == 23 then [23, 18]
    else if order == 31 then [31, 28]
    else [order, order - 1]
  }

  /** Python's reg[i], negative indices counting from the end; anything else raises IndexError. */
  function PyIndex(reg: seq<Bit>, i: int): (r: Result<Bit>)
    ensures r.Ok? <==> -|reg| <= i < |reg|
    ensures r.Err? ==> r.error == IndexError
    ensures 0 <= i < |reg| ==> r == Ok(reg[i])
    ensures -|reg| <= i < 0 ==> r == Ok(reg[|reg| + i])
  {
    if 0 <= i < |reg| then Ok(reg[i])
    else if -|reg| <= i < 0 then Ok(reg[|reg| + i])
    else Err(IndexError)
  }

  /** Every tap t addresses a cell as reg[-t]. */
  predicate TapsInRange(n: int, taps: seq<int>)
  {
    forall j :: 0 <= j < |taps| ==> -n <= -taps[j] < n
  }

  /** The XOR of reg[-t] over the taps, raising IndexError when a tap addresses no cell. */
  function Feedback(reg: seq<Bit>, taps: seq<int>): (r: Result<Bit>)
    ensures r.Ok? <==> TapsInRange(|reg|, taps)
    ensures r.Err? ==> r.error == IndexError
    decreases |taps|
  {
    if |taps| == 0 then Ok(0)
    else
      match PyIndex(reg, -taps[0])
      case Err(e) => Err(e)
      case Ok(b) =>
        match Feedback(reg, taps[1..])
        case Err(e) => Err(e)
        case Ok(rest) =>
          assert forall j :: 1 <= j < |taps| ==> taps[j] == taps[1..][j - 1];
          Ok(Xor(b, rest))
  }

  /** A register of zeros feeds back 0. */
  lemma {:induction false} FeedbackOfZeros(reg: seq<Bit>, taps: seq<int>)
    requires forall i :: 0 <= i < |reg| ==> reg[i] == 0
    requires TapsInRange(|reg|, taps)
    ensures Feedback(reg, taps) == Ok(0)
    decreases |taps|
  {
    if |taps| > 0 {
      FeedbackOfZeros(reg, taps[1..]);
    }
  }

  /** One clock: the feedback bit enters at the front and the last cell drops out. */
  function Clock(reg: seq<Bit>, f: Bit): (r: seq<Bit>)
    requires |reg| >= 1
    ensures |r| == |reg|
    ensures r[0] == f && forall i :: 1 <= i < |reg| ==> r[i] == reg[i - 1]
  {
    [f] + reg[..|reg| - 1]
  }

  /** Bits and the result of a run of the register. */
  function PrependBits(prefix: seq<Bit>, r: Result<seq<Bit>>): Result<seq<Bit>>
  {
    match r
    case Ok(s) => Ok(prefix + s)
    case Err(e) => Err(e)
  }

  /**
   * The next n output bits of a register: each is the last cell before
   * the clock. Since the register keeps its length, the feedback raises
   * either on the first clock or never.
   */
  function Run(reg: seq<Bit>, taps: seq<int>, n: int): (r: Result<seq<Bit>>)
    requires |reg| >= 1
    ensures r.Ok? <==> n <= 0 || TapsInRange(|reg|, taps)
    ensures r.Err? ==> r.error == IndexError
    ensures r.Ok? ==> |r.value| == if n > 0 then n else 0
    decreases n
  {
    if n <= 0 then Ok([])
    else
      match Feedback(reg, taps)
      case Err(e) => Err(e)
      case Ok(f) => PrependBits([reg[|reg| - 1]], Run(Clock(reg, f), taps, n - 1))
  }

  /** prbs(order, n_bits, seed) for an explicit seed. */
  function Prbs(order: int, nBits: int, seed: int): (r: Result<seq<Bit>>)
    ensures r.Err? <==> seed < 0 || (nBits >= 1 && !TapsInRange(|Register(order, seed).value|, TapTable(order)))
    ensures r.Err? ==> r.error == if seed < 0 then ValueError else IndexError
    ensures r.Ok? ==> |r.value| == if nBits > 0 then nBits else 0
  {
    match Register(order, seed)
    case Err(e) => Err(e)
    case Ok(reg) => Run(reg, TapTable(order), nBits)
  }

  /** The first |reg| outputs of a run are the register's cells from the last one backwards. */
  lemma {:induction false} RunShiftsOutRegister(reg: seq<Bit>, taps: seq<int>, n: int, k: nat)
    requires |reg| >= 1 && Run(reg, taps, n).Ok?
    requires k < |reg| && k < n
    ensures Run(reg, taps, n).value[k] == reg[|reg| - 1 - k]
    decreases k
  {
    if k > 0 {
      var next := Clock(reg, Feedback(reg, taps).value);
      RunShiftsOutRegister(next, taps, n - 1, k - 1);
    }
  }

  /** The first max(order, bit length) outputs are the seed's bits, least significant first. */
  lemma PrbsStartsWithSeed(order: int, nBits: int, seed: nat, k: nat)
    requires Prbs(order, nBits, seed).Ok?
    requires k < |Register(order, seed).value| && k < nBits
    ensures Prbs(order, nBits, seed).value[k] == (seed / Pow2(k)) % 2
  {
    var reg := Register(order, seed).value;
    RunShiftsOutRegister(reg, TapTable(order), nBits, k);
    RegisterBits(order, seed, reg, k);
  }

  /** A register of zeros stays zero and puts out only zeros. */
  lemma {:induction false} RunOfZeros(reg: seq<Bit>, taps: seq<int>, n: int)
    requires |reg| >= 1 && forall i :: 0 <= i < |reg| ==> reg[i] == 0
    requires Run(reg, taps, n).Ok?
    ensures forall i :: 0 <= i < |Run(reg, taps, n).value| ==> Run(reg, taps, n).value[i] == 0
    decreases n
  {
    if n > 0 {
      FeedbackOfZeros(reg, taps);
      RunOfZeros(Clock(reg, 0), taps, n - 1);
    }
  }

  /** Seed 0 gives a sequence of zeros. */
  lemma PrbsZeroSeed(order: int, nBits: int)
    requires Prbs(order, nBits, 0).Ok?
    ensures forall i :: 0 <= i < |Prbs(order, nBits, 0).value| ==> Prbs(order, nBits, 0).value[i] == 0
  {
    RunOfZeros(Register(order, 0).value, TapTable(order), nBits);
  }

  /** Every order >= 2 (all the table orders among them) with a seed >= 0 generates without error. */
  lemma PrbsDefined(order: int, nBits: int, seed: int)
    requires order >= 2 && seed >= 0
    ensures Prbs(order, nBits, seed).Ok?
  {
  }

  /**
   * The default taps [0, -1] of order 0 address reg[0] and reg[1], so a
   * one-cell register (seed 0 or 1) raises IndexError on the first output.
   */
  lemma PrbsOrderZeroOneCell(nBits: int)
    requires nBits >= 1
    ensures Prbs(0, nBits, 1) == Err(IndexError)
  {
    var n := |Register(0, 1).value|;
    assert n == 1 by {
      assert BinaryDigits(1) == [1];
    }
    var taps := TapTable(0);
    assert taps[1] == -1;
    assert !TapsInRange(n, taps);
  }

  /** Python's `^` of two bits accumulated into a running feedback. */
  function XorInto(acc: Bit, r: Result<Bit>): Result<Bit>
  {
    match r
    case Ok(b) => Ok(Xor(acc, b))
    case Err(e) => Err(e)
  }

  /** The inner loop of prbs: feedback ^= reg[-t] for each tap in order. */
  method FeedbackOf(reg: seq<Bit>, taps: seq<int>) returns (r: Result<Bit>)
    ensures r == Feedback(reg, taps)
  {
    var feedback: Bit := 0;
    var j := 0;
    assert taps[j..] == taps;
    while j < |taps|
      invariant 0 <= j <= |taps|
      invariant Feedback(reg, taps) == XorInto(feedback, Feedback(reg, taps[j..]))
      decreases |taps| - j
    {
      var cell := PyIndex(reg, -taps[j]);
      assert taps[j..][0] == taps[j] && taps[j..][1..] == taps[j + 1..];
      if cell.Err? {
        return Err(IndexError);
      }
      feedback := Xor(feedback, cell.value);
      j := j + 1;
    }
    assert taps[j..] == [];
    r := Ok(feedback);
  }

  /** A clock step of the Run recursion, seen from the loop. */
  lemma RunStep(reg: seq<Bit>, taps: seq<int>, n: int, f: Bit)
    requires |reg| >= 1 && n >= 1 && Feedback(reg, taps) == Ok(f)
    ensures Run(reg, taps, n) == PrependBits([reg[|reg| - 1]], Run(Clock(reg, f), taps, n - 1))
  {
  }

  /** Prepending two prefixes in turn prepends their concatenation. */
  lemma PrependBitsTwice(p: seq<Bit>, q: seq<Bit>, r: Result<seq<Bit>>)
    ensures PrependBits(p, PrependBits(q, r)) == PrependBits(p + q, r)
  {
    if r.Ok? {
      assert p + (q + r.value) == (p + q) + r.value;
    }
  }

  /**
   * prbs with an explicit seed: builds the register, then for each of the
   * n_bits outputs appends the last cell, computes the feedback and
   * clocks the register.
   */
  method PrbsGenerate(order: int, nBits: int, seed: int) returns (r: Result<seq<Bit>>)
    ensures r == Prbs(order, nBits, seed)
  {
    if seed < 0 {
      return Err(ValueError);
    }
    var reg := ZFill(BinaryDigits(seed), order);
    var taps := TapTable(order);
    var out: seq<Bit> := [];
    var i := 0;
    assert Register(order, seed) == Ok(reg);
    if Run(reg, taps, nBits).Ok? {
      assert out + Run(reg, taps, nBits).value == Run(reg, taps, nBits).value;
    }
    while i < nBits
      invariant 0 <= i && (nBits >= 0 ==> i <= nBits)
      invariant |reg| == |Register(order, seed).value|
      invariant Prbs(order, nBits, seed) == PrependBits(out, Run(reg, taps, nBits - i))
      decreases nBits - i
    {
      var last := reg[|reg| - 1];
      var fb := FeedbackOf(reg, taps);
      if fb.Err? {
        return Err(IndexError);
      }
      RunStep(reg, taps, nBits - i, fb.value);
      PrependBitsTwice(out, [last], Run(Clock(reg, fb.value), taps, nBits - i - 1));
      out := out + [last];
      reg := [fb.value] + reg[..|reg| - 1];
      i := i + 1;
    }
    assert out + [] == out;
    r := Ok(out);
  }

  // ---------------------------------------------------------------------
  // Gold codes and fixed patterns
  // ---------------------------------------------------------------------

  /** Element-wise XOR of two bit sequences of the same length. */
  function XorBits(a: seq<Bit>, b: seq<Bit>): (r: seq<Bit>)
    requires |a| == |b|
    ensures |r| == |a|
    ensures forall i :: 0 <= i < |a| ==> (r[i] == 1 <==> a[i] != b[i])
  {
    seq(|a|, i requires 0 <= i < |a| => Xor(a[i], b[i]))
  }

  /** gold_code: the XOR of two PRBS runs of the same order and length; the first failing run raises. */
  function GoldCode(order: int, nBits: int, seed1: int, seed2: int): (r: Result<seq<Bit>>)
    ensures r.Ok? <==> Prbs(order, nBits, seed1).Ok? && Prbs(order, nBits, seed2).Ok?
    ensures r.Ok? ==> |r.value| == if nBits > 0 then nBits else 0
    ensures r.Ok? ==> forall i :: 0 <= i < |r.value| ==>
              (r.value[i] == 1 <==> Prbs(order, nBits, seed1).value[i] != Prbs(order, nBits, seed2).value[i])
  {
    match Prbs(order, nBits, seed1)
    case Err(e) => Err(e)
    case Ok(a) =>
      match Prbs(order, nBits, seed2)
      case Err(e) => Err(e)
      case Ok(b) => Ok(XorBits(a, b))
  }

  /** The Gold code of two equal seeds is all zeros. */
  lemma GoldCodeSameSeeds(order: int, nBits: int, seed: int)
    requires GoldCode(order, nBits, seed, seed).Ok?
    ensures forall i :: 0 <= i < |GoldCode(order, nBits, seed, seed).value| ==> GoldCode(order, nBits, seed, seed).value[i] == 0
  {
  }

  /** With a second seed of 0 the Gold code is the first PRBS itself. */
  lemma GoldCodeZeroSecondSeed(order: int, nBits: int, seed: int)
    requires GoldCode(order, nBits, seed, 0).Ok?
    ensures GoldCode(order, nBits, seed, 0) == Prbs(order, nBits, seed)
  {
    PrbsZeroSeed(order, nBits);
    var a := Prbs(order, nBits, seed).value;
    var b := Prbs(order, nBits, 0).value;
    var g := GoldCode(order, nBits, seed, 0).value;
    assert g == XorBits(a, b);
    forall i | 0 <= i < |g|
      ensures g[i] == a[i]
    {
      assert b[i] == 0;
    }
    assert g == a;
  }

  /** gray_code: bit 0 of i XOR (i >> 1) for i in 0 .. n_bits - 1; a negative length gives []. */
  function GrayCode(nBits: int): (r: seq<Bit>)
    ensures |r| == if nBits > 0 then nBits else 0
  {
    seq(if nBits > 0 then nBits else 0, i => Xor(i % 2, (i / 2) % 2))
  }

  /** The Gray code bit pattern repeats 0, 1, 1, 0. */
  lemma GrayCodePattern(nBits: int)
    ensures forall i :: 0 <= i < |GrayCode(nBits)| ==> GrayCode(nBits)[i] == [0, 1, 1, 0][i % 4]
  {
    forall i | 0 <= i < |GrayCode(nBits)|
      ensures GrayCode(nBits)[i] == [0, 1, 1, 0][i % 4]
    {
      var q, h := i / 4, i % 4;
      assert i == (2 * q) * 2 + h / 2 * 2 + h % 2;
      assert i == (2 * q + h / 2) * 2 + h % 2;
      DivOfMulPlus(2 * q + h / 2, 2, h % 2);
      assert i / 2 == 2 * q + h / 2;
      assert i % 2 == h % 2;
      assert (i / 2) % 2 == (h / 2) % 2;
    }
  }

  /** np.tile(pattern, reps): the pattern written reps times. */
  function Tile(pattern: seq<int>, reps: nat): (r: seq<int>)
    ensures |r| == reps * |pattern|
  {
    if reps == 0 then []
    else
      assert (reps - 1) * |pattern| + |pattern| == reps * |pattern|;
      Tile(pattern, reps - 1) + pattern
  }

  /** Place i of a tiling holds pattern[i mod |pattern|]. */
  lemma {:induction false} TileAt(pattern: seq<int>, reps: nat, i: nat)
    requires i < reps * |pattern|
    ensures |pattern| >= 1 && Tile(pattern, reps)[i] == pattern[i % |pattern|]
  {
    var n := |pattern|;
    if i < (reps - 1) * n {
      TileAt(pattern, reps - 1, i);
    } else {
      var h := i - (reps - 1) * n;
      assert 0 <= h < n;
      DivOfMulPlus(reps - 1, n, h);
      assert i % n == h;
    }
  }

  /**
   * repeat(pattern, n_bits): tile the pattern ceil(n_bits / len) times and
   * keep the first n_bits. An empty pattern divides by zero; a count of
   * -len or below makes np.tile raise ValueError, and a count in between
   * gives [].
   */
  function Repeat(pattern: seq<int>, nBits: int): (r: Result<seq<int>>)
    ensures r.Err? <==> |pattern| == 0 || nBits <= -|pattern|
    ensures |pattern| == 0 ==> r == Err(ZeroDivisionError)
    ensures r.Err? && |pattern| > 0 ==> r.error == ValueError
    ensures r.Ok? ==> |r.value| == if nBits > 0 then nBits else 0
  {
    var n := |pattern|;
    if n == 0 then Err(ZeroDivisionError)
    else
      var reps := if nBits >= 0 then (nBits + n - 1) / n else -((-nBits) / n);
      if reps < 0 then Err(ValueError)
      else if nBits <= 0 then Ok([])
      else
        assert reps * n >= nBits by {
          var q, h := (nBits + n - 1) / n, (nBits + n - 1) % n;
          assert nBits + n - 1 == q * n + h;
        }
        Ok(Tile(pattern, reps)[..nBits])
  }

  /** The repeated pattern holds pattern[i mod |pattern|] at place i. */
  lemma RepeatAt(pattern: seq<int>, nBits: int)
    requires Repeat(pattern, nBits).Ok?
    ensures forall i :: 0 <= i < |Repeat(pattern, nBits).value| ==> Repeat(pattern, nBits).value[i] == pattern[i % |pattern|]
  {
    var n := |pattern|;
    if nBits > 0 {
      var reps := (nBits + n - 1) / n;
      forall i | 0 <= i < nBits
        ensures Repeat(pattern, nBits).value[i] == pattern[i % n]
      {
        TileAt(pattern, reps, i);
      }
    }
  }

  /** Repeating a pattern to its own length gives the pattern. */
  lemma RepeatWhole(pattern: seq<int>)
    requires |pattern| >= 1
    ensures Repeat(pattern, |pattern|) == Ok(pattern)
  {
    var n := |pattern|;
    DivOfMulPlus(1, n, n - 1);
    assert (n + n - 1) / n == 1;
    assert Tile(pattern, 1) == [] + pattern;
    assert Tile(pattern, 1)[..n] == pattern;
    assert Repeat(pattern, n) == Ok(Tile(pattern, 1)[..n]);
  }

  /** alternating(n_bits, start): (i + start) mod 2 at place i. */
  function Alternating(nBits: int, start: int): (r: seq<Bit>)
    ensures |r| == if nBits > 0 then nBits else 0
  {
    seq(if nBits > 0 then nBits else 0, i => (i + start) % 2)
  }

  /** Neighbouring bits of an alternating pattern differ, and start 0 begins with 0. */
  lemma AlternatingAlternates(nBits: int, start: int)
    ensures forall i :: 0 <= i < |Alternating(nBits, start)| - 1 ==>
              Alternating(nBits, start)[i] != Alternating(nBits, start)[i + 1]
    ensures nBits >= 1 ==> Alternating(nBits, start)[0] == start % 2
  {
  }

  /** invert: every bit XOR 1. */
  function Invert(bits: seq<Bit>): (r: seq<Bit>)
    ensures |r| == |bits|
    ensures forall i :: 0 <= i < |bits| ==> r[i] != bits[i]
  {
    seq(|bits|, i requires 0 <= i < |bits| => Xor(bits[i], 1))
  }

  /** Inverting twice gives the bits back. */
  lemma InvertInvolution(bits: seq<Bit>)
    ensures Invert(Invert(bits)) == bits
  {
  }

  /** Inverting the alternating pattern from 0 gives the one from 1. */
  lemma InvertAlternating(nBits: int)
    ensures Invert(Alternating(nBits, 0)) == Alternating(nBits, 1)
  {
  }

  /**
   * shift(bits, k): np.roll by k mod len, written as the last m bits
   * followed by the others. An empty sequence makes k % 0 raise
   * ZeroDivisionError.
   */
  function Shift(bits: seq<int>, k: int): (r: Result<seq<int>>)
    ensures r.Err? <==> |bits| == 0
    ensures r.Err? ==> r.error == ZeroDivisionError
    ensures r.Ok? ==> |r.value| == |bits|
  {
    if |bits| == 0 then Err(ZeroDivisionError)
    else
      var m := k % |bits|;
      Ok(bits[|bits| - m..] + bits[..|bits| - m])
  }

  /** Bit i moves to place (i + k) mod n. */
  lemma ShiftMoves(bits: seq<int>, k: int)
    requires |bits| >= 1
    ensures forall i :: 0 <= i < |bits| ==> Shift(bits, k).value[(i + k) % |bits|] == bits[i]
  {
    forall i | 0 <= i < |bits|
      ensures Shift(bits, k).value[(i + k) % |bits|] == bits[i]
    {
      ShiftMovesAt(bits, k, i);
    }
  }

  /** Bit i of ShiftMoves, for one index. */
  lemma ShiftMovesAt(bits: seq<int>, k: int, i: nat)
    requires i < |bits|
    ensures Shift(bits, k).value[(i + k) % |bits|] == bits[i]
  {
    var n := |bits|;
    var m := k % n;
    var j := (i + k) % n;
    assert (i + k) % n == (i + m) % n by {
      assert k == (k / n) * n + m;
      assert i + k == (k / n) * n + (i + m);
      ModAddMultiple(i + m, k / n, n);
    }
    if i + m < n {
      DivOfMulPlus(0, n, i + m);
      assert j == i + m;
    } else {
      DivOfMulPlus(1, n, i + m - n);
      assert j == i + m - n;
    }
  }

  /** Adding a multiple of n does not change a residue mod n. */
  lemma ModAddMultiple(x: int, q: int, n: int)
    requires n >= 1
    ensures (q * n + x) % n == x % n
  {
    var a, b := x / n, x % n;
    assert x == a * n + b;
    assert q * n + x == (q + a) * n + b;
    DivOfMulPlus(q + a, n, b);
  }

  /** Moving forward by k and back by k mod n returns to the start. */
  lemma ModCancel(i: int, k: int, n: int)
    requires n >= 1 && 0 <= i < n
    ensures ((i + k) % n + -k) % n == i
  {
    var q := (i + k) / n;
    assert (i + k) % n + -k == -q * n + i;
    ModAddMultiple(i, -q, n);
    DivOfMulPlus(0, n, i);
  }

  /** Shifting by k and then by -k gives the bits back. */
  lemma ShiftRoundTrip(bits: seq<int>, k: int)
    requires |bits| >= 1
    ensures Shift(Shift(bits, k).value, -k) == Ok(bits)
  {
    var t := Shift(Shift(bits, k).value, -k).value;
    forall i | 0 <= i < |bits|
      ensures t[i] == bits[i]
    {
      ShiftBackAt(bits, k, i);
    }
    assert t == bits;
  }

  /** Bit i of ShiftRoundTrip, for one index. */
  lemma ShiftBackAt(bits: seq<int>, k: int, i: nat)
    requires i < |bits|
    ensures Shift(Shift(bits, k).value, -k).value[i] == bits[i]
  {
    var n := |bits|;
    var s := Shift(bits, k).value;
    var j := (i + k) % n;
    ShiftMovesAt(bits, k, i);
    ShiftMovesAt(s, -k, j);
    ModCancel(i, k, n);
  }
}
