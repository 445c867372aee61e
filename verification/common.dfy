/**
 * Definitions shared by every stage of the link model: the Python exceptions the
 * modelled code can raise, a Result type standing for "returns or raises", bits,
 * and the numeric helpers numpy supplies (clip, round-half-to-even, sums).
 */
module Common {

  /** The Python exception classes raised by the modelled code. */
  datatype ErrorKind = ValueError | TypeError | IndexError | KeyError | ZeroDivisionError

  /** A call either returns a value or raises one of the exceptions above. */
  datatype Result<T> = Ok(value: T) | Err(error: ErrorKind)

  /** Python's `None` or a value. */
  datatype Option<T> = None | Some(value: T)
  {
    function GetOr(default: T): T
    {
      match this
      case Some(v) => v
      case None => default
    }
  }

  /**
   * The transcendental functions the source takes from Python and numpy
   * (`10 ** x`, `numpy.log10`, `numpy.exp`, `numpy.sqrt`). The model never
   * evaluates them: they are parameters, and every property proved holds
   * whatever functions are supplied.
   */
  datatype Transcendentals = Transcendentals(
    pow10: real -> real,
    log10: real -> real,
    exp: real -> real,
    sqrt: real -> real)

  /** A 0/1 bit. */
  type Bit = b: int | 0 <= b <= 1

  function Xor(a: Bit, b: Bit): (r: Bit)
    ensures r == 1 <==> a != b
  {
    if a == b then 0 else 1
  }

  function Min(a: real, b: real): real
  {
    if a <= b then a else b
  }

  function Max(a: real, b: real): real
  {
    if a >= b then a else b
  }

  function Abs(x: real): real
  {
    if x < 0.0 then -x else x
  }

  /**
   * numpy.clip(x, lo, hi), which is minimum(maximum(x, lo), hi): when lo > hi
   * every input is mapped to hi.
   */
  function Clip(x: real, lo: real, hi: real): (r: real)
    ensures lo <= hi ==> lo <= r <= hi
    ensures lo <= x <= hi ==> r == x
    ensures hi < lo ==> r == hi
  {
    Min(Max(x, lo), hi)
  }

  /** numpy.clip on integer codes. */
  function ClipInt(x: int, lo: int, hi: int): (r: int)
    ensures lo <= hi ==> lo <= r <= hi
    ensures lo <= x <= hi ==> r == x
  {
    if x < lo then (if lo <= hi then lo else hi) else if x > hi then hi else x
  }

  /**
   * Python's round() and numpy.round(): the nearest integer, and on a tie
   * (a fractional part of exactly one half) the even neighbour.
   */
  function RoundHalfEven(x: real): (r: int)
    ensures -0.5 <= x - r as real <= 0.5
    ensures (x - r as real == 0.5 || r as real - x == 0.5) ==> r % 2 == 0
  {
    var f := x.Floor;
    var d := x - f as real;
    if d < 0.5 then f
    else if d > 0.5 then f + 1
    else if f % 2 == 0 then f
    else f + 1
  }

  /** An integral value rounds to itself. */
  lemma RoundIntegral(k: int)
    ensures RoundHalfEven(k as real) == k
  {
  }

  /** Python's int() of a float: truncation toward zero. */
  function TruncToInt(x: real): (r: int)
    ensures x >= 0.0 ==> r as real <= x < r as real + 1.0
    ensures x < 0.0 ==> r as real - 1.0 < x <= r as real
  {
    if x >= 0.0 then x.Floor else -((-x).Floor)
  }

  /** 2 ** n for a non-negative exponent. */
  function Pow2(n: nat): (r: nat)
    ensures r >= 1
    ensures n >= 1 ==> r >= 2
  {
    if n == 0 then 1 else 2 * Pow2(n - 1)
  }

  /**
   * For a positive divisor, a multiple m * d stays at or below x exactly when
   * m is at most the floor of x / d (Dafny's `/` on a positive divisor is
   * Python's `//`).
   */
  lemma MulLeIffLeDiv(m: int, d: int, x: int)
    requires d >= 1
    ensures m * d <= x <==> m <= x / d
  {
    var q := x / d;
    assert q * d + x % d == x;
    if m <= q {
      assert m * d <= q * d;
    } else {
      assert m >= q + 1;
      assert m * d >= (q + 1) * d;
    }
  }

  /** Dividing i * d + h by d, for 0 <= h < d, gives back i. */
  lemma DivOfMulPlus(i: int, d: int, h: int)
    requires d >= 1 && 0 <= h < d
    ensures (i * d + h) / d == i
  {
    MulLeIffLeDiv(i, d, i * d + h);
    MulLeIffLeDiv(i + 1, d, i * d + h);
    assert (i + 1) * d == i * d + d;
  }

  /** Adding the divisor to a non-negative dividend adds one to the quotient. */
  lemma DivAddDivisor(x: int, k: int)
    requires k >= 1 && x >= 0
    ensures (x + k) / k == x / k + 1
  {
    var q, r := x / k, x % k;
    assert x == q * k + r;
    assert x + k == (q + 1) * k + r;
    DivOfMulPlus(q + 1, k, r);
  }

  /** One factor fewer: (i - 1) * k + k = i * k. */
  lemma MulPred(i: int, k: int)
    ensures (i - 1) * k + k == i * k
  {
  }

  /** The product of two non-negative numbers is non-negative. */
  lemma MulNonneg(a: real, b: real)
    requires a >= 0.0 && b >= 0.0
    ensures a * b >= 0.0
  {
  }

  /** A fraction a / d with 0 <= a <= d lies in [0, 1]. */
  lemma FractionInUnit(a: real, d: real)
    requires 0.0 <= a <= d && d > 0.0
    ensures 0.0 <= a / d <= 1.0
  {
    assert (a / d) * d == a;
  }

  /** Python's sum() of a list of reals, added left to right. */
  function Sum(s: seq<real>): real
  {
    if |s| == 0 then 0.0 else Sum(s[..|s| - 1]) + s[|s| - 1]
  }

  /** Summing one more element of a sequence adds that element. */
  lemma SumPrefixStep(s: seq<real>, i: nat)
    requires i < |s|
    ensures Sum(s[..i + 1]) == Sum(s[..i]) + s[i]
  {
    assert s[..i + 1][..i] == s[..i];
  }

  /** Summing a scaled sequence scales the sum. */
  lemma {:induction false} SumScale(c: real, s: seq<real>)
    ensures Sum(Scale(c, s)) == c * Sum(s)
  {
    if |s| > 0 {
      var t := Scale(c, s);
      var p := Scale(c, s[..|s| - 1]);
      assert |t[..|t| - 1]| == |p|;
      assert forall k :: 0 <= k < |p| ==> t[..|t| - 1][k] == p[k];
      assert t[..|t| - 1] == p;
      SumScale(c, s[..|s| - 1]);
    }
  }

  /** Element-wise scaling of a sample sequence. */
  function Scale(c: real, s: seq<real>): seq<real>
  {
    seq(|s|, k requires 0 <= k < |s| => c * s[k])
  }

  /** Scaling a and multiplying by b is scaling b and multiplying by a. */
  lemma MulSwap(g: real, a: real, b: real)
    ensures (g * a) * b == (g * b) * a
  {
  }

  /** A scaled sequence keeps the cross ratio of any two places. */
  lemma ScaleRatio(g: real, w: seq<real>, r: seq<real>, i: nat, j: nat)
    requires r == Scale(g, w) && i < |w| && j < |w|
    ensures r[i] * w[j] == r[j] * w[i]
  {
    MulSwap(g, w[i], w[j]);
  }

  /** Element-wise sum of two sample sequences of equal length. */
  function Add(a: seq<real>, b: seq<real>): seq<real>
    requires |a| == |b|
  {
    seq(|a|, k requires 0 <= k < |a| => a[k] + b[k])
  }

  /** A sequence of n copies of x (numpy.zeros / numpy.full). */
  function Fill(n: nat, x: real): seq<real>
  {
    seq(n, k => x)
  }
}
