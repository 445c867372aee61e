/**
 * numpy.convolve(a, v, mode='same'), shared by the receiver CTLE, the
 * transmitter FFE and the simple channel's ISI filter. The full linear
 * convolution has |a| + |v| - 1 terms; 'same' mode keeps max(|a|, |v|) of them,
 * starting at index (min(|a|, |v|) - 1) / 2 of the full result. numpy swaps the
 * operands when v is the longer one; the full convolution is the same either
 * way, so the model keeps a as the first operand.
 */
module Convolution {
  import opened Common

  /** v[i], or zero outside v (the implicit zero padding of a convolution). */
  function TapAt(v: seq<real>, i: int): real
  {
    if 0 <= i < |v| then v[i] else 0.0
  }

  /** The sum of a[j] * v[k - j] over j < m. */
  function PartialConv(a: seq<real>, v: seq<real>, k: int, m: nat): real
    requires m <= |a|
  {
    if m == 0 then 0.0 else PartialConv(a, v, k, m - 1) + a[m - 1] * TapAt(v, k - (m - 1))
  }

  /** Element k of the full convolution of a and v. */
  function FullAt(a: seq<real>, v: seq<real>, k: int): real
  {
    PartialConv(a, v, k, |a|)
  }

  /** Where 'same' mode starts inside the full convolution. */
  function SameOffset(a: seq<real>, v: seq<real>): nat
    requires |a| >= 1 && |v| >= 1
  {
    if |a| <= |v| then (|a| - 1) / 2 else (|v| - 1) / 2
  }

  /** numpy.convolve(a, v, mode='same'); an empty operand raises ValueError. */
  function ConvolveSame(a: seq<real>, v: seq<real>): (r: Result<seq<real>>)
    ensures r.Err? <==> |a| == 0 || |v| == 0
    ensures r.Err? ==> r.error == ValueError
    ensures r.Ok? ==> |r.value| == if |a| >= |v| then |a| else |v|
    ensures r.Ok? ==> forall k :: 0 <= k < |r.value| ==> r.value[k] == FullAt(a, v, k + SameOffset(a, v))
  {
    if |a| == 0 || |v| == 0 then Err(ValueError)
    else
      var n := if |a| >= |v| then |a| else |v|;
      Ok(seq(n, k => FullAt(a, v, k + SameOffset(a, v))))
  }

  /** Convolving with the single tap 1.0 picks out one element. */
  lemma {:induction false} PartialConvUnitTap(a: seq<real>, k: int, m: nat)
    requires m <= |a|
    ensures PartialConv(a, [1.0], k, m) == if 0 <= k < m then a[k] else 0.0
  {
    if m > 0 {
      PartialConvUnitTap(a, k, m - 1);
    }
  }

  /** The single tap [1.0] is the identity of 'same'-mode convolution. */
  lemma ConvolveSameUnitTap(a: seq<real>)
    requires |a| >= 1
    ensures ConvolveSame(a, [1.0]) == Ok(a)
  {
    var r := ConvolveSame(a, [1.0]).value;
    assert SameOffset(a, [1.0]) == 0;
    assert |r| == |a|;
    forall k | 0 <= k < |a| ensures r[k] == a[k] {
      assert r[k] == FullAt(a, [1.0], k);
      PartialConvUnitTap(a, k, |a|);
    }
    assert r == a;
  }

  /** Scaling the first operand scales every partial sum. */
  lemma {:induction false} PartialConvScale(c: real, a: seq<real>, v: seq<real>, k: int, m: nat)
    requires m <= |a|
    ensures PartialConv(Scale(c, a), v, k, m) == c * PartialConv(a, v, k, m)
  {
    if m > 0 {
      PartialConvScale(c, a, v, k, m - 1);
    }
  }

  /** The partial sums of a sum of first operands add up. */
  lemma {:induction false} PartialConvAdd(a: seq<real>, b: seq<real>, v: seq<real>, k: int, m: nat)
    requires |a| == |b| && m <= |a|
    ensures PartialConv(Add(a, b), v, k, m) == PartialConv(a, v, k, m) + PartialConv(b, v, k, m)
  {
    if m > 0 {
      PartialConvAdd(a, b, v, k, m - 1);
    }
  }

  /** 'Same'-mode convolution is homogeneous in its first operand. */
  lemma ConvolveSameScale(c: real, a: seq<real>, v: seq<real>)
    requires |a| >= 1 && |v| >= 1
    ensures ConvolveSame(Scale(c, a), v) == Ok(Scale(c, ConvolveSame(a, v).value))
  {
    var r := ConvolveSame(Scale(c, a), v).value;
    var s := ConvolveSame(a, v).value;
    assert |Scale(c, a)| == |a|;
    assert SameOffset(Scale(c, a), v) == SameOffset(a, v);
    forall k | 0 <= k < |s| ensures r[k] == c * s[k] {
      assert r[k] == FullAt(Scale(c, a), v, k + SameOffset(a, v));
      assert s[k] == FullAt(a, v, k + SameOffset(a, v));
      PartialConvScale(c, a, v, k + SameOffset(a, v), |a|);
    }
    assert |r| == |s| == |Scale(c, s)|;
    assert forall k :: 0 <= k < |s| ==> Scale(c, s)[k] == c * s[k];
    assert r == Scale(c, s);
  }

  /** 'Same'-mode convolution is additive in its first operand. */
  lemma ConvolveSameAdd(a: seq<real>, b: seq<real>, v: seq<real>)
    requires |a| == |b| && |a| >= 1 && |v| >= 1
    ensures ConvolveSame(Add(a, b), v) == Ok(Add(ConvolveSame(a, v).value, ConvolveSame(b, v).value))
  {
    var r := ConvolveSame(Add(a, b), v).value;
    var sa := ConvolveSame(a, v).value;
    var sb := ConvolveSame(b, v).value;
    assert |Add(a, b)| == |a|;
    assert SameOffset(Add(a, b), v) == SameOffset(a, v) == SameOffset(b, v);
    forall k | 0 <= k < |r| ensures r[k] == sa[k] + sb[k] {
      assert r[k] == FullAt(Add(a, b), v, k + SameOffset(a, v));
      assert sa[k] == FullAt(a, v, k + SameOffset(a, v));
      assert sb[k] == FullAt(b, v, k + SameOffset(a, v));
      PartialConvAdd(a, b, v, k + SameOffset(a, v), |a|);
    }
    assert r == Add(sa, sb);
  }
}
