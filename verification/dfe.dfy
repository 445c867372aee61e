/**
 * The symbol-rate decision feedback equalizer of rx/dfe.py: output i is
 * symbol i minus the taps applied to the outputs already computed,
 * out[i] = symbols[i] - sum over j < min(i, |taps|) of taps[j] * out[i - j - 1].
 */
module Dfe {
  import opened Common

  function MinNat(a: nat, b: nat): nat
  {
    if a <= b then a else b
  }

  /** The feedback term at position i over the first m taps: the sum of taps[j] * out[i - j - 1] for j < m. */
  function Feedback(taps: seq<real>, out: seq<real>, i: int, m: nat): real
    requires m <= |taps| && m <= i <= |out|
  {
    if m == 0 then 0.0 else Feedback(taps, out, i, m - 1) + taps[m - 1] * out[i - m]
  }

  /** The equalized symbols, defined position by position from the recurrence. */
  function DfeOutput(symbols: seq<real>, taps: seq<real>): (r: seq<real>)
    ensures |r| == |symbols|
    decreases |symbols|
  {
    if |symbols| == 0 then []
    else
      var i := |symbols| - 1;
      var prev := DfeOutput(symbols[..i], taps);
      prev + [symbols[i] - Feedback(taps, prev, i, MinNat(i, |taps|))]
  }

  /** The feedback at position i reads only the outputs before i. */
  lemma {:induction false} FeedbackReadsPrefix(taps: seq<real>, out: seq<real>, out': seq<real>, i: int, m: nat)
    requires m <= |taps| && m <= i <= |out| && i <= |out'|
    requires out[..i] == out'[..i]
    ensures Feedback(taps, out, i, m) == Feedback(taps, out', i, m)
  {
    if m > 0 {
      FeedbackReadsPrefix(taps, out, out', i, m - 1);
      assert out[i - m] == out[..i][i - m] == out'[..i][i - m] == out'[i - m];
    }
  }

  /** The outputs for a prefix of the symbols are the prefix of the outputs. */
  lemma {:induction false} DfePrefix(symbols: seq<real>, taps: seq<real>, k: nat)
    requires k <= |symbols|
    ensures DfeOutput(symbols, taps)[..k] == DfeOutput(symbols[..k], taps)
    decreases |symbols|
  {
    if k < |symbols| {
      var n := |symbols| - 1;
      DfePrefix(symbols[..n], taps, k);
      assert symbols[..n][..k] == symbols[..k];
      assert DfeOutput(symbols, taps)[..n] == DfeOutput(symbols[..n], taps);
      assert DfeOutput(symbols, taps)[..k] == DfeOutput(symbols, taps)[..n][..k];
    } else {
      assert symbols[..k] == symbols;
    }
  }

  /**
   * The recurrence, stated on the whole output: out[i] is symbols[i] minus
   * the first min(i, |taps|) taps applied to out[i - 1], out[i - 2], ....
   */
  lemma DfeRecurrence(symbols: seq<real>, taps: seq<real>, i: nat)
    requires i < |symbols|
    ensures var out := DfeOutput(symbols, taps);
            out[i] == symbols[i] - Feedback(taps, out, i, MinNat(i, |taps|))
  {
    var out := DfeOutput(symbols, taps);
    DfePrefix(symbols, taps, i + 1);
    DfePrefix(symbols, taps, i);
    var pre := symbols[..i + 1];
    assert pre[..i] == symbols[..i];
    assert out[..i + 1][i] == out[i];
    FeedbackReadsPrefix(taps, out, DfeOutput(symbols[..i], taps), i, MinNat(i, |taps|));
  }

  /**
   * Strict causality: two symbol streams that agree before position k give
   * outputs that agree before position k, whatever the taps.
   */
  lemma DfeCausal(s1: seq<real>, s2: seq<real>, taps: seq<real>, k: nat)
    requires k <= |s1| && k <= |s2|
    requires s1[..k] == s2[..k]
    ensures DfeOutput(s1, taps)[..k] == DfeOutput(s2, taps)[..k]
  {
    DfePrefix(s1, taps, k);
    DfePrefix(s2, taps, k);
  }

  /** The first output is the first symbol, for any taps. */
  lemma DfeFirst(symbols: seq<real>, taps: seq<real>)
    requires |symbols| >= 1
    ensures DfeOutput(symbols, taps)[0] == symbols[0]
  {
    DfeRecurrence(symbols, taps, 0);
  }

  /** With no taps the equalizer passes the symbols through unchanged. */
  lemma {:induction false} DfeNoTaps(symbols: seq<real>)
    ensures DfeOutput(symbols, []) == symbols
    decreases |symbols|
  {
    if |symbols| > 0 {
      var n := |symbols| - 1;
      DfeNoTaps(symbols[..n]);
      assert symbols[..n] + [symbols[n]] == symbols;
    }
  }

  /** A single tap 0.5 turns the symbols [1, 1, 1] into [1, 0.5, 0.75]. */
  lemma DfeWorkedExample()
    ensures DfeOutput([1.0, 1.0, 1.0], [0.5]) == [1.0, 0.5, 0.75]
  {
    var taps := [0.5];
    var s := [1.0, 1.0, 1.0];
    assert s[..2] == [1.0, 1.0];
    assert [1.0, 1.0][..1] == [1.0];
    assert [1.0][..0] == [];
    assert DfeOutput([1.0], taps) == [1.0];
    assert Feedback(taps, [1.0], 1, 1) == 0.5;
    assert DfeOutput([1.0, 1.0], taps) == [1.0, 0.5];
    assert Feedback(taps, [1.0, 0.5], 2, 1) == 0.25;
  }

  /**
   * Position i uses taps 0 .. i - 1 only, so taps at an index of at least
   * |symbols| - 1 never matter: truncating the taps there changes nothing.
   */
  lemma {:induction false} DfeUnusedTaps(symbols: seq<real>, taps: seq<real>, len: nat)
    requires |symbols| <= len + 1 && len <= |taps|
    ensures DfeOutput(symbols, taps) == DfeOutput(symbols, taps[..len])
    decreases |symbols|
  {
    if |symbols| > 0 {
      var n := |symbols| - 1;
      DfeUnusedTaps(symbols[..n], taps, len);
      var prev := DfeOutput(symbols[..n], taps);
      FeedbackSameTaps(taps, taps[..len], prev, n, MinNat(n, |taps|));
    }
  }

  /** Two tap vectors that agree on their first m entries give the same feedback over m taps. */
  lemma {:induction false} FeedbackSameTaps(taps: seq<real>, taps': seq<real>, out: seq<real>, i: int, m: nat)
    requires m <= |taps| && m <= |taps'| && m <= i <= |out|
    requires forall j :: 0 <= j < m ==> taps[j] == taps'[j]
    ensures Feedback(taps, out, i, m) == Feedback(taps', out, i, m)
  {
    if m > 0 {
      FeedbackSameTaps(taps, taps', out, i, m - 1);
    }
  }

  /** The inner loop of apply_dfe: the sum of taps[j] * out[i - j - 1] over j < m, in order. */
  method FeedbackSum(taps: seq<real>, out: array<real>, i: nat, m: nat) returns (feedback: real)
    requires m <= |taps| && m <= i <= out.Length
    ensures feedback == Feedback(taps, out[..i], i, m)
  {
    feedback := 0.0;
    var j := 0;
    while j < m
      invariant 0 <= j <= m
      invariant feedback == Feedback(taps, out[..i], i, j)
    {
      feedback := feedback + taps[j] * out[i - j - 1];
      j := j + 1;
    }
  }

  /**
   * apply_dfe: an output array filled in index order; each entry subtracts
   * from the symbol the feedback over earlier entries of the same array.
   */
  method ApplyDfe(symbols: seq<real>, taps: seq<real>) returns (r: seq<real>)
    ensures r == DfeOutput(symbols, taps)
  {
    var out := new real[|symbols|](_ => 0.0);
    ghost var spec := DfeOutput(symbols, taps);
    var i := 0;
    while i < |symbols|
      invariant 0 <= i <= |symbols|
      invariant out[..i] == spec[..i]
    {
      var m := if i <= |taps| then i else |taps|;
      var feedback := FeedbackSum(taps, out, i, m);
      FeedbackReadsPrefix(taps, out[..i], spec, i, m);
      DfeRecurrence(symbols, taps, i);
      ghost var prev := out[..i];
      out[i] := symbols[i] - feedback;
      assert out[..i + 1] == prev + [spec[i]];
      assert spec[..i + 1] == spec[..i] + [spec[i]];
      i := i + 1;
    }
    assert spec[..i] == spec;
    r := out[..];
  }
}
