/**
 * The empirical bit error rate of metrics/ber.py: the number of places
 * where the received and transmitted bits differ, over the number of
 * transmitted bits, with numpy's broadcasting of a one-element operand.
 */
module Ber {
  import opened Common

  /** np.sum(rx != tx) for arrays of equal length. */
  function Mismatches(rx: seq<int>, tx: seq<int>): (n: nat)
    requires |rx| == |tx|
    ensures n <= |tx|
    decreases |tx|
  {
    if |tx| == 0 then 0
    else Mismatches(rx[..|rx| - 1], tx[..|tx| - 1]) + (if rx[|rx| - 1] != tx[|tx| - 1] then 1 else 0)
  }

  /** np.sum(s != v) for a one-element operand broadcast against s. */
  function CountDiffering(s: seq<int>, v: int): (n: nat)
    ensures n <= |s|
    decreases |s|
  {
    if |s| == 0 then 0
    else CountDiffering(s[..|s| - 1], v) + (if s[|s| - 1] != v then 1 else 0)
  }

  /**
   * empirical_ber: errors / len(tx). Equal lengths compare place by place;
   * a one-element operand is broadcast against the other; any other pair of
   * lengths cannot be broadcast and numpy raises ValueError.
   */
  function EmpiricalBer(rx: seq<int>, tx: seq<int>): (r: Result<real>)
    requires |tx| >= 1
    ensures r.Err? <==> |rx| != |tx| && |rx| != 1 && |tx| != 1
    ensures r.Err? ==> r.error == ValueError
    ensures |rx| == |tx| ==> 0.0 <= r.value <= 1.0
  {
    if |rx| == |tx| then
      var e := Mismatches(rx, tx);
      FractionInUnit(e as real, |tx| as real);
      Ok(e as real / |tx| as real)
    else if |tx| == 1 then Ok(CountDiffering(rx, tx[0]) as real / 1.0)
    else if |rx| == 1 then Ok(CountDiffering(tx, rx[0]) as real / |tx| as real)
    else Err(ValueError)
  }

  /** Received bits equal to the transmitted ones have no mismatches. */
  lemma {:induction false} MismatchesSame(tx: seq<int>)
    ensures Mismatches(tx, tx) == 0
    decreases |tx|
  {
    if |tx| > 0 {
      MismatchesSame(tx[..|tx| - 1]);
    }
  }

  /** Mismatches do not depend on which side is received. */
  lemma {:induction false} MismatchesSymmetric(rx: seq<int>, tx: seq<int>)
    requires |rx| == |tx|
    ensures Mismatches(rx, tx) == Mismatches(tx, rx)
    decreases |tx|
  {
    if |tx| > 0 {
      MismatchesSymmetric(rx[..|rx| - 1], tx[..|tx| - 1]);
    }
  }

  /** Every place differs: all of them are counted. */
  lemma {:induction false} MismatchesAll(rx: seq<int>, tx: seq<int>)
    requires |rx| == |tx|
    requires forall k :: 0 <= k < |tx| ==> rx[k] != tx[k]
    ensures Mismatches(rx, tx) == |tx|
    decreases |tx|
  {
    if |tx| > 0 {
      MismatchesAll(rx[..|rx| - 1], tx[..|tx| - 1]);
    }
  }

  /** An error-free link has a BER of 0. */
  lemma BerOfIdenticalBits(tx: seq<int>)
    requires |tx| >= 1
    ensures EmpiricalBer(tx, tx) == Ok(0.0)
  {
    MismatchesSame(tx);
  }

  /** The BER of two equally long bit sequences does not depend on which is received. */
  lemma BerSymmetric(rx: seq<int>, tx: seq<int>)
    requires |rx| == |tx| >= 1
    ensures EmpiricalBer(rx, tx) == EmpiricalBer(tx, rx)
  {
    MismatchesSymmetric(rx, tx);
  }

  /** Inverting every received bit gives a BER of 1. */
  lemma BerOfInvertedBits(rx: seq<int>, tx: seq<int>)
    requires |rx| == |tx| >= 1
    requires forall k :: 0 <= k < |tx| ==> rx[k] == 1 - tx[k]
    ensures EmpiricalBer(rx, tx) == Ok(1.0)
  {
    MismatchesAll(rx, tx);
    assert |tx| as real / |tx| as real == 1.0;
  }

  /** One error in five bits gives a BER of 0.2. */
  lemma BerOneErrorInFive()
    ensures EmpiricalBer([0, 1, 1, 0, 1], [0, 1, 0, 0, 1]) == Ok(0.2)
  {
    var rx, tx := [0, 1, 1, 0, 1], [0, 1, 0, 0, 1];
    assert rx[..4] == [0, 1, 1, 0] && tx[..4] == [0, 1, 0, 0];
    assert [0, 1, 1, 0][..3] == [0, 1, 1] && [0, 1, 0, 0][..3] == [0, 1, 0];
    assert [0, 1, 1][..2] == [0, 1] && [0, 1, 0][..2] == [0, 1];
    assert Mismatches([0, 1], [0, 1]) == 0 by {
      MismatchesSame([0, 1]);
    }
    assert Mismatches(rx, tx) == 1;
  }

  /**
   * A single transmitted bit broadcast against several received bits
   * divides by len(tx) = 1, so the result counts errors and can exceed 1.
   */
  lemma BerBroadcastCanExceedOne()
    ensures EmpiricalBer([1, 1, 1], [0]) == Ok(3.0)
  {
    assert [1, 1, 1][..2] == [1, 1] && [1, 1][..1] == [1] && [1][..0] == [];
  }
}
