/**
 * The symbol slicers of rx/slicer.py: an NRZ slicer deciding 1 above a
 * threshold, and a PAM4 slicer deciding a Gray-coded bit pair by comparing
 * the symbol against three thresholds in order.
 */
module Slicer {
  import opened Common

  /** One NRZ decision: 1 exactly when the symbol is strictly above the threshold. */
  function NrzDecision(s: real, threshold: real): (b: Bit)
    ensures b == 1 <==> s > threshold
  {
    if s > threshold then 1 else 0
  }

  /** slicer_nrz: one decision per symbol, in input order. */
  function SlicerNrz(symbols: seq<real>, threshold: real): (r: seq<Bit>)
    ensures |r| == |symbols|
    ensures forall i :: 0 <= i < |symbols| ==> (r[i] == 1 <==> symbols[i] > threshold)
  {
    seq(|symbols|, i requires 0 <= i < |symbols| => NrzDecision(symbols[i], threshold))
  }

  /** Raising the NRZ threshold only turns decisions 1 into 0, never 0 into 1. */
  lemma SlicerNrzMonotone(symbols: seq<real>, t: real, t': real)
    requires t <= t'
    ensures forall i :: 0 <= i < |symbols| ==> SlicerNrz(symbols, t')[i] <= SlicerNrz(symbols, t)[i]
  {
  }

  /** The default PAM4 thresholds (-2, 0, 2). */
  const DefaultThresholds: seq<real> := [-2.0, 0.0, 2.0]

  /**
   * One PAM4 decision. The thresholds are read lazily and in order, so a
   * threshold list shorter than three raises IndexError only when the symbol
   * gets past the thresholds that do exist.
   */
  function Pam4Decision(s: real, t: seq<real>): (r: Result<(Bit, Bit)>)
    ensures r.Err? <==> |t| == 0 || (|t| == 1 && t[0] <= s) || (|t| == 2 && t[0] <= s && t[1] <= s)
    ensures r.Err? ==> r.error == IndexError
    ensures |t| >= 3 ==> r.Ok?
    ensures r.Ok? ==> (r.value == (0, 0) <==> s < t[0])
    ensures r.Ok? ==> (r.value == (0, 1) <==> t[0] <= s && s < t[1])
    ensures r.Ok? ==> (r.value == (1, 1) <==> t[0] <= s && t[1] <= s && s < t[2])
    ensures r.Ok? ==> (r.value == (1, 0) <==> t[0] <= s && t[1] <= s && t[2] <= s)
  {
    if |t| < 1 then Err(IndexError)
    else if s < t[0] then Ok((0, 0))
    else if |t| < 2 then Err(IndexError)
    else if s < t[1] then Ok((0, 1))
    else if |t| < 3 then Err(IndexError)
    else if s < t[2] then Ok((1, 1))
    else Ok((1, 0))
  }

  /**
   * slicer_pam4: one bit pair per symbol, in input order; the first symbol
   * whose decision raises makes the whole call raise.
   */
  function SlicerPam4(symbols: seq<real>, t: seq<real>): (r: Result<seq<(Bit, Bit)>>)
    ensures r.Ok? <==> forall i :: 0 <= i < |symbols| ==> Pam4Decision(symbols[i], t).Ok?
    ensures r.Ok? ==> |r.value| == |symbols|
    ensures r.Ok? ==> forall i :: 0 <= i < |symbols| ==> Pam4Decision(symbols[i], t) == Ok(r.value[i])
    ensures |t| >= 3 ==> r.Ok?
    decreases |symbols|
  {
    if |symbols| == 0 then Ok([])
    else
      match Pam4Decision(symbols[0], t)
      case Err(e) => Err(e)
      case Ok(d) =>
        match SlicerPam4(symbols[1..], t)
        case Err(e) => Err(e)
        case Ok(rest) =>
          assert forall i :: 1 <= i < |symbols| ==> symbols[i] == symbols[1..][i - 1];
          Ok([d] + rest)
  }

  /**
   * With ordered thresholds t0 <= t1 <= t2 the four decisions are the four
   * regions: below t0, [t0, t1), [t1, t2) and from t2 up; a symbol equal to
   * a threshold falls in the higher region.
   */
  lemma Pam4OrderedRegions(s: real, t: seq<real>)
    requires |t| >= 3 && t[0] <= t[1] <= t[2]
    ensures s < t[0] ==> Pam4Decision(s, t) == Ok((0, 0))
    ensures t[0] <= s < t[1] ==> Pam4Decision(s, t) == Ok((0, 1))
    ensures t[1] <= s < t[2] ==> Pam4Decision(s, t) == Ok((1, 1))
    ensures t[2] <= s ==> Pam4Decision(s, t) == Ok((1, 0))
  {
  }

  /**
   * Unordered thresholds are not rejected: the first matching test wins, so
   * with t1 <= t0 no symbol is ever decided (0, 1).
   */
  lemma Pam4UnorderedUnreachable(s: real, t: seq<real>)
    requires |t| >= 3 && t[1] <= t[0]
    ensures Pam4Decision(s, t) != Ok((0, 1))
  {
  }

  /** The position of a PAM4 decision in the level order: (0,0), (0,1), (1,1), (1,0). */
  function Pam4Level(d: (Bit, Bit)): (k: nat)
    ensures k < 4
  {
    if d == (0, 0) then 0 else if d == (0, 1) then 1 else if d == (1, 1) then 2 else 3
  }

  /** The number of bit positions in which two decisions differ. */
  function BitsDiffer(d: (Bit, Bit), e: (Bit, Bit)): nat
  {
    (if d.0 != e.0 then 1 else 0) + (if d.1 != e.1 then 1 else 0)
  }

  /** Decisions for neighbouring PAM4 regions differ in exactly one bit (Gray coding). */
  lemma Pam4NeighboursGray(s: real, s': real, t: seq<real>)
    requires |t| >= 3
    requires Pam4Level(Pam4Decision(s, t).value) + 1 == Pam4Level(Pam4Decision(s', t).value)
    ensures BitsDiffer(Pam4Decision(s, t).value, Pam4Decision(s', t).value) == 1
  {
  }

  /** The default thresholds slice the four PAM4 levels -3, -1, 1, 3 into (0,0), (0,1), (1,1), (1,0). */
  lemma SlicerPam4Levels()
    ensures SlicerPam4([-3.0, -1.0, 1.0, 3.0], DefaultThresholds) == Ok([(0, 0), (0, 1), (1, 1), (1, 0)])
  {
    var s := [-3.0, -1.0, 1.0, 3.0];
    var r := SlicerPam4(s, DefaultThresholds);
    var expected: seq<(Bit, Bit)> := [(0, 0), (0, 1), (1, 1), (1, 0)];
    assert |r.value| == 4;
    forall i | 0 <= i < 4
      ensures r.value[i] == expected[i]
    {
      assert Pam4Decision(s[i], DefaultThresholds) == Ok(r.value[i]);
    }
    assert r.value == expected;
  }
}
