/**
 * The symbol mappers of tx/mapping.py: NRZ maps each bit to -1 or +1, PAM4
 * maps each consecutive pair of bits to a Gray-coded level in {-3, -1, 1, 3}.
 */
module Mapping {
  import opened Common
  import opened Slicer

  /** map_nrz: +1 for a truthy (non-zero) bit, -1 otherwise, one symbol per bit. */
  function MapNrz(bits: seq<int>): (r: seq<int>)
    ensures |r| == |bits|
    ensures forall i :: 0 <= i < |bits| ==> (r[i] == 1 <==> bits[i] != 0) && (r[i] == 1 || r[i] == -1)
  {
    seq(|bits|, i requires 0 <= i < |bits| => if bits[i] != 0 then 1 else -1)
  }

  /** Integer symbols read as reals, as numpy does when a slicer compares them with a float threshold. */
  function ToReals(s: seq<int>): (r: seq<real>)
    ensures |r| == |s|
    ensures forall i :: 0 <= i < |s| ==> r[i] == s[i] as real
  {
    seq(|s|, i requires 0 <= i < |s| => s[i] as real)
  }

  /** Slicing the NRZ symbols of 0/1 bits at threshold 0 gives the bits back. */
  lemma NrzRoundTrip(bits: seq<Bit>)
    ensures SlicerNrz(ToReals(MapNrz(bits)), 0.0) == bits
  {
    var r := SlicerNrz(ToReals(MapNrz(bits)), 0.0);
    assert forall i :: 0 <= i < |bits| ==> r[i] == bits[i];
  }

  /** The Gray table: (0,0) -> -3, (0,1) -> -1, (1,1) -> 1, (1,0) -> 3; any other pair is not a key. */
  function GrayLevel(a: int, b: int): (r: Option<int>)
    ensures r.Some? <==> (a == 0 || a == 1) && (b == 0 || b == 1)
  {
    if a == 0 && b == 0 then Some(-3)
    else if a == 0 && b == 1 then Some(-1)
    else if a == 1 && b == 1 then Some(1)
    else if a == 1 && b == 0 then Some(3)
    else None
  }

  /** The table entry for the k-th pair of bits. */
  function PairLevel(bits: seq<int>, k: nat): Option<int>
    requires 2 * k + 1 < |bits|
  {
    GrayLevel(bits[2 * k], bits[2 * k + 1])
  }

  /**
   * The PAM4 symbols of a bit list, pair by pair from the front: an odd
   * final bit raises IndexError, a pair outside the table raises KeyError,
   * and the first failing pair decides which.
   */
  function Pam4Symbols(bits: seq<int>): (r: Result<seq<int>>)
    ensures r.Err? ==> r.error == IndexError || r.error == KeyError
    decreases |bits|
  {
    if |bits| == 0 then Ok([])
    else if |bits| == 1 then Err(IndexError)
    else
      match GrayLevel(bits[0], bits[1])
      case None => Err(KeyError)
      case Some(v) =>
        match Pam4Symbols(bits[2..])
        case Err(e) => Err(e)
        case Ok(tail) => Ok([v] + tail)
  }

  /**
   * map_pam4 succeeds exactly on an even number of bits whose every pair is
   * in the table, and then gives one symbol per pair, the pair's table entry.
   */
  lemma {:induction false} Pam4SymbolsMeaning(bits: seq<int>)
    ensures Pam4Symbols(bits).Ok? <==> |bits| % 2 == 0 && forall k :: 0 <= k < |bits| / 2 ==> PairLevel(bits, k).Some?
    ensures Pam4Symbols(bits).Ok? ==> |Pam4Symbols(bits).value| == |bits| / 2
    ensures Pam4Symbols(bits).Ok? ==>
      forall k :: 0 <= k < |bits| / 2 ==> PairLevel(bits, k) == Some(Pam4Symbols(bits).value[k])
    decreases |bits|
  {
    if |bits| >= 2 {
      var rest := bits[2..];
      Pam4SymbolsMeaning(rest);
      assert forall k :: 1 <= k < |bits| / 2 ==> PairLevel(bits, k) == PairLevel(rest, k - 1);
      if GrayLevel(bits[0], bits[1]).None? {
        assert !PairLevel(bits, 0).Some?;
      } else if Pam4Symbols(rest).Err? && |bits| % 2 == 0 {
        var k' :| 0 <= k' < |rest| / 2 && !PairLevel(rest, k').Some?;
        assert !PairLevel(bits, k' + 1).Some?;
      }
    }
  }

  /** Odd-length input with every complete pair in the table raises IndexError. */
  lemma Pam4OddLength(bits: seq<Bit>)
    requires |bits| % 2 == 1
    ensures Pam4Symbols(bits) == Err(IndexError)
    decreases |bits|
  {
    if |bits| > 1 {
      Pam4OddLength(bits[2..]);
    }
  }

  /** The bits taken two at a time. */
  function BitPairs(bits: seq<Bit>): (r: seq<(Bit, Bit)>)
    requires |bits| % 2 == 0
    ensures |r| == |bits| / 2
    decreases |bits|
  {
    if |bits| == 0 then [] else [(bits[0], bits[1])] + BitPairs(bits[2..])
  }

  /** Symbols and the result of a PAM4 decision. */
  function Prepend<T>(prefix: seq<T>, r: Result<seq<T>>): Result<seq<T>>
  {
    match r
    case Ok(s) => Ok(prefix + s)
    case Err(e) => Err(e)
  }

  /**
   * Slicing the PAM4 symbols of an even number of 0/1 bits with the default
   * thresholds (-2, 0, 2) gives back every pair of bits.
   */
  lemma {:induction false} Pam4RoundTrip(bits: seq<Bit>)
    requires |bits| % 2 == 0
    ensures Pam4Symbols(bits).Ok?
    ensures SlicerPam4(ToReals(Pam4Symbols(bits).value), DefaultThresholds) == Ok(BitPairs(bits))
    decreases |bits|
  {
    if |bits| > 0 {
      Pam4RoundTrip(bits[2..]);
      var v := GrayLevel(bits[0], bits[1]).value;
      var tail := Pam4Symbols(bits[2..]).value;
      var syms := ToReals(Pam4Symbols(bits).value);
      assert Pam4Symbols(bits).value == [v] + tail;
      assert syms[1..] == ToReals(tail);
      assert Pam4Decision(syms[0], DefaultThresholds) == Ok((bits[0], bits[1]));
    }
  }

  /** One step of the pair walk: a pair in the table contributes its level in front of the rest. */
  lemma Pam4Step(bits: seq<int>, i: nat)
    requires i + 1 < |bits| && GrayLevel(bits[i], bits[i + 1]).Some?
    ensures Pam4Symbols(bits[i..]) == Prepend([GrayLevel(bits[i], bits[i + 1]).value], Pam4Symbols(bits[i + 2..]))
  {
    var b := bits[i..];
    assert b[0] == bits[i] && b[1] == bits[i + 1];
    assert b[2..] == bits[i + 2..];
  }

  /** Prepending two prefixes in turn prepends their concatenation. */
  lemma PrependTwice<T>(p: seq<T>, q: seq<T>, r: Result<seq<T>>)
    ensures Prepend(p, Prepend(q, r)) == Prepend(p + q, r)
  {
    if r.Ok? {
      assert p + (q + r.value) == (p + q) + r.value;
    }
  }

  /**
   * map_pam4: walks the bits two at a time, appending the table entry of
   * each pair and stopping at the first pair that raises.
   */
  method MapPam4(bits: seq<int>) returns (r: Result<seq<int>>)
    ensures r == Pam4Symbols(bits)
  {
    var symbols: seq<int> := [];
    var i := 0;
    assert bits[i..] == bits;
    if Pam4Symbols(bits).Ok? {
      assert symbols + Pam4Symbols(bits).value == Pam4Symbols(bits).value;
    }
    while i < |bits|
      invariant 0 <= i <= |bits| && i % 2 == 0
      invariant Pam4Symbols(bits) == Prepend(symbols, Pam4Symbols(bits[i..]))
      decreases |bits| - i
    {
      if i + 1 >= |bits| {
        assert |bits[i..]| == 1;
        assert Pam4Symbols(bits[i..]) == Err(IndexError);
        return Err(IndexError);
      }
      var level := GrayLevel(bits[i], bits[i + 1]);
      if level.None? {
        assert bits[i..][0] == bits[i] && bits[i..][1] == bits[i + 1];
        assert Pam4Symbols(bits[i..]) == Err(KeyError);
        return Err(KeyError);
      }
      Pam4Step(bits, i);
      PrependTwice(symbols, [level.value], Pam4Symbols(bits[i + 2..]));
      symbols := symbols + [level.value];
      i := i + 2;
    }
    assert bits[i..] == [];
    assert Pam4Symbols(bits[i..]) == Ok([]);
    assert symbols + [] == symbols;
    r := Ok(symbols);
  }
}
