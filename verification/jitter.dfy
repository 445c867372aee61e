/**
 * Duty-cycle distortion from tx/jitter.py: every other edge time (the
 * odd-indexed ones) is pushed later by a fixed offset.
 */
module Jitter {

  /** The edge times after duty-cycle distortion: odd-indexed edges moved by dcd, the others kept. */
  function DcdShifted(edges: seq<real>, dcd: real): (r: seq<real>)
    ensures |r| == |edges|
  {
    seq(|edges|, i requires 0 <= i < |edges| => if i % 2 == 1 then edges[i] + dcd else edges[i])
  }

  /**
   * add_dcd: copies the edge times into a fresh array and adds dcd to
   * arr[1::2] in place; the caller's sequence is a value and stays as it was.
   */
  method AddDcd(edges: seq<real>, dcd: real) returns (r: seq<real>)
    ensures |r| == |edges|
    ensures forall i :: 0 <= i < |edges| && i % 2 == 0 ==> r[i] == edges[i]
    ensures forall i :: 0 <= i < |edges| && i % 2 == 1 ==> r[i] == edges[i] + dcd
    ensures r == DcdShifted(edges, dcd)
  {
    var arr := new real[|edges|](i requires 0 <= i < |edges| => edges[i]);
    var i := 1;
    while i < arr.Length
      invariant 1 <= i && (i % 2 == 1)
      invariant i <= arr.Length + 1
      invariant forall k :: 0 <= k < arr.Length ==>
                  arr[k] == (if k % 2 == 1 && k < i then edges[k] + dcd else edges[k])
      decreases arr.Length - i
    {
      arr[i] := arr[i] + dcd;
      i := i + 2;
    }
    r := arr[..];
  }

  /** Shifting by dcd and then by -dcd gives the original edge times back. */
  lemma DcdRoundTrip(edges: seq<real>, dcd: real)
    ensures DcdShifted(DcdShifted(edges, dcd), -dcd) == edges
  {
  }

  /** Two shifts add up: shifting by a and then by b is shifting by a + b. */
  lemma DcdCompose(edges: seq<real>, a: real, b: real)
    ensures DcdShifted(DcdShifted(edges, a), b) == DcdShifted(edges, a + b)
  {
  }

  /** Every odd-indexed gap from the previous edge grows by dcd and every even-indexed one shrinks by it. */
  lemma DcdGaps(edges: seq<real>, dcd: real)
    ensures forall i :: 1 <= i < |edges| ==>
              DcdShifted(edges, dcd)[i] - DcdShifted(edges, dcd)[i - 1] ==
              edges[i] - edges[i - 1] + (if i % 2 == 1 then dcd else -dcd)
  {
  }
}
