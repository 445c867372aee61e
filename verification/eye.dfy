/**
 * The eye-diagram metrics of metrics/eye.py: folding a waveform into one
 * row per symbol, and the bathtub curve, the fraction of rows whose
 * centre sample lies within 0.5 of each decision threshold.
 */
module Eye {
  import opened Common

  /** A two-dimensional array of shape (|rows|, width); an array with no rows still has a width. */
  datatype EyeDiagram = EyeDiagram(rows: seq<seq<real>>, width: nat)
  {
    /** Every row has the array's width. */
    predicate Valid()
    {
      forall r :: 0 <= r < |rows| ==> |rows[r]| == width
    }
  }

  /**
   * The whole symbols of a waveform, sps samples each, in order; a tail
   * shorter than sps is dropped.
   */
  function Chunks(w: seq<real>, sps: nat): (rows: seq<seq<real>>)
    requires sps >= 1
    ensures |rows| == |w| / sps
    ensures forall r :: 0 <= r < |rows| ==> |rows[r]| == sps
    decreases |w|
  {
    if |w| < sps then []
    else
      DivAddDivisor(|w| - sps, sps);
      [w[..sps]] + Chunks(w[sps..], sps)
  }

  /** Sample j of row i of the chunks is sample i * sps + j of the waveform. */
  lemma {:induction false} ChunksAt(w: seq<real>, sps: nat, i: nat, j: nat)
    requires sps >= 1 && i < |Chunks(w, sps)| && j < sps
    ensures i * sps + j < |w| && Chunks(w, sps)[i][j] == w[i * sps + j]
    decreases i
  {
    if i > 0 {
      var t := w[sps..];
      assert Chunks(w, sps) == [w[..sps]] + Chunks(t, sps);
      ChunksAt(t, sps, i - 1, j);
      RowOffset(i, sps, j);
    }
  }

  /** Row i - 1 of the remainder after one symbol is row i of the whole. */
  lemma RowOffset(i: int, sps: int, j: int)
    ensures sps + ((i - 1) * sps + j) == i * sps + j
  {
  }

  /**
   * fold_to_eye: n = len // sps whole symbols, reshaped to (n, sps).
   * sps = 0 makes the floor division raise ZeroDivisionError; a negative
   * sps is a negative dimension for reshape, which raises ValueError.
   */
  function FoldToEye(w: seq<real>, sps: int): (r: Result<EyeDiagram>)
    ensures r.Err? <==> sps <= 0
    ensures r.Err? ==> r.error == (if sps == 0 then ZeroDivisionError else ValueError)
    ensures r.Ok? ==> r.value.Valid() && r.value.width == sps && |r.value.rows| == |w| / sps
  {
    if sps == 0 then Err(ZeroDivisionError)
    else if sps < 0 then Err(ValueError)
    else Ok(EyeDiagram(Chunks(w, sps), sps))
  }

  /** Row i, column j of the eye is the waveform's sample i * sps + j: symbol i, phase j. */
  lemma FoldToEyeAt(w: seq<real>, sps: int, i: nat, j: nat)
    requires sps >= 1 && i < |w| / sps && j < sps
    ensures i * sps + j < |w| && FoldToEye(w, sps).value.rows[i][j] == w[i * sps + j]
  {
    assert |Chunks(w, sps)| == |w| / sps;
    ChunksAt(w, sps, i, j);
  }

  /** The rows of an array laid end to end (the inverse of reshape). */
  function Flatten(rows: seq<seq<real>>): (f: seq<real>)
    decreases |rows|
  {
    if |rows| == 0 then [] else rows[0] + Flatten(rows[1..])
  }

  /** Laying the chunks end to end gives the first (len // sps) * sps samples back. */
  lemma {:induction false} FlattenChunks(w: seq<real>, sps: nat)
    requires sps >= 1
    ensures |w| / sps * sps <= |w|
    ensures Flatten(Chunks(w, sps)) == w[..|w| / sps * sps]
    decreases |w|
  {
    MulLeIffLeDiv(|w| / sps, sps, |w|);
    if |w| < sps {
      assert |w| / sps == 0;
    } else {
      var t := w[sps..];
      FlattenChunks(t, sps);
      QuotientStep(|w|, sps);
      var m := |t| / sps * sps;
      assert Chunks(w, sps) == [w[..sps]] + Chunks(t, sps);
      assert w[..sps] + t[..m] == w[..sps + m];
    }
  }

  /** Removing one divisor's worth from the dividend removes it from the rounded-down multiple. */
  lemma QuotientStep(x: int, k: int)
    requires x >= k >= 1
    ensures x / k * k == (x - k) / k * k + k
  {
    DivAddDivisor(x - k, k);
    assert (x - k) / k + 1 == x / k;
  }

  /**
   * Folding loses only the incomplete symbol at the end: flattening the
   * eye gives the first (len // sps) * sps samples, and the whole waveform
   * when its length is a multiple of sps.
   */
  lemma FoldFlatten(w: seq<real>, sps: int)
    requires sps >= 1
    ensures Flatten(FoldToEye(w, sps).value.rows) == w[..|w| / sps * sps]
    ensures |w| % sps == 0 ==> Flatten(FoldToEye(w, sps).value.rows) == w
  {
    FlattenChunks(w, sps);
    assert |w| / sps * sps + |w| % sps == |w|;
  }

  /** Column c of the array, eye[:, c]. */
  function Column(eye: EyeDiagram, c: nat): (col: seq<real>)
    requires eye.Valid() && c < eye.width
    ensures |col| == |eye.rows|
    ensures forall k :: 0 <= k < |col| ==> col[k] == eye.rows[k][c]
  {
    seq(|eye.rows|, k requires 0 <= k < |eye.rows| => eye.rows[k][c])
  }

  /** np.sum(np.abs(col - th) < 0.5): the number of samples within 0.5 of th. */
  function CountNear(col: seq<real>, th: real): (n: nat)
    ensures n <= |col|
    decreases |col|
  {
    if |col| == 0 then 0
    else CountNear(col[..|col| - 1], th) + (if Abs(col[|col| - 1] - th) < 0.5 then 1 else 0)
  }

  /** Every sample within 0.5 of th is counted. */
  lemma {:induction false} CountNearAll(col: seq<real>, th: real)
    requires forall k :: 0 <= k < |col| ==> Abs(col[k] - th) < 0.5
    ensures CountNear(col, th) == |col|
    decreases |col|
  {
    if |col| > 0 {
      CountNearAll(col[..|col| - 1], th);
    }
  }

  /** No sample at 0.5 or more from th is counted. */
  lemma {:induction false} CountNearNone(col: seq<real>, th: real)
    requires forall k :: 0 <= k < |col| ==> Abs(col[k] - th) >= 0.5
    ensures CountNear(col, th) == 0
    decreases |col|
  {
    if |col| > 0 {
      CountNearNone(col[..|col| - 1], th);
    }
  }

  /**
   * The eye opening at one threshold: the fraction of rows whose centre
   * sample (column width // 2) lies strictly within 0.5 of the threshold.
   */
  function Opening(eye: EyeDiagram, th: real): (o: real)
    requires eye.Valid() && eye.width >= 1 && |eye.rows| >= 1
    ensures 0.0 <= o <= 1.0
  {
    var n := CountNear(Column(eye, eye.width / 2), th);
    FractionInUnit(n as real, |eye.rows| as real);
    n as real / |eye.rows| as real
  }

  /**
   * bathtub_curve: one opening per threshold, in order. Indexing the
   * centre column of an array of width 0 raises IndexError on the first
   * threshold; with no thresholds nothing is indexed.
   */
  method BathtubCurve(eye: EyeDiagram, thresholds: seq<real>) returns (r: Result<seq<real>>)
    requires eye.Valid()
    requires |thresholds| == 0 || eye.width == 0 || |eye.rows| >= 1
    ensures r.Err? <==> |thresholds| >= 1 && eye.width == 0
    ensures r.Err? ==> r.error == IndexError
    ensures r.Ok? ==> |r.value| == |thresholds|
    ensures r.Ok? ==> forall k :: 0 <= k < |thresholds| ==> r.value[k] == Opening(eye, thresholds[k])
  {
    var openings: seq<real> := [];
    var center := eye.width / 2;
    var i := 0;
    while i < |thresholds|
      invariant 0 <= i <= |thresholds|
      invariant i >= 1 ==> eye.width >= 1
      invariant |openings| == i
      invariant forall k :: 0 <= k < i ==> openings[k] == Opening(eye, thresholds[k])
    {
      if center >= eye.width {
        return Err(IndexError);
      }
      var opening := CountNear(Column(eye, center), thresholds[i]) as real / |eye.rows| as real;
      openings := openings + [opening];
      i := i + 1;
    }
    return Ok(openings);
  }

  /** A threshold that every centre sample sits on opens the eye fully. */
  lemma OpeningAtCommonLevel(eye: EyeDiagram, v: real)
    requires eye.Valid() && eye.width >= 1 && |eye.rows| >= 1
    requires forall k :: 0 <= k < |eye.rows| ==> eye.rows[k][eye.width / 2] == v
    ensures Opening(eye, v) == 1.0
  {
    CountNearAll(Column(eye, eye.width / 2), v);
  }

  /** A threshold at least 0.5 away from every centre sample sees a closed eye. */
  lemma OpeningFarThreshold(eye: EyeDiagram, th: real)
    requires eye.Valid() && eye.width >= 1 && |eye.rows| >= 1
    requires forall k :: 0 <= k < |eye.rows| ==> Abs(eye.rows[k][eye.width / 2] - th) >= 0.5
    ensures Opening(eye, th) == 0.0
  {
    CountNearNone(Column(eye, eye.width / 2), th);
  }
}
