/**
  The Shannon-entropy path (`computeShannon`) and the adjacent-slice
  correlation path (`computeSSIM`): every slice of the box is flattened into
  a w * h array in flat iteration order (x fastest) and scored.
 */
module Shannon {
  import opened Geometry
  import opened Extrema
  import Correlation

  /** The pixels of slice z of box b, x fastest: index i holds (lo0 + i % w, lo1 + i / w). */
  function SliceValues(vox: (int, int, int) -> real, b: Box, z: int): (s: seq<real>)
    requires WellFormed(b)
    ensures |s| == Dim(b, 0) * Dim(b, 1)
  {
    var w, h := Dim(b, 0), Dim(b, 1);
    seq(w * h, i requires 0 <= i < w * h => vox(b.lo[0] + i % w, b.lo[1] + i / w, z))
  }

  /** Flattening loses nothing: pixel (x, y) of the slice is at index (y - lo1) * w + (x - lo0). */
  lemma SliceValuesAt(vox: (int, int, int) -> real, b: Box, z: int, x: int, y: int)
    requires WellFormed(b)
    requires b.lo[0] <= x <= b.hi[0] && b.lo[1] <= y <= b.hi[1]
    ensures var i := (y - b.lo[1]) * Dim(b, 0) + (x - b.lo[0]);
      0 <= i < |SliceValues(vox, b, z)| && SliceValues(vox, b, z)[i] == vox(x, y, z)
  {
    var w, h := Dim(b, 0), Dim(b, 1);
    var q, r := y - b.lo[1], x - b.lo[0];
    DivModOfSum(q, r, w);
    assert q * w + r < h * w by {
      MulMonotone(h, q + 1, w);
    }
  }

  /** The slice-copy loop of `computeShannon`: fill an array of length w * h from the slice's cursor. */
  method FlattenSlice(vox: (int, int, int) -> real, b: Box, z: int) returns (pixels: array<real>)
    requires WellFormed(b)
    ensures pixels[..] == SliceValues(vox, b, z)
  {
    var w, h := Dim(b, 0), Dim(b, 1);
    pixels := new real[w * h];
    for i := 0 to pixels.Length
      invariant forall j :: 0 <= j < i ==> pixels[j] == vox(b.lo[0] + j % w, b.lo[1] + j / w, z)
    {
      pixels[i] := vox(b.lo[0] + i % w, b.lo[1] + i / w, z);
    }
  }

  /** The focus measures a Shannon run can use. */
  datatype Measure = PlainEntropy | DCTEntropy | DCTEntropyMedianFiltered | DFTEntropy

  /**
    The library measures, applied to a w * h image given as its flat array:
    plain Shannon entropy and the three normalised spectral entropies.
   */
  datatype Measures = Measures(
    entropy: (int, int, seq<real>) -> real,
    dct: (int, int, seq<real>) -> real,
    dctMedianFiltered: (int, int, seq<real>) -> real,
    dft: (int, int, seq<real>) -> real)

  /** Method index 1 is plain entropy, 2 DCT, 3 median-filtered DCT, every other index DFT. */
  function SelectMeasure(methodChoice: int): (m: Measure)
    ensures m == PlainEntropy <==> methodChoice == 1
    ensures m == DCTEntropy <==> methodChoice == 2
    ensures m == DCTEntropyMedianFiltered <==> methodChoice == 3
    ensures m == DFTEntropy <==> methodChoice !in {1, 2, 3}
  {
    if methodChoice == 1 then PlainEntropy
    else if methodChoice == 2 then DCTEntropy
    else if methodChoice == 3 then DCTEntropyMedianFiltered
    else DFTEntropy
  }

  /** The value of one slice; plain entropy is negated, the library measures are used as they are. */
  function Score(ms: Measures, m: Measure, w: int, h: int, data: seq<real>): (v: real)
  {
    match m
    case PlainEntropy => -ms.entropy(w, h, data)
    case DCTEntropy => ms.dct(w, h, data)
    case DCTEntropyMedianFiltered => ms.dctMedianFiltered(w, h, data)
    case DFTEntropy => ms.dft(w, h, data)
  }

  /** The slice the source reads in iteration k: hyperslice position k, whatever the box's first slice. */
  function SourceSliceAt(b: Box, k: int): (z: int) { k }

  /** The k-th slice of the box. */
  function SliceAt(b: Box, k: int): (z: int)
    requires WellFormed(b)
    ensures 0 <= k < Dim(b, 2) ==> b.lo[2] <= z <= b.hi[2]
  {
    b.lo[2] + k
  }

  /**
    The source's iteration k reads the box's own k-th slice, for every k, only
    when the box starts at z = 0; otherwise its first iteration reads a slice
    below the box.
   */
  lemma SourceSliceIff(b: Box)
    requires WellFormed(b) && Dim(b, 2) > 0
    ensures (forall k :: 0 <= k < Dim(b, 2) ==> SourceSliceAt(b, k) == SliceAt(b, k)) <==> b.lo[2] == 0
    ensures b.lo[2] > 0 ==> SourceSliceAt(b, 0) < b.lo[2]
  {
    if b.lo[2] != 0 {
      assert SourceSliceAt(b, 0) != SliceAt(b, 0);
    }
  }

  /** An interactively chosen box over slices 3..5: the source scores slices 0, 1, 2, none of them in the box. */
  lemma SourceSlicesOutsideBox()
    ensures var b := Box([0, 0, 3], [9, 9, 5]);
      Dim(b, 2) == 3 &&
      forall k :: 0 <= k < Dim(b, 2) ==> SourceSliceAt(b, k) < b.lo[2] && SliceAt(b, k) == 3 + k
  {
  }

  /** The curve of a Shannon run: the chosen measure on every slice of the box, in increasing z. */
  function ShannonCurve(vox: (int, int, int) -> real, b: Box, m: Measure, ms: Measures): (c: seq<real>)
    requires WellFormed(b)
    ensures |c| == Dim(b, 2)
  {
    seq(Dim(b, 2), k requires 0 <= k < Dim(b, 2) =>
      Score(ms, m, Dim(b, 0), Dim(b, 1), SliceValues(vox, b, SliceAt(b, k))))
  }

  /**
    `computeShannon`: choose the measure from the method index, score every
    slice, and keep the running min (from Double.MAX_VALUE) and max (from
    -Double.MAX_VALUE) for the plot.
   */
  method ComputeShannon(vox: (int, int, int) -> real, b: Box, methodChoice: int, ms: Measures)
    returns (xs: array<int>, ys: array<real>, lo: real, hi: real)
    requires WellFormed(b)
    ensures xs.Length == Dim(b, 2) && ys.Length == Dim(b, 2)
    ensures forall k :: 0 <= k < xs.Length ==> xs[k] == b.lo[2] + k
    ensures ys[..] == ShannonCurve(vox, b, SelectMeasure(methodChoice), ms)
    ensures lo == RunningMin(ys[..], DoubleMax) && hi == RunningMax(ys[..], -DoubleMax)
  {
    var measure := SelectMeasure(methodChoice);
    var n := Dim(b, 2);
    ghost var curve := ShannonCurve(vox, b, measure, ms);
    xs := new int[n];
    ys := new real[n];
    lo, hi := DoubleMax, -DoubleMax;
    var k := 0;
    while k < n
      invariant 0 <= k <= n
      invariant forall j :: 0 <= j < k ==> xs[j] == b.lo[2] + j
      invariant ys[..k] == curve[..k]
      invariant lo == RunningMin(ys[..k], DoubleMax) && hi == RunningMax(ys[..k], -DoubleMax)
    {
      var z := SliceAt(b, k);
      var pixels := FlattenSlice(vox, b, z);
      var value := Score(ms, measure, Dim(b, 0), Dim(b, 1), pixels[..]);
      lo := Min(value, lo);
      hi := Max(value, hi);
      xs[k] := z;
      ys[k] := value;
      assert ys[..k + 1][..k] == ys[..k];
      assert ys[..k + 1] == curve[..k + 1];
      k := k + 1;
    }
    assert ys[..] == ys[..n];
  }

  /**
    The quality axis of the Shannon plot runs from min(0, running minimum) to
    the running maximum, so it shows 0 and every value of the curve.
   */
  lemma ShannonPlotCoversCurve(q: seq<real>)
    ensures Min(0.0, RunningMin(q, DoubleMax)) <= 0.0
    ensures forall k :: 0 <= k < |q| ==> Min(0.0, RunningMin(q, DoubleMax)) <= q[k] <= RunningMax(q, -DoubleMax)
  {
    RunningMinIsLeast(q, DoubleMax);
    RunningMaxIsGreatest(q, -DoubleMax);
  }

  /** The correlation of slice z with slice z + 1. */
  function PairScore(vox: (int, int, int) -> real, b: Box, z: int, sqrt: real -> real): (v: real)
    requires WellFormed(b) && Correlation.PositiveRoot(sqrt)
  {
    Correlation.Correlation(SliceValues(vox, b, z), SliceValues(vox, b, z + 1), sqrt)
  }


  /** The first n values of an SSIM run: the scores of the pairs (k, k + 1) for k < n. */
  function SSIMPrefix(vox: (int, int, int) -> real, b: Box, sqrt: real -> real, n: nat): (c: seq<real>)
    requires WellFormed(b) && Correlation.PositiveRoot(sqrt)
    ensures |c| == n
  {
    if n == 0 then [] else SSIMPrefix(vox, b, sqrt, n - 1) + [PairScore(vox, b, SliceAt(b, n - 1), sqrt)]
  }

  /** The curve of an SSIM run: one value per adjacent pair of slices of the box. */
  function SSIMCurve(vox: (int, int, int) -> real, b: Box, sqrt: real -> real): (c: seq<real>)
    requires WellFormed(b) && Dim(b, 2) >= 1 && Correlation.PositiveRoot(sqrt)
    ensures |c| == Dim(b, 2) - 1
  {
    SSIMPrefix(vox, b, sqrt, Dim(b, 2) - 1)
  }

  /** Entry k of an SSIM run is the score of slice SliceAt(b, k) against the slice after it. */
  lemma {:induction false} SSIMPrefixAt(vox: (int, int, int) -> real, b: Box, sqrt: real -> real, n: nat, k: nat)
    requires WellFormed(b) && Correlation.PositiveRoot(sqrt) && k < n
    ensures SSIMPrefix(vox, b, sqrt, n)[k] == PairScore(vox, b, SliceAt(b, k), sqrt)
  {
    if k < n - 1 {
      SSIMPrefixAt(vox, b, sqrt, n - 1, k);
    }
  }

  /** `getCorrelation` on the k-th slice of the box and the next one. */
  method ScorePair(vox: (int, int, int) -> real, b: Box, k: int, sqrt: real -> real) returns (v: real)
    requires WellFormed(b) && Correlation.PositiveRoot(sqrt) && 0 <= k < Dim(b, 2) - 1
    ensures v == PairScore(vox, b, SliceAt(b, k), sqrt)
  {
    var z := SliceAt(b, k);
    v := Correlation.GetCorrelation(SliceValues(vox, b, z), SliceValues(vox, b, z + 1), sqrt);
  }

  /**
    `computeSSIM`: the correlation of every pair of adjacent slices (k, k + 1),
    so one value fewer than there are slices. The running minimum is replaced
    by the constant 0.8 in every iteration.
   */
  method ComputeSSIM(vox: (int, int, int) -> real, b: Box, sqrt: real -> real)
    returns (xs: array<int>, ys: array<real>, lo: real, hi: real)
    requires WellFormed(b) && Dim(b, 2) >= 1 && Correlation.PositiveRoot(sqrt)
    ensures xs.Length == Dim(b, 2) - 1
    ensures forall k :: 0 <= k < xs.Length ==> xs[k] == b.lo[2] + k
    ensures ys[..] == SSIMCurve(vox, b, sqrt)
    ensures lo == (if Dim(b, 2) >= 2 then 0.8 else DoubleMax)
    ensures hi == RunningMax(ys[..], -DoubleMax)
  {
    var n := Dim(b, 2) - 1;
    xs := new int[n];
    ys := new real[n];
    lo, hi := DoubleMax, -DoubleMax;
    ghost var values: seq<real> := [];
    for k := 0 to n
      invariant values == SSIMPrefix(vox, b, sqrt, k)
      invariant ys[..k] == values
      invariant forall j :: 0 <= j < k ==> xs[j] == b.lo[2] + j
      invariant lo == (if k >= 1 then 0.8 else DoubleMax)
      invariant hi == RunningMax(values, -DoubleMax)
    {
      var z := SliceAt(b, k);
      var value := ScorePair(vox, b, k, sqrt);
      RunningStep(values, value, -DoubleMax);
      lo := 0.8;
      hi := Max(value, hi);
      xs[k] := z;
      ys[k] := value;
      values := values + [value];
      assert ys[..k + 1] == ys[..k] + [value];
    }
    assert ys[..] == ys[..n];
  }
}
