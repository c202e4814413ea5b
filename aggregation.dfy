/**
  The per-slice curve of `computeRFRC` (second loop): for every z of the
  analysed box, the nearest-neighbour rFRC value at every tile centre, their
  median, and the running min and max of the medians.
 */
module Aggregation {
  import opened Geometry
  import opened Extrema
  import Sampling

  /** The values looked up at every tile centre on slice z, in tile order. */
  function TileValues(tiles: seq<Tile>, nearest: (int, int, int) -> real, z: int): (v: seq<real>)
    ensures |v| == |tiles|
  {
    seq(|tiles|, i requires 0 <= i < |tiles| => nearest(tiles[i].x, tiles[i].y, z))
  }

  /** The curve: one median per slice z = lo .. lo + n - 1, in increasing z. */
  function MedianCurve(tiles: seq<Tile>, nearest: (int, int, int) -> real, median: seq<real> -> real, lo: int, n: nat)
    : (c: seq<real>)
    ensures |c| == n
  {
    seq(n, k requires 0 <= k < n => median(TileValues(tiles, nearest, lo + k)))
  }

  /** The array index the source writes slice z to: z itself. */
  function SourceSlot(b: Box, z: int): (k: int) { z }

  /** The array index the curve of slice z belongs at: its offset from the box's first slice. */
  function Slot(b: Box, z: int): (k: int)
    requires |b.lo| == 3 && |b.hi| == 3
    ensures b.lo[2] <= z <= b.hi[2] ==> 0 <= k < Dim(b, 2)
  {
    z - b.lo[2]
  }

  /**
    The source's index z fits arrays of length dimension(2) for every slice of
    the box exactly when the box starts at z = 0; both indexings then agree.
   */
  lemma SourceSlotFitsIff(b: Box)
    requires WellFormed(b) && Dim(b, 2) > 0
    ensures (forall z :: b.lo[2] <= z <= b.hi[2] ==> 0 <= SourceSlot(b, z) < Dim(b, 2)) <==> b.lo[2] == 0
    ensures b.lo[2] == 0 ==> forall z :: SourceSlot(b, z) == Slot(b, z)
  {
    if b.lo[2] != 0 {
      if b.lo[2] < 0 {
        assert !(0 <= SourceSlot(b, b.lo[2]));
      } else {
        assert !(SourceSlot(b, b.hi[2]) < Dim(b, 2));
      }
    }
  }

  /** An interactively chosen box over slices 1..5: the source writes slice 5 to index 5 of a 5-element array. */
  lemma SourceSlotOutOfBounds()
    ensures var b := Box([0, 0, 1], [9, 9, 5]);
      b.lo[2] <= 5 <= b.hi[2] && SourceSlot(b, 5) >= Dim(b, 2) && Slot(b, 5) == 4
  {
  }

  /** The inner loop: look up the value nearest to every tile centre on slice z. */
  method SampleTiles(tiles: seq<Tile>, nearest: (int, int, int) -> real, z: int) returns (values: array<real>)
    ensures values[..] == TileValues(tiles, nearest, z)
  {
    values := new real[|tiles|];
    var i := 0;
    while i < |tiles|
      invariant 0 <= i <= |tiles|
      invariant forall j :: 0 <= j < i ==> values[j] == nearest(tiles[j].x, tiles[j].y, z)
    {
      values[i] := nearest(tiles[i].x, tiles[i].y, z);
      i := i + 1;
    }
  }

  /**
    The curve loop of `computeRFRC` over z = min(2) .. max(2), writing slice z
    at Slot(b, z). `minMedian` starts at Double.MAX_VALUE and `maxMedian` at 0.
   */
  method ComputeCurve(tiles: seq<Tile>, b: Box, nearest: (int, int, int) -> real, median: seq<real> -> real)
    returns (xs: array<int>, ys: array<real>, minMedian: real, maxMedian: real)
    requires WellFormed(b)
    ensures xs.Length == Dim(b, 2) && ys.Length == Dim(b, 2)
    ensures forall k :: 0 <= k < xs.Length ==> xs[k] == b.lo[2] + k
    ensures ys[..] == MedianCurve(tiles, nearest, median, b.lo[2], Dim(b, 2))
    ensures minMedian == RunningMin(ys[..], DoubleMax) && maxMedian == RunningMax(ys[..], 0.0)
  {
    var n := Dim(b, 2);
    xs := new int[n];
    ys := new real[n];
    maxMedian := 0.0;
    minMedian := DoubleMax;
    ghost var curve := MedianCurve(tiles, nearest, median, b.lo[2], n);
    var z := b.lo[2];
    while z <= b.hi[2]
      invariant b.lo[2] <= z <= b.hi[2] + 1
      invariant forall k :: 0 <= k < z - b.lo[2] ==> xs[k] == b.lo[2] + k
      invariant ys[..z - b.lo[2]] == curve[..z - b.lo[2]]
      invariant minMedian == RunningMin(ys[..z - b.lo[2]], DoubleMax)
      invariant maxMedian == RunningMax(ys[..z - b.lo[2]], 0.0)
      decreases b.hi[2] - z
    {
      var values := SampleTiles(tiles, nearest, z);
      var med := median(values[..]);
      minMedian := Min(med, minMedian);
      maxMedian := Max(med, maxMedian);
      var k := Slot(b, z);
      xs[k] := z;
      ys[k] := med;
      assert ys[..k + 1][..k] == ys[..k];
      assert ys[..k + 1] == curve[..k + 1];
      z := z + 1;
    }
    assert ys[..] == ys[..n];
  }

  /**
    The curve has one entry per slice in strictly increasing z; minMedian is
    at most, and maxMedian at least, every median, and maxMedian is never
    negative because it starts at 0.
   */
  lemma CurveBounds(ys: seq<real>, minMedian: real, maxMedian: real)
    requires minMedian == RunningMin(ys, DoubleMax) && maxMedian == RunningMax(ys, 0.0)
    ensures forall k :: 0 <= k < |ys| ==> minMedian <= ys[k] <= maxMedian
    ensures maxMedian >= 0.0 && minMedian <= DoubleMax
    ensures maxMedian == 0.0 || maxMedian in ys
  {
    RunningMinIsLeast(ys, DoubleMax);
    RunningMaxIsGreatest(ys, 0.0);
  }

  /**
    `computeRFRC`: generate the sample locations, let the rFRC scorer and
    nearest-neighbour search built over them (`search`) answer for every
    tile centre and slice, and aggregate the medians into the curve.
   */
  method ComputeRFRC(
    tiles: seq<Tile>, b: Box, zStepSize: int, rFRCDist: int,
    search: seq<Point> -> (int, int, int) -> real, median: seq<real> -> real)
    returns (locations: seq<Point>, xs: array<int>, ys: array<real>, minMedian: real, maxMedian: real)
    requires WellFormed(b) && zStepSize > 0
    ensures locations == Sampling.Locations(tiles, rFRCDist,
      Sampling.ZCount(rFRCDist, Dim(b, 2) - rFRCDist, zStepSize), zStepSize)
    ensures xs.Length == Dim(b, 2) && ys.Length == Dim(b, 2)
    ensures forall k :: 0 <= k < xs.Length ==> xs[k] == b.lo[2] + k
    ensures ys[..] == MedianCurve(tiles, search(locations), median, b.lo[2], Dim(b, 2))
    ensures minMedian == RunningMin(ys[..], DoubleMax) && maxMedian == RunningMax(ys[..], 0.0)
  {
    locations := Sampling.GenerateLocations(tiles, Dim(b, 2), rFRCDist, zStepSize);
    xs, ys, minMedian, maxMedian := ComputeCurve(tiles, b, search(locations), median);
  }
}
