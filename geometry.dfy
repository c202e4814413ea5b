/**
  Integer geometry of the analysed volume: 3D boxes (imglib2 intervals with
  inclusive min and max per axis), XY tile centres and sample locations.
 */
module Geometry {

  /** An axis-aligned integer box, `lo[d]..hi[d]` inclusive on every axis d. */
  datatype Box = Box(lo: seq<int>, hi: seq<int>)

  /** A tile centre in the XY plane, as produced by the tile distributor. */
  datatype Tile = Tile(x: int, y: int)

  /** A location (x, y, z) at which a quality value is computed. */
  datatype Point = Point(x: int, y: int, z: int)

  /** A three-dimensional box whose extent on every axis is at least zero. */
  predicate WellFormed(b: Box) {
    |b.lo| == 3 && |b.hi| == 3 &&
    b.lo[0] <= b.hi[0] + 1 && b.lo[1] <= b.hi[1] + 1 && b.lo[2] <= b.hi[2] + 1
  }

  /** Number of integer positions on axis d (imglib2's dimension(d)). */
  function Dim(b: Box, d: nat): (n: int)
    requires d < |b.lo| && d < |b.hi|
    ensures WellFormed(b) ==> n >= 0
  {
    b.hi[d] - b.lo[d] + 1
  }

  /** Splitting `q * w + r` by `w` gives back the quotient and remainder. */
  lemma DivModOfSum(q: int, r: int, w: int)
    requires w > 0 && 0 <= r < w
    ensures (q * w + r) / w == q && (q * w + r) % w == r
  {
    var n := q * w + r;
    var d := n / w - q;
    assert n == (n / w) * w + n % w;
    assert d * w == r - n % w by {
      assert (n / w) * w == (d + q) * w == d * w + q * w;
    }
    if d > 0 {
      assert d * w >= w by { MulMonotone(d, 1, w); }
      assert false;
    } else if d < 0 {
      assert -d * w >= w by { MulMonotone(-d, 1, w); }
      assert false;
    }
  }

  lemma MulMonotone(a: int, b: int, w: int)
    requires a >= b && w >= 0
    ensures a * w >= b * w
  {
    assert a * w - b * w == (a - b) * w;
  }
}
