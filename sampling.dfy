/**
  Where rFRC values are computed (`computeRFRC`, first loop): for every depth
  z = rFRCDist, rFRCDist + zStepSize, ... below depth - rFRCDist, and for
  every tile centre in order, one location (x, y, z).
 */
module Sampling {
  import opened Geometry

  /** Number of depths z0, z0 + step, ... strictly below hi. */
  function ZCount(z0: int, hi: int, step: int): (n: nat)
    requires step > 0
    decreases hi - z0
  {
    if z0 >= hi then 0 else 1 + ZCount(z0 + step, hi, step)
  }

  /** The t-th sampled depth. */
  function GridZ(z0: int, t: int, step: int): (z: int) { z0 + t * step }

  /** One location per tile at depth z, in tile order. */
  function Row(tiles: seq<Tile>, z: int): (r: seq<Point>)
    ensures |r| == |tiles|
  {
    seq(|tiles|, i requires 0 <= i < |tiles| => Point(tiles[i].x, tiles[i].y, z))
  }

  /** The locations of the first k sampled depths, depth-major and tile-minor. */
  function Locations(tiles: seq<Tile>, z0: int, k: nat, step: int): (locs: seq<Point>)
  {
    if k == 0 then [] else Locations(tiles, z0, k - 1, step) + Row(tiles, GridZ(z0, k - 1, step))
  }

  /** The sampled depths are exactly z0 + t * step for t below the count; the count is the least that reaches hi. */
  lemma {:induction false} ZCountBounds(z0: int, hi: int, step: int)
    requires step > 0
    ensures z0 >= hi ==> ZCount(z0, hi, step) == 0
    ensures z0 < hi ==>
      GridZ(z0, ZCount(z0, hi, step) - 1, step) < hi <= GridZ(z0, ZCount(z0, hi, step), step)
    decreases hi - z0
  {
    if z0 < hi {
      var m := ZCount(z0 + step, hi, step);
      ZCountBounds(z0 + step, hi, step);
      if z0 + step < hi {
        assert GridZ(z0 + step, m - 1, step) == GridZ(z0, m, step);
        assert GridZ(z0 + step, m, step) == GridZ(z0, m + 1, step);
      }
    }
  }

  lemma {:induction false} LocationsLength(tiles: seq<Tile>, z0: int, k: nat, step: int)
    ensures |Locations(tiles, z0, k, step)| == k * |tiles|
  {
    if k > 0 {
      LocationsLength(tiles, z0, k - 1, step);
      assert (k - 1) * |tiles| + |tiles| == k * |tiles|;
    }
  }

  /** Location number t * |tiles| + i is tile i at the t-th sampled depth. */
  lemma {:induction false} LocationsAt(tiles: seq<Tile>, z0: int, k: nat, step: int, t: nat, i: nat)
    requires t < k && i < |tiles|
    ensures t * |tiles| + i < |Locations(tiles, z0, k, step)|
    ensures Locations(tiles, z0, k, step)[t * |tiles| + i] == Point(tiles[i].x, tiles[i].y, GridZ(z0, t, step))
  {
    var n := |tiles|;
    LocationsLength(tiles, z0, k - 1, step);
    LocationsLength(tiles, z0, k, step);
    var prefix := Locations(tiles, z0, k - 1, step);
    if t == k - 1 {
      assert t * n + i == |prefix| + i;
    } else {
      LocationsAt(tiles, z0, k - 1, step, t, i);
      assert t * n + i < (t + 1) * n <= (k - 1) * n by {
        MulMonotone(k - 1, t + 1, n);
      }
    }
  }

  /** The location stands on one of the tile centres. */
  predicate OnTile(tiles: seq<Tile>, p: Point) {
    exists i :: 0 <= i < |tiles| && tiles[i] == Tile(p.x, p.y)
  }

  /** The depth is one of the first k sampled depths. */
  predicate OnGrid(z0: int, k: nat, step: int, z: int) {
    exists t :: 0 <= t < k && z == GridZ(z0, t, step)
  }

  /** A location is among the first k rows if and only if it sits on a tile centre at one of their depths. */
  lemma {:induction false} LocationsMembers(tiles: seq<Tile>, z0: int, k: nat, step: int, p: Point)
    ensures p in Locations(tiles, z0, k, step) <==> OnTile(tiles, p) && OnGrid(z0, k, step, p.z)
  {
    if k > 0 {
      LocationsMembers(tiles, z0, k - 1, step, p);
      var row := Row(tiles, GridZ(z0, k - 1, step));
      if p in row {
        var i :| 0 <= i < |row| && row[i] == p;
        assert tiles[i] == Tile(p.x, p.y);
      }
      if OnTile(tiles, p) && p.z == GridZ(z0, k - 1, step) {
        var i :| 0 <= i < |tiles| && tiles[i] == Tile(p.x, p.y);
        assert row[i] == p;
      }
    }
  }

  /** On the grid of ZCount(z0, hi, step) depths: exactly the z in [z0, hi) with z - z0 divisible by step. */
  lemma OnGridIff(z0: int, hi: int, step: int, z: int)
    requires step > 0
    ensures OnGrid(z0, ZCount(z0, hi, step), step, z) <==> z0 <= z < hi && (z - z0) % step == 0
  {
    var n := ZCount(z0, hi, step);
    ZCountBounds(z0, hi, step);
    if OnGrid(z0, n, step, z) {
      var t :| 0 <= t < n && z == GridZ(z0, t, step);
      DivModOfSum(t, 0, step);
      MulMonotone(n - 1, t, step);
    }
    if z0 <= z < hi && (z - z0) % step == 0 {
      var t := (z - z0) / step;
      assert z - z0 == t * step;
      assert t >= 0 by {
        if t < 0 { MulMonotone(-1, t, step); }
      }
      if t >= n {
        MulMonotone(t, n, step);
        assert false;
      }
      assert z == GridZ(z0, t, step);
    }
  }

  /**
    The location loop of `computeRFRC`: depths rFRCDist, rFRCDist + zStepSize,
    ... below depth - rFRCDist (outer), tile centres in order (inner).
   */
  method GenerateLocations(tiles: seq<Tile>, depth: int, rFRCDist: int, zStepSize: int)
    returns (locations: seq<Point>)
    requires zStepSize > 0
    ensures locations == Locations(tiles, rFRCDist, ZCount(rFRCDist, depth - rFRCDist, zStepSize), zStepSize)
  {
    locations := [];
    var z := rFRCDist;
    ghost var k: nat := 0;
    while z < depth - rFRCDist
      invariant z == GridZ(rFRCDist, k, zStepSize)
      invariant ZCount(rFRCDist, depth - rFRCDist, zStepSize) == k + ZCount(z, depth - rFRCDist, zStepSize)
      invariant locations == Locations(tiles, rFRCDist, k, zStepSize)
      decreases depth - rFRCDist - z
    {
      ghost var before := locations;
      for j := 0 to |tiles|
        invariant locations == before + Row(tiles[..j], z)
      {
        assert Row(tiles[..j + 1], z) == Row(tiles[..j], z) + [Point(tiles[j].x, tiles[j].y, z)];
        locations := locations + [Point(tiles[j].x, tiles[j].y, z)];
      }
      assert tiles[..|tiles|] == tiles;
      z := z + zStepSize;
      k := k + 1;
    }
  }

  /**
    The generated locations are exactly the tile centres crossed with the
    depths z in [rFRCDist, depth - rFRCDist) for which z - rFRCDist is a
    multiple of zStepSize; location t * |tiles| + i is tile i at depth
    rFRCDist + t * zStepSize, so the count is (number of depths) * |tiles|.
   */
  lemma SampledExactly(tiles: seq<Tile>, depth: int, rFRCDist: int, zStepSize: int, p: Point)
    requires zStepSize > 0
    ensures var locs := Locations(tiles, rFRCDist, ZCount(rFRCDist, depth - rFRCDist, zStepSize), zStepSize);
      |locs| == ZCount(rFRCDist, depth - rFRCDist, zStepSize) * |tiles| &&
      (p in locs <==>
        OnTile(tiles, p) && rFRCDist <= p.z < depth - rFRCDist && (p.z - rFRCDist) % zStepSize == 0)
  {
    var k := ZCount(rFRCDist, depth - rFRCDist, zStepSize);
    LocationsLength(tiles, rFRCDist, k, zStepSize);
    LocationsMembers(tiles, rFRCDist, k, zStepSize, p);
    OnGridIff(rFRCDist, depth - rFRCDist, zStepSize, p.z);
  }

  /**
    Under the depth guard (depth >= 2 * rFRCDist + 1) the first depth sampled
    is rFRCDist itself, so the first |tiles| locations are the tiles at that
    depth and the list is non-empty whenever there is a tile.
   */
  lemma GuardedFirstRow(tiles: seq<Tile>, depth: int, rFRCDist: int, zStepSize: int, i: nat)
    requires zStepSize > 0 && depth >= 2 * rFRCDist + 1 && i < |tiles|
    ensures var locs := Locations(tiles, rFRCDist, ZCount(rFRCDist, depth - rFRCDist, zStepSize), zStepSize);
      i < |locs| && locs[i] == Point(tiles[i].x, tiles[i].y, rFRCDist)
  {
    var k := ZCount(rFRCDist, depth - rFRCDist, zStepSize);
    assert k >= 1;
    LocationsAt(tiles, rFRCDist, k, zStepSize, 0, i);
  }
}
