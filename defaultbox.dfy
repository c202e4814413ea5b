/**
  The 3D box remembered between runs for the interactive selection
  (`defaultMin`/`defaultMax`), seeded on first use and clamped into the
  image's bounds, axis by axis, before the selection dialog opens.
 */
module DefaultBox {

  function MaxInt(a: int, b: int): (m: int) { if a >= b then a else b }

  function MinInt(a: int, b: int): (m: int) { if a <= b then a else b }

  /**
    One axis of the clamp: an empty or inverted remembered range (lo >= hi) is
    first reset to the image's full range; then lo is raised to the image's
    min and hi lowered to the image's max.
   */
  function ClampAxis(lo: int, hi: int, imgLo: int, imgHi: int): (r: (int, int))
    ensures r.0 >= imgLo && r.1 <= imgHi
    ensures lo >= hi ==> r == (imgLo, imgHi)
    ensures lo < hi && imgLo <= lo && hi <= imgHi ==> r == (lo, hi)
    ensures lo < hi ==> (r.0 == lo || r.0 == imgLo) && (r.1 == hi || r.1 == imgHi)
    ensures lo < hi ==> (imgLo <= lo ==> r.0 == lo) && (hi <= imgHi ==> r.1 == hi)
  {
    var (l, h) := if lo >= hi then (imgLo, imgHi) else (lo, hi);
    (MaxInt(l, imgLo), MinInt(h, imgHi))
  }

  /** The remembered box before any run: 25 pixels inset in x and y, all of z. */
  function InitialMin(imgLo: seq<int>): (s: seq<int>)
    requires |imgLo| == 3
    ensures |s| == 3
  {
    [imgLo[0] + 25, imgLo[1] + 25, imgLo[2]]
  }

  function InitialMax(imgHi: seq<int>): (s: seq<int>)
    requires |imgHi| == 3
    ensures |s| == 3
  {
    [imgHi[0] - 25, imgHi[1] - 25, imgHi[2]]
  }

  /**
    The clamp does not keep lo <= hi: a remembered range lying wholly beyond
    the image's max ends up with lo above hi.
   */
  lemma ClampMayInvert()
    ensures var r := ClampAxis(10, 20, 0, 5); r.0 > r.1
  {
  }

  /** A range that came out of the clamp non-empty is left alone by a second clamp. */
  lemma {:induction false} ClampStable(lo: int, hi: int, imgLo: int, imgHi: int)
    requires var r := ClampAxis(lo, hi, imgLo, imgHi); r.0 < r.1
    ensures var r := ClampAxis(lo, hi, imgLo, imgHi); ClampAxis(r.0, r.1, imgLo, imgHi) == r
  {
  }

  /**
    On the seeded box, x and y become the image's range inset by 25 pixels
    when the image is wider than 51 pixels on that axis and its full range
    otherwise; z is always the full range.
   */
  lemma SeededClamp(imgLo: seq<int>, imgHi: seq<int>, d: nat)
    requires |imgLo| == 3 && |imgHi| == 3 && d < 3
    ensures var r := ClampAxis(InitialMin(imgLo)[d], InitialMax(imgHi)[d], imgLo[d], imgHi[d]);
      if d == 2 || imgHi[d] - imgLo[d] <= 50 then r == (imgLo[d], imgHi[d])
      else r == (imgLo[d] + 25, imgHi[d] - 25)
  {
  }

  /**
    The clamp loop of `interactiveROI` over two distinct arrays; every axis is
    replaced by ClampAxis of its old range.
   */
  method ClampInto(defaultMin: array<int>, defaultMax: array<int>, imgLo: seq<int>, imgHi: seq<int>)
    requires defaultMin != defaultMax
    requires defaultMin.Length <= defaultMax.Length
    requires defaultMin.Length <= |imgLo| && defaultMin.Length <= |imgHi|
    modifies defaultMin, defaultMax
    ensures forall d :: 0 <= d < defaultMin.Length ==>
      (defaultMin[d], defaultMax[d]) == ClampAxis(old(defaultMin[d]), old(defaultMax[d]), imgLo[d], imgHi[d])
    ensures forall d :: 0 <= d < defaultMin.Length ==> imgLo[d] <= defaultMin[d] && defaultMax[d] <= imgHi[d]
    ensures forall d :: defaultMin.Length <= d < defaultMax.Length ==> defaultMax[d] == old(defaultMax[d])
  {
    for d := 0 to defaultMin.Length
      invariant forall e :: 0 <= e < d ==>
        (defaultMin[e], defaultMax[e]) == ClampAxis(old(defaultMin[e]), old(defaultMax[e]), imgLo[e], imgHi[e])
      invariant forall e :: d <= e < defaultMin.Length ==> defaultMin[e] == old(defaultMin[e])
      invariant forall e :: d <= e < defaultMax.Length ==> defaultMax[e] == old(defaultMax[e])
    {
      if defaultMin[d] >= defaultMax[d] {
        defaultMin[d] := imgLo[d];
        defaultMax[d] := imgHi[d];
      }
      defaultMin[d] := MaxInt(defaultMin[d], imgLo[d]);
      defaultMax[d] := MinInt(defaultMax[d], imgHi[d]);
    }
  }

  /** The remembered box, kept across runs (static fields in the plugin). */
  class RememberedBox {
    var defaultMin: array?<int>
    var defaultMax: array?<int>

    ghost predicate Valid()
      reads this
    {
      defaultMin != null && defaultMax != null ==>
        defaultMin != defaultMax && defaultMin.Length == 3 && defaultMax.Length == 3
    }

    constructor ()
      ensures Valid() && defaultMin == null && defaultMax == null
    {
      defaultMin := null;
      defaultMax := null;
    }

    /**
      Lines 499-515 of `interactiveROI`: seed the box if either bound is
      missing, then clamp it into the image box `imgLo..imgHi`.
     */
    method Prepare(imgLo: seq<int>, imgHi: seq<int>)
      requires Valid() && |imgLo| == 3 && |imgHi| == 3
      modifies this, defaultMin, defaultMax
      ensures Valid() && defaultMin != null && defaultMax != null
      ensures old(defaultMin) == null || old(defaultMax) == null ==>
        fresh(defaultMin) && fresh(defaultMax) &&
        forall d :: 0 <= d < 3 ==>
          (defaultMin[d], defaultMax[d]) == ClampAxis(InitialMin(imgLo)[d], InitialMax(imgHi)[d], imgLo[d], imgHi[d])
      ensures old(defaultMin) != null && old(defaultMax) != null ==>
        defaultMin == old(defaultMin) && defaultMax == old(defaultMax) &&
        forall d :: 0 <= d < 3 ==>
          (defaultMin[d], defaultMax[d]) == ClampAxis(old(defaultMin[d]), old(defaultMax[d]), imgLo[d], imgHi[d])
      ensures forall d :: 0 <= d < 3 ==> imgLo[d] <= defaultMin[d] && defaultMax[d] <= imgHi[d]
    {
      if defaultMin == null || defaultMax == null {
        var lo := new int[3];
        lo[0], lo[1], lo[2] := imgLo[0] + 25, imgLo[1] + 25, imgLo[2];
        var hi := new int[3];
        hi[0], hi[1], hi[2] := imgHi[0] - 25, imgHi[1] - 25, imgHi[2];
        defaultMin, defaultMax := lo, hi;
      }
      ClampInto(defaultMin, defaultMax, imgLo, imgHi);
    }
  }
}
