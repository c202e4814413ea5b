/**
  `getMean` and `getCorrelation`: the Pearson correlation of two equally
  sized images given as their pixel values in a common iteration order.
  Values are reals; the square root is a parameter.
 */
module Correlation {
  import opened Wrappers

  function Sum(s: seq<real>): (r: real)
  {
    if |s| == 0 then 0.0 else Sum(s[..|s| - 1]) + s[|s| - 1]
  }

  function Mean(s: seq<real>): (m: real)
    requires |s| > 0
  {
    Sum(s) / (|s| as real)
  }

  function Sq(x: real): (r: real)
    ensures r >= 0.0
  {
    x * x
  }

  function Cross(x: real, y: real): (r: real) { x * y }

  /** A square root is positive on positive arguments (no other property of it is used). */
  ghost predicate PositiveRoot(sqrt: real -> real) {
    forall x :: x > 0.0 ==> sqrt(x) > 0.0
  }

  /** Sum of squared deviations from m; never negative. */
  function SumSq(a: seq<real>, m: real): (r: real)
    ensures r >= 0.0
  {
    if |a| == 0 then 0.0 else SumSq(a[..|a| - 1], m) + Sq(a[|a| - 1] - m)
  }

  /** Sum of products of the deviations of a from m1 and of b from m2. */
  function SumProd(a: seq<real>, b: seq<real>, m1: real, m2: real): (r: real)
    requires |a| == |b|
  {
    if |a| == 0 then 0.0
    else SumProd(a[..|a| - 1], b[..|b| - 1], m1, m2) + Cross(a[|a| - 1] - m1, b[|b| - 1] - m2)
  }

  /**
    The final formula: 0 when either image is flat (a zero sum of squares),
    otherwise sum12 / sqrt(sum11 * sum22). A non-zero result needs two
    non-flat images, and then it has the sign of the cross sum.
   */
  function FromSums(sum11: real, sum22: real, sum12: real, sqrt: real -> real): (r: real)
    requires PositiveRoot(sqrt) && sum11 >= 0.0 && sum22 >= 0.0
    ensures sum11 == 0.0 || sum22 == 0.0 ==> r == 0.0
    ensures sum11 != 0.0 && sum22 != 0.0 ==> r == sum12 / sqrt(sum11 * sum22)
    ensures r != 0.0 ==> sum11 > 0.0 && sum22 > 0.0
    ensures sum11 > 0.0 && sum22 > 0.0 ==>
      (r > 0.0 <==> sum12 > 0.0) && (r < 0.0 <==> sum12 < 0.0) && (r == 0.0 <==> sum12 == 0.0)
  {
    if sum11 == 0.0 || sum22 == 0.0 then 0.0
    else
      assert Cross(sum11, sum22) > 0.0;
      sum12 / sqrt(sum11 * sum22)
  }

  /**
    The correlation of two pixel sequences. For empty images the source's
    means are NaN but no pixel is visited, so the sums stay 0 and the result
    is 0.
   */
  function Correlation(a: seq<real>, b: seq<real>, sqrt: real -> real): (r: real)
    requires |a| == |b| && PositiveRoot(sqrt)
    ensures |a| > 0 && (SumSq(a, Mean(a)) == 0.0 || SumSq(b, Mean(b)) == 0.0) ==> r == 0.0
    ensures |a| == 0 ==> r == 0.0
  {
    if |a| == 0 then 0.0
    else
      var m1 := Mean(a);
      var m2 := Mean(b);
      FromSums(SumSq(a, m1), SumSq(b, m2), SumProd(a, b, m1, m2), sqrt)
  }

  /** `getMean`: the sum of the values over their count; for no values the source divides 0 by 0 (NaN), here None. */
  method GetMean(s: seq<real>) returns (m: Option<real>)
    ensures |s| == 0 <==> m.None?
    ensures |s| > 0 ==> m == Some(Mean(s))
  {
    var sum := 0.0;
    var n := 0;
    while n < |s|
      invariant 0 <= n <= |s|
      invariant sum == Sum(s[..n])
    {
      assert s[..n + 1][..n] == s[..n];
      sum := sum + s[n];
      n := n + 1;
    }
    assert s[..n] == s;
    if n == 0 {
      m := None;
    } else {
      m := Some(sum / (n as real));
    }
  }

  /** `getCorrelation`: one pass accumulating sum11, sum22 and sum12, then the final formula. */
  method GetCorrelation(a: seq<real>, b: seq<real>, sqrt: real -> real) returns (r: real)
    requires |a| == |b| && PositiveRoot(sqrt)
    ensures r == Correlation(a, b, sqrt)
  {
    var mean1 := GetMean(a);
    var mean2 := GetMean(b);
    // the means only matter when there is a pixel to visit
    var m1 := if mean1.Some? then mean1.value else 0.0;
    var m2 := if mean2.Some? then mean2.value else 0.0;
    var sum11, sum22, sum12 := DeviationSums(a, b, m1, m2);
    r := FromSums(sum11, sum22, sum12, sqrt);
  }

  /** The cursor loop of `getCorrelation`: the three sums in one pass over both images. */
  method DeviationSums(a: seq<real>, b: seq<real>, m1: real, m2: real) returns (sum11: real, sum22: real, sum12: real)
    requires |a| == |b|
    ensures sum11 == SumSq(a, m1) && sum22 == SumSq(b, m2) && sum12 == SumProd(a, b, m1, m2)
  {
    sum11, sum22, sum12 := 0.0, 0.0, 0.0;
    var i := 0;
    while i < |a|
      invariant 0 <= i <= |a|
      invariant sum11 == SumSq(a[..i], m1)
      invariant sum22 == SumSq(b[..i], m2)
      invariant sum12 == SumProd(a[..i], b[..i], m1, m2)
    {
      var c := a[i];
      var d := b[i];
      assert a[..i + 1][..i] == a[..i] && b[..i + 1][..i] == b[..i];
      sum11 := sum11 + Sq(c - m1);
      sum22 := sum22 + Sq(d - m2);
      sum12 := sum12 + Cross(c - m1, d - m2);
      i := i + 1;
    }
    assert a[..i] == a && b[..i] == b;
  }

  /** Swapping the two images swaps the roles of the means but leaves the cross sum unchanged. */
  lemma {:induction false} SumProdSymmetric(a: seq<real>, b: seq<real>, m1: real, m2: real)
    requires |a| == |b|
    ensures SumProd(a, b, m1, m2) == SumProd(b, a, m2, m1)
  {
    if |a| > 0 {
      SumProdSymmetric(a[..|a| - 1], b[..|b| - 1], m1, m2);
    }
  }

  /** The cross sum of an image with itself is its sum of squares. */
  lemma {:induction false} SumProdSelf(a: seq<real>, m: real)
    ensures SumProd(a, a, m, m) == SumSq(a, m)
  {
    if |a| > 0 {
      SumProdSelf(a[..|a| - 1], m);
    }
  }

  /** The correlation is symmetric in its two images. */
  lemma CorrelationSymmetric(a: seq<real>, b: seq<real>, sqrt: real -> real)
    requires |a| == |b| && PositiveRoot(sqrt)
    ensures Correlation(a, b, sqrt) == Correlation(b, a, sqrt)
  {
    if |a| > 0 {
      SumProdSymmetric(a, b, Mean(a), Mean(b));
      assert SumSq(a, Mean(a)) * SumSq(b, Mean(b)) == SumSq(b, Mean(b)) * SumSq(a, Mean(a));
    }
  }

  lemma {:induction false} SumOfConstant(a: seq<real>, c: real)
    requires forall i :: 0 <= i < |a| ==> a[i] == c
    ensures Sum(a) == (|a| as real) * c
    ensures SumSq(a, c) == 0.0
  {
    if |a| > 0 {
      SumOfConstant(a[..|a| - 1], c);
      assert (|a| as real) * c == ((|a| - 1) as real) * c + c;
    }
  }

  /** A flat image, every pixel equal, has correlation 0 with any image of its size. */
  lemma FlatImageScoresZero(a: seq<real>, b: seq<real>, sqrt: real -> real)
    requires |a| == |b| && |a| > 0 && PositiveRoot(sqrt)
    requires forall i :: 0 <= i < |a| ==> a[i] == a[0]
    ensures Correlation(a, b, sqrt) == 0.0
  {
    SumOfConstant(a, a[0]);
    var n := |a| as real;
    assert Mean(a) == (n * a[0]) / n;
    assert (n * a[0]) / n == a[0];
  }

  /**
    An image with two different pixels correlates perfectly with itself, for
    a square root that inverts squaring on positive reals.
   */
  lemma SelfCorrelationIsOne(a: seq<real>, sqrt: real -> real)
    requires exists i, j :: 0 <= i < |a| && 0 <= j < |a| && a[i] != a[j]
    requires PositiveRoot(sqrt) && forall x :: x > 0.0 ==> sqrt(Sq(x)) == x
    ensures Correlation(a, a, sqrt) == 1.0
  {
    NonConstantNotFlat(a);
    var m := Mean(a);
    var s := SumSq(a, m);
    SumProdSelf(a, m);
    assert Correlation(a, a, sqrt) == FromSums(s, s, s, sqrt);
    SameSumsGiveOne(s, sqrt);
  }

  /** Equal positive sums give sum / sqrt(sum * sum) = 1 when sqrt inverts squaring. */
  lemma SameSumsGiveOne(s: real, sqrt: real -> real)
    requires s > 0.0 && PositiveRoot(sqrt) && forall x :: x > 0.0 ==> sqrt(Sq(x)) == x
    ensures FromSums(s, s, s, sqrt) == 1.0
  {
    calc {
      FromSums(s, s, s, sqrt);
    ==
      s / sqrt(s * s);
    == { assert s * s == Sq(s); }
      s / sqrt(Sq(s));
    ==
      s / s;
    ==
      1.0;
    }
  }

  /** The square of a non-zero real is positive. */
  lemma SqPositive(x: real)
    requires x != 0.0
    ensures Sq(x) > 0.0
  {
    calc {
      Sq(x);
    ==
      x * x;
    >
      0.0;
    }
  }

  /** A zero sum of squared deviations from m means every value is m. */
  lemma {:induction false} ZeroSumSqIsConstant(a: seq<real>, m: real)
    ensures SumSq(a, m) == 0.0 ==> forall i :: 0 <= i < |a| ==> a[i] == m
  {
    if |a| > 0 {
      var front := a[..|a| - 1];
      ZeroSumSqIsConstant(front, m);
      if a[|a| - 1] - m != 0.0 {
        SqPositive(a[|a| - 1] - m);
      }
      assert forall i :: 0 <= i < |a| - 1 ==> a[i] == front[i];
    }
  }

  /** An image with two different pixels has a positive sum of squared deviations from its mean. */
  lemma NonConstantNotFlat(a: seq<real>)
    requires exists i, j :: 0 <= i < |a| && 0 <= j < |a| && a[i] != a[j]
    ensures |a| > 0 && SumSq(a, Mean(a)) > 0.0
  {
    var i, j :| 0 <= i < |a| && 0 <= j < |a| && a[i] != a[j];
    ZeroSumSqIsConstant(a, Mean(a));
  }
}
