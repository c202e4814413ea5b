/**
  Running minimum and maximum, as kept by the curve loops with `Math.min` and
  `Math.max` against an initial value.
 */
module Extrema {

  /** Java's Double.MAX_VALUE, the largest finite double. */
  const DoubleMax: real := 1.7976931348623157e308

  function Min(a: real, b: real): (m: real) { if a <= b then a else b }

  function Max(a: real, b: real): (m: real) { if a >= b then a else b }

  /** The minimum of `init` and every element of `s`, folded from the left. */
  function RunningMin(s: seq<real>, init: real): (m: real)
  {
    if |s| == 0 then init else Min(s[|s| - 1], RunningMin(s[..|s| - 1], init))
  }

  /** The maximum of `init` and every element of `s`, folded from the left. */
  function RunningMax(s: seq<real>, init: real): (m: real)
  {
    if |s| == 0 then init else Max(s[|s| - 1], RunningMax(s[..|s| - 1], init))
  }

  /** Extending the sequence by one element folds that element in. */
  lemma RunningStep(s: seq<real>, x: real, init: real)
    ensures RunningMin(s + [x], init) == Min(x, RunningMin(s, init))
    ensures RunningMax(s + [x], init) == Max(x, RunningMax(s, init))
  {
    assert (s + [x])[..|s|] == s;
  }

  /** The running minimum is a lower bound of the start value and of every element, and is one of them. */
  lemma {:induction false} RunningMinIsLeast(s: seq<real>, init: real)
    ensures RunningMin(s, init) <= init
    ensures forall i :: 0 <= i < |s| ==> RunningMin(s, init) <= s[i]
    ensures RunningMin(s, init) == init || RunningMin(s, init) in s
  {
    if |s| > 0 {
      var front := s[..|s| - 1];
      RunningMinIsLeast(front, init);
      assert forall i :: 0 <= i < |s| - 1 ==> s[i] == front[i];
    }
  }

  /** The running maximum is an upper bound of the start value and of every element, and is one of them. */
  lemma {:induction false} RunningMaxIsGreatest(s: seq<real>, init: real)
    ensures RunningMax(s, init) >= init
    ensures forall i :: 0 <= i < |s| ==> RunningMax(s, init) >= s[i]
    ensures RunningMax(s, init) == init || RunningMax(s, init) in s
  {
    if |s| > 0 {
      var front := s[..|s| - 1];
      RunningMaxIsGreatest(front, init);
      assert forall i :: 0 <= i < |s| - 1 ==> s[i] == front[i];
    }
  }
}
