/** The table lookup inside the airfoil callbacks VLiftCoeff and HLiftCoeff:
    a search for the bracketing abscissa followed by linear interpolation
    between neighbouring table entries, over the reals. */
module LiftTable {
  import opened OrbiterApi

  /** Neighbouring abscissae strictly increase. */
  predicate Increasing(xs: seq<real>)
  {
    forall k :: 0 <= k < |xs| - 1 ==> xs[k] < xs[k + 1]
  }

  lemma {:induction false} IncreasingPairwise(xs: seq<real>, i: int, j: int)
    requires Increasing(xs) && 0 <= i < j < |xs|
    ensures xs[i] < xs[j]
    decreases j - i
  {
    assert xs[i] < xs[i + 1];
    if i + 1 < j {
      IncreasingPairwise(xs, i + 1, j);
    }
  }

  /** Where the source's search loop stops: it has stepped past every
      abscissa (after the first) that lies strictly below x, and stopped at
      the first that does not, or at the last index. */
  predicate IsBracket(absc: seq<real>, x: real, i: nat)
  {
    i < |absc|
    && (forall j :: 1 <= j <= i ==> absc[j] < x)
    && (i < |absc| - 1 ==> x <= absc[i + 1])
  }

  /** The linear search for the segment: step forward from index 0 while a
      next abscissa exists and lies strictly below x. */
  method Bracket(absc: seq<real>, x: real) returns (i: nat)
    requires |absc| >= 1
    ensures IsBracket(absc, x, i)
  {
    i := 0;
    while i < |absc| - 1 && absc[i + 1] < x
      invariant i <= |absc| - 1
      invariant forall j :: 1 <= j <= i ==> absc[j] < x
    {
      i := i + 1;
    }
  }

  /** The straight line through (a0, v0) and (a1, v1), evaluated at x, in the
      source's form `v0 + (v1 - v0) * f` with `f = (x - a0) / (a1 - a0)`. */
  function Lerp(a0: real, a1: real, v0: real, v1: real, x: real): real
    requires a0 < a1
  {
    Step(v0, v1, (x - a0) / (a1 - a0))
  }

  /** From v0 toward v1 by the fraction f. */
  function Step(v0: real, v1: real, f: real): real
  {
    v0 + (v1 - v0) * f
  }

  lemma LerpAtLeft(a0: real, a1: real, v0: real, v1: real)
    requires a0 < a1
    ensures Lerp(a0, a1, v0, v1, a0) == v0
  {
  }

  lemma LerpAtRight(a0: real, a1: real, v0: real, v1: real)
    requires a0 < a1
    ensures Lerp(a0, a1, v0, v1, a1) == v1
  {
    assert (a1 - a0) / (a1 - a0) == 1.0;
  }

  /** Within its segment the line stays between the two table values. */
  lemma LerpBetween(a0: real, a1: real, v0: real, v1: real, x: real)
    requires a0 < a1 && a0 <= x <= a1
    ensures Min(v0, v1) <= Lerp(a0, a1, v0, v1, x) <= Max(v0, v1)
  {
    FractionInUnit(x - a0, a1 - a0);
    var f := (x - a0) / (a1 - a0);
    if v0 <= v1 {
      StepUp(v0, v1, f);
    } else {
      StepDown(v0, v1, f);
    }
  }

  lemma FractionInUnit(e: real, d: real)
    requires d > 0.0 && 0.0 <= e <= d
    ensures 0.0 <= e / d <= 1.0
  {
    var f := e / d;
    assert f * d == e;
  }

  /** A fraction in [0, 1] of the way up from v0 to v1 stays in [v0, v1]. */
  lemma StepUp(v0: real, v1: real, f: real)
    requires v0 <= v1 && 0.0 <= f <= 1.0
    ensures v0 <= Step(v0, v1, f) <= v1
  {
    var c := v1 - v0;
    assert 0.0 <= c * f <= c * 1.0;
    assert Step(v0, v1, f) == v0 + c * f;
  }

  /** A fraction in [0, 1] of the way down from v0 to v1 stays in [v1, v0]. */
  lemma StepDown(v0: real, v1: real, f: real)
    requires v1 < v0 && 0.0 <= f <= 1.0
    ensures v1 <= Step(v0, v1, f) <= v0
  {
    var c := v0 - v1;
    assert 0.0 <= c * f <= c * 1.0;
    assert Step(v0, v1, f) == v0 - c * f;
  }

  /** HLiftCoeff's form `v0 + (v1 - v0) * (x - a0) / (a1 - a0)` multiplies
      before it divides; over the reals it is the same line. */
  lemma LerpProductForm(a0: real, a1: real, v0: real, v1: real, x: real)
    requires a0 < a1
    ensures v0 + (v1 - v0) * (x - a0) / (a1 - a0) == Lerp(a0, a1, v0, v1, x)
  {
  }

  /** What the source computes once the search has stopped at i. */
  function Evaluate(absc: seq<real>, vals: seq<real>, i: nat, x: real): real
    requires |vals| == |absc| && Increasing(absc) && i < |absc|
  {
    if i < |absc| - 1 then Lerp(absc[i], absc[i + 1], vals[i], vals[i + 1], x)
    else vals[|absc| - 1]
  }

  /** Reference definition of the lookup: below the first abscissa the first
      segment's line is extended, on each segment the line through its two
      table points is taken, and above the last abscissa the last value is
      held. */
  predicate PiecewiseLinear(absc: seq<real>, vals: seq<real>, x: real, y: real)
    requires |vals| == |absc| >= 1 && Increasing(absc)
  {
    (|absc| == 1 ==> y == vals[0])
    && (|absc| >= 2 && x < absc[0] ==> y == Lerp(absc[0], absc[1], vals[0], vals[1], x))
    && (forall k :: 0 <= k < |absc| - 1 && absc[k] <= x <= absc[k + 1] ==>
          y == Lerp(absc[k], absc[k + 1], vals[k], vals[k + 1], x))
    && (absc[|absc| - 1] < x ==> y == vals[|absc| - 1])
  }

  /** The search-then-interpolate of the source meets the reference
      definition, whichever x it is given. */
  lemma {:induction false} BracketEvaluates(absc: seq<real>, vals: seq<real>, x: real, i: nat)
    requires |vals| == |absc| >= 1 && Increasing(absc) && IsBracket(absc, x, i)
    ensures PiecewiseLinear(absc, vals, x, Evaluate(absc, vals, i, x))
  {
    var n := |absc|;
    var y := Evaluate(absc, vals, i, x);
    if n >= 2 && x < absc[0] {
      assert absc[0] < absc[1];
      assert !(absc[1] < x);
      assert i == 0;
    }
    forall k | 0 <= k < n - 1 && absc[k] <= x <= absc[k + 1]
      ensures y == Lerp(absc[k], absc[k + 1], vals[k], vals[k + 1], x)
    {
      if k > i {
        if k > i + 1 {
          IncreasingPairwise(absc, i + 1, k);
        }
        assert x == absc[k] && x == absc[i + 1] && k == i + 1;
        LerpAtRight(absc[i], absc[i + 1], vals[i], vals[i + 1]);
        LerpAtLeft(absc[k], absc[k + 1], vals[k], vals[k + 1]);
      }
    }
    if absc[n - 1] < x && i < n - 1 {
      if i + 1 < n - 1 {
        IncreasingPairwise(absc, i + 1, n - 1);
      }
      assert false;
    }
  }

  /** At a breakpoint the lookup returns that row's table value. */
  lemma {:induction false} PiecewiseLinearAtBreakpoint(absc: seq<real>, vals: seq<real>, x: real, y: real, k: nat)
    requires |vals| == |absc| >= 1 && Increasing(absc) && PiecewiseLinear(absc, vals, x, y)
    requires k < |absc| && x == absc[k]
    ensures y == vals[k]
  {
    if k < |absc| - 1 {
      LerpAtLeft(absc[k], absc[k + 1], vals[k], vals[k + 1]);
    } else if k >= 1 {
      LerpAtRight(absc[k - 1], absc[k], vals[k - 1], vals[k]);
    }
  }

  /** Inside a segment the lookup lies between the segment's two values. */
  lemma {:induction false} PiecewiseLinearBetween(absc: seq<real>, vals: seq<real>, x: real, y: real, k: nat)
    requires |vals| == |absc| >= 1 && Increasing(absc) && PiecewiseLinear(absc, vals, x, y)
    requires k < |absc| - 1 && absc[k] <= x <= absc[k + 1]
    ensures Min(vals[k], vals[k + 1]) <= y <= Max(vals[k], vals[k + 1])
  {
    LerpBetween(absc[k], absc[k + 1], vals[k], vals[k + 1], x);
  }

  /** Every x between the first and the last abscissa lies in some segment. */
  lemma {:induction false} SegmentExists(absc: seq<real>, x: real) returns (k: nat)
    requires |absc| >= 2 && absc[0] <= x <= absc[|absc| - 1]
    ensures k < |absc| - 1 && absc[k] <= x <= absc[k + 1]
    decreases |absc|
  {
    var n := |absc|;
    if x >= absc[n - 2] || n == 2 {
      k := n - 2;
    } else {
      k := SegmentExists(absc[..n - 1], x);
    }
  }

  /** The reference definition pins the result down: two results that both
      meet it are equal. */
  lemma {:induction false} PiecewiseLinearUnique(absc: seq<real>, vals: seq<real>, x: real, y1: real, y2: real)
    requires |vals| == |absc| >= 1 && Increasing(absc)
    requires PiecewiseLinear(absc, vals, x, y1) && PiecewiseLinear(absc, vals, x, y2)
    ensures y1 == y2
  {
    var n := |absc|;
    if n >= 2 && absc[0] <= x <= absc[n - 1] {
      var k := SegmentExists(absc, x);
      assert y1 == Lerp(absc[k], absc[k + 1], vals[k], vals[k + 1], x);
    }
  }
}
