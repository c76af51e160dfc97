/**
 * Exact-real counterparts of the NumPy reductions the regression code relies on
 * (np.sum, np.mean, np.var, np.max, np.min) and of IEEE-754 finiteness.
 */
module Stats {

  /** The largest finite IEEE-754 double, (2 - 2^-52) * 2^1023. */
  const MaxFinite: real := 179769313486231570814527423731704356798070567525844996598917476803157260780028538760589558632766878171540458953514382464234321326889464182768467546703537516986049910576551282076245490090389328944075868508455133942304583236903222948165808559332123348274797826204144723168738177180919299881250404026184124858368.0

  /**
   * np.isfinite on a double. Arithmetic is exact here, so a result whose magnitude
   * exceeds MaxFinite stands for a computation that overflowed to an infinity.
   */
  predicate IsFinite(v: real) {
    -MaxFinite <= v <= MaxFinite
  }

  /** The line `theta0 + theta1 * x`, which every prediction of the model evaluates. */
  function Line(theta0: real, theta1: real, x: real): real {
    theta0 + theta1 * x
  }

  /** A line with a non-negative slope is non-decreasing, one with a non-positive slope non-increasing. */
  lemma LineMonotone(theta0: real, theta1: real, a: real, b: real)
    requires a <= b
    ensures theta1 >= 0.0 ==> Line(theta0, theta1, a) <= Line(theta0, theta1, b)
    ensures theta1 <= 0.0 ==> Line(theta0, theta1, a) >= Line(theta0, theta1, b)
  {
    assert theta1 * b - theta1 * a == theta1 * (b - a);
  }

  /** Dividing `n * theta0 + theta1 * s` by `n` evaluates the line at `s / n`. */
  lemma AffineMean(n: real, theta0: real, theta1: real, s: real)
    requires n > 0.0
    ensures (n * theta0 + theta1 * s) / n == Line(theta0, theta1, s / n)
  {
    CancelQuotient(s, n);
    assert Line(theta0, theta1, s / n) * n == n * theta0 + theta1 * s;
    CancelMultiply(Line(theta0, theta1, s / n), n);
  }

  function Abs(v: real): real {
    if v < 0.0 then -v else v
  }

  function Sum(xs: seq<real>): real {
    if xs == [] then 0.0 else xs[0] + Sum(xs[1..])
  }

  /** np.mean; NumPy returns NaN on an empty array, which callers here never pass. */
  function Mean(xs: seq<real>): real
    requires |xs| > 0
  {
    Sum(xs) / |xs| as real
  }

  /** Elementwise `xs - c`. */
  function Offsets(xs: seq<real>, c: real): seq<real> {
    seq(|xs|, i requires 0 <= i < |xs| => xs[i] - c)
  }

  /** Elementwise `a - b` of two arrays of one length. */
  function Diffs(a: seq<real>, b: seq<real>): seq<real>
    requires |a| == |b|
  {
    seq(|a|, i requires 0 <= i < |a| => a[i] - b[i])
  }

  /** Elementwise `a * b` of two arrays of one length. */
  function Products(a: seq<real>, b: seq<real>): seq<real>
    requires |a| == |b|
  {
    seq(|a|, i requires 0 <= i < |a| => a[i] * b[i])
  }

  /** `v ** 2`, with its sign: never negative, and zero only at zero. */
  function Square(v: real): (r: real)
    ensures r >= 0.0
    ensures r == 0.0 <==> v == 0.0
  {
    SquareNonNegative(v);
    if v * v == 0.0 then SquareZero(v); v * v else v * v
  }

  /** Elementwise `xs ** 2`. */
  function Squares(xs: seq<real>): seq<real> {
    seq(|xs|, i requires 0 <= i < |xs| => Square(xs[i]))
  }

  /** Elementwise `np.abs(xs)`. */
  function Magnitudes(xs: seq<real>): seq<real> {
    seq(|xs|, i requires 0 <= i < |xs| => Abs(xs[i]))
  }

  /** `np.sum((xs - np.mean(xs)) ** 2)`: the total sum of squares. */
  function SumSquaredDeviations(xs: seq<real>): real
    requires |xs| > 0
  {
    Sum(Squares(Offsets(xs, Mean(xs))))
  }

  /** np.var: the population variance. */
  function Variance(xs: seq<real>): real
    requires |xs| > 0
  {
    Mean(Squares(Offsets(xs, Mean(xs))))
  }

  /**
   * `root` is what np.sqrt returns for `v`: its non-negative square root. Square
   * roots have no closed form over the reals here, so callers supply the value and
   * this predicate pins it down.
   */
  predicate IsRoot(v: real, root: real) {
    root >= 0.0 && Square(root) == v
  }

  /** `sd` is what np.std returns for `xs`: the square root of the population variance. */
  predicate IsStd(xs: seq<real>, sd: real) {
    |xs| > 0 && IsRoot(Variance(xs), sd)
  }

  /** Every element equals every other. */
  predicate Constant(xs: seq<real>) {
    forall i, j :: 0 <= i < |xs| && 0 <= j < |xs| ==> xs[i] == xs[j]
  }

  /** np.max of a non-empty array: an element that no element exceeds. */
  function MaxOf(xs: seq<real>): (m: real)
    requires |xs| > 0
    ensures exists i :: 0 <= i < |xs| && xs[i] == m
    ensures forall i :: 0 <= i < |xs| ==> xs[i] <= m
  {
    if |xs| == 1 then xs[0]
    else
      var rest := MaxOf(xs[1..]);
      assert forall i :: 1 <= i < |xs| ==> xs[i] == xs[1..][i - 1];
      if xs[0] >= rest then xs[0] else rest
  }

  /** np.min of a non-empty array: an element that exceeds no element. */
  function MinOf(xs: seq<real>): (m: real)
    requires |xs| > 0
    ensures exists i :: 0 <= i < |xs| && xs[i] == m
    ensures forall i :: 0 <= i < |xs| ==> m <= xs[i]
  {
    if |xs| == 1 then xs[0]
    else
      var rest := MinOf(xs[1..]);
      assert forall i :: 1 <= i < |xs| ==> xs[i] == xs[1..][i - 1];
      if xs[0] <= rest then xs[0] else rest
  }

  /** A sum of non-negative terms is non-negative, and zero exactly when every term is. */
  lemma {:induction false} SumNonNegative(xs: seq<real>)
    requires forall i :: 0 <= i < |xs| ==> xs[i] >= 0.0
    ensures Sum(xs) >= 0.0
    ensures Sum(xs) == 0.0 <==> forall i :: 0 <= i < |xs| ==> xs[i] == 0.0
  {
    if xs != [] {
      assert forall i :: 1 <= i < |xs| ==> xs[i] == xs[1..][i - 1];
      SumNonNegative(xs[1..]);
    }
  }

  /** Summing `n` copies of `c` gives `n * c`. */
  lemma {:induction false} SumOfConstant(xs: seq<real>, c: real)
    requires forall i :: 0 <= i < |xs| ==> xs[i] == c
    ensures Sum(xs) == |xs| as real * c
  {
    if xs != [] {
      SumOfConstant(xs[1..], c);
    }
  }

  /** The mean of a constant array is its common value. */
  lemma MeanOfConstant(xs: seq<real>)
    requires |xs| > 0 && Constant(xs)
    ensures Mean(xs) == xs[0]
  {
    SumOfConstant(xs, xs[0]);
  }

  /** A square is never negative. */
  lemma SquareNonNegative(v: real)
    ensures v * v >= 0.0
  {
    if v < 0.0 {
      var w := -v;
      assert w * w >= 0.0;
      assert v * v == w * w;
    }
  }

  /** Dividing a square by its root gives the root back. */
  lemma SquareCancel(v: real)
    requires v != 0.0
    ensures (v * v) / v == v
  {
  }

  /** Only zero squares to zero. */
  lemma SquareZero(v: real)
    requires v * v == 0.0
    ensures v == 0.0
  {
    if v != 0.0 {
      SquareCancel(v);
    }
  }

  /** The total sum of squares is non-negative and vanishes exactly on constant arrays. */
  lemma SumSquaredDeviationsZero(xs: seq<real>)
    requires |xs| > 0
    ensures SumSquaredDeviations(xs) >= 0.0
    ensures SumSquaredDeviations(xs) == 0.0 <==> Constant(xs)
  {
    var m := Mean(xs);
    var d := Offsets(xs, m);
    SumNonNegative(Squares(d));
    if Constant(xs) {
      MeanOfConstant(xs);
      forall i | 0 <= i < |xs| ensures Squares(d)[i] == 0.0 {
        assert d[i] == 0.0;
      }
    }
    if SumSquaredDeviations(xs) == 0.0 {
      forall i, j | 0 <= i < |xs| && 0 <= j < |xs| ensures xs[i] == xs[j] {
        assert Squares(d)[i] == 0.0 && Squares(d)[j] == 0.0;
      }
    }
  }

  /** The population variance vanishes exactly on constant arrays. */
  lemma VarianceZeroIffConstant(xs: seq<real>)
    requires |xs| > 0
    ensures Variance(xs) >= 0.0
    ensures Variance(xs) == 0.0 <==> Constant(xs)
  {
    SumSquaredDeviationsZero(xs);
    assert Variance(xs) == SumSquaredDeviations(xs) / |xs| as real;
  }

  /** np.std returns zero exactly when every element is the same. */
  lemma StdZeroIffConstant(xs: seq<real>, sd: real)
    requires IsStd(xs, sd)
    ensures sd == 0.0 <==> Constant(xs)
  {
    VarianceZeroIffConstant(xs);
  }

  /** `np.sum((actual - predicted) ** 2)`: the residual sum of squares. */
  function SumSquaredResiduals(actual: seq<real>, predicted: seq<real>): (r: real)
    requires |actual| == |predicted|
    ensures r >= 0.0
    ensures r == 0.0 <==> actual == predicted
  {
    var d := Diffs(actual, predicted);
    SumNonNegative(Squares(d));
    if Sum(Squares(d)) == 0.0 then
      SquaresZero(d);
      DiffsZero(actual, predicted);
      Sum(Squares(d))
    else
      Sum(Squares(d))
  }

  /** If every square is zero, every element is. */
  lemma SquaresZero(d: seq<real>)
    requires forall i :: 0 <= i < |d| ==> Squares(d)[i] == 0.0
    ensures forall i :: 0 <= i < |d| ==> d[i] == 0.0
  {
    forall i | 0 <= i < |d|
      ensures d[i] == 0.0
    {
      SquaresAt(d, i);
    }
  }

  /** If every magnitude is zero, every element is. */
  lemma MagnitudesZero(d: seq<real>)
    requires forall i :: 0 <= i < |d| ==> Magnitudes(d)[i] == 0.0
    ensures forall i :: 0 <= i < |d| ==> d[i] == 0.0
  {
    forall i | 0 <= i < |d|
      ensures d[i] == 0.0
    {
      assert Magnitudes(d)[i] == Abs(d[i]);
    }
  }

  /** Two arrays whose differences all vanish are equal. */
  lemma DiffsZero(a: seq<real>, b: seq<real>)
    requires |a| == |b|
    requires forall i :: 0 <= i < |a| ==> Diffs(a, b)[i] == 0.0
    ensures a == b
  {
    forall i | 0 <= i < |a|
      ensures a[i] == b[i]
    {
      assert Diffs(a, b)[i] == 0.0;
    }
  }

  /** Each element of Squares is non-negative, and zero only where the element is. */
  lemma SquaresAt(d: seq<real>, i: int)
    requires 0 <= i < |d|
    ensures Squares(d)[i] >= 0.0
    ensures Squares(d)[i] == 0.0 ==> d[i] == 0.0
  {
    var _ := Square(d[i]);
  }

  /** `np.mean((actual - predicted) ** 2)`: the mean squared error. */
  function MeanSquaredError(actual: seq<real>, predicted: seq<real>): (r: real)
    requires |actual| == |predicted| > 0
    ensures r >= 0.0
    ensures r == 0.0 <==> actual == predicted
  {
    var d := Diffs(actual, predicted);
    assert Sum(Squares(d)) == SumSquaredResiduals(actual, predicted);
    QuotientSign(Sum(Squares(d)), |d| as real);
    Mean(Squares(d))
  }

  /** `np.mean(np.abs(actual - predicted))`: the mean absolute error. */
  function MeanAbsoluteError(actual: seq<real>, predicted: seq<real>): (r: real)
    requires |actual| == |predicted| > 0
    ensures r >= 0.0
    ensures r == 0.0 <==> actual == predicted
  {
    var d := Diffs(actual, predicted);
    var m := Magnitudes(d);
    assert forall i :: 0 <= i < |m| ==> m[i] >= 0.0;
    SumNonNegative(m);
    QuotientSign(Sum(m), |m| as real);
    if Sum(m) == 0.0 then
      MagnitudesZero(d);
      DiffsZero(actual, predicted);
      Mean(m)
    else
      Mean(m)
  }

  /**
   * The coefficient of determination `1 - ss_residual / ss_total`, defined as 0 when
   * the total sum of squares is 0.
   */
  function RSquared(ssResidual: real, ssTotal: real): (r: real)
    ensures ssTotal == 0.0 ==> r == 0.0
    ensures ssTotal > 0.0 && ssResidual >= 0.0 ==> r <= 1.0
    ensures ssTotal != 0.0 ==> (r == 1.0 <==> ssResidual == 0.0)
  {
    if ssTotal != 0.0 then
      QuotientSign(ssResidual, ssTotal);
      1.0 - ssResidual / ssTotal
    else
      0.0
  }

  /** A non-negative number over a positive one is non-negative, and zero only if the numerator is. */
  lemma QuotientSign(a: real, b: real)
    requires b != 0.0
    ensures a >= 0.0 && b > 0.0 ==> a / b >= 0.0
    ensures a / b == 0.0 <==> a == 0.0
  {
    CancelQuotient(a, b);
  }

  lemma CancelQuotient(a: real, b: real)
    requires b != 0.0
    ensures a / b * b == a
  {
  }

  lemma CancelMultiply(a: real, b: real)
    requires b != 0.0
    ensures a * b / b == a
  {
  }

  lemma ZeroTimes(a: real)
    ensures a * 0.0 == 0.0
  {
  }
}
