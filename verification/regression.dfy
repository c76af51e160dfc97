/**
 * Gradient-descent linear regression on standardised data, the way the trainer
 * runs it: a simultaneous, clipped update of both parameters per iteration, a cost
 * recorded each iteration, sparse snapshots of the de-standardised parameters, an
 * early stop once the cost settles, and a final snapshot fix-up.
 *
 * The pure functions below say what a run does; the `LinearRegression` class does
 * it step by step and is proved to end in the state they describe.
 */
module Regression {
  import opened Wrappers
  import opened Stats
  import opened Scaling
  import Estimate

  /** The intercept and slope of a line. */
  datatype Params = Params(theta0: real, theta1: real)

  /** The largest change either parameter may take in one iteration (`max_gradient`). */
  const MaxStep: real := 1000000.0

  /** Successive costs closer than this end training early. */
  const Tolerance: real := 0.000001

  /** Why training stops with an error: a rejected learning rate or a non-finite value. */
  datatype TrainError = InvalidLearningRate | Divergence | InfiniteCost

  /** What gradient descent runs on: standardised mileages and prices, and the learning rate. */
  datatype Setup = Setup(xn: seq<real>, yn: seq<real>, lr: real)

  predicate ValidSetup(s: Setup) {
    |s.xn| == |s.yn| > 0
  }

  /** The setup `fit` builds from raw data whose np.std values are `sdX` and `sdY`. */
  function SetupFor(x: seq<real>, y: seq<real>, sdX: real, sdY: real, lr: real): (s: Setup)
    requires |x| == |y|
    requires IsStd(x, sdX) && IsStd(y, sdY)
    ensures ValidSetup(s)
    ensures Restored(s.xn, ScaleOf(x, sdX)) == x && Restored(s.yn, ScaleOf(y, sdY)) == y
  {
    RoundTrip(x, ScaleOf(x, sdX));
    RoundTrip(y, ScaleOf(y, sdY));
    Setup(Normalized(x, ScaleOf(x, sdX)), Normalized(y, ScaleOf(y, sdY)), lr)
  }

  /** The number of passes `range(n_iterations)` makes. */
  function Passes(n: int): nat {
    if n < 0 then 0 else n
  }

  /** Both parameters are finite doubles. */
  predicate Finite(p: Params) {
    IsFinite(p.theta0) && IsFinite(p.theta1)
  }

  /** The line evaluated at every point of `xs`. */
  function Predictions(p: Params, xs: seq<real>): (r: seq<real>)
    ensures |r| == |xs|
    ensures forall i :: 0 <= i < |xs| ==> r[i] == Line(p.theta0, p.theta1, xs[i])
  {
    seq(|xs|, i requires 0 <= i < |xs| => Line(p.theta0, p.theta1, xs[i]))
  }

  /** The predictions add up to `|xs|` intercepts plus the slope times the sum of `xs`. */
  lemma {:induction false} PredictionsSum(p: Params, xs: seq<real>)
    ensures Sum(Predictions(p, xs)) == |xs| as real * p.theta0 + p.theta1 * Sum(xs)
  {
    if xs != [] {
      PredictionsSum(p, xs[1..]);
      assert Predictions(p, xs)[1..] == Predictions(p, xs[1..]);
      assert p.theta1 * xs[0] + p.theta1 * Sum(xs[1..]) == p.theta1 * Sum(xs);
    }
  }

  /**
   * The mean prediction is the line at the mean mileage; on standardised mileages,
   * whose mean is 0, it is the intercept.
   */
  lemma PredictionsMean(p: Params, xs: seq<real>)
    requires |xs| > 0
    ensures Mean(Predictions(p, xs)) == Line(p.theta0, p.theta1, Mean(xs))
  {
    PredictionsSum(p, xs);
    AffineMean(|xs| as real, p.theta0, p.theta1, Sum(xs));
  }

  /** Predictions keep the order of the mileages when the slope is non-negative, and reverse it when it is non-positive. */
  lemma PredictionsOrdered(p: Params, xs: seq<real>)
    ensures var r := Predictions(p, xs);
      forall i, j :: 0 <= i < |xs| && 0 <= j < |xs| && xs[i] <= xs[j] ==>
        (p.theta1 >= 0.0 ==> r[i] <= r[j]) && (p.theta1 <= 0.0 ==> r[i] >= r[j])
  {
    forall i, j | 0 <= i < |xs| && 0 <= j < |xs| && xs[i] <= xs[j] {
      LineMonotone(p.theta0, p.theta1, xs[i], xs[j]);
    }
  }

  /** The residuals `predictions - y_norm` of the line on the standardised data. */
  function Errors(s: Setup, p: Params): (r: seq<real>)
    requires ValidSetup(s)
    ensures |r| == |s.xn|
  {
    Diffs(Predictions(p, s.xn), s.yn)
  }

  /** np.clip to [-MaxStep, MaxStep]. */
  function Clip(v: real): (r: real)
    ensures -MaxStep <= r <= MaxStep
    ensures -MaxStep <= v <= MaxStep ==> r == v
    ensures v < -MaxStep ==> r == -MaxStep
    ensures v > MaxStep ==> r == MaxStep
  {
    if v < -MaxStep then -MaxStep else if v > MaxStep then MaxStep else v
  }

  /**
   * The update `fit` applies given the residuals `errors` of the current parameters
   * at mileages `xs`: each parameter moves against its clipped, scaled gradient.
   */
  function Update(p: Params, lr: real, errors: seq<real>, xs: seq<real>): (r: Params)
    requires |errors| == |xs| > 0
    ensures Abs(r.theta0 - p.theta0) <= MaxStep
    ensures Abs(r.theta1 - p.theta1) <= MaxStep
  {
    Params(p.theta0 - Clip(lr * Mean(errors)), p.theta1 - Clip(lr * Mean(Products(errors, xs))))
  }

  /**
   * One gradient-descent iteration. Both steps are computed from the same residuals,
   * those of the parameters before the update, and each is clipped.
   */
  function Step(s: Setup, p: Params): (r: Params)
    requires ValidSetup(s)
    ensures Abs(r.theta0 - p.theta0) <= MaxStep
    ensures Abs(r.theta1 - p.theta1) <= MaxStep
  {
    Update(p, s.lr, Errors(s, p), s.xn)
  }

  /** Where the gradient vanishes, an iteration leaves the parameters where they are. */
  lemma StepAtStationaryPoint(s: Setup, p: Params)
    requires ValidSetup(s)
    requires Mean(Errors(s, p)) == 0.0
    requires Mean(Products(Errors(s, p), s.xn)) == 0.0
    ensures Step(s, p) == p
  {
    ZeroTimes(s.lr);
  }

  /** Half the mean squared residual: never negative, and zero exactly on a perfect fit. */
  function Cost(s: Setup, p: Params): (r: real)
    requires ValidSetup(s)
    ensures r >= 0.0
    ensures r == 0.0 <==> Predictions(p, s.xn) == s.yn
  {
    MeanSquaredError(Predictions(p, s.xn), s.yn) / 2.0
  }

  /** The parameters after `k` iterations from `p0`. */
  function ParamsAt(s: Setup, p0: Params, k: nat): Params
    requires ValidSetup(s)
  {
    if k == 0 then p0 else Step(s, ParamsAt(s, p0, k - 1))
  }

  /** The cost recorded by iteration `k`: that of the parameters it starts from. */
  function CostAt(s: Setup, p0: Params, k: nat): real
    requires ValidSetup(s)
  {
    Cost(s, ParamsAt(s, p0, k))
  }

  /**
   * `_denormalize_parameters`: map the standardised line back to original units by
   * restoring the two synthetic points at standardised mileage 0 and 1, then taking
   * the slope and intercept through them.
   */
  function Denormalize(p: Params, sx: Scale, sy: Scale): (r: Params)
    requires sx.std != 0.0
    ensures r.theta1 == sy.std * p.theta1 / sx.std
    ensures r.theta0 == sy.mean + sy.std * p.theta0 - r.theta1 * sx.mean
  {
    var mileage := Restored([0.0, 1.0], sx);
    var price := Restored([p.theta0, p.theta0 + p.theta1], sy);
    SyntheticPoints(p.theta0, p.theta1, sx.mean, sx.std, sy.mean, sy.std);
    var theta1 := (price[1] - price[0]) / (mileage[1] - mileage[0]);
    Params(price[0] - theta1 * mileage[0], theta1)
  }

  lemma SyntheticPoints(t0: real, t1: real, mx: real, sx: real, my: real, sy: real)
    requires sx != 0.0
    ensures (1.0 * sx + mx) - (0.0 * sx + mx) == sx
    ensures ((t0 + t1) * sy + my - (t0 * sy + my)) / (1.0 * sx + mx - (0.0 * sx + mx)) == sy * t1 / sx
    ensures (t0 * sy + my) - sy * t1 / sx * (0.0 * sx + mx) == my + sy * t0 - sy * t1 / sx * mx
  {
  }

  /**
   * The de-standardised line predicts, at every raw mileage, the de-standardised
   * prediction of the standardised line at the standardised mileage.
   */
  lemma DenormalizedPrediction(p: Params, sx: Scale, sy: Scale, x: real)
    requires sx.std != 0.0
    ensures var q := Denormalize(p, sx, sy);
      Line(q.theta0, q.theta1, x) == Inverse(sy, Line(p.theta0, p.theta1, Forward(sx, x)))
  {
    AffineComposition(p.theta0, p.theta1, sx.mean, sx.std, sy.mean, sy.std, x);
  }

  lemma AffineComposition(t0: real, t1: real, mx: real, sx: real, my: real, sy: real, x: real)
    requires sx != 0.0
    ensures my + sy * t0 - sy * t1 / sx * mx + sy * t1 / sx * x == (t0 + t1 * ((x - mx) / sx)) * sy + my
  {
    assert sy * t1 / sx * x - sy * t1 / sx * mx == sy * (t1 * ((x - mx) / sx));
  }

  /** What one iteration computes: the updated parameters, its cost, and the updated parameters in original units. */
  datatype Iteration = Iteration(params: Params, cost: real, original: Params)

  /**
   * The record of a run: the starting parameters (also in original units) and what
   * each iteration computes, for as many iterations as the run is allowed.
   */
  datatype Trace = Trace(start: Params, startOriginal: Params, steps: seq<Iteration>)

  /**
   * The trace of gradient descent on `s` from `p0`, for `n` iterations: entry `k` is
   * one Step from the parameters before it, with the cost of those parameters, and
   * the new parameters in original units.
   */
  function TraceOf(s: Setup, sx: Scale, sy: Scale, p0: Params, n: nat): (t: Trace)
    requires ValidSetup(s) && sx.std != 0.0
    ensures t.start == p0 && t.startOriginal == Denormalize(p0, sx, sy) && |t.steps| == n
    ensures forall k :: 0 <= k < n ==>
      t.steps[k].params == Step(s, ParamsAfter(t, k)) && t.steps[k].cost == Cost(s, ParamsAfter(t, k))
    ensures forall k :: 0 <= k < n ==> t.steps[k].original == Denormalize(t.steps[k].params, sx, sy)
  {
    var t := Trace(p0, Denormalize(p0, sx, sy),
                   seq(n, k requires 0 <= k < n => Iteration(ParamsAt(s, p0, k + 1), CostAt(s, p0, k), Denormalize(ParamsAt(s, p0, k + 1), sx, sy))));
    assert forall k :: 0 <= k < n ==>
      t.steps[k].params == Step(s, ParamsAfter(t, k)) && t.steps[k].cost == Cost(s, ParamsAfter(t, k)) by {
      forall k | 0 <= k < n
        ensures t.steps[k].params == Step(s, ParamsAfter(t, k)) && t.steps[k].cost == Cost(s, ParamsAfter(t, k))
      {
        var before := ParamsAt(s, p0, k);
        if k > 0 {
          assert t.steps[k - 1].params == ParamsAt(s, p0, k);
        }
        assert ParamsAfter(t, k) == before;
        assert t.steps[k].params == ParamsAt(s, p0, k + 1) == Step(s, before);
      }
    }
    t
  }

  /**
   * Each entry of a gradient-descent trace is one Step from the parameters before
   * it, with the cost of those parameters; so neither parameter moves by more than
   * MaxStep per iteration.
   */
  lemma TraceStep(s: Setup, sx: Scale, sy: Scale, p0: Params, n: nat, k: nat)
    requires ValidSetup(s) && sx.std != 0.0 && k < n
    ensures var t := TraceOf(s, sx, sy, p0, n); var before := ParamsAfter(t, k);
      t.steps[k] == Iteration(Step(s, before), Cost(s, before), Denormalize(Step(s, before), sx, sy)) &&
      Abs(t.steps[k].params.theta0 - before.theta0) <= MaxStep &&
      Abs(t.steps[k].params.theta1 - before.theta1) <= MaxStep
  {
  }

  /** The update and cost `fit` computes from the residuals are Step and Cost. */
  lemma UpdateIsStep(s: Setup, p: Params, errors: seq<real>)
    requires ValidSetup(s) && errors == Diffs(Predictions(p, s.xn), s.yn)
    ensures Step(s, p) == Update(p, s.lr, errors, s.xn)
    ensures Cost(s, p) == Mean(Squares(errors)) / 2.0
  {
  }

  /**
   * `t` records gradient descent on `s`: each entry is one Step from the
   * parameters before it, with their cost, and the original-unit values are the
   * de-standardised parameters.
   */
  ghost predicate IsDescent(t: Trace, s: Setup, sx: Scale, sy: Scale) {
    ValidSetup(s) && sx.std != 0.0 && t.startOriginal == Denormalize(t.start, sx, sy) &&
    forall k :: 0 <= k < |t.steps| ==> DescentStep(t, s, sx, sy, k)
  }

  /** Entry `k` of `t` is one Step from the parameters before it. */
  ghost predicate DescentStep(t: Trace, s: Setup, sx: Scale, sy: Scale, k: nat)
    requires ValidSetup(s) && sx.std != 0.0 && k < |t.steps|
  {
    var p := ParamsAfter(t, k);
    t.steps[k] == Iteration(Step(s, p), Cost(s, p), Denormalize(Step(s, p), sx, sy))
  }

  /** TraceOf is a gradient-descent trace. */
  lemma TraceOfIsDescent(s: Setup, sx: Scale, sy: Scale, p0: Params, n: nat)
    requires ValidSetup(s) && sx.std != 0.0
    ensures IsDescent(TraceOf(s, sx, sy, p0, n), s, sx, sy)
  {
    forall k | 0 <= k < n
      ensures DescentStep(TraceOf(s, sx, sy, p0, n), s, sx, sy, k)
    {
      TraceStep(s, sx, sy, p0, n, k);
    }
  }

  /**
   * What entry `k` of a gradient-descent trace holds, in terms of the residuals of
   * the parameters before it.
   */
  lemma DescentEntry(t: Trace, s: Setup, sx: Scale, sy: Scale, k: nat, errors: seq<real>)
    requires IsDescent(t, s, sx, sy) && k < |t.steps|
    requires errors == Diffs(Predictions(ParamsAfter(t, k), s.xn), s.yn)
    ensures t.steps[k].params == Update(ParamsAfter(t, k), s.lr, errors, s.xn)
    ensures t.steps[k].cost == Mean(Squares(errors)) / 2.0
    ensures t.steps[k].original == Denormalize(t.steps[k].params, sx, sy)
  {
    assert DescentStep(t, s, sx, sy, k);
    UpdateIsStep(s, ParamsAfter(t, k), errors);
  }

  /** In a gradient-descent trace the original-unit parameters are the de-standardised ones. */
  lemma OriginalAfterIsDenormalized(t: Trace, s: Setup, sx: Scale, sy: Scale, k: nat)
    requires IsDescent(t, s, sx, sy) && k <= |t.steps|
    ensures OriginalAfter(t, k) == Denormalize(ParamsAfter(t, k), sx, sy)
  {
    if k > 0 {
      assert DescentStep(t, s, sx, sy, k - 1);
    }
  }

  /** Iteration `k` leaves non-finite parameters behind ("Numerical divergence"). */
  predicate Diverges(t: Trace, k: nat)
    requires k < |t.steps|
  {
    !Finite(t.steps[k].params)
  }

  /** Iteration `k` computes a non-finite cost ("Infinite cost"). */
  predicate CostFails(t: Trace, k: nat)
    requires k < |t.steps|
  {
    !IsFinite(t.steps[k].cost)
  }

  /**
   * Iteration `k` stops early: its cost is within Tolerance of the previous one.
   * Iteration 0 compares against an infinite previous cost and so never stops.
   */
  predicate Converges(t: Trace, k: nat)
    requires k < |t.steps|
  {
    k >= 1 && Abs(t.steps[k - 1].cost - t.steps[k].cost) < Tolerance
  }

  /** Iteration `k` is the last one run: it fails or stops early. */
  predicate Halts(t: Trace, k: nat)
    requires k < |t.steps|
  {
    Diverges(t, k) || CostFails(t, k) || Converges(t, k)
  }

  /** The first iteration from `k` on that halts; the trace length when none does. */
  function FirstHalt(t: Trace, k: nat): (h: nat)
    requires k <= |t.steps|
    decreases |t.steps| - k
    ensures k <= h <= |t.steps|
    ensures forall j :: k <= j < h ==> !Halts(t, j)
    ensures h < |t.steps| ==> Halts(t, h)
  {
    if k == |t.steps| then k
    else if Halts(t, k) then k
    else FirstHalt(t, k + 1)
  }

  /** The first iteration from `i` on that halts is `k` when `k` halts and none between does. */
  lemma {:induction false} FirstHaltIs(t: Trace, i: nat, k: nat)
    requires i <= k < |t.steps| && Halts(t, k)
    requires forall j :: i <= j < k ==> !Halts(t, j)
    ensures FirstHalt(t, i) == k
    decreases k - i
  {
    if i < k {
      assert !Halts(t, i);
      FirstHaltIs(t, i + 1, k);
    }
  }

  /** Whether a run raises, and which error: that of the first iteration that halts. */
  function FitOutcome(t: Trace): (r: Outcome<TrainError>)
    ensures r != Fail(InvalidLearningRate)
    ensures r.Fail? ==> FirstHalt(t, 0) < |t.steps|
    ensures |t.steps| == 0 ==> r == Pass
  {
    var h := FirstHalt(t, 0);
    if h < |t.steps| && Diverges(t, h) then Fail(Divergence)
    else if h < |t.steps| && CostFails(t, h) then Fail(InfiniteCost)
    else Pass
  }

  /**
   * A run fails with Divergence exactly when some iteration diverges before any
   * iteration halts, and with InfiniteCost exactly when some iteration has a finite
   * update but an infinite cost before any iteration halts; it never reports an
   * invalid learning rate.
   */
  lemma FitOutcomeCases(t: Trace)
    ensures FitOutcome(t) == Fail(Divergence) <==>
      exists k :: 0 <= k < |t.steps| && Diverges(t, k) && forall j :: 0 <= j < k ==> !Halts(t, j)
    ensures FitOutcome(t) == Fail(InfiniteCost) <==>
      exists k :: 0 <= k < |t.steps| && !Diverges(t, k) && CostFails(t, k) && forall j :: 0 <= j < k ==> !Halts(t, j)
    ensures FitOutcome(t) != Fail(InvalidLearningRate)
  {
    var h := FirstHalt(t, 0);
    forall k | 0 <= k < |t.steps| && (Diverges(t, k) || CostFails(t, k)) && (forall j :: 0 <= j < k ==> !Halts(t, j))
      ensures k == h
    {
      FirstHaltIs(t, 0, k);
    }
    if h < |t.steps| {
      assert forall j :: 0 <= j < h ==> !Halts(t, j);
      if Diverges(t, h) {
        assert FitOutcome(t) == Fail(Divergence);
      } else if CostFails(t, h) {
        assert FitOutcome(t) == Fail(InfiniteCost) && !Diverges(t, h);
      }
    }
  }

  /** Because every step is clipped, `k` iterations move each parameter by at most `k * MaxStep`. */
  lemma {:induction false} DriftBound(t: Trace, s: Setup, sx: Scale, sy: Scale, k: nat)
    requires IsDescent(t, s, sx, sy) && k <= |t.steps|
    ensures Abs(ParamsAfter(t, k).theta0 - t.start.theta0) <= k as real * MaxStep
    ensures Abs(ParamsAfter(t, k).theta1 - t.start.theta1) <= k as real * MaxStep
  {
    if k > 0 {
      DriftBound(t, s, sx, sy, k - 1);
      assert DescentStep(t, s, sx, sy, k - 1);
    }
  }

  /**
   * A run whose iterations cannot carry either parameter past MaxFinite never fails
   * with Divergence; in particular no run of up to MaxFinite / MaxStep iterations
   * from the origin does.
   */
  lemma DivergenceUnreachable(t: Trace, s: Setup, sx: Scale, sy: Scale)
    requires IsDescent(t, s, sx, sy)
    requires Abs(t.start.theta0) + |t.steps| as real * MaxStep <= MaxFinite
    requires Abs(t.start.theta1) + |t.steps| as real * MaxStep <= MaxFinite
    ensures forall k :: 0 <= k < |t.steps| ==> !Diverges(t, k)
    ensures FitOutcome(t) != Fail(Divergence)
  {
    forall k | 0 <= k < |t.steps|
      ensures !Diverges(t, k)
    {
      DriftBound(t, s, sx, sy, k + 1);
      assert t.steps[k].params == ParamsAfter(t, k + 1);
      assert (k + 1) as real * MaxStep <= |t.steps| as real * MaxStep;
    }
  }

  /** The costs of the first `k` iterations. */
  function CostsOf(t: Trace, k: nat): (r: seq<real>)
    requires k <= |t.steps|
    ensures |r| == k
  {
    seq(k, j requires 0 <= j < k => t.steps[j].cost)
  }

  /** The parameters once the first `k` iterations have run. */
  function ParamsAfter(t: Trace, k: nat): Params
    requires k <= |t.steps|
  {
    if k == 0 then t.start else t.steps[k - 1].params
  }

  /** ParamsAfter in original units. */
  function OriginalAfter(t: Trace, k: nat): Params
    requires k <= |t.steps|
  {
    if k == 0 then t.startOriginal else t.steps[k - 1].original
  }

  /** One entry of `theta_history`: an iteration index and de-standardised parameters. */
  datatype Snapshot = Snapshot(iteration: int, params: Params)

  /**
   * The checkpoint schedule: iteration 0, then ever sparser, then every 50th. Every
   * multiple of 50 is a checkpoint, from 200 on only those are, and every checkpoint
   * is even or a multiple of 5.
   */
  predicate ShouldStore(i: int): (b: bool)
    ensures i % 50 == 0 ==> b
    ensures i >= 200 ==> (b <==> i % 50 == 0)
    ensures b ==> i % 2 == 0 || i % 5 == 0
  {
    EvenMultiples(i);
    i == 0 || (i < 10 && i % 2 == 0) || (i < 50 && i % 5 == 0) || (i < 200 && i % 20 == 0) || i % 50 == 0
  }

  /** Multiples of 20 and of 50 are even. */
  lemma EvenMultiples(i: int)
    ensures i % 20 == 0 ==> i % 2 == 0
    ensures i % 50 == 0 ==> i % 2 == 0
  {
    if i % 20 == 0 {
      assert i == 2 * (10 * (i / 20));
    }
    if i % 50 == 0 {
      assert i == 2 * (25 * (i / 50));
    }
  }

  /** The snapshots are in strictly increasing order of iteration. */
  predicate Increasing(r: seq<Snapshot>) {
    forall a, b :: 0 <= a < b < |r| ==> r[a].iteration < r[b].iteration
  }

  /** Some snapshot is of iteration `j`. */
  predicate Recorded(r: seq<Snapshot>, j: int) {
    exists a :: 0 <= a < |r| && r[a].iteration == j
  }

  /** The snapshots the first `k` iterations take, one per checkpoint. */
  function Snapshots(t: Trace, k: nat): (r: seq<Snapshot>)
    requires k <= |t.steps|
    ensures |r| <= k
  {
    if k == 0 then []
    else
      var earlier := Snapshots(t, k - 1);
      if ShouldStore(k - 1) then earlier + [Snapshot(k - 1, t.steps[k - 1].original)] else earlier
  }

  /**
   * The snapshots of the first `k` iterations are checkpoints below `k`, in strictly
   * increasing order, starting with iteration 0, each holding the parameters in
   * original units after its iteration.
   */
  lemma {:induction false} SnapshotsOrdered(t: Trace, k: nat)
    requires k <= |t.steps|
    ensures var r := Snapshots(t, k);
      (forall m :: 0 <= m < |r| ==> 0 <= r[m].iteration < k) &&
      Increasing(r) && (k > 0 ==> |r| > 0 && r[0].iteration == 0)
  {
    if k > 0 {
      SnapshotsOrdered(t, k - 1);
      var earlier := Snapshots(t, k - 1);
      if ShouldStore(k - 1) {
        var r := Snapshots(t, k);
        assert r == earlier + [Snapshot(k - 1, t.steps[k - 1].original)];
        forall m | 0 <= m < |earlier|
          ensures r[m] == earlier[m]
        {
        }
      }
    }
  }

  /** Each snapshot is taken at a checkpoint and holds the parameters after that iteration, in original units. */
  lemma {:induction false} SnapshotsAtCheckpoints(t: Trace, k: nat)
    requires k <= |t.steps|
    ensures forall m :: 0 <= m < |Snapshots(t, k)| ==>
      var it := Snapshots(t, k)[m].iteration;
      0 <= it < k && ShouldStore(it) && Snapshots(t, k)[m].params == t.steps[it].original
  {
    if k > 0 {
      SnapshotsAtCheckpoints(t, k - 1);
      var earlier := Snapshots(t, k - 1);
      if ShouldStore(k - 1) {
        var r := Snapshots(t, k);
        forall m | 0 <= m < |earlier|
          ensures r[m] == earlier[m]
        {
        }
      }
    }
  }

  /** Every checkpoint below `k` has its snapshot. */
  lemma {:induction false} SnapshotsComplete(t: Trace, k: nat, j: nat)
    requires k <= |t.steps| && j < k && ShouldStore(j)
    ensures Recorded(Snapshots(t, k), j)
  {
    var earlier := Snapshots(t, k - 1);
    if j == k - 1 {
      var r := Snapshots(t, k);
      assert r[|r| - 1].iteration == j;
    } else {
      SnapshotsComplete(t, k - 1, j);
      assert Recorded(earlier, j);
      var m :| 0 <= m < |earlier| && earlier[m].iteration == j;
      assert Snapshots(t, k)[m] == earlier[m];
    }
  }

  /** The post-loop fix-up: make sure the history ends with the final iteration. */
  function WithFinal(history: seq<Snapshot>, last: int, finals: Params): (r: seq<Snapshot>)
    ensures |r| > 0 && r[|r| - 1].iteration == last
    ensures history <= r
    ensures r == history || r == history + [Snapshot(last, finals)]
    ensures history != [] && history[|history| - 1].iteration == last ==> r == history
  {
    if history == [] || history[|history| - 1].iteration != last then history + [Snapshot(last, finals)]
    else history
  }

  /** The training state of a model: parameters, both histories and the final parameters. */
  datatype ModelState = ModelState(params: Params, costs: seq<real>, history: seq<Snapshot>, finals: Option<Params>)

  /** The state once the first `i` iterations of a run on `m` have been recorded. */
  function Partial(t: Trace, m: ModelState, i: nat): (r: ModelState)
    requires i <= |t.steps|
    ensures |r.costs| == |m.costs| + i && r.finals == m.finals
  {
    ModelState(ParamsAfter(t, i), m.costs + CostsOf(t, i), m.history + Snapshots(t, i), m.finals)
  }

  /** A model as its constructor leaves it. */
  const FreshState: ModelState := ModelState(Params(0.0, 0.0), [], [], None)

  /** How many iterations a successful run goes through. */
  function Ran(t: Trace): (k: nat)
    ensures k <= |t.steps|
  {
    var h := FirstHalt(t, 0);
    if h == |t.steps| then h else h + 1
  }

  /**
   * The state `fit` leaves behind, given the trace of its run: on an error, the
   * parameters of the failing iteration and the records of the iterations before
   * it; otherwise the parameters of the last iteration run, its costs and
   * snapshots, the final parameters in original units and the fixed-up history.
   */
  function Fitted(t: Trace, m: ModelState): (r: ModelState)
    ensures FitOutcome(t).Fail? ==> r.finals == m.finals
    ensures FitOutcome(t).Pass? ==> r.finals.Some?
  {
    var h := FirstHalt(t, 0);
    if FitOutcome(t).Fail? then
      ModelState(t.steps[h].params, m.costs + CostsOf(t, h), m.history + Snapshots(t, h), m.finals)
    else
      var k := Ran(t);
      var costs := m.costs + CostsOf(t, k);
      var finals := OriginalAfter(t, k);
      ModelState(ParamsAfter(t, k), costs, WithFinal(m.history + Snapshots(t, k), |costs| - 1, finals), Some(finals))
  }

  /**
   * A failed run keeps the final parameters it had, and records the costs and
   * snapshots of exactly the iterations before the failing one.
   */
  lemma FailedRun(t: Trace, m: ModelState)
    requires FitOutcome(t).Fail?
    ensures var r := Fitted(t, m); var h := FirstHalt(t, 0);
      h < |t.steps| && r.finals == m.finals && r.params == t.steps[h].params &&
      r.costs == m.costs + CostsOf(t, h) && m.history <= r.history &&
      (FitOutcome(t) == Fail(Divergence) ==> !Finite(r.params))
  {
  }

  /**
   * A successful run of `n >= 1` iterations runs between 1 and `n` of them; fewer
   * than `n` only when the last one converged, which is never iteration 0, and no
   * earlier iteration did.
   */
  lemma RanCount(t: Trace)
    requires |t.steps| >= 1 && FitOutcome(t).Pass?
    ensures 1 <= Ran(t) <= |t.steps|
    ensures Ran(t) < |t.steps| ==> Ran(t) >= 2 && Converges(t, Ran(t) - 1)
    ensures forall j :: 0 <= j < Ran(t) - 1 ==> !Converges(t, j)
  {
    var h := FirstHalt(t, 0);
    if h < |t.steps| {
      assert Halts(t, h) && Converges(t, h) && Ran(t) == h + 1;
    }
    forall j | 0 <= j < h
      ensures !Converges(t, j)
    {
      assert !Halts(t, j);
    }
  }

  /** A successful run appends one cost per iteration run, in order. */
  lemma CostCount(t: Trace, m: ModelState)
    requires FitOutcome(t).Pass?
    ensures |Fitted(t, m).costs| == |m.costs| + Ran(t)
    ensures Fitted(t, m).costs == m.costs + CostsOf(t, Ran(t))
  {
    SucceedsAt(t, m);
  }

  /**
   * A successful run leaves a history that ends with the last iteration's index
   * (counting every cost on record), and final parameters equal to the
   * parameters it stopped at, in original units.
   */
  lemma SucceededRun(t: Trace, m: ModelState)
    requires FitOutcome(t).Pass?
    ensures var r := Fitted(t, m);
      r.finals == Some(OriginalAfter(t, Ran(t))) && r.params == ParamsAfter(t, Ran(t)) &&
      |r.history| > 0 && r.history[|r.history| - 1].iteration == |r.costs| - 1 &&
      m.history <= r.history
    ensures var r := Fitted(t, m);
      |t.steps| >= 1 ==> r.history[|r.history| - 1] == Snapshot(|r.costs| - 1, r.finals.value)
  {
    if |t.steps| >= 1 {
      LastSnapshot(t, m);
    }
  }

  /** After a successful run of at least one iteration, the last snapshot is the final one. */
  lemma LastSnapshot(t: Trace, m: ModelState)
    requires FitOutcome(t).Pass? && |t.steps| >= 1
    ensures var r := Fitted(t, m);
      |r.history| > 0 && r.finals.Some? && r.history[|r.history| - 1] == Snapshot(|r.costs| - 1, r.finals.value)
  {
    var k := Ran(t);
    SucceedsAt(t, m);
    PartialEndsAt(t, m, k);
    var p := Partial(t, m, k);
    WithFinalLast(p.history, |p.costs| - 1, OriginalAfter(t, k));
  }

  /**
   * After `k >= 1` iterations the history is not empty, and a last snapshot that is
   * of the last iteration holds the parameters after it.
   */
  lemma PartialEndsAt(t: Trace, m: ModelState, k: nat)
    requires 1 <= k <= |t.steps|
    ensures var p := Partial(t, m, k); var r := p.history;
      r != [] && (r[|r| - 1].iteration == |p.costs| - 1 ==> r[|r| - 1].params == OriginalAfter(t, k))
  {
    var p := Partial(t, m, k);
    var snaps := Snapshots(t, k);
    SnapshotsOrdered(t, k);
    SnapshotsAtCheckpoints(t, k);
    assert p.history[|p.history| - 1] == snaps[|snaps| - 1];
    if snaps[|snaps| - 1].iteration == |p.costs| - 1 {
      assert snaps[|snaps| - 1].params == t.steps[k - 1].original;
    }
  }

  /** The fix-up ends with the final snapshot, unless that iteration was recorded with other parameters. */
  lemma WithFinalLast(history: seq<Snapshot>, last: int, finals: Params)
    requires history != [] && history[|history| - 1].iteration == last ==> history[|history| - 1].params == finals
    ensures var r := WithFinal(history, last, finals); r[|r| - 1] == Snapshot(last, finals)
  {
  }

  /**
   * A fresh model's successful run of `n >= 1` iterations leaves a history in
   * strictly increasing order of iteration, starting with iteration 0, holding every
   * checkpoint it went through, and ending with the last iteration and the final
   * parameters.
   */
  lemma FreshHistory(t: Trace)
    requires FitOutcome(t).Pass? && |t.steps| >= 1
    ensures var r := Fitted(t, FreshState);
      Increasing(r.history) && r.history[0].iteration == 0 &&
      (forall j :: 0 <= j < Ran(t) && ShouldStore(j) ==> Recorded(r.history, j)) &&
      r.history[|r.history| - 1] == Snapshot(Ran(t) - 1, r.finals.value)
  {
    var k := Ran(t);
    FreshRun(t);
    HistoryShape(t, k);
    var h := WithFinal(Snapshots(t, k), k - 1, OriginalAfter(t, k));
    var r := Fitted(t, FreshState);
    assert r.history == h && r.finals.value == OriginalAfter(t, k);
    assert Increasing(h) && h[0].iteration == 0 && h[|h| - 1] == Snapshot(k - 1, OriginalAfter(t, k));
  }

  /** A fresh model's successful run leaves the fixed-up snapshots of the iterations it ran. */
  lemma FreshRun(t: Trace)
    requires FitOutcome(t).Pass?
    ensures var k := Ran(t); var r := Fitted(t, FreshState);
      r.history == WithFinal(Snapshots(t, k), k - 1, OriginalAfter(t, k)) && r.finals == Some(OriginalAfter(t, k))
  {
    var k := Ran(t);
    SucceedsAt(t, FreshState);
    var p := Partial(t, FreshState, k);
    assert p.history == Snapshots(t, k) && |p.costs| == k;
  }

  /**
   * The fixed-up snapshots of the first `k` iterations are in strictly increasing
   * order of iteration, end with iteration `k - 1` and the parameters after it, and
   * cover every checkpoint below `k`.
   */
  lemma HistoryShape(t: Trace, k: nat)
    requires k <= |t.steps|
    ensures var r := WithFinal(Snapshots(t, k), k - 1, OriginalAfter(t, k));
      r[|r| - 1] == Snapshot(k - 1, OriginalAfter(t, k)) && Increasing(r) &&
      (k >= 1 ==> r[0].iteration == 0) &&
      (forall j :: 0 <= j < k && ShouldStore(j) ==> Recorded(r, j))
  {
    var snaps := Snapshots(t, k);
    SnapshotsOrdered(t, k);
    var r := WithFinal(snaps, k - 1, OriginalAfter(t, k));
    if r != snaps {
      assert r == snaps + [Snapshot(k - 1, OriginalAfter(t, k))];
      if snaps != [] {
        var last := snaps[|snaps| - 1].iteration;
        assert last < k - 1;
        forall a | 0 <= a < |snaps|
          ensures r[a].iteration < k - 1
        {
          assert r[a] == snaps[a];
        }
      }
    }
    forall j | 0 <= j < k && ShouldStore(j)
      ensures Recorded(r, j)
    {
      SnapshotsComplete(t, k, j);
      var a :| 0 <= a < |snaps| && snaps[a].iteration == j;
      assert r[a] == snaps[a];
    }
  }

  /** An iteration that halts after none before it did is the one a run stops at. */
  lemma FailsAt(t: Trace, m: ModelState, i: nat)
    requires i < |t.steps| && FirstHalt(t, 0) == FirstHalt(t, i) && (Diverges(t, i) || CostFails(t, i))
    ensures FitOutcome(t) == (if Diverges(t, i) then Fail(Divergence) else Fail(InfiniteCost))
    ensures Fitted(t, m) == Partial(t, m, i).(params := t.steps[i].params)
  {
    assert FirstHalt(t, i) == i;
  }

  /** Running iteration `i` appends its cost, and its snapshot when `i` is a checkpoint. */
  lemma Records(t: Trace, m: ModelState, i: nat)
    requires i < |t.steps|
    ensures var p := Partial(t, m, i); var q := Partial(t, m, i + 1);
      q.params == t.steps[i].params && q.costs == p.costs + [t.steps[i].cost] &&
      q.history == if ShouldStore(i) then p.history + [Snapshot(i, t.steps[i].original)] else p.history
  {
    assert CostsOf(t, i + 1) == CostsOf(t, i) + [t.steps[i].cost];
  }

  /** An iteration that converges after none before it halted ends a successful run. */
  lemma StopsAt(t: Trace, i: nat)
    requires i < |t.steps| && FirstHalt(t, 0) == FirstHalt(t, i)
    requires !Diverges(t, i) && !CostFails(t, i) && Converges(t, i)
    ensures FitOutcome(t) == Pass && Ran(t) == i + 1
  {
    assert FirstHalt(t, i) == i;
  }

  /** An iteration that does not halt moves the first halt no earlier. */
  lemma Continues(t: Trace, i: nat)
    requires i < |t.steps| && !Halts(t, i)
    ensures FirstHalt(t, i) == FirstHalt(t, i + 1)
  {
  }

  /** A run that reaches the end of its iterations is successful. */
  lemma RunsOut(t: Trace, i: nat)
    requires i == |t.steps| && FirstHalt(t, 0) == FirstHalt(t, i)
    ensures FitOutcome(t) == Pass && Ran(t) == i
  {
  }

  /** What a successful run leaves behind, spelled out. */
  lemma SucceedsAt(t: Trace, m: ModelState)
    requires FitOutcome(t) == Pass
    ensures var p := Partial(t, m, Ran(t)); var f := OriginalAfter(t, Ran(t));
      Fitted(t, m) == p.(history := WithFinal(p.history, |p.costs| - 1, f), finals := Some(f))
  {
  }

  /** The trace of `fit` on raw data with the given hyperparameters, from `p0`. */
  function RunOf(x: seq<real>, y: seq<real>, sdX: real, sdY: real, lr: real, n: int, p0: Params): Trace
    requires |x| == |y|
    requires IsStd(x, sdX) && IsStd(y, sdY)
  {
    TraceOf(SetupFor(x, y, sdX, sdY, lr), ScaleOf(x, sdX), ScaleOf(y, sdY), p0, Passes(n))
  }

  class LinearRegression {
    const learningRate: real
    const nIterations: int
    const scalerX: ManualScaler
    const scalerY: ManualScaler
    var theta0: real
    var theta1: real
    var costHistory: seq<real>
    var thetaHistory: seq<Snapshot>
    /** `theta0_final`/`theta1_final`, which exist only once `fit` has finished. */
    var finals: Option<Params>

    /** The two scalers are separate objects. */
    predicate Valid()
      reads this
    {
      scalerX != scalerY
    }

    function State(): ModelState
      reads this
    {
      ModelState(Params(theta0, theta1), costHistory, thetaHistory, finals)
    }

    /** `__init__` for a positive learning rate. */
    constructor(lr: real, n: int)
      requires lr > 0.0
      ensures learningRate == lr && nIterations == n
      ensures State() == FreshState
      ensures fresh(scalerX) && fresh(scalerY) && Valid()
      ensures scalerX.State() == None && scalerY.State() == None
    {
      learningRate := lr;
      nIterations := n;
      theta0, theta1 := 0.0, 0.0;
      scalerX := new ManualScaler();
      scalerY := new ManualScaler();
      costHistory := [];
      thetaHistory := [];
      finals := None;
    }

    /**
     * `LinearRegression(learning_rate, n_iterations)`: a non-positive learning rate
     * is refused; any positive one, including one above 1, is accepted.
     */
    static method New(lr: real, n: int) returns (r: Result<LinearRegression, TrainError>)
      ensures r.Failure? <==> lr <= 0.0
      ensures r.Failure? ==> r.error == InvalidLearningRate
      ensures r.Success? ==> fresh(r.value) && fresh(r.value.scalerX) && fresh(r.value.scalerY)
      ensures r.Success? ==> r.value.learningRate == lr && r.value.nIterations == n
      ensures r.Success? ==> r.value.State() == FreshState && r.value.Valid()
    {
      if lr <= 0.0 {
        return Failure(InvalidLearningRate);
      }
      var model := new LinearRegression(lr, n);
      return Success(model);
    }

    /** `_normalize_data`: fit both scalers and return the standardised data. */
    method NormalizeData(x: seq<real>, y: seq<real>, sdX: real, sdY: real) returns (xn: seq<real>, yn: seq<real>)
      requires Valid()
      requires IsStd(x, sdX) && IsStd(y, sdY)
      modifies scalerX, scalerY
      ensures scalerX.State() == Some(ScaleOf(x, sdX)) && scalerY.State() == Some(ScaleOf(y, sdY))
      ensures xn == Normalized(x, ScaleOf(x, sdX)) && yn == Normalized(y, ScaleOf(y, sdY))
    {
      xn := scalerX.FitTransform(x, sdX);
      yn := scalerY.FitTransform(y, sdY);
    }

    /** `predict`: the current line on (standardised) mileages. */
    function Predict(xs: seq<real>): (r: seq<real>)
      reads this
      ensures |r| == |xs|
      ensures |xs| > 0 ==> Mean(r) == Line(theta0, theta1, Mean(xs))
      ensures forall i, j :: 0 <= i < |xs| && 0 <= j < |xs| && xs[i] <= xs[j] ==>
        (theta1 >= 0.0 ==> r[i] <= r[j]) && (theta1 <= 0.0 ==> r[i] >= r[j])
    {
      var p := Params(theta0, theta1);
      PredictionsOrdered(p, xs);
      if |xs| > 0 then PredictionsMean(p, xs); Predictions(p, xs) else Predictions(p, xs)
    }

    /** `_denormalize_parameters`: the current line in original units. */
    function DenormalizeParameters(): (r: Params)
      reads this, scalerX, scalerY
      requires scalerX.State().Some? && scalerY.State().Some?
      requires scalerX.State().value.std != 0.0
      ensures r == Denormalize(Params(theta0, theta1), scalerX.State().value, scalerY.State().value)
      ensures var sx, sy := scalerX.State().value, scalerY.State().value;
        r.theta1 == sy.std * theta1 / sx.std && r.theta0 == sy.mean + sy.std * theta0 - r.theta1 * sx.mean
    {
      Denormalize(Params(theta0, theta1), scalerX.State().value, scalerY.State().value)
    }

    /** `predict_price`: the final line at a raw mileage; None before `fit` has finished. */
    function PredictPrice(mileage: real): (r: Option<real>)
      reads this
      ensures r.Some? <==> finals.Some?
      ensures r.Some? && IsFinite(mileage) && Finite(finals.value) && IsFinite(r.value) ==>
        Estimate.EstimatePrice(Estimate.Number(mileage), Estimate.Number(finals.value.theta0), Estimate.Number(finals.value.theta1)) == Success(r.value)
      ensures r.Some? && IsFinite(mileage) && Finite(finals.value) && !IsFinite(r.value) ==>
        Estimate.EstimatePrice(Estimate.Number(mileage), Estimate.Number(finals.value.theta0), Estimate.Number(finals.value.theta1)) == Failure(Estimate.InvalidPrice)
    {
      match finals
      case None => None
      case Some(f) => Some(Line(f.theta0, f.theta1, mileage))
    }

    /**
     * `fit`: standardise the data, then run gradient descent from the current
     * parameters, appending to the existing histories. The outcome and the new state
     * are those the trace of the run determines; on success every raw-mileage
     * prediction is the de-standardised prediction of the standardised line.
     */
    method Fit(x: seq<real>, y: seq<real>, sdX: real, sdY: real) returns (r: Outcome<TrainError>)
      requires Valid()
      requires |x| == |y|
      requires IsStd(x, sdX) && IsStd(y, sdY)
      modifies this, scalerX, scalerY
      ensures Valid()
      ensures scalerX.State() == Some(ScaleOf(x, sdX)) && scalerY.State() == Some(ScaleOf(y, sdY))
      ensures r == FitOutcome(RunOf(x, y, sdX, sdY, learningRate, nIterations, old(State()).params))
      ensures State() == Fitted(RunOf(x, y, sdX, sdY, learningRate, nIterations, old(State()).params), old(State()))
      ensures r.Pass? ==> forall v :: PredictPrice(v) == Some(Inverse(ScaleOf(y, sdY), Line(theta0, theta1, Forward(ScaleOf(x, sdX), v))))
    {
      ghost var p0 := Params(theta0, theta1);
      var xn, yn := NormalizeData(x, y, sdX, sdY);
      ghost var s := SetupFor(x, y, sdX, sdY, learningRate);
      ghost var sx, sy := ScaleOf(x, sdX), ScaleOf(y, sdY);
      ghost var t := RunOf(x, y, sdX, sdY, learningRate, nIterations, p0);
      TraceOfIsDescent(s, sx, sy, p0, Passes(nIterations));
      r := Descend(xn, yn, t);
      if r.Pass? {
        SucceededRun(t, old(State()));
        OriginalAfterIsDenormalized(t, s, sx, sy, Ran(t));
        forall v {
          DenormalizedPrediction(Params(theta0, theta1), sx, sy, v);
        }
      }
    }

    /**
     * One pass of the loop of `fit`, up to the checks: compute the residuals of the
     * current parameters, update both parameters by their clipped steps, and return
     * the cost of the residuals. It does what entry `i` of the trace records.
     */
    method Advance(xn: seq<real>, yn: seq<real>, ghost t: Trace, ghost i: nat) returns (cost: real)
      requires scalerX.State().Some? && scalerY.State().Some? && scalerX.State().value.std != 0.0
      requires IsDescent(t, Setup(xn, yn, learningRate), scalerX.State().value, scalerY.State().value)
      requires i < |t.steps| && Params(theta0, theta1) == ParamsAfter(t, i)
      modifies this
      ensures Params(theta0, theta1) == t.steps[i].params && cost == t.steps[i].cost
      ensures DenormalizeParameters() == t.steps[i].original
      ensures costHistory == old(costHistory) && thetaHistory == old(thetaHistory) && finals == old(finals)
    {
      var errors := Diffs(Predict(xn), yn);
      DescentEntry(t, Setup(xn, yn, learningRate), scalerX.State().value, scalerY.State().value, i, errors);
      var next := Update(Params(theta0, theta1), learningRate, errors, xn);
      theta0, theta1 := next.theta0, next.theta1;
      cost := Mean(Squares(errors)) / 2.0;
    }

    /**
     * The loop and the history fix-up of `fit`, on data already standardised by the
     * scalers: iterate from the current parameters as the gradient-descent trace
     * `t` describes, recording costs and checkpoint snapshots, until an iteration
     * fails or converges or the iterations run out.
     */
    method Descend(xn: seq<real>, yn: seq<real>, ghost t: Trace) returns (r: Outcome<TrainError>)
      requires scalerX.State().Some? && scalerY.State().Some? && scalerX.State().value.std != 0.0
      requires IsDescent(t, Setup(xn, yn, learningRate), scalerX.State().value, scalerY.State().value)
      requires t.start == Params(theta0, theta1) && |t.steps| == Passes(nIterations)
      modifies this
      ensures r == FitOutcome(t)
      ensures State() == Fitted(t, old(State()))
    {
      ghost var m0 := State();
      var n := Passes(nIterations);
      var prevCost: Option<real> := None;
      var i := 0;
      ghost var stopped := false;
      while i < n
        invariant 0 <= i <= n
        invariant FirstHalt(t, 0) == FirstHalt(t, i)
        invariant State() == Partial(t, m0, i)
        invariant prevCost == if i == 0 then None else Some(t.steps[i - 1].cost)
      {
        var cost := Advance(xn, yn, t, i);
        if !(IsFinite(theta0) && IsFinite(theta1)) {
          FailsAt(t, m0, i);
          return Fail(Divergence);
        }
        if !IsFinite(cost) {
          FailsAt(t, m0, i);
          return Fail(InfiniteCost);
        }
        Record(t, m0, i, cost);
        if prevCost.Some? && Abs(prevCost.value - cost) < Tolerance {
          StopsAt(t, i);
          i, stopped := i + 1, true;
          break;
        }
        Continues(t, i);
        prevCost := Some(cost);
        i := i + 1;
      }
      if !stopped {
        RunsOut(t, i);
      }
      Conclude(t, Setup(xn, yn, learningRate), m0, i);
      return Pass;
    }

    /**
     * The bookkeeping of one finished iteration: append its cost to the cost
     * history and, at a checkpoint, a snapshot of the parameters in original units.
     */
    method Record(ghost t: Trace, ghost m0: ModelState, i: nat, cost: real)
      requires scalerX.State().Some? && scalerY.State().Some? && scalerX.State().value.std != 0.0
      requires i < |t.steps| && cost == t.steps[i].cost && DenormalizeParameters() == t.steps[i].original
      requires State() == Partial(t, m0, i).(params := t.steps[i].params)
      modifies this
      ensures State() == Partial(t, m0, i + 1)
    {
      Records(t, m0, i);
      costHistory := costHistory + [cost];
      if ShouldStore(i) {
        thetaHistory := thetaHistory + [Snapshot(i, DenormalizeParameters())];
      }
    }

    /**
     * What `fit` does after a successful loop: record the final parameters in
     * original units, and append a snapshot of them unless the last snapshot is
     * already of the final iteration.
     */
    method Conclude(ghost t: Trace, ghost s: Setup, ghost m0: ModelState, ghost i: nat)
      requires scalerX.State().Some? && scalerY.State().Some? && scalerX.State().value.std != 0.0
      requires IsDescent(t, s, scalerX.State().value, scalerY.State().value)
      requires FitOutcome(t) == Pass && i == Ran(t) && State() == Partial(t, m0, i)
      modifies this
      ensures State() == Fitted(t, m0)
    {
      OriginalAfterIsDenormalized(t, s, scalerX.State().value, scalerY.State().value, i);
      SucceedsAt(t, m0);
      var f := DenormalizeParameters();
      finals := Some(f);
      var finalIteration := |costHistory| - 1;
      if thetaHistory == [] || thetaHistory[|thetaHistory| - 1].iteration != finalIteration {
        thetaHistory := thetaHistory + [Snapshot(finalIteration, f)];
      }
    }
  }
}
