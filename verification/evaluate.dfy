/**
 * The evaluation script's `calculate_metrics`: predict every price with
 * `estimate_price`, then summarise the residuals.
 */
module Evaluate {
  import opened Wrappers
  import opened Stats
  import opened Estimate

  /**
   * The metrics record: predictions, residuals `price - predictions` and their
   * magnitudes, MSE, its root (RMSE), MAE, R², largest and smallest absolute error, mean price, and
   * MAPE in percent (None when some price is 0, where NumPy yields inf or nan).
   */
  datatype Report = Report(
    predictions: seq<real>, errors: seq<real>, absErrors: seq<real>,
    mse: real, rmse: real, mae: real, rSquared: real, maxError: real, minError: real,
    meanPrice: real, mape: Option<real>)

  /** Why the evaluation raises: an estimate failed, or np.max met an empty array. */
  datatype EvalError = EstimateFailed(cause: EstimateError) | EmptyInput

  /** The estimate at position `i` fails with `e`, and every earlier one succeeds. */
  predicate FailsFirstAt(mileage: seq<Arg>, theta0: Arg, theta1: Arg, i: int, e: EstimateError) {
    0 <= i < |mileage| && EstimatePrice(mileage[i], theta0, theta1) == Failure(e) &&
    forall j :: 0 <= j < i ==> EstimatePrice(mileage[j], theta0, theta1).Success?
  }

  /**
   * `[estimate_price(x, theta0, theta1) for x in mileage]`: every estimate, or the
   * error of the first mileage whose estimate fails.
   */
  function PredictAll(mileage: seq<Arg>, theta0: Arg, theta1: Arg): (r: Result<seq<real>, EstimateError>)
    ensures r.Success? ==> |r.value| == |mileage|
    ensures r.Success? ==> forall i :: 0 <= i < |mileage| ==>
      EstimatePrice(mileage[i], theta0, theta1) == Success(r.value[i])
    ensures r.Failure? ==> exists i :: FailsFirstAt(mileage, theta0, theta1, i, r.error)
  {
    if mileage == [] then Success([])
    else
      match EstimatePrice(mileage[0], theta0, theta1)
      case Failure(e) =>
        assert FailsFirstAt(mileage, theta0, theta1, 0, e);
        Failure(e)
      case Success(p) =>
        var rest := PredictAll(mileage[1..], theta0, theta1);
        assert forall i :: 1 <= i < |mileage| ==> mileage[i] == mileage[1..][i - 1];
        match rest
        case Failure(e) =>
          ghost var i :| FailsFirstAt(mileage[1..], theta0, theta1, i, e);
          assert FailsFirstAt(mileage, theta0, theta1, i + 1, e);
          Failure(e)
        case Success(ps) => Success([p] + ps)
  }

  /** Elementwise `a / b`, where no element of `b` is 0. */
  function Quotients(a: seq<real>, b: seq<real>): (r: seq<real>)
    requires |a| == |b|
    requires forall i :: 0 <= i < |b| ==> b[i] != 0.0
    ensures |r| == |a|
  {
    seq(|a|, i requires 0 <= i < |a| => a[i] / b[i])
  }

  /** `np.mean(np.abs(errors / price)) * 100`, when no price is 0. */
  function Mape(errors: seq<real>, price: seq<real>): (r: Option<real>)
    requires |errors| == |price| > 0
    ensures r.Some? <==> forall i :: 0 <= i < |price| ==> price[i] != 0.0
    ensures r.Some? ==> r.value >= 0.0
  {
    if exists i :: 0 <= i < |price| && price[i] == 0.0 then None
    else
      var m := Magnitudes(Quotients(errors, price));
      assert forall i :: 0 <= i < |m| ==> m[i] >= 0.0;
      SumNonNegative(m);
      QuotientSign(Sum(m), |m| as real);
      Some(Mean(m) * 100.0)
  }

  /**
   * The metrics of predictions against actual prices, given np.sqrt's value for
   * the root of the MSE. MSE and MAE are non-negative; the largest and smallest
   * absolute errors are attained and bound every absolute error; R² is 0 on
   * constant prices and at most 1 otherwise.
   */
  function Summarize(price: seq<real>, predictions: seq<real>, rmse: real): (r: Report)
    requires |price| == |predictions| > 0
    requires IsRoot(MeanSquaredError(price, predictions), rmse)
    ensures r.predictions == predictions && r.errors == Diffs(price, predictions)
    ensures |r.absErrors| == |price| && forall i :: 0 <= i < |price| ==> r.absErrors[i] == Abs(price[i] - predictions[i])
    ensures r.mse >= 0.0 && r.mae >= 0.0
    ensures r.rmse >= 0.0 && Square(r.rmse) == r.mse
    ensures 0.0 <= r.minError <= r.maxError
    ensures (exists i :: 0 <= i < |price| && r.maxError == r.absErrors[i]) &&
      forall i :: 0 <= i < |price| ==> r.absErrors[i] <= r.maxError
    ensures (exists i :: 0 <= i < |price| && r.minError == r.absErrors[i]) &&
      forall i :: 0 <= i < |price| ==> r.minError <= r.absErrors[i]
    ensures Constant(price) ==> r.rSquared == 0.0
    ensures !Constant(price) ==> r.rSquared <= 1.0
    ensures r.meanPrice == Mean(price)
    ensures r.mape.Some? <==> forall i :: 0 <= i < |price| ==> price[i] != 0.0
  {
    var errors := Diffs(price, predictions);
    var absErrors := Magnitudes(errors);
    var ssTotal := SumSquaredDeviations(price);
    var ssResidual := SumSquaredResiduals(price, predictions);
    SumSquaredDeviationsZero(price);
    var maxError := MaxOf(absErrors);
    var minError := MinOf(absErrors);
    assert absErrors[0] >= 0.0;
    Report(predictions, errors, absErrors,
           MeanSquaredError(price, predictions), rmse, MeanAbsoluteError(price, predictions),
           RSquared(ssResidual, ssTotal), maxError, minError, Mean(price), Mape(errors, price))
  }

  /**
   * `calculate_metrics(mileage, price, theta0, theta1)`: the first failing estimate
   * raises; otherwise an empty input raises at np.max; otherwise the metrics of the
   * estimates against the prices.
   */
  function CalculateMetrics(mileage: seq<Arg>, price: seq<real>, theta0: Arg, theta1: Arg, rmse: real): (r: Result<Report, EvalError>)
    requires |mileage| == |price|
    requires PredictAll(mileage, theta0, theta1).Success? && |price| > 0 ==>
      IsRoot(MeanSquaredError(price, PredictAll(mileage, theta0, theta1).value), rmse)
    ensures r.Failure? <==> PredictAll(mileage, theta0, theta1).Failure? || |price| == 0
    ensures PredictAll(mileage, theta0, theta1).Failure? ==>
      r == Failure(EstimateFailed(PredictAll(mileage, theta0, theta1).error))
    ensures PredictAll(mileage, theta0, theta1).Success? && |price| == 0 ==> r == Failure(EmptyInput)
    ensures r.Success? ==> |r.value.predictions| == |price|
    ensures r.Success? ==> forall i :: 0 <= i < |price| ==>
      EstimatePrice(mileage[i], theta0, theta1) == Success(r.value.predictions[i])
    ensures r.Success? ==> r.value == Summarize(price, PredictAll(mileage, theta0, theta1).value, rmse)
  {
    match PredictAll(mileage, theta0, theta1)
    case Failure(e) => Failure(EstimateFailed(e))
    case Success(predictions) =>
      if |price| == 0 then Failure(EmptyInput) else Success(Summarize(price, predictions, rmse))
  }

  /**
   * Perfect predictions have zero MSE, RMSE, MAE and largest error, and an R² of 1 unless
   * the prices are constant; conversely, a zero MSE, RMSE, MAE or largest error means the
   * predictions are perfect.
   */
  lemma PerfectPredictions(price: seq<real>, predictions: seq<real>, rmse: real)
    requires |price| == |predictions| > 0
    requires IsRoot(MeanSquaredError(price, predictions), rmse)
    ensures var r := Summarize(price, predictions, rmse);
      (r.mse == 0.0 <==> predictions == price) &&
      (r.rmse == 0.0 <==> predictions == price) &&
      (r.mae == 0.0 <==> predictions == price) &&
      (r.maxError == 0.0 <==> predictions == price) &&
      (predictions == price && !Constant(price) ==> r.rSquared == 1.0)
  {
    var r := Summarize(price, predictions, rmse);
    if r.maxError == 0.0 {
      forall i | 0 <= i < |price|
        ensures Diffs(price, predictions)[i] == 0.0
      {
        assert 0.0 <= r.absErrors[i] <= r.maxError;
      }
      DiffsZero(price, predictions);
    }
    if predictions == price {
      assert forall i :: 0 <= i < |price| ==> r.absErrors[i] == 0.0;
      SumSquaredDeviationsZero(price);
    }
  }
}
