# ft_linear_regression in Dafny

A model of the single-feature linear-regression engine of `ft_linear_regression`:

- the mean/standard-deviation scaler `ManualScaler`;
- the `LinearRegression` model with its gradient-descent `fit`:
  - a simultaneous, clipped update of `theta0` and `theta1`;
  - a cost appended to `cost_history` every iteration;
  - parameter snapshots taken into `theta_history` on a sparse schedule;
  - an early stop once two successive costs are closer than 1e-6;
  - the de-standardisation of the parameters through two synthetic points;
  - the post-loop fix-up that makes the history end with the final iteration;
- the trainer's `calculate_metrics` and its learning-rate grid search `optimize_hyperparameters`;
- the evaluation script's `calculate_metrics`;
- the guarded line evaluation `estimate_price`.

Modules, one per file:

- `Wrappers` (`wrappers.dfy`): `Option`, `Result` and `Outcome`.
- `Stats` (`stats.dfy`): the NumPy reductions the core uses (sum, mean, population variance, max, min) and the error measures built on them (MSE, MAE, R²).
- `Scaling` (`scaler.dfy`): `ManualScaler` as a class whose `fit_transform` sets its `mean`/`std` fields.
- `Regression` (`regression.dfy`): gradient descent.
  - The pure functions describe a run: `TraceOf` gives the parameters, cost and de-standardised parameters of every iteration, each one clipped Step from the one before; `FitOutcome` says whether and how the run raises; `Fitted` gives the model state it leaves.
  - The `LinearRegression` class performs the run step by step, mutating its fields, and is proved to end in exactly that outcome and state.
- `Estimate` (`estimate.dfy`): `estimate_price`.
- `Evaluate` (`evaluate.dfy`): the evaluation metrics.
- `Search` (`search.dfy`): the trainer's metrics, the score with its convergence bonus, and the grid search. The search loop is proved to return the rate of the first maximal score; failing candidates are skipped.

Numbers are exact `real`s.

- A double is *finite* when its magnitude is at most the largest finite double (`Stats.MaxFinite`). An exact result beyond that stands for an overflow to infinity.
- `np.std` has no closed form over the reals. Each data set therefore comes with its standard deviation `sd` as a parameter, tied to the data by `sd >= 0 && sd * sd == variance` (`Stats.IsStd`). Likewise np.sqrt's value for the RMSE is a parameter pinned down by `Stats.IsRoot`.

## Model

| member | source | states |
|---|---|---|
| Stats.Line | ft_linear_regression/train.py:73 | the line `theta0 + theta1 * x` (a definition; LineMonotone, AffineMean, EstimateIsLine and DenormalizedPrediction state its properties) |
| Stats.LineMonotone | ft_linear_regression/train.py:73 | the line is non-decreasing in `x` for a non-negative slope, non-increasing for a non-positive one |
| Stats.AffineMean | ft_linear_regression/train.py:73 | averaging `n` intercepts plus the slope times a sum is the line at the mean |
| Stats.MaxOf | ft_linear_regression/evaluate.py:26 | np.max of a non-empty sequence is one of its elements and at least every element |
| Stats.MinOf | ft_linear_regression/evaluate.py:27 | np.min of a non-empty sequence is one of its elements and at most every element |
| Stats.MeanOfConstant | ft_linear_regression/train.py:26 | the mean of constant data is that constant |
| Stats.SumSquaredDeviationsZero | ft_linear_regression/evaluate.py:22 | `ss_total` is non-negative, and zero exactly when all prices are equal |
| Stats.VarianceZeroIffConstant | ft_linear_regression/train.py:27 | the population variance is non-negative, and zero exactly on constant data |
| Stats.StdZeroIffConstant | ft_linear_regression/train.py:27-28 | np.std is zero exactly on constant data, so the floor to 1 applies exactly then |
| Stats.SumSquaredResiduals | ft_linear_regression/evaluate.py:23 | `ss_residual` is non-negative, and zero exactly when predictions equal the prices |
| Stats.MeanSquaredError | ft_linear_regression/evaluate.py:18 | MSE is non-negative, and zero exactly when predictions equal the prices |
| Stats.MeanAbsoluteError | ft_linear_regression/evaluate.py:20 | MAE is non-negative, and zero exactly when predictions equal the prices |
| Stats.RSquared | ft_linear_regression/evaluate.py:24 | R² is 0 when `ss_total == 0`; at most 1 for a positive `ss_total`; otherwise 1 exactly when `ss_residual == 0` |
| Scaling.ScaleOf | ft_linear_regression/train.py:26-29 | the fitted mean is the data's mean; the fitted std is positive; it is 1 exactly when np.std is 0 or 1, and np.std otherwise |
| Scaling.Forward | ft_linear_regression/train.py:30 | standardising maps the mean to 0, and with a positive std maps exactly the values above the mean to positive ones |
| Scaling.Inverse | ft_linear_regression/train.py:34 | restoring maps 0 back to the mean, and with a positive std maps exactly the positive values to values above the mean |
| Scaling.InverseForward | ft_linear_regression/train.py:30-34 | `inverse_transform` undoes the standardisation of one value |
| Scaling.ForwardInverse | ft_linear_regression/train.py:30-34 | standardisation undoes `inverse_transform` of one value |
| Scaling.RoundTrip | ft_linear_regression/train.py:24-34 | `inverse_transform(fit_transform(X)) == X`, elementwise |
| Scaling.RoundTripInverse | ft_linear_regression/train.py:24-34 | standardising the restored data gives back the standardised data |
| Scaling.ConstantNormalizesToZero | ft_linear_regression/train.py:26-30 | constant data gets std 1 and standardises to all zeros |
| Scaling.ManualScaler.constructor | ft_linear_regression/train.py:20-22 | a new scaler has no mean and no std |
| Scaling.ManualScaler.FitTransform | ft_linear_regression/train.py:24-30 | sets the fields to the mean and the floored std, so the std is never 0; returns the standardised data, which restores to the input |
| Scaling.ManualScaler.InverseTransform | ft_linear_regression/train.py:32-34 | fails (None) exactly when the scaler is unfitted; otherwise keeps the length and yields values that standardise back to the input |
| Regression.SetupFor | ft_linear_regression/train.py:77-78 | the data `fit` descends on is the standardised data, which restores to the raw data |
| Regression.Clip | ft_linear_regression/train.py:92-94 | np.clip to ±1e6: within bounds, unchanged inside them, the nearer bound outside |
| Regression.Update | ft_linear_regression/train.py:88-97 | each parameter moves by at most 1e6 |
| Regression.Step | ft_linear_regression/train.py:85-97 | one iteration moves each parameter by at most 1e6 |
| Regression.StepAtStationaryPoint | ft_linear_regression/train.py:85-97 | where both mean gradients vanish an iteration leaves the parameters unchanged |
| Regression.Cost | ft_linear_regression/train.py:104 | the cost is non-negative, and zero exactly on a perfect fit of the standardised data |
| Regression.Denormalize | ft_linear_regression/train.py:61-69 | `theta1_final == std_y * theta1 / std_x` and `theta0_final == mean_y + std_y * theta0 - theta1_final * mean_x` |
| Regression.DenormalizedPrediction | ft_linear_regression/train.py:61-69 | at every raw mileage the de-standardised line predicts `scaler_y.inverse(theta0 + theta1 * (x - mean_x) / std_x)` |
| Regression.TraceOf | ft_linear_regression/train.py:84-104 | a run of `n` iterations from `p0` has `n` entries; entry `k` holds one Step from the parameters after `k` iterations, the cost of those parameters, and the new parameters de-standardised |
| Regression.TraceStep | ft_linear_regression/train.py:84-104 | each entry is one Step from the parameters before it, with their cost, and moves each parameter by at most 1e6 |
| Regression.UpdateIsStep | ft_linear_regression/train.py:85-104 | the update and the cost computed from one set of residuals are Step and Cost |
| Regression.TraceOfIsDescent | ft_linear_regression/train.py:84-104 | TraceOf satisfies the per-iteration descent relation |
| Regression.DescentEntry | ft_linear_regression/train.py:85-104 | in a descent trace both updates use the same pre-update residuals, and the cost is half their mean square |
| Regression.OriginalAfterIsDenormalized | ft_linear_regression/train.py:114 | the snapshot parameters are the current parameters de-standardised |
| Regression.FirstHalt | ft_linear_regression/train.py:84-121 | the first iteration from `k` on that diverges, meets an infinite cost or converges; none before it does |
| Regression.FirstHaltIs | ft_linear_regression/train.py:99-120 | an iteration that halts after none before it did is the first halt |
| Regression.Converges | ft_linear_regression/train.py:117 | iteration `k` stops the run when its cost is within 1e-6 of the previous one; iteration 0 never does (a definition; RanCount and StopsAt state its effect on a run) |
| Regression.FitOutcome | ft_linear_regression/train.py:99-107 | `fit` never reports the learning-rate error; it fails only at an iteration that halts; a run of no iterations succeeds |
| Regression.FitOutcomeCases | ft_linear_regression/train.py:99-107 | `fit` raises "Numerical divergence" exactly when an iteration diverges before any halt, and "Infinite cost" exactly when one has finite parameters but an infinite cost before any halt; `fit` never raises for the learning rate |
| Regression.DriftBound | ft_linear_regression/train.py:92-97 | because each step is clipped to 1e6, `k` iterations move each parameter by at most `k * 1e6` |
| Regression.DivergenceUnreachable | ft_linear_regression/train.py:92-102 | when `n_iterations * 1e6` plus the starting magnitude stays within the largest double, no iteration diverges and `fit` never raises "Numerical divergence" |
| Regression.Snapshots | ft_linear_regression/train.py:111-115 | the first `k` iterations take at most `k` snapshots |
| Regression.SnapshotsOrdered | ft_linear_regression/train.py:111-115 | snapshot indices are below `k`, strictly increasing, and start at iteration 0 |
| Regression.SnapshotsAtCheckpoints | ft_linear_regression/train.py:111-115 | each snapshot is of a checkpoint and holds the parameters after it in original units |
| Regression.SnapshotsComplete | ft_linear_regression/train.py:111-115 | every checkpoint iteration that ran has its snapshot |
| Regression.ShouldStore | ft_linear_regression/train.py:111 | every multiple of 50 is a checkpoint; from 200 on only multiples of 50 are; every checkpoint is even or a multiple of 5 |
| Regression.WithFinal | ft_linear_regression/train.py:127-129 | the fix-up keeps the history as a prefix, appends at most the final snapshot, and leaves the history ending with the final iteration |
| Regression.WithFinalLast | ft_linear_regression/train.py:127-129 | the fix-up ends with `(final_iteration, finals)` unless the last snapshot already is of that iteration with other parameters |
| Regression.Partial | ft_linear_regression/train.py:109-115 | after `i` recorded iterations the cost history has grown by exactly `i` and the final parameters are unchanged |
| Regression.Ran | ft_linear_regression/train.py:84-121 | a run goes through at most `n_iterations` iterations |
| Regression.Fitted | ft_linear_regression/train.py:75-131 | the state `fit` leaves: a failed run keeps the old final parameters, a successful one sets them |
| Regression.FailedRun | ft_linear_regression/train.py:99-107 | a failed `fit` keeps the old final parameters, leaves the failing iteration's parameters (non-finite on divergence) and records costs of exactly the iterations before it, extending the old history |
| Regression.RanCount | ft_linear_regression/train.py:82-121 | a successful run of `n >= 1` iterations runs between 1 and `n` of them; fewer only when the last one converged, never iteration 0, and no earlier one did |
| Regression.CostCount | ft_linear_regression/train.py:109-121 | a successful `fit` appends exactly one cost per iteration run, in order |
| Regression.SucceededRun | ft_linear_regression/train.py:125-129 | after a successful `fit` the final parameters are the last parameters in original units, the old history is a prefix, and the last snapshot's index is `len(cost_history) - 1`; after at least one iteration that snapshot holds exactly `theta0_final, theta1_final` |
| Regression.LastSnapshot | ft_linear_regression/train.py:125-129 | after a successful run of at least one iteration the history ends with `(len(cost_history) - 1, theta0_final, theta1_final)` |
| Regression.PartialEndsAt | ft_linear_regression/train.py:111-115 | after at least one iteration the history is not empty, and a last snapshot of the last iteration holds the parameters after it |
| Regression.HistoryShape | ft_linear_regression/train.py:111-129 | the snapshots of the first `k` iterations, after the fix-up, are strictly increasing, start at 0, cover every checkpoint below `k`, and end with `(k - 1, parameters after k iterations)` |
| Regression.FreshRun | ft_linear_regression/train.py:109-129 | a fresh model's successful run leaves exactly the fixed-up snapshots of the iterations it ran and their final parameters |
| Regression.FreshHistory | ft_linear_regression/train.py:109-129 | a fresh model's successful run of at least one iteration leaves a strictly increasing history that starts at 0, holds every checkpoint it ran, and ends with `(last iteration, theta0_final, theta1_final)` |
| Regression.FailsAt | ft_linear_regression/train.py:99-107 | the first halting iteration that fails decides the error and the state `fit` leaves |
| Regression.Records | ft_linear_regression/train.py:109-115 | an iteration appends its cost, and its snapshot exactly at a checkpoint |
| Regression.StopsAt | ft_linear_regression/train.py:117-120 | the first halting iteration that converges ends a successful run after `i + 1` iterations |
| Regression.Continues | ft_linear_regression/train.py:117-121 | an iteration that does not halt does not move the first halt |
| Regression.RunsOut | ft_linear_regression/train.py:84-123 | a run that exhausts its iterations is successful and ran all of them |
| Regression.SucceedsAt | ft_linear_regression/train.py:125-129 | a successful run leaves the recorded state plus the final parameters and the fixed-up history |
| Regression.LinearRegression.constructor | ft_linear_regression/train.py:40-53 | a new model has zero parameters, empty histories, no final parameters and two distinct unfitted scalers |
| Regression.LinearRegression.New | ft_linear_regression/train.py:42-53 | construction fails with the learning-rate error exactly when `learning_rate <= 0`; any positive rate, above 1 included, gives a fresh model |
| Regression.LinearRegression.NormalizeData | ft_linear_regression/train.py:55-59 | fits both scalers and returns both data sets standardised |
| Regression.PredictionsMean | ft_linear_regression/train.py:71-73 | the mean of the predictions is the line at the mean mileage |
| Regression.PredictionsOrdered | ft_linear_regression/train.py:71-73 | predictions keep the mileages' order for a non-negative slope and reverse it for a non-positive one |
| Regression.LinearRegression.Predict | ft_linear_regression/train.py:71-73 | one prediction per mileage; their mean is the current line at the mean mileage (so the intercept on standardised data); their order follows the mileages' order, or reverses it, with the sign of `theta1` |
| Regression.LinearRegression.DenormalizeParameters | ft_linear_regression/train.py:61-69 | the current parameters in original units, in closed form |
| Regression.LinearRegression.PredictPrice | ft_linear_regression/train.py:133-135 | None (the AttributeError) exactly while there are no final parameters; otherwise, at a finite mileage with finite final parameters, it agrees with `utils.estimate_price` on them: the same price, or the same invalid-price error when that price overflows |
| Regression.LinearRegression.Fit | ft_linear_regression/train.py:75-131 | the outcome and the new state (parameters, both histories, final parameters) are those of the run from the old state; on success every prediction equals the de-standardised prediction of the standardised line |
| Regression.LinearRegression.Advance | ft_linear_regression/train.py:85-104 | one pass updates the parameters as the trace entry says and returns its cost, touching no history |
| Regression.LinearRegression.Descend | ft_linear_regression/train.py:82-129 | the loop raises exactly as FitOutcome says and leaves the state Fitted describes |
| Regression.LinearRegression.Record | ft_linear_regression/train.py:109-115 | appends the iteration's cost and, at a checkpoint, its snapshot |
| Regression.LinearRegression.Conclude | ft_linear_regression/train.py:125-129 | sets the final parameters and applies the history fix-up |
| Estimate.EstimatePrice | ft_linear_regression/utils.py:11-25 | succeeds exactly when all three arguments are finite numbers and the price is finite; the guards run in the order mileage, theta0, theta1; a result is finite |
| Estimate.EstimateIsLine | ft_linear_regression/utils.py:20 | for finite inputs and price the result is exactly `theta0 + theta1 * mileage` |
| Estimate.EstimateAtZero | ft_linear_regression/utils.py:20 | `estimate_price(0, t0, t1) == t0` |
| Estimate.Linearity | ft_linear_regression/utils.py:20 | `estimate_price(2m, t0, t1) - estimate_price(0, t0, t1) == 2 * t1 * m` |
| Estimate.MileageCheckedFirst | ft_linear_regression/utils.py:13-14 | a bad mileage is reported whatever the parameters are |
| Estimate.OverflowRaises | ft_linear_regression/utils.py:22-23 | finite inputs can still overflow, and then the price error is raised |
| Evaluate.PredictAll | ft_linear_regression/evaluate.py:14 | `predictions[i] == estimate_price(mileage[i], theta0, theta1)`, same length; or the error of the first failing estimate |
| Evaluate.Mape | ft_linear_regression/evaluate.py:29 | MAPE is defined exactly when no price is 0, and is then non-negative |
| Evaluate.Summarize | ft_linear_regression/evaluate.py:15-29 | `errors == price - predictions`, `abs_errors` their magnitudes; MSE and MAE non-negative; `rmse` the non-negative root of the MSE; `max_error` and `min_error` are attained absolute errors and bound every absolute error from above and below; R² 0 on constant prices and at most 1 otherwise; the mean price |
| Evaluate.CalculateMetrics | ft_linear_regression/evaluate.py:12-31 | raises exactly when an estimate fails (the first failing estimate's error) or the input is empty; otherwise the summary of the estimates, each equal to `estimate_price` at its mileage |
| Evaluate.PerfectPredictions | ft_linear_regression/evaluate.py:18-27 | MSE, RMSE, MAE and max error are 0 exactly on perfect predictions, and then R² is 1 unless the prices are constant |
| Search.MetricsOf | ft_linear_regression/train.py:211-217 | MSE non-negative and 0 exactly on a perfect fit; R² 0 when `ss_total == 0`, otherwise at most 1 and 1 exactly on a perfect fit |
| Search.CalculateMetrics | ft_linear_regression/train.py:207-217 | None (AttributeError) on an unfitted model; otherwise the metrics of `predict_price` at every mileage with `len(cost_history)` |
| Search.Bonus | ft_linear_regression/train.py:233 | the bonus lies in [0, 0.01] and is 0 exactly from 1000 iterations on |
| Search.BonusDecreasing | ft_linear_regression/train.py:233 | fewer iterations earn a strictly larger bonus below 1000 |
| Search.Score | ft_linear_regression/train.py:233 | the score is R² raised by at most 0.01, and equals R² exactly from 1000 recorded iterations on |
| Search.CandidateScore | ft_linear_regression/train.py:228-233 | None exactly when construction or `fit` raises; otherwise at most 1.01 on varying prices and in [0, 0.01] on constant ones |
| Search.CandidateNeverDiverges | ft_linear_regression/train.py:229-230 | a candidate model (1000 iterations from zero) can never raise "Numerical divergence"; it can only fail with an infinite cost |
| Search.Best | ft_linear_regression/train.py:225-236 | the choice after the first `k` candidates: one replaces it only when it succeeded and scores strictly higher (a definition; BestIsFirstMaximum characterises it) |
| Search.BestIsFirstMaximum | ft_linear_regression/train.py:225-236 | the search keeps 0.01 when no candidate scores above -1; otherwise it picks the first maximum: a success above -1 that strictly beats every earlier success and is at least every later one |
| Search.BestWithoutSuccess | ft_linear_regression/train.py:225-236 | while no candidate has succeeded with a score above -1 the choice stays `(0.01, -1)` |
| Search.BestRateIsCandidate | ft_linear_regression/train.py:222-236 | the chosen rate is the default or one of the rates |
| Search.TryCandidate | ft_linear_regression/train.py:228-238 | the `try` block yields exactly CandidateScore |
| Search.Sweep | ft_linear_regression/train.py:225-238 | the loop ends with the choice Best defines over the candidates' scores |
| Search.OptimizeHyperparameters | ft_linear_regression/train.py:220-241 | returns the rate Best chooses, which is one of the six candidates |

## Left out

- IEEE arithmetic: rounding, NaN and infinity propagation are not modelled. Values are exact reals; non-finiteness is only an exact magnitude above the largest double. In particular a parameter can only become non-finite by growing, so `Regression.DivergenceUnreachable` shows that exact arithmetic never reaches the "Numerical divergence" branch within a realistic iteration budget; a NaN gradient, which would reach it in floating point, is not modelled.
- `np.std` and `np.sqrt`: their values are not computed. The standard deviation and the RMSE are parameters tied to the variance and the MSE by their squares.
- Logging, the learning-rate warning for rates above 1, and every print: side effects only.
- File I/O and plotting: `load_data`, `load_model_params`, `save_model`, `plot_results`, `train_model`, `train`, the evaluation display and driver code, and `predict.py`.
- Empty training data: `Fit`, `SetupFor` and `Search.CalculateMetrics` require at least one sample. `load_data` refuses fewer than two.
- No error is raised for data without variation, because the code has no such check: a zero std is floored to 1 and training proceeds.
- `verbose`: it only gates logging.
- NumPy value types: `estimate_price`'s `isinstance(v, (int, float))` test is modelled by the `Arg` datatype. A NumPy scalar that is not a Python float (a `np.int64`, say) would be refused by the code; the model only distinguishes numbers, NaN and other values.
- Evaluate.Mape: returns None where NumPy yields inf or nan because some price is 0.
- Regression.LinearRegression.PredictPrice, Search.CalculateMetrics and Search.CandidateScore: the AttributeError and the exceptions caught by the search are None, not exception objects.
- Regression.LinearRegression.New: has no default arguments. The defaults `learning_rate=0.5, n_iterations=1000` are not modelled; callers pass both.
- Regression.LinearRegression.DenormalizeParameters: requires fitted scalers. The source only calls it inside `fit`, after `_normalize_data`.
- Search.OptimizeHyperparameters: does not model the metrics overflowing to nan after a non-raising but huge fit. Exact reals cannot produce nan.
