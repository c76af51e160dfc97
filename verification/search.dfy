/**
 * The trainer's model selection: score a freshly trained model by R² plus a bonus
 * for converging early, and keep the first learning rate with the best score.
 */
module Search {
  import opened Wrappers
  import opened Stats
  import opened Scaling
  import opened Regression

  /** The learning rates the search tries, in this order. */
  const Candidates: seq<real> := [0.001, 0.01, 0.05, 0.1, 0.2, 0.5]

  /** The rate returned when no candidate scores above -1. */
  const DefaultRate: real := 0.01

  /** The iteration budget of every candidate model. */
  const SearchIterations: int := 1000

  /** What the trainer's `calculate_metrics` returns: R², MSE and the number of recorded costs. */
  datatype FitMetrics = FitMetrics(rSquared: real, mse: real, iterations: nat)

  /**
   * The metrics of the line `p` on the raw data: MSE is non-negative and zero
   * exactly on a perfect fit; R² is 0 on constant prices and otherwise at most 1,
   * reaching 1 exactly on a perfect fit.
   */
  function MetricsOf(p: Params, mileage: seq<real>, price: seq<real>, iterations: nat): (r: FitMetrics)
    requires |mileage| == |price| > 0
    ensures r.iterations == iterations
    ensures r.mse >= 0.0 && (r.mse == 0.0 <==> Predictions(p, mileage) == price)
    ensures Constant(price) ==> r.rSquared == 0.0
    ensures !Constant(price) ==> r.rSquared <= 1.0 && (r.rSquared == 1.0 <==> Predictions(p, mileage) == price)
  {
    var predictions := Predictions(p, mileage);
    SumSquaredDeviationsZero(price);
    FitMetrics(RSquared(SumSquaredResiduals(price, predictions), SumSquaredDeviations(price)),
               MeanSquaredError(price, predictions), iterations)
  }

  /**
   * `calculate_metrics(model, mileage, price)`: None (the AttributeError) on a model
   * without final parameters; otherwise the metrics of `predict_price` at every
   * mileage, with the length of the model's cost history.
   */
  function CalculateMetrics(model: LinearRegression, mileage: seq<real>, price: seq<real>): (r: Option<FitMetrics>)
    reads model
    requires |mileage| == |price| > 0
    ensures r.Some? <==> model.finals.Some?
    ensures r.Some? ==> forall i :: 0 <= i < |mileage| ==>
      model.PredictPrice(mileage[i]) == Some(Predictions(model.finals.value, mileage)[i])
    ensures r.Some? ==> r.value == MetricsOf(model.finals.value, mileage, price, |model.costHistory|)
  {
    match model.finals
    case None => None
    case Some(f) => Some(MetricsOf(f, mileage, price, |model.costHistory|))
  }

  /** `max(0, (1000 - iterations) / 1000 * 0.01)`: up to 0.01 for converging early. */
  function Bonus(iterations: int): (r: real)
    ensures r >= 0.0
    ensures iterations >= 0 ==> r <= 0.01
    ensures r == 0.0 <==> iterations >= 1000
  {
    var b := (1000 - iterations) as real / 1000.0 * 0.01;
    if b > 0.0 then b else 0.0
  }

  /** Fewer iterations earn a strictly larger bonus, below 1000. */
  lemma BonusDecreasing(i: int, j: int)
    requires i < j <= 1000
    ensures Bonus(i) > Bonus(j)
  {
  }

  /** `r_squared + bonus`: R² raised by at most 0.01, and not at all from 1000 iterations on. */
  function Score(m: FitMetrics): (r: real)
    ensures m.rSquared <= r <= m.rSquared + 0.01
    ensures r == m.rSquared <==> m.iterations >= 1000
  {
    m.rSquared + Bonus(m.iterations)
  }

  /**
   * The score of a fresh model trained at rate `lr` for SearchIterations
   * iterations, or None when the constructor or `fit` raises. On varying prices it is at most 1.01;
   * on constant prices it is the bonus alone.
   */
  function CandidateScore(x: seq<real>, y: seq<real>, sdX: real, sdY: real, lr: real): (r: Option<real>)
    requires |x| == |y| && IsStd(x, sdX) && IsStd(y, sdY)
    ensures r.None? <==> lr <= 0.0 || FitOutcome(RunOf(x, y, sdX, sdY, lr, SearchIterations, FreshState.params)).Fail?
    ensures r.Some? && !Constant(y) ==> r.value <= 1.01
    ensures r.Some? && Constant(y) ==> 0.0 <= r.value <= 0.01
  {
    var t := RunOf(x, y, sdX, sdY, lr, SearchIterations, FreshState.params);
    if lr <= 0.0 || FitOutcome(t).Fail? then None
    else
      var m := Fitted(t, FreshState);
      SucceededRun(t, FreshState);
      Some(Score(MetricsOf(m.finals.value, x, y, |m.costs|)))
  }

  /**
   * No candidate model fails with Divergence: from the origin, SearchIterations
   * clipped steps cannot carry a parameter anywhere near MaxFinite, so a candidate
   * can only fail with InfiniteCost.
   */
  lemma CandidateNeverDiverges(x: seq<real>, y: seq<real>, sdX: real, sdY: real, lr: real)
    requires |x| == |y| && IsStd(x, sdX) && IsStd(y, sdY)
    ensures FitOutcome(RunOf(x, y, sdX, sdY, lr, SearchIterations, FreshState.params)) != Fail(Divergence)
  {
    var s := SetupFor(x, y, sdX, sdY, lr);
    var sx, sy := ScaleOf(x, sdX), ScaleOf(y, sdY);
    TraceOfIsDescent(s, sx, sy, FreshState.params, Passes(SearchIterations));
    DivergenceUnreachable(RunOf(x, y, sdX, sdY, lr, SearchIterations, FreshState.params), s, sx, sy);
  }

  /** The score of every rate of `rates`, in order. */
  function Scores(rates: seq<real>, x: seq<real>, y: seq<real>, sdX: real, sdY: real): (r: seq<Option<real>>)
    requires |x| == |y| && IsStd(x, sdX) && IsStd(y, sdY)
    ensures |r| == |rates|
  {
    seq(|rates|, i requires 0 <= i < |rates| => CandidateScore(x, y, sdX, sdY, rates[i]))
  }

  /** The running choice of the search: the best rate so far and its score. */
  datatype Choice = Choice(rate: real, score: real)

  /**
   * The choice after the first `k` candidates: a candidate replaces the current
   * choice only when it succeeded and scores strictly higher.
   */
  function Best(rates: seq<real>, scores: seq<Option<real>>, k: nat): Choice
    requires |rates| == |scores| && k <= |scores|
  {
    if k == 0 then Choice(DefaultRate, -1.0)
    else
      var c := Best(rates, scores, k - 1);
      if scores[k - 1].Some? && scores[k - 1].value > c.score then Choice(rates[k - 1], scores[k - 1].value) else c
  }

  /** A candidate that beats the choice so far becomes the choice. */
  lemma BestTakes(rates: seq<real>, scores: seq<Option<real>>, k: nat)
    requires |rates| == |scores| && k < |scores|
    requires scores[k].Some? && scores[k].value > Best(rates, scores, k).score
    ensures Best(rates, scores, k + 1) == Choice(rates[k], scores[k].value)
  {
  }

  /** A candidate that fails or does not beat the choice so far leaves it unchanged. */
  lemma BestKeeps(rates: seq<real>, scores: seq<Option<real>>, k: nat)
    requires |rates| == |scores| && k < |scores|
    requires !(scores[k].Some? && scores[k].value > Best(rates, scores, k).score)
    ensures Best(rates, scores, k + 1) == Best(rates, scores, k)
  {
  }

  /**
   * Candidate `j` is the first maximum among the first `k`: it succeeded with a
   * score above -1, strictly beats every earlier success and is at least every
   * later one.
   */
  predicate FirstMaximum(scores: seq<Option<real>>, k: nat, j: int)
    requires k <= |scores|
  {
    0 <= j < k && scores[j].Some? && scores[j].value > -1.0 &&
    (forall i :: 0 <= i < j && scores[i].Some? ==> scores[i].value < scores[j].value) &&
    (forall i :: j < i < k && scores[i].Some? ==> scores[i].value <= scores[j].value)
  }

  /**
   * The search returns the first maximum's rate and score, or the default rate with
   * score -1 when no candidate succeeded with a score above -1.
   */
  lemma {:induction false} BestIsFirstMaximum(rates: seq<real>, scores: seq<Option<real>>, k: nat)
    requires |rates| == |scores| && k <= |scores|
    ensures (forall i :: 0 <= i < k && scores[i].Some? ==> scores[i].value <= -1.0) ==>
      Best(rates, scores, k) == Choice(DefaultRate, -1.0)
    ensures (exists i :: 0 <= i < k && scores[i].Some? && scores[i].value > -1.0) ==>
      exists j :: FirstMaximum(scores, k, j) && Best(rates, scores, k) == Choice(rates[j], scores[j].value)
  {
    if forall i :: 0 <= i < k && scores[i].Some? ==> scores[i].value <= -1.0 {
      BestWithoutSuccess(rates, scores, k);
    } else {
      BestIsFirstMaximum(rates, scores, k - 1);
      if exists i :: 0 <= i < k - 1 && scores[i].Some? && scores[i].value > -1.0 {
        assert exists j :: FirstMaximum(scores, k - 1, j) && Best(rates, scores, k - 1) == Choice(rates[j], scores[j].value);
        var j :| FirstMaximum(scores, k - 1, j) && Best(rates, scores, k - 1) == Choice(rates[j], scores[j].value);
        BestExtends(rates, scores, k, j);
      } else {
        BestFirstSuccess(rates, scores, k);
      }
    }
  }

  /** The first maximum among the first `k - 1` candidates and its choice carry over to `k`. */
  lemma BestExtends(rates: seq<real>, scores: seq<Option<real>>, k: nat, j: int)
    requires |rates| == |scores| && 0 < k <= |scores|
    requires FirstMaximum(scores, k - 1, j) && Best(rates, scores, k - 1) == Choice(rates[j], scores[j].value)
    ensures exists j' :: FirstMaximum(scores, k, j') && Best(rates, scores, k) == Choice(rates[j'], scores[j'].value)
  {
    var s := scores[k - 1];
    if s.Some? && s.value > scores[j].value {
      BestTakes(rates, scores, k - 1);
      NewMaximum(scores, k - 1, j);
      assert FirstMaximum(scores, k, k - 1) && Best(rates, scores, k) == Choice(rates[k - 1], s.value);
    } else {
      BestKeeps(rates, scores, k - 1);
      SameMaximum(scores, k - 1, j);
      assert FirstMaximum(scores, k, j) && Best(rates, scores, k) == Choice(rates[j], scores[j].value);
    }
  }

  /** The first candidate with a score above -1 becomes the choice. */
  lemma BestFirstSuccess(rates: seq<real>, scores: seq<Option<real>>, k: nat)
    requires |rates| == |scores| && 0 < k <= |scores|
    requires scores[k - 1].Some? && scores[k - 1].value > -1.0
    requires forall i :: 0 <= i < k - 1 && scores[i].Some? ==> scores[i].value <= -1.0
    ensures FirstMaximum(scores, k, k - 1) && Best(rates, scores, k) == Choice(rates[k - 1], scores[k - 1].value)
  {
    BestWithoutSuccess(rates, scores, k - 1);
    BestTakes(rates, scores, k - 1);
    FirstSuccess(scores, k - 1);
  }

  /** While no candidate has succeeded with a score above -1, the choice is the default. */
  lemma {:induction false} BestWithoutSuccess(rates: seq<real>, scores: seq<Option<real>>, k: nat)
    requires |rates| == |scores| && k <= |scores|
    requires forall i :: 0 <= i < k && scores[i].Some? ==> scores[i].value <= -1.0
    ensures Best(rates, scores, k) == Choice(DefaultRate, -1.0)
  {
    if k > 0 {
      BestWithoutSuccess(rates, scores, k - 1);
      BestKeeps(rates, scores, k - 1);
    }
  }

  /** A candidate beating the first maximum of those before it is the new first maximum. */
  lemma NewMaximum(scores: seq<Option<real>>, k: nat, j: int)
    requires k < |scores| && FirstMaximum(scores, k, j)
    requires scores[k].Some? && scores[k].value > scores[j].value
    ensures FirstMaximum(scores, k + 1, k)
  {
    forall i | 0 <= i < k && scores[i].Some?
      ensures scores[i].value < scores[k].value
    {
      if i != j {
        assert scores[i].value <= scores[j].value;
      }
    }
  }

  /** A candidate that does not beat the first maximum leaves it the first maximum. */
  lemma SameMaximum(scores: seq<Option<real>>, k: nat, j: int)
    requires k < |scores| && FirstMaximum(scores, k, j)
    requires !(scores[k].Some? && scores[k].value > scores[j].value)
    ensures FirstMaximum(scores, k + 1, j)
  {
  }

  /** The first candidate with a score above -1 is the first maximum so far. */
  lemma FirstSuccess(scores: seq<Option<real>>, k: nat)
    requires k < |scores| && scores[k].Some? && scores[k].value > -1.0
    requires forall i :: 0 <= i < k && scores[i].Some? ==> scores[i].value <= -1.0
    ensures FirstMaximum(scores, k + 1, k)
  {
  }

  /** The chosen rate is one of the candidates, or the default rate. */
  lemma {:induction false} BestRateIsCandidate(rates: seq<real>, scores: seq<Option<real>>, k: nat)
    requires |rates| == |scores| && k <= |scores|
    ensures Best(rates, scores, k).rate == DefaultRate || Best(rates, scores, k).rate in rates[..k]
  {
    if k > 0 {
      BestRateIsCandidate(rates, scores, k - 1);
      assert rates[..k - 1] <= rates[..k];
    }
  }

  /**
   * The `try` block of the search for one rate: build a fresh model, fit it and
   * score it; None when any of these raises.
   */
  method TryCandidate(x: seq<real>, y: seq<real>, sdX: real, sdY: real, lr: real) returns (score: Option<real>)
    requires |x| == |y| && IsStd(x, sdX) && IsStd(y, sdY)
    ensures score == CandidateScore(x, y, sdX, sdY, lr)
  {
    var made := LinearRegression.New(lr, SearchIterations);
    if made.Failure? {
      return None;
    }
    var model := made.value;
    ghost var t := RunOf(x, y, sdX, sdY, lr, SearchIterations, FreshState.params);
    var outcome := model.Fit(x, y, sdX, sdY);
    assert outcome == FitOutcome(t) && model.State() == Fitted(t, FreshState);
    if outcome.Fail? {
      return None;
    }
    SucceededRun(t, FreshState);
    var metrics := CalculateMetrics(model, x, y);
    if metrics.None? {
      return None;
    }
    assert metrics.value == MetricsOf(Fitted(t, FreshState).finals.value, x, y, |Fitted(t, FreshState).costs|);
    return Some(Score(metrics.value));
  }

  /**
   * The loop of the search over `rates`: try each rate in order, skip the ones that
   * raise, and keep the rate of the first best score, starting from the default
   * rate with score -1.
   */
  method Sweep(rates: seq<real>, x: seq<real>, y: seq<real>, sdX: real, sdY: real) returns (bestLr: real, bestScore: real)
    requires |x| == |y| && IsStd(x, sdX) && IsStd(y, sdY)
    ensures Choice(bestLr, bestScore) == Best(rates, Scores(rates, x, y, sdX, sdY), |rates|)
  {
    ghost var scores := Scores(rates, x, y, sdX, sdY);
    bestScore := -1.0;
    bestLr := DefaultRate;
    var i := 0;
    while i < |rates|
      invariant 0 <= i <= |rates|
      invariant Choice(bestLr, bestScore) == Best(rates, scores, i)
    {
      var lr := rates[i];
      var score := TryCandidate(x, y, sdX, sdY, lr);
      assert score == scores[i];
      if score.Some? && score.value > bestScore {
        BestTakes(rates, scores, i);
        bestScore, bestLr := score.value, lr;
      } else {
        BestKeeps(rates, scores, i);
      }
      i := i + 1;
    }
  }

  /**
   * `optimize_hyperparameters`: the search over Candidates. The rate it returns is
   * one of the candidates (the default rate is one too).
   */
  method OptimizeHyperparameters(x: seq<real>, y: seq<real>, sdX: real, sdY: real) returns (bestLr: real)
    requires |x| == |y| && IsStd(x, sdX) && IsStd(y, sdY)
    ensures bestLr == Best(Candidates, Scores(Candidates, x, y, sdX, sdY), |Candidates|).rate
    ensures bestLr in Candidates
  {
    var bestScore;
    bestLr, bestScore := Sweep(Candidates, x, y, sdX, sdY);
    BestRateIsCandidate(Candidates, Scores(Candidates, x, y, sdX, sdY), |Candidates|);
    assert Candidates[..|Candidates|] == Candidates;
  }
}
