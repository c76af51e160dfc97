/**
 * The mean/standard-deviation normaliser the trainer applies to mileage and price
 * before gradient descent, and its inverse.
 */
module Scaling {
  import opened Wrappers
  import opened Stats

  /** The two numbers a fitted scaler keeps: the data's mean and its (floored) std. */
  datatype Scale = Scale(mean: real, std: real)

  /**
   * Standardise one value: `(v - mean) / std`. With a positive std, the mean maps to
   * 0 and values above it to positive ones.
   */
  function Forward(s: Scale, v: real): (r: real)
    requires s.std != 0.0
    ensures r == 0.0 <==> v == s.mean
    ensures s.std > 0.0 ==> (r > 0.0 <==> v > s.mean)
  {
    QuotientSign(v - s.mean, s.std);
    QuotientSign(s.mean - v, s.std);
    (v - s.mean) / s.std
  }

  /**
   * Undo the standardisation of one value: `v * std + mean`. With a positive std, 0
   * maps to the mean and positive values to values above it.
   */
  function Inverse(s: Scale, v: real): (r: real)
    ensures s.std != 0.0 ==> (r == s.mean <==> v == 0.0)
    ensures s.std > 0.0 ==> (r > s.mean <==> v > 0.0)
  {
    v * s.std + s.mean
  }

  /** Inverse undoes Forward. */
  lemma InverseForward(s: Scale, v: real)
    requires s.std != 0.0
    ensures Inverse(s, Forward(s, v)) == v
  {
    CancelQuotient(v - s.mean, s.std);
  }

  /** Forward undoes Inverse. */
  lemma ForwardInverse(s: Scale, v: real)
    requires s.std != 0.0
    ensures Forward(s, Inverse(s, v)) == v
  {
    CancelMultiply(v, s.std);
  }

  /**
   * The scale `fit_transform` settles on for data `xs` whose np.std is `sd`: the
   * mean, and the std with a zero std replaced by 1 so that it can be divided by.
   */
  function ScaleOf(xs: seq<real>, sd: real): (s: Scale)
    requires IsStd(xs, sd)
    ensures s.mean == Mean(xs)
    ensures s.std > 0.0
    ensures s.std == 1.0 <==> sd == 0.0 || sd == 1.0
    ensures sd != 0.0 ==> s.std == sd
  {
    Scale(Mean(xs), if sd == 0.0 then 1.0 else sd)
  }

  /** Elementwise Forward: `(X - mean_) / std_`. */
  function Normalized(xs: seq<real>, s: Scale): (r: seq<real>)
    requires s.std != 0.0
    ensures |r| == |xs|
  {
    seq(|xs|, i requires 0 <= i < |xs| => Forward(s, xs[i]))
  }

  /** Elementwise Inverse: `X * std_ + mean_`. */
  function Restored(xs: seq<real>, s: Scale): (r: seq<real>)
    ensures |r| == |xs|
  {
    seq(|xs|, i requires 0 <= i < |xs| => Inverse(s, xs[i]))
  }

  /** Restoring normalised data gives the original data back. */
  lemma RoundTrip(xs: seq<real>, s: Scale)
    requires s.std != 0.0
    ensures Restored(Normalized(xs, s), s) == xs
  {
    forall i | 0 <= i < |xs|
      ensures Restored(Normalized(xs, s), s)[i] == xs[i]
    {
      InverseForward(s, xs[i]);
    }
  }

  /** Normalising restored data gives the normalised data back. */
  lemma RoundTripInverse(xs: seq<real>, s: Scale)
    requires s.std != 0.0
    ensures Normalized(Restored(xs, s), s) == xs
  {
    forall i | 0 <= i < |xs|
      ensures Normalized(Restored(xs, s), s)[i] == xs[i]
    {
      ForwardInverse(s, xs[i]);
    }
  }

  /** Constant data has a zero std, which is floored to 1, and normalises to all zeros. */
  lemma ConstantNormalizesToZero(xs: seq<real>, sd: real)
    requires IsStd(xs, sd) && Constant(xs)
    ensures ScaleOf(xs, sd).std == 1.0
    ensures forall i :: 0 <= i < |xs| ==> Normalized(xs, ScaleOf(xs, sd))[i] == 0.0
  {
    StdZeroIffConstant(xs, sd);
    MeanOfConstant(xs);
  }

  /** `ManualScaler`: `mean_` and `std_` start as None and are set by `fit_transform`. */
  class ManualScaler {
    var mean: Option<real>
    var std: Option<real>

    /** The fitted scale, or None before `fit_transform` has run. */
    function State(): (r: Option<Scale>)
      reads this
      ensures r.Some? <==> mean.Some? && std.Some?
    {
      if mean.Some? && std.Some? then Some(Scale(mean.value, std.value)) else None
    }

    constructor()
      ensures mean == None && std == None
    {
      mean := None;
      std := None;
    }

    /**
     * Record the mean and the floored std of `xs` (whose np.std is `sd`) and
     * return `xs` standardised with them.
     */
    method FitTransform(xs: seq<real>, sd: real) returns (r: seq<real>)
      requires IsStd(xs, sd)
      modifies this
      ensures State() == Some(ScaleOf(xs, sd))
      ensures std.Some? && std.value != 0.0
      ensures r == Normalized(xs, ScaleOf(xs, sd))
      ensures Restored(r, ScaleOf(xs, sd)) == xs
    {
      mean := Some(Mean(xs));
      var s := sd;
      if s == 0.0 {
        s := 1.0;
      }
      std := Some(s);
      r := Normalized(xs, Scale(mean.value, s));
      RoundTrip(xs, ScaleOf(xs, sd));
    }

    /**
     * `inverse_transform`: None (the TypeError on a None field) before the scaler is
     * fitted; afterwards values that standardise back to `xs`.
     */
    function InverseTransform(xs: seq<real>): (r: Option<seq<real>>)
      reads this
      ensures r.Some? <==> State().Some?
      ensures r.Some? ==> |r.value| == |xs|
      ensures r.Some? && std.value != 0.0 ==> Normalized(r.value, State().value) == xs
    {
      match State()
      case None => None
      case Some(s) =>
        if s.std != 0.0 then RoundTripInverse(xs, s); Some(Restored(xs, s))
        else Some(Restored(xs, s))
    }
  }
}
