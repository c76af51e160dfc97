/**
 * `estimate_price`: the guarded evaluation of a line at one mileage, shared by the
 * prediction and evaluation scripts.
 */
module Estimate {
  import opened Wrappers
  import opened Stats

  /**
   * A Python value handed to `estimate_price`: an int or float (a bool counts as an
   * int), a float NaN, or anything else.
   */
  datatype Arg = Number(value: real) | NaN | NonNumeric

  /** The ValueErrors `estimate_price` raises, one per guard. */
  datatype EstimateError = InvalidMileage | InvalidTheta0 | InvalidTheta1 | InvalidPrice

  /** `isinstance(v, (int, float)) and np.isfinite(v)`. */
  predicate Usable(a: Arg) {
    a.Number? && IsFinite(a.value)
  }

  /**
   * The guards run in order mileage, theta0, theta1, and the first failing one is
   * reported; with all three usable the price is `theta0 + theta1 * mileage`,
   * unless that is not a finite double.
   */
  function EstimatePrice(mileage: Arg, theta0: Arg, theta1: Arg): (r: Result<real, EstimateError>)
    ensures r.Success? <==> Usable(mileage) && Usable(theta0) && Usable(theta1) &&
                            IsFinite(Line(theta0.value, theta1.value, mileage.value))
    ensures !Usable(mileage) ==> r == Failure(InvalidMileage)
    ensures Usable(mileage) && !Usable(theta0) ==> r == Failure(InvalidTheta0)
    ensures Usable(mileage) && Usable(theta0) && !Usable(theta1) ==> r == Failure(InvalidTheta1)
    ensures Usable(mileage) && Usable(theta0) && Usable(theta1) && !IsFinite(Line(theta0.value, theta1.value, mileage.value)) ==> r == Failure(InvalidPrice)
    ensures r.Success? ==> IsFinite(r.value)
  {
    if !Usable(mileage) then Failure(InvalidMileage)
    else if !Usable(theta0) then Failure(InvalidTheta0)
    else if !Usable(theta1) then Failure(InvalidTheta1)
    else
      var price := Line(theta0.value, theta1.value, mileage.value);
      if !IsFinite(price) then Failure(InvalidPrice) else Success(price)
  }

  /** On usable inputs whose price is finite, the estimate is the line's value. */
  lemma EstimateIsLine(m: real, t0: real, t1: real)
    requires IsFinite(m) && IsFinite(t0) && IsFinite(t1) && IsFinite(Line(t0, t1, m))
    ensures EstimatePrice(Number(m), Number(t0), Number(t1)) == Success(t0 + t1 * m)
  {
  }

  /** At mileage 0 the estimate is the intercept. */
  lemma EstimateAtZero(t0: real, t1: real)
    requires IsFinite(t0) && IsFinite(t1)
    ensures EstimatePrice(Number(0.0), Number(t0), Number(t1)) == Success(t0)
  {
    ZeroTimes(t1);
  }

  /**
   * Doubling the mileage from 0 adds twice the slope times the mileage:
   * `estimate(2m) - estimate(0) == 2 * t1 * m` whenever both estimates succeed.
   */
  lemma Linearity(m: real, t0: real, t1: real)
    requires IsFinite(2.0 * m) && IsFinite(t0) && IsFinite(t1) && IsFinite(Line(t0, t1, 2.0 * m))
    ensures EstimatePrice(Number(0.0), Number(t0), Number(t1)).Success?
    ensures EstimatePrice(Number(2.0 * m), Number(t0), Number(t1)).Success?
    ensures EstimatePrice(Number(2.0 * m), Number(t0), Number(t1)).value -
            EstimatePrice(Number(0.0), Number(t0), Number(t1)).value == 2.0 * t1 * m
  {
    EstimateAtZero(t0, t1);
    EstimateIsLine(2.0 * m, t0, t1);
    Reassociate(t1, m);
  }

  lemma Reassociate(a: real, b: real)
    ensures a * (2.0 * b) == 2.0 * a * b
  {
  }

  /** A bad mileage is reported even when both parameters are bad too. */
  lemma MileageCheckedFirst(t0: Arg, t1: Arg)
    ensures EstimatePrice(NaN, t0, t1) == Failure(InvalidMileage)
    ensures EstimatePrice(NonNumeric, t0, t1) == Failure(InvalidMileage)
  {
  }

  /**
   * The overflow guard is reachable: finite inputs whose product exceeds the
   * largest double give InvalidPrice.
   */
  lemma OverflowRaises()
    ensures EstimatePrice(Number(MaxFinite), Number(0.0), Number(2.0)) == Failure(InvalidPrice)
  {
    assert 0.0 + 2.0 * MaxFinite > MaxFinite;
  }
}
