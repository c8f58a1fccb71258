/**
 * The numeric helpers of the allocation engine: the lognormal percentile used for every
 * geometric return and tail loss, the two-asset Merton solution, and the Python integer
 * truncation and float modulo that the annuitisation cost table relies on.
 */
module Numerics {
  import opened Wrappers
  import opened Oracles

  /** scipy's lognormal quantile is NaN when the shape or scale is not positive or the
      probability lies outside [0, 1]; `distribution_pctl` then falls back to the mean. */
  predicate PpfUndefined(pctl: real, sigma: real, scale: real) {
    sigma <= 0.0 || scale <= 0.0 || pctl < 0.0 || pctl > 1.0
  }

  /** The pctl-th quantile of the lognormal distribution with arithmetic mean `mean` and
      standard deviation `vol` (alloc.py distribution_pctl).  A zero `sqrt(vol^2 + mean^2)` is
      the caught ZeroDivisionError; a non-positive `log` argument and a negative `sqrt`
      argument are uncaught ValueErrors. */
  function DistributionPctl(o: Oracle, pctl: real, mean: real, vol: real): (r: Outcome<real>)
    ensures r.Err? ==> r.error == MathDomain
  {
    var d := o.sqrt(vol * vol + mean * mean);
    if d == 0.0 then Ok(mean)
    else
      var q := mean * mean / d;
      if q <= 0.0 then Err(MathDomain)
      else
        assert mean != 0.0;
        var mu := o.log(q);
        var l := o.log(vol * vol / (mean * mean) + 1.0);
        if l < 0.0 then Err(MathDomain)
        else
          var sigma := o.sqrt(l);
          var scale := o.exp(mu);
          if PpfUndefined(pctl, sigma, scale) then Ok(mean)
          else Ok(o.lognormPpf(pctl, sigma, scale))
  }

  /** The median of the same distribution (alloc.py geomean). */
  function Geomean(o: Oracle, mean: real, vol: real): (r: Outcome<real>)
    ensures r.Err? ==> r.error == MathDomain
  {
    DistributionPctl(o, 0.5, mean, vol)
  }

  /** The library facts the degenerate branches depend on. */
  ghost predicate Lawful(o: Oracle) {
    o.sqrt(0.0) == 0.0 && o.log(1.0) == 0.0 &&
    (forall x: real :: x > 0.0 ==> o.sqrt(x) > 0.0)
  }

  /** With zero volatility every percentile is the mean itself: either the caught division by
      zero (mean 0) or a zero shape parameter, for which the quantile is NaN. */
  lemma ZeroVolIsMean(o: Oracle, pctl: real, mean: real, vol: real)
    requires Lawful(o)
    requires vol == 0.0
    ensures DistributionPctl(o, pctl, mean, vol) == Ok(mean)
  {
    if mean != 0.0 {
      SquarePositive(mean);
      var d := o.sqrt(vol * vol + mean * mean);
      assert vol * vol + mean * mean > 0.0;
      assert d > 0.0;
      assert mean * mean / d > 0.0;
      var mm := mean * mean;
      assert vol * vol == 0.0;
      assert vol * vol / mm == 0.0 / mm;
    }
  }

  lemma ProductPositive(a: real, b: real)
    requires (a > 0.0 && b > 0.0) || (a < 0.0 && b < 0.0)
    ensures a * b > 0.0
  {
    if a < 0.0 {
      assert a * b == (-a) * (-b);
    }
  }

  lemma SquarePositive(x: real)
    requires x != 0.0
    ensures x * x > 0.0
  {
    ProductPositive(x, x);
  }

  /** A zero mean with non-zero volatility reaches `log(0)`, which is not caught. */
  lemma ZeroMeanFails(o: Oracle, pctl: real, vol: real)
    requires Lawful(o)
    requires vol != 0.0
    ensures DistributionPctl(o, pctl, 0.0, vol) == Err(MathDomain)
  {
    SquarePositive(vol);
  }

  /** Inverse of a 2x2 matrix applied to a vector. */
  function Apply(m: Mat2, x1: real, x2: real): (real, real) {
    (m.a11 * x1 + m.a12 * x2, m.a21 * x1 + m.a22 * x2)
  }

  /** Merton's two-risky-asset solution w = inv(sigma) (alpha - r) / gamma (alloc.py
      solve_merton): a singular covariance matrix is IdenticalCovarError; a zero risk
      aversion divides by zero. */
  function SolveMerton2(o: Oracle, gamma: real, sigma: Mat2, alpha1: real, alpha2: real, r: real)
    : (w: Outcome<(real, real)>)
    ensures o.inv2(sigma).None? <==> w == Err(IdenticalCovar)
    ensures o.inv2(sigma).Some? && gamma == 0.0 <==> w == Err(NonFinite)
    ensures w.Ok? ==>
      var ex := Apply(o.inv2(sigma).value, alpha1 - r, alpha2 - r);
      w.value.0 * gamma == ex.0 && w.value.1 * gamma == ex.1
  {
    match o.inv2(sigma)
    case None => Err(IdenticalCovar)
    case Some(inv) =>
      if gamma == 0.0 then Err(NonFinite)
      else
        var ex := Apply(inv, alpha1 - r, alpha2 - r);
        Ok((ex.0 / gamma, ex.1 / gamma))
  }

  /** Python's int() of a float: truncation toward zero. */
  function PyTrunc(x: real): (n: int)
    ensures n as real <= x < n as real + 1.0 || n as real - 1.0 < x <= n as real
    ensures x >= 0.0 ==> 0 <= n && n as real <= x < n as real + 1.0
    ensures x < 0.0 ==> n <= 0 && n as real - 1.0 < x <= n as real
  {
    if x >= 0.0 then x.Floor else -((-x).Floor)
  }

  /** Python's float `x % 10`: floored, so the result is never negative. */
  function PyMod10(x: real): (r: real)
    ensures 0.0 <= r < 10.0
    ensures ((x - r) / 10.0).Floor as real == (x - r) / 10.0
  {
    var k := (x / 10.0).Floor;
    var r := x - 10.0 * k as real;
    assert (x - r) / 10.0 == k as real;
    r
  }
}
