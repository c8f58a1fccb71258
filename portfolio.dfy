/**
 * The six-slot allocation vector of the engine and the computations made directly on it:
 * the share of the portfolio outside annuities, the return and variance of a mix, the
 * normalisation of raw optimiser output, and the stock-to-liability-matching-bond shift that
 * the risk limit searches over.  The slot order of alloc.py (stocks, bonds, contributions,
 * risk free, existing annuities, new annuities) becomes named fields.
 */
module Portfolio {
  import opened Wrappers
  import opened Oracles
  import opened Numerics

  datatype Weights = Weights(
    stocks: real,
    bonds: real,
    contrib: real,       // discounted future contributions
    riskFree: real,      // liability matching bonds
    existing: real,      // existing defined benefits
    newAnnuities: real)  // income annuities to purchase

  const Zero := Weights(0.0, 0.0, 0.0, 0.0, 0.0, 0.0)

  function Sum(w: Weights): real {
    w.stocks + w.bonds + w.contrib + w.riskFree + w.existing + w.newAnnuities
  }

  predicate NonNegative(w: Weights) {
    w.stocks >= 0.0 && w.bonds >= 0.0 && w.contrib >= 0.0 &&
    w.riskFree >= 0.0 && w.existing >= 0.0 && w.newAnnuities >= 0.0
  }

  /** A complete allocation: no negative slot and the slots add up to the whole portfolio. */
  /** The safe part of an allocation: liability matching bonds plus existing and new
      annuities. */
  function SafePart(w: Weights): real {
    w.riskFree + w.existing + w.newAnnuities
  }

  predicate Feasible(w: Weights) {
    NonNegative(w) && Sum(w) == 1.0
  }

  function Scale(w: Weights, k: real): Weights {
    Weights(w.stocks * k, w.bonds * k, w.contrib * k, w.riskFree * k, w.existing * k,
            w.newAnnuities * k)
  }

  /** The part of the portfolio that is not annuitised (and, on request, not future
      contributions), renormalised to sum to one (alloc.py non_annuitized_weights).  A zero
      remaining sum is the caught division by zero, which yields all zeros. */
  function NonAnnuitizedWeights(w: Weights, noContrib: bool): (r: Weights)
    ensures r.existing == 0.0 && r.newAnnuities == 0.0
    ensures noContrib ==> r.contrib == 0.0
    ensures var kept := w.stocks + w.bonds + w.riskFree + (if noContrib then 0.0 else w.contrib);
            (kept == 0.0 ==> r == Zero) &&
            (kept != 0.0 ==>
               (Sum(r) == 1.0 &&
                r.stocks * kept == w.stocks && r.bonds * kept == w.bonds &&
                r.riskFree * kept == w.riskFree &&
                (!noContrib ==> r.contrib * kept == w.contrib)))
  {
    var v := w.(contrib := if noContrib then 0.0 else w.contrib, existing := 0.0,
                newAnnuities := 0.0);
    var s := Sum(v);
    if s == 0.0 then Zero
    else
      var r := Scale(v, 1.0 / s);
      assert Sum(r) == Sum(v) / s;
      r
  }

  /** Non-negative weights that are not all zero normalise to a complete allocation. */
  lemma NonAnnuitizedFeasible(w: Weights, noContrib: bool)
    requires NonNegative(w)
    requires w.stocks + w.bonds + w.riskFree + (if noContrib then 0.0 else w.contrib) != 0.0
    ensures Feasible(NonAnnuitizedWeights(w, noContrib))
  {
    var kept := w.stocks + w.bonds + w.riskFree + (if noContrib then 0.0 else w.contrib);
    var r := NonAnnuitizedWeights(w, noContrib);
    assert kept > 0.0;
    NonNegativeQuotient(w.stocks, kept, r.stocks);
    NonNegativeQuotient(w.bonds, kept, r.bonds);
    NonNegativeQuotient(w.riskFree, kept, r.riskFree);
    if !noContrib {
      NonNegativeQuotient(w.contrib, kept, r.contrib);
    }
  }

  lemma NonNegativeQuotient(x: real, k: real, q: real)
    requires x >= 0.0 && k > 0.0 && q * k == x
    ensures q >= 0.0
  {
    if q < 0.0 {
      ProductPositive(-q, k);
    }
  }

  /** Per-slot expected returns and the volatilities and squared-correlation covariances the
      engine feeds to `statistics` (liability matching bonds are uncorrelated with the rest). */
  datatype Market = Market(
    rets: Weights,
    equityVol: real,
    bondsVol: real,
    lmBondsVol: real,
    covEc2: real,
    covBc2: real,
    covEb2: real,
    covBl2: real)

  datatype Stats = Stats(ret: real, vol: real, geometricRet: real)

  /** Expected arithmetic return of a mix: the weighted sum of the slot returns. */
  function TotalRet(w: Weights, rets: Weights): real {
    w.contrib * rets.contrib + w.stocks * rets.stocks + w.bonds * rets.bonds +
    w.riskFree * rets.riskFree + w.existing * rets.existing + w.newAnnuities * rets.newAnnuities
  }

  /** Variance of a mix; annuities carry no variance and risk free only its own. */
  function TotalVar(w: Weights, contribVol: real, m: Market): real {
    w.contrib * w.contrib * contribVol * contribVol +
    w.stocks * w.stocks * m.equityVol * m.equityVol +
    w.bonds * w.bonds * m.bondsVol * m.bondsVol +
    w.riskFree * w.riskFree * m.lmBondsVol * m.lmBondsVol +
    2.0 * w.contrib * w.stocks * m.covEc2 +
    2.0 * w.contrib * w.bonds * m.covBc2 +
    2.0 * w.stocks * w.bonds * m.covEb2 +
    2.0 * w.bonds * w.riskFree * m.covBl2
  }

  /** Return, volatility and geometric return of a mix (alloc.py statistics); a negative
      variance is the uncaught ValueError of `sqrt`. */
  function Statistics(o: Oracle, contribVol: real, w: Weights, m: Market): (r: Outcome<Stats>)
    ensures r.Err? ==> r.error == MathDomain
    ensures r.Ok? ==> r.value.ret == TotalRet(w, m.rets) && TotalVar(w, contribVol, m) >= 0.0 &&
                      r.value.vol == o.sqrt(TotalVar(w, contribVol, m))
  {
    var variance := TotalVar(w, contribVol, m);
    if variance < 0.0 then Err(MathDomain)
    else
      var ret := TotalRet(w, m.rets);
      var vol := o.sqrt(variance);
      var g :- Geomean(o, 1.0 + ret, vol);
      Ok(Stats(ret, vol, g - 1.0))
  }

  /** A portfolio entirely in liability matching bonds and annuities has no variance, so its
      geometric return is its arithmetic return. */
  lemma RisklessMixHasItsMean(o: Oracle, contribVol: real, w: Weights, m: Market)
    requires Lawful(o)
    requires w.stocks == 0.0 && w.bonds == 0.0 && w.contrib == 0.0 && m.lmBondsVol == 0.0
    ensures Statistics(o, contribVol, w, m) ==
            Ok(Stats(TotalRet(w, m.rets), 0.0, TotalRet(w, m.rets)))
  {
    assert TotalVar(w, contribVol, m) == 0.0;
    ZeroVolIsMean(o, 0.5, 1.0 + TotalRet(w, m.rets), 0.0);
  }

  /** The four-slot output of the optimiser (stocks, bonds, contributions, risk free), before
      it is expanded to six slots by fix_allocs. */
  datatype RawWeights = RawWeights(stocks: real, bonds: real, contrib: real, riskFree: real)

  function RawSum(w: RawWeights): real {
    w.stocks + w.bonds + w.contrib + w.riskFree
  }

  function Max0(x: real): real { if x > 0.0 then x else 0.0 }

  /** alloc.py lines 605-607: negative weights are dropped and risk free absorbs the rest, so
      the raw allocation is complete with risk free as the only slot that may be negative. */
  function NormalizeRaw(w: RawWeights): (r: RawWeights)
    ensures RawSum(r) == 1.0
    ensures r.stocks >= 0.0 && r.bonds >= 0.0 && r.contrib >= 0.0
    ensures r.stocks == Max0(w.stocks) && r.bonds == Max0(w.bonds) && r.contrib == Max0(w.contrib)
  {
    var s := Max0(w.stocks);
    var b := Max0(w.bonds);
    var c := Max0(w.contrib);
    RawWeights(s, b, c, 1.0 - (s + b + c))
  }

  /** Normalising twice changes nothing. */
  lemma NormalizeRawIdempotent(w: RawWeights)
    ensures NormalizeRaw(NormalizeRaw(w)) == NormalizeRaw(w)
  {
  }

  /** One risk_limit candidate (alloc.py lines 403-411): the fraction `mid` of the stocks moves
      to liability matching bonds; without liability matching bonds those fold into regular
      bonds. */
  function Shift(w: Weights, mid: real, useLmBonds: bool): (r: Weights)
    ensures Sum(r) == Sum(w)
    ensures r.contrib == w.contrib && r.existing == w.existing &&
            r.newAnnuities == w.newAnnuities
    ensures r.stocks == w.stocks - mid * w.stocks
    ensures !useLmBonds ==>
              (r.riskFree == 0.0 && r.bonds == w.bonds + w.riskFree + mid * w.stocks)
    ensures useLmBonds ==> r.bonds == w.bonds && r.riskFree == w.riskFree + mid * w.stocks
  {
    var adjust := mid * w.stocks;
    var v := w.(stocks := w.stocks - adjust, riskFree := w.riskFree + adjust);
    if useLmBonds then v else v.(bonds := v.bonds + v.riskFree, riskFree := 0.0)
  }

  /** A shift by a fraction in [0, 1] keeps a non-negative allocation non-negative. */
  lemma ShiftNonNegative(w: Weights, mid: real, useLmBonds: bool)
    requires NonNegative(w) && 0.0 <= mid <= 1.0
    ensures NonNegative(Shift(w, mid, useLmBonds))
  {
    var adjust := mid * w.stocks;
    var kept := (1.0 - mid) * w.stocks;
    assert kept == w.stocks - adjust;
    NonNegativeFactors(mid, w.stocks, adjust);
    NonNegativeFactors(1.0 - mid, w.stocks, kept);
    var r := Shift(w, mid, useLmBonds);
    assert r.stocks == kept;
  }

  lemma NonNegativeFactors(a: real, b: real, p: real)
    requires a >= 0.0 && b >= 0.0 && p == a * b
    ensures p >= 0.0
  {
    if a > 0.0 && b > 0.0 {
      ProductPositive(a, b);
    }
  }

  /** Moving stocks to liability matching bonds changes the expected return by the moved
      amount times the return difference. */
  lemma ShiftReturn(w: Weights, mid: real, rets: Weights)
    ensures TotalRet(Shift(w, mid, true), rets) ==
            TotalRet(w, rets) + mid * w.stocks * (rets.riskFree - rets.stocks)
  {
    var a := mid * w.stocks;
    assert (w.stocks - a) * rets.stocks == w.stocks * rets.stocks - a * rets.stocks;
    assert (w.riskFree + a) * rets.riskFree == w.riskFree * rets.riskFree + a * rets.riskFree;
    assert a * (rets.riskFree - rets.stocks) == a * rets.riskFree - a * rets.stocks;
  }
}
