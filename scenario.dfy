/**
 * calc_scenario (alloc.py lines 532-750): the market assumptions of one scenario, the
 * optimiser's raw allocation and its normalisation, fix_allocs without and (when annuities
 * may be purchased) with annuitisation, the go/no-go decision between the two, and the tail
 * losses and stock share of the allocation kept.
 */
module Scenario {
  import opened Wrappers
  import opened Oracles
  import opened Numerics
  import opened Inputs
  import opened Portfolio
  import opened Waterfall
  import opened Annuitization
  import opened Setup
  import opened RiskLimit
  import opened FixAllocs

  /** Expected returns per slot (alloc.py lines 533-541): stocks and bonds net of expenses,
      stocks moved by `factor` standard errors; the annuity-like slots earn the liability
      matching bond return. */
  function Rets(c: Context, data: AllocData, factor: real): (r: Weights)
    ensures r.contrib == c.retContributions
    ensures r.riskFree == c.lmBondsRet && r.existing == c.lmBondsRet &&
            r.newAnnuities == c.lmBondsRet
  {
    var expense := Pct(data.expensePct);
    Weights(Pct(data.equityRetPct) - expense + factor * Pct(data.equitySePct),
            Pct(data.bondsRetPct) - expense, c.retContributions, c.lmBondsRet, c.lmBondsRet,
            c.lmBondsRet)
  }

  /** The low and high scenarios differ from the baseline only in the stock return, by
      `factor` standard errors. */
  lemma RetsFactor(c: Context, data: AllocData, factor: real)
    ensures Rets(c, data, factor) ==
            Rets(c, data, 0.0).(stocks := Rets(c, data, 0.0).stocks + factor * Pct(data.equitySePct))
  {
  }

  /** Volatilities and squared-correlation covariances of a scenario (alloc.py lines 543-554);
      liability matching bonds carry neither over the long horizon. */
  function MarketOf(c: Context, data: AllocData, factor: real): (m: Market)
    ensures m.rets == Rets(c, data, factor) && m.lmBondsVol == 0.0 && m.covBl2 == 0.0
    ensures m.equityVol == Pct(data.equityVolPct) && m.bondsVol == Pct(data.bondsVolPct)
  {
    var equityVol := Pct(data.equityVolPct);
    var bondsVol := Pct(data.bondsVolPct);
    var ecCorr := c.equityContributionCorr;
    var bcCorr := c.bondsContributionCorr;
    var ebCorr := Pct(data.equityBondsCorrPct);
    Market(Rets(c, data, factor), equityVol, bondsVol, 0.0,
           equityVol * c.contributionVol * (ecCorr * ecCorr),
           bondsVol * c.contributionVol * (bcCorr * bcCorr),
           equityVol * bondsVol * (ebCorr * ebCorr), 0.0)
  }

  /** The optimiser's raw four-slot allocation (alloc.py lines 556-604).  With volatile
      contributions in the 'aa' mode it is the future-growth search of the oracle; otherwise
      Merton's two-asset weights, the discounted contributions' share of net worth (zero for a
      zero net worth) and risk free taking the rest. */
  function RawAllocation(o: Oracle, c: Context, mode: Mode, data: AllocData, m: Market,
                         results: NvResults): (r: Outcome<RawWeights>)
    ensures !(mode.Aa? && c.contributionVol > 0.0) && r.Ok? ==> RawSum(r.value) == 1.0
    ensures !(mode.Aa? && c.contributionVol > 0.0) && r.Ok? && results.nv != 0.0 ==>
              r.value.contrib * results.nv == NpvContrib(o, c, c.contributionGrowth).0
    ensures !(mode.Aa? && c.contributionVol > 0.0) && r.Ok? && results.nv == 0.0 ==>
              r.value.contrib == 0.0
    ensures r.Err? ==> r.error == IdenticalCovar || r.error == NonFinite
  {
    if mode.Aa? && c.contributionVol > 0.0 then
      match o.contribSearch(results.nv, m.rets.stocks)
      case None => Err(IdenticalCovar)
      case Some(t) =>
        if data.gamma == 0.0 then Err(NonFinite) else Ok(RawWeights(t.0, t.1, t.2, t.3))
    else
      var discounted := NpvContrib(o, c, c.contributionGrowth).0;
      var wc := if results.nv == 0.0 then 0.0 else discounted / results.nv;
      var sigma := Mat2(m.equityVol * m.equityVol, m.covEb2, m.covEb2, m.bondsVol * m.bondsVol);
      var merton :- SolveMerton2(o, data.gamma, sigma, m.rets.stocks, m.rets.bonds, c.lmBondsRet);
      Ok(RawWeights(merton.0, merton.1, wc, 1.0 - (merton.0 + merton.1 + wc)))
  }

  /** Stocks' share of the investments (alloc.py lines 665-669): all stocks when there are no
      investments. */
  function AaEquity(w: Weights): (r: real)
    ensures w.stocks + w.bonds + w.riskFree == 0.0 ==> r == 1.0
    ensures NonNegative(w) ==> 0.0 <= r <= 1.0
    ensures w.stocks + w.bonds + w.riskFree != 0.0 ==> r * (w.stocks + w.bonds + w.riskFree) == w.stocks
  {
    var investments := w.stocks + w.bonds + w.riskFree;
    if investments == 0.0 then 1.0
    else
      var r := w.stocks / investments;
      assert r * investments == w.stocks;
      assert NonNegative(w) ==> 0.0 <= r <= 1.0 by {
        if NonNegative(w) {
          NonNegativeQuotient(w.stocks, investments, r);
          assert (1.0 - r) * investments == w.bonds + w.riskFree;
          NonNegativeQuotient(w.bonds + w.riskFree, investments, 1.0 - r);
        }
      }
      r
  }

  /** The outcome of the annuitisation step. */
  datatype Annuitized = Annuitized(
    annuitize: Weights,
    chosen: FixResult,
    consumeAnnuitize: real,
    gain: real,
    purchase: real,
    delayCost: real,
    plan: bool)

  /** The estimated cost of delaying annuitisation as a fraction of the portfolio (alloc.py
      line 638): the decade cost rate applied to the new-annuity weight. */
  function DelayFractionCost(minAge: real, w: Weights): real {
    DelayCost(minAge) * w.newAnnuities
  }

  /** alloc.py lines 612-661: without annuity purchases the unannuitised result stands and
      everything annuity-related is zero; otherwise fix_allocs runs again with the age-ramp
      fractions, and the annuitised result replaces the other when the plan says so.
      `fixWith` is fix_allocs as a function of the fractions to annuitise. */
  function AnnuitizeStep(fixWith: Weights -> Outcome<FixResult>, c: Context, nv: real,
                         unannuitized: FixResult, purchase: bool, force: Option<bool>)
    : (r: Outcome<Annuitized>)
  {
    if !purchase then Ok(Annuitized(Zero, unannuitized, 0.0, 0.0, 0.0, 0.0, false))
    else
      var annuitize := AnnuitizeFractions(c.minAge, c.retirementAge, c.age);
      var an :- fixWith(annuitize);
      var gain := an.consume - unannuitized.consume;
      var delayFractionCost := DelayFractionCost(c.minAge, an.w);
      var plan := AnnuitizePlan(force, gain, unannuitized.consume, delayFractionCost);
      Ok(Annuitized(annuitize, if plan then an else unannuitized, an.consume, gain,
                    nv * an.w.newAnnuities, nv * delayFractionCost, plan))
  }

  /** The decision: never without purchases, the override when given, else annuitise exactly
      when it gains more than 4% of consumption and delaying would cost more than 0.1% of
      the portfolio; the result kept is the annuitised one exactly when the plan is to
      annuitise. */
  lemma AnnuitizeDecision(fixWith: Weights -> Outcome<FixResult>, c: Context, nv: real,
                          un: FixResult, purchase: bool, force: Option<bool>)
    requires AnnuitizeStep(fixWith, c, nv, un, purchase, force).Ok?
    ensures var a := AnnuitizeStep(fixWith, c, nv, un, purchase, force).value;
      var ann := AnnuitizeFractions(c.minAge, c.retirementAge, c.age);
      (!purchase ==> !a.plan && a.chosen == un && a.annuitize == Zero && a.purchase == 0.0) &&
      (purchase ==>
         (fixWith(ann).Ok? && a.annuitize == ann &&
          (force.Some? ==> a.plan == force.value) &&
          (force.None? ==>
             (a.plan <==> (fixWith(ann).value.consume - un.consume > 0.04 * un.consume &&
                           DelayFractionCost(c.minAge, fixWith(ann).value.w) > 0.001))) &&
          a.chosen == (if a.plan then fixWith(ann).value else un) &&
          a.purchase == nv * fixWith(ann).value.w.newAnnuities))
  {
  }

  /** The step fails exactly when annuity purchases are requested and the second fix_allocs
      run fails, and then with that run's error. The delay cost is the corrected one, so the
      IndexError of the table subscript as written never arises here. */
  lemma AnnuitizeStepFails(fixWith: Weights -> Outcome<FixResult>, c: Context, nv: real,
                           un: FixResult, purchase: bool, force: Option<bool>)
    ensures var ann := AnnuitizeFractions(c.minAge, c.retirementAge, c.age);
      AnnuitizeStep(fixWith, c, nv, un, purchase, force).Err? <==> purchase && fixWith(ann).Err?
    ensures var ann := AnnuitizeFractions(c.minAge, c.retirementAge, c.age);
      AnnuitizeStep(fixWith, c, nv, un, purchase, force).Err? ==>
        AnnuitizeStep(fixWith, c, nv, un, purchase, force).error == fixWith(ann).error
  {
  }

  /** One scenario's results. */
  datatype ScenarioResult = ScenarioResult(
    rets: Weights,
    equityGm: real,
    bondsGm: real,
    wPrime: RawWeights,
    annuitize: Weights,
    wFixed: Weights,
    consume: real,
    totalStats: Stats,
    consumeAnnuitize: real,
    consumeUnannuitize: real,
    annuitizeGain: real,
    purchaseIncomeAnnuity: real,
    annuitizeDelayCost: real,
    annuitizePlan: bool,
    investmentsStats: Stats,
    investmentsLoss: real,
    totalLoss: real,
    aaEquity: real,
    aaBonds: real)

  /** fix_allocs of a scenario as a function of the fractions to annuitise. */
  function FixWith(o: Oracle, c: Context, mode: Mode, wPrime: RawWeights, m: Market,
                   results: NvResults): Weights -> Outcome<FixResult>
  {
    a => FixAllocsSpec(o, c, mode, wPrime, m, results, a)
  }

  /** The tail loss of a return distribution at the fat-tail percentile. */
  function TailLoss(o: Oracle, s: Stats): (r: Outcome<real>)
    ensures r.Err? ==> r.error == MathDomain
  {
    var p :- DistributionPctl(o, LossPctlFatTail, 1.0 + s.ret, s.vol);
    Ok(1.0 - p)
  }

  /** What calc_scenario computes after the allocation has been fixed. */
  function ScenarioTail(o: Oracle, c: Context, m: Market, equityGm: real, bondsGm: real,
                        wPrime: RawWeights, un: FixResult, a: Annuitized)
    : (r: Outcome<ScenarioResult>)
    ensures r.Ok? ==> r.value.rets == m.rets && r.value.wFixed == a.chosen.w &&
                      r.value.annuitizePlan == a.plan &&
                      r.value.consume == a.chosen.consume && r.value.consumeUnannuitize == un.consume
    ensures r.Err? ==> r.error == MathDomain
  {
    var w := a.chosen.w;
    var inv :- InvestmentStatistics(o, c, w, m);
    var investmentsLoss :- TailLoss(o, inv);
    var totalLoss :- TailLoss(o, a.chosen.stats);
    var aaEquity := AaEquity(w);
    Ok(ScenarioResult(m.rets, equityGm - 1.0, bondsGm - 1.0, wPrime, a.annuitize, w,
                      a.chosen.consume, a.chosen.stats, a.consumeAnnuitize, un.consume, a.gain,
                      a.purchase, a.delayCost, a.plan, inv, investmentsLoss, totalLoss,
                      aaEquity, 1.0 - aaEquity))
  }

  /** calc_scenario. */
  function CalcScenarioSpec(o: Oracle, c: Context, mode: Mode, factor: real, data: AllocData,
                            results: NvResults, force: Option<bool>): (r: Outcome<ScenarioResult>)
  {
    var m := MarketOf(c, data, factor);
    var equityGm :- Geomean(o, 1.0 + m.rets.stocks, m.equityVol);
    var bondsGm :- Geomean(o, 1.0 + m.rets.bonds, m.bondsVol);
    var raw :- RawAllocation(o, c, mode, data, m, results);
    var wPrime := NormalizeRaw(raw);
    var fixWith := FixWith(o, c, mode, wPrime, m, results);
    var un :- fixWith(Zero);
    var a :- AnnuitizeStep(fixWith, c, results.nv, un, data.purchaseIncomeAnnuity, force);
    ScenarioTail(o, c, m, equityGm, bondsGm, wPrime, un, a)
  }

  /** A scenario outcome that does not trip fix_allocs' assertions, with a complete
      non-negative allocation and no new annuities when purchases are off. */
  predicate SoundScenario(data: AllocData, r: Outcome<ScenarioResult>) {
    r != Err(AssertionFailed) &&
    (r.Ok? ==> Feasible(r.value.wFixed) &&
               (!data.purchaseIncomeAnnuity ==> r.value.wFixed.newAnnuities == 0.0))
  }

  /** A scenario never trips the assertions of fix_allocs and reports a complete
      non-negative allocation, with no new annuities when purchases are off. */
  lemma CalcScenarioSound(o: Oracle, c: Context, mode: Mode, factor: real, data: AllocData,
                          results: NvResults, force: Option<bool>)
    requires SharesConsistent(ContribShare(results.nv, c.nvContributions),
                              ExistingShare(results.nv, results.nvDb))
    requires c.desiredIncome.Some? ==> c.desiredIncome.value >= 0.0
    ensures CalcScenarioSpec(o, c, mode, factor, data, results, force) != Err(AssertionFailed)
    ensures var r := CalcScenarioSpec(o, c, mode, factor, data, results, force);
      r.Ok? ==>
        Feasible(r.value.wFixed) &&
        (!data.purchaseIncomeAnnuity ==> r.value.wFixed.newAnnuities == 0.0)
  {
    var m := MarketOf(c, data, factor);
    var raw := RawAllocation(o, c, mode, data, m, results);
    if raw.Ok? {
      var wPrime := NormalizeRaw(raw.value);
      var fixWith := FixWith(o, c, mode, wPrime, m, results);
      var ann := AnnuitizeFractions(c.minAge, c.retirementAge, c.age);
      FixAllocsFeasible(o, c, mode, wPrime, m, results, Zero);
      FixAllocsFeasible(o, c, mode, wPrime, m, results, ann);
      var un := fixWith(Zero);
      if un.Ok? {
        FixAllocsNoAnnuities(o, c, mode, wPrime, m, results);
        var a := AnnuitizeStep(fixWith, c, results.nv, un.value, data.purchaseIncomeAnnuity, force);
        if a.Ok? {
          AnnuitizeDecision(fixWith, c, results.nv, un.value, data.purchaseIncomeAnnuity, force);
        } else {
          assert a.error != AssertionFailed;
        }
      }
    }
  }

  /** A scenario has the returns of its factor, and a plan that is never to annuitise when
      purchases are off and follows the override when one is given. */
  predicate PlanFollows(r: ScenarioResult, c: Context, data: AllocData, factor: real,
                        force: Option<bool>) {
    r.rets == Rets(c, data, factor) &&
    (!data.purchaseIncomeAnnuity ==> !r.annuitizePlan) &&
    (data.purchaseIncomeAnnuity && force.Some? ==> r.annuitizePlan == force.value)
  }

  /** The scenario's returns are those of its factor, and its plan is to annuitise never when
      purchases are off and as the override says when one is given. */
  lemma CalcScenarioPlan(o: Oracle, c: Context, mode: Mode, factor: real, data: AllocData,
                         results: NvResults, force: Option<bool>)
    requires CalcScenarioSpec(o, c, mode, factor, data, results, force).Ok?
    ensures PlanFollows(CalcScenarioSpec(o, c, mode, factor, data, results, force).value,
                        c, data, factor, force)
  {
    var m := MarketOf(c, data, factor);
    var wPrime := NormalizeRaw(RawAllocation(o, c, mode, data, m, results).value);
    var fixWith := FixWith(o, c, mode, wPrime, m, results);
    var un := fixWith(Zero).value;
    AnnuitizeDecision(fixWith, c, results.nv, un, data.purchaseIncomeAnnuity, force);
  }
}
