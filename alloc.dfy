/**
 * The allocator object of alloc.py (class Alloc) and its stateful operations: compute_results
 * sets the fields one after another and the loops of value_table_db, risk_limit, fix_allocs and
 * calc read them.  Each method is proved to compute what the specification function of its
 * module says, from the state it runs in; the properties are proved about those functions.
 */
module AllocEngine {
  import opened Wrappers
  import opened Oracles
  import opened Numerics
  import opened Inputs
  import opened Portfolio
  import opened Waterfall
  import opened Setup
  import opened RiskLimit
  import opened FixAllocs
  import opened Scenario
  import opened Search

  /** The yield curves of the quote date. */
  datatype Curves = Curves(yieldCurveReal: YieldCurve, yieldCurveNominal: YieldCurve,
                           yieldCurveZero: YieldCurve)

  /** The life tables and the member's age. */
  datatype Tables = Tables(lifeTable120: LifeTable, age: real, lifeTable: LifeTable,
                           lifeTableAnnuity: LifeTable)

  /** The second member, if any, and the youngest age of the household. */
  datatype Household = Household(spouse: Option<Spouse>, minAge: real)

  /** The defined benefits, the balances and the contributions. */
  datatype Balances = Balances(db: seq<DefinedBenefit>, traditional: real, taxRate: real,
                               npvRoth: real, npvTaxable: real, contribution: real,
                               contributionGrowth: real, contributionVol: real,
                               equityContributionCorr: real, bondsContributionCorr: real)

  /** Retirement timing, goals, volatilities, risk tolerance and pricing settings. */
  datatype Plan = Plan(retirementAge: real, preRetirementYears: real, payoutDelay: real,
                       jointPayoutFraction: real, requiredIncome: Option<real>,
                       desiredIncome: Option<real>, useLmBonds: bool, bondsVolShort: real,
                       bondsLmBondsCorrShort: real, riskTolerance: real, periodCertain: real,
                       frequency: int, cpiAdjust: CpiAdjust)

  /** The retirement annuity prices and the liability matching bonds derived from them. */
  datatype Retirement = Retirement(retirementLe: real, discountedRetirementLeAnnuity: real,
                                   discountedRetirementLe: real, lmBondsRet: real,
                                   lmBondsDuration: real, realVol: real, lmBondsVolShort: real)

  /** The loop of risk_limit: at most 50 halvings of [-1, 1], each trying the allocation with
      the midpoint fraction of the stocks shifted and keeping it when its tail loss improves
      on the kept one; it stops early on a tolerable unshifted allocation or a narrow
      interval. */
  method Bisect(lossOf: Weights -> Outcome<real>, tol: real, lm: bool, wInit: Weights)
    returns (r: Outcome<Candidate>)
    ensures r == RiskLoop(lossOf, tol, lm, wInit, 0, -1.0, 1.0, None)
  {
    var found: Option<Candidate> := None;
    var low, high := -1.0, 1.0;
    var i := 0;
    while i < 50
      invariant Bracket(i, low, high, found)
      invariant RiskLoop(lossOf, tol, lm, wInit, 0, -1.0, 1.0, None) ==
                RiskLoop(lossOf, tol, lm, wInit, i, low, high, found)
    {
      if high - low < 0.0001 {
        break;
      }
      var mid := (high + low) / 2.0;
      var w := Shift(wInit, mid, lm);
      var loss := lossOf(w);
      RiskLoopStep(lossOf, tol, lm, wInit, i, low, high, found, mid, w, loss);
      if loss.Err? {
        return Err(loss.error);
      }
      var kept := if found.None? then Candidate(loss.value, w) else found.value;
      if Improves(loss.value, tol, kept.loss) {
        found := Some(Candidate(loss.value, w));
        if mid == 0.0 {
          break;
        }
        high := mid;
      } else {
        found := Some(kept);
        low := mid;
      }
      i := i + 1;
    }
    return Ok(found.value);
  }

  /** The retirement prices before compute_results sets them. */
  const NotPriced := Retirement(0.0, 0.0, 0.0, 0.0, 0.0, 0.0, 0.0)

  /** The flat record of the specification functions, from the groups. */
  function Assemble(cu: Curves, t: Tables, h: Household, b: Balances, p: Plan,
                    nvContributions: real, retContributions: real, nvDb: real,
                    ret: Retirement): (c: Context)
    ensures c.age == t.age && c.db == b.db && c.spouse == h.spouse
  {
    Context(cu.yieldCurveReal, cu.yieldCurveNominal, cu.yieldCurveZero,
            t.lifeTable120, t.age, t.lifeTable, t.lifeTableAnnuity,
            h.spouse, h.minAge,
            b.db, b.traditional, b.taxRate, b.npvRoth, b.npvTaxable, b.contribution,
            b.contributionGrowth, b.contributionVol, b.equityContributionCorr,
            b.bondsContributionCorr,
            p.retirementAge, p.preRetirementYears, p.payoutDelay, p.jointPayoutFraction,
            p.requiredIncome, p.desiredIncome, p.useLmBonds, p.bondsVolShort,
            p.bondsLmBondsCorrShort, p.riskTolerance, p.periodCertain, p.frequency,
            p.cpiAdjust,
            nvContributions, retContributions, nvDb,
            ret.retirementLe, ret.discountedRetirementLeAnnuity, ret.discountedRetirementLe,
            ret.lmBondsRet, ret.lmBondsDuration, ret.realVol, ret.lmBondsVolShort)
  }

  /** The plan settings of a request for a member of the given age: the years to retirement
      never negative, the payout delay and the period certain from them, 12 payments a year
      adjusted on the calendar. */
  function PlanOf(data: AllocData, age: real): (p: Plan)
    ensures p.preRetirementYears >= 0.0 && p.preRetirementYears >= data.retirementAge - age
    ensures p.payoutDelay == p.preRetirementYears * 12.0
    ensures p.periodCertain == p.preRetirementYears && p.frequency == 12
  {
    var pre := Max(0.0, data.retirementAge - age);
    Plan(data.retirementAge, pre, pre * 12.0, Pct(data.jointIncomePct), data.requiredIncome,
         data.desiredIncome, data.useLmBonds, Pct(data.bondsVolPct),
         Pct(data.bondsLmBondsCorrShortPct), Pct(data.riskTolerancePct), pre, 12, Calendar)
  }

  /** The initial context is the groups as the first steps of compute_results set them. */
  lemma InitialFromGroups(o: Oracle, data: AllocData, mode: Mode, cu: Curves, t: Tables,
                          h: Household, b: Balances, p: Plan)
    requires o.curveAvailable(YieldCurve(RealCurve, data.date)) &&
             o.curveAvailable(YieldCurve(NominalCurve, data.date)) &&
             o.curveAvailable(YieldCurve(FixedCurve, data.date))
    requires o.tableAdjustable(Table120) &&
             o.tableAdjustable(CohortTable(data.sex, data.age, data.leSet, data.date)) &&
             o.tableAdjustable(AnnuitantTable(data.sex, data.age))
    requires SpouseRecord(o, data).Ok?
    requires cu == Curves(YieldCurve(RealCurve, data.date), YieldCurve(NominalCurve, data.date),
                          YieldCurve(FixedCurve, data.date))
    requires t == Tables(Table120, data.age, CohortTable(data.sex, data.age, data.leSet, data.date),
                         AnnuitantTable(data.sex, data.age))
    requires h == Household(SpouseRecord(o, data).value,
                            if SpouseRecord(o, data).value.None? then data.age
                            else Min(data.age, SpouseRecord(o, data).value.value.age))
    requires mode == Aa ==>
      b == Balances(data.db, data.pTraditionalIras, Pct(data.taxRatePct), data.pRothIras, data.p,
                    data.contribution, Pct(data.contributionGrowthPct),
                    Pct(data.contributionVolPct), Pct(data.equityContributionCorrPct),
                    Pct(data.bondsContributionCorrPct))
    requires mode != Aa ==> b == Balances(data.db, 0.0, 0.0, 0.0, 0.0, 0.0, 0.0, 0.0, 0.0, 0.0)
    requires p == PlanOf(data, data.age)
    ensures InitialContext(o, data, mode) == Ok(Assemble(cu, t, h, b, p, 0.0, 0.0, 0.0, NotPriced))
  {
  }

  /** The attributes compute_results sets, grouped by the step of compute_results that sets
      them; Ctx() is the flat record the specification functions read. */
  class Alloc {
    var curves: Curves
    var tables: Tables
    var household: Household
    var balances: Balances
    var plan: Plan
    var nvContributions: real
    var retContributions: real
    var nvDb: real
    var retirement: Retirement

    /** The fields as the record the specification functions read. */
    function Ctx(): Context
      reads this
    {
      Assemble(curves, tables, household, balances, plan, nvContributions, retContributions,
               nvDb, retirement)
    }

    /** value_table_db: one row per benefit with a non-zero amount, priced in entry order,
        and the running total of their values. */
    method ValueTableDb(o: Oracle) returns (r: Outcome<(seq<DbEntry>, real)>)
      ensures r == DbTable(o, Ctx(), balances.db)
    {
      var c := Ctx();
      var db := balances.db;
      var tableDb: seq<DbEntry> := [];
      var total := 0.0;
      var k := 0;
      while k < |db|
        invariant 0 <= k <= |db|
        invariant DbRows(o, c, db[..k]) == Ok(tableDb)
        invariant total == SumNv(tableDb)
      {
        var row := DbRow(o, c, db[k]);
        DbRowsStep(o, c, db, k, tableDb, row);
        if db[k].amount != 0.0 {
          if row.Err? {
            DbRowsPrefixFails(o, c, db, k + 1);
            return Err(row.error);
          }
          var previous := tableDb;
          tableDb := tableDb + [row.value];
          total := total + row.value.nv;
          assert tableDb[..|tableDb| - 1] == previous;
        }
        k := k + 1;
      }
      assert db[..k] == db;
      return Ok((tableDb, total));
    }

    /** risk_limit: the bisection over the fraction of stocks shifted, then the consumption
        of the allocation kept. */
    method RiskLimit(o: Oracle, lm: bool, wInit: Weights, m: Market, nv: real)
      returns (r: Outcome<RiskResult>)
      ensures r == RiskLimitSpec(o, Ctx(), lm, wInit, m, nv)
    {
      var c := Ctx();
      var found := Bisect(LossOf(o, c, m), c.riskTolerance, lm, wInit);
      if found.Err? {
        return Err(found.error);
      }
      r := KeptConsumption(o, c, found.value, m, nv);
    }

    /** fix_allocs: the waterfall, at most two passes of the risk limit (the liability
        matching variant kept when preferred), a rescale towards the desired income between
        them, the two assertions and the statistics of the result. */
    method FixAllocs(o: Oracle, mode: Mode, wPrime: RawWeights, m: Market, results: NvResults,
                     annuitize: Weights) returns (r: Outcome<FixResult>)
      ensures r == FixAllocsSpec(o, Ctx(), mode, wPrime, m, results, annuitize)
    {
      var c := Ctx();
      ghost var pass := Pass(o, c, m, results.nv);
      var requiredSafe := FloorOf(c, results);
      var wFixed := InitialAlloc(c, wPrime, results, annuitize);
      ghost var w0 := wFixed;
      assert FixAllocsSpec(o, c, mode, wPrime, m, results, annuitize) ==
             FixCore(pass, StatsOf(o, c, m), mode, c.desiredIncome, requiredSafe,
                     annuitize.riskFree, w0);
      var count := 0;
      var chosen: RiskResult;
      while true
        invariant count < 2
        invariant FixPasses(pass, mode, c.desiredIncome, requiredSafe, annuitize.riskFree, 0, w0) ==
                  FixPasses(pass, mode, c.desiredIncome, requiredSafe, annuitize.riskFree, count,
                            wFixed)
        decreases 2 - count
      {
        var wTry := wFixed;
        var plain := RiskLimit(o, false, wTry, m, results.nv);
        if plain.Err? {
          FixPassesStep(pass, mode, c.desiredIncome, requiredSafe, annuitize.riskFree, count, wTry,
                        plain);
          return Err(plain.error);
        }
        chosen := plain.value;
        if c.useLmBonds {
          var withLm := RiskLimit(o, true, wTry, m, results.nv);
          if withLm.Err? {
            FixPassesStep(pass, mode, c.desiredIncome, requiredSafe, annuitize.riskFree, count,
                          wTry, withLm);
            return Err(withLm.error);
          }
          if LmPreferred(c.riskTolerance, chosen, withLm.value) {
            chosen := withLm.value;
          }
        }
        FixPassesStep(pass, mode, c.desiredIncome, requiredSafe, annuitize.riskFree, count, wTry,
                      Ok(chosen));
        if StopAfter(count, mode, c.desiredIncome, chosen.consume) {
          break;
        }
        if chosen.consume == 0.0 {
          assert FixPasses(pass, mode, c.desiredIncome, requiredSafe, annuitize.riskFree, 0, w0) ==
                 Err(ZeroDivision);
          return Err(ZeroDivision);
        }
        var ratio := c.desiredIncome.value / chosen.consume;
        wFixed := Rescale(wTry, ratio, requiredSafe, annuitize.riskFree);
        count := count + 1;
      }
      assert FixPasses(pass, mode, c.desiredIncome, requiredSafe, annuitize.riskFree, 0, w0) ==
             Ok(chosen);
      var stats := Statistics(o, c.contributionVol, chosen.w, m);
      FixCoreAfter(pass, StatsOf(o, c, m), mode, c.desiredIncome, requiredSafe,
                   annuitize.riskFree, w0, chosen, stats);
      if !NonNegative(chosen.w) {
        return Err(AssertionFailed);
      }
      if !(Abs(Sum(chosen.w) - 1.0) < 0.000000000000001) {
        return Err(AssertionFailed);
      }
      if stats.Err? {
        return Err(stats.error);
      }
      return Ok(FixResult(chosen.w, chosen.consume, stats.value));
    }

    /** calc: in the 'aa' mode one scenario; otherwise the bisection for the taxable savings
        between 0 and the bound. */
    method Calc(o: Oracle, mode: Mode, factor: real, data: AllocData, results: NvResults,
                force: Option<bool>) returns (r: Outcome<CalcResult>)
      ensures r == CalcSpec(o, Ctx(), mode, factor, data, results, force)
    {
      var c := Ctx();
      ghost var probe := Probe(o, c, mode, factor, data, results, force);
      assert CalcSpec(o, c, mode, factor, data, results, force) == CalcWith(probe, mode == Aa, c);
      if mode == Aa {
        var s := ProbeAt(o, c, mode, factor, data, results, force, 0.0);
        if s.Err? {
          return Err(s.error);
        }
        return Ok(CalcResult(s.value, None));
      }
      if c.desiredIncome.None? {
        return Err(NoneOperand);
      }
      var found := SearchSavings(o, mode, factor, data, results, force, c.desiredIncome.value);
      if found.Err? {
        return Err(found.error);
      }
      return Ok(CalcResult(found.value.scenario, Some(found.value.location)));
    }

    /** The bisection of calc: at most 50 scenarios, each with the net worth of the table raised
        by the midpoint tried, keeping the lowest savings found to fund the desired income. */
    method SearchSavings(o: Oracle, mode: Mode, factor: real, data: AllocData,
                         results: NvResults, force: Option<bool>, desired: real)
      returns (r: Outcome<Found>)
      ensures r == CalcLoop(Probe(o, Ctx(), mode, factor, data, results, force), desired,
                            MaxPortfolio(Ctx(), desired), 0, 0.0, MaxPortfolio(Ctx(), desired),
                            None)
    {
      var c := Ctx();
      ghost var probe := Probe(o, c, mode, factor, data, results, force);
      var maxPortfolio := MaxPortfolio(c, desired);
      var found: Option<Found> := None;
      var low, high := 0.0, maxPortfolio;
      var i := 0;
      while i < 50
        invariant i <= 50 && (i > 0 ==> found.Some?)
        invariant i < 50 ==>
          CalcLoop(probe, desired, maxPortfolio, 0, 0.0, maxPortfolio, None) ==
          CalcLoop(probe, desired, maxPortfolio, i, low, high, found)
        invariant i == 50 ==>
          CalcLoop(probe, desired, maxPortfolio, 0, 0.0, maxPortfolio, None) == Ok(found.value)
      {
        var mid := (low + high) / 2.0;
        var s := ProbeAt(o, c, mode, factor, data, results, force, mid);
        CalcLoopStep(probe, desired, maxPortfolio, i, low, high, found, mid, s);
        if s.Err? {
          return Err(s.error);
        }
        var kept := if Replaces(s.value.consume, desired, found) then Found(mid, s.value)
                    else found.value;
        found := Some(kept);
        if high - low < 0.000001 * maxPortfolio {
          break;
        }
        if s.value.consume < desired {
          low := mid;
        } else {
          high := mid;
        }
        i := i + 1;
      }
      return Ok(found.value);
    }

    /** The state with the fields that compute_results sets after the contributions zeroed,
        as the base context has them. */
    function Base(): Context
      reads this
    {
      Assemble(curves, tables, household, balances, plan, nvContributions, retContributions,
               0.0, NotPriced)
    }

    /** The three curves of the quote date, each checked for data as it is built. */
    method SetCurves(o: Oracle, date: string) returns (r: Outcome<()>)
      modifies this`curves
      ensures r.Ok? <==> o.curveAvailable(YieldCurve(RealCurve, date)) &&
                         o.curveAvailable(YieldCurve(NominalCurve, date)) &&
                         o.curveAvailable(YieldCurve(FixedCurve, date))
      ensures r.Err? ==> r.error == NoData
      ensures r.Ok? ==> curves == Curves(YieldCurve(RealCurve, date),
                                         YieldCurve(NominalCurve, date),
                                         YieldCurve(FixedCurve, date))
    {
      var realCurve := YieldCurve(RealCurve, date);
      if !o.curveAvailable(realCurve) {
        return Err(NoData);
      }
      curves := curves.(yieldCurveReal := realCurve);
      var nominalCurve := YieldCurve(NominalCurve, date);
      if !o.curveAvailable(nominalCurve) {
        return Err(NoData);
      }
      curves := curves.(yieldCurveNominal := nominalCurve);
      var zeroCurve := YieldCurve(FixedCurve, date);
      if !o.curveAvailable(zeroCurve) {
        return Err(NoData);
      }
      curves := curves.(yieldCurveZero := zeroCurve);
      return Ok(());
    }

    /** The 120-year table, the age, and the member's cohort and annuitant tables, each
        checked as it is built. */
    method SetTables(o: Oracle, data: AllocData) returns (r: Outcome<()>)
      modifies this`tables
      ensures r.Ok? <==> o.tableAdjustable(Table120) &&
                         o.tableAdjustable(CohortTable(data.sex, data.age, data.leSet, data.date)) &&
                         o.tableAdjustable(AnnuitantTable(data.sex, data.age))
      ensures r.Err? ==> r.error == UnableToAdjust
      ensures r.Ok? ==> tables == Tables(Table120, data.age,
                                         CohortTable(data.sex, data.age, data.leSet, data.date),
                                         AnnuitantTable(data.sex, data.age))
    {
      if !o.tableAdjustable(Table120) {
        return Err(UnableToAdjust);
      }
      tables := tables.(lifeTable120 := Table120, age := data.age);
      var lt := CohortTable(data.sex, tables.age, data.leSet, data.date);
      if !o.tableAdjustable(lt) {
        return Err(UnableToAdjust);
      }
      tables := tables.(lifeTable := lt);
      var lta := AnnuitantTable(data.sex, tables.age);
      if !o.tableAdjustable(lta) {
        return Err(UnableToAdjust);
      }
      tables := tables.(lifeTableAnnuity := lta);
      return Ok(());
    }

    /** The second member, if any, and the youngest age of the household. */
    method SetHousehold(o: Oracle, data: AllocData) returns (r: Outcome<()>)
      modifies this`household
      ensures r.Ok? <==> SpouseRecord(o, data).Ok?
      ensures r.Err? ==> r.error == SpouseRecord(o, data).error
      ensures r.Ok? ==>
        var spouse := SpouseRecord(o, data).value;
        household == Household(spouse, if spouse.None? then tables.age
                                       else Min(tables.age, spouse.value.age))
    {
      var record := SpouseRecord(o, data);
      if record.Err? {
        return Err(record.error);
      }
      var spouse := record.value;
      household := Household(spouse, if spouse.None? then tables.age
                                     else Min(tables.age, spouse.value.age));
      return Ok(());
    }

    /** The defined benefits, and the balances and contributions, which only the 'aa' mode
        takes from the request. */
    method SetBalances(data: AllocData, mode: Mode)
      modifies this`balances
      ensures balances.db == data.db
      ensures mode == Aa ==>
        balances == Balances(data.db, data.pTraditionalIras, Pct(data.taxRatePct),
                             data.pRothIras, data.p, data.contribution,
                             Pct(data.contributionGrowthPct), Pct(data.contributionVolPct),
                             Pct(data.equityContributionCorrPct),
                             Pct(data.bondsContributionCorrPct))
      ensures mode != Aa ==>
        balances == Balances(data.db, 0.0, 0.0, 0.0, 0.0, 0.0, 0.0, 0.0, 0.0, 0.0)
    {
      if mode == Aa {
        balances := Balances(data.db, data.pTraditionalIras, Pct(data.taxRatePct),
                             data.pRothIras, data.p, data.contribution,
                             Pct(data.contributionGrowthPct), Pct(data.contributionVolPct),
                             Pct(data.equityContributionCorrPct),
                             Pct(data.bondsContributionCorrPct));
      } else {
        balances := Balances(data.db, 0.0, 0.0, 0.0, 0.0, 0.0, 0.0, 0.0, 0.0, 0.0);
      }
    }

    /** Retirement timing (the years to retirement never negative, the payout delay in
        months), the goals, the volatilities and risk tolerance, and the pricing settings. */
    method SetPlan(data: AllocData)
      modifies this`plan
      ensures plan == PlanOf(data, tables.age)
    {
      var preRetirementYears := Max(0.0, data.retirementAge - tables.age);
      plan := Plan(data.retirementAge, preRetirementYears, preRetirementYears * 12.0,
                   Pct(data.jointIncomePct), data.requiredIncome, data.desiredIncome,
                   data.useLmBonds, Pct(data.bondsVolPct), Pct(data.bondsLmBondsCorrShortPct),
                   Pct(data.riskTolerancePct), preRetirementYears, 12, Calendar);
    }

    /** The first steps of compute_results: the curves, the tables, the household, the
        balances and the plan, stopping at the first curve without data or table that cannot
        be adjusted. */
    method SetInitial(o: Oracle, data: AllocData, mode: Mode) returns (r: Outcome<()>)
      modifies this`curves, this`tables, this`household, this`balances, this`plan
      ensures r.Err? <==> InitialContext(o, data, mode).Err?
      ensures r.Err? ==> r.error == InitialContext(o, data, mode).error
      ensures r.Ok? ==> Assemble(curves, tables, household, balances, plan, 0.0, 0.0, 0.0,
                                 NotPriced) == InitialContext(o, data, mode).value
    {
      r := SetCurves(o, data.date);
      if r.Err? {
        return;
      }
      r := SetTables(o, data);
      if r.Err? {
        return;
      }
      r := SetHousehold(o, data);
      if r.Err? {
        return;
      }
      SetBalances(data, mode);
      SetPlan(data);
      InitialFromGroups(o, data, mode, curves, tables, household, balances, plan);
    }

    /** compute_results up to npv_contrib, in the order of the source; the fields set later
        are not described, as compute_results sets them before reading them. */
    method SetBase(o: Oracle, data: AllocData, mode: Mode) returns (r: Outcome<()>)
      modifies this
      ensures r.Err? <==> BaseContext(o, data, mode).Err?
      ensures r.Err? ==> r.error == BaseContext(o, data, mode).error
      ensures r.Ok? ==> Base() == BaseContext(o, data, mode).value
    {
      r := SetInitial(o, data, mode);
      if r.Err? {
        return;
      }
      ghost var c0 := Assemble(curves, tables, household, balances, plan, 0.0, 0.0, 0.0, NotPriced);
      NpvContribFrame(o, Ctx(), c0, balances.contributionGrowth);
      var contrib := NpvContrib(o, Ctx(), balances.contributionGrowth);
      nvContributions, retContributions := contrib.0, contrib.1;
    }

    /** The three calls to calc in compute_results: the baseline, then the low and high
        return estimates held to the baseline's annuitisation plan. */
    method CalcEstimates(o: Oracle, mode: Mode, data: AllocData, results: NvResults,
                         factor: real) returns (r: Outcome<Estimates>)
      ensures r == EstimatesSpec(o, Ctx(), mode, data, results, factor)
    {
      ghost var state := Ctx();
      var lowFactor := Negated(factor);
      var baseline := Calc(o, mode, 0.0, data, results, None);
      if baseline.Err? {
        EstimatesSteps(o, state, mode, data, results, factor, None, baseline, baseline,
                       baseline);
        return Err(baseline.error);
      }
      var plan := Some(baseline.value.scenario.annuitizePlan);
      var low := Calc(o, mode, lowFactor, data, results, plan);
      if low.Err? {
        EstimatesSteps(o, state, mode, data, results, factor, plan, baseline, low, low);
        return Err(low.error);
      }
      var high := Calc(o, mode, factor, data, results, plan);
      EstimatesSteps(o, state, mode, data, results, factor, plan, baseline, low, high);
      if high.Err? {
        return Err(high.error);
      }
      return Ok(Estimates(baseline.value, low.value, high.value));
    }

    /** The retirement annuity prices and the liability matching bonds, from the rest of the
        state. */
    method SetRetirement(o: Oracle, data: AllocData) returns (r: Outcome<()>)
      modifies this`retirement
      ensures r.Err? <==> Priced(o, old(Ctx()), data).Err?
      ensures r.Err? ==> r.error == ZeroDivision
      ensures r.Ok? ==> Ctx() == Priced(o, old(Ctx()), data).value
    {
      var c := Ctx();
      var retirementLe :=
        o.quote(RetirementPricing(c, c.yieldCurveZero, c.lifeTable, SecondTable(c))).price;
      var discountedRetirementLeAnnuity :=
        o.quote(RetirementPricing(c, c.yieldCurveReal, c.lifeTableAnnuity,
                                  SecondAnnuityTable(c))).price;
      var q := o.quote(RetirementPricing(c, c.yieldCurveReal, c.lifeTable, SecondTable(c)));
      var realVol := Pct(data.realVol10yrPct);
      retirement := retirement.(retirementLe := retirementLe,
                                discountedRetirementLeAnnuity := discountedRetirementLeAnnuity,
                                discountedRetirementLe := q.price, lmBondsRet := q.annualReturn,
                                lmBondsDuration := q.duration, realVol := realVol);
      if 1.0 + q.annualReturn == 0.0 {
        return Err(ZeroDivision);
      }
      retirement := retirement.(lmBondsVolShort := ShortVol(q, realVol));
      return Ok(());
    }

    /** compute_results up to the scenarios: the base state, the defined-benefits table and
        its total, and the retirement pricing. */
    method SetSetup(o: Oracle, data: AllocData, mode: Mode) returns (r: Outcome<seq<DbEntry>>)
      modifies this
      ensures r.Err? <==> SetupOf(o, data, mode).Err?
      ensures r.Err? ==> r.error == SetupOf(o, data, mode).error
      ensures r.Ok? ==> Ctx() == SetupOf(o, data, mode).value.ctx &&
                        r.value == SetupOf(o, data, mode).value.dbRows
    {
      var base := SetBase(o, data, mode);
      if base.Err? {
        return Err(base.error);
      }
      ghost var c1 := BaseContext(o, data, mode).value;
      DbRowsFrame(o, Ctx(), c1, balances.db);
      var table := ValueTableDb(o);
      if table.Err? {
        return Err(table.error);
      }
      nvDb := table.value.1;
      assert Unpriced(Ctx()) == c1.(nvDb := SumNv(table.value.0));
      PricedFrame(o, Ctx(), data);
      var priced := SetRetirement(o, data);
      if priced.Err? {
        return Err(priced.error);
      }
      return Ok(table.value.0);
    }

    /** compute_results: sets the state from the request, prices the defined benefits and the
        retirement annuities, runs the three estimates and, in the 'number' mode, adopts the
        baseline's savings as the taxable balance. */
    method ComputeResults(o: Oracle, data: AllocData, mode: Mode) returns (r: Outcome<Computed>)
      modifies this
      ensures r == ComputeResultsSpec(o, data, mode)
      ensures r.Ok? ==> Ctx() == r.value.ctx
    {
      var rows := SetSetup(o, data, mode);
      if rows.Err? {
        return Err(rows.error);
      }
      var npvResults := ValueTable(Ctx(), nvDb, balances.npvTaxable);
      var factor := ConfidenceFactor(o, data);
      var e := CalcEstimates(o, mode, data, npvResults, factor);
      if e.Err? {
        return Err(e.error);
      }
      EstimatesTaxable(o, Ctx(), mode, data, npvResults, factor);
      if mode == Number {
        balances := balances.(npvTaxable := e.value.baseline.taxable.value);
      }
      return Ok(Computed(Ctx(), rows.value, npvResults, factor, e.value));
    }
  }
}
