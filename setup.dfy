/**
 * The state compute_results builds before any scenario is evaluated (alloc.py lines
 * 794-898): yield curves, life tables, the household's savings and goals, and the present
 * values every later step reads.  The priced quantities come from the annuity pricer in the
 * oracle: the value of future contributions (npv_contrib), of each defined benefit
 * (value_table_db), the net-worth table (value_table), and the consumption factor of a fixed
 * growth rate (consume_factor).
 */
module Setup {
  import opened Wrappers
  import opened Oracles
  import opened Inputs
  import opened Waterfall

  /** The second member of the household. */
  datatype Spouse = Spouse(age: real, lifeTable: LifeTable, lifeTableAnnuity: LifeTable)

  /** The fields of the allocator that compute_results sets and the later steps read. */
  datatype Context = Context(
    yieldCurveReal: YieldCurve,
    yieldCurveNominal: YieldCurve,
    yieldCurveZero: YieldCurve,
    lifeTable120: LifeTable,
    age: real,
    lifeTable: LifeTable,
    lifeTableAnnuity: LifeTable,
    spouse: Option<Spouse>,
    minAge: real,
    db: seq<DefinedBenefit>,
    traditional: real,
    taxRate: real,
    npvRoth: real,
    npvTaxable: real,
    contribution: real,
    contributionGrowth: real,
    contributionVol: real,
    equityContributionCorr: real,
    bondsContributionCorr: real,
    retirementAge: real,
    preRetirementYears: real,
    payoutDelay: real,
    jointPayoutFraction: real,
    requiredIncome: Option<real>,
    desiredIncome: Option<real>,
    useLmBonds: bool,
    bondsVolShort: real,
    bondsLmBondsCorrShort: real,
    riskTolerance: real,
    periodCertain: real,
    frequency: int,
    cpiAdjust: CpiAdjust,
    nvContributions: real,
    retContributions: real,
    nvDb: real,
    retirementLe: real,
    discountedRetirementLeAnnuity: real,
    discountedRetirementLe: real,
    lmBondsRet: real,
    lmBondsDuration: real,
    realVol: real,
    lmBondsVolShort: real)

  function SecondTable(c: Context): Option<LifeTable> {
    match c.spouse
    case None => None
    case Some(s) => Some(s.lifeTable)
  }

  function SecondAnnuityTable(c: Context): Option<LifeTable> {
    match c.spouse
    case None => None
    case Some(s) => Some(s.lifeTableAnnuity)
  }

  /** Present value of the contributions up to retirement growing at `ret` a year, priced on
      the real curve as a joint annuity that cannot end early, and its equivalent annual
      return (alloc.py npv_contrib). */
  function NpvContrib(o: Oracle, c: Context, ret: real): (r: (real, real))
    ensures c.contribution == 0.0 ==> r.0 == 0.0
  {
    var q := o.quote(ContribPricing(c, ret));
    (Valued(c.contribution, q.price), q.annualReturn)
  }

  /** The present value of an amount at a unit price. */
  function Valued(amount: real, price: real): real {
    amount * price
  }

  /** npv_contrib reads only the contribution, the real curve, the 120-year table and the
      years to retirement. */
  lemma NpvContribFrame(o: Oracle, c: Context, c': Context, ret: real)
    requires c.contribution == c'.contribution && c.yieldCurveReal == c'.yieldCurveReal
    requires c.lifeTable120 == c'.lifeTable120 && c.periodCertain == c'.periodCertain
    requires c.preRetirementYears == c'.preRetirementYears
    ensures NpvContrib(o, c, ret) == NpvContrib(o, c', ret)
  {
    assert ContribPricing(c, ret) == ContribPricing(c', ret);
  }

  /** The pricing request of npv_contrib: the 120-year table on both lives, a schedule growing
      by `1 + ret` that stops at retirement, annual payments, all payments inflation adjusted. */
  function ContribPricing(c: Context, ret: real): (p: Pricing)
    ensures p.schedule == Some(Schedule(1.0 + ret, Some(c.preRetirementYears)))
    ensures p.payoutDelay == 0.0 && p.frequency == 1 && p.jointContingent
    ensures p.lifeTable == c.lifeTable120 && p.lifeTable2 == Some(c.lifeTable120)
  {
    Pricing(c.yieldCurveReal, 0.0, c.lifeTable120, Some(c.lifeTable120), 1.0, true,
            c.periodCertain, 1, AllPayments, None,
            Some(Schedule(1.0 + ret, Some(c.preRetirementYears))))
  }

  /** The pricing request of one defined benefit (alloc.py lines 273-294): the real or nominal
      curve, payments deferred by the years until the benefit starts, a period certain that
      covers the years to retirement or what is left of the benefit's own. A spouse's benefit
      while no spouse was entered reaches the unset `age2`. */
  function DbPricing(c: Context, b: DefinedBenefit): (r: Outcome<Pricing>)
    ensures r.Err? <==> b.who.SpouseOf? && c.spouse.None?
    ensures r.Err? ==> r.error == MissingSpouseAge
    ensures r.Ok? ==>
      var start := if b.who.Self? || c.spouse.None? then c.age else c.spouse.value.age;
      var p := r.value;
      p.payoutDelay == 12.0 * Max(0.0, b.age - start) && p.payoutDelay >= 0.0 &&
      p.periodCertain >= 0.0 &&
      p.periodCertain >= c.periodCertain - Max(0.0, b.age - start) &&
      p.periodCertain >= b.periodCertain + Min(0.0, b.age - start) &&
      p.curve == (if b.inflationIndexed then c.yieldCurveReal else c.yieldCurveNominal) &&
      p.jointPayoutFraction * 100.0 == b.jointPayoutPct &&
      (p.jointContingent <==> b.jointType == Contingent) &&
      p.percentile.None? && p.schedule.None?
  {
    if b.who.SpouseOf? && c.spouse.None? then Err(MissingSpouseAge)
    else
      var curve := if b.inflationIndexed then c.yieldCurveReal else c.yieldCurveNominal;
      var start := if b.who.Self? then c.age else c.spouse.value.age;
      var lt1 := if b.who.Self? then c.lifeTable else c.spouse.value.lifeTable;
      var lt2 := if b.who.Self? then SecondTable(c) else Some(c.lifeTable);
      var delay := b.age - start;
      var positiveDelay := Max(0.0, delay);
      var negativeDelay := Min(0.0, delay);
      var periodCertain :=
        Max(Max(0.0, c.periodCertain - positiveDelay), b.periodCertain + negativeDelay);
      Ok(Pricing(curve, positiveDelay * 12.0, lt1, lt2, b.jointPayoutPct / 100.0,
                 b.jointType == Contingent, periodCertain, c.frequency, c.cpiAdjust, None, None))
  }

  /** One row of the defined-benefits table. */
  datatype DbEntry = DbEntry(description: string, who: Who, nv: real)

  /** The present value of a benefit: the price of its payment stream times its amount. */
  function DbValue(o: Oracle, p: Pricing, amount: real): real {
    o.quote(p).price * amount
  }

  /** The row of one benefit: "Social Security" when it has no description, its price times
      its amount. */
  function DbRow(o: Oracle, c: Context, b: DefinedBenefit): (r: Outcome<DbEntry>)
    ensures r.Err? <==> DbPricing(c, b).Err?
    ensures r.Ok? ==>
      r.value.who == b.who &&
      r.value.description == (if b.description == "" then "Social Security" else b.description) &&
      r.value.nv == DbValue(o, DbPricing(c, b).value, b.amount)
  {
    var p :- DbPricing(c, b);
    Ok(DbEntry(if b.description == "" then "Social Security" else b.description, b.who,
               DbValue(o, p, b.amount)))
  }

  /** The benefits that are priced: those with a non-zero amount, in entry order. */
  function NonZero(bs: seq<DefinedBenefit>): (r: seq<DefinedBenefit>)
    ensures |r| <= |bs|
    ensures forall k :: 0 <= k < |r| ==> r[k].amount != 0.0
  {
    if |bs| == 0 then []
    else
      var last := bs[|bs| - 1];
      NonZero(bs[..|bs| - 1]) + (if last.amount == 0.0 then [] else [last])
  }

  /** value_table_db's table (alloc.py lines 261-304), by prefix: the rows of all but the
      last benefit, then the last one's unless its amount is zero.  The first failing row
      fails the whole table. */
  function DbRows(o: Oracle, c: Context, bs: seq<DefinedBenefit>): (r: Outcome<seq<DbEntry>>)
  {
    if |bs| == 0 then Ok([])
    else
      var rows :- DbRows(o, c, bs[..|bs| - 1]);
      var last := bs[|bs| - 1];
      if last.amount == 0.0 then Ok(rows)
      else
        var row :- DbRow(o, c, last);
        Ok(rows + [row])
  }

  function SumNv(rows: seq<DbEntry>): real {
    if |rows| == 0 then 0.0 else SumNv(rows[..|rows| - 1]) + rows[|rows| - 1].nv
  }

  /** The defined-benefits table and its total (value_table_db's two results). */
  function DbTable(o: Oracle, c: Context, bs: seq<DefinedBenefit>): (r: Outcome<(seq<DbEntry>, real)>)
    ensures r.Ok? <==> DbRows(o, c, bs).Ok?
    ensures r.Ok? ==> r.value.0 == DbRows(o, c, bs).value && r.value.1 == SumNv(r.value.0)
  {
    var rows :- DbRows(o, c, bs);
    Ok((rows, SumNv(rows)))
  }

  /** The table skips zero-amount benefits and keeps the others in entry order, one row each. */
  lemma {:induction false} DbRowsAreNonZeroRows(o: Oracle, c: Context, bs: seq<DefinedBenefit>)
    requires DbRows(o, c, bs).Ok?
    ensures var rows := DbRows(o, c, bs).value;
      |rows| == |NonZero(bs)| &&
      forall k :: 0 <= k < |rows| ==> DbRow(o, c, NonZero(bs)[k]) == Ok(rows[k])
  {
    if |bs| > 0 {
      DbRowsAreNonZeroRows(o, c, bs[..|bs| - 1]);
    }
  }

  /** The table fails exactly when some priced benefit belongs to a spouse who was not
      entered. */
  lemma {:induction false} DbRowsFailure(o: Oracle, c: Context, bs: seq<DefinedBenefit>)
    ensures DbRows(o, c, bs).Err? <==>
            exists k :: 0 <= k < |NonZero(bs)| && NonZero(bs)[k].who.SpouseOf? && c.spouse.None?
    ensures DbRows(o, c, bs).Err? ==> DbRows(o, c, bs).error == MissingSpouseAge
  {
    if |bs| > 0 {
      var init := bs[..|bs| - 1];
      DbRowsFailure(o, c, init);
      var last := bs[|bs| - 1];
      if last.amount != 0.0 {
        assert NonZero(bs) == NonZero(init) + [last];
        assert NonZero(bs)[|NonZero(init)|] == last;
        assert forall k :: 0 <= k < |NonZero(init)| ==> NonZero(bs)[k] == NonZero(init)[k];
      } else {
        assert NonZero(bs) == NonZero(init);
      }
    }
  }

  /** Two states that agree on everything value_table_db reads: the curves, the ages and
      life tables of the household, the period certain and the payment conventions. */
  predicate SameDbInputs(c: Context, c': Context) {
    c.yieldCurveReal == c'.yieldCurveReal && c.yieldCurveNominal == c'.yieldCurveNominal &&
    c.age == c'.age && c.spouse == c'.spouse && c.lifeTable == c'.lifeTable &&
    c.periodCertain == c'.periodCertain && c.frequency == c'.frequency &&
    c.cpiAdjust == c'.cpiAdjust
  }

  /** The table depends on nothing else in the state. */
  lemma {:induction false} DbRowsFrame(o: Oracle, c: Context, c': Context, bs: seq<DefinedBenefit>)
    requires SameDbInputs(c, c')
    ensures DbRows(o, c, bs) == DbRows(o, c', bs)
  {
    if |bs| > 0 {
      DbRowsFrame(o, c, c', bs[..|bs| - 1]);
      var b := bs[|bs| - 1];
      assert SecondTable(c) == SecondTable(c');
      assert DbPricing(c, b) == DbPricing(c', b);
      if DbPricing(c, b).Ok? {
        var p := DbPricing(c, b).value;
        assert DbRow(o, c, b).value.nv == DbValue(o, p, b.amount) == DbRow(o, c', b).value.nv;
      }
    }
  }

  /** A failing prefix fails the whole table with its error. */
  /** One step of the table: the rows of the first k + 1 benefits from those of the first k. */
  lemma DbRowsStep(o: Oracle, c: Context, bs: seq<DefinedBenefit>, k: nat, rows: seq<DbEntry>,
                   row: Outcome<DbEntry>)
    requires k < |bs| && DbRows(o, c, bs[..k]) == Ok(rows) && row == DbRow(o, c, bs[k])
    ensures bs[k].amount == 0.0 ==> DbRows(o, c, bs[..k + 1]) == Ok(rows)
    ensures bs[k].amount != 0.0 && row.Err? ==> DbRows(o, c, bs[..k + 1]) == Err(row.error)
    ensures bs[k].amount != 0.0 && row.Ok? ==> DbRows(o, c, bs[..k + 1]) == Ok(rows + [row.value])
  {
    assert bs[..k + 1][..k] == bs[..k];
  }

  lemma {:induction false} DbRowsPrefixFails(o: Oracle, c: Context, bs: seq<DefinedBenefit>, n: nat)
    requires n <= |bs| && DbRows(o, c, bs[..n]).Err?
    ensures DbRows(o, c, bs) == DbRows(o, c, bs[..n])
    decreases |bs|
  {
    if n < |bs| {
      var init := bs[..|bs| - 1];
      assert init[..n] == bs[..n];
      DbRowsPrefixFails(o, c, init, n);
    } else {
      assert bs[..n] == bs;
    }
  }

  /** Net worth and its defined-benefit part (value_table's `results`). */
  datatype NvResults = NvResults(nvDb: real, nv: real)

  /** alloc.py value_table: net worth is the defined benefits, the after-tax traditional
      balance, Roth and taxable balances, and the future contributions. */
  function ValueTable(c: Context, nvDb: real, taxable: real): (r: NvResults)
    ensures r.nvDb == nvDb
    ensures r.nv == nvDb + c.traditional * (1.0 - c.taxRate) + c.npvRoth + taxable +
                    c.nvContributions
  {
    var nvTraditional := c.traditional * (1.0 - c.taxRate);
    var nvInvestments := nvTraditional + c.npvRoth + taxable;
    NvResults(nvDb, nvDb + nvInvestments + c.nvContributions)
  }

  /** Extra taxable savings add to net worth one for one; calc's search relies on this when
      it raises `nv` directly instead of recomputing the table. */
  lemma ValueTableTaxable(c: Context, nvDb: real, taxable: real, extra: real)
    ensures ValueTable(c, nvDb, taxable + extra) ==
            ValueTable(c, nvDb, taxable).(nv := ValueTable(c, nvDb, taxable).nv + extra)
  {
  }

  /** Non-negative balances, a tax rate in [0, 1] and non-negative present values give a
      net worth that covers its defined-benefit and contribution parts, which makes the
      shares fix_allocs derives from it consistent. */
  lemma ValueTableCovers(c: Context, nvDb: real, taxable: real)
    requires c.traditional >= 0.0 && 0.0 <= c.taxRate <= 1.0 && c.npvRoth >= 0.0
    requires taxable >= 0.0 && nvDb >= 0.0 && c.nvContributions >= 0.0
    ensures var r := ValueTable(c, nvDb, taxable);
      SharesConsistent(ContribShare(r.nv, c.nvContributions), ExistingShare(r.nv, r.nvDb))
  {
    Waterfall.NonNegativeProduct(c.traditional, 1.0 - c.taxRate);
    SharesFromValues(ValueTable(c, nvDb, taxable).nv, c.nvContributions, nvDb);
  }

  /** The pricing request of consume_factor: withdrawals shrinking by the growth rate, no
      period certain, the 97th percentile of the joint lifetime, on the fixed curve. */
  function ConsumePricing(c: Context, growth: real): (p: Pricing)
    requires 1.0 + growth != 0.0
    ensures p.schedule == Some(Schedule(1.0 / (1.0 + growth), None))
    ensures p.percentile == Some(97.0) && p.periodCertain == 0.0 && p.jointContingent
    ensures p.curve == c.yieldCurveZero && p.payoutDelay == c.payoutDelay
  {
    Pricing(c.yieldCurveZero, c.payoutDelay, c.lifeTable, SecondTable(c),
            c.jointPayoutFraction, true, 0.0, c.frequency, c.cpiAdjust, Some(97.0),
            Some(Schedule(1.0 / (1.0 + growth), None)))
  }

  /** Consumption per unit of portfolio when the portfolio compounds at `growth`
      (alloc.py consume_factor): the reciprocal of the price of the withdrawal stream.
      Neither division is guarded. */
  function ConsumeFactor(o: Oracle, c: Context, growth: real): (r: Outcome<real>)
    ensures r.Err? <==> 1.0 + growth == 0.0 || o.quote(ConsumePricing(c, growth)).price == 0.0
    ensures r.Err? ==> r.error == ZeroDivision
    ensures r.Ok? ==> r.value * o.quote(ConsumePricing(c, growth)).price == 1.0
  {
    if 1.0 + growth == 0.0 then Err(ZeroDivision)
    else
      var price := o.quote(ConsumePricing(c, growth)).price;
      if price == 0.0 then Err(ZeroDivision) else Ok(1.0 / price)
  }

  /** The life-contingent payment stream from retirement that compute_results prices three
      times (alloc.py lines 879-892), on a given curve and with given tables. */
  function RetirementPricing(c: Context, curve: YieldCurve, lt: LifeTable, lt2: Option<LifeTable>)
    : (p: Pricing)
    ensures p.payoutDelay == c.payoutDelay && p.periodCertain == 0.0 && p.jointContingent
    ensures p.percentile.None? && p.schedule.None?
  {
    Pricing(curve, c.payoutDelay, lt, lt2, c.jointPayoutFraction, true, 0.0, c.frequency,
            c.cpiAdjust, None, None)
  }

  /** The request for the shortfall-adjusted cohort table, with `leSet` falsy (missing or 0)
      meaning no adjustment. */
  function LeAdjust(leSet: Option<real>, age: real): (r: Option<real>)
    ensures r.Some? <==> leSet.Some? && leSet.value != 0.0
    ensures r.Some? ==> r.value == leSet.value - age
  {
    if leSet.Some? && leSet.value != 0.0 then Some(leSet.value - age) else None
  }

  function Pct(x: real): real { x / 100.0 }

  /** The table that only sets the 120-year maximum lifetime, used for contributions. */
  const Table120 := LifeTable("death_120", "male", 0.0, None, None, None)

  /** The cohort table of one member, adjusted to the entered life expectancy if any. */
  function CohortTable(sex: string, age: real, leSet: Option<real>, date: string): LifeTable {
    LifeTable("ssa-cohort", sex, age, LeAdjust(leSet, age), None, Some(date))
  }

  /** The annuitant table of one member, with the 2005-08 actual-to-expected adjustment. */
  function AnnuitantTable(sex: string, age: real): LifeTable {
    LifeTable("iam2012-basic", sex, age, None, Some("aer2005_08-summary"), None)
  }

  /** The second household member, if entered: its tables must adjust, and its age must be
      present (a missing age is `float(None)`). */
  function SpouseRecord(o: Oracle, data: AllocData): (r: Outcome<Option<Spouse>>)
    ensures data.sex2 == "none" ==> r == Ok(None)
    ensures data.sex2 != "none" && data.age2.None? ==> r == Err(NoneOperand)
    ensures r.Ok? && r.value.Some? ==>
              data.age2.Some? && r.value.value.age == data.age2.value &&
              o.tableAdjustable(r.value.value.lifeTable) &&
              o.tableAdjustable(r.value.value.lifeTableAnnuity)
  {
    if data.sex2 == "none" then Ok(None)
    else if data.age2.None? then Err(NoneOperand)
    else
      var age2 := data.age2.value;
      var lt2 := CohortTable(data.sex2, age2, data.leSet2, data.date);
      var _ :- Need(o.tableAdjustable(lt2), UnableToAdjust);
      var lt2a := AnnuitantTable(data.sex2, age2);
      var _ :- Need(o.tableAdjustable(lt2a), UnableToAdjust);
      Ok(Some(Spouse(age2, lt2, lt2a)))
  }

  /** The starting state together with the defined-benefits table. */
  datatype Setup = Setup(ctx: Context, dbRows: seq<DbEntry>)

  /** compute_results up to npv_contrib (alloc.py lines 794-869), in its order: the three
      curves (NoData), the 120-year, cohort and annuitant tables (UnableToAdjust), the
      household's balances (zero outside the 'aa' mode), goals and volatilities.  The fields
      set later are zero here. */
  function InitialContext(o: Oracle, data: AllocData, mode: Mode): (r: Outcome<Context>)
    ensures r.Ok? ==> r.value.db == data.db && r.value.age == data.age
  {
    var realCurve := YieldCurve(RealCurve, data.date);
    var nominalCurve := YieldCurve(NominalCurve, data.date);
    var zeroCurve := YieldCurve(FixedCurve, data.date);
    var _ :- Need(o.curveAvailable(realCurve), NoData);
    var _ :- Need(o.curveAvailable(nominalCurve), NoData);
    var _ :- Need(o.curveAvailable(zeroCurve), NoData);
    var lt120 := Table120;
    var _ :- Need(o.tableAdjustable(lt120), UnableToAdjust);
    var age := data.age;
    var lt := CohortTable(data.sex, age, data.leSet, data.date);
    var _ :- Need(o.tableAdjustable(lt), UnableToAdjust);
    var lta := AnnuitantTable(data.sex, age);
    var _ :- Need(o.tableAdjustable(lta), UnableToAdjust);
    var spouse :- SpouseRecord(o, data);
    var minAge := if spouse.None? then age else Min(age, spouse.value.age);
    var aa := mode == Aa;
    var pre := Max(0.0, data.retirementAge - age);
    var c0 := Context(
      realCurve, nominalCurve, zeroCurve, lt120, age, lt, lta, spouse, minAge, data.db,
      if aa then data.pTraditionalIras else 0.0,
      if aa then Pct(data.taxRatePct) else 0.0,
      if aa then data.pRothIras else 0.0,
      if aa then data.p else 0.0,
      if aa then data.contribution else 0.0,
      if aa then Pct(data.contributionGrowthPct) else 0.0,
      if aa then Pct(data.contributionVolPct) else 0.0,
      if aa then Pct(data.equityContributionCorrPct) else 0.0,
      if aa then Pct(data.bondsContributionCorrPct) else 0.0,
      data.retirementAge, pre, pre * 12.0, Pct(data.jointIncomePct),
      data.requiredIncome, data.desiredIncome, data.useLmBonds,
      Pct(data.bondsVolPct), Pct(data.bondsLmBondsCorrShortPct), Pct(data.riskTolerancePct),
      pre, 12, Calendar,
      0.0, 0.0, 0.0, 0.0, 0.0, 0.0, 0.0, 0.0, 0.0, 0.0);
    Ok(c0)
  }

  /** compute_results up to value_table_db: the initial state and the value of future
      contributions (alloc.py line 871). */
  function BaseContext(o: Oracle, data: AllocData, mode: Mode): (r: Outcome<Context>)
    ensures r.Ok? ==> r.value.db == data.db && r.value.age == data.age
  {
    var c0 :- InitialContext(o, data, mode);
    var contrib := NpvContrib(o, c0, c0.contributionGrowth);
    Ok(c0.(nvContributions := contrib.0, retContributions := contrib.1))
  }

  /** The retirement annuities priced on the context: the expected life annuity on the zero
      curve, the discounted annuity on the annuitant tables, and the discounted life annuity
      whose yield and duration define the liability matching bonds; the modified duration
      divides by `1 + lm_bonds_ret` unguarded. */
  function Priced(o: Oracle, c: Context, data: AllocData): (r: Outcome<Context>)
    ensures r.Err? <==> 1.0 + o.quote(RetirementPricing(c, c.yieldCurveReal, c.lifeTable,
                                                         SecondTable(c))).annualReturn == 0.0
    ensures r.Ok? ==> r.value.(retirementLe := c.retirementLe,
                               discountedRetirementLeAnnuity := c.discountedRetirementLeAnnuity,
                               discountedRetirementLe := c.discountedRetirementLe,
                               lmBondsRet := c.lmBondsRet, lmBondsDuration := c.lmBondsDuration,
                               realVol := c.realVol, lmBondsVolShort := c.lmBondsVolShort) == c
  {
    var retirementLe :=
      o.quote(RetirementPricing(c, c.yieldCurveZero, c.lifeTable, SecondTable(c))).price;
    var dlea := o.quote(RetirementPricing(c, c.yieldCurveReal, c.lifeTableAnnuity,
                                          SecondAnnuityTable(c))).price;
    var q := o.quote(RetirementPricing(c, c.yieldCurveReal, c.lifeTable, SecondTable(c)));
    var realVol := Pct(data.realVol10yrPct);
    var _ :- Need(1.0 + q.annualReturn != 0.0, ZeroDivision);
    Ok(c.(retirementLe := retirementLe, discountedRetirementLeAnnuity := dlea,
          discountedRetirementLe := q.price, lmBondsRet := q.annualReturn,
          lmBondsDuration := q.duration, realVol := realVol,
          lmBondsVolShort := ShortVol(q, realVol)))
  }

  /** The short-run volatility of the liability matching bonds: their modified duration
      over ten years times the real volatility. */
  function ShortVol(q: Quote, realVol: real): real
    requires 1.0 + q.annualReturn != 0.0
  {
    q.duration / (1.0 + q.annualReturn) / 10.0 * realVol
  }

  /** The context with the priced fields cleared. */
  function Unpriced(c: Context): Context {
    c.(retirementLe := 0.0, discountedRetirementLeAnnuity := 0.0, discountedRetirementLe := 0.0,
       lmBondsRet := 0.0, lmBondsDuration := 0.0, realVol := 0.0, lmBondsVolShort := 0.0)
  }

  /** The pricing overwrites the priced fields and reads none of them. */
  lemma PricedFrame(o: Oracle, c: Context, data: AllocData)
    ensures Priced(o, Unpriced(c), data) == Priced(o, c, data)
  {
  }

  /** compute_results up to the scenarios (alloc.py lines 794-898): the base context, the
      defined-benefits table and its total, then the priced values of the retirement
      annuities. */
  function SetupOf(o: Oracle, data: AllocData, mode: Mode): (r: Outcome<Setup>)
    ensures BaseContext(o, data, mode).Err? ==> r == Err(BaseContext(o, data, mode).error)
  {
    var c1 :- BaseContext(o, data, mode);
    var rows :- DbRows(o, c1, c1.db);
    var c2 :- Priced(o, c1.(nvDb := SumNv(rows)), data);
    Ok(Setup(c2, rows))
  }

  /** What the starting state records about the request: the balances only in the 'aa' mode,
      the years to retirement never negative and the payout delay in months, the minimum age
      of the household, the defined benefits as entered, and their total present value. */
  lemma SetupFields(o: Oracle, data: AllocData, mode: Mode)
    requires SetupOf(o, data, mode).Ok?
    ensures var s := SetupOf(o, data, mode).value;
      var c := s.ctx;
      c.db == data.db &&
      c.preRetirementYears == Max(0.0, data.retirementAge - data.age) &&
      c.payoutDelay == 12.0 * c.preRetirementYears && c.periodCertain == c.preRetirementYears &&
      c.minAge <= data.age && (c.spouse.Some? ==> c.minAge <= c.spouse.value.age) &&
      (c.spouse.None? <==> data.sex2 == "none") &&
      (mode != Aa ==> c.traditional == 0.0 && c.npvRoth == 0.0 && c.npvTaxable == 0.0 &&
                      c.contribution == 0.0 && c.contributionVol == 0.0 &&
                      c.nvContributions == 0.0) &&
      (mode == Aa ==> c.npvTaxable == data.p && c.contribution == data.contribution) &&
      c.nvDb == SumNv(s.dbRows) && c.frequency == 12 && c.cpiAdjust == Calendar &&
      o.curveAvailable(c.yieldCurveReal) && o.curveAvailable(c.yieldCurveNominal) &&
      o.curveAvailable(c.yieldCurveZero) && o.tableAdjustable(c.lifeTable)
  {
  }
}
