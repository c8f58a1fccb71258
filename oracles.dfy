/**
 * The collaborators the allocation engine calls but does not define: floating-point library
 * maths (log, exp, sqrt, lognormal and normal quantiles, a 2x2 matrix inverse) and the annuity
 * pricing service (yield curves, life tables and the cash-flow pricer), and the search for the
 * growth rate that discounts volatile future contributions in the 'aa' mode (alloc.py lines
 * 558-588), which rests on a 3x3 matrix inverse and the pricer.  Each is a field of
 * the `Oracle` record, an uninterpreted total function; the engine receives one `Oracle` value
 * per request.
 */
module Oracles {
  import opened Wrappers

  /** The three yield curves the engine asks for. */
  datatype CurveKind = RealCurve | NominalCurve | FixedCurve

  datatype YieldCurve = YieldCurve(kind: CurveKind, date: string)

  /** A life table request: table name, sex, age, optional life expectancy to match,
      optional actual/expected adjustment, optional cohort date. */
  datatype LifeTable = LifeTable(table: string, sex: string, age: real, leSet: Option<real>,
                                 ae: Option<string>, dateStr: Option<string>)

  /** Inflation adjustment timing: 'all', 'payout' and 'calendar'. */
  datatype CpiAdjust = AllPayments | PayoutAnniversary | Calendar

  /** The closure returned by stochastic_schedule: period y maps to mean ** y,
      or to 0 from `years` on when a cut-off is given. */
  datatype Schedule = Schedule(mean: real, years: Option<real>)

  /** Everything one pricing scenario is built from. */
  datatype Pricing = Pricing(
    curve: YieldCurve,
    payoutDelay: real,          // months
    lifeTable: LifeTable,
    lifeTable2: Option<LifeTable>,
    jointPayoutFraction: real,
    jointContingent: bool,
    periodCertain: real,        // years
    frequency: int,             // payments per year
    cpiAdjust: CpiAdjust,
    percentile: Option<real>,
    schedule: Option<Schedule>)

  /** What a priced scenario reports: present value, equivalent annual return, duration. */
  datatype Quote = Quote(price: real, annualReturn: real, duration: real)

  /** A 2x2 matrix, row by row. */
  datatype Mat2 = Mat2(a11: real, a12: real, a21: real, a22: real)

  /** Raw weights of the future-contribution search (stocks, bonds, contributions, risk free). */
  type RawTuple = (real, real, real, real)

  datatype Oracle = Oracle(
    log: real -> real,
    exp: real -> real,
    sqrt: real -> real,
    pow: (real, real) -> real,
    lognormPpf: (real, real, real) -> real,   // (probability, shape sigma, scale)
    normPpf: real -> real,
    inv2: Mat2 -> Option<Mat2>,               // None: numpy raises LinAlgError (singular)
    curveAvailable: YieldCurve -> bool,       // false: YieldCurve raises NoData
    tableAdjustable: LifeTable -> bool,       // false: LifeTable raises UnableToAdjust
    quote: Pricing -> Quote,
    contribSearch: (real, real) -> Option<RawTuple>)   // (net worth, equity return) -> raw weights;
                                                       // None: a 3x3 covariance matrix is singular

  /** Value of a stochastic schedule at period y. */
  function ScheduleAt(o: Oracle, s: Schedule, y: real): (r: real)
    ensures s.years.Some? && y >= s.years.value ==> r == 0.0
    ensures (s.years.None? || y < s.years.value) ==> r == o.pow(s.mean, y)
  {
    if s.years.None? || y < s.years.value then o.pow(s.mean, y) else 0.0
  }

  /** With a cut-off, the cash-flow multipliers stop at the cut-off and nowhere earlier; without
      one the schedule is never truncated.  (The contribution stream uses the first kind, the
      withdrawal stream the second.) */
  lemma ScheduleCutoff(o: Oracle, mean: real, years: real, y: real)
    requires forall x: real :: x >= 0.0 ==> o.pow(mean, x) != 0.0
    requires y >= 0.0
    ensures (ScheduleAt(o, Schedule(mean, Some(years)), y) == 0.0) <==> y >= years
    ensures ScheduleAt(o, Schedule(mean, None), y) != 0.0
  {
  }
}
