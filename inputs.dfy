/**
 * The cleaned request data the allocation engine starts from (the `data` dictionary of
 * compute_results), with percentages as entered and optional fields as `Option`.
 */
module Inputs {
  import opened Wrappers

  datatype Mode = Aa | Number | Retire

  datatype Who = Self | SpouseOf

  datatype JointType = Contingent | Survivor

  /** One row of the defined-benefits table: Social Security, a pension or an annuity. */
  datatype DefinedBenefit = DefinedBenefit(
    socialSecurity: bool,
    description: string,      // empty for Social Security rows
    who: Who,
    age: real,                // age at which payments start
    amount: real,             // annual amount
    inflationIndexed: bool,
    periodCertain: real,
    jointType: JointType,
    jointPayoutPct: real)

  datatype AllocData = AllocData(
    date: string,
    sex: string,
    age: real,
    sex2: string,             // "none" when there is no spouse or partner
    age2: Option<real>,
    leSet: Option<real>,
    leSet2: Option<real>,
    db: seq<DefinedBenefit>,
    pTraditionalIras: real,
    taxRatePct: real,
    pRothIras: real,
    p: real,                  // taxable investments
    contribution: real,
    contributionGrowthPct: real,
    contributionVolPct: real,
    equityContributionCorrPct: real,
    bondsContributionCorrPct: real,
    retirementAge: real,
    jointIncomePct: real,
    requiredIncome: Option<real>,
    desiredIncome: Option<real>,
    purchaseIncomeAnnuity: bool,
    useLmBonds: bool,
    equityRetPct: real,
    equityVolPct: real,
    bondsRetPct: real,
    bondsVolPct: real,
    equityBondsCorrPct: real,
    realVol10yrPct: real,
    bondsLmBondsCorrShortPct: real,
    equitySePct: real,
    confidencePct: real,
    expensePct: real,
    gamma: real,
    riskTolerancePct: real)
}
