# aacalc allocation engine, validators and asset-class table in Dafny

This project models three parts of the aacalc asset-allocation calculator: its allocation
engine (`web/aacalc/views/alloc.py`), the cross-field validators of its forms
(`web/aacalc/forms.py`), and its table of the asset classes the simulator has data for
(`web/aacalc/utils.py`).

The engine takes a household's balances, defined benefits (Social Security, pensions,
annuities), goals and market assumptions. From them it computes an allocation over six
slots: stocks, regular bonds, discounted future contributions, liability-matching bonds
(risk free), existing defined benefits and new income annuities. The steps are:

- The optimiser's raw weights are normalised.
- The clamp-and-surplus waterfall of `fix_allocs` places new annuities, then risk free, then
  bonds, then stocks.
- The `risk_limit` bisection moves stocks into liability-matching bonds (the risk-free slot)
  until a tail-loss tolerance is met. When liability-matching bonds are not used, the
  risk-free slot is folded into bonds.
- One rescale pass moves toward a desired income.
- A go/no-go rule decides whether to annuitise, using age ramps and a decade delay-cost
  table.
- In the 'number' and 'retire' modes, the bisection of `calc` searches for the taxable
  savings that fund the desired income.
- `compute_results` builds the state these steps read, then reports a baseline, a low and a
  high scenario.

The model works over exact reals. Library maths (log, exp, sqrt, the lognormal and normal
quantiles, the matrix inverse) and the annuity pricer (yield curves, life tables,
`Scenario.price()`) are fields of an `Oracle` record of uninterpreted total functions. The errors
the source raises and does not catch become an `Err` of `Outcome`. These are ValueError from
log and sqrt, ZeroDivisionError outside a `try`, the AttributeError of the
missing-spouse lookup, the TypeError of arithmetic on or `float()` of a missing value, and the
two `assert`s of `fix_allocs`. One `Err` stands for no exception: `NonFinite`, where numpy
divides by a zero risk aversion and goes on with infinite or NaN weights.
The IndexError that the delay-cost table raises at minimum ages 95 to 110 is modelled only
by `Annuitization.DelayCostAsWritten`. The pipeline uses the corrected cost (see Findings).

The imperative parts keep their form:

- `class Alloc` (module `AllocEngine`) holds the `self.*` state that `compute_results` sets
  in sequence. Each setter modifies only its own group of fields.
- `risk_limit`, `fix_allocs`, `value_table_db` and `calc` are methods with loops. Each is
  proved equal to a specification function.
- Properties of the source are proved about those functions as lemmas.

The validators are functions over a record of cleaned values. Each returns the cleaned value
or the `FormError` it raises, and `Message` gives the text of each error. The asset-class
table is a constant sequence of 19 rows, with order-preserving filters and the "too early /
too late" dictionaries.

Files:

- `wrappers.dfy`: Option, Result and Outcome.
- `oracles.dfy`: the oracle.
- `numerics.dfy`: distribution percentiles, the Merton solve, Python `int()` and `%`.
- `portfolio.dfy`: weight vectors and their statistics.
- `waterfall.dfy`: the arithmetic of `fix_allocs`.
- `annuitization.dfy`: the annuitisation decision.
- `inputs.dfy`: request data.
- `setup.dfy`: the state built by `compute_results` and the present values.
- `risk.dfy`: `risk_limit`.
- `fix.dfy`: `fix_allocs`.
- `scenario.dfy`: `calc_scenario`.
- `search.dfy`: `calc` and the scenario fan-out.
- `alloc.dfy`: the `Alloc` class.
- `asset_classes.dfy`: `utils.py`.
- `forms.dfy`: `forms.py`.

## Model

| member | source | states |
|---|---|---|
| AllocEngine.Bisect | web/aacalc/views/alloc.py:395-434 | The risk-limit loop (at most 50 halvings of [-1, 1], early exit at width 1e-4 or at `mid == 0`) returns exactly the candidate, or the first loss-evaluation error, that `RiskLimit.RiskLoop` defines. |
| AllocEngine.PlanOf | web/aacalc/views/alloc.py:851-868 | Pre-retirement years are non-negative and at least retirement age minus age. The payout delay is 12 times them, the planning period certain equals them, and payment is monthly. |
| AllocEngine.Alloc.ValueTableDb | web/aacalc/views/alloc.py:261-304 | The loop returns `Setup.DbTable` of the stored benefits: the priced rows of the non-zero benefits in entry order with their total, or the missing-spouse failure. |
| AllocEngine.Alloc.RiskLimit | web/aacalc/views/alloc.py:392-450 | The method returns `RiskLimit.RiskLimitSpec` for the current state: the kept allocation, its consumption and its loss. |
| AllocEngine.Alloc.FixAllocs | web/aacalc/views/alloc.py:452-530 | The method's waterfall, two-pass loop and final checks return `FixAllocs.FixAllocsSpec` for the current state. |
| AllocEngine.Alloc.Calc | web/aacalc/views/alloc.py:752-790 | The method returns `Search.CalcSpec`: one scenario in the 'aa' mode, otherwise the bisection on the taxable savings. |
| AllocEngine.Alloc.SearchSavings | web/aacalc/views/alloc.py:760-781 | The 50-iteration loop with its width cut-off returns `Search.CalcLoop` over the probe that raises net worth by the tried amount. |
| AllocEngine.Alloc.SetCurves | web/aacalc/views/alloc.py:796-799 | It succeeds exactly when the real, nominal and fixed curves for the date exist. Otherwise it fails with NoData. On success it stores the three curves. |
| AllocEngine.Alloc.SetTables | web/aacalc/views/alloc.py:807-816 | It succeeds exactly when the 120-year, cohort and annuitant tables can be built. Otherwise it fails with UnableToAdjust. On success it stores them with the age. |
| AllocEngine.Alloc.SetHousehold | web/aacalc/views/alloc.py:818-828 | It succeeds exactly when the spouse record does, with the same error. It stores the spouse, and the minimum age is the member's age or the smaller of the two ages. |
| AllocEngine.Alloc.SetBalances | web/aacalc/views/alloc.py:830-850 | The benefits are stored. In the 'aa' mode the balances and percentages are stored as given, with percentages divided by 100. In other modes every balance is zero. |
| AllocEngine.Alloc.SetPlan | web/aacalc/views/alloc.py:851-869 | The stored plan is `PlanOf` the request at the stored age. |
| AllocEngine.Alloc.SetInitial | web/aacalc/views/alloc.py:794-869 | It fails exactly when `Setup.InitialContext` does, with the same error. On success the assembled state is that context. |
| AllocEngine.Alloc.SetBase | web/aacalc/views/alloc.py:794-871 | Same as SetInitial, for `Setup.BaseContext`: the initial state plus the value and return of future contributions. |
| AllocEngine.Alloc.SetRetirement | web/aacalc/views/alloc.py:879-898 | It fails with ZeroDivision exactly when the real retirement stream's annual return is -1. Otherwise the new state is `Setup.Priced` of the old one. |
| AllocEngine.Alloc.SetSetup | web/aacalc/views/alloc.py:794-898 | It fails exactly when `Setup.SetupOf` does, with the same error. Otherwise the state is that setup's context, and the method returns its benefits table. |
| AllocEngine.Alloc.CalcEstimates | web/aacalc/views/alloc.py:900-905 | The method returns `Search.EstimatesSpec`: the baseline, then the low and high estimates run with the baseline's plan. |
| AllocEngine.Alloc.ComputeResults | web/aacalc/views/alloc.py:792-919 | The method returns `Search.ComputeResultsSpec`, and its final state is the reported context. |
| Annuitization.LmBondsAge | web/aacalc/views/alloc.py:623 | The age for annuitising liability-matching bonds lies in [40, 50]. |
| Annuitization.AnnuitizeFractions | web/aacalc/views/alloc.py:616-624 | The stock fraction is the ramp (min_age − 65)/25 clamped to [0, 1], and the bond fraction is the ramp (min_age − 30)/30, likewise clamped. The risk-free fraction is 1 exactly from the liability-matching age on, and 0 before it. The other slots are 0. |
| Annuitization.AnnuitizeMonotone | web/aacalc/views/alloc.py:616-622 | An older household annuitises no smaller fraction of stocks or of bonds. |
| Annuitization.PyIndex | web/aacalc/views/alloc.py:635-636 | Python tuple indexing: t[i] for 0 ≤ i < len, t[len+i] for negative i ≥ −len, and IndexError exactly outside that range. |
| Annuitization.DecadeIndex | web/aacalc/views/alloc.py:633-634 | The corrected decade index is always a valid index of the cost table. |
| Annuitization.DelayCost | web/aacalc/views/alloc.py:632-638 | The corrected annual delay cost lies in [0, 0.0391]. |
| Annuitization.DelayCostInterpolates | web/aacalc/views/alloc.py:632-638 | The cost is the convex combination of `table[index]/10` and `table[next_index]/10`. The weight `(use_age % 10)/10` lies in [0, 1), and the next index is the same index or one more. |
| Annuitization.DelayCostAgrees | web/aacalc/views/alloc.py:632-638 | For a minimum age below 95, the code as written computes the same cost as the corrected one. |
| Annuitization.DelayCostAsWrittenFails | web/aacalc/views/alloc.py:633-636 | For minimum ages 95 to 110, the code as written raises IndexError. |
| Annuitization.AnnuitizePlan | web/aacalc/views/alloc.py:642-645 | The plan is the override when one is given. Otherwise it is gain > 0.04·unannuitised consumption and delay fraction cost > 0.001. |
| Numerics.DistributionPctl | web/aacalc/views/alloc.py:216-228 | The only failure is a maths-domain error. |
| Numerics.Geomean | web/aacalc/views/alloc.py:230-231 | The median of the same distribution. Its only failure is a maths-domain error. |
| Numerics.ZeroVolIsMean | web/aacalc/views/alloc.py:218-227 | With zero volatility, the percentile is the mean. |
| Numerics.ZeroMeanFails | web/aacalc/views/alloc.py:219 | A zero mean with non-zero volatility reaches log(0), and the uncaught ValueError surfaces. |
| Numerics.SolveMerton2 | web/aacalc/views/alloc.py:233-238 | A singular matrix gives IdenticalCovar, and gamma 0 gives a non-finite failure. Otherwise the result times gamma is inv(sigma)·(alpha − r). |
| Numerics.PyTrunc | web/aacalc/views/alloc.py:633 | `int()` truncates toward zero. |
| Numerics.PyMod10 | web/aacalc/views/alloc.py:637 | Python's `% 10` on a float lies in [0, 10) and differs from its operand by a multiple of 10. |
| Oracles.ScheduleAt | web/aacalc/views/alloc.py:240-248 | The schedule is `mean ** y` before the cut-off year and 0 from it on. With no cut-off it is always `mean ** y`. |
| Oracles.ScheduleCutoff | web/aacalc/views/alloc.py:242-246 | With non-zero powers, the schedule is zero exactly from the cut-off on, and never zero without one. |
| Portfolio.NonAnnuitizedWeights | web/aacalc/views/alloc.py:378-389 | Both annuity slots are zeroed, and so is the contributions slot when asked. The rest is renormalised to sum to 1 with proportions kept, or all zeros when the remaining sum is 0. |
| Portfolio.NonAnnuitizedFeasible | web/aacalc/views/alloc.py:378-389 | Non-negative weights with a non-zero remainder give a complete allocation: non-negative weights summing to 1. |
| Portfolio.Statistics | web/aacalc/views/alloc.py:329-348 | The return is the weighted sum of slot returns, and the variance is non-negative. The volatility is its square root, and the only failure is the maths-domain error of the geometric return. |
| Portfolio.RisklessMixHasItsMean | web/aacalc/views/alloc.py:329-346 | A mix of riskless slots has zero volatility, and its geometric return equals its return. |
| Portfolio.NormalizeRaw | web/aacalc/views/alloc.py:605-607 | After clamping, `w_prime` sums to 1, every non-risk-free entry is max(0, entry), and risk free takes the rest. |
| Portfolio.NormalizeRawIdempotent | web/aacalc/views/alloc.py:605-607 | Normalising twice is the same as normalising once. |
| Portfolio.Shift | web/aacalc/views/alloc.py:405-412 | A candidate keeps the weight sum, and stocks lose `mid·stocks`. That amount goes to risk free, or, without liability-matching bonds, risk free is folded into bonds and becomes 0. |
| Portfolio.ShiftNonNegative | web/aacalc/views/alloc.py:405-412 | For 0 ≤ mid ≤ 1, a shift of non-negative weights is non-negative. |
| Portfolio.ShiftReturn | web/aacalc/views/alloc.py:405-409 | Moving the amount to risk free changes the return by `mid·stocks·(r_riskfree − r_stocks)`. |
| Waterfall.Clamp01 | web/aacalc/views/alloc.py:457-459 | `min(max(0, x), 1)` lies in [0, 1] and is x when x is already there. |
| Waterfall.ContribShare | web/aacalc/views/alloc.py:460-463 | The contribution share is nv_contributions/nv, or 1 when nv is 0. |
| Waterfall.ExistingShare | web/aacalc/views/alloc.py:466-469 | The existing-benefits share is nv_db/nv, or 0 when nv is 0. |
| Waterfall.RequiredSafe | web/aacalc/views/alloc.py:470-479 | It is 0 without a required income. Otherwise it is at most 1 minus the contribution share, and non-negative when that share is at most 1. A zero divisor falls back to the clamped existing share. |
| Waterfall.TargetAllocDb | web/aacalc/views/alloc.py:480-483 | When purchasing, the target is at least the existing share, the required-safe floor and the unallocated rest. Otherwise it is the existing share. |
| Waterfall.AllocWaterfall | web/aacalc/views/alloc.py:454-496 | The waterfall keeps the contribution and existing shares. Risk free and bonds are in [0, 1], stocks and new annuities are non-negative, and new annuities are 0 when nothing is annuitised. |
| Waterfall.WaterfallFeasible | web/aacalc/views/alloc.py:456-496 | With consistent shares, the waterfall sums exactly to 1 with non-negative weights (what lines 525-526 only assert). The safe part covers the required-safe floor. |
| Waterfall.NoAnnuitizeNoPurchase | web/aacalc/views/alloc.py:480-487 | With an all-zero annuitise vector, the new-annuity weight is 0. |
| Waterfall.SharesFromValues | web/aacalc/views/alloc.py:460-469 | Present values with contributions plus benefits at most net worth give consistent shares. |
| Waterfall.Rescale | web/aacalc/views/alloc.py:512-523 | The rescale keeps the contribution and existing shares. |
| Waterfall.RebalanceShape | web/aacalc/views/alloc.py:514-523 | Bonds take the scaled bond weight, and risk free plus new annuities is max(0, max(safe·ratio, required) − existing). New annuities are the smaller of that and the annuitise cap, risk free is the non-negative difference, and stocks are max(0, 1 − rest). |
| Waterfall.RescaleNoAnnuities | web/aacalc/views/alloc.py:518-519 | With no risk-free annuitisation, the rescale buys no annuities. |
| Waterfall.RescaleFeasible | web/aacalc/views/alloc.py:512-523 | Rescaling a complete allocation by a ratio in [0, 1] keeps it complete. |
| Waterfall.RebalanceFeasible | web/aacalc/views/alloc.py:514-523 | Bonds and the safe part scaled no higher, with the floor within the safe part, give a complete allocation. |
| FixAllocs.ChooseRiskLimit | web/aacalc/views/alloc.py:501-507 | The only failures are maths-domain and division by zero. |
| FixAllocs.ChooseRule | web/aacalc/views/alloc.py:501-507 | Without liability-matching bonds, the plain risk limit is kept. With them, the liability-matching result replaces it exactly when its consumption is no lower and its loss is within tolerance or no higher. |
| FixAllocs.ChoosePreserves | web/aacalc/views/alloc.py:501-507 | The chosen allocation keeps completeness, contributions, existing benefits and new annuities. |
| FixAllocs.FixPassesAtMostTwo | web/aacalc/views/alloc.py:498-523 | The loop stops after the first pass in the 'number' mode, without a desired income, or when consumption is at most desired. Otherwise it makes exactly one more pass, on the rescale by desired/consume. |
| FixAllocs.FixPassesFeasible | web/aacalc/views/alloc.py:498-526 | Passes over a complete allocation return a complete allocation and never the assertion failure. |
| FixAllocs.FixPassesNoAnnuities | web/aacalc/views/alloc.py:498-523 | Without annuitisation, the passes buy no annuities. |
| FixAllocs.FixCoreFeasible | web/aacalc/views/alloc.py:498-530 | From a complete allocation covering the floor, fix_allocs never fails its assertions, and any result is complete. |
| FixAllocs.PassPreserves | web/aacalc/views/alloc.py:501-528 | Every risk-limited pass keeps completeness and the annuity slots. Neither it nor the statistics fail with the assertion error. |
| FixAllocs.FixAllocsFeasible | web/aacalc/views/alloc.py:452-530 | With consistent shares and a non-negative desired income, the two asserts at 525-526 always hold and the result is a complete allocation. |
| FixAllocs.FixCoreNoAnnuities | web/aacalc/views/alloc.py:498-530 | The loop keeps a zero new-annuity weight when nothing is annuitised. |
| FixAllocs.FixAllocsNoAnnuities | web/aacalc/views/alloc.py:452-530 | With an all-zero annuitise vector, fix_allocs buys no new annuities. |
| RiskLimit.ShortMarket | web/aacalc/views/alloc.py:350-356 | The investment statistics use the short bond and liability-matching-bond volatilities and keep the rest of the market. |
| RiskLimit.InvestmentStatistics | web/aacalc/views/alloc.py:350-356 | The only failure is a maths-domain error. |
| RiskLimit.InvestmentsLoss | web/aacalc/views/alloc.py:414-416 | The only failure is a maths-domain error. |
| RiskLimit.Width | web/aacalc/views/alloc.py:398-403 | The bracket width after any number of halvings stays positive. |
| RiskLimit.RiskLoop | web/aacalc/views/alloc.py:395-434 | Any failure is the loss error of some candidate. |
| RiskLimit.RiskLoopShifts | web/aacalc/views/alloc.py:403-425 | Every tried and kept candidate is a shift of `w_init` by some mid in [0, 1], and the kept one is tried or the incoming one. |
| RiskLimit.RiskLoopTolerable | web/aacalc/views/alloc.py:418-430 | If any candidate (or the incoming one) was within tolerance, the kept loss is within tolerance. An in-tolerance candidate is never replaced by an out-of-tolerance one. |
| RiskLimit.RiskLoopLeast | web/aacalc/views/alloc.py:418-430 | If the kept loss exceeds tolerance, it is the least loss of all tried candidates. Out-of-tolerance replacements only lower the loss. |
| RiskLimit.RiskLoopStopsEarly | web/aacalc/views/alloc.py:398-401 | The loop evaluates at most 15 candidates, well within its 50 iterations. |
| RiskLimit.WidthAfter15 | web/aacalc/views/alloc.py:400 | After 15 halvings of [-1, 1], the width is below 1e-4. |
| RiskLimit.RiskLoopKeepsTolerable | web/aacalc/views/alloc.py:403-428 | When the unshifted allocation is already tolerable, the first probe (mid 0) is kept and the loop stops. With liability-matching bonds, that candidate is `w_init` itself. |
| RiskLimit.ShiftOfShape | web/aacalc/views/alloc.py:405-412 | A shift keeps the weight sum, contributions and annuity slots. Without liability-matching bonds risk free is 0, and non-negativity is kept. |
| RiskLimit.KeptConsumption | web/aacalc/views/alloc.py:436-448 | Consumption is priced for the kept allocation and loss. It fails when either discounted life expectancy is zero, and its only failures are maths-domain and division by zero. |
| RiskLimit.RiskLimitSpec | web/aacalc/views/alloc.py:392-450 | The only failures are maths-domain and division by zero. |
| RiskLimit.RiskLimitShape | web/aacalc/views/alloc.py:392-450 | The returned allocation keeps the sum, contributions and annuity slots. Without liability-matching bonds risk free is 0, non-negativity is kept, and the returned loss is within tolerance or the least tried. |
| Scenario.Rets | web/aacalc/views/alloc.py:534-542 | Contributions earn their own return, and risk free and both annuity slots earn the liability-matching-bond return. |
| Scenario.RetsFactor | web/aacalc/views/alloc.py:536-537 | The factor moves only the stock return, by factor times the equity standard error. |
| Scenario.MarketOf | web/aacalc/views/alloc.py:544-556 | The market uses the scenario returns, the input volatilities, a zero liability-matching-bond volatility and a zero bond/liability covariance. |
| Scenario.RawAllocation | web/aacalc/views/alloc.py:589-607 | Outside the volatile-contribution case, the raw weights sum to 1. The contribution weight is the discounted contributions over net worth, or 0 for zero net worth, and the solver's errors are passed on. |
| Scenario.AaEquity | web/aacalc/views/alloc.py:665-669 | It is stocks over investments, 1 when there are no investments, and in [0, 1] for non-negative weights. |
| Scenario.AnnuitizeDecision | web/aacalc/views/alloc.py:609-657 | Without purchase, the unannuitised result stands with no purchase and no plan. With purchase, the age ramps are used and the plan follows the override or the gain and cost rule; the annuitised result is chosen exactly when planned. |
| Scenario.AnnuitizeStepFails | web/aacalc/views/alloc.py:609-657 | The annuitisation step fails exactly when purchases are requested and the second fix_allocs run fails, and then with that run's error. |
| Scenario.TailLoss | web/aacalc/views/alloc.py:663 | The only failure is a maths-domain error. |
| Scenario.ScenarioTail | web/aacalc/views/alloc.py:658-744 | The result reports the scenario returns, the chosen allocation, the plan, the chosen consumption and the unannuitised consumption. |
| Scenario.CalcScenarioSound | web/aacalc/views/alloc.py:532-750 | With consistent shares, a scenario never fails the assertions. Its allocation is complete, with no new annuities when no purchase is requested. |
| Scenario.CalcScenarioPlan | web/aacalc/views/alloc.py:614-652 | No plan without a purchase request, and the override when one is given. The returns are those of the scenario factor. |
| Search.Halved | web/aacalc/views/alloc.py:768 | Halving a positive width keeps it positive. |
| Search.CalcLoop | web/aacalc/views/alloc.py:765-781 | Any failure is a probe's failure. |
| Search.CalcLoopWithin | web/aacalc/views/alloc.py:765-781 | Every tried amount and the kept one stay within the initial bracket, and the kept one is a probe that succeeded. |
| Search.CalcLoopRange | web/aacalc/views/alloc.py:765-781 | Each step keeps 0 ≤ low < high ≤ max_portfolio, and the kept amount is one of the tried amounts. |
| Search.CalcLoopMeets | web/aacalc/views/alloc.py:772-781 | If some probe met the desired income, the kept amount met it and is the lowest tried amount that did. |
| Search.CalcLoopStopsEarly | web/aacalc/views/alloc.py:767-776 | The loop makes at most 21 probes, well within its 50 iterations, because of the 1e-6 width cut-off. |
| Search.HalvedAfter20 | web/aacalc/views/alloc.py:775 | After 20 halvings, the width is below 1e-6 of max_portfolio. |
| Search.MaxPortfolioNonNegative | web/aacalc/views/alloc.py:762 | max_portfolio = desired·(120 − min_age − pre-retirement years) is non-negative for a non-negative desired income within the horizon. |
| Search.Desired | web/aacalc/views/alloc.py:762 | Reading a missing desired income fails with the None-operand error, as Python's arithmetic on None does. |
| Search.CalcWith | web/aacalc/views/alloc.py:752-786 | The taxable savings are reported exactly outside the 'aa' mode. Without a desired income, the search fails with the None-operand error. |
| Search.CalcWithAt | web/aacalc/views/alloc.py:752-786 | The reported scenario is the probe at the reported savings, which lie within the search range. |
| Search.CalcWithFails | web/aacalc/views/alloc.py:752-786 | A failure is the single probe's failure in 'aa', the missing desired income, or the failure of a probe within the range. |
| Search.CalcWithMeets | web/aacalc/views/alloc.py:760-786 | The savings lie in (0, max_portfolio], the search makes 1 to 21 probes, and the result is one of them. When any probe met the desired income, the result met it with the lowest such amount. |
| Search.CalcSpec | web/aacalc/views/alloc.py:752-790 | The taxable savings are reported exactly outside 'aa'. A missing desired income fails there. |
| Search.ProbeSound | web/aacalc/views/alloc.py:770-771 | Raising net worth by a non-negative amount gives a sound scenario. |
| Search.CoveredScenarioSound | web/aacalc/views/alloc.py:532-750 | Covered present values give a sound scenario: no assertion failure, a complete allocation, and no new annuities without a purchase request. |
| Search.CalcSound | web/aacalc/views/alloc.py:752-790 | calc never fails its assertions. Its chosen allocation is complete, with no new annuities without a purchase request, and reported savings lie in [0, max_portfolio]. |
| Search.CalcMeets | web/aacalc/views/alloc.py:760-786 | Outside 'aa', the reported savings are among the probes, and they met the desired income with the lowest amount whenever any probe did. |
| Search.CalcPlan | web/aacalc/views/alloc.py:752-786 | The reported scenario follows the plan rule for its factor. |
| Search.EstimatesFanOut | web/aacalc/views/alloc.py:900-905 | The baseline's returns are those of factor 0, and the low and high estimates' returns those of −factor and +factor. Both receive the baseline's plan. There is no plan without a purchase request, and each reports savings exactly outside 'aa'. |
| Search.EstimatesTaxable | web/aacalc/views/alloc.py:782 | The baseline reports taxable savings exactly outside the 'aa' mode. |
| Search.ComputeResultsSpec | web/aacalc/views/alloc.py:792-919 | A failed setup fails compute_results with the same error. |
| Search.ComputeResultsAdopts | web/aacalc/views/alloc.py:873-911 | The estimates are computed on the value table of the setup, with the normal quantile of the confidence level. In the 'number' mode the baseline's taxable savings replace the stored taxable balance; otherwise the state is unchanged. |
| Setup.NpvContrib | web/aacalc/views/alloc.py:250-259 | With no contribution, the value of future contributions is 0. |
| Setup.NpvContribFrame | web/aacalc/views/alloc.py:250-259 | The value depends only on the contribution, the real curve, the 120-year table, the period certain and the pre-retirement years. |
| Setup.ContribPricing | web/aacalc/views/alloc.py:251-255 | Contributions are priced on the schedule (1 + ret)^y cut off at retirement, with no delay, yearly, joint and contingent, on the 120-year table. |
| Setup.DbPricing | web/aacalc/views/alloc.py:273-290 | A spouse's benefit without a spouse fails. Otherwise the payout delay is 12·max(0, delay), and the period certain is non-negative and at least both the plan's minus the positive delay and the row's plus the negative delay. The curve is real or nominal by indexing, and the joint fraction and contingency are those of the row. |
| Setup.DbRow | web/aacalc/views/alloc.py:292-302 | A row is named after its description, or 'Social Security' when blank, and keeps who. It is valued at price × amount. |
| Setup.NonZero | web/aacalc/views/alloc.py:266-271 | The benefits that are priced all have non-zero amounts. |
| Setup.DbTable | web/aacalc/views/alloc.py:261-304 | The table succeeds exactly when its rows do. nv_db is the sum of the rows' values. |
| Setup.DbRowsAreNonZeroRows | web/aacalc/views/alloc.py:266-302 | The table has one row per non-zero benefit, in entry order. |
| Setup.DbRowsFailure | web/aacalc/views/alloc.py:275-282 | The table fails exactly when a priced benefit is the spouse's and there is no spouse. The error is the missing-spouse error. |
| Setup.ValueTable | web/aacalc/views/alloc.py:306-316 | nv = nv_db + traditional·(1 − tax) + roth + taxable + nv_contributions. |
| Setup.ValueTableTaxable | web/aacalc/views/alloc.py:306-316 | Raising the taxable balance raises net worth by the same amount, which is what calc's table hack relies on. |
| Setup.ValueTableCovers | web/aacalc/views/alloc.py:311-313 | Non-negative balances give consistent contribution and benefit shares. |
| Setup.ConsumePricing | web/aacalc/views/alloc.py:370-373 | The withdrawal stream is priced on the zero curve, at the 97th percentile, with no period certain, on the schedule 1/(1 + growth)^y. |
| Setup.ConsumeFactor | web/aacalc/views/alloc.py:358-376 | The factor is 1/price. It fails with ZeroDivision exactly when growth is −1 or the price is 0. |
| Setup.RetirementPricing | web/aacalc/views/alloc.py:879-891 | The retirement stream has the plan's payout delay, no period certain, and joint-contingent payment. |
| Setup.LeAdjust | web/aacalc/views/alloc.py:814 | A life expectancy is used only when given and non-zero, as years beyond the age. |
| Setup.SpouseRecord | web/aacalc/views/alloc.py:818-828 | 'none' gives no spouse. A spouse without an age fails. A spouse record carries the given age and buildable tables. |
| Setup.InitialContext | web/aacalc/views/alloc.py:794-869 | The initial state keeps the benefits and the age. |
| Setup.BaseContext | web/aacalc/views/alloc.py:794-871 | The state with future contributions keeps the benefits and the age. |
| Setup.Priced | web/aacalc/views/alloc.py:879-898 | Pricing fails exactly on a −1 annual return. Otherwise it changes only the seven priced fields. |
| Setup.PricedFrame | web/aacalc/views/alloc.py:879-898 | The priced fields do not depend on their own earlier values. |
| Setup.SetupOf | web/aacalc/views/alloc.py:794-898 | A failed base context fails the setup with the same error. |
| Setup.SetupFields | web/aacalc/views/alloc.py:794-898 | The setup keeps the benefits. Pre-retirement years are max(0, retirement age − age), the payout delay is 12 times them and the period certain equals them. The minimum age is at most each age, there is a spouse exactly unless 'none', and outside 'aa' the balances are 0. |
| AssetClasses.Fields | web/aacalc/utils.py:39-40 | The fields of the rows, in row order. |
| AssetClasses.AllAssetClasses | web/aacalc/utils.py:17-40 | The 19 form-field names, in table order. |
| AssetClasses.Chosen | web/aacalc/utils.py:42-46 | No more classes are chosen than there are rows. |
| AssetClasses.Symbols | web/aacalc/utils.py:42-43 | The symbols of the ticked rows, in table order, one per ticked row. |
| AssetClasses.Names | web/aacalc/utils.py:45-46 | The names of the ticked rows, in table order, one per ticked row, so as many as the symbols. |
| AssetClasses.Flags | web/aacalc/utils.py:48-52 | The dictionary has exactly the class fields as keys. |
| AssetClasses.FieldsDistinct | web/aacalc/utils.py:17-37 | No two rows share a form field. |
| AssetClasses.StartsBeforeEnds | web/aacalc/utils.py:17-37 | Every row's data starts no later than it ends. |
| AssetClasses.ChosenMembers | web/aacalc/utils.py:42-46 | A class is chosen exactly when it is a row whose box is ticked. |
| AssetClasses.CountIsChosen | web/aacalc/utils.py:42-46 | The number of ticked boxes is the number of chosen rows. |
| AssetClasses.ChosenEmpty | web/aacalc/utils.py:42-46 | Nothing is chosen exactly when no box is ticked. |
| AssetClasses.FlagsOfTable | web/aacalc/utils.py:48-52 | Each class field maps to (ticked ∧ year < start) in the too-early dictionary and to (ticked ∧ year > end) in the too-late one. |
| AssetClasses.InRangeNotFlagged | web/aacalc/utils.py:48-52 | A year within a class's data flags it in neither dictionary. |
| AssetClasses.NamesTooEarly | web/aacalc/utils.py:45-49 | Every name of the too-early message is that of a ticked class whose data starts after the year. |
| AssetClasses.NamesTooLate | web/aacalc/utils.py:45-52 | Every name of the too-late message is that of a ticked class whose data ends before the year. |
| AssetClasses.EarlyNamesEmpty | web/aacalc/utils.py:45-49 | No name is listed as too early exactly when every ticked class's data starts by the year. |
| AssetClasses.LateNamesEmpty | web/aacalc/utils.py:45-52 | No name is listed as too late exactly when every ticked class's data lasts until the year. |
| Forms.Strip | web/aacalc/forms.py:53 | The text `int()` reads has no surrounding whitespace. |
| Forms.ParseInt | web/aacalc/forms.py:52-55 | `int()` accepts only non-blank text. |
| Forms.ParseDecimal | web/aacalc/forms.py:53 | `int()` reads back every decimal numeral, with or without a minus sign. |
| Forms.ParseSignedSpaced | web/aacalc/forms.py:53 | `int()` skips whitespace between the sign and the digits: '+ n' reads n and '-\tn' reads −n. |
| Forms.ParseIgnoresSpace | web/aacalc/forms.py:53 | Surrounding whitespace does not change what `int()` reads. |
| Forms.FirstParse | web/aacalc/forms.py:41-51 | The date is the parse of the first format that succeeds, and none is found exactly when no format parses. |
| Forms.DobOrAgeClean | web/aacalc/forms.py:40-64 | A parsed date wins. Otherwise an age is returned exactly when `int()` reads one in [0, 98). An empty field is None when optional and 'This field is required.' otherwise, and anything else is 'Invalid age or date of birth.'. |
| Forms.AgeAccepted | web/aacalc/forms.py:52-58 | Every decimal age below 98 is accepted as itself. |
| Forms.Coppa | web/aacalc/forms.py:207-218 | None passes through unchanged. A value passes unchanged exactly when the age, or the current year minus the birth year, exceeds 13. |
| Forms.TypedAgeRange | web/aacalc/forms.py:220-221 | A typed age passes the field and the under-13 rule exactly from 14 to 97. |
| Forms.CleanSex2 | web/aacalc/forms.py:223-228 | The empty choice is None, and any other value is kept. |
| Forms.MarketDataClean | web/aacalc/forms.py:255-277 | It accepts exactly when every ticked class has data over both periods and each period spans at least 40 years. There must also be some guaranteed income, a positive bequest share, and, for floor-plus-upside, an upside rate no lower than the consumption rate. |
| Forms.ScenarioBaseAccepts | web/aacalc/forms.py:233-278 | The scenario form passes exactly data with field errors or acceptable data. Acceptable data has consistent spouse fields, desired at least 0.002·required, and a non-zero withdrawal. It also has no bequest with floor-plus-upside and eta ≤ 1, at least two classes, and the conditions of MarketDataClean. |
| Forms.RetirementAgeAgrees | web/aacalc/forms.py:302-306 | An age typed as the years since the birth year gives the same retirement age as the date of birth. |
| Forms.CheckRetirementYear | web/aacalc/forms.py:297-318 | It passes exactly when each person is under 100 in the retirement year. The member is checked first. |
| Forms.ScenarioRetirementClean | web/aacalc/forms.py:322-338 | The number and edit forms pass exactly data with field errors, or data that is acceptable and passes the retirement check. |
| Forms.LeClean | web/aacalc/forms.py:351-359 | It passes exactly when a second sex is given iff a second age is (or some field already failed). |
| Forms.SpiaClean | web/aacalc/forms.py:395-413 | It passes exactly when the second annuitant is consistent, months come only with years, and the adjusted table has its life expectancies. Exactly two of premium, payout and money's worth ratio must be given. |
| Forms.SpiaLeavesOne | web/aacalc/forms.py:409-412 | An accepted quote leaves exactly one of the three prices to compute. |
| Forms.AllocBaseClean | web/aacalc/forms.py:521-552 | A table error fails first. Otherwise the form passes exactly when a field failed, or when the 'none' spouse choice matches a missing age with no life expectancy, spousal benefit or retirement age for a missing spouse. There must also be no mortgage without payment unless there is a reverse mortgage, no credit line without a reverse mortgage, and a required income not above the desired one. |
| Forms.CheckedBenefitsPrice | web/aacalc/forms.py:531-537 | With no spouse, a table the allocation form accepts never makes the engine's `value_table_db` fail on a missing spouse. |
| Forms.DbClean | web/aacalc/forms.py:556-565 | A Social Security row passes exactly when it is inflation indexed, has period certain 0 and pays the survivor. Each violation raises its own error, in that order. |

## Left out

- Library maths (log, exp, sqrt, lognormal and normal quantiles, the matrix inverse) is uninterpreted oracle functions, and so is the annuity pricer with its yield curves and life tables. `aacalc.spia` is not part of this model.
- Scenario.AnnuitizeStep: the scenario pipeline prices the annuitisation delay with the corrected `Annuitization.DelayCost` (see Findings). With annuity purchases and a minimum age of 95 to 110, the source raises IndexError at alloc.py lines 633-636, and so do `calc` and `compute_results`. The model returns `Ok` there. Below 95 the two costs agree (`Annuitization.DelayCostAgrees`). The IndexError itself is modelled only by `Annuitization.DelayCostAsWritten`.
- Scenario.AnnuitizeDecision: for the same reason its contract does not include the IndexError at minimum ages 95 to 110. `Scenario.AnnuitizeStepFails` gives the failures the step does have.
- Numerics.SolveMerton2: with a zero risk aversion (gamma 0, which the form accepts), numpy divides by zero and returns infinite or NaN weights without raising. The model stops with `NonFinite` there, and so does Scenario.RawAllocation, so what `calc_scenario` then does with those weights is not modelled.
- Floating point: the model uses exact reals. The 1e-15 and NaN tests become exact comparisons, and nothing about IEEE rounding is claimed.
- The volatile-contribution search of the 'aa' mode (alloc.py lines 558-588) rests on a 3x3 inverse and the pricer. It is one oracle field returning the raw weights.
- Display strings (the `'{:,.0f}'` formatting, the result dictionaries, yield-curve dates) and the removal of the contribution row from the displayed weights in the 'number' mode are not modelled. The model keeps the numbers behind them.
- `plot`, `alloc`, `alloc_init` and `default_alloc_params` are left out: HTTP rendering, temporary files, the R subprocess and the clock.
- AllocEngine.Alloc: its `self.*` attributes are grouped into records by the step that sets them (curves, tables, household, balances, plan, retirement pricing). A method that fails leaves the fields it already set unspecified, where Python keeps them.
- Forms: the Django plumbing (field declarations, widgets, formsets) is left out. The `strptime`/`strftime` parsing and the clock are parameters: the date each format yields and the current year. The string serialisation of a date in `coppa` is not modelled, because a date stays a date. The record of cleaned values always holds every field, so the KeyError that `DbForm.clean` (forms.py:556-565) raises when a Social Security row's period certain or joint type failed its own field validation is not modelled.
- Forms.ParseInt: `int()` is modelled on ASCII digits and C-locale whitespace, including whitespace between the sign and the digits. Python 2 `int()` on a unicode string also accepts other Unicode decimal digits and Unicode whitespace (such as U+00A0).
- Forms.DobOrAgeClean: the two-digit-year correction and the round trip through `strftime` are part of the parse parameter.
- AllocEngine.Alloc.ComputeResults: `results['yield_curve_date']` and the other display entries are not modelled.

## Findings

| source | as written | input that shows it | evidently intended | confidence | as-written member | corrected member |
|---|---|---|---|---|---|---|
| web/aacalc/views/alloc.py:633-634 | The decade indices into the 10-entry delay-cost table are capped at `len(annuitization_delay_cost)`, which is one past the last index. | With `purchase_income_annuity` set and a minimum age of 95 to 110, `next_index` is 10 and `annuitization_delay_cost[10]` raises IndexError. At 105 and above, `index` is too. The allocation form allows ages up to 110. | The cap is `len(annuitization_delay_cost) - 1`, so very old households use the last decade's cost. | not executed | Annuitization.DelayCostAsWrittenFails | Annuitization.DelayCost |
