/**
 * fix_allocs (alloc.py lines 452-530): the waterfall, then at most two risk-limited passes.
 * After the first pass the allocation is rescaled toward the desired income when it supports
 * more than that; the sanity assertions on the result come last.
 */
module FixAllocs {
  import opened Wrappers
  import opened Oracles
  import opened Inputs
  import opened Portfolio
  import opened Waterfall
  import opened Setup
  import opened RiskLimit

  /** The liability-matching-bond variant replaces the other when it supports at least as
      much consumption and its tail loss is within tolerance or no worse. */
  predicate LmPreferred(tol: real, plain: RiskResult, lm: RiskResult) {
    lm.consume >= plain.consume && (lm.loss <= tol || lm.loss <= plain.loss)
  }

  /** One pass: the risk limit without liability matching bonds, and with them when they are
      in use, keeping the preferred of the two. */
  function ChooseRiskLimit(o: Oracle, c: Context, wTry: Weights, m: Market, nv: real)
    : (r: Outcome<RiskResult>)
    ensures r.Err? ==> r.error == MathDomain || r.error == ZeroDivision
  {
    var plain :- RiskLimitSpec(o, c, false, wTry, m, nv);
    if !c.useLmBonds then Ok(plain)
    else
      var lm :- RiskLimitSpec(o, c, true, wTry, m, nv);
      if LmPreferred(c.riskTolerance, plain, lm) then Ok(lm) else Ok(plain)
  }

  /** Which result a pass keeps: the plain one without liability matching bonds, otherwise the
      liability matching one exactly when it is preferred. */
  lemma ChooseRule(o: Oracle, c: Context, wTry: Weights, m: Market, nv: real)
    requires ChooseRiskLimit(o, c, wTry, m, nv).Ok?
    ensures var r := ChooseRiskLimit(o, c, wTry, m, nv).value;
      var plain := RiskLimitSpec(o, c, false, wTry, m, nv);
      var lm := RiskLimitSpec(o, c, true, wTry, m, nv);
      plain.Ok? &&
      (!c.useLmBonds ==> r == plain.value) &&
      (c.useLmBonds ==>
         (lm.Ok? &&
          (LmPreferred(c.riskTolerance, plain.value, lm.value) ==> r == lm.value) &&
          (!LmPreferred(c.riskTolerance, plain.value, lm.value) ==> r == plain.value)))
  {
  }

  /** A pass keeps a complete allocation complete and leaves the fixed slots alone. */
  lemma ChoosePreserves(o: Oracle, c: Context, wTry: Weights, m: Market, nv: real)
    requires ChooseRiskLimit(o, c, wTry, m, nv).Ok?
    ensures var w := ChooseRiskLimit(o, c, wTry, m, nv).value.w;
      (Feasible(wTry) ==> Feasible(w)) && w.contrib == wTry.contrib &&
      w.existing == wTry.existing && w.newAnnuities == wTry.newAnnuities
  {
    RiskLimitShape(o, c, false, wTry, m, nv);
    if c.useLmBonds {
      RiskLimitShape(o, c, true, wTry, m, nv);
    }
  }

  /** Whether the loop stops after a pass (alloc.py line 508). */
  predicate StopAfter(count: nat, mode: Mode, desired: Option<real>, consume: real) {
    count == 1 || mode.Number? || desired.None? || consume <= desired.value
  }

  /** The pass loop from pass `count` with the allocation `wFixed` to try; `choose` is one
      pass.  A rescale divides by the consumption found, unguarded. */
  function FixPasses(choose: Weights -> Outcome<RiskResult>, mode: Mode, desired: Option<real>,
                     rs: real, annuitizeRf: real, count: nat, wFixed: Weights)
    : (r: Outcome<RiskResult>)
    requires count < 2
    decreases 2 - count
  {
    var r :- choose(wFixed);
    if StopAfter(count, mode, desired, r.consume) then Ok(r)
    else if r.consume == 0.0 then Err(ZeroDivision)
    else
      FixPasses(choose, mode, desired, rs, annuitizeRf, count + 1,
                Rescale(wFixed, desired.value / r.consume, rs, annuitizeRf))
  }

  /** One pass of the loop given the outcome `res` of the pass on `w`: a failure fails the
      loop, a stop keeps the result, a zero consumption fails the rescale, and otherwise the
      second pass runs on the rescaled allocation. */
  lemma FixPassesStep(choose: Weights -> Outcome<RiskResult>, mode: Mode, desired: Option<real>,
                      rs: real, annuitizeRf: real, count: nat, w: Weights,
                      res: Outcome<RiskResult>)
    requires count < 2 && res == choose(w)
    ensures var r := FixPasses(choose, mode, desired, rs, annuitizeRf, count, w);
      (res.Err? ==> r == Err(res.error)) &&
      (res.Ok? && StopAfter(count, mode, desired, res.value.consume) ==> r == res) &&
      (res.Ok? && !StopAfter(count, mode, desired, res.value.consume) ==>
         count == 0 && desired.Some? &&
         (res.value.consume == 0.0 ==> r == Err(ZeroDivision)) &&
         (res.value.consume != 0.0 ==>
            r == FixPasses(choose, mode, desired, rs, annuitizeRf, 1,
                           Rescale(w, desired.value / res.value.consume, rs, annuitizeRf))))
  {
  }

  /** At most two passes: one pass when the first stops, else exactly one more on the
      rescaled allocation. */
  lemma FixPassesAtMostTwo(choose: Weights -> Outcome<RiskResult>, mode: Mode,
                           desired: Option<real>, rs: real, annuitizeRf: real, w: Weights)
    requires choose(w).Ok?
    ensures var first := choose(w).value;
      var r := FixPasses(choose, mode, desired, rs, annuitizeRf, 0, w);
      (StopAfter(0, mode, desired, first.consume) ==> r == Ok(first)) &&
      (!StopAfter(0, mode, desired, first.consume) && first.consume != 0.0 ==>
         r == choose(Rescale(w, desired.value / first.consume, rs, annuitizeRf)))
  {
    var first := choose(w).value;
    if !StopAfter(0, mode, desired, first.consume) && first.consume != 0.0 {
      var w2 := Rescale(w, desired.value / first.consume, rs, annuitizeRf);
      assert FixPasses(choose, mode, desired, rs, annuitizeRf, 1, w2) == choose(w2);
    }
  }

  /** The ratio of a non-negative desired income to a larger consumption lies in [0, 1). */
  lemma RatioBelowOne(desired: real, consume: real)
    requires 0.0 <= desired < consume
    ensures 0.0 <= desired / consume < 1.0
  {
    var q := desired / consume;
    assert q * consume == desired;
    if q < 0.0 {
      Numerics.ProductPositive(-q, consume);
    }
  }

  /** With passes that keep complete allocations complete, the loop outputs a complete
      allocation from one whose safe part covers the floor. */
  lemma FixPassesFeasible(choose: Weights -> Outcome<RiskResult>, mode: Mode,
                          desired: Option<real>, rs: real, annuitizeRf: real, count: nat,
                          wFixed: Weights)
    requires count < 2 && Feasible(wFixed)
    requires count == 0 ==> SafePart(wFixed) >= rs
    requires desired.Some? ==> desired.value >= 0.0
    requires forall w :: Feasible(w) && choose(w).Ok? ==> Feasible(choose(w).value.w)
    requires forall w :: choose(w).Err? ==> choose(w).error != AssertionFailed
    ensures var r := FixPasses(choose, mode, desired, rs, annuitizeRf, count, wFixed);
      (r.Err? ==> r.error != AssertionFailed) && (r.Ok? ==> Feasible(r.value.w))
    decreases 2 - count
  {
    if choose(wFixed).Ok? && !StopAfter(count, mode, desired, choose(wFixed).value.consume) &&
       choose(wFixed).value.consume != 0.0 {
      var r := choose(wFixed).value;
      var ratio := desired.value / r.consume;
      RatioBelowOne(desired.value, r.consume);
      RescaleFeasible(wFixed, ratio, rs, annuitizeRf);
      FixPassesFeasible(choose, mode, desired, rs, annuitizeRf, count + 1,
                        Rescale(wFixed, ratio, rs, annuitizeRf));
    }
  }

  /** With passes that leave the annuity slot alone, nothing to annuitise and a non-negative
      defined-benefit share, the loop buys no annuities. */
  lemma FixPassesNoAnnuities(choose: Weights -> Outcome<RiskResult>, mode: Mode,
                             desired: Option<real>, rs: real, count: nat, wFixed: Weights)
    requires count < 2 && wFixed.newAnnuities == 0.0 && wFixed.existing >= 0.0
    requires forall w :: choose(w).Ok? ==> choose(w).value.w.newAnnuities == w.newAnnuities &&
                                           choose(w).value.w.existing == w.existing
    requires FixPasses(choose, mode, desired, rs, 0.0, count, wFixed).Ok?
    ensures FixPasses(choose, mode, desired, rs, 0.0, count, wFixed).value.w.newAnnuities == 0.0
    decreases 2 - count
  {
    var r := choose(wFixed).value;
    if !StopAfter(count, mode, desired, r.consume) {
      var w2 := Rescale(wFixed, desired.value / r.consume, rs, 0.0);
      RescaleNoAnnuities(wFixed, desired.value / r.consume, rs);
      FixPassesNoAnnuities(choose, mode, desired, rs, count + 1, w2);
    }
  }

  /** fix_allocs' result: the allocation, the consumption it supports and its statistics. */
  datatype FixResult = FixResult(w: Weights, consume: real, stats: Stats)

  function Abs(x: real): real { if x < 0.0 then -x else x }

  /** One pass of fix_allocs as a function of the allocation tried. */
  function Pass(o: Oracle, c: Context, m: Market, nv: real): Weights -> Outcome<RiskResult> {
    w => ChooseRiskLimit(o, c, w, m, nv)
  }

  /** The required-safe floor of a request (alloc.py lines 470-479). */
  function FloorOf(c: Context, results: NvResults): real {
    var ce := ContribShare(results.nv, c.nvContributions);
    var e := ExistingShare(results.nv, results.nvDb);
    RequiredSafe(c.requiredIncome, results.nv, ce, e, c.discountedRetirementLe,
                 c.discountedRetirementLeAnnuity)
  }

  /** The waterfall of a request (alloc.py lines 454-496). */
  function InitialAlloc(c: Context, wPrime: RawWeights, results: NvResults, annuitize: Weights)
    : Weights
  {
    var ce := ContribShare(results.nv, c.nvContributions);
    var e := ExistingShare(results.nv, results.nvDb);
    AllocWaterfall(wPrime, annuitize, ce, e, FloorOf(c, results))
  }

  /** The statistics evaluator of a request. */
  function StatsOf(o: Oracle, c: Context, m: Market): Weights -> Outcome<Stats> {
    w => Statistics(o, c.contributionVol, w, m)
  }

  /** The passes from the waterfall's allocation `w0`, the two assertions (to within 1e-15),
      and the statistics of the result. */
  function FixCore(choose: Weights -> Outcome<RiskResult>, statsOf: Weights -> Outcome<Stats>,
                   mode: Mode, desired: Option<real>, rs: real, annuitizeRf: real, w0: Weights)
    : (r: Outcome<FixResult>)
  {
    var p :- FixPasses(choose, mode, desired, rs, annuitizeRf, 0, w0);
    var _ :- Need(NonNegative(p.w) && Abs(Sum(p.w) - 1.0) < 0.000000000000001, AssertionFailed);
    var st :- statsOf(p.w);
    Ok(FixResult(p.w, p.consume, st))
  }

  /** What FixCore returns once the passes have returned `p`: the assertion failure unless
      `p` is non-negative and complete, else the statistics of `p` or their failure. */
  lemma FixCoreAfter(choose: Weights -> Outcome<RiskResult>, statsOf: Weights -> Outcome<Stats>,
                     mode: Mode, desired: Option<real>, rs: real, annuitizeRf: real,
                     w0: Weights, p: RiskResult, st: Outcome<Stats>)
    requires FixPasses(choose, mode, desired, rs, annuitizeRf, 0, w0) == Ok(p)
    requires st == statsOf(p.w)
    ensures var r := FixCore(choose, statsOf, mode, desired, rs, annuitizeRf, w0);
      (!NonNegative(p.w) ==> r == Err(AssertionFailed)) &&
      (!(Abs(Sum(p.w) - 1.0) < 0.000000000000001) ==> r == Err(AssertionFailed)) &&
      (NonNegative(p.w) && Abs(Sum(p.w) - 1.0) < 0.000000000000001 ==>
         (st.Err? ==> r == Err(st.error)) && (st.Ok? ==> r == Ok(FixResult(p.w, p.consume, st.value))))
  {
  }

  /** From a complete allocation covering the floor, with passes that keep allocations
      complete, the assertions hold and the result is complete. */
  lemma FixCoreFeasible(choose: Weights -> Outcome<RiskResult>, statsOf: Weights -> Outcome<Stats>,
                        mode: Mode, desired: Option<real>, rs: real, annuitizeRf: real,
                        w0: Weights)
    requires Feasible(w0) && w0.riskFree + w0.existing + w0.newAnnuities >= rs
    requires desired.Some? ==> desired.value >= 0.0
    requires forall w :: Feasible(w) && choose(w).Ok? ==> Feasible(choose(w).value.w)
    requires forall w :: choose(w).Err? ==> choose(w).error != AssertionFailed
    requires forall w :: statsOf(w).Err? ==> statsOf(w).error != AssertionFailed
    ensures FixCore(choose, statsOf, mode, desired, rs, annuitizeRf, w0) != Err(AssertionFailed)
    ensures FixCore(choose, statsOf, mode, desired, rs, annuitizeRf, w0).Ok? ==>
              Feasible(FixCore(choose, statsOf, mode, desired, rs, annuitizeRf, w0).value.w)
  {
    FixPassesFeasible(choose, mode, desired, rs, annuitizeRf, 0, w0);
  }

  /** fix_allocs: the waterfall, then the passes and checks of FixCore. */
  function FixAllocsSpec(o: Oracle, c: Context, mode: Mode, wPrime: RawWeights, m: Market,
                         results: NvResults, annuitize: Weights): (r: Outcome<FixResult>)
  {
    FixCore(Pass(o, c, m, results.nv), StatsOf(o, c, m), mode, c.desiredIncome,
            FloorOf(c, results), annuitize.riskFree, InitialAlloc(c, wPrime, results, annuitize))
  }

  /** A pass as a function keeps complete allocations complete and the fixed slots alone. */
  lemma PassPreserves(o: Oracle, c: Context, m: Market, nv: real)
    ensures forall w :: Pass(o, c, m, nv)(w).Ok? ==>
              var w' := Pass(o, c, m, nv)(w).value.w;
              (Feasible(w) ==> Feasible(w')) && w'.newAnnuities == w.newAnnuities &&
              w'.existing == w.existing
    ensures forall w :: Pass(o, c, m, nv)(w).Err? ==> Pass(o, c, m, nv)(w).error != AssertionFailed
    ensures forall w :: StatsOf(o, c, m)(w).Err? ==> StatsOf(o, c, m)(w).error != AssertionFailed
  {
    forall w | Pass(o, c, m, nv)(w).Ok?
      ensures var w' := Pass(o, c, m, nv)(w).value.w;
              (Feasible(w) ==> Feasible(w')) && w'.newAnnuities == w.newAnnuities &&
              w'.existing == w.existing
    {
      ChoosePreserves(o, c, w, m, nv);
    }
  }

  /** The assertions at the end of fix_allocs cannot fail when the fixed shares are consistent
      and the desired income (if any) is non-negative: the result is then a complete
      allocation exactly, not just to within the tolerance. */
  lemma FixAllocsFeasible(o: Oracle, c: Context, mode: Mode, wPrime: RawWeights, m: Market,
                          results: NvResults, annuitize: Weights)
    requires SharesConsistent(ContribShare(results.nv, c.nvContributions),
                              ExistingShare(results.nv, results.nvDb))
    requires c.desiredIncome.Some? ==> c.desiredIncome.value >= 0.0
    ensures FixAllocsSpec(o, c, mode, wPrime, m, results, annuitize) != Err(AssertionFailed)
    ensures FixAllocsSpec(o, c, mode, wPrime, m, results, annuitize).Ok? ==>
              Feasible(FixAllocsSpec(o, c, mode, wPrime, m, results, annuitize).value.w)
  {
    var rs := FloorOf(c, results);
    WaterfallFeasible(wPrime, annuitize, ContribShare(results.nv, c.nvContributions),
                      ExistingShare(results.nv, results.nvDb), rs);
    PassPreserves(o, c, m, results.nv);
    FixCoreFeasible(Pass(o, c, m, results.nv), StatsOf(o, c, m), mode, c.desiredIncome, rs,
                    annuitize.riskFree, InitialAlloc(c, wPrime, results, annuitize));
  }

  /** With no annuitisation the pass loop leaves the annuity slot at zero. */
  lemma FixCoreNoAnnuities(choose: Weights -> Outcome<RiskResult>, statsOf: Weights -> Outcome<Stats>,
                           mode: Mode, desired: Option<real>, rs: real, w0: Weights)
    requires w0.newAnnuities == 0.0 && w0.existing >= 0.0
    requires forall w :: choose(w).Ok? ==> choose(w).value.w.newAnnuities == w.newAnnuities &&
                                           choose(w).value.w.existing == w.existing
    requires FixCore(choose, statsOf, mode, desired, rs, 0.0, w0).Ok?
    ensures FixCore(choose, statsOf, mode, desired, rs, 0.0, w0).value.w.newAnnuities == 0.0
  {
    FixPassesNoAnnuities(choose, mode, desired, rs, 0, w0);
  }

  /** With nothing to annuitise fix_allocs buys no annuities. */
  lemma FixAllocsNoAnnuities(o: Oracle, c: Context, mode: Mode, wPrime: RawWeights, m: Market,
                             results: NvResults)
    requires SharesConsistent(ContribShare(results.nv, c.nvContributions),
                              ExistingShare(results.nv, results.nvDb))
    requires FixAllocsSpec(o, c, mode, wPrime, m, results, Zero).Ok?
    ensures FixAllocsSpec(o, c, mode, wPrime, m, results, Zero).value.w.newAnnuities == 0.0
  {
    var rs := FloorOf(c, results);
    NoAnnuitizeNoPurchase(wPrime, ContribShare(results.nv, c.nvContributions),
                          ExistingShare(results.nv, results.nvDb), rs);
    PassPreserves(o, c, m, results.nv);
    FixCoreNoAnnuities(Pass(o, c, m, results.nv), StatsOf(o, c, m), mode, c.desiredIncome, rs,
                       InitialAlloc(c, wPrime, results, Zero));
  }
}
