/**
 * The arithmetic of fix_allocs (alloc.py lines 452-523) that does not depend on the market
 * evaluators: the fixed contribution and defined-benefit shares, the required-safe floor,
 * the clamp-and-surplus waterfall that turns the optimiser's four raw weights into a
 * complete six-slot allocation, and the rescale toward a desired income.
 */
module Waterfall {
  import opened Wrappers
  import opened Portfolio

  /** Money's worth ratio of income annuities (alloc.py line 35). */
  const Mwr: real := 1.0

  function Clamp01(x: real): (r: real)
    ensures 0.0 <= r <= 1.0
    ensures 0.0 <= x <= 1.0 ==> r == x
  {
    if x < 0.0 then 0.0 else if x > 1.0 then 1.0 else x
  }

  function Min(a: real, b: real): real { if b < a then b else a }
  function Max(a: real, b: real): real { if b > a then b else a }

  /** Share of the portfolio held as discounted future contributions; a zero net worth is the
      caught division by zero and counts as all contributions. */
  function ContribShare(nv: real, nvContributions: real): (c: real)
    ensures nv == 0.0 ==> c == 1.0
    ensures nv != 0.0 ==> c * nv == nvContributions
  {
    if nv == 0.0 then 1.0 else nvContributions / nv
  }

  /** Share of the portfolio held as existing defined benefits; zero for a zero net worth. */
  function ExistingShare(nv: real, nvDb: real): (e: real)
    ensures nv == 0.0 ==> e == 0.0
    ensures nv != 0.0 ==> e * nv == nvDb
  {
    if nv == 0.0 then 0.0 else nvDb / nv
  }

  /** The share that must be held safe (defined benefits, annuities, liability matching bonds)
      to fund the required income: none without a required income, otherwise the annuity cost
      of the shortfall beyond existing benefits, clamped into [0, 1 - contributions].  A zero
      net worth or discounted life expectancy is the caught division by zero. */
  function RequiredSafe(requiredIncome: Option<real>, nv: real, c: real, e: real,
                        discountedLe: real, discountedLeAnnuity: real): (rs: real)
    ensures requiredIncome.None? ==> rs == 0.0
    ensures requiredIncome.Some? ==> rs <= 1.0 - c && (c <= 1.0 ==> 0.0 <= rs)
    ensures requiredIncome.Some? && (nv == 0.0 || discountedLe == 0.0) ==>
              rs == Min(Max(0.0, e), 1.0 - c)
  {
    match requiredIncome
    case None => 0.0
    case Some(income) =>
      var raw := if nv == 0.0 || discountedLe == 0.0 then 0.0
                 else discountedLeAnnuity / Mwr * (income / nv - e / discountedLe);
      Min(Max(0.0, raw + e), 1.0 - c)
  }

  /** Python's `any(a > 0 for a in annuitize)`. */
  predicate AnyPositive(a: Weights) {
    a.stocks > 0.0 || a.bonds > 0.0 || a.contrib > 0.0 || a.riskFree > 0.0 ||
    a.existing > 0.0 || a.newAnnuities > 0.0
  }

  /** The share to hold in defined benefits after any annuity purchase: the existing share,
      raised to the required-safe floor and to the unallocated remainder when annuities may be
      purchased. */
  function TargetAllocDb(purchase: bool, e: real, rs: real, unallocated: real): (t: real)
    ensures t >= e
    ensures purchase ==> t >= rs && t >= unallocated
    ensures !purchase ==> t == e
  {
    if purchase then Max(Max(e, rs), unallocated) else e
  }

  /** The clamp-and-surplus waterfall (alloc.py lines 454-496).  Stocks, bonds and risk free
      start from the raw weights less the fractions to annuitise; the fixed shares are set;
      the unallocated remainder is topped up to the defined-benefit target with new annuities;
      the surplus then flows risk free -> bonds -> stocks, each step clamped. */
  function AllocWaterfall(wPrime: RawWeights, annuitize: Weights, c: real, e: real, rs: real)
    : (w: Weights)
    ensures w.contrib == c && w.existing == e
    ensures 0.0 <= w.riskFree <= 1.0 && 0.0 <= w.bonds <= 1.0 && w.stocks >= 0.0
    ensures w.newAnnuities >= 0.0
    ensures !AnyPositive(annuitize) ==> w.newAnnuities == 0.0
  {
    var s0 := Clamp01(wPrime.stocks * (1.0 - annuitize.stocks));
    var b0 := Clamp01(wPrime.bonds * (1.0 - annuitize.bonds));
    var r0 := Clamp01(wPrime.riskFree * (1.0 - annuitize.riskFree));
    var unallocated := 1.0 - (s0 + b0 + r0 + c);
    var target := TargetAllocDb(AnyPositive(annuitize), e, rs, unallocated);
    var r1 := r0 + (unallocated - target);
    var newAnnuities := Max(0.0, target - e);
    var targetRf := Min(Max(Max(0.0, r1), rs - target), 1.0);
    var b1 := b0 + (r1 - targetRf);
    var targetBonds := Min(Max(0.0, b1), 1.0);
    var s1 := s0 + (b1 - targetBonds);
    Weights(Max(0.0, s1), targetBonds, c, targetRf, e, newAnnuities)
  }

  /** The fixed shares are consistent when both are non-negative and together at most the
      whole portfolio: net worth includes contributions and defined benefits. */
  predicate SharesConsistent(c: real, e: real) {
    0.0 <= c && 0.0 <= e && c + e <= 1.0
  }

  /** The waterfall yields a complete allocation (what alloc.py lines 525-526 only assert,
      and only to within 1e-15) whose safe part covers the required-safe floor. */
  lemma WaterfallFeasible(wPrime: RawWeights, annuitize: Weights, c: real, e: real, rs: real)
    requires SharesConsistent(c, e)
    requires rs <= 1.0 - c
    ensures var w := AllocWaterfall(wPrime, annuitize, c, e, rs);
            Feasible(w) && w.riskFree + w.existing + w.newAnnuities >= rs
  {
    var s0 := Clamp01(wPrime.stocks * (1.0 - annuitize.stocks));
    var b0 := Clamp01(wPrime.bonds * (1.0 - annuitize.bonds));
    var r0 := Clamp01(wPrime.riskFree * (1.0 - annuitize.riskFree));
    var unallocated := 1.0 - (s0 + b0 + r0 + c);
    var target := TargetAllocDb(AnyPositive(annuitize), e, rs, unallocated);
    var r1 := r0 + (unallocated - target);
    var targetRf := Min(Max(Max(0.0, r1), rs - target), 1.0);
    var b1 := b0 + (r1 - targetRf);
    var targetBonds := Min(Max(0.0, b1), 1.0);
    // The defined-benefit target leaves room for the contributions.
    assert target <= 1.0 - c;
    // Hence risk free never takes more than stocks and bonds left over, and stocks absorb
    // the last surplus without going negative.
    assert targetRf <= 1.0 - c - target;
    assert s0 + (b1 - targetBonds) >= 0.0;
  }

  /** With nothing to annuitise no annuity is bought, so defined benefits stay at their
      existing share. */
  lemma NoAnnuitizeNoPurchase(wPrime: RawWeights, c: real, e: real, rs: real)
    ensures AllocWaterfall(wPrime, Zero, c, e, rs).newAnnuities == 0.0
  {
  }

  /** The fixed shares computed from consistent present values are consistent. */
  lemma SharesFromValues(nv: real, nvContributions: real, nvDb: real)
    requires nv == 0.0 || (0.0 <= nvContributions && 0.0 <= nvDb && nvContributions + nvDb <= nv)
    ensures SharesConsistent(ContribShare(nv, nvContributions), ExistingShare(nv, nvDb))
  {
    if nv != 0.0 {
      var c := ContribShare(nv, nvContributions);
      var e := ExistingShare(nv, nvDb);
      assert nv > 0.0;
      NonNegativeQuotient(nvContributions, nv, c);
      NonNegativeQuotient(nvDb, nv, e);
      assert (c + e) * nv == nvContributions + nvDb;
      assert c + e <= 1.0;
    }
  }

  /** The rescale toward a desired income (alloc.py lines 511-523): bonds and the safe part
      shrink by `ratio` (the safe part not below the required-safe floor), the new safe part
      goes to annuities up to the annuitisable share of risk free, and stocks take the rest. */
  function Rescale(wTry: Weights, ratio: real, rs: real, annuitizeRf: real): (w: Weights)
    ensures w.contrib == wTry.contrib && w.existing == wTry.existing
  {
    Rebalance(wTry, wTry.bonds * ratio, SafePart(wTry) * ratio, SafePart(wTry) * annuitizeRf, rs)
  }

  /** The rescale once its three products (scaled bonds, scaled safe part, annuitisable safe
      part) have been formed; everything after them is linear. */
  function Rebalance(wTry: Weights, scaledBonds: real, scaledSafe: real, annuitizable: real,
                     rs: real): (w: Weights)
    ensures w.contrib == wTry.contrib && w.existing == wTry.existing
  {
    var safeNew := Max(0.0, Max(scaledSafe, rs) - wTry.existing);
    var newAnnuities := Min(safeNew, Max(0.0, annuitizable - wTry.existing));
    var v := wTry.(bonds := scaledBonds, newAnnuities := newAnnuities,
                   riskFree := safeNew - newAnnuities, stocks := 0.0);
    v.(stocks := Max(0.0, 1.0 - Sum(v)))
  }

  /** The shape of the rescaled allocation: bonds scaled, the new safe part split into
      annuities (capped by the annuitisable share) and a non-negative remainder of liability
      matching bonds, stocks the non-negative rest. */
  lemma RebalanceShape(wTry: Weights, scaledBonds: real, scaledSafe: real, annuitizable: real,
                       rs: real)
    ensures var w := Rebalance(wTry, scaledBonds, scaledSafe, annuitizable, rs);
      w.bonds == scaledBonds &&
      w.riskFree + w.newAnnuities == Max(0.0, Max(scaledSafe, rs) - wTry.existing) &&
      w.newAnnuities == Min(w.riskFree + w.newAnnuities, Max(0.0, annuitizable - wTry.existing)) &&
      w.riskFree >= 0.0 && w.newAnnuities >= 0.0 &&
      w.stocks == Max(0.0, 1.0 - (Sum(w) - w.stocks))
  {
  }

  /** Rescaling with nothing to annuitise buys no annuities. */
  lemma RescaleNoAnnuities(wTry: Weights, ratio: real, rs: real)
    requires wTry.existing >= 0.0
    ensures Rescale(wTry, ratio, rs, 0.0).newAnnuities == 0.0
  {
    assert SafePart(wTry) * 0.0 == 0.0;
    RebalanceShape(wTry, wTry.bonds * ratio, SafePart(wTry) * ratio, 0.0, rs);
  }

  /** Scaling a complete allocation whose safe part covers the floor back by a ratio in
      [0, 1] again gives a complete allocation. */
  lemma RescaleFeasible(wTry: Weights, ratio: real, rs: real, annuitizeRf: real)
    requires Feasible(wTry)
    requires 0.0 <= ratio <= 1.0
    requires SafePart(wTry) >= rs
    ensures Feasible(Rescale(wTry, ratio, rs, annuitizeRf))
  {
    RescaleIsRebalance(wTry, ratio, rs, annuitizeRf);
    ScaledFeasible(wTry, ratio, rs, wTry.bonds * ratio, SafePart(wTry) * ratio,
                   SafePart(wTry) * annuitizeRf);
  }

  lemma RescaleIsRebalance(wTry: Weights, ratio: real, rs: real, annuitizeRf: real)
    ensures Rescale(wTry, ratio, rs, annuitizeRf) ==
            Rebalance(wTry, wTry.bonds * ratio, SafePart(wTry) * ratio,
                      SafePart(wTry) * annuitizeRf, rs)
  {
  }

  lemma ScaledFeasible(wTry: Weights, ratio: real, rs: real, scaledBonds: real, scaledSafe: real,
                       annuitizable: real)
    requires Feasible(wTry)
    requires 0.0 <= ratio <= 1.0
    requires SafePart(wTry) >= rs
    requires scaledBonds == wTry.bonds * ratio && scaledSafe == SafePart(wTry) * ratio
    ensures Feasible(Rebalance(wTry, scaledBonds, scaledSafe, annuitizable, rs))
  {
    ScaledBounds(wTry, ratio);
    RebalanceFeasible(wTry, scaledBonds, scaledSafe, annuitizable, rs);
  }

  /** Scaling by a ratio in [0, 1] keeps bonds within [0, bonds] and the safe part within
      itself. */
  lemma ScaledBounds(wTry: Weights, ratio: real)
    requires NonNegative(wTry)
    requires 0.0 <= ratio <= 1.0
    ensures 0.0 <= wTry.bonds * ratio <= wTry.bonds
    ensures SafePart(wTry) * ratio <= SafePart(wTry)
  {
    ScaledDown(wTry.bonds, ratio);
    NonNegativeProduct(wTry.bonds, ratio);
    ScaledDown(SafePart(wTry), ratio);
  }

  /** Rebalancing with bonds scaled into [0, bonds] and a safe target within the old safe
      part keeps the allocation complete. */
  lemma RebalanceFeasible(wTry: Weights, scaledBonds: real, scaledSafe: real, annuitizable: real,
                          rs: real)
    requires Feasible(wTry)
    requires 0.0 <= scaledBonds <= wTry.bonds
    requires scaledSafe <= SafePart(wTry)
    requires rs <= SafePart(wTry)
    ensures Feasible(Rebalance(wTry, scaledBonds, scaledSafe, annuitizable, rs))
  {
    var w := Rebalance(wTry, scaledBonds, scaledSafe, annuitizable, rs);
    var safeAll := SafePart(wTry);
    RebalanceShape(wTry, scaledBonds, scaledSafe, annuitizable, rs);
    // Everything but stocks fits in the portfolio, so stocks make up the rest exactly.
    RestFits(wTry.stocks, wTry.bonds, wTry.contrib, wTry.existing, safeAll, w.bonds,
             w.riskFree + w.newAnnuities, Max(scaledSafe, rs));
    assert Sum(w) - w.stocks == w.bonds + w.contrib + (w.riskFree + w.newAnnuities) + w.existing;
  }

  lemma RestFits(s: real, b: real, c: real, e: real, safeAll: real, bScaled: real,
                 safeNew: real, safeTarget: real)
    requires s >= 0.0 && s + b + c + safeAll == 1.0
    requires bScaled <= b && safeTarget <= safeAll && e <= safeAll
    requires safeNew == Max(0.0, safeTarget - e)
    ensures bScaled + c + safeNew + e <= 1.0
  {
  }

  lemma NonNegativeProduct(x: real, k: real)
    requires x >= 0.0 && k >= 0.0
    ensures x * k >= 0.0
  {
    if x > 0.0 && k > 0.0 {
      Numerics.ProductPositive(x, k);
    }
  }

  lemma ScaledDown(x: real, k: real)
    requires x >= 0.0 && 0.0 <= k <= 1.0
    ensures x * k <= x
  {
    if x > 0.0 && k < 1.0 {
      Numerics.ProductPositive(x, 1.0 - k);
      assert x * (1.0 - k) == x - x * k;
    }
  }
}
