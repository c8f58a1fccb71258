/**
 * The annuitisation decision of calc_scenario (alloc.py lines 609-648): the fractions of
 * stocks, bonds and liability matching bonds to annuitise at a given age, the estimated cost
 * of delaying annuitisation by ten years interpolated from a per-decade table, and the
 * go/no-go rule with its override.
 */
module Annuitization {
  import opened Wrappers
  import opened Numerics
  import opened Portfolio
  import opened Waterfall

  /** Cost of delaying annuitisation by ten years, per decade of age (alloc.py line 46). */
  const DelayCostTable: seq<real> :=
    [0.0, 0.0, 0.0, 0.013, 0.018, 0.029, 0.049, 0.093, 0.221, 0.391]

  /** The age from which liability matching bonds are annuitised: 40 plus half the years by
      which retirement is delayed and the younger partner is past 50, clamped into [40, 50]. */
  function LmBondsAge(retirementAge: real, age: real, minAge: real): (a: real)
    ensures 40.0 <= a <= 50.0
  {
    Min(Max(40.0, 40.0 + (retirementAge - age + minAge - 50.0) / 2.0), 50.0)
  }

  /** Fractions of each asset class to annuitise (alloc.py lines 616-624): linear age ramps
      for stocks (65 to 90) and bonds (30 to 60); liability matching bonds all or nothing. */
  function AnnuitizeFractions(minAge: real, retirementAge: real, age: real): (a: Weights)
    ensures 0.0 <= a.stocks <= 1.0 && 0.0 <= a.bonds <= 1.0
    ensures a.riskFree == 0.0 || a.riskFree == 1.0
    ensures a.contrib == 0.0 && a.existing == 0.0 && a.newAnnuities == 0.0
    ensures minAge <= 65.0 ==> a.stocks == 0.0
    ensures minAge >= 90.0 ==> a.stocks == 1.0
    ensures 65.0 <= minAge <= 90.0 ==> a.stocks * 25.0 == minAge - 65.0
    ensures minAge <= 30.0 ==> a.bonds == 0.0
    ensures minAge >= 60.0 ==> a.bonds == 1.0
    ensures 30.0 <= minAge <= 60.0 ==> a.bonds * 30.0 == minAge - 30.0
    ensures a.riskFree == 1.0 <==> minAge >= LmBondsAge(retirementAge, age, minAge)
  {
    Zero.(stocks := Clamp01((minAge - 65.0) / (90.0 - 65.0)),
          bonds := Clamp01((minAge - 30.0) / (60.0 - 30.0)),
          riskFree := if minAge < LmBondsAge(retirementAge, age, minAge) then 0.0 else 1.0)
  }

  /** The ramps never decrease with age. */
  lemma AnnuitizeMonotone(minAge1: real, minAge2: real, retirementAge: real, age: real)
    requires minAge1 <= minAge2
    ensures AnnuitizeFractions(minAge1, retirementAge, age).stocks <=
            AnnuitizeFractions(minAge2, retirementAge, age).stocks
    ensures AnnuitizeFractions(minAge1, retirementAge, age).bonds <=
            AnnuitizeFractions(minAge2, retirementAge, age).bonds
  {
  }

  /** Python subscripting of a tuple: negative indices count from the end; anything else out
      of range raises IndexError. */
  function PyIndex(t: seq<real>, i: int): (r: Outcome<real>)
    ensures 0 <= i < |t| ==> r == Ok(t[i])
    ensures -|t| <= i < 0 ==> r == Ok(t[|t| + i])
    ensures (i >= |t| || i < -|t|) <==> r == Err(IndexOutOfRange)
  {
    if 0 <= i < |t| then Ok(t[i])
    else if -|t| <= i < 0 then Ok(t[|t| + i])
    else Err(IndexOutOfRange)
  }

  function MinInt(a: int, b: int): int { if b < a then b else a }

  /** The delay cost as alloc.py lines 632-638 compute it: decade indices capped at the
      table's length, so the upper neighbour is out of range from age 95. */
  function DelayCostAsWritten(minAge: real): (r: Outcome<real>)
  {
    var useAge := minAge - 5.0;
    var index := MinInt(PyTrunc(useAge / 10.0), |DelayCostTable|);
    var nextIndex := MinInt(PyTrunc((useAge + 10.0) / 10.0), |DelayCostTable|);
    var low :- PyIndex(DelayCostTable, index);
    var high :- PyIndex(DelayCostTable, nextIndex);
    var weight := PyMod10(useAge) / 10.0;
    Ok(Blend(low, high, weight))
  }

  /** Linear interpolation between two table entries, each a cost per ten years. */
  function Blend(low: real, high: real, weight: real): real {
    (1.0 - weight) * (low / 10.0) + weight * (high / 10.0)
  }

  /** Decade index of an age, clamped into the table. */
  function DecadeIndex(x: real): (i: int)
    ensures 0 <= i < |DelayCostTable|
  {
    var n := PyTrunc(x / 10.0);
    if n < 0 then 0 else if n >= |DelayCostTable| then |DelayCostTable| - 1 else n
  }

  /** The delay cost with the indices capped at the last decade, as the table's comment
      (one entry per ten years of age) intends: interpolation between the two neighbouring
      decades, the oldest decade used as is. */
  function DelayCost(minAge: real): (r: real)
    ensures 0.0 <= r <= 0.0391
  {
    var useAge := minAge - 5.0;
    var low := DelayCostTable[DecadeIndex(useAge)];
    var high := DelayCostTable[DecadeIndex(useAge + 10.0)];
    var weight := PyMod10(useAge) / 10.0;
    TableBounded(DecadeIndex(useAge));
    TableBounded(DecadeIndex(useAge + 10.0));
    BlendBetween(low, high, weight);
    Blend(low, high, weight)
  }

  /** Every entry of the delay cost table is between 0 and its last (largest) entry. */
  lemma TableBounded(i: int)
    requires 0 <= i < |DelayCostTable|
    ensures 0.0 <= DelayCostTable[i] <= 0.391
  {
  }

  /** An interpolation between two entries of the table stays within the table's range. */
  lemma BlendBetween(low: real, high: real, weight: real)
    requires 0.0 <= low <= 0.391 && 0.0 <= high <= 0.391 && 0.0 <= weight <= 1.0
    ensures 0.0 <= Blend(low, high, weight) <= 0.0391
  {
    ConvexBetween(low / 10.0, high / 10.0, weight, 0.0, 0.0391);
  }

  lemma ConvexBetween(x: real, y: real, t: real, lo: real, hi: real)
    requires 0.0 <= t <= 1.0 && lo <= x <= hi && lo <= y <= hi
    ensures lo <= (1.0 - t) * x + t * y <= hi
  {
    var a := (1.0 - t) * x;
    var b := t * y;
    assert (1.0 - t) * lo <= a <= (1.0 - t) * hi by {
      assert a - (1.0 - t) * lo == (1.0 - t) * (x - lo);
      assert (1.0 - t) * hi - a == (1.0 - t) * (hi - x);
      NonNegativeProduct(1.0 - t, x - lo);
      NonNegativeProduct(1.0 - t, hi - x);
    }
    assert t * lo <= b <= t * hi by {
      assert b - t * lo == t * (y - lo);
      assert t * hi - b == t * (hi - y);
      NonNegativeProduct(t, y - lo);
      NonNegativeProduct(t, hi - y);
    }
  }

  /** The delay cost is a convex combination of the costs of two neighbouring decades. */
  lemma DelayCostInterpolates(minAge: real)
    ensures var useAge := minAge - 5.0;
      var i := DecadeIndex(useAge);
      var j := DecadeIndex(useAge + 10.0);
      var weight := PyMod10(useAge) / 10.0;
      (j == i || j == i + 1) && 0.0 <= weight < 1.0 &&
      DelayCost(minAge) ==
        (1.0 - weight) * (DelayCostTable[i] / 10.0) + weight * (DelayCostTable[j] / 10.0)
  {
    var useAge := minAge - 5.0;
    var n := PyTrunc(useAge / 10.0);
    var m := PyTrunc((useAge + 10.0) / 10.0);
    assert (useAge + 10.0) / 10.0 == useAge / 10.0 + 1.0;
    if useAge >= 0.0 {
      assert m == n + 1;
    } else if useAge > -10.0 {
      assert n == 0 && m == 0;
    } else {
      assert m == n + 1 || m == 0;
    }
  }

  /** Below age 95 the table lookup as written stays in range and agrees with the capped one. */
  lemma DelayCostAgrees(minAge: real)
    requires 0.0 <= minAge < 95.0
    ensures DelayCostAsWritten(minAge) == Ok(DelayCost(minAge))
  {
    var useAge := minAge - 5.0;
    assert 0 <= PyTrunc(useAge / 10.0) <= PyTrunc((useAge + 10.0) / 10.0) < 10 by {
      assert (useAge + 10.0) / 10.0 < 10.0;
    }
  }

  /** The cap at the table's length lets the upper neighbour run off the table for every
      age from 95 on, which the age fields of the forms accept (up to 110). */
  lemma DelayCostAsWrittenFails(minAge: real)
    requires 95.0 <= minAge <= 110.0
    ensures DelayCostAsWritten(minAge) == Err(IndexOutOfRange)
  {
    var useAge := minAge - 5.0;
    assert PyTrunc((useAge + 10.0) / 10.0) >= 10 by {
      assert (useAge + 10.0) / 10.0 >= 10.0;
    }
    assert 0 <= PyTrunc(useAge / 10.0) < 11 by {
      assert useAge / 10.0 < 11.0;
    }
  }

  /** The go/no-go rule (alloc.py lines 642-645): the override when one is given, otherwise
      annuitise when it raises consumption by more than 4% and delaying would cost more than
      0.1% of the portfolio. */
  function AnnuitizePlan(force: Option<bool>, gain: real, consumeUnannuitize: real,
                         delayFractionCost: real): (plan: bool)
    ensures force.Some? ==> plan == force.value
    ensures force.None? ==>
              (plan <==> gain > 0.04 * consumeUnannuitize && delayFractionCost > 0.001)
  {
    match force
    case Some(f) => f
    case None => gain > 0.04 * consumeUnannuitize && delayFractionCost > 0.001
  }
}
