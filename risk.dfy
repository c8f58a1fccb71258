/**
 * The risk limit of alloc.py (lines 392-450): a bisection over the fraction of stocks moved
 * to liability matching bonds (or to regular bonds when those are not used) that looks for
 * the smallest move whose one-year tail loss of the investments is within the tolerance, and
 * the consumption the kept allocation supports.
 */
module RiskLimit {
  import opened Wrappers
  import opened Oracles
  import opened Numerics
  import opened Portfolio
  import opened Waterfall
  import opened Setup

  /** Percentile of the lognormal matching the observed 10th percentile of stock returns. */
  const LossPctlFatTail: real := 0.06
  /** Growth percentile used for consumption in the absence of defined benefits, in percent. */
  const GrowthPctlNoDb: real := 43.0

  /** The market seen over a short horizon: short-term bond and liability-matching-bond
      volatilities and their squared-correlation covariance (alloc.py investment_statistics). */
  function ShortMarket(c: Context, m: Market): (s: Market)
    ensures s.rets == m.rets && s.equityVol == m.equityVol && s.covEc2 == m.covEc2 &&
            s.covBc2 == m.covBc2 && s.covEb2 == m.covEb2
    ensures s.bondsVol == c.bondsVolShort && s.lmBondsVol == c.lmBondsVolShort
  {
    var corr2 := c.bondsLmBondsCorrShort * c.bondsLmBondsCorrShort;
    m.(bondsVol := c.bondsVolShort, lmBondsVol := c.lmBondsVolShort,
       covBl2 := c.bondsVolShort * c.lmBondsVolShort * corr2)
  }

  /** Statistics of the investments alone: annuities and future contributions removed. */
  function InvestmentStatistics(o: Oracle, c: Context, w: Weights, m: Market): (r: Outcome<Stats>)
    ensures r.Err? ==> r.error == MathDomain
  {
    Statistics(o, c.contributionVol, NonAnnuitizedWeights(w, true), ShortMarket(c, m))
  }

  /** One-year tail loss of the investments at the fat-tail percentile. */
  function InvestmentsLoss(o: Oracle, c: Context, w: Weights, m: Market): (r: Outcome<real>)
    ensures r.Err? ==> r.error == MathDomain
  {
    var s :- InvestmentStatistics(o, c, w, m);
    var p :- DistributionPctl(o, LossPctlFatTail, 1.0 + s.ret, s.vol);
    Ok(1.0 - p)
  }

  /** An allocation tried by the bisection and its tail loss. */
  datatype Candidate = Candidate(loss: real, w: Weights)

  /** Width of the bisection interval after `i` halvings of [-1, 1]. */
  function Width(i: nat): (r: real)
    ensures r > 0.0
  {
    if i == 0 then 2.0 else Width(i - 1) / 2.0
  }

  /** Python's `a <= t or t < a < b`: within tolerance, or out of it but better than `b`. */
  predicate Improves(loss: real, tolerance: real, kept: real) {
    loss <= tolerance || (tolerance < loss && loss < kept)
  }

  /** The bisection loop from iteration `i` with interval (low, high) and the candidate kept
      so far, evaluating tail losses with `lossOf`.  The first iteration tries the allocation
      as given (mid 0): it is kept when it is within tolerance; otherwise every later trial
      moves a positive fraction.  The loop stops after 50 iterations or when the interval is
      narrower than 0.0001. */
  function RiskLoop(lossOf: Weights -> Outcome<real>, tol: real, useLmBonds: bool, wInit: Weights,
                    i: nat, low: real, high: real, found: Option<Candidate>): (r: Outcome<Candidate>)
    requires i <= 50 && high - low == Width(i)
    requires i == 0 ==> low == -1.0 && high == 1.0 && found.None?
    requires i > 0 ==> 0.0 <= low && high <= 1.0 && found.Some?
    ensures r.Err? ==> exists w :: lossOf(w) == Err(r.error)
    decreases 50 - i
  {
    if i == 50 || high - low < 0.0001 then Ok(found.value)
    else
      var mid := (low + high) / 2.0;
      var w := Shift(wInit, mid, useLmBonds);
      var loss :- lossOf(w);
      var kept := if found.None? then Candidate(loss, w) else found.value;
      if Improves(loss, tol, kept.loss) then
        if mid == 0.0 then Ok(Candidate(loss, w))
        else RiskLoop(lossOf, tol, useLmBonds, wInit, i + 1, low, mid, Some(Candidate(loss, w)))
      else RiskLoop(lossOf, tol, useLmBonds, wInit, i + 1, mid, high, Some(kept))
  }

  /** The candidates the loop tries from iteration `i`, in order. */
  ghost function RiskTrace(lossOf: Weights -> Outcome<real>, tol: real, useLmBonds: bool,
                           wInit: Weights, i: nat, low: real, high: real,
                           found: Option<Candidate>): seq<Candidate>
    requires i <= 50 && high - low == Width(i)
    requires i == 0 ==> low == -1.0 && high == 1.0 && found.None?
    requires i > 0 ==> 0.0 <= low && high <= 1.0 && found.Some?
    decreases 50 - i
  {
    if i == 50 || high - low < 0.0001 then []
    else
      var mid := (low + high) / 2.0;
      var w := Shift(wInit, mid, useLmBonds);
      match lossOf(w)
      case Err(_) => []
      case Ok(loss) =>
        var kept := if found.None? then Candidate(loss, w) else found.value;
        if Improves(loss, tol, kept.loss) then
          if mid == 0.0 then [Candidate(loss, w)]
          else [Candidate(loss, w)] +
               RiskTrace(lossOf, tol, useLmBonds, wInit, i + 1, low, mid, Some(Candidate(loss, w)))
        else [Candidate(loss, w)] +
             RiskTrace(lossOf, tol, useLmBonds, wInit, i + 1, mid, high, Some(kept))
  }

  /** An allocation reached from `wInit` by moving a fraction in [0, 1] of its stocks. */
  ghost predicate ShiftOf(wInit: Weights, useLmBonds: bool, w: Weights) {
    exists mid: real :: 0.0 <= mid <= 1.0 && w == Shift(wInit, mid, useLmBonds)
  }

  /** Every candidate of `t` is a shift of `wInit`. */
  ghost predicate AllShifts(wInit: Weights, useLmBonds: bool, t: seq<Candidate>) {
    forall k :: 0 <= k < |t| ==> ShiftOf(wInit, useLmBonds, t[k].w)
  }

  /** Some candidate of `t` has a tail loss within tolerance. */
  ghost predicate SomeWithin(t: seq<Candidate>, tol: real) {
    exists k :: 0 <= k < |t| && t[k].loss <= tol
  }

  /** No candidate of `t` has a tail loss below `loss`. */
  ghost predicate LeastOf(loss: real, t: seq<Candidate>) {
    forall k :: 0 <= k < |t| ==> loss <= t[k].loss
  }

  /** Every candidate of a trace led by `c` is a shift when `c` and the rest are. */
  lemma AllShiftsPrefix(wInit: Weights, useLmBonds: bool, c: Candidate, t: seq<Candidate>)
    requires ShiftOf(wInit, useLmBonds, c.w) && AllShifts(wInit, useLmBonds, t)
    ensures AllShifts(wInit, useLmBonds, [c] + t)
  {
    var ct := [c] + t;
    forall k | 0 <= k < |ct|
      ensures ShiftOf(wInit, useLmBonds, ct[k].w)
    {
      if k > 0 {
        assert ct[k] == t[k - 1];
      }
    }
  }

  /** A trace led by `c` has a candidate within tolerance exactly when `c` is or the rest
      has one. */
  lemma SomeWithinPrefix(tol: real, c: Candidate, t: seq<Candidate>)
    ensures SomeWithin([c] + t, tol) <==> c.loss <= tol || SomeWithin(t, tol)
  {
    var ct := [c] + t;
    if c.loss <= tol {
      assert ct[0] == c;
    }
    if SomeWithin(ct, tol) && c.loss > tol {
      var k :| 0 <= k < |ct| && ct[k].loss <= tol;
      assert ct[k] == t[k - 1];
    }
    if SomeWithin(t, tol) {
      var k :| 0 <= k < |t| && t[k].loss <= tol;
      assert ct[k + 1] == t[k];
    }
  }

  /** No loss of a trace led by `c` is below `loss` exactly when neither `c`'s nor the
      rest's is. */
  lemma LeastOfPrefix(loss: real, c: Candidate, t: seq<Candidate>)
    ensures LeastOf(loss, [c] + t) <==> loss <= c.loss && LeastOf(loss, t)
  {
    var ct := [c] + t;
    assert ct[0] == c;
    if loss <= c.loss && LeastOf(loss, t) {
      forall k | 0 <= k < |ct|
        ensures loss <= ct[k].loss
      {
        if k > 0 {
          assert ct[k] == t[k - 1];
        }
      }
    }
    if LeastOf(loss, ct) {
      forall k | 0 <= k < |t|
        ensures loss <= t[k].loss
      {
        assert ct[k + 1] == t[k];
      }
    }
  }

  /** One iteration of the candidate trace, as RiskLoopStep says of the loop. */
  lemma RiskTraceStep(lossOf: Weights -> Outcome<real>, tol: real, useLmBonds: bool,
                      wInit: Weights, i: nat, low: real, high: real, found: Option<Candidate>,
                      mid: real, w: Weights, loss: real)
    requires Bracket(i, low, high, found) && i < 50 && !(high - low < 0.0001)
    requires mid == (high + low) / 2.0 && w == Shift(wInit, mid, useLmBonds) &&
             lossOf(w) == Ok(loss)
    ensures var t := RiskTrace(lossOf, tol, useLmBonds, wInit, i, low, high, found);
      var cand := Candidate(loss, w);
      var kept := if found.None? then cand else found.value;
      (Improves(loss, tol, kept.loss) && mid == 0.0 ==> t == [cand]) &&
      (Improves(loss, tol, kept.loss) && mid != 0.0 ==>
         Bracket(i + 1, low, mid, Some(cand)) &&
         t == [cand] + RiskTrace(lossOf, tol, useLmBonds, wInit, i + 1, low, mid, Some(cand))) &&
      (!Improves(loss, tol, kept.loss) ==>
         Bracket(i + 1, mid, high, Some(kept)) &&
         t == [cand] + RiskTrace(lossOf, tol, useLmBonds, wInit, i + 1, mid, high, Some(kept)))
  {
    assert mid == (low + high) / 2.0;
  }

  /** The kept candidate is a shift by a fraction in [0, 1], as is every candidate tried,
      and it is the last one tried or the one carried in. */
  lemma {:induction false} RiskLoopShifts(lossOf: Weights -> Outcome<real>, tol: real,
                                          useLmBonds: bool, wInit: Weights, i: nat, low: real,
                                          high: real, found: Option<Candidate>)
    requires Bracket(i, low, high, found)
    requires found.Some? ==> ShiftOf(wInit, useLmBonds, found.value.w)
    requires RiskLoop(lossOf, tol, useLmBonds, wInit, i, low, high, found).Ok?
    ensures var f := RiskLoop(lossOf, tol, useLmBonds, wInit, i, low, high, found).value;
      var t := RiskTrace(lossOf, tol, useLmBonds, wInit, i, low, high, found);
      ShiftOf(wInit, useLmBonds, f.w) && AllShifts(wInit, useLmBonds, t) &&
      (f in t || (found.Some? && f == found.value))
    decreases 50 - i
  {
    if !(i == 50 || high - low < 0.0001) {
      var mid := (high + low) / 2.0;
      var w := Shift(wInit, mid, useLmBonds);
      RiskLoopStep(lossOf, tol, useLmBonds, wInit, i, low, high, found, mid, w, lossOf(w));
      var loss := lossOf(w).value;
      RiskTraceStep(lossOf, tol, useLmBonds, wInit, i, low, high, found, mid, w, loss);
      assert 0.0 <= mid <= 1.0;
      assert ShiftOf(wInit, useLmBonds, w);
      var cand := Candidate(loss, w);
      var kept := if found.None? then cand else found.value;
      if Improves(loss, tol, kept.loss) {
        if mid != 0.0 {
          RiskLoopShifts(lossOf, tol, useLmBonds, wInit, i + 1, low, mid, Some(cand));
          var t' := RiskTrace(lossOf, tol, useLmBonds, wInit, i + 1, low, mid, Some(cand));
          AllShiftsPrefix(wInit, useLmBonds, cand, t');
        } else {
          AllShiftsPrefix(wInit, useLmBonds, cand, []);
        }
      } else {
        RiskLoopShifts(lossOf, tol, useLmBonds, wInit, i + 1, mid, high, Some(kept));
        var t' := RiskTrace(lossOf, tol, useLmBonds, wInit, i + 1, mid, high, Some(kept));
        AllShiftsPrefix(wInit, useLmBonds, cand, t');
      }
    }
  }

  /** The kept candidate is within tolerance as soon as the one carried in or any candidate
      tried was. */
  lemma {:induction false} RiskLoopTolerable(lossOf: Weights -> Outcome<real>, tol: real,
                                             useLmBonds: bool, wInit: Weights, i: nat, low: real,
                                             high: real, found: Option<Candidate>)
    requires Bracket(i, low, high, found)
    requires RiskLoop(lossOf, tol, useLmBonds, wInit, i, low, high, found).Ok?
    ensures var f := RiskLoop(lossOf, tol, useLmBonds, wInit, i, low, high, found).value;
      var t := RiskTrace(lossOf, tol, useLmBonds, wInit, i, low, high, found);
      (found.Some? && found.value.loss <= tol) || SomeWithin(t, tol) ==> f.loss <= tol
    decreases 50 - i
  {
    if !(i == 50 || high - low < 0.0001) {
      var mid := (high + low) / 2.0;
      var w := Shift(wInit, mid, useLmBonds);
      RiskLoopStep(lossOf, tol, useLmBonds, wInit, i, low, high, found, mid, w, lossOf(w));
      var loss := lossOf(w).value;
      RiskTraceStep(lossOf, tol, useLmBonds, wInit, i, low, high, found, mid, w, loss);
      var cand := Candidate(loss, w);
      var kept := if found.None? then cand else found.value;
      if Improves(loss, tol, kept.loss) {
        if mid != 0.0 {
          RiskLoopTolerable(lossOf, tol, useLmBonds, wInit, i + 1, low, mid, Some(cand));
          var t' := RiskTrace(lossOf, tol, useLmBonds, wInit, i + 1, low, mid, Some(cand));
          SomeWithinPrefix(tol, cand, t');
        } else {
          SomeWithinPrefix(tol, cand, []);
        }
      } else {
        RiskLoopTolerable(lossOf, tol, useLmBonds, wInit, i + 1, mid, high, Some(kept));
        var t' := RiskTrace(lossOf, tol, useLmBonds, wInit, i + 1, mid, high, Some(kept));
        SomeWithinPrefix(tol, cand, t');
      }
    }
  }

  /** When the kept candidate is over tolerance its loss is the least of all the losses seen:
      those tried and the one carried in. */
  lemma {:induction false} RiskLoopLeast(lossOf: Weights -> Outcome<real>, tol: real,
                                         useLmBonds: bool, wInit: Weights, i: nat, low: real,
                                         high: real, found: Option<Candidate>)
    requires Bracket(i, low, high, found)
    requires RiskLoop(lossOf, tol, useLmBonds, wInit, i, low, high, found).Ok?
    ensures var f := RiskLoop(lossOf, tol, useLmBonds, wInit, i, low, high, found).value;
      var t := RiskTrace(lossOf, tol, useLmBonds, wInit, i, low, high, found);
      f.loss > tol ==> LeastOf(f.loss, t) && (found.Some? ==> f.loss <= found.value.loss)
    decreases 50 - i
  {
    if !(i == 50 || high - low < 0.0001) {
      var mid := (high + low) / 2.0;
      var w := Shift(wInit, mid, useLmBonds);
      RiskLoopStep(lossOf, tol, useLmBonds, wInit, i, low, high, found, mid, w, lossOf(w));
      var loss := lossOf(w).value;
      RiskTraceStep(lossOf, tol, useLmBonds, wInit, i, low, high, found, mid, w, loss);
      var cand := Candidate(loss, w);
      var kept := if found.None? then cand else found.value;
      var f := RiskLoop(lossOf, tol, useLmBonds, wInit, i, low, high, found).value;
      if Improves(loss, tol, kept.loss) {
        if mid != 0.0 {
          RiskLoopLeast(lossOf, tol, useLmBonds, wInit, i + 1, low, mid, Some(cand));
          var t' := RiskTrace(lossOf, tol, useLmBonds, wInit, i + 1, low, mid, Some(cand));
          LeastOfPrefix(f.loss, cand, t');
        } else {
          LeastOfPrefix(f.loss, cand, []);
        }
      } else {
        RiskLoopLeast(lossOf, tol, useLmBonds, wInit, i + 1, mid, high, Some(kept));
        var t' := RiskTrace(lossOf, tol, useLmBonds, wInit, i + 1, mid, high, Some(kept));
        LeastOfPrefix(f.loss, cand, t');
      }
    }
  }

  /** The state of the loop before iteration `i`: the width halved `i` times, the first
      iteration on [-1, 1] with nothing kept, the later ones inside [0, 1] with a candidate. */
  predicate Bracket(i: nat, low: real, high: real, found: Option<Candidate>) {
    i <= 50 && high - low == Width(i) &&
    (i == 0 ==> low == -1.0 && high == 1.0 && found.None?) &&
    (i > 0 ==> 0.0 <= low && high <= 1.0 && found.Some?)
  }

  /** One iteration: a failing evaluation fails the loop; otherwise the loop stops at a
      tolerable unshifted allocation or goes on from the halved interval on the side the
      loss points to. */
  lemma RiskLoopStep(lossOf: Weights -> Outcome<real>, tol: real, useLmBonds: bool,
                     wInit: Weights, i: nat, low: real, high: real, found: Option<Candidate>,
                     mid: real, w: Weights, loss: Outcome<real>)
    requires Bracket(i, low, high, found) && i < 50 && !(high - low < 0.0001)
    requires mid == (high + low) / 2.0 && w == Shift(wInit, mid, useLmBonds) && loss == lossOf(w)
    ensures var r := RiskLoop(lossOf, tol, useLmBonds, wInit, i, low, high, found);
      (loss.Err? ==> r == Err(loss.error)) &&
      (loss.Ok? ==>
         var cand := Candidate(loss.value, w);
         var kept := if found.None? then cand else found.value;
         (Improves(loss.value, tol, kept.loss) && mid == 0.0 ==> r == Ok(cand)) &&
         (Improves(loss.value, tol, kept.loss) && mid != 0.0 ==>
            Bracket(i + 1, low, mid, Some(cand)) &&
            r == RiskLoop(lossOf, tol, useLmBonds, wInit, i + 1, low, mid, Some(cand))) &&
         (!Improves(loss.value, tol, kept.loss) ==>
            Bracket(i + 1, mid, high, Some(kept)) &&
            r == RiskLoop(lossOf, tol, useLmBonds, wInit, i + 1, mid, high, Some(kept))))
  {
    assert mid == (low + high) / 2.0;
  }

  /** The interval is narrower than 0.0001 after 15 halvings, so the loop tries at most 15 of
      its 50 allowed candidates. */
  lemma {:induction false} RiskLoopStopsEarly(lossOf: Weights -> Outcome<real>, tol: real,
                                              useLmBonds: bool, wInit: Weights, i: nat,
                                              low: real, high: real, found: Option<Candidate>)
    requires i <= 15 && high - low == Width(i)
    requires i == 0 ==> low == -1.0 && high == 1.0 && found.None?
    requires i > 0 ==> 0.0 <= low && high <= 1.0 && found.Some?
    ensures |RiskTrace(lossOf, tol, useLmBonds, wInit, i, low, high, found)| <= 15 - i
    decreases 15 - i
  {
    if i == 15 {
      WidthAfter15();
    } else if !(high - low < 0.0001) {
      var mid := (low + high) / 2.0;
      var w := Shift(wInit, mid, useLmBonds);
      match lossOf(w)
      case Err(_) =>
      case Ok(loss) =>
        var kept := if found.None? then Candidate(loss, w) else found.value;
        if Improves(loss, tol, kept.loss) {
          if mid != 0.0 {
            RiskLoopStopsEarly(lossOf, tol, useLmBonds, wInit, i + 1, low, mid,
                               Some(Candidate(loss, w)));
          }
        } else {
          RiskLoopStopsEarly(lossOf, tol, useLmBonds, wInit, i + 1, mid, high, Some(kept));
        }
    }
  }

  lemma WidthAfter15()
    ensures Width(15) < 0.0001
  {
    assert Width(5) == 2.0 / 32.0;
    assert Width(10) == 2.0 / 1024.0;
  }

  /** An allocation whose tail loss is already within tolerance is kept as it is (up to the
      folding of liability matching bonds into bonds when those are not used). */
  lemma RiskLoopKeepsTolerable(lossOf: Weights -> Outcome<real>, tol: real, useLmBonds: bool,
                               wInit: Weights)
    requires lossOf(Shift(wInit, 0.0, useLmBonds)).Ok?
    requires lossOf(Shift(wInit, 0.0, useLmBonds)).value <= tol
    ensures RiskLoop(lossOf, tol, useLmBonds, wInit, 0, -1.0, 1.0, None) ==
            Ok(Candidate(lossOf(Shift(wInit, 0.0, useLmBonds)).value, Shift(wInit, 0.0, useLmBonds)))
    ensures useLmBonds ==> Shift(wInit, 0.0, useLmBonds) == wInit
  {
    assert (-1.0 + 1.0) / 2.0 == 0.0;
  }

  /** A shift keeps the total and the fixed slots, keeps a non-negative allocation
      non-negative, and without liability matching bonds leaves none. */
  lemma ShiftOfShape(wInit: Weights, useLmBonds: bool, w: Weights)
    requires ShiftOf(wInit, useLmBonds, w)
    ensures Sum(w) == Sum(wInit)
    ensures w.contrib == wInit.contrib && w.existing == wInit.existing &&
            w.newAnnuities == wInit.newAnnuities
    ensures !useLmBonds ==> w.riskFree == 0.0
    ensures NonNegative(wInit) ==> NonNegative(w)
  {
    var mid: real :| 0.0 <= mid <= 1.0 && w == Shift(wInit, mid, useLmBonds);
    if NonNegative(wInit) {
      ShiftNonNegative(wInit, mid, useLmBonds);
    }
  }

  /** The tail-loss evaluator risk_limit bisects with. */
  function LossOf(o: Oracle, c: Context, m: Market): Weights -> Outcome<real> {
    w => InvestmentsLoss(o, c, w, m)
  }

  /** The allocation risk_limit returns and the consumption and tail loss it reports. */
  datatype RiskResult = RiskResult(w: Weights, consume: real, loss: real)

  /** The consumption the allocation kept by the bisection supports (alloc.py lines 433-448):
      defined benefits paid as annuities over the discounted life expectancies, the rest
      withdrawn at the consumption factor of a growth rate taken at a percentile that rises
      with the defined-benefit share.  Neither life-expectancy division is guarded. */
  function KeptConsumption(o: Oracle, c: Context, f: Candidate, m: Market, nv: real)
    : (r: Outcome<RiskResult>)
    ensures r.Err? ==> r.error == MathDomain || r.error == ZeroDivision
    ensures r.Ok? ==> r.value.w == f.w && r.value.loss == f.loss
    ensures c.discountedRetirementLe == 0.0 || c.discountedRetirementLeAnnuity == 0.0 ==> r.Err?
  {
    var w := f.w;
    var s :- Statistics(o, c.contributionVol, NonAnnuitizedWeights(w, false), m);
    var allocDb := w.existing + w.newAnnuities;
    var growthPctl := (1.0 - allocDb) * GrowthPctlNoDb / 100.0 + allocDb * 0.5;
    var g :- DistributionPctl(o, growthPctl, 1.0 + s.ret, s.vol);
    var cf :- ConsumeFactor(o, c, g - 1.0);
    var dle := c.discountedRetirementLe;
    var dlea := c.discountedRetirementLeAnnuity;
    if dle == 0.0 || dlea == 0.0 then Err(ZeroDivision)
    else
      Ok(RiskResult(w, nv * (w.existing / dle + w.newAnnuities * Mwr / dlea + (1.0 - allocDb) * cf),
                    f.loss))
  }

  /** risk_limit: the bisection, then the consumption of the allocation it keeps. */
  function RiskLimitSpec(o: Oracle, c: Context, useLmBonds: bool, wInit: Weights, m: Market,
                         nv: real): (r: Outcome<RiskResult>)
    ensures r.Err? ==> r.error == MathDomain || r.error == ZeroDivision
  {
    var f :- RiskLoop(LossOf(o, c, m), c.riskTolerance, useLmBonds, wInit, 0, -1.0, 1.0, None);
    KeptConsumption(o, c, f, m, nv)
  }

  /** The allocation risk_limit returns keeps the total and the fixed slots of its input, stays
      non-negative, has no liability matching bonds when those are not used, and its tail
      loss is within tolerance whenever a tried candidate's was, else the least one tried. */
  lemma RiskLimitShape(o: Oracle, c: Context, useLmBonds: bool, wInit: Weights, m: Market,
                       nv: real)
    requires RiskLimitSpec(o, c, useLmBonds, wInit, m, nv).Ok?
    ensures var w := RiskLimitSpec(o, c, useLmBonds, wInit, m, nv).value.w;
      Sum(w) == Sum(wInit) && w.contrib == wInit.contrib && w.existing == wInit.existing &&
      w.newAnnuities == wInit.newAnnuities && (!useLmBonds ==> w.riskFree == 0.0) &&
      (NonNegative(wInit) ==> NonNegative(w))
    ensures var r := RiskLimitSpec(o, c, useLmBonds, wInit, m, nv).value;
      var t := RiskTrace(LossOf(o, c, m), c.riskTolerance, useLmBonds, wInit, 0, -1.0, 1.0, None);
      Candidate(r.loss, r.w) in t &&
      ((exists k :: 0 <= k < |t| && t[k].loss <= c.riskTolerance) ==> r.loss <= c.riskTolerance) &&
      (r.loss > c.riskTolerance ==> forall k :: 0 <= k < |t| ==> r.loss <= t[k].loss)
  {
    var lossOf := LossOf(o, c, m);
    RiskLoopShifts(lossOf, c.riskTolerance, useLmBonds, wInit, 0, -1.0, 1.0, None);
    RiskLoopTolerable(lossOf, c.riskTolerance, useLmBonds, wInit, 0, -1.0, 1.0, None);
    RiskLoopLeast(lossOf, c.riskTolerance, useLmBonds, wInit, 0, -1.0, 1.0, None);
    var f := RiskLoop(lossOf, c.riskTolerance, useLmBonds, wInit, 0, -1.0, 1.0, None).value;
    ShiftOfShape(wInit, useLmBonds, f.w);
  }
}
