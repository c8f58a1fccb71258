// The search for the taxable savings that fund the desired income (alloc.py calc) and the
// three scenarios that compute_results reports (alloc.py lines 900-911).

module Search {
  import opened Wrappers
  import opened Oracles
  import opened Inputs
  import opened Portfolio
  import opened Waterfall
  import opened Setup
  import opened Scenario

  /** A location tried by the search and the scenario computed there. */
  datatype Found = Found(location: real, scenario: ScenarioResult)

  /** Whether a tried scenario funds the desired income. */
  predicate Meets(f: Found, desired: real) {
    f.scenario.consume >= desired
  }

  /** Python's `consume >= desired or not found_location`: the new location replaces the
      one kept when it meets the goal, when nothing is kept yet, or when the kept location
      is zero, which Python also reads as false. */
  predicate Replaces(consume: real, desired: real, found: Option<Found>) {
    consume >= desired || found.None? || found.value.location == 0.0
  }

  /** `x` halved `i` times: the width of the search interval after `i` iterations. */
  function Halved(x: real, i: nat): (r: real)
    ensures x > 0.0 ==> r > 0.0
  {
    if i == 0 then x else Halved(x, i - 1) / 2.0
  }

  /** The bisection loop of calc from iteration `i` with interval (low, high), scenarios
      evaluated with `probe`: it tries the midpoint, keeps it as the answer when `Replaces`
      says so, stops after 50 iterations or once the interval is narrower than a millionth
      of `maxP`, and otherwise moves up when the goal was missed and down when it was met. */
  function CalcLoop(probe: real -> Outcome<ScenarioResult>, desired: real, maxP: real, i: nat,
                    low: real, high: real, found: Option<Found>): (r: Outcome<Found>)
    requires i < 50 && (i > 0 ==> found.Some?)
    ensures r.Err? ==> exists x :: probe(x) == Err(r.error)
    decreases 50 - i
  {
    var mid := (low + high) / 2.0;
    var s :- probe(mid);
    var kept := if Replaces(s.consume, desired, found) then Found(mid, s) else found.value;
    if high - low < 0.000001 * maxP || i == 49 then Ok(kept)
    else if s.consume < desired then CalcLoop(probe, desired, maxP, i + 1, mid, high, Some(kept))
    else CalcLoop(probe, desired, maxP, i + 1, low, mid, Some(kept))
  }

  /** One iteration given the scenario `s` at the midpoint: a failing scenario fails the loop;
      otherwise the kept location is the midpoint when it replaces the one kept before, and
      the loop stops or goes on with the upper or lower half. */
  lemma CalcLoopStep(probe: real -> Outcome<ScenarioResult>, desired: real, maxP: real, i: nat,
                     low: real, high: real, found: Option<Found>, mid: real,
                     s: Outcome<ScenarioResult>)
    requires i < 50 && (i > 0 ==> found.Some?)
    requires mid == (low + high) / 2.0 && s == probe(mid)
    ensures var r := CalcLoop(probe, desired, maxP, i, low, high, found);
      (s.Err? ==> r == Err(s.error)) &&
      (s.Ok? ==>
         var kept := if Replaces(s.value.consume, desired, found) then Found(mid, s.value)
                     else found.value;
         (high - low < 0.000001 * maxP || i == 49 ==> r == Ok(kept)) &&
         (!(high - low < 0.000001 * maxP || i == 49) && s.value.consume < desired ==>
            r == CalcLoop(probe, desired, maxP, i + 1, mid, high, Some(kept))) &&
         (!(high - low < 0.000001 * maxP || i == 49) && s.value.consume >= desired ==>
            r == CalcLoop(probe, desired, maxP, i + 1, low, mid, Some(kept))))
  {
  }

  /** The locations and scenarios the loop tries from iteration `i`, in order. */
  ghost function CalcTrace(probe: real -> Outcome<ScenarioResult>, desired: real, maxP: real,
                           i: nat, low: real, high: real, found: Option<Found>): seq<Found>
    requires i < 50 && (i > 0 ==> found.Some?)
    decreases 50 - i
  {
    var mid := (low + high) / 2.0;
    match probe(mid)
    case Err(_) => []
    case Ok(s) =>
      var kept := if Replaces(s.consume, desired, found) then Found(mid, s) else found.value;
      if high - low < 0.000001 * maxP || i == 49 then [Found(mid, s)]
      else if s.consume < desired then
        [Found(mid, s)] + CalcTrace(probe, desired, maxP, i + 1, mid, high, Some(kept))
      else [Found(mid, s)] + CalcTrace(probe, desired, maxP, i + 1, low, mid, Some(kept))
  }

  /** Every answer of the loop is a location it tried (or the one carried in) together with
      the scenario computed there, and lies between the bounds the interval lies in. */
  lemma {:induction false} CalcLoopWithin(probe: real -> Outcome<ScenarioResult>, desired: real,
                                          maxP: real, i: nat, low: real, high: real,
                                          found: Option<Found>, lo: real, hi: real)
    requires i < 50 && (i > 0 ==> found.Some?)
    requires lo <= low <= hi && lo <= high <= hi
    requires found.Some? ==> lo <= found.value.location <= hi &&
                             probe(found.value.location) == Ok(found.value.scenario)
    ensures var r := CalcLoop(probe, desired, maxP, i, low, high, found);
      (r.Ok? ==> lo <= r.value.location <= hi && probe(r.value.location) == Ok(r.value.scenario)) &&
      (r.Err? ==> exists x :: lo <= x <= hi && probe(x) == Err(r.error))
    decreases 50 - i
  {
    var mid := (low + high) / 2.0;
    assert lo <= mid <= hi;
    if probe(mid).Ok? {
      var s := probe(mid).value;
      var kept := if Replaces(s.consume, desired, found) then Found(mid, s) else found.value;
      if !(high - low < 0.000001 * maxP || i == 49) {
        if s.consume < desired {
          CalcLoopWithin(probe, desired, maxP, i + 1, mid, high, Some(kept), lo, hi);
        } else {
          CalcLoopWithin(probe, desired, maxP, i + 1, low, mid, Some(kept), lo, hi);
        }
      }
    }
  }

  /** For a positive bound, the search returns a location in (0, maxP] that it tried or
      that was carried in, and every location it tries lies inside the current interval. */
  lemma {:induction false} CalcLoopRange(probe: real -> Outcome<ScenarioResult>, desired: real,
                                         maxP: real, i: nat, low: real, high: real,
                                         found: Option<Found>)
    requires i < 50 && (i > 0 ==> found.Some?)
    requires 0.0 <= low < high <= maxP
    requires found.Some? ==> 0.0 < found.value.location <= maxP
    requires CalcLoop(probe, desired, maxP, i, low, high, found).Ok?
    ensures var f := CalcLoop(probe, desired, maxP, i, low, high, found).value;
      var t := CalcTrace(probe, desired, maxP, i, low, high, found);
      0.0 < f.location <= maxP &&
      (f in t || found == Some(f)) &&
      (forall k :: 0 <= k < |t| ==> low < t[k].location < high)
    decreases 50 - i
  {
    var mid := (low + high) / 2.0;
    var s := probe(mid).value;
    var tried := Found(mid, s);
    var kept := if Replaces(s.consume, desired, found) then tried else found.value;
    var t := CalcTrace(probe, desired, maxP, i, low, high, found);
    assert low < mid < high;
    if !(high - low < 0.000001 * maxP || i == 49) {
      if s.consume < desired {
        CalcLoopRange(probe, desired, maxP, i + 1, mid, high, Some(kept));
        assert t == [tried] + CalcTrace(probe, desired, maxP, i + 1, mid, high, Some(kept));
      } else {
        CalcLoopRange(probe, desired, maxP, i + 1, low, mid, Some(kept));
        assert t == [tried] + CalcTrace(probe, desired, maxP, i + 1, low, mid, Some(kept));
      }
    } else {
      assert t == [tried];
    }
  }

  /** Some location in `t` funds the desired income. */
  predicate AnyMeets(t: seq<Found>, desired: real) {
    exists k :: 0 <= k < |t| && Meets(t[k], desired)
  }

  /** `f` lies at or below every location in `t` that funds the desired income. */
  predicate LowestMeeting(f: Found, t: seq<Found>, desired: real) {
    forall k :: 0 <= k < |t| && Meets(t[k], desired) ==> f.location <= t[k].location
  }

  lemma ConsTrace(tried: Found, t': seq<Found>, f: Found, desired: real)
    ensures AnyMeets([tried] + t', desired) <==> Meets(tried, desired) || AnyMeets(t', desired)
    ensures LowestMeeting(f, [tried] + t', desired) <==>
            (Meets(tried, desired) ==> f.location <= tried.location) &&
            LowestMeeting(f, t', desired)
  {
    var t := [tried] + t';
    assert t[0] == tried;
    assert forall k :: 0 < k < |t| ==> t[k] == t'[k - 1];
    assert forall k :: 0 <= k < |t'| ==> t[k + 1] == t'[k];
    if AnyMeets(t', desired) {
      var k :| 0 <= k < |t'| && Meets(t'[k], desired);
      assert Meets(t[k + 1], desired);
    }
    if AnyMeets(t, desired) && !Meets(tried, desired) {
      var k :| 0 <= k < |t| && Meets(t[k], desired);
      assert Meets(t'[k - 1], desired);
    }
  }

  /** For a positive bound, the answer funds the desired income whenever any location tried
      (or the one carried in) did, and then it is the lowest tried location that did:
      a location that funds it becomes the top of the interval, so later ones are lower. */
  lemma {:induction false} CalcLoopMeets(probe: real -> Outcome<ScenarioResult>, desired: real,
                                         maxP: real, i: nat, low: real, high: real,
                                         found: Option<Found>)
    requires i < 50 && (i > 0 ==> found.Some?)
    requires 0.0 <= low < high <= maxP
    requires found.Some? ==> 0.0 < found.value.location <= maxP
    requires found.Some? && Meets(found.value, desired) ==> found.value.location == high
    requires CalcLoop(probe, desired, maxP, i, low, high, found).Ok?
    ensures var f := CalcLoop(probe, desired, maxP, i, low, high, found).value;
      var t := CalcTrace(probe, desired, maxP, i, low, high, found);
      ((found.Some? && Meets(found.value, desired)) || AnyMeets(t, desired) ==> Meets(f, desired)) &&
      (Meets(f, desired) ==> LowestMeeting(f, t, desired))
    decreases 50 - i
  {
    var mid := (low + high) / 2.0;
    var s := probe(mid).value;
    var tried := Found(mid, s);
    var kept := if Replaces(s.consume, desired, found) then tried else found.value;
    var f := CalcLoop(probe, desired, maxP, i, low, high, found).value;
    assert low < mid < high;
    if !(high - low < 0.000001 * maxP || i == 49) {
      if s.consume < desired {
        CalcLoopMeets(probe, desired, maxP, i + 1, mid, high, Some(kept));
        var t' := CalcTrace(probe, desired, maxP, i + 1, mid, high, Some(kept));
        assert CalcTrace(probe, desired, maxP, i, low, high, found) == [tried] + t';
        assert f == CalcLoop(probe, desired, maxP, i + 1, mid, high, Some(kept)).value;
        ConsTrace(tried, t', f, desired);
        assert found.Some? && Meets(found.value, desired) ==> kept == found.value;
      } else {
        CalcLoopMeets(probe, desired, maxP, i + 1, low, mid, Some(kept));
        CalcLoopRange(probe, desired, maxP, i + 1, low, mid, Some(kept));
        var t' := CalcTrace(probe, desired, maxP, i + 1, low, mid, Some(kept));
        assert CalcTrace(probe, desired, maxP, i, low, high, found) == [tried] + t';
        assert f == CalcLoop(probe, desired, maxP, i + 1, low, mid, Some(kept)).value;
        ConsTrace(tried, t', f, desired);
      }
    } else {
      ConsTrace(tried, [], f, desired);
      assert [tried] + [] == [tried];
    }
  }

  /** For a positive bound the interval is narrower than a millionth of it after 20
      halvings, so the search tries at most 21 of its 50 allowed locations. */
  lemma {:induction false} CalcLoopStopsEarly(probe: real -> Outcome<ScenarioResult>,
                                              desired: real, maxP: real, i: nat, low: real,
                                              high: real, found: Option<Found>)
    requires i <= 20 && (i > 0 ==> found.Some?)
    requires maxP > 0.0 && high - low == Halved(maxP, i)
    ensures |CalcTrace(probe, desired, maxP, i, low, high, found)| <= 21 - i
    decreases 20 - i
  {
    if i == 20 {
      HalvedAfter20(maxP);
    } else {
      var mid := (low + high) / 2.0;
      match probe(mid)
      case Err(_) =>
      case Ok(s) =>
        var kept := if Replaces(s.consume, desired, found) then Found(mid, s) else found.value;
        if !(high - low < 0.000001 * maxP) {
          if s.consume < desired {
            CalcLoopStopsEarly(probe, desired, maxP, i + 1, mid, high, Some(kept));
          } else {
            CalcLoopStopsEarly(probe, desired, maxP, i + 1, low, mid, Some(kept));
          }
        }
    }
  }

  lemma {:induction false} HalvedScale(x: real, i: nat)
    ensures Halved(x, i) == x * Halved(1.0, i)
  {
    if i > 0 {
      HalvedScale(x, i - 1);
      var h := Halved(1.0, i - 1);
      assert Halved(x, i) == (x * h) / 2.0;
      assert Halved(1.0, i) == h / 2.0;
    }
  }

  lemma HalvedAfter20(x: real)
    requires x > 0.0
    ensures Halved(x, 20) < 0.000001 * x
  {
    assert Halved(1.0, 10) == 1.0 / 1024.0;
    assert Halved(1.0, 20) == 1.0 / 1048576.0;
    HalvedScale(x, 20);
  }

  /** calc's result: the scenario, and outside the 'aa' mode the taxable savings found. */
  datatype CalcResult = CalcResult(scenario: ScenarioResult, taxable: Option<real>)

  /** The upper end of the search: the desired income for every year up to age 120. */
  function MaxPortfolio(c: Context, desired: real): real {
    desired * (120.0 - c.minAge - c.preRetirementYears)
  }

  lemma MaxPortfolioNonNegative(c: Context, desired: real)
    requires desired >= 0.0 && c.minAge + c.preRetirementYears <= 120.0
    ensures MaxPortfolio(c, desired) >= 0.0
  {
    NonNegativeProduct(desired, 120.0 - c.minAge - c.preRetirementYears);
  }

  /** The desired income, or the TypeError Python raises multiplying a missing one. */
  function Desired(c: Context): (r: Outcome<real>)
    ensures r.Ok? <==> c.desiredIncome.Some?
    ensures r.Ok? ==> r.value == c.desiredIncome.value
    ensures r.Err? ==> r.error == NoneOperand
  {
    if c.desiredIncome.None? then Err(NoneOperand) else Ok(c.desiredIncome.value)
  }

  /** The savings between 0 and MaxPortfolio, which the search stays within. */
  predicate InSearch(c: Context, x: real) {
    c.desiredIncome.Some? &&
    Min(0.0, MaxPortfolio(c, c.desiredIncome.value)) <= x &&
    x <= Max(0.0, MaxPortfolio(c, c.desiredIncome.value))
  }

  /** calc with scenarios evaluated by `probe` at the savings added: in the 'aa' mode
      (`aa`) one scenario at no added savings; otherwise the bisection between 0 and
      MaxPortfolio. */
  function CalcWith(probe: real -> Outcome<ScenarioResult>, aa: bool, c: Context)
    : (r: Outcome<CalcResult>)
    ensures r.Ok? ==> (r.value.taxable.Some? <==> !aa)
    ensures !aa && c.desiredIncome.None? ==> r == Err(NoneOperand)
  {
    if aa then
      var s :- probe(0.0);
      Ok(CalcResult(s, None))
    else
      var desired :- Desired(c);
      var found :- CalcLoop(probe, desired, MaxPortfolio(c, desired), 0, 0.0,
                            MaxPortfolio(c, desired), None);
      Ok(CalcResult(found.scenario, Some(found.location)))
  }

  /** The savings calc adds to the net worth: those it reports, none in the 'aa' mode. */
  function Extra(r: CalcResult): real {
    if r.taxable.Some? then r.taxable.value else 0.0
  }

  /** The scenario calc answers with is the one its probe gives at the savings it reports,
      and outside the 'aa' mode those savings lie in the searched range. */
  lemma CalcWithAt(probe: real -> Outcome<ScenarioResult>, aa: bool, c: Context)
    requires CalcWith(probe, aa, c).Ok?
    ensures var r := CalcWith(probe, aa, c).value;
      probe(Extra(r)) == Ok(r.scenario) && (!aa ==> InSearch(c, Extra(r)))
  {
    if !aa {
      var desired := c.desiredIncome.value;
      var maxP := MaxPortfolio(c, desired);
      CalcLoopWithin(probe, desired, maxP, 0, 0.0, maxP, None, Min(0.0, maxP), Max(0.0, maxP));
    }
  }

  /** calc fails only with the failure of a scenario it tried (in the searched range
      outside the 'aa' mode) or, outside the 'aa' mode, for want of a desired income. */
  lemma CalcWithFails(probe: real -> Outcome<ScenarioResult>, aa: bool, c: Context)
    requires CalcWith(probe, aa, c).Err?
    ensures var e := CalcWith(probe, aa, c).error;
      (aa && probe(0.0) == Err(e)) ||
      (!aa && c.desiredIncome.None? && e == NoneOperand) ||
      (!aa && exists x :: InSearch(c, x) && probe(x) == Err(e))
  {
    if !aa && c.desiredIncome.Some? {
      var desired := c.desiredIncome.value;
      var maxP := MaxPortfolio(c, desired);
      CalcLoopWithin(probe, desired, maxP, 0, 0.0, maxP, None, Min(0.0, maxP), Max(0.0, maxP));
    }
  }

  /** For a positive bound the search answers with savings in (0, MaxPortfolio] after at
      most 21 scenarios; the answer funds the desired income whenever any scenario tried
      did, and then it is the smallest such savings tried. */
  lemma CalcWithMeets(probe: real -> Outcome<ScenarioResult>, c: Context)
    requires c.desiredIncome.Some? && MaxPortfolio(c, c.desiredIncome.value) > 0.0
    requires CalcWith(probe, false, c).Ok?
    ensures var desired := c.desiredIncome.value;
      var maxP := MaxPortfolio(c, desired);
      var r := CalcWith(probe, false, c).value;
      var t := CalcTrace(probe, desired, maxP, 0, 0.0, maxP, None);
      0.0 < r.taxable.value <= maxP && 1 <= |t| <= 21 &&
      Found(r.taxable.value, r.scenario) in t &&
      (AnyMeets(t, desired) ==> r.scenario.consume >= desired) &&
      (r.scenario.consume >= desired ==> LowestMeeting(Found(r.taxable.value, r.scenario), t, desired))
  {
    var desired := c.desiredIncome.value;
    var maxP := MaxPortfolio(c, desired);
    assert maxP - 0.0 == Halved(maxP, 0);
    CalcLoopRange(probe, desired, maxP, 0, 0.0, maxP, None);
    CalcLoopMeets(probe, desired, maxP, 0, 0.0, maxP, None);
    CalcLoopStopsEarly(probe, desired, maxP, 0, 0.0, maxP, None);
  }

  /** A scenario at `x` more taxable savings, made as calc does by raising the net worth of
      the table instead of recomputing it. */
  function Probe(o: Oracle, c: Context, mode: Mode, factor: real, data: AllocData,
                 results: NvResults, force: Option<bool>): real -> Outcome<ScenarioResult>
  {
    x => ProbeAt(o, c, mode, factor, data, results, force, x)
  }

  /** The scenario with `x` added to the net worth of the table. */
  function ProbeAt(o: Oracle, c: Context, mode: Mode, factor: real, data: AllocData,
                   results: NvResults, force: Option<bool>, x: real): Outcome<ScenarioResult>
  {
    CalcScenarioSpec(o, c, mode, factor, data, results.(nv := results.nv + x), force)
  }

  /** alloc.py calc. */
  function CalcSpec(o: Oracle, c: Context, mode: Mode, factor: real, data: AllocData,
                    results: NvResults, force: Option<bool>): (r: Outcome<CalcResult>)
    ensures r.Ok? ==> (r.value.taxable.Some? <==> mode != Aa)
    ensures mode != Aa && c.desiredIncome.None? ==> r == Err(NoneOperand)
  {
    CalcWith(Probe(o, c, mode, factor, data, results, force), mode == Aa, c)
  }

  /** Net worth covers its defined-benefit and contribution parts. */
  predicate Covers(c: Context, results: NvResults) {
    0.0 <= c.nvContributions && 0.0 <= results.nvDb &&
    c.nvContributions + results.nvDb <= results.nv
  }

  /** The desired income, zero when missing (used only to state bounds). */
  function DesiredOrZero(c: Context): real {
    if c.desiredIncome.Some? then c.desiredIncome.value else 0.0
  }

  /** A scenario at `x` added savings, for a covered net worth and x >= 0, never trips
      fix_allocs' assertions and has a complete non-negative allocation, with no new
      annuities when purchases are off. */
  lemma ProbeSound(o: Oracle, c: Context, mode: Mode, factor: real, data: AllocData,
                   results: NvResults, force: Option<bool>, x: real)
    requires Covers(c, results) && x >= 0.0
    requires c.desiredIncome.Some? ==> c.desiredIncome.value >= 0.0
    ensures SoundScenario(data, Probe(o, c, mode, factor, data, results, force)(x))
  {
    ProbeAtSound(o, c, mode, factor, data, results, force, x);
    assert Probe(o, c, mode, factor, data, results, force)(x) ==
           ProbeAt(o, c, mode, factor, data, results, force, x);
  }

  /** ProbeSound for one scenario. */
  lemma ProbeAtSound(o: Oracle, c: Context, mode: Mode, factor: real, data: AllocData,
                     results: NvResults, force: Option<bool>, x: real)
    requires Covers(c, results) && x >= 0.0
    requires c.desiredIncome.Some? ==> c.desiredIncome.value >= 0.0
    ensures SoundScenario(data, ProbeAt(o, c, mode, factor, data, results, force, x))
  {
    var raised := results.(nv := results.nv + x);
    ProbeAtRaised(o, c, mode, factor, data, results, force, x, raised);
    CoveredScenarioSound(o, c, mode, factor, data, raised, force);
  }

  /** A probe is the scenario of the net worth raised by the savings tried. */
  lemma ProbeAtRaised(o: Oracle, c: Context, mode: Mode, factor: real, data: AllocData,
                      results: NvResults, force: Option<bool>, x: real, raised: NvResults)
    requires raised == results.(nv := results.nv + x)
    ensures ProbeAt(o, c, mode, factor, data, results, force, x) ==
            CalcScenarioSpec(o, c, mode, factor, data, raised, force)
  {
  }

  /** CalcScenarioSound for a covered net worth. */
  lemma CoveredScenarioSound(o: Oracle, c: Context, mode: Mode, factor: real, data: AllocData,
                             results: NvResults, force: Option<bool>)
    requires Covers(c, results)
    requires c.desiredIncome.Some? ==> c.desiredIncome.value >= 0.0
    ensures SoundScenario(data, CalcScenarioSpec(o, c, mode, factor, data, results, force))
  {
    SharesFromValues(results.nv, c.nvContributions, results.nvDb);
    CalcScenarioSound(o, c, mode, factor, data, results, force);
  }

  /** With a non-negative desired income and a horizon that does not end before retirement,
      the search only tries non-negative savings up to the bound, so every scenario it
      computes is covered: calc never trips fix_allocs' assertions and its allocation is
      complete and non-negative, with no new annuities when purchases are off. */
  lemma CalcSound(o: Oracle, c: Context, mode: Mode, factor: real, data: AllocData,
                  results: NvResults, force: Option<bool>)
    requires Covers(c, results)
    requires c.desiredIncome.Some? ==> c.desiredIncome.value >= 0.0
    requires c.minAge + c.preRetirementYears <= 120.0
    ensures CalcSpec(o, c, mode, factor, data, results, force) != Err(AssertionFailed)
    ensures var r := CalcSpec(o, c, mode, factor, data, results, force);
      r.Ok? ==>
        Feasible(r.value.scenario.wFixed) &&
        (!data.purchaseIncomeAnnuity ==> r.value.scenario.wFixed.newAnnuities == 0.0) &&
        (r.value.taxable.Some? ==> 0.0 <= r.value.taxable.value <= MaxPortfolio(c, DesiredOrZero(c)))
  {
    var probe := Probe(o, c, mode, factor, data, results, force);
    var r := CalcSpec(o, c, mode, factor, data, results, force);
    if c.desiredIncome.Some? {
      MaxPortfolioNonNegative(c, c.desiredIncome.value);
    }
    if r.Ok? {
      CalcWithAt(probe, mode == Aa, c);
      ProbeSound(o, c, mode, factor, data, results, force, Extra(r.value));
    } else {
      CalcWithFails(probe, mode == Aa, c);
      if mode == Aa {
        ProbeSound(o, c, mode, factor, data, results, force, 0.0);
      } else if c.desiredIncome.Some? {
        var x :| InSearch(c, x) && probe(x) == Err(r.error);
        ProbeSound(o, c, mode, factor, data, results, force, x);
      }
    }
  }

  /** For a positive bound the search answers with savings in (0, MaxPortfolio] after at
      most 21 scenarios; the answer funds the desired income whenever any scenario tried
      did, and then it is the smallest such savings tried. */
  lemma CalcMeets(o: Oracle, c: Context, mode: Mode, factor: real, data: AllocData,
                  results: NvResults, force: Option<bool>)
    requires mode != Aa && c.desiredIncome.Some?
    requires MaxPortfolio(c, c.desiredIncome.value) > 0.0
    requires CalcSpec(o, c, mode, factor, data, results, force).Ok?
    ensures var desired := c.desiredIncome.value;
      var maxP := MaxPortfolio(c, desired);
      var r := CalcSpec(o, c, mode, factor, data, results, force).value;
      var t := CalcTrace(Probe(o, c, mode, factor, data, results, force), desired, maxP, 0, 0.0,
                         maxP, None);
      0.0 < r.taxable.value <= maxP && 1 <= |t| <= 21 &&
      Found(r.taxable.value, r.scenario) in t &&
      (AnyMeets(t, desired) ==> r.scenario.consume >= desired) &&
      (r.scenario.consume >= desired ==> LowestMeeting(Found(r.taxable.value, r.scenario), t, desired))
  {
    CalcWithMeets(Probe(o, c, mode, factor, data, results, force), c);
  }

  /** calc reports the returns of its factor, and its plan follows an override when
      purchases are on and is never to annuitise when they are off. */
  lemma CalcPlan(o: Oracle, c: Context, mode: Mode, factor: real, data: AllocData,
                 results: NvResults, force: Option<bool>)
    requires CalcSpec(o, c, mode, factor, data, results, force).Ok?
    ensures PlanFollows(CalcSpec(o, c, mode, factor, data, results, force).value.scenario,
                        c, data, factor, force)
  {
    var probe := Probe(o, c, mode, factor, data, results, force);
    CalcWithAt(probe, mode == Aa, c);
    var x := Extra(CalcWith(probe, mode == Aa, c).value);
    var raised := results.(nv := results.nv + x);
    assert probe(x) == ProbeAt(o, c, mode, factor, data, results, force, x);
    ProbeAtRaised(o, c, mode, factor, data, results, force, x, raised);
    CalcScenarioPlan(o, c, mode, factor, data, raised, force);
  }

  /** The baseline, low and high estimates. */
  datatype Estimates = Estimates(baseline: CalcResult, low: CalcResult, high: CalcResult)

  /** The factor of the low returns estimate. */
  function Negated(factor: real): real {
    -factor
  }

  /** The three calls to calc in compute_results: the baseline at factor 0 with no override,
      then the low and high return scenarios at minus and plus `factor`, forced to the
      baseline's plan. */
  function EstimatesSpec(o: Oracle, c: Context, mode: Mode, data: AllocData, results: NvResults,
                         factor: real): (r: Outcome<Estimates>)
  {
    var baseline :- CalcSpec(o, c, mode, 0.0, data, results, None);
    var plan := Some(baseline.scenario.annuitizePlan);
    var low :- CalcSpec(o, c, mode, Negated(factor), data, results, plan);
    var high :- CalcSpec(o, c, mode, factor, data, results, plan);
    Ok(Estimates(baseline, low, high))
  }

  /** EstimatesSpec one call at a time, for the method that makes the calls. */
  lemma EstimatesSteps(o: Oracle, c: Context, mode: Mode, data: AllocData, results: NvResults,
                       factor: real, plan: Option<bool>, b: Outcome<CalcResult>,
                       l: Outcome<CalcResult>, h: Outcome<CalcResult>)
    requires b == CalcSpec(o, c, mode, 0.0, data, results, None)
    requires b.Ok? ==> plan == Some(b.value.scenario.annuitizePlan)
    requires b.Ok? ==> l == CalcSpec(o, c, mode, Negated(factor), data, results, plan)
    requires b.Ok? && l.Ok? ==> h == CalcSpec(o, c, mode, factor, data, results, plan)
    ensures var r := EstimatesSpec(o, c, mode, data, results, factor);
      (b.Err? ==> r == Err(b.error)) &&
      (b.Ok? && l.Err? ==> r == Err(l.error)) &&
      (b.Ok? && l.Ok? && h.Err? ==> r == Err(h.error)) &&
      (b.Ok? && l.Ok? && h.Ok? ==> r == Ok(Estimates(b.value, l.value, h.value)))
  {
  }

  /** The three estimates share the baseline's annuitisation plan (never to annuitise when
      purchases are off), have the returns of factors 0, -factor and +factor (which differ
      only in the stock return, by Scenario.RetsFactor), and report savings exactly outside
      the 'aa' mode. */
  lemma EstimatesFanOut(o: Oracle, c: Context, mode: Mode, data: AllocData, results: NvResults,
                        factor: real)
    requires EstimatesSpec(o, c, mode, data, results, factor).Ok?
    ensures var e := EstimatesSpec(o, c, mode, data, results, factor).value;
      var b := e.baseline.scenario;
      b.rets == Rets(c, data, 0.0) && e.low.scenario.rets == Rets(c, data, Negated(factor)) &&
      e.high.scenario.rets == Rets(c, data, factor) &&
      e.low.scenario.annuitizePlan == b.annuitizePlan &&
      e.high.scenario.annuitizePlan == b.annuitizePlan &&
      (!data.purchaseIncomeAnnuity ==> !b.annuitizePlan) &&
      (e.baseline.taxable.Some? <==> mode != Aa) &&
      (e.low.taxable.Some? <==> mode != Aa) && (e.high.taxable.Some? <==> mode != Aa)
  {
    var baseline := CalcSpec(o, c, mode, 0.0, data, results, None).value;
    var plan := Some(baseline.scenario.annuitizePlan);
    CalcPlan(o, c, mode, 0.0, data, results, None);
    CalcPlan(o, c, mode, Negated(factor), data, results, plan);
    CalcPlan(o, c, mode, factor, data, results, plan);
  }

  /** What compute_results produces: the starting state (in the 'number' mode with the
      taxable savings the baseline found), the defined-benefits table, the net worth table,
      the confidence factor and the three estimates. */
  datatype Computed = Computed(ctx: Context, dbRows: seq<DbEntry>, npvResults: NvResults,
                               factor: real, estimates: Estimates)

  /** The standard-error multiple of a two-sided confidence level. */
  function ConfidenceFactor(o: Oracle, data: AllocData): real {
    o.normPpf(0.5 + Pct(data.confidencePct) / 2.0)
  }

  /** The baseline has a taxable balance exactly outside the 'aa' mode. */
  lemma EstimatesTaxable(o: Oracle, c: Context, mode: Mode, data: AllocData, results: NvResults,
                         factor: real)
    requires EstimatesSpec(o, c, mode, data, results, factor).Ok?
    ensures EstimatesSpec(o, c, mode, data, results, factor).value.baseline.taxable.Some? <==>
            mode != Aa
  {
  }

  /** alloc.py compute_results: the starting state, its net worth table, the three
      estimates; the 'number' mode adopts the baseline's savings as its taxable balance. */
  function ComputeResultsSpec(o: Oracle, data: AllocData, mode: Mode): (r: Outcome<Computed>)
    ensures SetupOf(o, data, mode).Err? ==> r == Err(SetupOf(o, data, mode).error)
  {
    var s :- SetupOf(o, data, mode);
    var c := s.ctx;
    var results := ValueTable(c, c.nvDb, c.npvTaxable);
    var factor := ConfidenceFactor(o, data);
    var e :- EstimatesSpec(o, c, mode, data, results, factor);
    EstimatesTaxable(o, c, mode, data, results, factor);
    var c' := if mode == Number then c.(npvTaxable := e.baseline.taxable.value) else c;
    Ok(Computed(c', s.dbRows, results, factor, e))
  }

  /** compute_results succeeds only on a starting state and three estimates from it; the
      'number' mode then records the baseline's savings as the taxable balance, and every
      other field of the state is the starting one. */
  lemma ComputeResultsAdopts(o: Oracle, data: AllocData, mode: Mode)
    requires ComputeResultsSpec(o, data, mode).Ok?
    ensures SetupOf(o, data, mode).Ok?
    ensures var r := ComputeResultsSpec(o, data, mode).value;
      var c := SetupOf(o, data, mode).value.ctx;
      r.npvResults == ValueTable(c, c.nvDb, c.npvTaxable) &&
      r.factor == ConfidenceFactor(o, data) &&
      EstimatesSpec(o, c, mode, data, r.npvResults, r.factor) == Ok(r.estimates) &&
      r.ctx.(npvTaxable := c.npvTaxable) == c &&
      (mode == Number ==> r.estimates.baseline.taxable == Some(r.ctx.npvTaxable)) &&
      (mode != Number ==> r.ctx == c)
  {
    var s := SetupOf(o, data, mode).value;
    var results := ValueTable(s.ctx, s.ctx.nvDb, s.ctx.npvTaxable);
    EstimatesTaxable(o, s.ctx, mode, data, results, ConfidenceFactor(o, data));
  }
}
