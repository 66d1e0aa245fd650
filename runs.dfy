/**
 * What one run of simulate_retirement promises: the portfolio never goes below
 * zero and only the last row may show it used up; the rows follow the calendar
 * month by month (or year by year) exactly as _cursor_from_step computes it; a run
 * that is never depleted has one row per step of the timeline; and the min and
 * max scenarios collapse onto the expected one when an event of the first month
 * sets expected_return, which normalization makes every event do.
 */
module Runs {
  import opened Wrappers
  import opened Sums
  import opened Types
  import opened Sequences
  import opened Stepper
  import opened Events
  import opened Normalize

  // ---------------------------------------------------------------------------
  // The portfolio
  // ---------------------------------------------------------------------------

  /**
   * Every row ends with a portfolio of at least zero, every row but the last with a
   * positive one, and the run ends either on a depleted row or past stop_age.
   */
  predicate FloorsAtZero(out: RunOut) {
    var recs := out.records;
    && (forall j :: 0 <= j < |recs| ==> recs[j].portfolioEnd >= 0.0)
    && (forall j :: 0 <= j < |recs| - 1 ==> recs[j].portfolioEnd > 0.0)
    && ((|recs| > 0 && recs[|recs| - 1].portfolioEnd <= 0.0) || out.final.age > out.final.stopAge)
  }

  /** A successful run floors the portfolio at zero and stops at depletion or past stop_age. */
  lemma {:induction false} RunPortfolio(v: StateVals, rates: Rates, events: seq<Event>, base: Option<Amounts>,
                                        monthly: bool, root12: real -> real)
    requires Run(v, rates, events, base, monthly, root12).Success?
    ensures FloorsAtZero(Run(v, rates, events, base, monthly, root12).value)
    decreases Fuel(v, monthly)
  {
    if v.age <= v.stopAge {
      var o := StepOnce(v, rates, events, base, monthly, root12).value;
      RunUnfold(v, rates, events, base, monthly, root12, o);
      if o.stepped.vals.portfolio > 0.0 {
        var w := Advanced(o.stepped.vals, monthly);
        RunPortfolio(w, o.rates, events, base, monthly, root12);
        PortfolioTail(o.stepped.record, Run(w, o.rates, events, base, monthly, root12).value);
      }
    }
  }

  /** A row with money left in front of a run that floors at zero keeps the property. */
  lemma PortfolioTail(rec: StepRecord, rest: RunOut)
    requires rec.portfolioEnd > 0.0
    requires FloorsAtZero(rest)
    ensures FloorsAtZero(RunOut([rec] + rest.records, rest.final))
  {
    var recs := [rec] + rest.records;
    forall j | 1 <= j < |recs|
      ensures recs[j] == rest.records[j - 1]
    {
    }
  }

  // ---------------------------------------------------------------------------
  // The calendar
  // ---------------------------------------------------------------------------

  /** A timeline step keeps the month valid and moves one month (or twelve) on. */
  lemma AdvancedMonth(v: StateVals, monthly: bool)
    requires ValidMonth(YearMonth(v.year, v.month))
    ensures var w := Advanced(v, monthly);
      && ValidMonth(YearMonth(w.year, w.month))
      && MonthIndex(YearMonth(w.year, w.month)) == MonthIndex(YearMonth(v.year, v.month)) + (if monthly then 1 else 12)
  {
  }

  /** Stepping the state once and then s steps of the cursor is s + 1 steps of the cursor. */
  lemma CursorShift(v: StateVals, s: nat, monthly: bool)
    requires ValidMonth(YearMonth(v.year, v.month))
    ensures var w := Advanced(v, monthly);
      Cursor(w.year, w.month, w.age, s, monthly) == Cursor(v.year, v.month, v.age, s + 1, monthly)
  {
    if monthly {
      if v.month == 12 {
        assert (12 + s) / 12 == 1 + s / 12 && (12 + s) % 12 == s % 12;
      }
    }
  }

  /** Row j of a run is stamped with _cursor_from_step(j). */
  lemma {:induction false} RunCursor(v: StateVals, rates: Rates, events: seq<Event>, base: Option<Amounts>,
                                     monthly: bool, root12: real -> real)
    requires ValidMonth(YearMonth(v.year, v.month))
    requires Run(v, rates, events, base, monthly, root12).Success?
    ensures var recs := Run(v, rates, events, base, monthly, root12).value.records;
      forall j :: 0 <= j < |recs| ==> Stamp(recs[j]) == Cursor(v.year, v.month, v.age, j, monthly)
    decreases Fuel(v, monthly)
  {
    if v.age <= v.stopAge {
      var o := StepOnce(v, rates, events, base, monthly, root12).value;
      RunUnfold(v, rates, events, base, monthly, root12, o);
      var rec := o.stepped.record;
      var st := o.stepped.vals;
      assert st.year == v.year && st.month == v.month && st.age == v.age;
      var recs := Run(v, rates, events, base, monthly, root12).value.records;
      CursorZero(v.year, v.month, v.age, monthly);
      if st.portfolio <= 0.0 {
        assert recs == [rec];
      } else {
        var w := Advanced(st, monthly);
        var rest := Run(w, o.rates, events, base, monthly, root12).value.records;
        assert recs == [rec] + rest;
        AdvancedMonth(st, monthly);
        RunCursor(w, o.rates, events, base, monthly, root12);
        CursorTail(st, rec, rest, monthly);
      }
    }
  }

  /** Zero steps of the cursor is the starting month and age. */
  lemma CursorZero(year: int, month: int, age: real, monthly: bool)
    requires 1 <= month <= 12
    ensures Cursor(year, month, age, 0, monthly) == (year, month, age)
  {
  }

  /** The stamps of a run after its first row, read off the cursor one step later. */
  lemma CursorTail(v: StateVals, rec: StepRecord, rest: seq<StepRecord>, monthly: bool)
    requires ValidMonth(YearMonth(v.year, v.month))
    requires Stamp(rec) == (v.year, v.month, v.age)
    requires var w := Advanced(v, monthly);
      forall j :: 0 <= j < |rest| ==> Stamp(rest[j]) == Cursor(w.year, w.month, w.age, j, monthly)
    ensures var recs := [rec] + rest;
      forall j :: 0 <= j < |recs| ==> Stamp(recs[j]) == Cursor(v.year, v.month, v.age, j, monthly)
  {
    var recs := [rec] + rest;
    CursorZero(v.year, v.month, v.age, monthly);
    forall j | 0 <= j < |recs|
      ensures Stamp(recs[j]) == Cursor(v.year, v.month, v.age, j, monthly)
    {
      if j > 0 {
        assert recs[j] == rest[j - 1];
        CursorShift(v, j - 1, monthly);
      }
    }
  }

  /**
   * A run has at most one row per step of the timeline, and exactly one per step
   * when the portfolio is never used up.
   */
  lemma {:induction false} RunLength(v: StateVals, rates: Rates, events: seq<Event>, base: Option<Amounts>,
                                     monthly: bool, root12: real -> real)
    requires Run(v, rates, events, base, monthly, root12).Success?
    ensures var recs := Run(v, rates, events, base, monthly, root12).value.records;
      && |recs| <= TimelineSteps(v.age, v.stopAge, monthly)
      && ((|recs| == 0 || recs[|recs| - 1].portfolioEnd > 0.0) ==> |recs| == TimelineSteps(v.age, v.stopAge, monthly))
    decreases Fuel(v, monthly)
  {
    if v.age <= v.stopAge {
      var o := StepOnce(v, rates, events, base, monthly, root12).value;
      RunUnfold(v, rates, events, base, monthly, root12, o);
      var rec := o.stepped.record;
      var recs := Run(v, rates, events, base, monthly, root12).value.records;
      FuelDecreases(o.stepped.vals, monthly);
      if o.stepped.vals.portfolio <= 0.0 {
        assert recs == [rec];
        assert rec.portfolioEnd <= 0.0;
      } else {
        var w := Advanced(o.stepped.vals, monthly);
        var rest := Run(w, o.rates, events, base, monthly, root12).value.records;
        assert recs == [rec] + rest;
        RunLength(w, o.rates, events, base, monthly, root12);
        assert Fuel(w, monthly) == Fuel(v, monthly) - 1;
        if |rest| > 0 {
          assert recs[|recs| - 1] == rest[|rest| - 1];
        }
      }
    } else {
      assert TimelineSteps(v.age, v.stopAge, monthly) == 0;
    }
  }

  // ---------------------------------------------------------------------------
  // The scenarios
  // ---------------------------------------------------------------------------

  /**
   * When an event of the first month sets expected_return, a scenario's own annual
   * return is overwritten before it is ever used: every scenario gives the same rows.
   */
  lemma ScenarioReturnErased(v: StateVals, x: real, y: real, events: seq<Event>, base: Option<Amounts>,
                             monthly: bool, root12: real -> real, j: nat)
    requires j < |events| && SetsReturn(events[j], YearMonth(v.year, v.month))
    ensures Scenario(v, x, events, base, monthly, root12) == Scenario(v, y, events, base, monthly, root12)
  {
    var today := YearMonth(v.year, v.month);
    ReturnOverwritten(v, x, today, events, base, j);
    ReturnOverwritten(v, y, today, events, base, j);
    var vx := v.(expReturn := x);
    var vy := v.(expReturn := y);
    var rx := StepFactors(x, v.inflation, monthly, root12);
    var ry := StepFactors(y, v.inflation, monthly, root12);
    var a := ApplyAll(v, today, events, base);
    if a.Success? {
      ApplyAllChanged(v, today, events, base);
      assert Touches(events[j], base);
    }
    var so := StepOnce(vx, rx, events, base, monthly, root12);
    assert so == StepOnce(vy, ry, events, base, monthly, root12);
    if v.age <= v.stopAge {
      if so.Success? {
        RunUnfold(vx, rx, events, base, monthly, root12, so.value);
        RunUnfold(vy, ry, events, base, monthly, root12, so.value);
      }
      assert Run(vx, rx, events, base, monthly, root12) == Run(vy, ry, events, base, monthly, root12);
    }
  }

  /**
   * simulate_retirement: when an event dated on the start month sets expected_return,
   * the min, expected and max scenarios are the same run.
   */
  lemma ScenariosCollapse(d: UserData, monthly: bool, root12: real -> real, j: nat)
    requires j < |d.lifeEvents| && SetsReturn(d.lifeEvents[j], d.startDate)
    requires Scenarios(d, monthly, root12).Success?
    ensures var s := Scenarios(d, monthly, root12).value; s.min == s.expected && s.expected == s.max
  {
    var events := SortBy(d.lifeEvents, DateKey);
    var v := InitialVals(d);
    assert d.lifeEvents[j] in multiset(events);
    var k :| 0 <= k < |events| && events[k] == d.lifeEvents[j];
    var f := ScenarioFor(v, events, d.baseAssumptions, monthly, root12);
    var annual := ScenarioReturns(v);
    var runs := MapAll(annual, f).value;
    assert f(annual[0]) == Success(runs[0]) && f(annual[1]) == Success(runs[1]) && f(annual[2]) == Success(runs[2]);
    ScenarioReturnErased(v, annual[0], annual[1], events, d.baseAssumptions, monthly, root12, k);
    ScenarioReturnErased(v, annual[1], annual[2], events, d.baseAssumptions, monthly, root12, k);
  }

  /** After normalization every event carries expected_return when the baseline assumptions do. */
  lemma NormalizedEventsSetReturn(d: UserData, j: nat)
    requires ExpectedReturn in d.assumptions && j < |d.lifeEvents|
    ensures var evs1 := NormalizedData(d).lifeEvents;
      && |evs1| == |d.lifeEvents|
      && evs1[j].date == d.lifeEvents[j].date
      && evs1[j].updatedAssumptions.Some?
      && ExpectedReturn in evs1[j].updatedAssumptions.value
  {
    NormalizedBaseline(d);
    NormalizedComplete(d);
    NormalizedDates(d);
    var evs1 := NormalizedData(d).lifeEvents;
    assert AssumptionOverrides(evs1)[j] == AssumptionOverride(evs1[j]);
  }

  /**
   * The two together: with expected_return among the baseline assumptions, any event
   * dated on the start month makes the three scenarios of the normalized data coincide.
   */
  lemma NormalizedScenariosCollapse(d: UserData, monthly: bool, root12: real -> real, j: nat)
    requires ExpectedReturn in d.assumptions
    requires j < |d.lifeEvents| && d.lifeEvents[j].date == Some(d.startDate)
    requires Scenarios(NormalizedData(d), monthly, root12).Success?
    ensures var s := Scenarios(NormalizedData(d), monthly, root12).value; s.min == s.expected && s.expected == s.max
  {
    NormalizedEventsSetReturn(d, j);
    NormalizedFrame(d);
    ScenariosCollapse(NormalizedData(d), monthly, root12, j);
  }
}
