/**
 * The deterministic simulator: the mutable simulation state, the life events
 * applied on their month, the month-by-month timeline, one run of
 * simulate_retirement, and its min / expected / max scenarios.
 */
module Stepper {
  import opened Wrappers
  import opened Sums
  import opened Types
  import opened Cashflow
  import opened Sequences

  const ExpectedReturn := "expected_return"
  const Variance := "variance"
  const Inflation := "inflation"

  // ---------------------------------------------------------------------------
  // The simulation state
  // ---------------------------------------------------------------------------

  /** A snapshot of every field of SimState. */
  datatype StateVals = StateVals(
    year: int,
    month: int,
    age: real,
    stopAge: real,
    taxRate: real,
    income: Amounts,
    expenses: Amounts,                 // expenses_breakdown
    classification: Classification,   // expenses_classification
    policy: Policy,                    // spending_policy
    portfolio: real,
    expReturn: real,
    variance: real,
    inflation: real)

  /** a.get(k, default) on the assumptions block. */
  function Lookup(m: Amounts, k: string, default: real): real {
    if k in m then m[k] else default
  }

  /** build_initial_state: the state every scenario starts from. */
  function InitialVals(d: UserData): StateVals {
    StateVals(
      d.startDate.year, d.startDate.month, d.currentAge, d.stopAge.GetOr(100.0),
      d.expenses.totalTaxRate.GetOr(0.0),
      d.income, d.expenses.breakdown,
      SetDefaults(d.expenses.classification, d.expenses.breakdown.Keys, "fixed"),
      d.expenses.spendingPolicy,
      SumPortfolio(d.portfolio),
      Lookup(d.assumptions, ExpectedReturn, 0.06),
      Lookup(d.assumptions, Variance, 0.02),
      Lookup(d.assumptions, Inflation, 0.025))
  }

  // ---------------------------------------------------------------------------
  // apply_events_for_date, on values
  // ---------------------------------------------------------------------------

  /** assumption_reason: the last assignment of expected_return, if any. */
  datatype Reason = Undefined | UpdatedExpectedReturn(value: real) | ResetExpectedReturn(value: real)

  /** The one error apply_events_for_date raises. */
  datatype StepError = ResetWithoutBase

  /** What apply_events_for_date returns: the event label, whether an assumption changed, and why. */
  datatype Report = Report(eventLabel: string, changed: bool, reason: Reason)

  const NoEvents := Report("", false, Undefined)

  datatype Applied = Applied(vals: StateVals, report: Report)

  /** An event applies on the month whose first day is its date. */
  predicate Matches(ev: Event, today: YearMonth) {
    ev.date == Some(today)
  }

  /** The calendar fields. */
  function Clock(v: StateVals): (int, int, real, real) {
    (v.year, v.month, v.age, v.stopAge)
  }

  /** No event touches the calendar or the portfolio. */
  predicate Untimed(v: StateVals, w: StateVals) {
    Clock(w) == Clock(v) && w.portfolio == v.portfolio
  }

  /** The income and expense blocks of one event, each merged with dict.update. */
  function Overrides(v: StateVals, ev: Event): (r: StateVals)
    ensures Untimed(v, r)
    ensures r.income == if ev.updatedIncome.Some? then v.income + ev.updatedIncome.value else v.income
    ensures ev.updatedExpenses.None? ==> r.expenses == v.expenses
    ensures r.expReturn == v.expReturn
  {
    var v1 := if ev.updatedIncome.Some? then v.(income := v.income + ev.updatedIncome.value) else v;
    if ev.updatedExpenses.Some? then ExpenseUpdated(v1, ev.updatedExpenses.value) else v1
  }

  /** An updated_expenses block: breakdown, tax rate, classification and policy, where present. */
  function ExpenseUpdated(v: StateVals, ue: ExpenseUpdate): (r: StateVals)
    ensures Untimed(v, r)
    ensures r.income == v.income && r.expReturn == v.expReturn
    ensures r.expenses == if ue.breakdown.Some? then v.expenses + ue.breakdown.value else v.expenses
    ensures r.taxRate == if ue.totalTaxRate.Some? then ue.totalTaxRate.value else v.taxRate
    ensures r.classification ==
      if ue.classification.Some? then v.classification + ue.classification.value else v.classification
    ensures r.policy == if ue.spendingPolicy.Some? then UpdatePolicy(v.policy, ue.spendingPolicy.value) else v.policy
  {
    var v1 := if ue.breakdown.Some? then v.(expenses := v.expenses + ue.breakdown.value) else v;
    var v2 := if ue.totalTaxRate.Some? then v1.(taxRate := ue.totalTaxRate.value) else v1;
    var v3 := if ue.classification.Some? then v2.(classification := v2.classification + ue.classification.value)
              else v2;
    if ue.spendingPolicy.Some? then v3.(policy := UpdatePolicy(v3.policy, ue.spendingPolicy.value)) else v3
  }

  /** Does this assumptions block carry any of the three keys the simulator reads? */
  predicate HasAssumption(ua: Amounts) {
    ExpectedReturn in ua || Variance in ua || Inflation in ua
  }

  /**
   * Take expected_return, variance and inflation from ua where present: an event's
   * updated_assumptions, or the base assumptions on a reset.
   */
  function TakeAssumptions(a: Applied, ua: Amounts, fromBase: bool): (r: Applied)
    ensures r.vals == a.vals.(expReturn := r.vals.expReturn, variance := r.vals.variance, inflation := r.vals.inflation)
    ensures r.report.eventLabel == a.report.eventLabel
  {
    var v := a.vals;
    var reason :=
      if ExpectedReturn !in ua then a.report.reason
      else if fromBase then ResetExpectedReturn(ua[ExpectedReturn])
      else UpdatedExpectedReturn(ua[ExpectedReturn]);
    Applied(
      v.(expReturn := Lookup(ua, ExpectedReturn, v.expReturn),
         variance := Lookup(ua, Variance, v.variance),
         inflation := Lookup(ua, Inflation, v.inflation)),
      a.report.(changed := a.report.changed || HasAssumption(ua), reason := reason))
  }

  /** One matching event; a reset to base without base assumptions raises. */
  function ApplyEvent(a: Applied, ev: Event, base: Option<Amounts>): (r: Result<Applied, StepError>)
    ensures r.Success? ==> Untimed(a.vals, r.value.vals)
  {
    var a1 := Applied(Overrides(a.vals, ev), a.report);
    var a2 := if ev.updatedAssumptions.Some? then TakeAssumptions(a1, ev.updatedAssumptions.value, false) else a1;
    if ev.resetToBase && base.None? then Failure(ResetWithoutBase)
    else
      var a3 := if ev.resetToBase then TakeAssumptions(a2, base.value, true) else a2;
      Success(if a3.report.eventLabel == "" then a3.(report := a3.report.(eventLabel := ev.name)) else a3)
  }


  /** The events of evs in order, the matching ones applied and the others skipped. */
  function ApplyAll(v: StateVals, today: YearMonth, evs: seq<Event>, base: Option<Amounts>): (r: Result<Applied, StepError>)
    ensures r.Success? ==> Untimed(v, r.value.vals)
    decreases |evs|
  {
    if evs == [] then Success(Applied(v, NoEvents))
    else
      var a :- ApplyAll(v, today, evs[..|evs| - 1], base);
      var ev := evs[|evs| - 1];
      if Matches(ev, today) then ApplyEvent(a, ev, base) else Success(a)
  }

  /** The events of evs that fall on today, in order. */
  function Matching(evs: seq<Event>, today: YearMonth): (r: seq<Event>)
    ensures forall e :: e in r ==> e in evs && Matches(e, today)
    decreases |evs|
  {
    if evs == [] then []
    else
      var ev := evs[|evs| - 1];
      Matching(evs[..|evs| - 1], today) + (if Matches(ev, today) then [ev] else [])
  }

  // ---------------------------------------------------------------------------
  // The timeline
  // ---------------------------------------------------------------------------

  /** One step of timeline(): a month with wrap to 1..12, or a year. */
  function Advanced(v: StateVals, monthly: bool): StateVals {
    if monthly then
      v.(year := v.year + v.month / 12, month := v.month % 12 + 1, age := v.age + 1.0 / 12.0)
    else
      v.(year := v.year + 1, age := v.age + 1.0)
  }

  /** _cursor_from_step: the calendar month and age s steps after (year, month, age). */
  function Cursor(year: int, month: int, age: real, s: nat, monthly: bool): (int, int, real) {
    if monthly then
      (year + (month - 1 + s) / 12, (month - 1 + s) % 12 + 1, age + s as real / 12.0)
    else
      (year + s, month, age + s as real)
  }

  /** The number of steps timeline() yields from age start while age <= stop. */
  function TimelineSteps(start: real, stop: real, monthly: bool): nat {
    if stop < start then 0
    else ((stop - start) * (if monthly then 12.0 else 1.0)).Floor + 1
  }

  // ---------------------------------------------------------------------------
  // One step of simulate_retirement
  // ---------------------------------------------------------------------------

  /** The per-step return and inflation factors. */
  datatype Rates = Rates(r: real, i: real)

  /**
   * step_factors: the annual rates themselves for yearly steps; for monthly steps
   * root12 stands for x -> (1 + x) ** (1/12) - 1.
   */
  function StepFactors(expReturn: real, inflation: real, monthly: bool, root12: real -> real): Rates {
    if monthly then Rates(root12(expReturn), root12(inflation)) else Rates(expReturn, inflation)
  }

  /** One row of simulate_retirement's results (before rounding). */
  datatype StepRecord = StepRecord(
    year: int,
    month: int,
    age: real,
    portfolioEnd: real,
    expReturn: real,
    variance: real,
    inflation: real,
    returnFactor: real,
    inflationFactor: real,
    returnPct: real,          // return_step_pct, (r - 1) * 100 of the step rate r, as written
    monthlyIncome: real,
    taxedIncome: real,
    requestedRaw: real,
    requestedFixed: real,
    requestedDisc: real,
    rawExpenses: real,
    discSpend: real,
    withdrawalCap: real,
    fixedNeed: real,
    netExpense: real,
    grossUp: real,
    event: string,
    reason: Reason)

  /** The month and age a row was recorded at. */
  function Stamp(rec: StepRecord): (int, int, real) {
    (rec.year, rec.month, rec.age)
  }

  /** Every expense multiplied by f. */
  function Scaled(m: Amounts, f: real): (r: Amounts)
    ensures r.Keys == m.Keys
  {
    map k | k in m :: m[k] * f
  }

  datatype Stepped = Stepped(vals: StateVals, record: StepRecord)

  /**
   * The body of the loop after the events: the spending policy, the cashflows, the
   * portfolio update, the record, and the expenses drifted with inflation.
   */
  function Spend(v: StateVals, rep: Report, rates: Rates, monthly: bool): (r: Stepped)
    ensures Clock(r.vals) == Clock(v)
    ensures Stamp(r.record) == (v.year, v.month, v.age)
    ensures r.vals.portfolio == r.record.portfolioEnd >= 0.0
  {
    Settle(v, rep, rates, SpendingPolicy(v.expenses, v.classification, v.policy, v.portfolio, v.income, v.taxRate, monthly))
  }

  /** The portfolio after one step's return and withdrawal, floored at zero. */
  function Grown(portfolio: real, r: real, grossUp: real): (p: real)
    ensures p >= 0.0
    ensures p == 0.0 || p == portfolio * (1.0 + r) - grossUp
  {
    Max(0.0, portfolio * (1.0 + r) - grossUp)
  }

  /** Spend, once apply_spending_policy has answered pol. */
  function Settle(v: StateVals, rep: Report, rates: Rates, pol: PolicyOutcome): Stepped
  {
    var requestedTotal := SumValues(v.expenses);
    var requestedDisc := SumValues(Restrict(v.expenses, DiscKeys(v.expenses, v.classification)));
    var cf := ComputeCashflows(v.income, pol.effective, v.taxRate);
    var portfolio := Grown(v.portfolio, rates.r, cf.grossUp);
    var rec := Row(v, rep, rates, pol, cf, requestedTotal, requestedDisc, portfolio);
    Stepped(v.(portfolio := portfolio, expenses := Scaled(v.expenses, 1.0 + rates.i)), rec)
  }

  /** The result row: the step's month and age, the assumptions, and the amounts of the step. */
  function Row(v: StateVals, rep: Report, rates: Rates, pol: PolicyOutcome, cf: Cashflows,
               requestedTotal: real, requestedDisc: real, portfolio: real): (rec: StepRecord)
    ensures rec.portfolioEnd == portfolio
  {
    StepRecord(
      v.year, v.month, v.age, portfolio, v.expReturn, v.variance, v.inflation, rates.r, rates.i,
      (rates.r - 1.0) * 100.0, cf.monthlyIncome, cf.taxedIncome,
      requestedTotal, requestedTotal - requestedDisc, requestedDisc, cf.rawExpenses, pol.discSpend, pol.withdrawalCap, pol.fixedNeed, cf.netExpense, cf.grossUp,
      rep.eventLabel, rep.reason)
  }

  /** What is left of the timeline, as a termination measure. */
  function Fuel(v: StateVals, monthly: bool): nat {
    TimelineSteps(v.age, v.stopAge, monthly)
  }

  /** Each step of the timeline uses up exactly one of the steps left. */
  lemma FuelDecreases(v: StateVals, monthly: bool)
    requires v.age <= v.stopAge
    ensures Fuel(Advanced(v, monthly), monthly) == Fuel(v, monthly) - 1
  {
    var per := if monthly then 12.0 else 1.0;
    var w := Advanced(v, monthly);
    assert (v.stopAge - w.age) * per == (v.stopAge - v.age) * per - 1.0;
  }

  datatype StepOut = StepOut(stepped: Stepped, rates: Rates)

  /**
   * One pass of the loop body: the month's events, the factors refreshed when an
   * assumption changed, then the spending.
   */
  function StepOnce(v: StateVals, rates: Rates, events: seq<Event>, base: Option<Amounts>,
                    monthly: bool, root12: real -> real): (r: Result<StepOut, StepError>)
    ensures r.Success? ==> Clock(r.value.stepped.vals) == Clock(v)
    ensures r.Success? ==> Stamp(r.value.stepped.record) == (v.year, v.month, v.age)
  {
    var a :- ApplyAll(v, YearMonth(v.year, v.month), events, base);
    var rates' := if a.report.changed then StepFactors(a.vals.expReturn, a.vals.inflation, monthly, root12)
                  else rates;
    Success(StepOut(Spend(a.vals, a.report, rates', monthly), rates'))
  }

  datatype RunOut = RunOut(records: seq<StepRecord>, final: StateVals)

  /**
   * The loop of simulate_retirement for one scenario: while age <= stop_age, one
   * pass of the body, stopping once the portfolio is used up.
   */
  function Run(v: StateVals, rates: Rates, events: seq<Event>, base: Option<Amounts>,
               monthly: bool, root12: real -> real): Result<RunOut, StepError>
    decreases Fuel(v, monthly)
  {
    if v.age > v.stopAge then Success(RunOut([], v))
    else
      var o :- StepOnce(v, rates, events, base, monthly, root12);
      var st := o.stepped;
      if st.vals.portfolio <= 0.0 then Success(RunOut([st.record], st.vals))
      else
        FuelDecreases(st.vals, monthly);
        var rest :- Run(Advanced(st.vals, monthly), o.rates, events, base, monthly, root12);
        Success(RunOut([st.record] + rest.records, rest.final))
  }

  /** records + the records of r, keeping r's error. */
  function Prepend(records: seq<StepRecord>, r: Result<RunOut, StepError>): Result<RunOut, StepError> {
    match r
    case Success(o) => Success(RunOut(records + o.records, o.final))
    case Failure(e) => Failure(e)
  }

  /** Run, one pass of the loop body at a time. */
  lemma RunUnfold(v: StateVals, rates: Rates, events: seq<Event>, base: Option<Amounts>,
                  monthly: bool, root12: real -> real, o: StepOut)
    requires v.age <= v.stopAge
    requires StepOnce(v, rates, events, base, monthly, root12) == Success(o)
    ensures o.stepped.vals.portfolio <= 0.0 ==>
      Run(v, rates, events, base, monthly, root12) == Success(RunOut([o.stepped.record], o.stepped.vals))
    ensures o.stepped.vals.portfolio > 0.0 ==>
      && Fuel(Advanced(o.stepped.vals, monthly), monthly) < Fuel(v, monthly)
      && Run(v, rates, events, base, monthly, root12)
         == Prepend([o.stepped.record], Run(Advanced(o.stepped.vals, monthly), o.rates, events, base, monthly, root12))
  {
    FuelDecreases(o.stepped.vals, monthly);
  }

  lemma PrependNil(r: Result<RunOut, StepError>)
    ensures Prepend([], r) == r
  {
    if r.Success? {
      assert [] + r.value.records == r.value.records;
    }
  }

  lemma PrependTwice(a: seq<StepRecord>, b: seq<StepRecord>, r: Result<RunOut, StepError>)
    ensures Prepend(a, Prepend(b, r)) == Prepend(a + b, r)
  {
    if r.Success? {
      assert a + (b + r.value.records) == (a + b) + r.value.records;
    }
  }

  // ---------------------------------------------------------------------------
  // simulate_retirement
  // ---------------------------------------------------------------------------

  /** Events sort by their date; after loading every event carries one. */
  function DateKey(e: Event): int {
    if e.date.Some? then MonthIndex(e.date.value) else 0
  }

  /** The three scenarios, by annual return. */
  datatype Sims = Sims(min: seq<StepRecord>, expected: seq<StepRecord>, max: seq<StepRecord>)

  /** One scenario: the initial state with its own expected return, and the factors it gives. */
  function Scenario(v: StateVals, expReturn: real, events: seq<Event>, base: Option<Amounts>,
                    monthly: bool, root12: real -> real): Result<seq<StepRecord>, StepError>
  {
    var out :- Run(v.(expReturn := expReturn), StepFactors(expReturn, v.inflation, monthly, root12),
                   events, base, monthly, root12);
    Success(out.records)
  }

  /** simulate_retirement: the min, expected and max scenarios, expected return -/+ variance. */
  function Scenarios(d: UserData, monthly: bool, root12: real -> real): Result<Sims, StepError> {
    ScenariosFrom(InitialVals(d), SortBy(d.lifeEvents, DateKey), d.baseAssumptions, monthly, root12)
  }

  /** The annual return of each scenario, in the order simulate_retirement runs them. */
  function ScenarioReturns(v: StateVals): seq<real> {
    [v.expReturn - v.variance, v.expReturn, v.expReturn + v.variance]
  }

  /** The scenario run for each annual return. */
  function ScenarioFor(v: StateVals, events: seq<Event>, base: Option<Amounts>, monthly: bool, root12: real -> real)
    : real -> Result<seq<StepRecord>, StepError>
  {
    x => Scenario(v, x, events, base, monthly, root12)
  }

  /** The three runs in order; the first that raises ends the call. */
  function ScenariosFrom(v: StateVals, events: seq<Event>, base: Option<Amounts>, monthly: bool, root12: real -> real)
    : Result<Sims, StepError>
  {
    var runs :- MapAll(ScenarioReturns(v), ScenarioFor(v, events, base, monthly, root12));
    Success(Sims(runs[0], runs[1], runs[2]))
  }

  // ---------------------------------------------------------------------------
  // The mutable state and its methods
  // ---------------------------------------------------------------------------

  /** for k in m: m[k] *= f */
  method Inflate(m: Amounts, f: real) returns (r: Amounts)
    ensures r == Scaled(m, f)
  {
    r := m;
    var todo := m.Keys;
    while todo != {}
      invariant todo <= m.Keys && r.Keys == m.Keys
      invariant forall k :: k in r ==> r[k] == if k in todo then m[k] else m[k] * f
      decreases |todo|
    {
      var k :| k in todo;
      r := r[k := r[k] * f];
      todo := todo - {k};
    }
    assert forall k :: k in r ==> r[k] == Scaled(m, f)[k];
  }

  /** classification.setdefault(k, "fixed") for every expense key. */
  method DefaultFixed(cls: Classification, keys: set<string>) returns (r: Classification)
    ensures r == SetDefaults(cls, keys, "fixed")
  {
    r := cls;
    var todo := keys;
    while todo != {}
      invariant todo <= keys
      invariant r.Keys == cls.Keys + (keys - todo)
      invariant forall k :: k in r ==> r[k] == if k in cls then cls[k] else "fixed"
      decreases |todo|
    {
      var k :| k in todo;
      if k !in r {
        r := r[k := "fixed"];
      }
      todo := todo - {k};
    }
  }

  class SimState {
    var year: int
    var month: int
    var age: real
    var stopAge: real
    var taxRate: real
    var income: Amounts
    var expenses: Amounts
    var classification: Classification
    var policy: Policy
    var portfolio: real
    var expReturn: real
    var variance: real
    var inflation: real

    function Snapshot(): StateVals
      reads this
    {
      StateVals(year, month, age, stopAge, taxRate, income, expenses, classification, policy,
                portfolio, expReturn, variance, inflation)
    }

    /** build_initial_state */
    constructor (d: UserData)
      ensures Snapshot() == InitialVals(d)
    {
      year := d.startDate.year;
      month := d.startDate.month;
      age := d.currentAge;
      stopAge := d.stopAge.GetOr(100.0);
      taxRate := d.expenses.totalTaxRate.GetOr(0.0);
      income := d.income;
      expenses := d.expenses.breakdown;
      var cls := DefaultFixed(d.expenses.classification, d.expenses.breakdown.Keys);
      classification := cls;
      policy := d.expenses.spendingPolicy;
      portfolio := SumPortfolio(d.portfolio);
      expReturn := Lookup(d.assumptions, ExpectedReturn, 0.06);
      variance := Lookup(d.assumptions, Variance, 0.02);
      inflation := Lookup(d.assumptions, Inflation, 0.025);
    }

    /** deepcopy(state_base) */
    constructor Copy(v: StateVals)
      ensures Snapshot() == v
    {
      year, month, age, stopAge, taxRate := v.year, v.month, v.age, v.stopAge, v.taxRate;
      income, expenses, classification, policy := v.income, v.expenses, v.classification, v.policy;
      portfolio, expReturn, variance, inflation := v.portfolio, v.expReturn, v.variance, v.inflation;
    }

    method TakeOverrides(ev: Event)
      modifies this
      ensures Snapshot() == Overrides(old(Snapshot()), ev)
    {
      if ev.updatedIncome.Some? {
        income := income + ev.updatedIncome.value;
      }
      if ev.updatedExpenses.Some? {
        TakeExpenseUpdate(ev.updatedExpenses.value);
      }
    }

    method TakeExpenseUpdate(ue: ExpenseUpdate)
      modifies this
      ensures Snapshot() == ExpenseUpdated(old(Snapshot()), ue)
    {
      ghost var v := Snapshot();
      if ue.breakdown.Some? {
        expenses := expenses + ue.breakdown.value;
      }
      ghost var v1 := Snapshot();
      if ue.totalTaxRate.Some? {
        taxRate := ue.totalTaxRate.value;
      }
      ghost var v2 := Snapshot();
      if ue.classification.Some? {
        classification := classification + ue.classification.value;
      }
      ghost var v3 := Snapshot();
      if ue.spendingPolicy.Some? {
        policy := UpdatePolicy(policy, ue.spendingPolicy.value);
      }
    }

    method TakeAssumptionsFrom(ua: Amounts, fromBase: bool, rep: Report) returns (rep': Report)
      modifies this
      ensures Applied(Snapshot(), rep') == TakeAssumptions(Applied(old(Snapshot()), rep), ua, fromBase)
    {
      rep' := rep;
      if ExpectedReturn in ua {
        expReturn := ua[ExpectedReturn];
        rep' := rep'.(changed := true,
                      reason := if fromBase then ResetExpectedReturn(expReturn) else UpdatedExpectedReturn(expReturn));
      }
      if Variance in ua {
        rep' := rep'.(changed := true);
        variance := ua[Variance];
      }
      if Inflation in ua {
        inflation := ua[Inflation];
        rep' := rep'.(changed := true);
      }
    }

    /** apply_events_for_date */
    method ApplyEventsForDate(events: seq<Event>, base: Option<Amounts>) returns (r: Result<Report, StepError>)
      modifies this
      ensures var spec := ApplyAll(old(Snapshot()), YearMonth(old(year), old(month)), events, base);
        && (r.Failure? <==> spec.Failure?)
        && (spec.Failure? ==> r.error == spec.error)
        && (spec.Success? ==> r.value == spec.value.report && Snapshot() == spec.value.vals)
    {
      ghost var v0 := Snapshot();
      var today := YearMonth(year, month);
      var rep := NoEvents;
      var i := 0;
      while i < |events|
        invariant 0 <= i <= |events|
        invariant ApplyAll(v0, today, events[..i], base) == Success(Applied(Snapshot(), rep))
      {
        var ev := events[i];
        assert events[..i + 1][..i] == events[..i];
        if ev.date == Some(today) {
          ghost var a := Applied(Snapshot(), rep);
          TakeOverrides(ev);
          if ev.updatedAssumptions.Some? {
            rep := TakeAssumptionsFrom(ev.updatedAssumptions.value, false, rep);
          }
          if ev.resetToBase {
            if base.None? {
              FailureExtends(v0, today, events, base, i + 1);
              return Failure(ResetWithoutBase);
            }
            rep := TakeAssumptionsFrom(base.value, true, rep);
          }
          if rep.eventLabel == "" {
            rep := rep.(eventLabel := ev.name);
          }
          assert ApplyEvent(a, ev, base) == Success(Applied(Snapshot(), rep));
        }
        i := i + 1;
      }
      assert events[..|events|] == events;
      return Success(rep);
    }

    /** One step of timeline() after the yield. */
    method Advance(monthly: bool)
      modifies this
      ensures Snapshot() == Advanced(old(Snapshot()), monthly)
    {
      if monthly {
        var zeroBasedNext := (month - 1) + 1;
        year := year + zeroBasedNext / 12;
        month := zeroBasedNext % 12 + 1;
        age := age + 1.0 / 12.0;
      } else {
        year := year + 1;
        age := age + 1.0;
      }
    }

    /** mc_core sets the month and age from the step index before each step. */
    method MoveTo(y: int, m: int, a: real)
      modifies this
      ensures Snapshot() == old(Snapshot()).(year := y, month := m, age := a)
    {
      year, month, age := y, m, a;
    }

    /** The body of simulate_retirement's loop after the events. */
    method SpendStep(rep: Report, rates: Rates, monthly: bool) returns (rec: StepRecord)
      modifies this
      ensures Stepped(Snapshot(), rec) == Spend(old(Snapshot()), rep, rates, monthly)
    {
      var v := Snapshot();
      var pol := ApplySpendingPolicy(v.expenses, v.classification, v.policy, v.portfolio, v.income, v.taxRate, monthly);
      rec := SettleStep(rep, rates, pol);
    }

    /** The cashflows, the portfolio update, the record and the drift, once the policy has answered. */
    method SettleStep(rep: Report, rates: Rates, pol: PolicyOutcome) returns (rec: StepRecord)
      modifies this
      ensures Stepped(Snapshot(), rec) == Settle(old(Snapshot()), rep, rates, pol)
    {
      var v := Snapshot();
      var requestedTotal := SumValues(v.expenses);
      var requestedDisc := SumValues(Restrict(v.expenses, DiscKeys(v.expenses, v.classification)));
      var cf := ComputeCashflows(v.income, pol.effective, v.taxRate);
      portfolio := Grown(v.portfolio, rates.r, cf.grossUp);
      rec := Row(v, rep, rates, pol, cf, requestedTotal, requestedDisc, portfolio);
      expenses := Inflate(v.expenses, 1.0 + rates.i);
    }

    /** One pass of simulate_retirement's loop body. */
    method StepMonth(rates: Rates, events: seq<Event>, base: Option<Amounts>, monthly: bool, root12: real -> real)
      returns (r: Result<(StepRecord, Rates), StepError>)
      modifies this
      ensures var spec := StepOnce(old(Snapshot()), rates, events, base, monthly, root12);
        && (r.Failure? <==> spec.Failure?)
        && (spec.Failure? ==> r.error == spec.error)
        && (spec.Success? ==> r.value == (spec.value.stepped.record, spec.value.rates)
                              && Snapshot() == spec.value.stepped.vals)
    {
      var ev := ApplyEventsForDate(events, base);
      if ev.Failure? {
        return Failure(ev.error);
      }
      var rep := ev.value;
      var rates' := rates;
      if rep.changed {
        rates' := StepFactors(expReturn, inflation, monthly, root12);
      }
      var rec := SpendStep(rep, rates', monthly);
      return Success((rec, rates'));
    }

    /** The timeline loop of simulate_retirement for one scenario. */
    method RunTimeline(rates0: Rates, events: seq<Event>, base: Option<Amounts>, monthly: bool, root12: real -> real)
      returns (r: Result<seq<StepRecord>, StepError>)
      modifies this
      ensures var spec := Run(old(Snapshot()), rates0, events, base, monthly, root12);
        && (r.Failure? <==> spec.Failure?)
        && (spec.Failure? ==> r.error == spec.error)
        && (spec.Success? ==> r.value == spec.value.records && Snapshot() == spec.value.final)
    {
      ghost var v0 := Snapshot();
      var rates := rates0;
      var records: seq<StepRecord> := [];
      PrependNil(Run(v0, rates0, events, base, monthly, root12));
      while age <= stopAge
        invariant Run(v0, rates0, events, base, monthly, root12)
                  == Prepend(records, Run(Snapshot(), rates, events, base, monthly, root12))
        decreases Fuel(Snapshot(), monthly)
      {
        ghost var vb := Snapshot();
        ghost var ratesB := rates;
        var o := StepMonth(rates, events, base, monthly, root12);
        if o.Failure? {
          return Failure(o.error);
        }
        var rec := o.value.0;
        rates := o.value.1;
        RunUnfold(vb, ratesB, events, base, monthly, root12, StepOnce(vb, ratesB, events, base, monthly, root12).value);
        records := records + [rec];
        if portfolio <= 0.0 {
          break;
        }
        Advance(monthly);
        PrependTwice(records[..|records| - 1], [rec], Run(Snapshot(), rates, events, base, monthly, root12));
        assert records[..|records| - 1] + [rec] == records;
      }
      return Success(records);
    }
  }

  /** A failure among the first n events is the failure of them all. */
  lemma {:induction false} FailureExtends(v: StateVals, today: YearMonth, evs: seq<Event>, base: Option<Amounts>, n: nat)
    requires n <= |evs|
    requires ApplyAll(v, today, evs[..n], base).Failure?
    ensures ApplyAll(v, today, evs, base) == ApplyAll(v, today, evs[..n], base)
    decreases |evs| - n
  {
    if n < |evs| {
      assert evs[..n + 1][..n] == evs[..n];
      FailureExtends(v, today, evs, base, n + 1);
    } else {
      assert evs[..n] == evs;
    }
  }

  /** One scenario on a fresh copy of the base state. */
  method RunScenario(v: StateVals, expReturn: real, events: seq<Event>, base: Option<Amounts>,
                     monthly: bool, root12: real -> real) returns (r: Result<seq<StepRecord>, StepError>)
    ensures r == Scenario(v, expReturn, events, base, monthly, root12)
  {
    var state := new SimState.Copy(v);
    state.expReturn := expReturn;
    var rates := StepFactors(state.expReturn, state.inflation, monthly, root12);
    r := state.RunTimeline(rates, events, base, monthly, root12);
  }

  /** simulate_retirement */
  method SimulateRetirement(d: UserData, monthly: bool, root12: real -> real) returns (r: Result<Sims, StepError>)
    ensures r == Scenarios(d, monthly, root12)
  {
    var events := SortBy(d.lifeEvents, DateKey);
    var stateBase := new SimState(d);
    var v := stateBase.Snapshot();
    r := RunScenarios(v, events, d.baseAssumptions, monthly, root12);
  }

  method RunScenarios(v: StateVals, events: seq<Event>, base: Option<Amounts>, monthly: bool, root12: real -> real)
    returns (r: Result<Sims, StepError>)
    ensures r == ScenariosFrom(v, events, base, monthly, root12)
  {
    var annual := ScenarioReturns(v);
    ghost var f := ScenarioFor(v, events, base, monthly, root12);
    var runs: seq<seq<StepRecord>> := [];
    for i := 0 to |annual|
      invariant MapAll(annual[..i], f) == Success(runs)
    {
      var run := RunScenario(v, annual[i], events, base, monthly, root12);
      MapAllStep(annual, f, i, runs);
      if run.Failure? {
        FailureOfPrefix(annual, f, i + 1);
        return Failure(run.error);
      }
      runs := runs + [run.value];
    }
    assert annual[..|annual|] == annual;
    return Success(Sims(runs[0], runs[1], runs[2]));
  }
}
