/**
 * mc_core, the Monte Carlo engine behind run_monte_carlo and run_monte_carlo_force:
 * every trial walks the same timeline as simulate_retirement, with the month and
 * age computed from the step index, the life events applied at every step, and the
 * per-step return drawn by an injected sampler. A depleted trial records 0 for the
 * rest of its path and counts as a failure. The forced-shock sampler of
 * run_monte_carlo_force replaces the draw on the months its crash map lists.
 */
module MonteCarlo {
  import opened Wrappers
  import opened Sums
  import opened Types
  import opened Strings
  import opened Sequences
  import opened Cashflow
  import opened Stepper
  import opened Runs

  // ---------------------------------------------------------------------------
  // One trial
  // ---------------------------------------------------------------------------

  /**
   * sampler(state, y, m, base_r, base_i, step_div, rng): the return of one step. The
   * trial and the step index stand in for the position of the random generator.
   */
  type Sampler = (StateVals, int, int, Rates, nat, nat) -> real

  /** What stays the same across the trials of one call. */
  datatype McConfig = McConfig(
    events: seq<Event>,
    base: Option<Amounts>,
    monthly: bool,
    root12: real -> real,
    sampler: Option<Sampler>,
    start: StateVals)

  /** A trial's state between steps: the simulator state, the base factors and the depleted flag. */
  datatype McState = McState(vals: StateVals, rates: Rates, depleted: bool)

  /** The state with its month and age set from the cursor. */
  function Clocked(v: StateVals, c: (int, int, real)): StateVals {
    v.(year := c.0, month := c.1, age := c.2)
  }

  /** _cursor_from_step(s), from the month and age the trials start at. */
  function StepAt(cfg: McConfig, s: nat): (int, int, real) {
    Cursor(cfg.start.year, cfg.start.month, cfg.start.age, s, cfg.monthly)
  }

  /** The sampler's draw, or the base return when there is no sampler. */
  function StepReturn(cfg: McConfig, v: StateVals, c: (int, int, real), rates: Rates, t: nat, s: nat): real {
    match cfg.sampler
    case Some(f) => f(v, c.0, c.1, rates, t, s)
    case None => rates.r
  }

  /**
   * Step s of trial t: the clock from the cursor, the events of that month (even
   * after depletion), the factors refreshed when an assumption changed, then, unless
   * the trial is already depleted, the drawn return, the spending and the inflation
   * drift.
   */
  function McStep(cfg: McConfig, t: nat, st: McState, s: nat): (r: Result<McState, StepError>)
    ensures r.Success? && st.depleted ==> r.value.depleted && r.value.vals.portfolio == st.vals.portfolio
    ensures r.Success? && !st.depleted ==>
      r.value.vals.portfolio >= 0.0 && (r.value.depleted <==> r.value.vals.portfolio <= 0.0)
  {
    var c := StepAt(cfg, s);
    var a :- ApplyAll(Clocked(st.vals, c), YearMonth(c.0, c.1), cfg.events, cfg.base);
    var rates := if a.report.changed then StepFactors(a.vals.expReturn, a.vals.inflation, cfg.monthly, cfg.root12)
                 else st.rates;
    if st.depleted then Success(McState(a.vals, rates, true))
    else
      var vals := Spend(a.vals, a.report, Rates(StepReturn(cfg, a.vals, c, rates, t, s), rates.i), cfg.monthly).vals;
      Success(McState(vals, rates, vals.portfolio <= 0.0))
  }

  /** paths[t, s]: the portfolio, or 0 once the trial is depleted. */
  function PathValue(st: McState): real {
    if st.depleted then 0.0 else st.vals.portfolio
  }

  datatype TrialOut = TrialOut(state: McState, path: seq<real>)

  /** Steps s to n - 1 of trial t from state st. */
  function TrialFrom(cfg: McConfig, t: nat, st: McState, s: nat, n: nat): Result<TrialOut, StepError>
    decreases n - s
  {
    if s >= n then Success(TrialOut(st, []))
    else
      var st' :- McStep(cfg, t, st, s);
      var rest :- TrialFrom(cfg, t, st', s + 1, n);
      Success(TrialOut(rest.state, [PathValue(st')] + rest.path))
  }

  /** A deep copy of the initial state, with the base factors of its assumptions. */
  function TrialStart(cfg: McConfig): McState {
    McState(cfg.start, StepFactors(cfg.start.expReturn, cfg.start.inflation, cfg.monthly, cfg.root12), false)
  }

  /** Trial t over n steps. */
  function Trial(cfg: McConfig, t: nat, n: nat): Result<TrialOut, StepError> {
    TrialFrom(cfg, t, TrialStart(cfg), 0, n)
  }

  /** path + the path of r, keeping r's error. */
  function PrependPath(path: seq<real>, r: Result<TrialOut, StepError>): Result<TrialOut, StepError> {
    match r
    case Success(o) => Success(TrialOut(o.state, path + o.path))
    case Failure(e) => Failure(e)
  }

  /** TrialFrom, one step at a time. */
  lemma TrialUnfold(cfg: McConfig, t: nat, st: McState, s: nat, n: nat)
    requires s < n
    ensures var m := McStep(cfg, t, st, s);
      && (m.Failure? ==> TrialFrom(cfg, t, st, s, n) == Failure(m.error))
      && (m.Success? ==> TrialFrom(cfg, t, st, s, n)
                         == PrependPath([PathValue(m.value)], TrialFrom(cfg, t, m.value, s + 1, n)))
  {
  }

  lemma PrependPathNil(r: Result<TrialOut, StepError>)
    ensures PrependPath([], r) == r
  {
    if r.Success? {
      assert [] + r.value.path == r.value.path;
    }
  }

  lemma PrependPathTwice(a: seq<real>, b: seq<real>, r: Result<TrialOut, StepError>)
    ensures PrependPath(a, PrependPath(b, r)) == PrependPath(a + b, r)
  {
    if r.Success? {
      assert a + (b + r.value.path) == (a + b) + r.value.path;
    }
  }

  // ---------------------------------------------------------------------------
  // What a trial promises
  // ---------------------------------------------------------------------------

  /** A depleted trial holds a portfolio of exactly zero. */
  predicate McInv(st: McState) {
    st.depleted ==> st.vals.portfolio == 0.0
  }

  /** A step keeps McInv, and its path value is zero exactly when the trial is depleted. */
  lemma McStepKeeps(cfg: McConfig, t: nat, st: McState, s: nat)
    requires McInv(st) && McStep(cfg, t, st, s).Success?
    ensures var st' := McStep(cfg, t, st, s).value;
      && McInv(st')
      && (st.depleted ==> st'.depleted)
      && PathValue(st') >= 0.0
      && (PathValue(st') == 0.0 <==> st'.depleted)
      && PathValue(st') == st'.vals.portfolio
  {
  }

  /** The properties of a path, kept when a step is put in front of it. */
  predicate PathShape(first: McState, out: TrialOut) {
    && McInv(out.state)
    && (forall i :: 0 <= i < |out.path| ==> out.path[i] >= 0.0)
    && (forall i, j :: 0 <= i <= j < |out.path| && out.path[i] == 0.0 ==> out.path[j] == 0.0)
    && (first.depleted ==> out.state.depleted && forall i :: 0 <= i < |out.path| ==> out.path[i] == 0.0)
    && (out.state.depleted <==> first.depleted || (|out.path| > 0 && out.path[|out.path| - 1] == 0.0))
    && (|out.path| > 0 ==> out.state.vals.portfolio == out.path[|out.path| - 1])
    && (|out.path| == 0 ==> out.state == first)
  }

  lemma PathShapeCons(st: McState, st': McState, rest: TrialOut)
    requires McInv(st) && McInv(st') && (st.depleted ==> st'.depleted)
    requires PathValue(st') >= 0.0 && (PathValue(st') == 0.0 <==> st'.depleted)
    requires PathValue(st') == st'.vals.portfolio
    requires PathShape(st', rest)
    ensures PathShape(st, TrialOut(rest.state, [PathValue(st')] + rest.path))
  {
    var path := [PathValue(st')] + rest.path;
    forall i | 1 <= i < |path|
      ensures path[i] == rest.path[i - 1]
    {
    }
    if |rest.path| > 0 {
      assert path[|path| - 1] == rest.path[|rest.path| - 1];
    }
  }

  /** Steps s to n - 1 of a trial, by induction on the steps left. */
  lemma {:induction false} TrialFromShape(cfg: McConfig, t: nat, st: McState, s: nat, n: nat)
    requires McInv(st) && s <= n
    requires TrialFrom(cfg, t, st, s, n).Success?
    ensures var out := TrialFrom(cfg, t, st, s, n).value; |out.path| == n - s && PathShape(st, out)
    decreases n - s
  {
    if s < n {
      TrialUnfold(cfg, t, st, s, n);
      var st' := McStep(cfg, t, st, s).value;
      McStepKeeps(cfg, t, st, s);
      TrialFromShape(cfg, t, st', s + 1, n);
      PathShapeCons(st, st', TrialFrom(cfg, t, st', s + 1, n).value);
    }
  }

  /** One trial's row of paths, terminal_values and failure_flags. */
  datatype TrialResult = TrialResult(path: seq<real>, terminal: real, failed: bool)

  function ResultOf(out: TrialOut): TrialResult {
    TrialResult(out.path, out.state.vals.portfolio, out.state.depleted)
  }

  /**
   * A trial over n steps: n path values, none negative; once a value is 0 every later
   * one is; the trial failed exactly when its last value is 0; its terminal value is
   * its last path value, and 0 when it failed.
   */
  predicate TrialShape(r: TrialResult, n: nat) {
    && |r.path| == n
    && (forall i :: 0 <= i < n ==> r.path[i] >= 0.0)
    && (forall i, j :: 0 <= i <= j < n && r.path[i] == 0.0 ==> r.path[j] == 0.0)
    && (r.failed <==> n > 0 && r.path[n - 1] == 0.0)
    && (n > 0 ==> r.terminal == r.path[n - 1])
    && (r.failed ==> r.terminal == 0.0)
  }

  lemma TrialOutcome(cfg: McConfig, t: nat, n: nat)
    requires Trial(cfg, t, n).Success?
    ensures TrialShape(ResultOf(Trial(cfg, t, n).value), n)
  {
    TrialFromShape(cfg, t, TrialStart(cfg), 0, n);
  }

  // ---------------------------------------------------------------------------
  // All trials and the summary
  // ---------------------------------------------------------------------------

  /** Trial t as the row mc_core stores for it. */
  function TrialRow(cfg: McConfig, t: nat, n: nat): Result<TrialResult, StepError> {
    var out :- Trial(cfg, t, n);
    Success(ResultOf(out))
  }

  function TrialRows(cfg: McConfig, n: nat): nat -> Result<TrialResult, StepError> {
    (t: nat) => TrialRow(cfg, t, n)
  }

  /** 0, 1, ..., k - 1 */
  function Range(k: nat): (r: seq<nat>)
    ensures |r| == k && forall i :: 0 <= i < k ==> r[i] == i
  {
    seq(k, i requires 0 <= i => i)
  }

  /** Trials 0 to k - 1, in order; the first trial that raises ends the call. */
  function Trials(cfg: McConfig, k: nat, n: nat): Result<seq<TrialResult>, StepError> {
    MapAll(Range(k), TrialRows(cfg, n))
  }

  /** Each entry of Trials is the trial of its own index: trials share nothing but the sampler. */
  lemma TrialsEach(cfg: McConfig, k: nat, n: nat)
    requires Trials(cfg, k, n).Success?
    ensures var rs := Trials(cfg, k, n).value;
      |rs| == k && forall t :: 0 <= t < k ==> Trial(cfg, t, n).Success? && rs[t] == ResultOf(Trial(cfg, t, n).value)
  {
    var rs := Trials(cfg, k, n).value;
    forall t | 0 <= t < k
      ensures Trial(cfg, t, n).Success? && rs[t] == ResultOf(Trial(cfg, t, n).value)
    {
      assert TrialRows(cfg, n)(Range(k)[t]) == Success(rs[t]);
    }
  }

  /** The summary mc_core returns, without the median and percentiles. */
  datatype McSummary = McSummary(
    successRate: Option<real>,
    terminal: seq<real>,
    failed: seq<bool>,
    paths: seq<seq<real>>,
    trials: nat,
    monthly: bool)

  function FailedCount(flags: seq<bool>): (c: nat)
    ensures c <= |flags|
  {
    if flags == [] then 0 else FailedCount(flags[..|flags| - 1]) + (if flags[|flags| - 1] then 1 else 0)
  }

  /** 1 - failure_flags.mean(); NumPy's mean of no trials is NaN, here None. */
  function SuccessRate(flags: seq<bool>): Option<real> {
    if |flags| == 0 then None else Some(1.0 - FailedCount(flags) as real / |flags| as real)
  }

  /** The success rate is the fraction of trials that never ran out of money. */
  lemma SuccessRateFraction(flags: seq<bool>)
    requires |flags| > 0
    ensures var x := SuccessRate(flags).value;
      && 0.0 <= x <= 1.0
      && x == (|flags| as real - FailedCount(flags) as real) / |flags| as real
      && (x == 1.0 <==> FailedCount(flags) == 0)
  {
    Fraction(FailedCount(flags) as real, |flags| as real);
  }

  /** 1 - f/n for 0 <= f <= n is the fraction (n - f)/n: it lies in [0, 1] and is 1 only for f = 0. */
  lemma Fraction(f: real, n: real)
    requires 0.0 <= f <= n && n > 0.0
    ensures 0.0 <= 1.0 - f / n <= 1.0
    ensures 1.0 - f / n == (n - f) / n
    ensures 1.0 - f / n == 1.0 <==> f == 0.0
  {
    var q := f / n;
    assert q * n == f;
    assert q <= 1.0 by {
      if q > 1.0 {
        assert false;
      }
    }
    var p := (n - f) / n;
    assert p * n == n - f;
    assert (1.0 - q) * n == n - f;
    var gap := p - (1.0 - q);
    assert gap * n == 0.0;
    if gap > 0.0 {
      assert false;
    } else if gap < 0.0 {
      assert false;
    }
  }

  function Summarize(rs: seq<TrialResult>, monthly: bool): McSummary {
    var failed := seq(|rs|, i requires 0 <= i < |rs| => rs[i].failed);
    McSummary(
      SuccessRate(failed),
      seq(|rs|, i requires 0 <= i < |rs| => rs[i].terminal),
      failed,
      seq(|rs|, i requires 0 <= i < |rs| => rs[i].path),
      |rs|,
      monthly)
  }

  /** Python's round(): to the nearest integer, ties to the even one. */
  function RoundHalfEven(x: real): int {
    var f := x.Floor;
    var frac := x - f as real;
    if frac < 0.5 then f
    else if frac > 0.5 then f + 1
    else if f % 2 == 0 then f else f + 1
  }

  /** steps_total as mc_core writes it: int(round((stop_age - start_age) * per_year)) + 1. */
  function StepsTotalAsWritten(start: real, stop: real, monthly: bool): int {
    RoundHalfEven((stop - start) * (if monthly then 12.0 else 1.0)) + 1
  }

  /**
   * Rounding instead of counting: from age 60 to a stop age of 60.05 the timeline has
   * one month (the next one is at 60 + 1/12 > 60.05), but mc_core runs two; with a
   * stop age of 59.99, already passed, the timeline has none and mc_core still runs one.
   */
  lemma StepsTotalOvershoots()
    ensures StepsTotalAsWritten(60.0, 60.05, true) == 2
    ensures TimelineSteps(60.0, 60.05, true) == 1
    ensures Cursor(2030, 1, 60.0, 1, true).2 > 60.05
    ensures StepsTotalAsWritten(60.0, 59.99, true) == 1
    ensures TimelineSteps(60.0, 59.99, true) == 0
  {
    assert (60.05 - 60.0) * 12.0 == 0.6;
    assert (0.6).Floor == 0;
    assert (59.99 - 60.0) * 12.0 == -0.12;
    assert (-0.12).Floor == -1;
  }

  /**
   * The count the model uses instead: step s is run exactly when its age, start_age +
   * s / per_year, is at most stop_age, the condition of simulate_retirement's loop.
   */
  lemma StepsTotalCounts(y: int, m: int, start: real, stop: real, monthly: bool, s: nat)
    ensures s < TimelineSteps(start, stop, monthly) <==> Cursor(y, m, start, s, monthly).2 <= stop
  {
    var per := if monthly then 12.0 else 1.0;
    var age := Cursor(y, m, start, s, monthly).2;
    assert age == start + s as real / per;
    if stop >= start {
      var x := (stop - start) * per;
      assert s <= x.Floor <==> s as real <= x;
      assert s as real <= x <==> s as real / per <= stop - start;
    }
  }

  /** Where the span is a whole number of steps the two counts agree. */
  lemma StepsTotalAgreesOnWholeSteps(start: real, stop: real, monthly: bool, k: nat)
    requires (stop - start) * (if monthly then 12.0 else 1.0) == k as real
    ensures StepsTotalAsWritten(start, stop, monthly) == TimelineSteps(start, stop, monthly)
  {
    assert (k as real).Floor == k;
  }

  /** The number of steps of every trial: as many as the deterministic timeline has. */
  function StepsTotal(v: StateVals, monthly: bool): nat {
    TimelineSteps(v.age, v.stopAge, monthly)
  }

  function McConfigOf(d: UserData, monthly: bool, root12: real -> real, sampler: Option<Sampler>): McConfig {
    McConfig(SortBy(d.lifeEvents, DateKey), d.baseAssumptions, monthly, root12, sampler, InitialVals(d))
  }

  /** mc_core(user_data, trials, granularity, sampler, collect_paths=True). */
  function McResult(d: UserData, trials: nat, monthly: bool, root12: real -> real, sampler: Option<Sampler>)
    : Result<McSummary, StepError>
  {
    var cfg := McConfigOf(d, monthly, root12, sampler);
    var rs :- Trials(cfg, trials, StepsTotal(cfg.start, monthly));
    Success(Summarize(rs, monthly))
  }

  /** Every trial mc_core runs has the shape TrialShape states. */
  lemma TrialsShape(cfg: McConfig, k: nat, n: nat)
    requires Trials(cfg, k, n).Success?
    ensures var rs := Trials(cfg, k, n).value; |rs| == k && forall t :: 0 <= t < k ==> TrialShape(rs[t], n)
  {
    TrialsEach(cfg, k, n);
    forall t | 0 <= t < k
      ensures TrialShape(Trials(cfg, k, n).value[t], n)
    {
      TrialOutcome(cfg, t, n);
    }
  }

  /**
   * The summary of n-step trials: one path, one terminal value and one failure flag per
   * trial, each path n long and never negative, a trial failing exactly when its path
   * ends at 0, the terminal value being the last path value, and the success rate being
   * the fraction of trials that did not fail.
   */
  lemma SummaryOutcome(rs: seq<TrialResult>, n: nat, monthly: bool)
    requires forall t :: 0 <= t < |rs| ==> TrialShape(rs[t], n)
    ensures var sum := Summarize(rs, monthly); var trials := |rs|;
      && sum.trials == trials && |sum.paths| == trials && |sum.terminal| == trials && |sum.failed| == trials
      && (forall t :: 0 <= t < trials ==> |sum.paths[t]| == n)
      && (forall t, s :: 0 <= t < trials && 0 <= s < |sum.paths[t]| ==> sum.paths[t][s] >= 0.0)
      && (forall t :: 0 <= t < trials ==> (sum.failed[t] <==> n > 0 && sum.paths[t][n - 1] == 0.0))
      && (forall t :: 0 <= t < trials && n > 0 ==> sum.terminal[t] == sum.paths[t][n - 1])
      && (trials > 0 ==> sum.successRate.Some?
                         && sum.successRate.value == (trials as real - FailedCount(sum.failed) as real) / trials as real)
  {
    var sum := Summarize(rs, monthly);
    if |rs| > 0 {
      SuccessRateFraction(sum.failed);
    }
  }

  // ---------------------------------------------------------------------------
  // mc_core against simulate_retirement
  // ---------------------------------------------------------------------------

  /** One step of the timeline from the cursor of step s lands on the cursor of step s + 1. */
  lemma AdvancedCursor(cfg: McConfig, v: StateVals, s: nat)
    requires ValidMonth(YearMonth(cfg.start.year, cfg.start.month))
    requires (v.year, v.month, v.age) == StepAt(cfg, s)
    ensures Advanced(v, cfg.monthly) == Clocked(v, StepAt(cfg, s + 1))
  {
    if cfg.monthly {
      var k := cfg.start.month - 1 + s;
      assert v.month == k % 12 + 1;
      if k % 12 == 11 {
        assert (k + 1) / 12 == k / 12 + 1 && (k + 1) % 12 == 0;
      } else {
        assert (k + 1) / 12 == k / 12 && (k + 1) % 12 == k % 12 + 1;
      }
    }
  }

  /**
   * Without a sampler, a live step of mc_core from the state the timeline reaches is
   * the step simulate_retirement takes there, and its path value is the row's
   * portfolio_end.
   */
  lemma McStepMatchesStepOnce(cfg: McConfig, t: nat, x: StateVals, q: Rates, s: nat)
    requires cfg.sampler.None?
    requires StepOnce(Clocked(x, StepAt(cfg, s)), q, cfg.events, cfg.base, cfg.monthly, cfg.root12).Success?
    ensures var o := StepOnce(Clocked(x, StepAt(cfg, s)), q, cfg.events, cfg.base, cfg.monthly, cfg.root12).value;
      var st := McState(o.stepped.vals, o.rates, o.stepped.vals.portfolio <= 0.0);
      && McStep(cfg, t, McState(x, q, false), s) == Success(st)
      && PathValue(st) == o.stepped.record.portfolioEnd
  {
    var c := StepAt(cfg, s);
    var w := Clocked(x, c);
    assert YearMonth(c.0, c.1) == YearMonth(w.year, w.month);
    var a := ApplyAll(w, YearMonth(w.year, w.month), cfg.events, cfg.base).value;
    var rates := if a.report.changed then StepFactors(a.vals.expReturn, a.vals.inflation, cfg.monthly, cfg.root12)
                 else q;
    assert Rates(StepReturn(cfg, a.vals, c, rates, t, s), rates.i) == rates;
  }

  /** The path values of a live trial are the portfolio_end of the timeline's rows, step by step. */
  lemma {:induction false} TrialFollowsRun(cfg: McConfig, t: nat, x: StateVals, q: Rates, s: nat, n: nat)
    requires cfg.sampler.None? && ValidMonth(YearMonth(cfg.start.year, cfg.start.month)) && s <= n
    requires Run(Clocked(x, StepAt(cfg, s)), q, cfg.events, cfg.base, cfg.monthly, cfg.root12).Success?
    requires TrialFrom(cfg, t, McState(x, q, false), s, n).Success?
    ensures Follows(TrialFrom(cfg, t, McState(x, q, false), s, n).value.path,
                    Run(Clocked(x, StepAt(cfg, s)), q, cfg.events, cfg.base, cfg.monthly, cfg.root12).value.records)
    decreases n - s
  {
    var w := Clocked(x, StepAt(cfg, s));
    if s < n && w.age <= w.stopAge {
      var o := StepOnce(w, q, cfg.events, cfg.base, cfg.monthly, cfg.root12).value;
      RunUnfold(w, q, cfg.events, cfg.base, cfg.monthly, cfg.root12, o);
      McStepMatchesStepOnce(cfg, t, x, q, s);
      var st := McState(o.stepped.vals, o.rates, o.stepped.vals.portfolio <= 0.0);
      TrialUnfold(cfg, t, McState(x, q, false), s, n);
      var rest := TrialFrom(cfg, t, st, s + 1, n).value.path;
      var path := TrialFrom(cfg, t, McState(x, q, false), s, n).value.path;
      assert path == [PathValue(st)] + rest;
      var recs := Run(w, q, cfg.events, cfg.base, cfg.monthly, cfg.root12).value.records;
      if o.stepped.vals.portfolio <= 0.0 {
        assert recs == [o.stepped.record] + [];
        FollowCons(PathValue(st), rest, o.stepped.record, []);
      } else {
        var v := o.stepped.vals;
        AdvancedCursor(cfg, v, s);
        var recs' := Run(Advanced(v, cfg.monthly), o.rates, cfg.events, cfg.base, cfg.monthly, cfg.root12).value.records;
        assert recs == [o.stepped.record] + recs';
        TrialFollowsRun(cfg, t, v, o.rates, s + 1, n);
        FollowCons(PathValue(st), rest, o.stepped.record, recs');
      }
    }
  }

  /** The path repeats portfolio_end of the rows as far as both go. */
  predicate Follows(path: seq<real>, recs: seq<StepRecord>) {
    forall j :: 0 <= j < |recs| && j < |path| ==> path[j] == recs[j].portfolioEnd
  }

  /** A matching first value in front of matching tails. */
  lemma FollowCons(pv: real, rest: seq<real>, rec: StepRecord, recs': seq<StepRecord>)
    requires pv == rec.portfolioEnd && Follows(rest, recs')
    ensures Follows([pv] + rest, [rec] + recs')
  {
    var path := [pv] + rest;
    var recs := [rec] + recs';
    forall j | 0 <= j < |recs| && j < |path|
      ensures path[j] == recs[j].portfolioEnd
    {
      if j > 0 {
        assert recs[j] == recs'[j - 1] && path[j] == rest[j - 1];
      }
    }
  }

  /**
   * mc_core without a sampler follows simulate_retirement's expected scenario: every
   * trial's path repeats the portfolio_end column of that run, then stays at 0.
   */
  lemma TrialMatchesExpectedRun(d: UserData, t: nat, monthly: bool, root12: real -> real)
    requires ValidMonth(d.startDate)
    requires var cfg := McConfigOf(d, monthly, root12, None);
      Trial(cfg, t, StepsTotal(cfg.start, monthly)).Success?
    requires var v := InitialVals(d);
      Scenario(v, v.expReturn, SortBy(d.lifeEvents, DateKey), d.baseAssumptions, monthly, root12).Success?
    ensures var cfg := McConfigOf(d, monthly, root12, None);
      var v := InitialVals(d);
      var path := Trial(cfg, t, StepsTotal(v, monthly)).value.path;
      var recs := Scenario(v, v.expReturn, SortBy(d.lifeEvents, DateKey), d.baseAssumptions, monthly, root12).value;
      && |recs| <= |path|
      && (forall j :: 0 <= j < |recs| ==> path[j] == recs[j].portfolioEnd)
      && (forall j :: |recs| <= j < |path| ==> path[j] == 0.0)
  {
    var cfg := McConfigOf(d, monthly, root12, None);
    var v := cfg.start;
    var n := StepsTotal(v, monthly);
    var q := StepFactors(v.expReturn, v.inflation, monthly, root12);
    CursorZero(v.year, v.month, v.age, monthly);
    assert Clocked(v, StepAt(cfg, 0)) == v;
    assert v.(expReturn := v.expReturn) == v;
    var recs := Run(v, q, cfg.events, cfg.base, monthly, root12).value.records;
    RunLength(v, q, cfg.events, cfg.base, monthly, root12);
    RunPortfolio(v, q, cfg.events, cfg.base, monthly, root12);
    TrialFollowsRun(cfg, t, v, q, 0, n);
    TrialOutcome(cfg, t, n);
    var path := Trial(cfg, t, n).value.path;
    if 0 < |recs| < n {
      assert recs[|recs| - 1].portfolioEnd <= 0.0;
      assert path[|recs| - 1] == 0.0;
    }
  }

  // ---------------------------------------------------------------------------
  // The loops of mc_core
  // ---------------------------------------------------------------------------

  /** The body of mc_core's step loop, on the trial's state object. */
  method McStepState(cfg: McConfig, t: nat, state: SimState, rates: Rates, depleted: bool, s: nat)
    returns (r: Result<(Rates, bool), StepError>)
    modifies state
    ensures var spec := McStep(cfg, t, McState(old(state.Snapshot()), rates, depleted), s);
      && (r.Failure? <==> spec.Failure?)
      && (spec.Failure? ==> r.error == spec.error)
      && (spec.Success? ==> spec.value == McState(state.Snapshot(), r.value.0, r.value.1))
  {
    var c := StepAt(cfg, s);
    state.MoveTo(c.0, c.1, c.2);
    var ev := state.ApplyEventsForDate(cfg.events, cfg.base);
    if ev.Failure? {
      return Failure(ev.error);
    }
    var rep := ev.value;
    var rates' := rates;
    if rep.changed {
      rates' := StepFactors(state.expReturn, state.inflation, cfg.monthly, cfg.root12);
    }
    if depleted {
      return Success((rates', true));
    }
    var stepR := StepReturn(cfg, state.Snapshot(), c, rates', t, s);
    var _ := state.SpendStep(rep, Rates(stepR, rates'.i), cfg.monthly);
    return Success((rates', state.portfolio <= 0.0));
  }

  /** One pass of mc_core's trial loop: a fresh copy of the initial state stepped n times. */
  method RunTrial(cfg: McConfig, t: nat, n: nat) returns (r: Result<TrialResult, StepError>)
    ensures var spec := Trial(cfg, t, n);
      && (r.Failure? <==> spec.Failure?)
      && (spec.Failure? ==> r.error == spec.error)
      && (spec.Success? ==> r.value == ResultOf(spec.value))
  {
    var state := new SimState.Copy(cfg.start);
    var rates := StepFactors(cfg.start.expReturn, cfg.start.inflation, cfg.monthly, cfg.root12);
    var depleted := false;
    var path: seq<real> := [];
    PrependPathNil(Trial(cfg, t, n));
    for s := 0 to n
      invariant Trial(cfg, t, n) == PrependPath(path, TrialFrom(cfg, t, McState(state.Snapshot(), rates, depleted), s, n))
    {
      ghost var st := McState(state.Snapshot(), rates, depleted);
      TrialUnfold(cfg, t, st, s, n);
      var o := McStepState(cfg, t, state, rates, depleted, s);
      if o.Failure? {
        return Failure(o.error);
      }
      rates, depleted := o.value.0, o.value.1;
      var value := if depleted then 0.0 else state.portfolio;
      PrependPathTwice(path, [value], TrialFrom(cfg, t, McState(state.Snapshot(), rates, depleted), s + 1, n));
      path := path + [value];
    }
    return Success(TrialResult(path, state.portfolio, depleted));
  }

  /** mc_core's trial loop: trials 0 to k - 1 of n steps each. */
  method RunTrials(cfg: McConfig, k: nat, n: nat) returns (r: Result<seq<TrialResult>, StepError>)
    ensures r == Trials(cfg, k, n)
  {
    ghost var f := TrialRows(cfg, n);
    var all := Range(k);
    var results: seq<TrialResult> := [];
    for t := 0 to k
      invariant MapAll(all[..t], f) == Success(results)
    {
      var o := RunTrial(cfg, t, n);
      MapAllStep(all, f, t, results);
      if o.Failure? {
        FailureOfPrefix(all, f, t + 1);
        return Failure(o.error);
      }
      results := results + [o.value];
    }
    assert all[..k] == all;
    return Success(results);
  }

  /** mc_core: the sorted events, the initial state, the trials, then the summary. */
  method McCore(d: UserData, trials: nat, monthly: bool, root12: real -> real, sampler: Option<Sampler>)
    returns (r: Result<McSummary, StepError>)
    ensures r == McResult(d, trials, monthly, root12, sampler)
  {
    var events := SortBy(d.lifeEvents, DateKey);
    var baseState := new SimState(d);
    var v0 := baseState.Snapshot();
    var cfg := McConfig(events, d.baseAssumptions, monthly, root12, sampler, v0);
    var rs := RunTrials(cfg, trials, TimelineSteps(v0.age, v0.stopAge, monthly));
    if rs.Failure? {
      return Failure(rs.error);
    }
    return Success(Summarize(rs.value, monthly));
  }

  // ---------------------------------------------------------------------------
  // run_monte_carlo_force
  // ---------------------------------------------------------------------------

  /** A forced market event: {"date" | "ym", "shock_return" | "drop_pct"}. */
  datatype ForcedEvent = ForcedEvent(
    date: Option<string>,
    ym: Option<string>,
    shockReturn: Option<real>,
    dropPct: Option<real>)

  /** _to_ym: the first seven characters of the date, else the "ym" entry. */
  function ToYm(ev: ForcedEvent): string {
    var d := ev.date.GetOr("");
    if |d| >= 7 then d[..7] else ev.ym.GetOr("")
  }

  /** The forced return of an event: shock_return if given, else a drop of |drop_pct|. */
  function ForcedReturn(ev: ForcedEvent): (r: Option<real>)
    ensures r.Some? <==> ev.shockReturn.Some? || ev.dropPct.Some?
    ensures ev.shockReturn.Some? ==> r == ev.shockReturn
    ensures ev.shockReturn.None? && ev.dropPct.Some? ==>
      r.value <= 0.0 && (r.value == ev.dropPct.value || r.value == -ev.dropPct.value)
  {
    if ev.shockReturn.Some? then ev.shockReturn
    else if ev.dropPct.Some? then Some(-(if ev.dropPct.value < 0.0 then -ev.dropPct.value else ev.dropPct.value))
    else None
  }

  /** Whether an event forces the month key ym. */
  predicate Forces(ev: ForcedEvent, ym: string) {
    ym != "" && ToYm(ev) == ym && ForcedReturn(ev).Some?
  }

  /** crash_map, built over the events in order. */
  function CrashMap(evs: seq<ForcedEvent>): map<string, real> {
    if evs == [] then map[]
    else
      var m := CrashMap(evs[..|evs| - 1]);
      var ev := evs[|evs| - 1];
      if ToYm(ev) == "" || ForcedReturn(ev).None? then m else m[ToYm(ev) := ForcedReturn(ev).value]
  }

  /** The loop that fills crash_map. */
  method BuildCrashMap(evs: seq<ForcedEvent>) returns (m: map<string, real>)
    ensures m == CrashMap(evs)
  {
    m := map[];
    for i := 0 to |evs|
      invariant m == CrashMap(evs[..i])
    {
      var ev := evs[i];
      assert evs[..i + 1][..i] == evs[..i];
      var ym := ToYm(ev);
      if ym == "" {
        continue;
      }
      if ev.shockReturn.Some? {
        m := m[ym := ev.shockReturn.value];
      } else if ev.dropPct.Some? {
        var drop := ev.dropPct.value;
        m := m[ym := -(if drop < 0.0 then -drop else drop)];
      }
    }
    assert evs[..|evs|] == evs;
  }

  /**
   * A month is in crash_map exactly when some event forces it, and its entry is the
   * return of the last event that does.
   */
  lemma {:induction false} CrashMapLastWins(evs: seq<ForcedEvent>, ym: string)
    ensures ym in CrashMap(evs) <==> exists i :: 0 <= i < |evs| && Forces(evs[i], ym)
    ensures forall i :: 0 <= i < |evs| && Forces(evs[i], ym) && (forall j :: i < j < |evs| ==> !Forces(evs[j], ym))
                        ==> ym in CrashMap(evs) && CrashMap(evs)[ym] == ForcedReturn(evs[i]).value
    decreases |evs|
  {
    if evs != [] {
      var init := evs[..|evs| - 1];
      var last := |evs| - 1;
      CrashMapLastWins(init, ym);
      assert forall i :: 0 <= i < last ==> init[i] == evs[i];
      if Forces(evs[last], ym) {
        assert ym in CrashMap(evs) && CrashMap(evs)[ym] == ForcedReturn(evs[last]).value;
      } else {
        var ev := evs[last];
        if ToYm(ev) == "" || ForcedReturn(ev).None? {
          assert CrashMap(evs) == CrashMap(init);
        } else {
          assert ToYm(ev) != ym;
          assert CrashMap(evs) == CrashMap(init)[ToYm(ev) := ForcedReturn(ev).value];
        }
      }
    }
  }

  /** f"{int(y):04d}-{int(m):02d}" */
  function YmKey(y: int, m: int): string {
    FormatInt(y, 4) + "-" + FormatInt(m, 2)
  }

  /** The sampler of run_monte_carlo_force: the forced return on a listed month, else the normal draw. */
  function ForcedSampler(crash: map<string, real>, normal: Sampler): Sampler {
    (v: StateVals, y: int, m: int, rates: Rates, t: nat, s: nat) =>
      if YmKey(y, m) in crash then crash[YmKey(y, m)] else normal(v, y, m, rates, t, s)
  }

  lemma NatStrThree(n: nat)
    requires n < 1000
    ensures |NatStr(n)| <= 3
  {
    if n >= 10 {
      NatStrShort(n / 10);
    }
  }

  /** A year from 0 to 9999 is written with exactly four digits. */
  lemma YearFieldWidth(y: int)
    requires 0 <= y < 10000
    ensures |FormatInt(y, 4)| == 4
  {
    if y >= 10 {
      NatStrThree(y / 10);
    }
  }

  /** An event dated "YYYY-MM-DD" on a month forces the key the sampler looks that month up by. */
  lemma DatedEventKey(ev: ForcedEvent, ym: YearMonth, rest: string)
    requires ValidMonth(ym) && 0 <= ym.year < 10000
    requires ev.date == Some(FormatInt(ym.year, 4) + "-" + FormatInt(ym.month, 2) + rest)
    ensures ToYm(ev) == YmKey(ym.year, ym.month)
  {
    YearFieldWidth(ym.year);
    MonthFieldWidth(ym.month);
  }

  /**
   * run_monte_carlo_force: on a month named by the date of the last event that forces
   * it, the step return is that event's forced return, whatever the normal draw.
   */
  lemma ForcedMonthReturn(evs: seq<ForcedEvent>, i: nat, ym: YearMonth, rest: string, normal: Sampler,
                          v: StateVals, rates: Rates, t: nat, s: nat)
    requires ValidMonth(ym) && 0 <= ym.year < 10000
    requires i < |evs| && evs[i].date == Some(FormatInt(ym.year, 4) + "-" + FormatInt(ym.month, 2) + rest)
    requires ForcedReturn(evs[i]).Some?
    requires forall j :: i < j < |evs| ==> !Forces(evs[j], YmKey(ym.year, ym.month))
    ensures ForcedSampler(CrashMap(evs), normal)(v, ym.year, ym.month, rates, t, s) == ForcedReturn(evs[i]).value
  {
    DatedEventKey(evs[i], ym, rest);
    CrashMapLastWins(evs, YmKey(ym.year, ym.month));
  }

  /**
   * run_monte_carlo_force up to the summary: the forced events given, else the user's
   * forced_market_events, turned into crash_map, and mc_core with the forced sampler.
   */
  method RunMonteCarloForce(d: UserData, trials: nat, monthly: bool, root12: real -> real,
                            forced: Option<seq<ForcedEvent>>, userForced: seq<ForcedEvent>, normal: Sampler)
    returns (r: Result<McSummary, StepError>)
    ensures r == McResult(d, trials, monthly, root12,
                          Some(ForcedSampler(CrashMap(forced.GetOr(userForced)), normal)))
  {
    var evs := if forced.Some? then forced.value else userForced;
    var crash := BuildCrashMap(evs);
    r := McCore(d, trials, monthly, root12, Some(ForcedSampler(crash, normal)));
  }
}
