/**
 * The entities the simulator works on: months on the calendar, life events with
 * their timing forms and override blocks, the spending policy, and the merged
 * user data. JSON dictionaries become records whose optional keys are Options.
 */
module Types {
  import opened Wrappers
  import opened Strings
  import opened Sums

  // ---------------------------------------------------------------------------
  // Calendar months
  // ---------------------------------------------------------------------------

  /** The first day of a month: datetime(year, month, 1). */
  datatype YearMonth = YearMonth(year: int, month: int)

  predicate ValidMonth(ym: YearMonth) {
    1 <= ym.month <= 12
  }

  /** Months since January of year 0. */
  function MonthIndex(ym: YearMonth): int {
    ym.year * 12 + (ym.month - 1)
  }

  /** The month with the given index; Python's // and % agree with Dafny's for divisor 12. */
  function FromMonthIndex(k: int): (ym: YearMonth)
    ensures ValidMonth(ym) && MonthIndex(ym) == k
  {
    YearMonth(k / 12, k % 12 + 1)
  }

  lemma MonthIndexInjective(a: YearMonth, b: YearMonth)
    requires ValidMonth(a) && ValidMonth(b)
    ensures MonthIndex(a) == MonthIndex(b) <==> a == b
  {
    if a.year < b.year {
      assert a.year * 12 + 12 <= b.year * 12;
    } else if b.year < a.year {
      assert b.year * 12 + 12 <= a.year * 12;
    }
  }

  lemma FromMonthIndexOfValid(ym: YearMonth)
    requires ValidMonth(ym)
    ensures FromMonthIndex(MonthIndex(ym)) == ym
  {
    MonthIndexInjective(FromMonthIndex(MonthIndex(ym)), ym);
  }

  /** start + relativedelta(months=k), for a first-of-month start. */
  function AddMonths(start: YearMonth, k: int): (ym: YearMonth)
    ensures ValidMonth(ym)
    ensures MonthIndex(ym) == MonthIndex(start) + k
  {
    FromMonthIndex(MonthIndex(start) + k)
  }

  // ---------------------------------------------------------------------------
  // date_str: "YYYY-MM-01"
  // ---------------------------------------------------------------------------

  /** f"{y:04d}-{m:02d}-01" */
  function DateStr(y: int, m: int): string {
    FormatInt(y, 4) + "-" + FormatInt(m, 2) + "-01"
  }

  /** Reads back the year and month of a string of the form DateStr produces. */
  function ParseDateStr(s: string): Option<YearMonth> {
    if |s| >= 7 && s[|s| - 3..] == "-01" && s[|s| - 6] == '-' then
      match (ParseInt(s[..|s| - 6]), ParseInt(s[|s| - 5..|s| - 3]))
      case (Some(y), Some(m)) => Some(YearMonth(y, m))
      case _ => None
    else None
  }

  lemma {:induction false} NatStrShort(n: nat)
    requires n < 100
    ensures |NatStr(n)| == if n < 10 then 1 else 2
  {
  }

  lemma MonthFieldWidth(m: int)
    requires 1 <= m <= 12
    ensures |FormatInt(m, 2)| == 2
  {
    NatStrShort(m);
  }

  lemma DateStrRoundTrip(y: int, m: int)
    requires 1 <= m <= 12
    ensures ParseDateStr(DateStr(y, m)) == Some(YearMonth(y, m))
  {
    var ys := FormatInt(y, 4);
    var ms := FormatInt(m, 2);
    var s := DateStr(y, m);
    MonthFieldWidth(m);
    assert s == ys + "-" + ms + "-01";
    assert s[|s| - 3..] == "-01";
    assert s[|s| - 6] == '-';
    assert s[..|s| - 6] == ys;
    assert s[|s| - 5..|s| - 3] == ms;
    FormatIntRoundTrip(y, 4);
    FormatIntRoundTrip(m, 2);
  }

  /**
   * Two date strings of valid months are equal exactly when the months are: comparing
   * an event's "date" with date_str(year, month) is comparing (year, month) pairs.
   */
  lemma DateStrInjective(a: YearMonth, b: YearMonth)
    requires ValidMonth(a) && ValidMonth(b)
    ensures DateStr(a.year, a.month) == DateStr(b.year, b.month) <==> a == b
  {
    DateStrRoundTrip(a.year, a.month);
    DateStrRoundTrip(b.year, b.month);
  }

  /** Past the year, a date string compares by its month field. */
  lemma MonthFieldLex(ma: string, mb: string)
    requires |ma| == |mb|
    ensures LexLess("-" + ma + "-01", "-" + mb + "-01") <==> LexLess(ma, mb)
  {
    assert "-" + ma + "-01" == "-" + (ma + "-01") && "-" + mb + "-01" == "-" + (mb + "-01");
    LexAppend("-", ma + "-01", "-", mb + "-01");
    LexAppend(ma, "-01", mb, "-01");
    LexIrreflexive("-");
    LexIrreflexive("-01");
  }

  /** Strings shaped like date strings, with digit fields, compare by year field, then by month field. */
  lemma DateFieldsLex(ya: string, ma: string, yb: string, mb: string)
    requires AllDigits(ya) && AllDigits(yb) && |ya| == |yb|
    requires AllDigits(ma) && AllDigits(mb) && |ma| == |mb|
    ensures LexLess(ya + ("-" + ma + "-01"), yb + ("-" + mb + "-01")) <==>
      DigitsValue(ya) < DigitsValue(yb) || (DigitsValue(ya) == DigitsValue(yb) && DigitsValue(ma) < DigitsValue(mb))
  {
    LexDigits(ya, yb);
    LexDigits(yb, ya);
    LexDigits(ma, mb);
    LexTrichotomy(ya, yb);
    MonthFieldLex(ma, mb);
    LexAppend(ya, "-" + ma + "-01", yb, "-" + mb + "-01");
  }

  /** Date strings compare by year, then by month. */
  lemma DateStrLex(a: YearMonth, b: YearMonth)
    requires ValidMonth(a) && ValidMonth(b)
    requires 0 <= a.year <= 9999 && 0 <= b.year <= 9999
    ensures LexLess(DateStr(a.year, a.month), DateStr(b.year, b.month)) <==>
      a.year < b.year || (a.year == b.year && a.month < b.month)
  {
    var ya, yb := FormatInt(a.year, 4), FormatInt(b.year, 4);
    var ma, mb := FormatInt(a.month, 2), FormatInt(b.month, 2);
    FormatIntFixed(a.year, 4);
    FormatIntFixed(b.year, 4);
    FormatIntFixed(a.month, 2);
    FormatIntFixed(b.month, 2);
    assert DateStr(a.year, a.month) == ya + ("-" + ma + "-01");
    assert DateStr(b.year, b.month) == yb + ("-" + mb + "-01");
    DateFieldsLex(ya, ma, yb, mb);
  }

  /**
   * For the years a date can have, sorting by date_str is sorting by month: the
   * string order of two date strings is the order of the months they name.
   */
  lemma DateStrOrder(a: YearMonth, b: YearMonth)
    requires ValidMonth(a) && ValidMonth(b)
    requires 0 <= a.year <= 9999 && 0 <= b.year <= 9999
    ensures LexLess(DateStr(a.year, a.month), DateStr(b.year, b.month)) <==> MonthIndex(a) < MonthIndex(b)
  {
    DateStrLex(a, b);
    if a.year < b.year {
      assert a.year * 12 + 12 <= b.year * 12;
    } else if b.year < a.year {
      assert b.year * 12 + 12 <= a.year * 12;
    }
  }

  // ---------------------------------------------------------------------------
  // Life events
  // ---------------------------------------------------------------------------

  /** offset: { from: <event name>, years: N, months: M } (missing numbers are 0). */
  datatype Offset = Offset(from: string, years: int, months: int)

  /** t: { year: N, month: M }, 1-based month from the start. */
  datatype TSpec = TSpec(year: int, month: int)

  /** The keys of expenses.spending_policy the engine reads. */
  datatype Policy = Policy(kind: Option<string>, capRate: Option<real>, priorityOrder: Option<seq<string>>)

  const EmptyPolicy := Policy(None, None, None)

  /** dict.update on a policy: every key the update carries replaces the old value. */
  function UpdatePolicy(p: Policy, q: Policy): (r: Policy)
    ensures r.kind == (if q.kind.Some? then q.kind else p.kind)
    ensures r.capRate == (if q.capRate.Some? then q.capRate else p.capRate)
    ensures r.priorityOrder == (if q.priorityOrder.Some? then q.priorityOrder else p.priorityOrder)
  {
    Policy(if q.kind.Some? then q.kind else p.kind,
           if q.capRate.Some? then q.capRate else p.capRate,
           if q.priorityOrder.Some? then q.priorityOrder else p.priorityOrder)
  }

  type Classification = map<string, string>

  /** An updated_expenses block; each key may be absent. */
  datatype ExpenseUpdate = ExpenseUpdate(
    breakdown: Option<Amounts>,
    totalTaxRate: Option<real>,
    classification: Option<Classification>,
    spendingPolicy: Option<Policy>)

  /** A portfolio breakdown: category -> sub-key -> amount. */
  type Nested = map<string, Amounts>

  datatype Event = Event(
    name: string,                        // "event" (the empty string when absent)
    offset: Option<Offset>,              // present when "offset" is an object
    tMonth: Option<int>,                 // "t_month"
    t: Option<TSpec>,                    // "t" when it is an object
    age: Option<real>,                   // "age"
    date: Option<YearMonth>,             // "date" as the month it names
    updatedIncome: Option<Amounts>,
    updatedExpenses: Option<ExpenseUpdate>,
    updatedPortfolio: Option<Nested>,    // updated_portfolio.breakdown
    updatedAssumptions: Option<Amounts>,
    resetToBase: bool)                   // reset: { assumptions: "base" }

  /** A bare event with a name and nothing else. */
  function NamedEvent(name: string): (e: Event)
    ensures e.name == name && e.offset.None? && e.tMonth.None? && !e.resetToBase
  {
    Event(name, None, None, None, None, None, None, None, None, None, false)
  }

  // ---------------------------------------------------------------------------
  // Merged user data
  // ---------------------------------------------------------------------------

  datatype Expenses = Expenses(
    breakdown: Amounts,
    totalTaxRate: Option<real>,
    classification: Classification,
    spendingPolicy: Policy)

  datatype UserData = UserData(
    currentAge: real,
    stopAge: Option<real>,
    startDate: YearMonth,
    income: Amounts,
    expenses: Expenses,
    portfolio: Nested,
    assumptions: Amounts,
    baseAssumptions: Option<Amounts>,    // "_base_assumptions"
    lifeEvents: seq<Event>)
}
