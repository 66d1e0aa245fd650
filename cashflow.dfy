/**
 * One step's money: the portfolio total, the tax gross-up that turns a net expense
 * into a pre-tax withdrawal, and the spending policy that caps withdrawals by
 * rationing discretionary expenses.
 */
module Cashflow {
  import opened Wrappers
  import opened Strings
  import opened Sums
  import opened Types

  function Max(a: real, b: real): real {
    if a >= b then a else b
  }

  function Min(a: real, b: real): real {
    if a <= b then a else b
  }

  // ---------------------------------------------------------------------------
  // sum_portfolio, apply_tax_rate
  // ---------------------------------------------------------------------------

  /** The per-category totals of a portfolio breakdown. */
  function CategoryTotals(p: Nested): (r: Amounts)
    ensures r.Keys == p.Keys && forall cat :: cat in p ==> r[cat] == SumValues(p[cat])
  {
    map cat | cat in p :: SumValues(p[cat])
  }

  /** sum_portfolio: every amount of every category, added up. */
  function SumPortfolio(p: Nested): real {
    SumValues(CategoryTotals(p))
  }

  /** A portfolio of non-negative amounts has a non-negative total. */
  lemma SumPortfolioNonNegative(p: Nested)
    requires forall cat, k :: cat in p && k in p[cat] ==> p[cat][k] >= 0.0
    ensures SumPortfolio(p) >= 0.0
  {
    forall cat | cat in p
      ensures CategoryTotals(p)[cat] >= 0.0
    {
      SumNonNegative(p[cat]);
    }
    SumNonNegative(CategoryTotals(p));
  }

  /** Replacing one category's amounts changes the total by the change in that category's sum. */
  lemma SumPortfolioUpdate(p: Nested, cat: string, sub: Amounts)
    ensures SumPortfolio(p[cat := sub])
         == SumPortfolio(p) - (if cat in p then SumValues(p[cat]) else 0.0) + SumValues(sub)
  {
    var t := CategoryTotals(p);
    assert CategoryTotals(p[cat := sub]) == t[cat := SumValues(sub)];
    if cat in p {
      SumUpdate(t, cat, SumValues(sub));
    } else {
      SumInsert(t, cat, SumValues(sub));
    }
  }

  /** apply_tax_rate: the pre-tax amount that leaves value after tax; no gross-up at 100% tax or more. */
  function ApplyTaxRate(value: real, tax: real): real {
    if tax < 1.0 then value / (1.0 - tax) else value
  }

  /** What remains of the gross-up after tax is the value; it is never less than a non-negative value. */
  lemma ApplyTaxRateSpec(value: real, tax: real)
    ensures tax < 1.0 ==> ApplyTaxRate(value, tax) * (1.0 - tax) == value
    ensures tax >= 1.0 ==> ApplyTaxRate(value, tax) == value
    ensures 0.0 <= tax < 1.0 && value >= 0.0 ==> ApplyTaxRate(value, tax) >= value
    ensures value >= 0.0 ==> ApplyTaxRate(value, tax) >= 0.0
  {
    if tax < 1.0 {
      var d := 1.0 - tax;
      var r := value / d;
      assert r * d == value;
      if value >= 0.0 && r < 0.0 {
        PositiveProduct(-r, d);
      }
      GrossUpAtLeast(value, tax);
    }
  }

  lemma PositiveProduct(x: real, d: real)
    requires d > 0.0 && x > 0.0
    ensures x * d > 0.0
  {
  }

  /** Dividing x * d <= 0 by a positive d. */
  lemma DivideOut(x: real, d: real)
    requires d > 0.0 && x * d <= 0.0
    ensures x <= 0.0
  {
    if x > 0.0 {
      PositiveProduct(x, d);
    }
  }

  lemma GrossUpAtLeast(value: real, tax: real)
    requires tax < 1.0
    ensures 0.0 <= tax && value >= 0.0 ==> value / (1.0 - tax) >= value
  {
    if 0.0 <= tax && value >= 0.0 {
      var d := 1.0 - tax;
      var r := value / d;
      assert r * d == value;
      if r < 0.0 {
        PositiveProduct(-r, d);
      }
      assert r - value == r * tax;
      if tax > 0.0 && r > 0.0 {
        PositiveProduct(r, tax);
      }
    }
  }

  // ---------------------------------------------------------------------------
  // compute_cashflows
  // ---------------------------------------------------------------------------

  datatype Cashflows = Cashflows(
    monthlyIncome: real,
    rawExpenses: real,
    taxedIncome: real,
    netExpense: real,
    grossUp: real)

  /** compute_cashflows once the income and the expenses are summed. */
  function CashflowsOf(monthlyIncome: real, rawExpenses: real, tax: real): Cashflows {
    var taxed := monthlyIncome * (1.0 - tax);
    var net := rawExpenses - taxed;
    Cashflows(monthlyIncome, rawExpenses, taxed, net, ApplyTaxRate(Max(net, 0.0), tax))
  }

  /** compute_cashflows: income, raw expenses, income after tax, the net expense and its gross-up. */
  function ComputeCashflows(income: Amounts, expenses: Amounts, tax: real): Cashflows {
    CashflowsOf(SumValues(income), SumValues(expenses), tax)
  }

  /**
   * Income after tax is set against the expenses; a shortfall is grossed up into the
   * withdrawal that covers it after tax, and a surplus needs no withdrawal at all.
   */
  lemma CashflowsSpec(monthlyIncome: real, rawExpenses: real, tax: real)
    ensures var r := CashflowsOf(monthlyIncome, rawExpenses, tax);
      && r.taxedIncome == monthlyIncome * (1.0 - tax)
      && r.netExpense == rawExpenses - r.taxedIncome
      && r.grossUp >= 0.0
      && (r.netExpense <= 0.0 ==> r.grossUp == 0.0)
      && (tax < 1.0 ==> r.grossUp * (1.0 - tax) == Max(r.netExpense, 0.0))
      && (tax >= 1.0 ==> r.grossUp == Max(r.netExpense, 0.0))
  {
    var r := CashflowsOf(monthlyIncome, rawExpenses, tax);
    ApplyTaxRateSpec(Max(r.netExpense, 0.0), tax);
    if tax < 1.0 && r.netExpense <= 0.0 {
      assert r.grossUp == 0.0 / (1.0 - tax);
    }
  }

  // ---------------------------------------------------------------------------
  // apply_spending_policy
  // ---------------------------------------------------------------------------

  /** cls.get(k, "fixed") == "discretionary" */
  predicate IsDiscretionary(cls: Classification, k: string) {
    k in cls && cls[k] == "discretionary"
  }

  /** The requested expense keys classified as discretionary. */
  function DiscKeys(requested: Amounts, cls: Classification): (r: set<string>)
    ensures r <= requested.Keys
    ensures forall k :: k in r <==> k in requested && IsDiscretionary(cls, k)
  {
    set k | k in requested && IsDiscretionary(cls, k)
  }

  function Elems(xs: seq<string>): (r: set<string>)
    ensures forall k :: k in r <==> k in xs
  {
    set k | k in xs
  }

  predicate Distinct(xs: seq<string>) {
    forall i, j :: 0 <= i < j < |xs| ==> xs[i] != xs[j]
  }

  /** [k for k in xs if k in s] */
  function Filter(xs: seq<string>, s: set<string>): (r: seq<string>)
    ensures forall k :: k in r <==> k in xs && k in s
  {
    if xs == [] then []
    else (if xs[0] in s then [xs[0]] else []) + Filter(xs[1..], s)
  }

  /** The first occurrence of every element, in order. */
  function Dedup(xs: seq<string>): (r: seq<string>)
    ensures Distinct(r)
    ensures forall k :: k in r <==> k in xs
  {
    if xs == [] then []
    else
      var r := Dedup(xs[..|xs| - 1]);
      var x := xs[|xs| - 1];
      assert forall k :: k in xs <==> k in xs[..|xs| - 1] || k == x by {
        assert xs == xs[..|xs| - 1] + [x];
      }
      if x in r then r else r + [x]
  }

  /** prio (filtered to the discretionary keys) followed by the other discretionary keys, sorted. */
  function FundingOrderAsWritten(prio: seq<string>, disc: set<string>): (r: seq<string>)
    ensures forall k :: k in r <==> k in disc
  {
    var p := Filter(prio, disc);
    p + SortedKeys(disc - Elems(p))
  }

  /** The order as intended: each discretionary key once, priority keys first. */
  function FundingOrder(prio: seq<string>, disc: set<string>): (r: seq<string>)
    ensures forall k :: k in r <==> k in disc
  {
    var p := Dedup(Filter(prio, disc));
    p + SortedKeys(disc - Elems(p))
  }

  /** The funding order lists every discretionary key exactly once, the non-priority ones ascending. */
  lemma FundingOrderSpec(prio: seq<string>, disc: set<string>)
    ensures var order := FundingOrder(prio, disc); var p := Dedup(Filter(prio, disc));
      && Distinct(order)
      && |order| == |disc|
      && order[..|p|] == p
      && (forall k :: k in p <==> k in prio && k in disc)
      && StrictlySorted(order[|p|..])
  {
    var p := Dedup(Filter(prio, disc));
    var tail := SortedKeys(disc - Elems(p));
    var order := p + tail;
    SortedKeysSorted(disc - Elems(p));
    SortedDistinct(tail);
    assert order[..|p|] == p && order[|p|..] == tail;
    DistinctConcat(p, tail);
    DistinctCard(order, disc);
  }

  /** Two lists without repeats and without common elements concatenate to one without repeats. */
  lemma DistinctConcat(p: seq<string>, q: seq<string>)
    requires Distinct(p) && Distinct(q)
    requires forall k :: k in q ==> k !in p
    ensures Distinct(p + q)
  {
    var r := p + q;
    forall i, j | 0 <= i < j < |r|
      ensures r[i] != r[j]
    {
      if j < |p| {
        assert r[i] == p[i] && r[j] == p[j];
      } else if i >= |p| {
        assert r[i] == q[i - |p|] && r[j] == q[j - |p|];
      } else {
        assert r[i] == p[i] && r[j] == q[j - |p|];
        assert r[i] in p;
      }
    }
  }

  /** A distinct sequence holding exactly the elements of s has |s| elements. */
  lemma {:induction false} DistinctCard(xs: seq<string>, s: set<string>)
    requires Distinct(xs) && forall k :: k in xs <==> k in s
    ensures |xs| == |s|
  {
    if xs != [] {
      var x := xs[0];
      assert forall k :: k in xs[1..] <==> k in s - {x} by {
        assert xs == [x] + xs[1..];
        forall k | k in xs[1..]
          ensures k != x
        {
          var j :| 0 <= j < |xs[1..]| && xs[1..][j] == k;
          assert xs[j + 1] == k;
        }
      }
      DistinctCard(xs[1..], s - {x});
    } else {
      assert s == {};
    }
  }

  /** The funding so far: the amount per key and the running total spent. */
  datatype Funding = Funding(funded: Amounts, spent: real)

  predicate InDisc(order: seq<string>, disc: Amounts) {
    forall j :: 0 <= j < |order| ==> order[j] in disc
  }

  /**
   * The funding loop from a given point on: each key gets min(want, remaining), and the
   * loop stops as soon as nothing remains.
   */
  function Fund(order: seq<string>, disc: Amounts, remaining: real, acc: Funding): Funding
    requires InDisc(order, disc)
    decreases |order|
  {
    if order == [] then acc
    else
      var k := order[0];
      var spend := Min(disc[k], remaining);
      var next := Funding(acc.funded[k := spend], acc.spent + spend);
      if remaining - spend <= 0.0 then next
      else Fund(order[1..], disc, remaining - spend, next)
  }

  /** Only keys from the order are funded, and keys funded before stay funded. */
  lemma {:induction false} FundKeysIn(order: seq<string>, disc: Amounts, remaining: real, acc: Funding)
    requires InDisc(order, disc)
    ensures var f := Fund(order, disc, remaining, acc).funded;
      acc.funded.Keys <= f.Keys <= acc.funded.Keys + Elems(order)
    decreases |order|
  {
    if order != [] {
      var spend := Min(disc[order[0]], remaining);
      var next := Funding(acc.funded[order[0] := spend], acc.spent + spend);
      if remaining - spend > 0.0 {
        FundKeysIn(order[1..], disc, remaining - spend, next);
      }
    }
  }

  /** A key funded earlier and not in the rest of the order keeps its amount. */
  lemma {:induction false} FundKeeps(order: seq<string>, disc: Amounts, remaining: real, acc: Funding, k: string)
    requires InDisc(order, disc) && k in acc.funded && k !in order
    ensures var f := Fund(order, disc, remaining, acc).funded; k in f && f[k] == acc.funded[k]
    decreases |order|
  {
    if order != [] {
      var spend := Min(disc[order[0]], remaining);
      var next := Funding(acc.funded[order[0] := spend], acc.spent + spend);
      if remaining - spend > 0.0 {
        assert k !in order[1..];
        FundKeeps(order[1..], disc, remaining - spend, next, k);
      }
    }
  }

  /** Every funded amount lies between 0 and what its key wants. */
  predicate WithinWants(funded: Amounts, disc: Amounts) {
    forall k :: k in funded ==> k in disc && 0.0 <= funded[k] <= disc[k]
  }

  /** With non-negative wants and allowance, funding keeps every amount within its want. */
  lemma {:induction false} FundBounds(order: seq<string>, disc: Amounts, remaining: real, acc: Funding)
    requires InDisc(order, disc) && remaining >= 0.0
    requires forall k :: k in disc ==> disc[k] >= 0.0
    requires WithinWants(acc.funded, disc)
    ensures WithinWants(Fund(order, disc, remaining, acc).funded, disc)
    decreases |order|
  {
    if order != [] {
      var spend := Min(disc[order[0]], remaining);
      var next := Funding(acc.funded[order[0] := spend], acc.spent + spend);
      if remaining - spend > 0.0 {
        FundBounds(order[1..], disc, remaining - spend, next);
      }
    }
  }

  /** With non-negative wants and allowance, no more than the allowance is spent. */
  lemma {:induction false} FundSpent(order: seq<string>, disc: Amounts, remaining: real, acc: Funding)
    requires InDisc(order, disc) && remaining >= 0.0
    requires forall k :: k in disc ==> disc[k] >= 0.0
    ensures var r := Fund(order, disc, remaining, acc);
      acc.spent <= r.spent <= acc.spent + remaining
    decreases |order|
  {
    if order != [] {
      var spend := Min(disc[order[0]], remaining);
      var next := Funding(acc.funded[order[0] := spend], acc.spent + spend);
      if remaining - spend > 0.0 {
        FundSpent(order[1..], disc, remaining - spend, next);
      }
    }
  }

  /** With every key funded once, the funded amounts add up to what was spent. */
  lemma {:induction false} FundSum(order: seq<string>, disc: Amounts, remaining: real, acc: Funding)
    requires InDisc(order, disc) && Distinct(order)
    requires forall j :: 0 <= j < |order| ==> order[j] !in acc.funded
    ensures var r := Fund(order, disc, remaining, acc);
      SumValues(r.funded) == SumValues(acc.funded) + (r.spent - acc.spent)
    decreases |order|
  {
    if order != [] {
      var k := order[0];
      var spend := Min(disc[k], remaining);
      var next := Funding(acc.funded[k := spend], acc.spent + spend);
      SumInsert(acc.funded, k, spend);
      if remaining - spend > 0.0 {
        forall j | 0 <= j < |order[1..]|
          ensures order[1..][j] !in next.funded
        {
          assert order[1..][j] == order[j + 1];
        }
        FundSum(order[1..], disc, remaining - spend, next);
      }
    }
  }

  /**
   * Funding is greedy in order: once a key is funded less than it wants, or not at all,
   * no later key is funded.
   */
  lemma {:induction false} FundGreedy(order: seq<string>, disc: Amounts, remaining: real, acc: Funding)
    requires InDisc(order, disc) && Distinct(order)
    requires forall j :: 0 <= j < |order| ==> order[j] !in acc.funded
    ensures var f := Fund(order, disc, remaining, acc).funded;
      forall j, l :: 0 <= j < l < |order| && (order[j] !in f || f[order[j]] < disc[order[j]]) ==> order[l] !in f
    decreases |order|
  {
    if order != [] {
      var k := order[0];
      var spend := Min(disc[k], remaining);
      var next := Funding(acc.funded[k := spend], acc.spent + spend);
      var f := Fund(order, disc, remaining, acc).funded;
      if remaining - spend > 0.0 {
        forall j | 0 <= j < |order[1..]|
          ensures order[1..][j] !in next.funded
        {
          assert order[1..][j] == order[j + 1];
        }
        FundGreedy(order[1..], disc, remaining - spend, next);
        forall j, l | 0 <= j < l < |order| && (order[j] !in f || f[order[j]] < disc[order[j]])
          ensures order[l] !in f
        {
          if j == 0 {
            FundKeeps(order[1..], disc, remaining - spend, next, k);
          } else {
            assert order[j] == order[1..][j - 1] && order[l] == order[1..][l - 1];
          }
        }
      }
    }
  }

  /** What apply_spending_policy returns. */
  datatype PolicyOutcome = PolicyOutcome(
    effective: Amounts,       // the raw expenses to use this step
    discSpend: real,          // discretionary spend after the cap
    withdrawalCap: real,      // W_cap
    fixedNeed: real,          // W_fixed
    requestedDisc: real)      // discretionary spend asked for

  /** The withdrawal cap for one step: cap_rate of the portfolio, per month or per year. */
  function WithdrawalCap(portfolio: real, capRate: real, monthly: bool): real {
    portfolio * capRate / (if monthly then 12.0 else 1.0)
  }

  /** The raw discretionary spend the cap leaves room for once the fixed expenses are funded. */
  function Allowance(wCap: real, wFixed: real, tax: real): (r: real)
    ensures tax <= 1.0 ==> r >= 0.0
  {
    Max(0.0, wCap - wFixed) * (1.0 - tax)
  }

  predicate CapApplies(policy: Policy) {
    policy.kind == Some("portfolio_cap") && policy.capRate.Some? && policy.capRate.value > 0.0
  }

  /** The withdrawal the fixed expenses alone need. */
  function FixedNeed(requested: Amounts, cls: Classification, income: Amounts, tax: real): real {
    ComputeCashflows(income, Without(requested, DiscKeys(requested, cls)), tax).grossUp
  }

  /** The funding computed on the capped path, along the given order. */
  function CappedFunding(requested: Amounts, cls: Classification, capRate: real, portfolio: real,
                         income: Amounts, tax: real, monthly: bool, order: seq<string>): Funding
    requires forall j :: 0 <= j < |order| ==> order[j] in DiscKeys(requested, cls)
  {
    var allow := Allowance(WithdrawalCap(portfolio, capRate, monthly), FixedNeed(requested, cls, income, tax), tax);
    Fund(order, Restrict(requested, DiscKeys(requested, cls)), allow, Funding(map[], 0.0))
  }

  /** The outcome of the capped path along the given order. */
  function CappedOutcome(requested: Amounts, cls: Classification, capRate: real, portfolio: real,
                         income: Amounts, tax: real, monthly: bool, order: seq<string>): PolicyOutcome
    requires forall j :: 0 <= j < |order| ==> order[j] in DiscKeys(requested, cls)
  {
    var disc := DiscKeys(requested, cls);
    var f := CappedFunding(requested, cls, capRate, portfolio, income, tax, monthly, order);
    PolicyOutcome(Without(requested, disc) + SetDefaults(f.funded, disc, 0.0), f.spent,
                  WithdrawalCap(portfolio, capRate, monthly), FixedNeed(requested, cls, income, tax),
                  SumValues(Restrict(requested, disc)))
  }

  /** apply_spending_policy with the discretionary keys funded in the given order. */
  function PolicyWithOrder(requested: Amounts, cls: Classification, policy: Policy, portfolio: real,
                           income: Amounts, tax: real, monthly: bool, order: seq<string>): PolicyOutcome
    requires forall j :: 0 <= j < |order| ==> order[j] in DiscKeys(requested, cls)
  {
    var disc := DiscKeys(requested, cls);
    var requestedDisc := SumValues(Restrict(requested, disc));
    if disc == {} then PolicyOutcome(requested, 0.0, 0.0, 0.0, requestedDisc)
    else if !CapApplies(policy) then PolicyOutcome(requested, requestedDisc, 0.0, 0.0, requestedDisc)
    else CappedOutcome(requested, cls, policy.capRate.value, portfolio, income, tax, monthly, order)
  }

  /** apply_spending_policy as written: priority_order entries are kept even when repeated. */
  function SpendingPolicyAsWritten(requested: Amounts, cls: Classification, policy: Policy, portfolio: real,
                                   income: Amounts, tax: real, monthly: bool): PolicyOutcome
  {
    var order := FundingOrderAsWritten(policy.priorityOrder.GetOr([]), DiscKeys(requested, cls));
    PolicyWithOrder(requested, cls, policy, portfolio, income, tax, monthly, order)
  }

  /** apply_spending_policy with every discretionary key funded once. */
  function SpendingPolicy(requested: Amounts, cls: Classification, policy: Policy, portfolio: real,
                          income: Amounts, tax: real, monthly: bool): PolicyOutcome
  {
    var order := FundingOrder(policy.priorityOrder.GetOr([]), DiscKeys(requested, cls));
    PolicyWithOrder(requested, cls, policy, portfolio, income, tax, monthly, order)
  }

  /** The funding loop of apply_spending_policy, with its early exit once nothing remains. */
  method FundInOrder(order: seq<string>, wants: Amounts, allowance: real) returns (f: Funding)
    requires InDisc(order, wants)
    ensures f == Fund(order, wants, allowance, Funding(map[], 0.0))
  {
    var remaining := allowance;
    var funded: Amounts := map[];
    var spent := 0.0;
    var i := 0;
    while i < |order|
      invariant 0 <= i <= |order|
      invariant InDisc(order[i..], wants)
      invariant Fund(order[i..], wants, remaining, Funding(funded, spent))
             == Fund(order, wants, allowance, Funding(map[], 0.0))
    {
      var k := order[i];
      var spend := Min(wants[k], remaining);
      funded := funded[k := spend];
      spent := spent + spend;
      remaining := remaining - spend;
      if remaining <= 0.0 {
        break;
      }
      assert order[i..][1..] == order[i + 1..];
      i := i + 1;
    }
    f := Funding(funded, spent);
  }

  /**
   * apply_spending_policy: the result is SpendingPolicy's, whose properties are the
   * lemmas below.
   */
  method ApplySpendingPolicy(requested: Amounts, cls: Classification, policy: Policy, portfolio: real,
                             income: Amounts, tax: real, monthly: bool) returns (r: PolicyOutcome)
    ensures r == SpendingPolicy(requested, cls, policy, portfolio, income, tax, monthly)
  {
    var disc := DiscKeys(requested, cls);
    var requestedDisc := SumValues(Restrict(requested, disc));
    if disc == {} {
      return PolicyOutcome(requested, 0.0, 0.0, 0.0, requestedDisc);
    }
    if !CapApplies(policy) {
      return PolicyOutcome(requested, requestedDisc, 0.0, 0.0, requestedDisc);
    }
    var capRate := policy.capRate.value;
    var wCap := WithdrawalCap(portfolio, capRate, monthly);
    var fixed := Without(requested, disc);
    var wFixed := ComputeCashflows(income, fixed, tax).grossUp;
    var order := FundingOrder(policy.priorityOrder.GetOr([]), disc);
    SpendingPolicyOrder(requested, cls, policy, portfolio, income, tax, monthly);
    var f := FundInOrder(order, Restrict(requested, disc), Allowance(wCap, wFixed, tax));
    var effective := ZeroFill(f.funded, disc);
    r := PolicyOutcome(fixed + effective, f.spent, wCap, wFixed, requestedDisc);
  }

  /** A funding order of discretionary keys, none listed twice. */
  predicate FundsEachOnce(order: seq<string>, requested: Amounts, cls: Classification) {
    (forall j :: 0 <= j < |order| ==> order[j] in DiscKeys(requested, cls)) && Distinct(order)
  }

  /**
   * SpendingPolicy funds along FundingOrder, which lists every discretionary key exactly
   * once; the lemmas below hold for any such order.
   */
  lemma SpendingPolicyOrder(requested: Amounts, cls: Classification, policy: Policy, portfolio: real,
                            income: Amounts, tax: real, monthly: bool)
    ensures var order := FundingOrder(policy.priorityOrder.GetOr([]), DiscKeys(requested, cls));
      && FundsEachOnce(order, requested, cls)
      && |order| == |DiscKeys(requested, cls)|
      && SpendingPolicy(requested, cls, policy, portfolio, income, tax, monthly)
         == PolicyWithOrder(requested, cls, policy, portfolio, income, tax, monthly, order)
  {
    FundingOrderSpec(policy.priorityOrder.GetOr([]), DiscKeys(requested, cls));
  }

  /** When no key is discretionary, or no cap applies, the expenses pass through unchanged. */
  lemma PolicyPassThrough(requested: Amounts, cls: Classification, policy: Policy, portfolio: real,
                          income: Amounts, tax: real, monthly: bool, order: seq<string>)
    requires forall j :: 0 <= j < |order| ==> order[j] in DiscKeys(requested, cls)
    requires DiscKeys(requested, cls) == {} || !CapApplies(policy)
    ensures var r := PolicyWithOrder(requested, cls, policy, portfolio, income, tax, monthly, order);
      && r.effective == requested
      && r.discSpend == r.requestedDisc == SumValues(Restrict(requested, DiscKeys(requested, cls)))
      && r.withdrawalCap == 0.0 && r.fixedNeed == 0.0
  {
    if DiscKeys(requested, cls) == {} {
      assert Restrict(requested, {}) == map[];
    }
  }

  /** The capped path's effective breakdown: the fixed part plus the funded discretionary part. */
  lemma CappedShape(requested: Amounts, cls: Classification, f: Funding)
    requires f.funded.Keys <= DiscKeys(requested, cls)
    ensures var disc := DiscKeys(requested, cls);
      var eff := Without(requested, disc) + SetDefaults(f.funded, disc, 0.0);
      && eff.Keys == requested.Keys
      && Without(eff, disc) == Without(requested, disc)
      && Restrict(eff, disc) == SetDefaults(f.funded, disc, 0.0)
      && (forall k :: k in disc ==> eff[k] == if k in f.funded then f.funded[k] else 0.0)
  {
  }

  /** The capped path funds discretionary keys only. */
  lemma CappedKeys(requested: Amounts, cls: Classification, capRate: real, portfolio: real,
                   income: Amounts, tax: real, monthly: bool, order: seq<string>)
    requires forall j :: 0 <= j < |order| ==> order[j] in DiscKeys(requested, cls)
    ensures CappedFunding(requested, cls, capRate, portfolio, income, tax, monthly, order).funded.Keys
            <= DiscKeys(requested, cls)
  {
    var allow := Allowance(WithdrawalCap(portfolio, capRate, monthly), FixedNeed(requested, cls, income, tax), tax);
    FundKeysIn(order, Restrict(requested, DiscKeys(requested, cls)), allow, Funding(map[], 0.0));
  }

  /** The effective breakdown has the requested keys, and the fixed expenses unchanged. */
  lemma PolicyKeepsFixed(requested: Amounts, cls: Classification, policy: Policy, portfolio: real,
                         income: Amounts, tax: real, monthly: bool, order: seq<string>)
    requires forall j :: 0 <= j < |order| ==> order[j] in DiscKeys(requested, cls)
    ensures var r := PolicyWithOrder(requested, cls, policy, portfolio, income, tax, monthly, order);
      && r.effective.Keys == requested.Keys
      && forall k :: k in requested && !IsDiscretionary(cls, k) ==> r.effective[k] == requested[k]
  {
    if DiscKeys(requested, cls) != {} && CapApplies(policy) {
      var capRate := policy.capRate.value;
      CappedKeys(requested, cls, capRate, portfolio, income, tax, monthly, order);
      CappedShape(requested, cls, CappedFunding(requested, cls, capRate, portfolio, income, tax, monthly, order));
    }
  }

  /** Fixed amounts as requested and funded amounts within the wants keep every expense within its request. */
  lemma EffectiveBounds(requested: Amounts, disc: set<string>, f: Funding)
    requires forall k :: k in requested ==> requested[k] >= 0.0
    requires disc <= requested.Keys
    requires WithinWants(f.funded, Restrict(requested, disc))
    ensures var eff := Without(requested, disc) + SetDefaults(f.funded, disc, 0.0);
      forall k :: k in requested ==> k in eff && 0.0 <= eff[k] <= requested[k]
  {
  }

  /**
   * With non-negative requests and a tax rate of at most 100%, every effective expense
   * lies between 0 and what was requested.
   */
  lemma PolicyBounds(requested: Amounts, cls: Classification, policy: Policy, portfolio: real,
                     income: Amounts, tax: real, monthly: bool, order: seq<string>)
    requires forall j :: 0 <= j < |order| ==> order[j] in DiscKeys(requested, cls)
    requires forall k :: k in requested ==> requested[k] >= 0.0
    requires tax <= 1.0
    ensures var r := PolicyWithOrder(requested, cls, policy, portfolio, income, tax, monthly, order);
      forall k :: k in requested ==> k in r.effective && 0.0 <= r.effective[k] <= requested[k]
  {
    var disc := DiscKeys(requested, cls);
    if disc != {} && CapApplies(policy) {
      var capRate := policy.capRate.value;
      var allow := Allowance(WithdrawalCap(portfolio, capRate, monthly), FixedNeed(requested, cls, income, tax), tax);
      FundBounds(order, Restrict(requested, disc), allow, Funding(map[], 0.0));
      EffectiveBounds(requested, disc, CappedFunding(requested, cls, capRate, portfolio, income, tax, monthly, order));
    }
  }

  /** The sums on the capped path along an order without repeats. */
  lemma CappedTotal(requested: Amounts, cls: Classification, capRate: real, portfolio: real,
                    income: Amounts, tax: real, monthly: bool, order: seq<string>)
    requires FundsEachOnce(order, requested, cls)
    requires forall k :: k in requested ==> requested[k] >= 0.0
    requires tax <= 1.0
    ensures var r := CappedOutcome(requested, cls, capRate, portfolio, income, tax, monthly, order);
      var disc := DiscKeys(requested, cls);
      && SumValues(Restrict(r.effective, disc)) == r.discSpend
      && Without(r.effective, disc) == Without(requested, disc)
      && 0.0 <= r.discSpend <= Allowance(r.withdrawalCap, r.fixedNeed, tax)
      && r.discSpend <= r.requestedDisc
  {
    var disc := DiscKeys(requested, cls);
    var wants := Restrict(requested, disc);
    var allow := Allowance(WithdrawalCap(portfolio, capRate, monthly), FixedNeed(requested, cls, income, tax), tax);
    var f := CappedFunding(requested, cls, capRate, portfolio, income, tax, monthly, order);
    FundKeysIn(order, wants, allow, Funding(map[], 0.0));
    FundSum(order, wants, allow, Funding(map[], 0.0));
    FundSpent(order, wants, allow, Funding(map[], 0.0));
    FundBounds(order, wants, allow, Funding(map[], 0.0));
    CappedShape(requested, cls, f);
    SumZeroDefaults(f.funded, disc);
    assert SumValues(map[]) == 0.0;
    var filled := SetDefaults(f.funded, disc, 0.0);
    assert filled.Keys == wants.Keys;
    SumMonotone(filled, wants);
  }

  /**
   * On the capped path the discretionary part of the effective breakdown adds up to the
   * reported discretionary spend, which is within the allowance and the request.
   */
  lemma PolicyTotal(requested: Amounts, cls: Classification, policy: Policy, portfolio: real,
                    income: Amounts, tax: real, monthly: bool, order: seq<string>)
    requires FundsEachOnce(order, requested, cls)
    requires forall k :: k in requested ==> requested[k] >= 0.0
    requires tax <= 1.0
    requires DiscKeys(requested, cls) != {} && CapApplies(policy)
    ensures var r := PolicyWithOrder(requested, cls, policy, portfolio, income, tax, monthly, order);
      var disc := DiscKeys(requested, cls);
      && SumValues(Restrict(r.effective, disc)) == r.discSpend
      && 0.0 <= r.discSpend <= Allowance(r.withdrawalCap, r.fixedNeed, tax)
      && r.discSpend <= r.requestedDisc
  {
    CappedTotal(requested, cls, policy.capRate.value, portfolio, income, tax, monthly, order);
  }

  /**
   * The point of the policy: on the capped path, with a tax rate below 100%, the
   * withdrawal the effective expenses need is at most the cap, or the fixed expenses'
   * own need when that alone exceeds the cap.
   */
  lemma PolicyWithinCap(requested: Amounts, cls: Classification, policy: Policy, portfolio: real,
                        income: Amounts, tax: real, monthly: bool, order: seq<string>)
    requires FundsEachOnce(order, requested, cls)
    requires forall k :: k in requested ==> requested[k] >= 0.0
    requires 0.0 <= tax < 1.0
    requires DiscKeys(requested, cls) != {} && CapApplies(policy)
    ensures var r := PolicyWithOrder(requested, cls, policy, portfolio, income, tax, monthly, order);
      ComputeCashflows(income, r.effective, tax).grossUp <= Max(r.withdrawalCap, r.fixedNeed)
  {
    var r := CappedOutcome(requested, cls, policy.capRate.value, portfolio, income, tax, monthly, order);
    var disc := DiscKeys(requested, cls);
    CappedTotal(requested, cls, policy.capRate.value, portfolio, income, tax, monthly, order);
    SumSplit(r.effective, disc);
    WithinCapArithmetic(SumValues(Without(requested, disc)), r.discSpend, SumValues(r.effective),
                        SumValues(income), r.withdrawalCap, tax);
  }

  /** PolicyWithinCap once the sums are known. */
  lemma WithinCapArithmetic(fixedRaw: real, ds: real, raw: real, mi: real, wCap: real, tax: real)
    requires 0.0 <= tax < 1.0 && raw == fixedRaw + ds
    requires 0.0 <= ds <= Allowance(wCap, CashflowsOf(mi, fixedRaw, tax).grossUp, tax)
    ensures CashflowsOf(mi, raw, tax).grossUp <= Max(wCap, CashflowsOf(mi, fixedRaw, tax).grossUp)
  {
    var taxed := mi * (1.0 - tax);
    var net := fixedRaw - taxed;
    assert CashflowsOf(mi, fixedRaw, tax).grossUp == ApplyTaxRate(Max(net, 0.0), tax);
    assert CashflowsOf(mi, raw, tax).grossUp == ApplyTaxRate(Max(net + ds, 0.0), tax);
    GrossUpBound(net, ds, wCap, tax);
  }

  /**
   * The arithmetic behind PolicyWithinCap: adding at most the allowance to a
   * net expense keeps its gross-up within the larger of the cap and the net's gross-up.
   */
  lemma GrossUpBound(net: real, ds: real, wCap: real, tax: real)
    requires 0.0 <= tax < 1.0
    requires 0.0 <= ds <= Allowance(wCap, ApplyTaxRate(Max(net, 0.0), tax), tax)
    ensures ApplyTaxRate(Max(net + ds, 0.0), tax) <= Max(wCap, ApplyTaxRate(Max(net, 0.0), tax))
  {
    var d := 1.0 - tax;
    var wFixed := ApplyTaxRate(Max(net, 0.0), tax);
    var g := ApplyTaxRate(Max(net + ds, 0.0), tax);
    ApplyTaxRateSpec(Max(net, 0.0), tax);
    ApplyTaxRateSpec(Max(net + ds, 0.0), tax);
    assert g * d <= wFixed * d + ds;
    if wCap >= wFixed {
      assert (wCap - wFixed) * d == wCap * d - wFixed * d;
      assert (g - wCap) * d == g * d - wCap * d;
      DivideOut(g - wCap, d);
    } else {
      assert ds == 0.0;
      assert (g - wFixed) * d == g * d - wFixed * d;
      DivideOut(g - wFixed, d);
    }
  }

  /**
   * Greedy in priority order: once a discretionary key gets less than it asked for, every
   * key after it in the funding order gets nothing.
   */
  lemma PolicyGreedy(requested: Amounts, cls: Classification, policy: Policy, portfolio: real,
                     income: Amounts, tax: real, monthly: bool, order: seq<string>)
    requires FundsEachOnce(order, requested, cls)
    requires DiscKeys(requested, cls) != {} && CapApplies(policy)
    ensures var eff := PolicyWithOrder(requested, cls, policy, portfolio, income, tax, monthly, order).effective;
      forall j, l :: 0 <= j < l < |order| && eff[order[j]] < requested[order[j]] ==> eff[order[l]] == 0.0
  {
    var disc := DiscKeys(requested, cls);
    var capRate := policy.capRate.value;
    var wants := Restrict(requested, disc);
    var allow := Allowance(WithdrawalCap(portfolio, capRate, monthly), FixedNeed(requested, cls, income, tax), tax);
    var f := CappedFunding(requested, cls, capRate, portfolio, income, tax, monthly, order);
    FundKeysIn(order, wants, allow, Funding(map[], 0.0));
    FundGreedy(order, wants, allow, Funding(map[], 0.0));
    CappedShape(requested, cls, f);
  }

  // ---------------------------------------------------------------------------
  // A category listed twice in priority_order
  // ---------------------------------------------------------------------------

  /** Dedup leaves a list without repeats unchanged. */
  lemma {:induction false} DedupDistinct(xs: seq<string>)
    requires Distinct(xs)
    ensures Dedup(xs) == xs
  {
    if xs != [] {
      var init := xs[..|xs| - 1];
      assert Distinct(init);
      DedupDistinct(init);
      assert xs[|xs| - 1] !in init;
      assert init + [xs[|xs| - 1]] == xs;
    }
  }

  /** Filtering keeps a list without repeats. */
  lemma {:induction false} FilterDistinct(xs: seq<string>, s: set<string>)
    requires Distinct(xs)
    ensures Distinct(Filter(xs, s))
  {
    if xs != [] {
      assert Distinct(xs[1..]);
      FilterDistinct(xs[1..], s);
      assert xs[0] !in xs[1..];
    }
  }

  /** Without repeats in priority_order the corrected policy is the policy as written. */
  lemma PolicyAgreesWithoutRepeats(requested: Amounts, cls: Classification, policy: Policy, portfolio: real,
                                   income: Amounts, tax: real, monthly: bool)
    requires Distinct(policy.priorityOrder.GetOr([]))
    ensures SpendingPolicy(requested, cls, policy, portfolio, income, tax, monthly)
         == SpendingPolicyAsWritten(requested, cls, policy, portfolio, income, tax, monthly)
  {
    var prio := policy.priorityOrder.GetOr([]);
    var disc := DiscKeys(requested, cls);
    FilterDistinct(prio, disc);
    DedupDistinct(Filter(prio, disc));
  }

  /** The two funding orders for a policy listing "travel" twice. */
  lemma TravelTwiceOrders()
    ensures FundingOrderAsWritten(["travel", "travel"], {"travel"}) == ["travel", "travel"]
    ensures FundingOrder(["travel", "travel"], {"travel"}) == ["travel"]
  {
    var s: set<string> := {"travel"};
    assert ["travel", "travel"][1..] == ["travel"];
    assert ["travel"][1..] == [];
    assert Filter(["travel", "travel"], s) == ["travel", "travel"];
    assert ["travel", "travel"][..1] == ["travel"];
    assert ["travel"][..0] == [];
    assert Dedup(["travel", "travel"]) == ["travel"];
    assert Elems(["travel", "travel"]) == s;
    assert Elems(["travel"]) == s;
    assert SortedKeys(s - s) == [];
  }

  /** The funding of "travel" (10.0 wanted, 15.0 allowed) along each order. */
  lemma TravelFunding()
    ensures Fund(["travel"], map["travel" := 10.0], 15.0, Funding(map[], 0.0))
         == Funding(map["travel" := 10.0], 10.0)
    ensures Fund(["travel", "travel"], map["travel" := 10.0], 15.0, Funding(map[], 0.0))
         == Funding(map["travel" := 5.0], 15.0)
  {
    assert ["travel", "travel"][1..] == ["travel"];
  }

  /** The inputs of the capped path for a single discretionary "travel" of 10.0. */
  lemma TravelInputs()
    ensures var requested := map["travel" := 10.0];
      var cls := map["travel" := "discretionary"];
      && DiscKeys(requested, cls) == {"travel"}
      && Restrict(requested, {"travel"}) == requested
      && SumValues(requested) == 10.0
      && FixedNeed(requested, cls, map[], 0.0) == 0.0
      && WithdrawalCap(4500.0, 0.04, true) == 15.0
  {
    var requested := map["travel" := 10.0];
    var cls := map["travel" := "discretionary"];
    assert DiscKeys(requested, cls) == {"travel"};
    assert Without(requested, {"travel"}) == map[];
    assert SumValues(map[]) == 0.0;
    SumInsert(map[], "travel", 10.0);
    assert map[]["travel" := 10.0] == requested;
  }

  /** The single discretionary "travel" of 10.0 under a 4% cap on 4500.0, along the two orders. */
  lemma TravelOutcomes()
    ensures var requested := map["travel" := 10.0];
      var cls := map["travel" := "discretionary"];
      var policy := Policy(Some("portfolio_cap"), Some(0.04), Some(["travel", "travel"]));
      && DiscKeys(requested, cls) == {"travel"}
      && PolicyWithOrder(requested, cls, policy, 4500.0, map[], 0.0, true, ["travel", "travel"])
           == PolicyOutcome(map["travel" := 5.0], 15.0, 15.0, 0.0, 10.0)
      && PolicyWithOrder(requested, cls, policy, 4500.0, map[], 0.0, true, ["travel"])
           == PolicyOutcome(map["travel" := 10.0], 10.0, 15.0, 0.0, 10.0)
  {
    TravelInputs();
    TravelTwiceOutcome();
    TravelOnceOutcome();
  }

  /** The capped funding of "travel" along each order, from the inputs' allowance of 15.0. */
  lemma TravelCappedFunding()
    ensures "travel" in DiscKeys(map["travel" := 10.0], map["travel" := "discretionary"])
    ensures CappedFunding(map["travel" := 10.0], map["travel" := "discretionary"], 0.04, 4500.0,
                          map[], 0.0, true, ["travel", "travel"]) == Funding(map["travel" := 5.0], 15.0)
    ensures CappedFunding(map["travel" := 10.0], map["travel" := "discretionary"], 0.04, 4500.0,
                          map[], 0.0, true, ["travel"]) == Funding(map["travel" := 10.0], 10.0)
  {
    TravelInputs();
    assert Allowance(15.0, 0.0, 0.0) == 15.0;
    TravelFunding();
  }

  /** The capped outcome when "travel" is funded twice. */
  lemma TravelTwiceOutcome()
    ensures "travel" in DiscKeys(map["travel" := 10.0], map["travel" := "discretionary"])
    ensures PolicyWithOrder(map["travel" := 10.0], map["travel" := "discretionary"],
                            Policy(Some("portfolio_cap"), Some(0.04), Some(["travel", "travel"])),
                            4500.0, map[], 0.0, true, ["travel", "travel"])
         == PolicyOutcome(map["travel" := 5.0], 15.0, 15.0, 0.0, 10.0)
  {
    var disc: set<string> := {"travel"};
    TravelInputs();
    TravelCappedFunding();
    assert Without(map["travel" := 10.0], disc) == map[];
    assert SetDefaults(map["travel" := 5.0], disc, 0.0) == map["travel" := 5.0];
  }

  /** The capped outcome when "travel" is funded once. */
  lemma TravelOnceOutcome()
    ensures "travel" in DiscKeys(map["travel" := 10.0], map["travel" := "discretionary"])
    ensures PolicyWithOrder(map["travel" := 10.0], map["travel" := "discretionary"],
                            Policy(Some("portfolio_cap"), Some(0.04), Some(["travel", "travel"])),
                            4500.0, map[], 0.0, true, ["travel"])
         == PolicyOutcome(map["travel" := 10.0], 10.0, 15.0, 0.0, 10.0)
  {
    var disc: set<string> := {"travel"};
    TravelInputs();
    TravelCappedFunding();
    assert Without(map["travel" := 10.0], disc) == map[];
    assert SetDefaults(map["travel" := 10.0], disc, 0.0) == map["travel" := 10.0];
  }

  /**
   * A category listed twice in priority_order is funded twice: the second pass overwrites
   * its full amount with what was left and counts the spend again.
   */
  lemma DuplicatePriorityFundsTwice()
    ensures var requested := map["travel" := 10.0];
      var cls := map["travel" := "discretionary"];
      var policy := Policy(Some("portfolio_cap"), Some(0.04), Some(["travel", "travel"]));
      && SpendingPolicyAsWritten(requested, cls, policy, 4500.0, map[], 0.0, true)
           == PolicyOutcome(map["travel" := 5.0], 15.0, 15.0, 0.0, 10.0)
      && SpendingPolicy(requested, cls, policy, 4500.0, map[], 0.0, true)
           == PolicyOutcome(map["travel" := 10.0], 10.0, 15.0, 0.0, 10.0)
  {
    TravelOutcomes();
    TravelTwiceOrders();
  }
}
