/**
 * normalize_user_data_events: after a check that the life events are in date
 * order, every key that some event introduces is added to the baseline at 0.0,
 * and then every event's override blocks are rewritten into complete snapshots
 * (expenses breakdown and tax rate, income, nested portfolio, assumptions),
 * each key carrying forward the latest value set so far.
 *
 * The functions below give the result of that walk; NormalizeUserDataEvents is
 * the walk itself and is proved to produce it.
 */
module Normalize {
  import opened Wrappers
  import opened Sums
  import opened Types
  import opened Sequences

  datatype NormalizeError =
    | MissingDate(index: nat)   // e["date"] raises KeyError at this event
    | OutOfOrder                // "life_events must be in ascending date order"

  // ---------------------------------------------------------------------------
  // 1) The date-order check
  // ---------------------------------------------------------------------------

  /** The first event without a date, when there is one. */
  function FirstUndated(events: seq<Event>): (r: Option<nat>)
    ensures r.Some? ==>
      (r.value < |events| && events[r.value].date.None? && forall j :: 0 <= j < r.value ==> events[j].date.Some?)
    ensures r.None? <==> forall j :: 0 <= j < |events| ==> events[j].date.Some?
  {
    if events == [] then None
    else if events[0].date.None? then Some(0)
    else match FirstUndated(events[1..])
      case None => None
      case Some(k) => Some(k + 1)
  }

  function Dates(events: seq<Event>): (ds: seq<YearMonth>)
    requires forall j :: 0 <= j < |events| ==> events[j].date.Some?
    ensures |ds| == |events| && forall j :: 0 <= j < |events| ==> ds[j] == events[j].date.value
  {
    seq(|events|, j requires 0 <= j < |events| => events[j].date.value)
  }

  /** Every event has a date and the dates never go back in time. */
  predicate InDateOrder(events: seq<Event>) {
    (forall j :: 0 <= j < |events| ==> events[j].date.Some?)
    && forall i, j :: 0 <= i < j < |events| ==>
         MonthIndex(events[i].date.value) <= MonthIndex(events[j].date.value)
  }

  /**
   * `dates != sorted(dates, key=...)`: the check passes exactly when the events
   * are in date order; a missing date is reported at the first event without one.
   */
  function CheckOrder(events: seq<Event>): (r: Option<NormalizeError>)
    ensures r.None? <==> InDateOrder(events)
    ensures (exists j :: 0 <= j < |events| && events[j].date.None?) ==>
      r == Some(MissingDate(FirstUndated(events).value))
    ensures r.Some? && (forall j :: 0 <= j < |events| ==> events[j].date.Some?) ==> r == Some(OutOfOrder)
  {
    match FirstUndated(events)
    case Some(j) => Some(MissingDate(j))
    case None =>
      var ds := Dates(events);
      SortIdentity(ds, MonthIndex);
      if SortBy(ds, MonthIndex) != ds then Some(OutOfOrder) else None
  }

  // ---------------------------------------------------------------------------
  // The override blocks of an event (an absent block is an empty one)
  // ---------------------------------------------------------------------------

  const NoExpenseUpdate := ExpenseUpdate(None, None, None, None)

  function ExpenseOverride(e: Event): Amounts {
    e.updatedExpenses.GetOr(NoExpenseUpdate).breakdown.GetOr(map[])
  }

  function RateOverride(e: Event): Option<real> {
    e.updatedExpenses.GetOr(NoExpenseUpdate).totalTaxRate
  }

  function IncomeOverride(e: Event): Amounts {
    e.updatedIncome.GetOr(map[])
  }

  function PortfolioOverride(e: Event): Nested {
    e.updatedPortfolio.GetOr(map[])
  }

  function AssumptionOverride(e: Event): Amounts {
    e.updatedAssumptions.GetOr(map[])
  }

  function ExpenseOverrides(evs: seq<Event>): (r: seq<Amounts>)
    ensures |r| == |evs| && forall i :: 0 <= i < |evs| ==> r[i] == ExpenseOverride(evs[i])
  {
    seq(|evs|, i requires 0 <= i < |evs| => ExpenseOverride(evs[i]))
  }

  function IncomeOverrides(evs: seq<Event>): (r: seq<Amounts>)
    ensures |r| == |evs| && forall i :: 0 <= i < |evs| ==> r[i] == IncomeOverride(evs[i])
  {
    seq(|evs|, i requires 0 <= i < |evs| => IncomeOverride(evs[i]))
  }

  function AssumptionOverrides(evs: seq<Event>): (r: seq<Amounts>)
    ensures |r| == |evs| && forall i :: 0 <= i < |evs| ==> r[i] == AssumptionOverride(evs[i])
  {
    seq(|evs|, i requires 0 <= i < |evs| => AssumptionOverride(evs[i]))
  }

  function PortfolioOverrides(evs: seq<Event>): (r: seq<Nested>)
    ensures |r| == |evs| && forall i :: 0 <= i < |evs| ==> r[i] == PortfolioOverride(evs[i])
  {
    seq(|evs|, i requires 0 <= i < |evs| => PortfolioOverride(evs[i]))
  }

  function RateOverrides(evs: seq<Event>): (r: seq<Option<real>>)
    ensures |r| == |evs| && forall i :: 0 <= i < |evs| ==> r[i] == RateOverride(evs[i])
  {
    seq(|evs|, i requires 0 <= i < |evs| => RateOverride(evs[i]))
  }

  // ---------------------------------------------------------------------------
  // 2) Back-fill of new keys into the baseline
  // ---------------------------------------------------------------------------

  /** Every key that some override in ups names. */
  function AllKeys(ups: seq<Amounts>): set<string> {
    if ups == [] then {} else AllKeys(ups[..|ups| - 1]) + ups[|ups| - 1].Keys
  }

  lemma {:induction false} AllKeysIff(ups: seq<Amounts>, k: string)
    ensures k in AllKeys(ups) <==> exists j :: 0 <= j < |ups| && k in ups[j]
  {
    if ups != [] {
      var n := |ups| - 1;
      AllKeysIff(ups[..n], k);
      if k in AllKeys(ups[..n]) {
        var j :| 0 <= j < n && k in ups[..n][j];
        assert k in ups[j];
      }
      if exists j :: 0 <= j < |ups| && k in ups[j] {
        var j :| 0 <= j < |ups| && k in ups[j];
        if j < n {
          assert k in ups[..n][j];
        }
      }
    }
  }

  /** The baseline after the events' new keys are added at 0.0, event by event. */
  function Backfill(base: Amounts, ups: seq<Amounts>): Amounts {
    if ups == [] then base
    else SetDefaults(Backfill(base, ups[..|ups| - 1]), ups[|ups| - 1].Keys, 0.0)
  }

  /** The back-filled baseline: its keys, untouched old entries, and 0.0 for the new ones. */
  lemma {:induction false} BackfillSpec(base: Amounts, ups: seq<Amounts>)
    ensures Backfill(base, ups).Keys == base.Keys + AllKeys(ups)
    ensures forall k :: k in base ==> Backfill(base, ups)[k] == base[k]
    ensures forall k :: k in Backfill(base, ups) && k !in base ==> Backfill(base, ups)[k] == 0.0
  {
    if ups != [] {
      BackfillSpec(base, ups[..|ups| - 1]);
    }
  }

  /** The back-fill adds nothing when every override key is already a baseline key. */
  lemma BackfillNoop(base: Amounts, ups: seq<Amounts>)
    requires AllKeys(ups) <= base.Keys
    ensures Backfill(base, ups) == base
  {
    BackfillSpec(base, ups);
  }

  /** The sub-map of one portfolio category; an absent category is empty. */
  function Sub(n: Nested, cat: string): Amounts {
    if cat in n then n[cat] else map[]
  }

  /** The overrides of one portfolio category, event by event. */
  function Column(ups: seq<Nested>, cat: string): (r: seq<Amounts>)
    ensures |r| == |ups| && forall i :: 0 <= i < |ups| ==> r[i] == Sub(ups[i], cat)
  {
    seq(|ups|, i requires 0 <= i < |ups| => Sub(ups[i], cat))
  }

  /** Every category that some override names. */
  function AllCategories(ups: seq<Nested>): set<string> {
    if ups == [] then {} else AllCategories(ups[..|ups| - 1]) + ups[|ups| - 1].Keys
  }

  /** One event's back-fill of the nested portfolio: new categories, then new sub-keys at 0.0. */
  function BackfillCategories(base: Nested, upd: Nested): (r: Nested)
    ensures r.Keys == base.Keys + upd.Keys
  {
    map cat | cat in base.Keys + upd.Keys :: SetDefaults(Sub(base, cat), Sub(upd, cat).Keys, 0.0)
  }

  function BackfillNested(base: Nested, ups: seq<Nested>): Nested {
    if ups == [] then base
    else BackfillCategories(BackfillNested(base, ups[..|ups| - 1]), ups[|ups| - 1])
  }

  /**
   * The nested back-fill is the flat one category by category, and it adds
   * exactly the categories the events name.
   */
  lemma {:induction false} BackfillNestedKeys(base: Nested, ups: seq<Nested>)
    ensures BackfillNested(base, ups).Keys == base.Keys + AllCategories(ups)
  {
    if ups != [] {
      BackfillNestedKeys(base, ups[..|ups| - 1]);
    }
  }

  lemma {:induction false} BackfillNestedSpec(base: Nested, ups: seq<Nested>, cat: string)
    ensures Sub(BackfillNested(base, ups), cat) == Backfill(Sub(base, cat), Column(ups, cat))
  {
    if ups != [] {
      var n := |ups| - 1;
      var prev := BackfillNested(base, ups[..n]);
      BackfillNestedSpec(base, ups[..n], cat);
      ColumnPrefix(ups, cat, n);
      SubBackfillCategories(prev, ups[n], cat);
    }
  }

  lemma ColumnPrefix(ups: seq<Nested>, cat: string, n: nat)
    requires n <= |ups|
    ensures Column(ups, cat)[..n] == Column(ups[..n], cat)
  {
  }

  lemma SubBackfillCategories(base: Nested, upd: Nested, cat: string)
    ensures Sub(BackfillCategories(base, upd), cat) == SetDefaults(Sub(base, cat), Sub(upd, cat).Keys, 0.0)
  {
    if cat !in base.Keys + upd.Keys {
      assert SetDefaults(Sub(base, cat), Sub(upd, cat).Keys, 0.0) == map[];
    }
  }

  // ---------------------------------------------------------------------------
  // 3) Forward fill
  // ---------------------------------------------------------------------------

  /** curr.update(block) for each block in turn. */
  function Running(base: Amounts, ups: seq<Amounts>): Amounts {
    if ups == [] then base else Running(base, ups[..|ups| - 1]) + ups[|ups| - 1]
  }

  /** The last override in ups that sets key k. */
  function LastSetter(ups: seq<Amounts>, k: string): (r: Option<nat>)
    ensures r.Some? ==>
      (r.value < |ups| && k in ups[r.value] && forall j :: r.value < j < |ups| ==> k !in ups[j])
    ensures r.None? ==> forall j :: 0 <= j < |ups| ==> k !in ups[j]
  {
    if ups == [] then None
    else if k in ups[|ups| - 1] then Some(|ups| - 1)
    else LastSetter(ups[..|ups| - 1], k)
  }

  /**
   * Forward fill: after the updates, a key holds the value of the latest update
   * that set it, or its baseline value when none did.
   */
  lemma {:induction false} RunningValue(base: Amounts, ups: seq<Amounts>, k: string)
    ensures k in Running(base, ups) <==> k in base || LastSetter(ups, k).Some?
    ensures k in Running(base, ups) ==>
      (Running(base, ups)[k] == match LastSetter(ups, k) case Some(j) => ups[j][k] case None => base[k])
  {
    if ups != [] {
      RunningValue(base, ups[..|ups| - 1], k);
    }
  }

  lemma {:induction false} RunningKeys(base: Amounts, ups: seq<Amounts>)
    ensures Running(base, ups).Keys == base.Keys + AllKeys(ups)
  {
    if ups != [] {
      RunningKeys(base, ups[..|ups| - 1]);
    }
  }

  /** Once the baseline has every key the updates name, the running map has exactly its keys. */
  lemma RunningKeysBackfilled(base: Amounts, ups: seq<Amounts>, n: nat)
    requires n <= |ups| && AllKeys(ups) <= base.Keys
    ensures Running(base, ups[..n]).Keys == base.Keys
  {
    RunningKeys(base, ups[..n]);
    forall k | k in AllKeys(ups[..n])
      ensures k in base
    {
      AllKeysIff(ups[..n], k);
      var j :| 0 <= j < n && k in ups[..n][j];
      AllKeysIff(ups, k);
      assert k in ups[j];
    }
  }

  /** A run of complete snapshots ends in its last snapshot. */
  lemma RunningOfComplete(base: Amounts, ups: seq<Amounts>)
    requires ups != [] && forall j :: 0 <= j < |ups| ==> ups[j].Keys == base.Keys
    ensures Running(base, ups) == ups[|ups| - 1]
  {
    var n := |ups| - 1;
    RunningKeysBackfilledAll(base, ups, n);
  }

  lemma RunningKeysBackfilledAll(base: Amounts, ups: seq<Amounts>, n: nat)
    requires n <= |ups| && forall j :: 0 <= j < |ups| ==> ups[j].Keys == base.Keys
    ensures Running(base, ups[..n]).Keys == base.Keys
  {
    forall k | k in AllKeys(ups)
      ensures k in base
    {
      AllKeysIff(ups, k);
    }
    RunningKeysBackfilled(base, ups, n);
  }

  /** The nested update: each category's sub-map is updated by the block's sub-map. */
  function MergeNested(cur: Nested, upd: Nested): (r: Nested)
    ensures r.Keys == cur.Keys + upd.Keys
  {
    map cat | cat in cur.Keys + upd.Keys :: Sub(cur, cat) + Sub(upd, cat)
  }

  function RunningNested(base: Nested, ups: seq<Nested>): Nested {
    if ups == [] then base else MergeNested(RunningNested(base, ups[..|ups| - 1]), ups[|ups| - 1])
  }

  /** The nested forward fill is the flat one, category by category. */
  lemma {:induction false} RunningNestedKeys(base: Nested, ups: seq<Nested>)
    ensures RunningNested(base, ups).Keys == base.Keys + AllCategories(ups)
  {
    if ups != [] {
      RunningNestedKeys(base, ups[..|ups| - 1]);
    }
  }

  lemma {:induction false} RunningNestedSpec(base: Nested, ups: seq<Nested>, cat: string)
    ensures Sub(RunningNested(base, ups), cat) == Running(Sub(base, cat), Column(ups, cat))
  {
    if ups != [] {
      var n := |ups| - 1;
      var prev := RunningNested(base, ups[..n]);
      RunningNestedSpec(base, ups[..n], cat);
      ColumnPrefix(ups, cat, n);
      SubMerge(prev, ups[n], cat);
    }
  }

  lemma SubMerge(cur: Nested, upd: Nested, cat: string)
    ensures Sub(MergeNested(cur, upd), cat) == Sub(cur, cat) + Sub(upd, cat)
  {
    if cat !in cur.Keys + upd.Keys {
      assert Sub(cur, cat) + Sub(upd, cat) == map[];
    }
  }

  // ---------------------------------------------------------------------------
  // The carried tax rate
  // ---------------------------------------------------------------------------

  /** The tax rate after the events: each event's own rate, else the rate carried so far. */
  function RunningRate(init: real, rates: seq<Option<real>>): real {
    if rates == [] then init
    else if rates[|rates| - 1].Some? then rates[|rates| - 1].value
    else RunningRate(init, rates[..|rates| - 1])
  }

  /** The carried rate is the latest explicit rate, or the initial one when no event gives one. */
  lemma {:induction false} RunningRateIsLatest(init: real, rates: seq<Option<real>>)
    ensures (forall j :: 0 <= j < |rates| ==> rates[j].None?) ==> RunningRate(init, rates) == init
    ensures forall j :: 0 <= j < |rates| && rates[j].Some? && (forall l :: j < l < |rates| ==> rates[l].None?) ==>
      RunningRate(init, rates) == rates[j].value
  {
    if rates != [] {
      var n := |rates| - 1;
      RunningRateIsLatest(init, rates[..n]);
      assert forall j :: 0 <= j < n ==> rates[..n][j] == rates[j];
    }
  }

  // ---------------------------------------------------------------------------
  // The normalized data
  // ---------------------------------------------------------------------------

  /** The baselines once the events' new keys have been added, and the starting tax rate. */
  datatype Baseline = Baseline(expenses: Amounts, income: Amounts, portfolio: Nested, assumptions: Amounts, rate: real)

  function BaselineOf(d: UserData): Baseline {
    var evs := d.lifeEvents;
    Baseline(Backfill(d.expenses.breakdown, ExpenseOverrides(evs)),
             Backfill(d.income, IncomeOverrides(evs)),
             BackfillNested(d.portfolio, PortfolioOverrides(evs)),
             Backfill(d.assumptions, AssumptionOverrides(evs)),
             d.expenses.totalTaxRate.GetOr(0.0))
  }

  /** Event i with its override blocks replaced by the state carried through events 0..i. */
  function Rewritten(evs: seq<Event>, b: Baseline, i: nat): Event
    requires i < |evs|
  {
    var n := i + 1;
    var ue := evs[i].updatedExpenses.GetOr(NoExpenseUpdate);
    evs[i].(
      updatedExpenses := Some(ue.(breakdown := Some(Running(b.expenses, ExpenseOverrides(evs)[..n])),
                                  totalTaxRate := Some(RunningRate(b.rate, RateOverrides(evs)[..n])))),
      updatedIncome := Some(Running(b.income, IncomeOverrides(evs)[..n])),
      updatedPortfolio := Some(RunningNested(b.portfolio, PortfolioOverrides(evs)[..n])),
      updatedAssumptions := Some(Running(b.assumptions, AssumptionOverrides(evs)[..n])))
  }

  /** The events with every one of them rewritten. */
  function RewriteAll(evs: seq<Event>, b: Baseline): (r: seq<Event>)
    ensures |r| == |evs| && forall i :: 0 <= i < |evs| ==> r[i] == Rewritten(evs, b, i)
  {
    seq(|evs|, i requires 0 <= i < |evs| => Rewritten(evs, b, i))
  }

  /** What normalize_user_data_events leaves in data when the events are in order. */
  function NormalizedData(d: UserData): UserData {
    var evs := d.lifeEvents;
    var b := BaselineOf(d);
    d.(expenses := d.expenses.(
         breakdown := b.expenses,
         totalTaxRate := if evs == [] then d.expenses.totalTaxRate else Some(RunningRate(b.rate, RateOverrides(evs)))),
       income := b.income,
       portfolio := b.portfolio,
       assumptions := b.assumptions,
       lifeEvents := RewriteAll(evs, b))
  }

  /** What normalize_user_data_events leaves in data, or the error it raises. */
  function Normalized(d: UserData): (r: Result<UserData, NormalizeError>)
    ensures r.Failure? <==> !InDateOrder(d.lifeEvents)
    ensures r.Success? ==> r.value == NormalizedData(d)
  {
    match CheckOrder(d.lifeEvents)
    case Some(e) => Failure(e)
    case None => Success(NormalizedData(d))
  }

  // ---------------------------------------------------------------------------
  // The walk
  // ---------------------------------------------------------------------------

  /** After the categories outside todo have been back-filled. */
  ghost predicate FillInv(base: Nested, block: Nested, todo: set<string>, r: Nested) {
    && todo <= block.Keys
    && r.Keys == base.Keys + (block.Keys - todo)
    && forall cat :: cat in r ==>
         r[cat] == if cat in todo then base[cat] else SetDefaults(Sub(base, cat), Sub(block, cat).Keys, 0.0)
  }

  lemma FillInvStep(base: Nested, block: Nested, todo: set<string>, r: Nested, cat: string)
    requires FillInv(base, block, todo, r) && cat in todo
    ensures FillInv(base, block, todo - {cat}, r[cat := SetDefaults(Sub(r, cat), block[cat].Keys, 0.0)])
  {
    assert Sub(r, cat) == Sub(base, cat);
  }

  lemma FillInvDone(base: Nested, block: Nested, r: Nested)
    requires FillInv(base, block, {}, r)
    ensures r == BackfillCategories(base, block)
  {
  }

  /** The nested back-fill of one event: new categories start empty, new sub-keys at 0.0. */
  method ZeroFillNested(base: Nested, block: Nested) returns (r: Nested)
    ensures r == BackfillCategories(base, block)
  {
    r := base;
    var todo := block.Keys;
    while todo != {}
      invariant FillInv(base, block, todo, r)
      decreases |todo|
    {
      var cat :| cat in todo;
      var sub := if cat in r then r[cat] else map[];
      sub := ZeroFill(sub, block[cat].Keys);
      FillInvStep(base, block, todo, r, cat);
      r := r[cat := sub];
      todo := todo - {cat};
    }
    FillInvDone(base, block, r);
  }

  /** for k, v in block.items(): m[k] = v */
  method Overwrite(m: Amounts, block: Amounts) returns (r: Amounts)
    ensures r == m + block
  {
    r := m;
    var todo := block.Keys;
    while todo != {}
      invariant todo <= block.Keys
      invariant r.Keys == m.Keys + (block.Keys - todo)
      invariant forall k :: k in r ==> r[k] == if k in block && k !in todo then block[k] else m[k]
      decreases |todo|
    {
      var k :| k in todo;
      r := r[k := block[k]];
      todo := todo - {k};
    }
  }

  /** After the categories outside todo have been updated. */
  ghost predicate MergeInv(cur: Nested, block: Nested, todo: set<string>, r: Nested) {
    && todo <= block.Keys
    && r.Keys == cur.Keys + (block.Keys - todo)
    && forall cat :: cat in r ==> r[cat] == if cat in todo then cur[cat] else Sub(cur, cat) + Sub(block, cat)
  }

  lemma MergeInvStep(cur: Nested, block: Nested, todo: set<string>, r: Nested, cat: string)
    requires MergeInv(cur, block, todo, r) && cat in todo
    ensures MergeInv(cur, block, todo - {cat}, r[cat := Sub(r, cat) + block[cat]])
  {
    assert Sub(r, cat) == Sub(cur, cat);
  }

  lemma MergeInvDone(cur: Nested, block: Nested, r: Nested)
    requires MergeInv(cur, block, {}, r)
    ensures r == MergeNested(cur, block)
  {
  }

  /** The portfolio overrides of one event applied category by category. */
  method MergePortfolio(cur: Nested, block: Nested) returns (r: Nested)
    ensures r == MergeNested(cur, block)
  {
    r := cur;
    var todo := block.Keys;
    while todo != {}
      invariant MergeInv(cur, block, todo, r)
      decreases |todo|
    {
      var cat :| cat in todo;
      var sub := if cat in r then r[cat] else map[];
      sub := Overwrite(sub, block[cat]);
      MergeInvStep(cur, block, todo, r, cat);
      r := r[cat := sub];
      todo := todo - {cat};
    }
    MergeInvDone(cur, block, r);
  }

  /** {k: curr[k] for k in keys} */
  function Snapshot(cur: Amounts, keys: set<string>): (r: Amounts)
    requires keys <= cur.Keys
    ensures r.Keys == keys && forall k :: k in r ==> r[k] == cur[k]
  {
    map k | k in keys :: cur[k]
  }

  /** {cat: {sk: sub.get(sk, 0.0) for sk in port_keys.get(cat, [])} for cat, sub in curr.items()} */
  function SnapshotNested(cur: Nested, port: Nested): (r: Nested)
    ensures r.Keys == cur.Keys
    ensures forall cat :: cat in r ==> r[cat].Keys == Sub(port, cat).Keys
  {
    map cat | cat in cur :: map sk | sk in Sub(port, cat).Keys :: if sk in cur[cat] then cur[cat][sk] else 0.0
  }

  /** The event written back with the snapshots of the carried state. */
  function WriteBack(ev: Event, b: Baseline, exp: Amounts, inc: Amounts, port: Nested, ass: Amounts, rate: real): Event
    requires b.expenses.Keys <= exp.Keys && b.income.Keys <= inc.Keys && b.assumptions.Keys <= ass.Keys
  {
    var ue := ev.updatedExpenses.GetOr(NoExpenseUpdate);
    ev.(updatedExpenses := Some(ue.(breakdown := Some(Snapshot(exp, b.expenses.Keys)), totalTaxRate := Some(rate))),
        updatedIncome := Some(Snapshot(inc, b.income.Keys)),
        updatedPortfolio := Some(SnapshotNested(port, b.portfolio)),
        updatedAssumptions := Some(Snapshot(ass, b.assumptions.Keys)))
  }

  /** The portfolio baseline already has every category and sub-key the overrides name. */
  ghost predicate PortfolioBackfilled(ups: seq<Nested>, port: Nested) {
    AllCategories(ups) <= port.Keys && forall cat :: AllKeys(Column(ups, cat)) <= Sub(port, cat).Keys
  }

  /** The baselines already have every key the events' overrides name. */
  ghost predicate Backfilled(evs: seq<Event>, b: Baseline) {
    && AllKeys(ExpenseOverrides(evs)) <= b.expenses.Keys
    && AllKeys(IncomeOverrides(evs)) <= b.income.Keys
    && AllKeys(AssumptionOverrides(evs)) <= b.assumptions.Keys
    && PortfolioBackfilled(PortfolioOverrides(evs), b.portfolio)
  }

  lemma BaselineBackfilled(d: UserData)
    ensures Backfilled(d.lifeEvents, BaselineOf(d))
  {
    var evs := d.lifeEvents;
    BackfillSpec(d.expenses.breakdown, ExpenseOverrides(evs));
    BackfillSpec(d.income, IncomeOverrides(evs));
    BackfillSpec(d.assumptions, AssumptionOverrides(evs));
    var ups := PortfolioOverrides(evs);
    BackfillNestedKeys(d.portfolio, ups);
    forall cat
      ensures AllKeys(Column(ups, cat)) <= Sub(BackfillNested(d.portfolio, ups), cat).Keys
    {
      BackfillNestedSpec(d.portfolio, ups, cat);
      BackfillSpec(Sub(d.portfolio, cat), Column(ups, cat));
    }
  }

  lemma {:induction false} AllCategoriesPrefix(ups: seq<Nested>, n: nat)
    requires n <= |ups|
    ensures AllCategories(ups[..n]) <= AllCategories(ups)
    decreases |ups|
  {
    if n < |ups| {
      var m := |ups| - 1;
      assert ups[..m][..n] == ups[..n];
      AllCategoriesPrefix(ups[..m], n);
    } else {
      assert ups[..n] == ups;
    }
  }

  /** The running portfolio has exactly the baseline's categories and sub-keys, so its snapshot is itself. */
  lemma SnapshotOfRunning(port: Nested, ups: seq<Nested>, n: nat)
    requires n <= |ups| && PortfolioBackfilled(ups, port)
    ensures RunningNested(port, ups[..n]).Keys == port.Keys
    ensures SnapshotNested(RunningNested(port, ups[..n]), port) == RunningNested(port, ups[..n])
  {
    var cur := RunningNested(port, ups[..n]);
    RunningCategories(port, ups, n);
    var snap := SnapshotNested(cur, port);
    forall cat | cat in cur
      ensures snap[cat] == cur[cat]
    {
      RunningCategoryKeys(port, ups, n, cat);
      SnapshotCategory(cur, port, cat);
    }
  }

  lemma RunningCategories(port: Nested, ups: seq<Nested>, n: nat)
    requires n <= |ups| && AllCategories(ups) <= port.Keys
    ensures RunningNested(port, ups[..n]).Keys == port.Keys
  {
    RunningNestedKeys(port, ups[..n]);
    AllCategoriesPrefix(ups, n);
  }

  lemma RunningCategoryKeys(port: Nested, ups: seq<Nested>, n: nat, cat: string)
    requires n <= |ups| && PortfolioBackfilled(ups, port)
    requires cat in RunningNested(port, ups[..n])
    ensures RunningNested(port, ups[..n])[cat].Keys == Sub(port, cat).Keys
  {
    RunningNestedSpec(port, ups[..n], cat);
    ColumnPrefix(ups, cat, n);
    RunningKeysBackfilled(Sub(port, cat), Column(ups, cat), n);
  }

  lemma SnapshotCategory(cur: Nested, port: Nested, cat: string)
    requires cat in cur && cur[cat].Keys == Sub(port, cat).Keys
    ensures SnapshotNested(cur, port)[cat] == cur[cat]
  {
  }

  /** One more step of every running update. */
  lemma RunningPrefixes(orig: seq<Event>, b: Baseline, i: nat)
    requires i < |orig|
    ensures Running(b.expenses, ExpenseOverrides(orig)[..i + 1])
         == Running(b.expenses, ExpenseOverrides(orig)[..i]) + ExpenseOverride(orig[i])
    ensures Running(b.income, IncomeOverrides(orig)[..i + 1])
         == Running(b.income, IncomeOverrides(orig)[..i]) + IncomeOverride(orig[i])
    ensures Running(b.assumptions, AssumptionOverrides(orig)[..i + 1])
         == Running(b.assumptions, AssumptionOverrides(orig)[..i]) + AssumptionOverride(orig[i])
    ensures RunningNested(b.portfolio, PortfolioOverrides(orig)[..i + 1])
         == MergeNested(RunningNested(b.portfolio, PortfolioOverrides(orig)[..i]), PortfolioOverride(orig[i]))
    ensures RunningRate(b.rate, RateOverrides(orig)[..i + 1])
         == if RateOverride(orig[i]).Some? then RateOverride(orig[i]).value else RunningRate(b.rate, RateOverrides(orig)[..i])
  {
    assert ExpenseOverrides(orig)[..i + 1][..i] == ExpenseOverrides(orig)[..i];
    assert IncomeOverrides(orig)[..i + 1][..i] == IncomeOverrides(orig)[..i];
    assert AssumptionOverrides(orig)[..i + 1][..i] == AssumptionOverrides(orig)[..i];
    assert PortfolioOverrides(orig)[..i + 1][..i] == PortfolioOverrides(orig)[..i];
    assert RateOverrides(orig)[..i + 1][..i] == RateOverrides(orig)[..i];
  }

  /** One more step of every back-fill. */
  lemma BackfillPrefixes(d: UserData, i: nat)
    requires i < |d.lifeEvents|
    ensures var evs := d.lifeEvents;
      && Backfill(d.expenses.breakdown, ExpenseOverrides(evs)[..i + 1])
         == SetDefaults(Backfill(d.expenses.breakdown, ExpenseOverrides(evs)[..i]), ExpenseOverride(evs[i]).Keys, 0.0)
      && Backfill(d.income, IncomeOverrides(evs)[..i + 1])
         == SetDefaults(Backfill(d.income, IncomeOverrides(evs)[..i]), IncomeOverride(evs[i]).Keys, 0.0)
      && BackfillNested(d.portfolio, PortfolioOverrides(evs)[..i + 1])
         == BackfillCategories(BackfillNested(d.portfolio, PortfolioOverrides(evs)[..i]), PortfolioOverride(evs[i]))
      && Backfill(d.assumptions, AssumptionOverrides(evs)[..i + 1])
         == SetDefaults(Backfill(d.assumptions, AssumptionOverrides(evs)[..i]), AssumptionOverride(evs[i]).Keys, 0.0)
  {
    var evs := d.lifeEvents;
    assert ExpenseOverrides(evs)[..i + 1][..i] == ExpenseOverrides(evs)[..i];
    assert IncomeOverrides(evs)[..i + 1][..i] == IncomeOverrides(evs)[..i];
    assert PortfolioOverrides(evs)[..i + 1][..i] == PortfolioOverrides(evs)[..i];
    assert AssumptionOverrides(evs)[..i + 1][..i] == AssumptionOverrides(evs)[..i];
  }

  /** The back-fill over every event is the baseline. */
  lemma BackfillWhole(d: UserData)
    ensures var evs := d.lifeEvents; var b := BaselineOf(d);
      && b.expenses == Backfill(d.expenses.breakdown, ExpenseOverrides(evs)[..|evs|])
      && b.income == Backfill(d.income, IncomeOverrides(evs)[..|evs|])
      && b.portfolio == BackfillNested(d.portfolio, PortfolioOverrides(evs)[..|evs|])
      && b.assumptions == Backfill(d.assumptions, AssumptionOverrides(evs)[..|evs|])
      && b.rate == d.expenses.totalTaxRate.GetOr(0.0)
  {
    var evs := d.lifeEvents;
    assert ExpenseOverrides(evs)[..|evs|] == ExpenseOverrides(evs);
    assert IncomeOverrides(evs)[..|evs|] == IncomeOverrides(evs);
    assert PortfolioOverrides(evs)[..|evs|] == PortfolioOverrides(evs);
    assert AssumptionOverrides(evs)[..|evs|] == AssumptionOverrides(evs);
  }

  /** The state the walk carries: the running blocks and the running tax rate. */
  datatype Carry = Carry(exp: Amounts, inc: Amounts, port: Nested, ass: Amounts, rate: real)

  /** The carried state after the events before i. */
  ghost function CarryAfter(orig: seq<Event>, b: Baseline, i: nat): Carry
    requires i <= |orig|
  {
    Carry(Running(b.expenses, ExpenseOverrides(orig)[..i]),
          Running(b.income, IncomeOverrides(orig)[..i]),
          RunningNested(b.portfolio, PortfolioOverrides(orig)[..i]),
          Running(b.assumptions, AssumptionOverrides(orig)[..i]),
          RunningRate(b.rate, RateOverrides(orig)[..i]))
  }

  /** The events before i rewritten, the rest as they were. */
  ghost function PartlyRewritten(orig: seq<Event>, b: Baseline, i: nat): seq<Event>
    requires i <= |orig|
  {
    seq(|orig|, j requires 0 <= j < |orig| => if j < i then Rewritten(orig, b, j) else orig[j])
  }

  lemma CarryStart(orig: seq<Event>, b: Baseline)
    ensures CarryAfter(orig, b, 0) == Carry(b.expenses, b.income, b.portfolio, b.assumptions, b.rate)
    ensures PartlyRewritten(orig, b, 0) == orig
  {
    assert ExpenseOverrides(orig)[..0] == [] && IncomeOverrides(orig)[..0] == [];
    assert PortfolioOverrides(orig)[..0] == [] && AssumptionOverrides(orig)[..0] == [];
    assert RateOverrides(orig)[..0] == [];
  }

  /** With the baseline back-filled, the carried blocks have exactly the baseline's keys. */
  lemma CarryKeys(orig: seq<Event>, b: Baseline, i: nat)
    requires Backfilled(orig, b) && i <= |orig|
    ensures var c := CarryAfter(orig, b, i);
      && c.exp.Keys == b.expenses.Keys && c.inc.Keys == b.income.Keys && c.ass.Keys == b.assumptions.Keys
      && SnapshotNested(c.port, b.portfolio) == c.port
  {
    RunningKeysBackfilled(b.expenses, ExpenseOverrides(orig), i);
    RunningKeysBackfilled(b.income, IncomeOverrides(orig), i);
    RunningKeysBackfilled(b.assumptions, AssumptionOverrides(orig), i);
    SnapshotOfRunning(b.portfolio, PortfolioOverrides(orig), i);
  }

  /** One event more: each block is updated by the event's override, the rate replaced if it sets one. */
  lemma CarryStep(orig: seq<Event>, b: Baseline, i: nat)
    requires i < |orig|
    ensures var c := CarryAfter(orig, b, i); var ev := orig[i];
      CarryAfter(orig, b, i + 1)
      == Carry(c.exp + ExpenseOverride(ev), c.inc + IncomeOverride(ev),
               MergeNested(c.port, PortfolioOverride(ev)), c.ass + AssumptionOverride(ev),
               if RateOverride(ev).Some? then RateOverride(ev).value else c.rate)
  {
    RunningPrefixes(orig, b, i);
  }

  /** Writing back the carried state after event i is rewriting event i. */
  lemma WriteBackRewrites(orig: seq<Event>, b: Baseline, i: nat)
    requires Backfilled(orig, b) && i < |orig|
    ensures var c := CarryAfter(orig, b, i + 1);
      && b.expenses.Keys <= c.exp.Keys && b.income.Keys <= c.inc.Keys && b.assumptions.Keys <= c.ass.Keys
      && WriteBack(orig[i], b, c.exp, c.inc, c.port, c.ass, c.rate) == Rewritten(orig, b, i)
  {
    var c := CarryAfter(orig, b, i + 1);
    CarryKeys(orig, b, i + 1);
    SnapshotWhole(c.exp);
    SnapshotWhole(c.inc);
    SnapshotWhole(c.ass);
  }

  lemma SnapshotWhole(m: Amounts)
    ensures Snapshot(m, m.Keys) == m
  {
  }

  lemma RewrittenStep(orig: seq<Event>, b: Baseline, i: nat)
    requires i < |orig|
    ensures PartlyRewritten(orig, b, i + 1) == PartlyRewritten(orig, b, i)[i := Rewritten(orig, b, i)]
  {
  }

  /** The first pass: every key an event introduces is added to the baseline at 0.0. */
  method BackfillBaseline(data: UserData) returns (b: Baseline)
    ensures b == BaselineOf(data)
  {
    var events := data.lifeEvents;
    var baseExp, baseInc, basePort, baseAss := data.expenses.breakdown, data.income, data.portfolio, data.assumptions;
    var i := 0;
    while i < |events|
      invariant i <= |events|
      invariant baseExp == Backfill(data.expenses.breakdown, ExpenseOverrides(events)[..i])
      invariant baseInc == Backfill(data.income, IncomeOverrides(events)[..i])
      invariant basePort == BackfillNested(data.portfolio, PortfolioOverrides(events)[..i])
      invariant baseAss == Backfill(data.assumptions, AssumptionOverrides(events)[..i])
    {
      BackfillPrefixes(data, i);
      baseExp := ZeroFill(baseExp, ExpenseOverride(events[i]).Keys);
      baseInc := ZeroFill(baseInc, IncomeOverride(events[i]).Keys);
      basePort := ZeroFillNested(basePort, PortfolioOverride(events[i]));
      baseAss := ZeroFill(baseAss, AssumptionOverride(events[i]).Keys);
      i := i + 1;
    }
    BackfillWhole(data);
    b := Baseline(baseExp, baseInc, basePort, baseAss, data.expenses.totalTaxRate.GetOr(0.0));
  }

  /**
   * The second pass: each event in turn gets complete snapshots of the state carried
   * so far; rate0 is the baseline's own total_tax_rate, rewritten by every event.
   */
  method RewriteEvents(orig: seq<Event>, b: Baseline, rate0: Option<real>) returns (events: seq<Event>, rate: Option<real>)
    requires Backfilled(orig, b) && b.rate == rate0.GetOr(0.0)
    ensures events == RewriteAll(orig, b)
    ensures rate == if orig == [] then rate0 else Some(RunningRate(b.rate, RateOverrides(orig)))
  {
    events := orig;
    var currExp, currInc, currPort, currAss := b.expenses, b.income, b.portfolio, b.assumptions;
    rate := rate0;
    CarryStart(orig, b);
    var i := 0;
    while i < |orig|
      invariant i <= |orig|
      invariant Carry(currExp, currInc, currPort, currAss, rate.GetOr(0.0)) == CarryAfter(orig, b, i)
      invariant rate == if i == 0 then rate0 else Some(CarryAfter(orig, b, i).rate)
      invariant events == PartlyRewritten(orig, b, i)
    {
      var total;
      events, currExp, currInc, currPort, currAss, total :=
        RewriteAt(orig, b, i, events, currExp, currInc, currPort, currAss, rate.GetOr(0.0));
      rate := Some(total);
      i := i + 1;
    }
    RateAfterAll(orig, b);
  }

  /** The loop body for event i: merge its overrides into the carried state, then write it back. */
  method RewriteAt(orig: seq<Event>, b: Baseline, i: nat, events: seq<Event>,
                   currExp: Amounts, currInc: Amounts, currPort: Nested, currAss: Amounts, rate: real)
    returns (events': seq<Event>, exp': Amounts, inc': Amounts, port': Nested, ass': Amounts, total: real)
    requires Backfilled(orig, b) && i < |orig|
    requires Carry(currExp, currInc, currPort, currAss, rate) == CarryAfter(orig, b, i)
    requires events == PartlyRewritten(orig, b, i)
    ensures Carry(exp', inc', port', ass', total) == CarryAfter(orig, b, i + 1)
    ensures events' == PartlyRewritten(orig, b, i + 1)
  {
    var ev := events[i];
    CarryStep(orig, b, i);
    WriteBackRewrites(orig, b, i);
    RewrittenStep(orig, b, i);
    exp' := currExp + ExpenseOverride(ev);
    total := if RateOverride(ev).Some? then RateOverride(ev).value else rate;
    inc' := currInc + IncomeOverride(ev);
    port' := MergePortfolio(currPort, PortfolioOverride(ev));
    ass' := currAss + AssumptionOverride(ev);
    events' := events[i := WriteBack(ev, b, exp', inc', port', ass', total)];
  }

  lemma RateAfterAll(orig: seq<Event>, b: Baseline)
    ensures CarryAfter(orig, b, |orig|).rate == RunningRate(b.rate, RateOverrides(orig))
    ensures PartlyRewritten(orig, b, |orig|) == RewriteAll(orig, b)
  {
    assert RateOverrides(orig)[..|orig|] == RateOverrides(orig);
  }

  /** normalize_user_data_events(data), with data passed in and the updated data returned. */
  method NormalizeUserDataEvents(data: UserData) returns (r: Result<UserData, NormalizeError>)
    ensures r == Normalized(data)
  {
    // chronological order first
    var err := CheckOrder(data.lifeEvents);
    if err.Some? {
      return Failure(err.value);
    }
    var b := BackfillBaseline(data);
    BaselineBackfilled(data);
    var events, rate := RewriteEvents(data.lifeEvents, b, data.expenses.totalTaxRate);
    r := Success(data.(
      expenses := data.expenses.(breakdown := b.expenses, totalTaxRate := rate),
      income := b.income,
      portfolio := b.portfolio,
      assumptions := b.assumptions,
      lifeEvents := events));
    assert r.value == NormalizedData(data);
  }

  // ---------------------------------------------------------------------------
  // What normalization promises
  // ---------------------------------------------------------------------------

  /** Every block in ups has exactly base's keys. */
  ghost predicate Complete(ups: seq<Amounts>, base: Amounts) {
    forall j :: 0 <= j < |ups| ==> ups[j].Keys == base.Keys
  }

  /** Every nested block in ups has exactly base's categories, each with exactly base's sub-keys. */
  ghost predicate CompleteNested(ups: seq<Nested>, base: Nested) {
    forall j :: 0 <= j < |ups| ==>
      ups[j].Keys == base.Keys && forall cat :: cat in ups[j] ==> ups[j][cat].Keys == Sub(base, cat).Keys
  }

  /** Every event carries all four blocks and a tax rate. */
  ghost predicate Filled(evs: seq<Event>) {
    forall j :: 0 <= j < |evs| ==>
      && evs[j].updatedExpenses.Some?
      && evs[j].updatedExpenses.value.breakdown.Some?
      && evs[j].updatedExpenses.value.totalTaxRate.Some?
      && evs[j].updatedIncome.Some? && evs[j].updatedPortfolio.Some? && evs[j].updatedAssumptions.Some?
  }

  /**
   * Nothing but the baselines, the carried tax rate and the four override blocks of each
   * event changes; the events keep their order, dates and everything else.
   */
  lemma NormalizedFrame(d: UserData)
    ensures var d1 := NormalizedData(d);
      && d1.(expenses := d.expenses, income := d.income, portfolio := d.portfolio,
             assumptions := d.assumptions, lifeEvents := d.lifeEvents) == d
      && d1.expenses.(breakdown := d.expenses.breakdown, totalTaxRate := d.expenses.totalTaxRate) == d.expenses
      && |d1.lifeEvents| == |d.lifeEvents|
      && forall i :: 0 <= i < |d.lifeEvents| ==>
           var e := d.lifeEvents[i]; var e1 := d1.lifeEvents[i];
           && e1.(updatedExpenses := e.updatedExpenses, updatedIncome := e.updatedIncome,
                  updatedPortfolio := e.updatedPortfolio, updatedAssumptions := e.updatedAssumptions) == e
           && e1.updatedExpenses.Some?
           && e1.updatedExpenses.value.classification == e.updatedExpenses.GetOr(NoExpenseUpdate).classification
           && e1.updatedExpenses.value.spendingPolicy == e.updatedExpenses.GetOr(NoExpenseUpdate).spendingPolicy
  {
  }

  /**
   * The baselines gain every key an event introduces, at 0.0, and keep their own entries;
   * the portfolio gains every category and, per category, every sub-key likewise.
   */
  lemma NormalizedBaseline(d: UserData)
    ensures var d1 := NormalizedData(d); var evs := d.lifeEvents;
      && d1.expenses.breakdown.Keys == d.expenses.breakdown.Keys + AllKeys(ExpenseOverrides(evs))
      && (forall k :: k in d.expenses.breakdown ==> d1.expenses.breakdown[k] == d.expenses.breakdown[k])
      && (forall k :: k in d1.expenses.breakdown && k !in d.expenses.breakdown ==> d1.expenses.breakdown[k] == 0.0)
      && d1.income.Keys == d.income.Keys + AllKeys(IncomeOverrides(evs))
      && (forall k :: k in d.income ==> d1.income[k] == d.income[k])
      && (forall k :: k in d1.income && k !in d.income ==> d1.income[k] == 0.0)
      && d1.assumptions.Keys == d.assumptions.Keys + AllKeys(AssumptionOverrides(evs))
      && (forall k :: k in d.assumptions ==> d1.assumptions[k] == d.assumptions[k])
      && (forall k :: k in d1.assumptions && k !in d.assumptions ==> d1.assumptions[k] == 0.0)
      && d1.portfolio.Keys == d.portfolio.Keys + AllCategories(PortfolioOverrides(evs))
  {
    var evs := d.lifeEvents;
    BackfillSpec(d.expenses.breakdown, ExpenseOverrides(evs));
    BackfillSpec(d.income, IncomeOverrides(evs));
    BackfillSpec(d.assumptions, AssumptionOverrides(evs));
    BackfillNestedKeys(d.portfolio, PortfolioOverrides(evs));
  }

  /** Per category, the portfolio baseline gains every sub-key an event sets there, at 0.0. */
  lemma NormalizedPortfolioBaseline(d: UserData, cat: string)
    ensures var p1 := Sub(NormalizedData(d).portfolio, cat); var p := Sub(d.portfolio, cat);
      && p1.Keys == p.Keys + AllKeys(Column(PortfolioOverrides(d.lifeEvents), cat))
      && (forall sk :: sk in p ==> p1[sk] == p[sk])
      && (forall sk :: sk in p1 && sk !in p ==> p1[sk] == 0.0)
  {
    var ups := PortfolioOverrides(d.lifeEvents);
    BackfillNestedSpec(d.portfolio, ups, cat);
    BackfillSpec(Sub(d.portfolio, cat), Column(ups, cat));
  }

  /** Every event ends up with a complete snapshot of every block, over the new baselines' keys. */
  lemma NormalizedComplete(d: UserData)
    ensures var d1 := NormalizedData(d); var evs1 := d1.lifeEvents;
      && Filled(evs1)
      && Complete(ExpenseOverrides(evs1), d1.expenses.breakdown)
      && Complete(IncomeOverrides(evs1), d1.income)
      && Complete(AssumptionOverrides(evs1), d1.assumptions)
      && CompleteNested(PortfolioOverrides(evs1), d1.portfolio)
  {
    var evs := d.lifeEvents;
    var b := BaselineOf(d);
    var evs1 := NormalizedData(d).lifeEvents;
    BaselineBackfilled(d);
    forall j | 0 <= j < |evs1|
      ensures && ExpenseOverride(evs1[j]).Keys == b.expenses.Keys
              && IncomeOverride(evs1[j]).Keys == b.income.Keys
              && AssumptionOverride(evs1[j]).Keys == b.assumptions.Keys
              && PortfolioOverride(evs1[j]).Keys == b.portfolio.Keys
              && forall cat :: cat in PortfolioOverride(evs1[j]) ==>
                   PortfolioOverride(evs1[j])[cat].Keys == Sub(b.portfolio, cat).Keys
    {
      assert evs1[j] == Rewritten(evs, b, j);
      RewrittenComplete(evs, b, j);
    }
  }

  /** One rewritten event has every block, over the baseline's keys. */
  lemma RewrittenComplete(evs: seq<Event>, b: Baseline, j: nat)
    requires Backfilled(evs, b) && j < |evs|
    ensures var e := Rewritten(evs, b, j);
      && ExpenseOverride(e).Keys == b.expenses.Keys
      && IncomeOverride(e).Keys == b.income.Keys
      && AssumptionOverride(e).Keys == b.assumptions.Keys
      && PortfolioOverride(e).Keys == b.portfolio.Keys
      && forall cat :: cat in PortfolioOverride(e) ==> PortfolioOverride(e)[cat].Keys == Sub(b.portfolio, cat).Keys
  {
    CarryKeys(evs, b, j + 1);
    RunningCategories(b.portfolio, PortfolioOverrides(evs), j + 1);
  }

  /**
   * Forward fill: in event i's snapshot, each key of a flat block holds the value the latest
   * event up to i set it to, or the baseline's value when none did; and it has no other keys.
   */
  lemma NormalizedForwardFill(d: UserData, i: nat, k: string)
    requires i < |d.lifeEvents|
    ensures var d1 := NormalizedData(d); var evs := d.lifeEvents; var e1 := d1.lifeEvents[i];
      && ForwardFilled(ExpenseOverride(e1), d1.expenses.breakdown, ExpenseOverrides(evs)[..i + 1], k)
      && ForwardFilled(IncomeOverride(e1), d1.income, IncomeOverrides(evs)[..i + 1], k)
      && ForwardFilled(AssumptionOverride(e1), d1.assumptions, AssumptionOverrides(evs)[..i + 1], k)
  {
    var evs := d.lifeEvents;
    var b := BaselineOf(d);
    BaselineBackfilled(d);
    CarryKeys(evs, b, i + 1);
    RunningValue(b.expenses, ExpenseOverrides(evs)[..i + 1], k);
    RunningValue(b.income, IncomeOverrides(evs)[..i + 1], k);
    RunningValue(b.assumptions, AssumptionOverrides(evs)[..i + 1], k);
  }

  /** snap holds base's keys, and k the latest value ups set it to, else base's. */
  ghost predicate ForwardFilled(snap: Amounts, base: Amounts, ups: seq<Amounts>, k: string) {
    && (k in snap <==> k in base)
    && (k in snap ==> snap[k] == match LastSetter(ups, k) case Some(j) => ups[j][k] case None => base[k])
  }

  /** Forward fill for the portfolio, one category at a time. */
  lemma NormalizedPortfolioForwardFill(d: UserData, i: nat, cat: string, sk: string)
    requires i < |d.lifeEvents|
    ensures var d1 := NormalizedData(d);
      ForwardFilled(Sub(PortfolioOverride(d1.lifeEvents[i]), cat), Sub(d1.portfolio, cat),
                    Column(PortfolioOverrides(d.lifeEvents)[..i + 1], cat), sk)
  {
    var evs := d.lifeEvents;
    var b := BaselineOf(d);
    var ups := PortfolioOverrides(evs);
    BaselineBackfilled(d);
    RunningNestedSpec(b.portfolio, ups[..i + 1], cat);
    RunningValue(Sub(b.portfolio, cat), Column(ups[..i + 1], cat), sk);
    RunningCategories(b.portfolio, ups, i + 1);
    if cat in RunningNested(b.portfolio, ups[..i + 1]) {
      RunningCategoryKeys(b.portfolio, ups, i + 1, cat);
    }
  }

  /**
   * The tax rate of event i is the one the latest event up to i sets, or the input's
   * total_tax_rate (0.0 when absent) when none does; afterwards the input's own
   * total_tax_rate is the last event's.
   */
  lemma NormalizedTax(d: UserData, i: nat)
    requires i < |d.lifeEvents|
    ensures var evs := d.lifeEvents;
      var rate := NormalizedData(d).lifeEvents[i].updatedExpenses.value.totalTaxRate;
      && ((forall j :: 0 <= j <= i ==> RateOverride(evs[j]).None?) ==> rate == Some(d.expenses.totalTaxRate.GetOr(0.0)))
      && (forall j :: 0 <= j <= i && RateOverride(evs[j]).Some? && (forall l :: j < l <= i ==> RateOverride(evs[l]).None?) ==>
            rate == RateOverride(evs[j]))
  {
    var evs := d.lifeEvents;
    var rates := RateOverrides(evs)[..i + 1];
    EventTax(d, i);
    RunningRateIsLatest(BaselineOf(d).rate, rates);
    forall j | 0 <= j <= i
      ensures rates[j] == RateOverride(evs[j])
    {
    }
  }

  lemma EventTax(d: UserData, i: nat)
    requires i < |d.lifeEvents|
    ensures NormalizedData(d).lifeEvents[i].updatedExpenses.value.totalTaxRate
         == Some(RunningRate(d.expenses.totalTaxRate.GetOr(0.0), RateOverrides(d.lifeEvents)[..i + 1]))
  {
    assert NormalizedData(d).lifeEvents[i] == Rewritten(d.lifeEvents, BaselineOf(d), i);
  }

  /** Afterwards the input's own total_tax_rate is the last event's. */
  lemma NormalizedFinalTax(d: UserData)
    requires d.lifeEvents != []
    ensures var d1 := NormalizedData(d);
      d1.expenses.totalTaxRate == d1.lifeEvents[|d.lifeEvents| - 1].updatedExpenses.value.totalTaxRate
  {
    var evs := d.lifeEvents;
    assert RateOverrides(evs)[..|evs|] == RateOverrides(evs);
    assert NormalizedData(d).lifeEvents[|evs| - 1] == Rewritten(evs, BaselineOf(d), |evs| - 1);
  }

  /** A portfolio with every category and sub-key already present is left alone by the back-fill. */
  lemma BackfillNestedNoop(base: Nested, ups: seq<Nested>)
    requires CompleteNested(ups, base)
    ensures BackfillNested(base, ups) == base
  {
    var r := BackfillNested(base, ups);
    BackfillNestedKeys(base, ups);
    AllCategoriesBound(ups, base.Keys);
    forall cat | cat in base
      ensures r[cat] == base[cat]
    {
      BackfillNestedSpec(base, ups, cat);
      ColumnComplete(base, ups, cat);
      BackfillNoop(Sub(base, cat), Column(ups, cat));
    }
  }

  lemma {:induction false} AllCategoriesBound(ups: seq<Nested>, keys: set<string>)
    requires forall j :: 0 <= j < |ups| ==> ups[j].Keys <= keys
    ensures AllCategories(ups) <= keys
  {
    if ups != [] {
      AllCategoriesBound(ups[..|ups| - 1], keys);
    }
  }

  lemma AllKeysBound(ups: seq<Amounts>, keys: set<string>)
    requires forall j :: 0 <= j < |ups| ==> ups[j].Keys <= keys
    ensures AllKeys(ups) <= keys
  {
    forall k | k in AllKeys(ups)
      ensures k in keys
    {
      AllKeysIff(ups, k);
    }
  }

  /** A complete nested column is complete category by category. */
  lemma ColumnComplete(base: Nested, ups: seq<Nested>, cat: string)
    requires CompleteNested(ups, base)
    ensures Complete(Column(ups, cat), Sub(base, cat))
    ensures AllKeys(Column(ups, cat)) <= Sub(base, cat).Keys
  {
    AllKeysBound(Column(ups, cat), Sub(base, cat).Keys);
  }

  /** Forward-filling complete snapshots yields the latest snapshot. */
  lemma RunningNestedOfComplete(base: Nested, ups: seq<Nested>)
    requires ups != [] && CompleteNested(ups, base)
    ensures RunningNested(base, ups) == ups[|ups| - 1]
  {
    var r := RunningNested(base, ups);
    var last := ups[|ups| - 1];
    RunningNestedKeys(base, ups);
    AllCategoriesBound(ups, base.Keys);
    forall cat | cat in r
      ensures r[cat] == last[cat]
    {
      RunningNestedSpec(base, ups, cat);
      ColumnComplete(base, ups, cat);
      RunningOfComplete(Sub(base, cat), Column(ups, cat));
    }
  }

  lemma RunningOfCompletePrefix(base: Amounts, ups: seq<Amounts>, n: nat)
    requires 0 < n <= |ups| && Complete(ups, base)
    ensures Running(base, ups[..n]) == ups[n - 1]
  {
    RunningOfComplete(base, ups[..n]);
  }

  lemma RunningNestedOfCompletePrefix(base: Nested, ups: seq<Nested>, n: nat)
    requires 0 < n <= |ups| && CompleteNested(ups, base)
    ensures RunningNested(base, ups[..n]) == ups[n - 1]
  {
    assert CompleteNested(ups[..n], base);
    RunningNestedOfComplete(base, ups[..n]);
  }

  /** An event already carrying complete snapshots of the running state is rewritten to itself. */
  lemma RewrittenFixed(evs: seq<Event>, b: Baseline, i: nat)
    requires i < |evs| && Filled(evs)
    requires Complete(ExpenseOverrides(evs), b.expenses) && Complete(IncomeOverrides(evs), b.income)
    requires Complete(AssumptionOverrides(evs), b.assumptions) && CompleteNested(PortfolioOverrides(evs), b.portfolio)
    ensures Rewritten(evs, b, i) == evs[i]
  {
    var n := i + 1;
    var e := evs[i];
    RunningOfCompletePrefix(b.expenses, ExpenseOverrides(evs), n);
    RunningOfCompletePrefix(b.income, IncomeOverrides(evs), n);
    RunningOfCompletePrefix(b.assumptions, AssumptionOverrides(evs), n);
    RunningNestedOfCompletePrefix(b.portfolio, PortfolioOverrides(evs), n);
    assert RunningRate(b.rate, RateOverrides(evs)[..n]) == RateOverride(e).value by {
      assert RateOverrides(evs)[..n][i] == RateOverride(e);
    }
    assert e.updatedExpenses.Some? && e.updatedExpenses.value.breakdown.Some? && e.updatedExpenses.value.totalTaxRate.Some?;
    assert e.updatedIncome.Some? && e.updatedPortfolio.Some? && e.updatedAssumptions.Some?;
  }

  lemma RewriteAllFixed(evs: seq<Event>, b: Baseline)
    requires Filled(evs)
    requires Complete(ExpenseOverrides(evs), b.expenses) && Complete(IncomeOverrides(evs), b.income)
    requires Complete(AssumptionOverrides(evs), b.assumptions) && CompleteNested(PortfolioOverrides(evs), b.portfolio)
    ensures RewriteAll(evs, b) == evs
  {
    forall i | 0 <= i < |evs|
      ensures RewriteAll(evs, b)[i] == evs[i]
    {
      RewrittenFixed(evs, b, i);
    }
  }

  /** Data whose events carry complete blocks has nothing left to back-fill. */
  lemma BaselineOfComplete(d: UserData)
    requires Complete(ExpenseOverrides(d.lifeEvents), d.expenses.breakdown)
    requires Complete(IncomeOverrides(d.lifeEvents), d.income)
    requires Complete(AssumptionOverrides(d.lifeEvents), d.assumptions)
    requires CompleteNested(PortfolioOverrides(d.lifeEvents), d.portfolio)
    ensures BaselineOf(d) == Baseline(d.expenses.breakdown, d.income, d.portfolio, d.assumptions,
                                      d.expenses.totalTaxRate.GetOr(0.0))
  {
    var evs := d.lifeEvents;
    AllKeysBound(ExpenseOverrides(evs), d.expenses.breakdown.Keys);
    AllKeysBound(IncomeOverrides(evs), d.income.Keys);
    AllKeysBound(AssumptionOverrides(evs), d.assumptions.Keys);
    BackfillNoop(d.expenses.breakdown, ExpenseOverrides(evs));
    BackfillNoop(d.income, IncomeOverrides(evs));
    BackfillNoop(d.assumptions, AssumptionOverrides(evs));
    BackfillNestedNoop(d.portfolio, PortfolioOverrides(evs));
  }

  /** Rewriting already rewritten data gives it back unchanged. */
  lemma NormalizedDataFixed(d: UserData)
    ensures NormalizedData(NormalizedData(d)) == NormalizedData(d)
  {
    var d1 := NormalizedData(d);
    var evs1 := d1.lifeEvents;
    NormalizedFrame(d);
    NormalizedComplete(d);
    BaselineOfComplete(d1);
    RewriteAllFixed(evs1, BaselineOf(d1));
    if evs1 != [] {
      var last := |evs1| - 1;
      assert RateOverrides(evs1)[last] == RateOverride(evs1[last]);
      NormalizedFinalTax(d);
    }
  }

  /** The events keep their dates, so the order check gives the same verdict. */
  lemma NormalizedDates(d: UserData)
    ensures InDateOrder(NormalizedData(d).lifeEvents) <==> InDateOrder(d.lifeEvents)
  {
    NormalizedFrame(d);
    var evs1 := NormalizedData(d).lifeEvents;
    forall j | 0 <= j < |evs1|
      ensures evs1[j].date == d.lifeEvents[j].date
    {
    }
  }

  /** Normalizing normalized data succeeds and changes nothing. */
  lemma NormalizeIdempotent(d: UserData)
    requires Normalized(d).Success?
    ensures Normalized(Normalized(d).value) == Normalized(d)
  {
    NormalizedDates(d);
    NormalizedDataFixed(d);
  }
}
