/**
 * What apply_events_for_date promises: only the events dated on the current month
 * apply, in order; a reset to base without base assumptions raises; the label is
 * the first non-empty event name; later updates of a key win and untouched keys
 * keep their values; the changed flag says whether an assumption was set; and an
 * event that sets expected_return erases whatever return the state had before.
 */
module Events {
  import opened Wrappers
  import opened Sums
  import opened Types
  import opened Stepper

  // ---------------------------------------------------------------------------
  // Matching
  // ---------------------------------------------------------------------------

  /** Applying all the events is applying just the ones dated today, in their order. */
  lemma {:induction false} ApplyAllMatching(v: StateVals, today: YearMonth, evs: seq<Event>, base: Option<Amounts>)
    ensures ApplyAll(v, today, evs, base) == ApplyAll(v, today, Matching(evs, today), base)
    decreases |evs|
  {
    if evs != [] {
      var init := evs[..|evs| - 1];
      var ev := evs[|evs| - 1];
      ApplyAllMatching(v, today, init, base);
      var m := Matching(init, today);
      if Matches(ev, today) {
        var mm := m + [ev];
        assert Matching(evs, today) == mm;
        assert mm[..|mm| - 1] == m && mm[|mm| - 1] == ev;
      } else {
        assert Matching(evs, today) == m;
      }
    }
  }

  /** On a month no event is dated, the state is left alone and the report is empty. */
  lemma {:induction false} NoMatchNoChange(v: StateVals, today: YearMonth, evs: seq<Event>, base: Option<Amounts>)
    requires forall i :: 0 <= i < |evs| ==> !Matches(evs[i], today)
    ensures ApplyAll(v, today, evs, base) == Success(Applied(v, NoEvents))
    decreases |evs|
  {
    if evs != [] {
      NoMatchNoChange(v, today, evs[..|evs| - 1], base);
    }
  }

  // ---------------------------------------------------------------------------
  // The reset error
  // ---------------------------------------------------------------------------

  /** The call raises exactly when an event of the month resets to base and there is no base. */
  lemma {:induction false} ApplyAllFails(v: StateVals, today: YearMonth, evs: seq<Event>, base: Option<Amounts>)
    ensures ApplyAll(v, today, evs, base).Failure? <==>
      base.None? && exists i :: 0 <= i < |evs| && Matches(evs[i], today) && evs[i].resetToBase
    decreases |evs|
  {
    if evs != [] {
      var init := evs[..|evs| - 1];
      ApplyAllFails(v, today, init, base);
      assert forall i :: 0 <= i < |init| ==> init[i] == evs[i];
    }
  }

  // ---------------------------------------------------------------------------
  // The label
  // ---------------------------------------------------------------------------

  lemma EventLabel(a: Applied, ev: Event, base: Option<Amounts>)
    requires ApplyEvent(a, ev, base).Success?
    ensures ApplyEvent(a, ev, base).value.report.eventLabel ==
      if a.report.eventLabel == "" then ev.name else a.report.eventLabel
  {
  }

  /**
   * The label is the name of the first event of the month whose name is not empty,
   * and empty when there is none.
   */
  lemma {:induction false} ApplyAllLabel(v: StateVals, today: YearMonth, evs: seq<Event>, base: Option<Amounts>)
    requires ApplyAll(v, today, evs, base).Success?
    ensures var l := ApplyAll(v, today, evs, base).value.report.eventLabel;
      && (l == "" <==> forall i :: 0 <= i < |evs| && Matches(evs[i], today) ==> evs[i].name == "")
      && (l != "" ==> exists i :: 0 <= i < |evs| && Matches(evs[i], today) && evs[i].name == l &&
                        forall j :: 0 <= j < i && Matches(evs[j], today) ==> evs[j].name == "")
    decreases |evs|
  {
    if evs != [] {
      var init := evs[..|evs| - 1];
      var ev := evs[|evs| - 1];
      var a := ApplyAll(v, today, init, base).value;
      ApplyAllLabel(v, today, init, base);
      assert forall i :: 0 <= i < |init| ==> init[i] == evs[i];
      if Matches(ev, today) {
        EventLabel(a, ev, base);
      }
    }
  }

  // ---------------------------------------------------------------------------
  // Income and expense keys
  // ---------------------------------------------------------------------------

  /** The two blocks events merge into with dict.update. */
  datatype Block = IncomeBlock | ExpenseBlock

  function Amount(v: StateVals, b: Block): Amounts {
    if b.IncomeBlock? then v.income else v.expenses
  }

  /** The keys an event merges into the block, if it has that block. */
  function Update(ev: Event, b: Block): Option<Amounts> {
    if b.IncomeBlock? then ev.updatedIncome
    else if ev.updatedExpenses.Some? then ev.updatedExpenses.value.breakdown
    else None
  }

  /** ev falls on today and sets key k of block b. */
  predicate Sets(ev: Event, today: YearMonth, b: Block, k: string) {
    Matches(ev, today) && Update(ev, b).Some? && k in Update(ev, b).value
  }

  lemma EventAmount(a: Applied, ev: Event, base: Option<Amounts>, b: Block)
    requires ApplyEvent(a, ev, base).Success?
    ensures Amount(ApplyEvent(a, ev, base).value.vals, b) ==
      if Update(ev, b).Some? then Amount(a.vals, b) + Update(ev, b).value else Amount(a.vals, b)
  {
    var b1 := Applied(Overrides(a.vals, ev), a.report);
    assert Amount(b1.vals, b) ==
      if Update(ev, b).Some? then Amount(a.vals, b) + Update(ev, b).value else Amount(a.vals, b);
    var c1 := if ev.updatedAssumptions.Some? then TakeAssumptions(b1, ev.updatedAssumptions.value, false) else b1;
    assert Amount(c1.vals, b) == Amount(b1.vals, b);
    var d1 := if ev.resetToBase then TakeAssumptions(c1, base.value, true) else c1;
    assert Amount(d1.vals, b) == Amount(c1.vals, b);
  }

  /** A key no event of the month sets keeps its value, or stays absent. */
  lemma {:induction false} ApplyAllKeeps(v: StateVals, today: YearMonth, evs: seq<Event>, base: Option<Amounts>,
                                         b: Block, k: string)
    requires ApplyAll(v, today, evs, base).Success?
    requires forall i :: 0 <= i < |evs| ==> !Sets(evs[i], today, b, k)
    ensures var m := Amount(ApplyAll(v, today, evs, base).value.vals, b);
      && (k in m <==> k in Amount(v, b))
      && (k in m ==> m[k] == Amount(v, b)[k])
    decreases |evs|
  {
    if evs != [] {
      var init := evs[..|evs| - 1];
      var ev := evs[|evs| - 1];
      ApplyAllKeeps(v, today, init, base, b, k);
      if Matches(ev, today) {
        EventAmount(ApplyAll(v, today, init, base).value, ev, base, b);
      }
    }
  }

  /** A key takes the value of the last event of the month that sets it. */
  lemma {:induction false} ApplyAllLastWins(v: StateVals, today: YearMonth, evs: seq<Event>, base: Option<Amounts>,
                                            b: Block, k: string, j: nat)
    requires ApplyAll(v, today, evs, base).Success?
    requires j < |evs| && Sets(evs[j], today, b, k)
    requires forall i :: j < i < |evs| ==> !Sets(evs[i], today, b, k)
    ensures var m := Amount(ApplyAll(v, today, evs, base).value.vals, b);
      k in m && m[k] == Update(evs[j], b).value[k]
    decreases |evs|
  {
    var init := evs[..|evs| - 1];
    var ev := evs[|evs| - 1];
    if j < |evs| - 1 {
      ApplyAllLastWins(v, today, init, base, b, k, j);
    }
    if Matches(ev, today) {
      EventAmount(ApplyAll(v, today, init, base).value, ev, base, b);
    }
  }

  // ---------------------------------------------------------------------------
  // Classification keys
  // ---------------------------------------------------------------------------

  /** The classification an event merges into expenses_classification, if it has one. */
  function ClassUpdate(ev: Event): Option<Classification> {
    if ev.updatedExpenses.Some? then ev.updatedExpenses.value.classification else None
  }

  /** ev falls on today and classifies category k. */
  predicate Classifies(ev: Event, today: YearMonth, k: string) {
    Matches(ev, today) && ClassUpdate(ev).Some? && k in ClassUpdate(ev).value
  }

  lemma EventClassification(a: Applied, ev: Event, base: Option<Amounts>)
    requires ApplyEvent(a, ev, base).Success?
    ensures ApplyEvent(a, ev, base).value.vals.classification ==
      if ClassUpdate(ev).Some? then a.vals.classification + ClassUpdate(ev).value else a.vals.classification
  {
    var b1 := Applied(Overrides(a.vals, ev), a.report);
    assert b1.vals.classification ==
      if ClassUpdate(ev).Some? then a.vals.classification + ClassUpdate(ev).value else a.vals.classification;
    var c1 := if ev.updatedAssumptions.Some? then TakeAssumptions(b1, ev.updatedAssumptions.value, false) else b1;
    assert c1.vals.classification == b1.vals.classification;
    var d1 := if ev.resetToBase then TakeAssumptions(c1, base.value, true) else c1;
    assert d1.vals.classification == c1.vals.classification;
  }

  /** A category no event of the month classifies keeps its classification, or stays absent. */
  lemma {:induction false} ApplyAllClassKeeps(v: StateVals, today: YearMonth, evs: seq<Event>, base: Option<Amounts>,
                                              k: string)
    requires ApplyAll(v, today, evs, base).Success?
    requires forall i :: 0 <= i < |evs| ==> !Classifies(evs[i], today, k)
    ensures var m := ApplyAll(v, today, evs, base).value.vals.classification;
      && (k in m <==> k in v.classification)
      && (k in m ==> m[k] == v.classification[k])
    decreases |evs|
  {
    if evs != [] {
      var init := evs[..|evs| - 1];
      var ev := evs[|evs| - 1];
      ApplyAllClassKeeps(v, today, init, base, k);
      if Matches(ev, today) {
        EventClassification(ApplyAll(v, today, init, base).value, ev, base);
      }
    }
  }

  /** A category takes the classification of the last event of the month that classifies it. */
  lemma {:induction false} ApplyAllClassLastWins(v: StateVals, today: YearMonth, evs: seq<Event>,
                                                 base: Option<Amounts>, k: string, j: nat)
    requires ApplyAll(v, today, evs, base).Success?
    requires j < |evs| && Classifies(evs[j], today, k)
    requires forall i :: j < i < |evs| ==> !Classifies(evs[i], today, k)
    ensures var m := ApplyAll(v, today, evs, base).value.vals.classification;
      k in m && m[k] == ClassUpdate(evs[j]).value[k]
    decreases |evs|
  {
    var init := evs[..|evs| - 1];
    var ev := evs[|evs| - 1];
    if j < |evs| - 1 {
      ApplyAllClassLastWins(v, today, init, base, k, j);
    }
    if Matches(ev, today) {
      EventClassification(ApplyAll(v, today, init, base).value, ev, base);
    }
  }

  // ---------------------------------------------------------------------------
  // The tax rate and the spending policy
  // ---------------------------------------------------------------------------

  /** The single-valued settings an updated_expenses block may carry. */
  datatype Setting = TaxRateSetting | PolicyKind | PolicyCapRate | PolicyPriorityOrder

  /** A setting's value: a rate, a policy name or a priority order. */
  datatype Value = Rate(rate: real) | Name(name: string) | Order(order: seq<string>)

  function RateOf(x: Option<real>): Option<Value> {
    if x.Some? then Some(Rate(x.value)) else None
  }

  /** The state's value of a setting; a policy key the policy lacks has none. */
  function Current(v: StateVals, s: Setting): Option<Value> {
    match s
    case TaxRateSetting => Some(Rate(v.taxRate))
    case PolicyKind => if v.policy.kind.Some? then Some(Name(v.policy.kind.value)) else None
    case PolicyCapRate => RateOf(v.policy.capRate)
    case PolicyPriorityOrder =>
      if v.policy.priorityOrder.Some? then Some(Order(v.policy.priorityOrder.value)) else None
  }

  /** The value an event gives a setting, if it gives it one. */
  function Given(ev: Event, s: Setting): Option<Value> {
    if ev.updatedExpenses.None? then None
    else
      var ue := ev.updatedExpenses.value;
      match s
      case TaxRateSetting => RateOf(ue.totalTaxRate)
      case PolicyKind =>
        if ue.spendingPolicy.Some? && ue.spendingPolicy.value.kind.Some?
        then Some(Name(ue.spendingPolicy.value.kind.value)) else None
      case PolicyCapRate => if ue.spendingPolicy.Some? then RateOf(ue.spendingPolicy.value.capRate) else None
      case PolicyPriorityOrder =>
        if ue.spendingPolicy.Some? && ue.spendingPolicy.value.priorityOrder.Some?
        then Some(Order(ue.spendingPolicy.value.priorityOrder.value)) else None
  }

  /** ev falls on today and gives setting s a value. */
  predicate Gives(ev: Event, today: YearMonth, s: Setting) {
    Matches(ev, today) && Given(ev, s).Some?
  }

  lemma OverridesSetting(v: StateVals, ev: Event, s: Setting)
    ensures Current(Overrides(v, ev), s) == if Given(ev, s).Some? then Given(ev, s) else Current(v, s)
  {
    var v1 := if ev.updatedIncome.Some? then v.(income := v.income + ev.updatedIncome.value) else v;
    assert v1.taxRate == v.taxRate && v1.policy == v.policy;
    if ev.updatedExpenses.Some? {
      assert Overrides(v, ev) == ExpenseUpdated(v1, ev.updatedExpenses.value);
    } else {
      assert Overrides(v, ev) == v1;
    }
  }

  lemma EventSetting(a: Applied, ev: Event, base: Option<Amounts>, s: Setting)
    requires ApplyEvent(a, ev, base).Success?
    ensures Current(ApplyEvent(a, ev, base).value.vals, s) ==
      if Given(ev, s).Some? then Given(ev, s) else Current(a.vals, s)
  {
    var b1 := Applied(Overrides(a.vals, ev), a.report);
    OverridesSetting(a.vals, ev, s);
    var c1 := if ev.updatedAssumptions.Some? then TakeAssumptions(b1, ev.updatedAssumptions.value, false) else b1;
    assert Current(c1.vals, s) == Current(b1.vals, s);
    var d1 := if ev.resetToBase then TakeAssumptions(c1, base.value, true) else c1;
    assert Current(d1.vals, s) == Current(c1.vals, s);
  }

  /** A setting no event of the month gives keeps the value it had, or stays unset. */
  lemma {:induction false} ApplyAllSettingKeeps(v: StateVals, today: YearMonth, evs: seq<Event>,
                                                base: Option<Amounts>, s: Setting)
    requires ApplyAll(v, today, evs, base).Success?
    requires forall i :: 0 <= i < |evs| ==> !Gives(evs[i], today, s)
    ensures Current(ApplyAll(v, today, evs, base).value.vals, s) == Current(v, s)
    decreases |evs|
  {
    if evs != [] {
      var init := evs[..|evs| - 1];
      var ev := evs[|evs| - 1];
      ApplyAllSettingKeeps(v, today, init, base, s);
      if Matches(ev, today) {
        EventSetting(ApplyAll(v, today, init, base).value, ev, base, s);
      }
    }
  }

  /** A setting takes the value the last event of the month gives it. */
  lemma {:induction false} ApplyAllSettingLastWins(v: StateVals, today: YearMonth, evs: seq<Event>,
                                                   base: Option<Amounts>, s: Setting, j: nat)
    requires ApplyAll(v, today, evs, base).Success?
    requires j < |evs| && Gives(evs[j], today, s)
    requires forall i :: j < i < |evs| ==> !Gives(evs[i], today, s)
    ensures Current(ApplyAll(v, today, evs, base).value.vals, s) == Given(evs[j], s)
    decreases |evs|
  {
    var init := evs[..|evs| - 1];
    var ev := evs[|evs| - 1];
    if j < |evs| - 1 {
      ApplyAllSettingLastWins(v, today, init, base, s, j);
    }
    if Matches(ev, today) {
      EventSetting(ApplyAll(v, today, init, base).value, ev, base, s);
    }
  }

  // ---------------------------------------------------------------------------
  // The changed flag
  // ---------------------------------------------------------------------------

  /** ev sets expected_return, variance or inflation, directly or through a reset to base. */
  predicate Touches(ev: Event, base: Option<Amounts>) {
    || (ev.updatedAssumptions.Some? && HasAssumption(ev.updatedAssumptions.value))
    || (ev.resetToBase && base.Some? && HasAssumption(base.value))
  }

  lemma EventChanged(a: Applied, ev: Event, base: Option<Amounts>)
    requires ApplyEvent(a, ev, base).Success?
    ensures ApplyEvent(a, ev, base).value.report.changed == (a.report.changed || Touches(ev, base))
  {
  }

  /** The changed flag is set exactly when an event of the month sets one of the three assumptions. */
  lemma {:induction false} ApplyAllChanged(v: StateVals, today: YearMonth, evs: seq<Event>, base: Option<Amounts>)
    requires ApplyAll(v, today, evs, base).Success?
    ensures ApplyAll(v, today, evs, base).value.report.changed <==>
      exists i :: 0 <= i < |evs| && Matches(evs[i], today) && Touches(evs[i], base)
    decreases |evs|
  {
    if evs != [] {
      var init := evs[..|evs| - 1];
      var ev := evs[|evs| - 1];
      ApplyAllChanged(v, today, init, base);
      assert forall i :: 0 <= i < |init| ==> init[i] == evs[i];
      if Matches(ev, today) {
        EventChanged(ApplyAll(v, today, init, base).value, ev, base);
      }
    }
  }

  // ---------------------------------------------------------------------------
  // expected_return is overwritten
  // ---------------------------------------------------------------------------

  /** ev falls on today and carries expected_return in its updated_assumptions. */
  predicate SetsReturn(ev: Event, today: YearMonth) {
    Matches(ev, today) && ev.updatedAssumptions.Some? && ExpectedReturn in ev.updatedAssumptions.value
  }

  /** Everything but the expected return. */
  function Blur(a: Applied): Applied {
    a.(vals := a.vals.(expReturn := 0.0))
  }

  lemma OverridesBlur(v: StateVals, x: real, ev: Event)
    ensures Overrides(v.(expReturn := x), ev) == Overrides(v, ev).(expReturn := x)
  {
    var v1 := if ev.updatedIncome.Some? then v.(income := v.income + ev.updatedIncome.value) else v;
    var w := v.(expReturn := x);
    var w1 := if ev.updatedIncome.Some? then w.(income := w.income + ev.updatedIncome.value) else w;
    assert w1 == v1.(expReturn := x);
    if ev.updatedExpenses.Some? {
      ExpenseUpdatedBlur(v1, x, ev.updatedExpenses.value);
    }
  }

  lemma ExpenseUpdatedBlur(v: StateVals, x: real, ue: ExpenseUpdate)
    ensures ExpenseUpdated(v.(expReturn := x), ue) == ExpenseUpdated(v, ue).(expReturn := x)
  {
    var w := v.(expReturn := x);
    var v1 := if ue.breakdown.Some? then v.(expenses := v.expenses + ue.breakdown.value) else v;
    var w1 := if ue.breakdown.Some? then w.(expenses := w.expenses + ue.breakdown.value) else w;
    assert w1 == v1.(expReturn := x);
    var v2 := if ue.totalTaxRate.Some? then v1.(taxRate := ue.totalTaxRate.value) else v1;
    var w2 := if ue.totalTaxRate.Some? then w1.(taxRate := ue.totalTaxRate.value) else w1;
    assert w2 == v2.(expReturn := x);
    var v3 := if ue.classification.Some? then v2.(classification := v2.classification + ue.classification.value) else v2;
    var w3 := if ue.classification.Some? then w2.(classification := w2.classification + ue.classification.value) else w2;
    assert w3 == v3.(expReturn := x);
  }

  lemma TakeBlur(a1: Applied, a2: Applied, ua: Amounts, fromBase: bool)
    requires Blur(a1) == Blur(a2)
    ensures Blur(TakeAssumptions(a1, ua, fromBase)) == Blur(TakeAssumptions(a2, ua, fromBase))
    ensures ExpectedReturn in ua ==> TakeAssumptions(a1, ua, fromBase) == TakeAssumptions(a2, ua, fromBase)
  {
    assert a1.vals == a2.vals.(expReturn := a1.vals.expReturn);
    assert a1.report == a2.report;
  }

  lemma EventBlur(a1: Applied, a2: Applied, ev: Event, base: Option<Amounts>)
    requires Blur(a1) == Blur(a2)
    ensures var r1 := ApplyEvent(a1, ev, base); var r2 := ApplyEvent(a2, ev, base);
      && r1.Failure? == r2.Failure?
      && (r1.Success? ==> Blur(r1.value) == Blur(r2.value))
      && (ev.updatedAssumptions.Some? && ExpectedReturn in ev.updatedAssumptions.value ==> r1 == r2)
  {
    assert a1.vals == a2.vals.(expReturn := a1.vals.expReturn);
    OverridesBlur(a2.vals, a1.vals.expReturn, ev);
    var b1 := Applied(Overrides(a1.vals, ev), a1.report);
    var b2 := Applied(Overrides(a2.vals, ev), a2.report);
    assert Blur(b1) == Blur(b2);
    var c1 := if ev.updatedAssumptions.Some? then TakeAssumptions(b1, ev.updatedAssumptions.value, false) else b1;
    var c2 := if ev.updatedAssumptions.Some? then TakeAssumptions(b2, ev.updatedAssumptions.value, false) else b2;
    if ev.updatedAssumptions.Some? {
      TakeBlur(b1, b2, ev.updatedAssumptions.value, false);
    }
    assert Blur(c1) == Blur(c2);
    if !(ev.resetToBase && base.None?) {
      var d1 := if ev.resetToBase then TakeAssumptions(c1, base.value, true) else c1;
      var d2 := if ev.resetToBase then TakeAssumptions(c2, base.value, true) else c2;
      if ev.resetToBase {
        TakeBlur(c1, c2, base.value, true);
      }
      assert Blur(d1) == Blur(d2);
      assert d1.report == d2.report;
    }
  }

  /** Two states that differ only in their expected return stay that way. */
  lemma {:induction false} ApplyAllBlur(v: StateVals, x: real, today: YearMonth, evs: seq<Event>, base: Option<Amounts>)
    ensures var r1 := ApplyAll(v.(expReturn := x), today, evs, base); var r2 := ApplyAll(v, today, evs, base);
      && r1.Failure? == r2.Failure?
      && (r1.Success? ==> Blur(r1.value) == Blur(r2.value))
    decreases |evs|
  {
    if evs != [] {
      var init := evs[..|evs| - 1];
      var ev := evs[|evs| - 1];
      ApplyAllBlur(v, x, today, init, base);
      var p1 := ApplyAll(v.(expReturn := x), today, init, base);
      var p2 := ApplyAll(v, today, init, base);
      if p1.Success? && Matches(ev, today) {
        EventBlur(p1.value, p2.value, ev, base);
      }
    }
  }

  /**
   * Once an event of the month sets expected_return, the result no longer depends on
   * the expected return the state had before the call.
   */
  lemma {:induction false} ReturnOverwritten(v: StateVals, x: real, today: YearMonth, evs: seq<Event>,
                                             base: Option<Amounts>, j: nat)
    requires j < |evs| && SetsReturn(evs[j], today)
    ensures ApplyAll(v.(expReturn := x), today, evs, base) == ApplyAll(v, today, evs, base)
    decreases |evs|
  {
    var init := evs[..|evs| - 1];
    var ev := evs[|evs| - 1];
    var p1 := ApplyAll(v.(expReturn := x), today, init, base);
    var p2 := ApplyAll(v, today, init, base);
    if j < |evs| - 1 {
      ReturnOverwritten(v, x, today, init, base, j);
    } else {
      ApplyAllBlur(v, x, today, init, base);
      if p1.Success? {
        EventBlur(p1.value, p2.value, ev, base);
        assert ApplyAll(v.(expReturn := x), today, evs, base) == ApplyEvent(p1.value, ev, base);
        assert ApplyAll(v, today, evs, base) == ApplyEvent(p2.value, ev, base);
      } else {
        assert p1.error == p2.error;
      }
    }
  }
}
