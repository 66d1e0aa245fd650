/**
 * Input validators for base-profile and scenario files. Each validator is a
 * pure function from a JSON-like value to the list of error messages it
 * reports (empty means valid); validate_base_data can also raise, as its
 * Python counterpart does when `in` or `.get` meets a value of the wrong type.
 */
module UserDataValidation {
  import opened Wrappers
  import opened Strings
  import opened Json

  const SchemaTypeField := "schema_type"
  const SchemaTypeUserBase := "user_base"
  const SchemaTypeScenario := "scenario"

  const SchemaFields := ["person", "expenses", "portfolio", "life_events", "assumptions"]
  const RequiredExpenseFields := ["breakdown"]
  const RequiredPersonFields := ["name", "current_age"]
  const RequiredAssumptions := ["expected_return", "variance", "inflation"]
  const BaseTopLevelFields := ["person", "expenses", "income", "portfolio", "assumptions"]
  const ScenarioTopLevelFields := ["description", "life_events"]

  /** Keys allowed directly under updated_expenses. */
  const ReservedExpenseKeys := {"breakdown", "total_tax_rate", "classification", "spending_policy"}

  // ---------------------------------------------------------------------------
  // Schema type
  // ---------------------------------------------------------------------------

  /** The declared schema_type of a file, when it is an object whose schema_type is a string. */
  function GetSchemaType(obj: Json): (r: Option<string>)
    ensures r.Some? <==> obj.JObj? && SchemaTypeField in obj.fields && obj.fields[SchemaTypeField].JStr?
    ensures r.Some? ==> r.value == obj.fields[SchemaTypeField].s
  {
    if obj.JObj? && SchemaTypeField in obj.fields && obj.fields[SchemaTypeField].JStr?
    then Some(obj.fields[SchemaTypeField].s)
    else None
  }

  // ---------------------------------------------------------------------------
  // Life events
  // ---------------------------------------------------------------------------

  /** The updated_expenses block has the shape the engine applies. */
  predicate ShapeOk(ue: Json) {
    ue.JObj? && "breakdown" in ue.fields && ue.fields["breakdown"].JObj?
    && ue.fields.Keys <= ReservedExpenseKeys
  }

  /** A life_events entry the validator accepts. */
  predicate WellShapedEvent(ev: Json) {
    ev.JObj? && ("updated_expenses" in ev.fields ==> ShapeOk(ev.fields["updated_expenses"]))
  }

  /** Keys of updated_expenses outside the reserved set (listed in ascending order). */
  function ExtraExpenseKeys(ue: map<string, Json>): (r: seq<string>)
    ensures forall k :: k in r <==> k in ue && k !in ReservedExpenseKeys
    ensures r == [] <==> ue.Keys <= ReservedExpenseKeys
  {
    SortedKeys(ue.Keys - ReservedExpenseKeys)
  }

  /** The message for an updated_expenses block without a breakdown object; it names the key. */
  function MissingBreakdownMsg(where: string): (msg: string)
    ensures Contains(msg, "breakdown")
  {
    ContainsMiddle(where + ": updated_expenses is missing required '", "breakdown",
      "' object (use updated_expenses: { breakdown: { ... } })");
    where + ": updated_expenses is missing required '" + "breakdown"
      + "' object (use updated_expenses: { breakdown: { ... } })"
  }

  function NotObjectMsg(where: string, what: string): string {
    where + ": " + what + " must be an object"
  }

  function WrongLevelMsg(where: string, extras: seq<string>): string {
    where + ": updated_expenses contains expense keys at the wrong level: " + ListRepr(extras)
      + ". Move them under updated_expenses.breakdown."
  }

  function UpdatedExpensesShapeErrors(ue: Json, where: string): (errs: seq<string>)
    ensures !ue.JObj? ==> |errs| == 1
    ensures ue.JObj? && "breakdown" !in ue.fields ==> |errs| == 1 && Contains(errs[0], "breakdown")
    ensures |errs| <= 2
    ensures errs == [] <==> ShapeOk(ue)
  {
    if !ue.JObj? then
      [NotObjectMsg(where, "updated_expenses")]
    else if "breakdown" !in ue.fields then
      [MissingBreakdownMsg(where)]
    else
      var breakdownErrors :=
        if !ue.fields["breakdown"].JObj? then [NotObjectMsg(where, "updated_expenses.breakdown")]
        else [];
      var extras := ExtraExpenseKeys(ue.fields);
      var extraErrors := if extras != [] then [WrongLevelMsg(where, extras)] else [];
      breakdownErrors + extraErrors
  }

  /** Python's str() of an event name; non-string names are shown by a placeholder. */
  function Render(v: Json): string {
    match v
    case JStr(s) => s
    case JBool(b) => if b then "True" else "False"
    case _ => "<value>"
  }

  /** ev.get("event") or ev.get("name") or f"life_events[{idx}]" */
  function EventLabel(ev: map<string, Json>, idx: nat): string {
    if "event" in ev && Truthy(ev["event"]) then Render(ev["event"])
    else if "name" in ev && Truthy(ev["name"]) then Render(ev["name"])
    else "life_events[" + NatStr(idx) + "]"
  }

  function LifeEventErrors(ev: Json, idx: nat, context: string): (errs: seq<string>)
    ensures !ev.JObj? ==> |errs| == 1
    ensures ev.JObj? && "updated_expenses" !in ev.fields ==> errs == []
    ensures errs == [] <==> WellShapedEvent(ev)
  {
    if !ev.JObj? then
      [context + ": life_events[" + NatStr(idx) + "] must be an object"]
    else if "updated_expenses" in ev.fields then
      UpdatedExpensesShapeErrors(ev.fields["updated_expenses"], context + ": " + EventLabel(ev.fields, idx))
    else []
  }

  /** The number of entries of evs that are not objects. */
  function NonObjectCount(evs: seq<Json>): nat {
    if evs == [] then 0 else (if evs[0].JObj? then 0 else 1) + NonObjectCount(evs[1..])
  }

  /** Errors of the entries evs, the first of which sits at index start. */
  function LifeEventsFrom(evs: seq<Json>, start: nat, context: string): (errs: seq<string>)
    ensures errs == [] <==> forall i :: 0 <= i < |evs| ==> WellShapedEvent(evs[i])
    ensures |errs| >= NonObjectCount(evs)
    decreases |evs|
  {
    if evs == [] then []
    else LifeEventErrors(evs[0], start, context) + LifeEventsFrom(evs[1..], start + 1, context)
  }

  /** The message for a life_events value that is not a list. */
  function NotAListError(context: string): (msg: string)
    ensures Contains(msg, "life_events") && Contains(msg, "list")
  {
    var pre := context + ": ";
    var post := " must be a list";
    ContainsMiddle(pre, "life_events", post);
    assert OccursAt(pre + "life_events" + post, "list", |pre + "life_events" + post| - 4);
    pre + "life_events" + post
  }

  /** What validate_life_events accepts: None, or a list of well-shaped entries. */
  predicate LifeEventsOk(le: Json) {
    le.JNull? || (le.JArr? && forall i :: 0 <= i < |le.items| ==> WellShapedEvent(le.items[i]))
  }

  /** validate_life_events: None is accepted, a non-list is one error, entries are checked one by one. */
  function ValidateLifeEvents(le: Json, context: string): (errs: seq<string>)
    ensures le.JNull? ==> errs == []
    ensures !le.JNull? && !le.JArr? ==> |errs| == 1 && Contains(errs[0], "life_events") && Contains(errs[0], "list")
    ensures errs == [] <==> LifeEventsOk(le)
  {
    if le.JNull? then []
    else if !le.JArr? then [NotAListError(context)]
    else LifeEventsFrom(le.items, 0, context)
  }

  // ---------------------------------------------------------------------------
  // Pieces shared by the base and scenario validators
  // ---------------------------------------------------------------------------

  /** [k for k in keys if k not in m] */
  function MissingOf(keys: seq<string>, m: map<string, Json>): (r: seq<string>)
    ensures forall k :: k in r <==> k in keys && k !in m
    ensures r == [] <==> forall k :: k in keys ==> k in m
    ensures |r| <= |keys|
  {
    if keys == [] then []
    else (if keys[0] in m then [] else [keys[0]]) + MissingOf(keys[1..], m)
  }

  lemma {:induction false} JoinQuotedMentions(xs: seq<string>, i: nat)
    requires i < |xs|
    ensures Contains(JoinQuoted(xs), Quote(xs[i]))
  {
    var q := Quote(xs[i]);
    if |xs| == 1 {
      assert OccursAt(JoinQuoted(xs), q, 0);
    } else {
      var rest := JoinQuoted(xs[1..]);
      var pre := Quote(xs[0]) + ", ";
      assert JoinQuoted(xs) == pre + rest;
      if i == 0 {
        assert (pre + rest)[0..|q|] == q;
        assert OccursAt(JoinQuoted(xs), q, 0);
      } else {
        JoinQuotedMentions(xs[1..], i - 1);
        assert xs[1..][i - 1] == xs[i];
        var j :| 0 <= j <= |rest| - |q| && OccursAt(rest, q, j);
        assert (pre + rest)[|pre| + j..|pre| + j + |q|] == rest[j..j + |q|];
        assert OccursAt(pre + rest, q, |pre| + j);
      }
    }
  }

  /** The repr of a list names every element of the list. */
  lemma ListReprMentions(xs: seq<string>, i: nat)
    requires i < |xs|
    ensures Contains(ListRepr(xs), Quote(xs[i]))
  {
    JoinQuotedMentions(xs, i);
    var inner := JoinQuoted(xs);
    var q := Quote(xs[i]);
    var j :| 0 <= j <= |inner| - |q| && OccursAt(inner, q, j);
    var whole := "[" + inner + "]";
    assert whole[1 + j..1 + j + |q|] == inner[j..j + |q|];
    assert OccursAt(whole, q, 1 + j);
  }

  /** A string that occurs in the tail of a message occurs in the message. */
  lemma ContainsAfter(pre: string, s: string, sub: string)
    requires Contains(s, sub)
    ensures Contains(pre + s, sub)
  {
    var j :| 0 <= j <= |s| - |sub| && OccursAt(s, sub, j);
    assert (pre + s)[|pre| + j..|pre| + j + |sub|] == s[j..j + |sub|];
    assert OccursAt(pre + s, sub, |pre| + j);
  }

  /** One error listing every missing top-level field. */
  function MissingFieldsError(path: string, missing: seq<string>): (msg: string)
    ensures forall k :: k in missing ==> Contains(msg, Quote(k))
  {
    var pre := path + ": missing top-level fields: ";
    forall k | k in missing
      ensures Contains(pre + ListRepr(missing), Quote(k))
    {
      var i :| 0 <= i < |missing| && missing[i] == k;
      ListReprMentions(missing, i);
      ContainsAfter(pre, ListRepr(missing), Quote(k));
    }
    pre + ListRepr(missing)
  }

  /** One message per missing assumption key, each naming its key. */
  function AssumptionMessages(keys: seq<string>, path: string, tail: string): (errs: seq<string>)
    ensures |errs| == |keys|
    ensures forall i :: 0 <= i < |keys| ==> Contains(errs[i], Quote(keys[i]))
  {
    if keys == [] then []
    else
      var pre := path + ": assumptions missing ";
      ContainsMiddle(pre, Quote(keys[0]), tail);
      [pre + Quote(keys[0]) + tail] + AssumptionMessages(keys[1..], path, tail)
  }

  /** The schema_type errors shared by both validators: a single message naming schema_type. */
  function SchemaTypeError(path: string, st: Option<string>, expected: string): (msg: string)
    ensures Contains(msg, SchemaTypeField)
  {
    match st
    case None =>
      var pre := path + ": missing required top-level '";
      var post := "' (expected '" + expected + "')";
      ContainsMiddle(pre, SchemaTypeField, post);
      pre + SchemaTypeField + post
    case Some(s) =>
      var pre := path + ": ";
      var post := " is '" + s + "', expected '" + expected + "'";
      ContainsMiddle(pre, SchemaTypeField, post);
      pre + SchemaTypeField + post
  }

  // ---------------------------------------------------------------------------
  // Base files
  // ---------------------------------------------------------------------------

  /** Exactly one of birthdate / current_age must be given. */
  function PersonTimeErrors(hasBirthdate: bool, hasCurrentAge: bool, path: string): (errs: seq<string>)
    ensures errs == [] <==> hasBirthdate != hasCurrentAge
    ensures |errs| <= 1
  {
    (if !hasBirthdate && !hasCurrentAge then [path + ": person must include either 'birthdate' or 'current_age'"] else [])
    + (if hasBirthdate && hasCurrentAge then [path + ": person must not include both 'birthdate' and 'current_age'"] else [])
  }

  /** A block whose "breakdown" entry is an object. */
  predicate HasBreakdownObject(block: Json) {
    block.JObj? && "breakdown" in block.fields && block.fields["breakdown"].JObj?
  }

  /**
   * `"breakdown" not in block or not isinstance(block.get("breakdown"), dict)`: at most one error;
   * raises when `in` or `.get` meets a value that does not support them.
   */
  function BreakdownErrors(block: Json, msg: string): (r: Result<seq<string>, PyError>)
    ensures block.JObj? ==> r.Success? && (r.value == [] <==> HasBreakdownObject(block))
    ensures r.Success? ==> |r.value| <= 1
    ensures r.Failure? <==> !block.JObj? && PyIn("breakdown", block) != Success(false)
  {
    var present :- PyIn("breakdown", block);
    if !present then Success([msg])
    else if !block.JObj? then Failure(AttributeError)
    else if block.fields["breakdown"].JObj? then Success([])
    else Success([msg])
  }

  /** The three required assumption keys, all present. */
  predicate AssumptionsComplete(a: Json) {
    a.JObj? && forall k :: k in RequiredAssumptions ==> k in a.fields
  }

  function BaseAssumptionErrors(a: Json, path: string): (errs: seq<string>)
    ensures !a.JObj? ==> |errs| == 1
    ensures a.JObj? ==> |errs| == |MissingOf(RequiredAssumptions, a.fields)|
    ensures errs == [] <==> AssumptionsComplete(a)
  {
    if !a.JObj? then [path + ": assumptions must be an object"]
    else AssumptionMessages(MissingOf(RequiredAssumptions, a.fields), path, "")
  }

  /** All of BaseTopLevelFields are keys of m, stated key by key. */
  predicate HasBaseFields(m: map<string, Json>) {
    "person" in m && "expenses" in m && "income" in m && "portfolio" in m && "assumptions" in m
  }

  lemma BaseFieldsPresent(m: map<string, Json>)
    ensures HasBaseFields(m) <==> forall k :: k in BaseTopLevelFields ==> k in m
  {
  }

  /** What the checks after the top-level key check accept. */
  predicate BaseBodyOk(m: map<string, Json>)
    requires HasBaseFields(m)
  {
    && Has("name", m["person"])
    && Has("birthdate", m["person"]) != Has("current_age", m["person"])
    && HasBreakdownObject(m["expenses"])
    && m["income"].JObj?
    && HasBreakdownObject(m["portfolio"])
    && AssumptionsComplete(m["assumptions"])
    && ("life_events" in m ==> LifeEventsOk(m["life_events"]))
  }

  /** The checks validate_base_data runs once the schema type and top-level keys are right. */
  function BaseBodyErrors(base: map<string, Json>, path: string): (r: Result<seq<string>, PyError>)
    requires HasBaseFields(base)
    ensures (base["person"].JObj? && base["expenses"].JObj? && base["portfolio"].JObj?) ==> r.Success?
    ensures r.Failure? ==>
      (!(base["person"].JObj? || base["person"].JArr? || base["person"].JStr?)
       || !base["expenses"].JObj? || !base["portfolio"].JObj?)
  {
    var person := base["person"];
    if !(person.JObj? || person.JArr? || person.JStr?) then Failure(TypeError)
    else
      var hasName := PyIn("name", person).value;
      var hasBirthdate := PyIn("birthdate", person).value;
      var hasCurrentAge := PyIn("current_age", person).value;
      var expensesErrors :- BreakdownErrors(base["expenses"], path + ": expenses.breakdown missing or invalid");
      var incomeErrors := if !base["income"].JObj? then [path + ": income must be an object"] else [];
      var portfolioErrors :- BreakdownErrors(base["portfolio"], path + ": portfolio.breakdown missing or invalid");
      var lifeEvents := if "life_events" in base then base["life_events"] else JArr([]);
      Success(
        (if !hasName then [path + ": person missing 'name'"] else [])
        + PersonTimeErrors(hasBirthdate, hasCurrentAge, path)
        + expensesErrors
        + incomeErrors
        + portfolioErrors
        + BaseAssumptionErrors(base["assumptions"], path)
        + ValidateLifeEvents(lifeEvents, path))
  }

  /** Once nothing raises, the body checks report no error exactly when the body is acceptable. */
  lemma BaseBodyErrorsIff(base: map<string, Json>, path: string)
    requires HasBaseFields(base)
    requires base["person"].JObj? && base["expenses"].JObj? && base["portfolio"].JObj?
    ensures BaseBodyErrors(base, path) == Success([]) <==> BaseBodyOk(base)
  {
  }

  function ValidateBaseData(base: Json, path: string): (r: Result<seq<string>, PyError>)
    ensures !base.JObj? ==> r.Success? && |r.value| == 1
    ensures base.JObj? && GetSchemaType(base) != Some(SchemaTypeUserBase) ==>
      r.Success? && |r.value| == 1 && Contains(r.value[0], SchemaTypeField)
    ensures (base.JObj? && GetSchemaType(base) == Some(SchemaTypeUserBase)
             && MissingOf(BaseTopLevelFields, base.fields) != []) ==>
      (r.Success? && |r.value| == 1
       && forall k :: k in BaseTopLevelFields && k !in base.fields ==> Contains(r.value[0], Quote(k)))
  {
    if !base.JObj? then Success([path + ": base JSON must be an object"])
    else
      var st := GetSchemaType(base);
      if st != Some(SchemaTypeUserBase) then Success([SchemaTypeError(path, st, SchemaTypeUserBase)])
      else
        var missing := MissingOf(BaseTopLevelFields, base.fields);
        if missing != [] then Success([MissingFieldsError(path, missing)])
        else
          BaseFieldsPresent(base.fields);
          BaseBodyErrors(base.fields, path)
  }

  /** A base file that passes validate_base_data, stated field by field. */
  predicate WellFormedBase(b: Json) {
    && b.JObj?
    && GetSchemaType(b) == Some(SchemaTypeUserBase)
    && HasBaseFields(b.fields)
    && BaseBodyOk(b.fields)
  }

  /**
   * On a base whose person, expenses and portfolio blocks are objects (so that nothing
   * raises), validate_base_data reports no error exactly when the base is well formed.
   */
  lemma BaseValidIff(b: Json, path: string)
    requires b.JObj? && HasBaseFields(b.fields)
    requires b.fields["person"].JObj? && b.fields["expenses"].JObj? && b.fields["portfolio"].JObj?
    ensures ValidateBaseData(b, path) == Success([]) <==> WellFormedBase(b)
  {
    BaseBodyErrorsIff(b.fields, path);
    if GetSchemaType(b) == Some(SchemaTypeUserBase) {
      BaseFieldsPresent(b.fields);
      assert MissingOf(BaseTopLevelFields, b.fields) == [];
    }
  }

  // ---------------------------------------------------------------------------
  // Scenario files
  // ---------------------------------------------------------------------------

  /** When present, scenario assumptions must be an object holding all three keys. */
  function ScenarioAssumptionErrors(s: map<string, Json>, path: string): (errs: seq<string>)
    ensures "assumptions" !in s ==> errs == []
    ensures "assumptions" in s && !s["assumptions"].JObj? ==> |errs| == 1
    ensures "assumptions" in s && s["assumptions"].JObj? ==>
      |errs| == |MissingOf(RequiredAssumptions, s["assumptions"].fields)|
    ensures errs == [] <==> ("assumptions" in s ==> AssumptionsComplete(s["assumptions"]))
  {
    if "assumptions" !in s then []
    else if !s["assumptions"].JObj? then [path + ": assumptions must be an object when present"]
    else AssumptionMessages(MissingOf(RequiredAssumptions, s["assumptions"].fields), path,
                            " (scenario overrides must be complete)")
  }

  /** A scenario file that passes validate_scenario_data. */
  predicate WellFormedScenario(s: Json) {
    && s.JObj?
    && GetSchemaType(s) == Some(SchemaTypeScenario)
    && (forall k :: k in ScenarioTopLevelFields ==> k in s.fields)
    && s.fields["life_events"].JArr?
    && LifeEventsOk(s.fields["life_events"])
    && ("assumptions" in s.fields ==> AssumptionsComplete(s.fields["assumptions"]))
  }

  function ValidateScenarioData(scenario: Json, path: string): (errs: seq<string>)
    ensures !scenario.JObj? ==> |errs| == 1
    ensures scenario.JObj? && GetSchemaType(scenario) != Some(SchemaTypeScenario) ==>
      |errs| == 1 && Contains(errs[0], SchemaTypeField)
    ensures (scenario.JObj? && GetSchemaType(scenario) == Some(SchemaTypeScenario)
             && MissingOf(ScenarioTopLevelFields, scenario.fields) != []) ==>
      (|errs| == 1 && forall k :: k in ScenarioTopLevelFields && k !in scenario.fields ==> Contains(errs[0], Quote(k)))
    ensures (scenario.JObj? && GetSchemaType(scenario) == Some(SchemaTypeScenario)
             && "description" in scenario.fields && "life_events" in scenario.fields
             && !scenario.fields["life_events"].JArr?) ==>
      (|errs| >= 1 && Contains(errs[0], "life_events") && Contains(errs[0], "list"))
    ensures errs == [] <==> WellFormedScenario(scenario)
  {
    if !scenario.JObj? then [path + ": scenario JSON must be an object"]
    else
      var st := GetSchemaType(scenario);
      if st != Some(SchemaTypeScenario) then [SchemaTypeError(path, st, SchemaTypeScenario)]
      else
        var missing := MissingOf(ScenarioTopLevelFields, scenario.fields);
        if missing != [] then [MissingFieldsError(path, missing)]
        else
          var lifeEvents := scenario.fields["life_events"];
          var listErrors := if !lifeEvents.JArr? then [NotAListError(path)] else [];
          listErrors + ScenarioAssumptionErrors(scenario.fields, path) + ValidateLifeEvents(lifeEvents, path)
  }

  // ---------------------------------------------------------------------------
  // validate_json_schema: raises instead of returning messages
  // ---------------------------------------------------------------------------

  /** [f for f in keys if f not in c], with Python's `in` (which may raise). */
  function MissingByIn(keys: seq<string>, c: Json): (r: Result<seq<string>, PyError>)
    ensures r.Success? ==> forall k :: k in r.value <==> k in keys && !Has(k, c)
    ensures r.Success? ==> (r.value == [] <==> forall k :: k in keys ==> Has(k, c))
    ensures r.Failure? <==> keys != [] && !(c.JObj? || c.JArr? || c.JStr?)
  {
    if keys == [] then Success([])
    else
      assert forall k :: k in keys <==> k == keys[0] || k in keys[1..];
      match PyIn(keys[0], c)
      case Failure(e) => Failure(e)
      case Success(present) =>
        var rest := MissingByIn(keys[1..], c).value;
        assert Has(keys[0], c) == present;
        Success((if present then [] else [keys[0]]) + rest)
  }

  /** The first of keys not in c (None when all are), with Python's `in`. */
  function FirstMissing(keys: seq<string>, c: Json): (r: Result<Option<string>, PyError>)
    ensures r == Success(None) <==> forall k :: k in keys ==> Has(k, c)
    ensures r.Success? && r.value.Some? ==> r.value.value in keys && !Has(r.value.value, c)
  {
    if keys == [] then Success(None)
    else
      assert forall k :: k in keys <==> k == keys[0] || k in keys[1..];
      match PyIn(keys[0], c)
      case Failure(e) =>
        assert !Has(keys[0], c);
        Failure(e)
      case Success(present) =>
        assert Has(keys[0], c) == present;
        if !present then Success(Some(keys[0])) else FirstMissing(keys[1..], c)
  }

  /** What validate_json_schema demands of its argument. */
  predicate SchemaComplete(data: Json) {
    && data.JObj?
    && (forall f :: f in SchemaFields ==> f in data.fields)
    && (forall f :: f in RequiredPersonFields ==> Has(f, data.fields["person"]))
    && (forall f :: f in RequiredExpenseFields ==> Has(f, data.fields["expenses"]))
    && (forall f :: f in RequiredAssumptions ==> Has(f, data.fields["assumptions"]))
    && data.fields["life_events"].JArr?
  }

  /** The loop over required fields: the exception it raises, None when all are present. */
  function CheckFields(keys: seq<string>, c: Json, what: string): (r: Option<PyError>)
    ensures r.None? <==> forall k :: k in keys ==> Has(k, c)
  {
    match FirstMissing(keys, c)
    case Failure(e) => Some(e)
    case Success(None) => None
    case Success(Some(f)) => Some(ValueError("Missing " + what + " field: " + f))
  }

  /** validate_json_schema: None when it returns normally, otherwise the exception it raises. */
  function ValidateJsonSchema(data: Json): (r: Option<PyError>)
    ensures r.None? <==> SchemaComplete(data)
    ensures data.JObj? && (exists f :: f in SchemaFields && f !in data.fields) ==> r.Some? && r.value.ValueError?
  {
    match MissingByIn(SchemaFields, data)
    case Failure(e) => Some(e)
    case Success(missing) =>
      if missing != [] then Some(ValueError("Missing top-level fields: " + ListRepr(missing)))
      else if !data.JObj? then Some(TypeError)
      else
        assert forall f :: f in SchemaFields ==> f in data.fields;
        var personCheck := CheckFields(RequiredPersonFields, data.fields["person"], "person");
        if personCheck.Some? then personCheck
        else
          var expensesCheck := CheckFields(RequiredExpenseFields, data.fields["expenses"], "expenses");
          if expensesCheck.Some? then expensesCheck
          else
            var assumptionsCheck := CheckFields(RequiredAssumptions, data.fields["assumptions"], "assumption");
            if assumptionsCheck.Some? then assumptionsCheck
            else if !data.fields["life_events"].JArr? then Some(ValueError("life_events should be a list"))
            else None
  }
}
