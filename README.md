# Retirement simulator core, modelled in Dafny

This project models the core of a household retirement planner. It projects a portfolio month by month, or year by year, under dated life events. The model covers four pieces.

- **Event timing.** Life events may be timed by `t_month`, by `t{year, month}`, by an age, by a legacy date, or by an offset from another named event. Offsets may chain. Names must be unique and non-empty. Offset chains are resolved by repeated passes, and a pass that makes no progress is an error. Every event then gets a month-start date and a `t`, and the list is sorted stably by `t_month`. Income and expense keys that only events introduce start at 0.0, and unclassified expenses default to "fixed".
- **The stepping simulator.**
  - `SimState` is a class whose methods update its fields in place.
  - At each step, events dated this month overwrite the state key by key.
  - The spending policy rations discretionary spending under a withdrawal cap.
  - Cashflows gross up the net expense for tax.
  - The portfolio grows, is drawn down and is floored at 0, and expenses drift with inflation.
  - `simulate_retirement` runs min, expected and max return scenarios.
- **Monte Carlo.** `mc_core` drives the same step from an injected per-step return sampler. It moves the clock by the step index, freezes a trial at 0 once it is depleted, and records paths, terminal values, failure flags and the success rate. `run_monte_carlo_force` builds a month-to-return map of forced shocks in front of the normal sampler.
- **Normalization and validation.**
  - `normalize_user_data_events` checks that events are in date order and back-fills new keys into the baseline at 0.0. It then rewrites every event's override blocks as complete, forward-filled snapshots.
  - The validators of `engine/user_data_validation.py` return lists of error strings for base files, scenario files and `life_events`.

Layout, one module per file:

- `wrappers.dfy`: `Option` and `Result`.
- `strings.dfy`: Python `str.strip`, `in` on strings, digit strings, zero-padded formatting, and the code-point order that `sorted` uses.
- `sums.dfy`: sums over maps, `setdefault`, and restriction to a key set.
- `json.dfy`: a JSON value with Python truthiness and `in`.
- `types.dfy`: year/month arithmetic, `date_str`, and the event and user-data records.
- `sequences.dfy`: stable sort by an integer key, and a fail-fast map over a sequence.
- `loader.dfy`: the timing passes of `load_user_data` and the key back-fill.
- `normalize.dfy`: `normalize_user_data_events`.
- `validation.dfy`: `engine/user_data_validation.py`.
- `cashflow.dfy`: `sum_portfolio`, `apply_tax_rate`, `compute_cashflows` and `apply_spending_policy`.
- `stepper.dfy`: `SimState`, `apply_events_for_date`, `timeline` and `simulate_retirement`.
- `events.dfy`: properties of `apply_events_for_date`.
- `runs.dfy`: properties of a whole deterministic run.
- `montecarlo.dfy`: `mc_core` and the forced-shock map and sampler.

Each imperative routine has two parts: a method with loops and in-place updates, and a function on values that specifies it. The method's `ensures` ties its result or its new state to that function, and lemmas state what the function promises.

Where the written description and the code disagree, the model follows the code:
- For a surplus (net expense at most 0), `compute_cashflows` clamps the gross-up at 0 rather than passing the negative net expense through (`engine/retirement_simulator.py:466`).
- `assumption_reason` starts as the truthy string "undefined", so the `if not assumption_reason` branches never fire. The reason therefore records only the last expected-return assignment (`Stepper.Reason`).
- Each step record's `return_step_pct` is `(r - 1) * 100` of the step rate `r`, as line 629 computes it, although `r` is already a rate and not a factor (`StepRecord.returnPct`).
- Normalization overwrites the input's own `total_tax_rate` with the running rate (`data/normalize.py:82`).
- Normalization puts `expected_return` into every event. So an event dated on the start month overwrites the min/max return offsets, and the three scenarios coincide (`Runs.NormalizedScenariosCollapse`).

## Model

| member | source | states |
|---|---|---|
| Strings.StripEmptyIff | engine/retirement_simulator.py:31-33 | a name strips to "" exactly when it is all whitespace |
| Strings.StripEnds | engine/retirement_simulator.py:31 | a stripped name neither starts nor ends with whitespace |
| Strings.NatStrRoundTrip | engine/retirement_simulator.py:379-380 | decimal digits of a natural read back as that natural |
| Strings.FormatIntRoundTrip | engine/retirement_simulator.py:379-380 | the zero-padded `{v:0wd}` text parses back to v, for every width |
| Strings.LexTransitive | engine/retirement_simulator.py:555 | the string order `sorted` uses is transitive |
| Strings.LexTrichotomy | engine/retirement_simulator.py:555 | any two strings are equal or ordered one way |
| Strings.SortedKeys | engine/retirement_simulator.py:555 | `sorted(keys)` holds exactly the keys, once each |
| Strings.SortedKeysSorted | engine/retirement_simulator.py:555 | `sorted(keys)` is strictly increasing |
| Sums.SetDefaults | engine/retirement_simulator.py:184-187 | `setdefault` over a key set adds only the missing keys, with the default, and keeps every existing value |
| Sums.ZeroFill | engine/retirement_simulator.py:184-187 | the `setdefault(k, 0.0)` loop yields the map with the missing keys at 0.0 |
| Sums.SumSplit | engine/retirement_simulator.py:608-611 | the requested total is the discretionary sum plus the fixed sum |
| Sums.SumNonNegative | engine/retirement_simulator.py:319-322 | a sum of non-negative amounts is non-negative |
| Sums.SumMonotone | engine/retirement_simulator.py:463 | raising amounts key by key does not lower the sum |
| Sums.SumUpdate | engine/retirement_simulator.py:576 | overwriting one key changes the sum by the difference |
| Json.Get | engine/user_data_validation.py:38 | `dict.get` finds a value exactly when the key is present |
| Json.PyIn | engine/user_data_validation.py:136 | Python `in` on a dict tests its keys; on a non-container it raises |
| Types.FromMonthIndex | engine/retirement_simulator.py:699-700 | the year/month for a month count is valid and has that count |
| Types.MonthIndexInjective | engine/retirement_simulator.py:391 | two valid months are equal exactly when their month counts are |
| Types.AddMonths | engine/retirement_simulator.py:280-281 | start plus k months is a valid month, exactly k months later |
| Types.DateStrRoundTrip | engine/retirement_simulator.py:379-380 | `date_str(y, m)` parses back to (y, m) |
| Types.DateStrOrder | engine/retirement_simulator.py:581 | for years 0 to 9999, the string order of two date strings is the order of their months, so sorting events by `date` is sorting them by month index |
| Strings.LexDigits | engine/retirement_simulator.py:581 | on digit strings of one length, string order is numeric order |
| Strings.LexAppend | engine/retirement_simulator.py:581 | strings with equal-length prefixes compare by prefix first, then by the rest |
| Strings.FormatIntFixed | engine/retirement_simulator.py:379-380 | below 10^w, zero-padded formatting gives exactly w digits worth the value |
| Types.DateStrInjective | engine/retirement_simulator.py:389-391 | two dates are equal strings exactly when they are the same month, so comparing year/month pairs is faithful |
| Types.UpdatePolicy | engine/retirement_simulator.py:407-408 | a `spending_policy` update overwrites exactly the fields it gives |
| Sequences.SortBy | engine/retirement_simulator.py:285 | the sort is a permutation, ordered by the key |
| Sequences.SortStable | engine/retirement_simulator.py:285 | events with equal `t_month` keep their input order |
| Sequences.SortIdentity | engine/retirement_simulator.py:285 | sorting leaves a list unchanged exactly when it is already sorted |
| Sequences.MapAll | engine/retirement_simulator.py:234-268 | a per-event pass succeeds iff every event does, and then holds each event's result in order |
| Sequences.MapAllFirstFailure | engine/retirement_simulator.py:234-268 | a failing pass reports the first event that fails |
| Loader.ValidateUniqueEventNames | engine/retirement_simulator.py:27-41 | passes iff every stripped name is non-empty and none repeats; an empty name is reported first; the duplicates reported are exactly the repeated names |
| Loader.DuplicatesOfNames | engine/retirement_simulator.py:36 | the duplicate set is the set of names occurring twice, empty iff names are distinct |
| Loader.TOfMonth | engine/retirement_simulator.py:282 | the derived `t` has a month in 1..12 and maps back to the month count |
| Loader.TRoundTrip | engine/retirement_simulator.py:250 | for a valid `t{year, month}`, deriving `t` from `12*year + month - 1` gives it back |
| Loader.FixedMonth | engine/retirement_simulator.py:238-266 | an explicit `t_month` wins; `t` is accepted iff year >= 0 and month in 1..12; an age before the start fails; a date gives its month distance; no time form fails |
| Loader.Pass1Event | engine/retirement_simulator.py:234-268 | offset events pass untouched; others change only `t_month`, set to the fixed month |
| Loader.ResolveFixedTimes | engine/retirement_simulator.py:233-268 | the pass-1 loop equals the per-event pass over the list |
| Loader.LastIndexSpec | engine/retirement_simulator.py:54 | `by_name` maps each name to its last event |
| Loader.ChainMonotone | engine/retirement_simulator.py:56-90 | more passes never change a month already resolved |
| Loader.ResolvedFollowsRef | engine/retirement_simulator.py:81-89 | a resolved offset event's month is its reference's month plus 12*years + months |
| Loader.CycleUnresolvable | engine/retirement_simulator.py:92-101 | two offset events that name each other never resolve |
| Loader.StuckIsUnresolved | engine/retirement_simulator.py:92-101 | when a pass makes no progress, the offenders listed are exactly the unresolvable offset events |
| Loader.ResolvePass | engine/retirement_simulator.py:59-90 | one rescan: raises on the first empty or unknown `from`, only shrinks the open set, shrinks it strictly when it progressed, and reports a stuck state when it did not |
| Loader.ResolveOffsets | engine/retirement_simulator.py:43-101 | terminates; fails on a bad `from` or on events that no chain resolves, listing them; else every offset event gets its reference's month plus the offset and every other event is unchanged |
| Loader.Pass3Event | engine/retirement_simulator.py:274-282 | fails iff `t_month` is missing; else the date is start plus `t_month` months and `t` is filled only when absent |
| Loader.DateAllEvents | engine/retirement_simulator.py:273-282 | the pass-3 loop equals the per-event pass over the list |
| Loader.SortKeepsTimed | engine/retirement_simulator.py:285 | sorting keeps every event dated and timed |
| Loader.ResolveEventTiming | engine/retirement_simulator.py:226-285 | an empty name fails first, then the repeated names; then pass 1's error, the first bad offset `from` or the unresolved offenders; and when none of these applies the call succeeds; on success the result is the pass-1 list with every open offset event at its chain's month, dated by pass 3 and stably sorted by `t_month`, so it is sorted, timed and as long as the input |
| Loader.BackfillKeys | engine/retirement_simulator.py:164-194 | income gains "monthly" and every event income key at 0.0, the tax rate defaults to 0.0, the breakdown gains exactly the event expense keys at 0.0, old values are kept, and every breakdown key without a class is "fixed" |
| UserDataValidation.GetSchemaType | engine/user_data_validation.py:35-39 | a string `schema_type` of an object, else nothing |
| UserDataValidation.ExtraExpenseKeys | engine/user_data_validation.py:79 | the extras are exactly the non-reserved keys |
| UserDataValidation.UpdatedExpensesShapeErrors | engine/user_data_validation.py:54-84 | a non-object gives one error; a missing breakdown gives one error that mentions it and stops; at most two errors; none iff the block is well shaped |
| UserDataValidation.LifeEventErrors | engine/user_data_validation.py:95-104 | a non-object event gives one error; an event without `updated_expenses` gives none; none iff well shaped |
| UserDataValidation.LifeEventsFrom | engine/user_data_validation.py:95-106 | no errors iff every event is well shaped; at least one error per non-object event |
| UserDataValidation.ValidateLifeEvents | engine/user_data_validation.py:87-106 | None gives no errors; a non-list gives exactly one error that mentions `life_events` and "list"; no errors iff the list is well shaped |
| UserDataValidation.MissingOf | engine/user_data_validation.py:128-131 | the missing list holds exactly the required keys that are absent |
| UserDataValidation.MissingFieldsError | engine/user_data_validation.py:133 | the message quotes every missing key |
| UserDataValidation.AssumptionMessages | engine/user_data_validation.py:162-164 | one error per missing assumption, each quoting it |
| UserDataValidation.PersonTimeErrors | engine/user_data_validation.py:139-145 | no error iff exactly one of `birthdate`/`current_age` is present |
| UserDataValidation.BreakdownErrors | engine/user_data_validation.py:147-156 | on an object: no error iff `breakdown` is an object; on a non-container, `in` raises |
| UserDataValidation.BaseAssumptionErrors | engine/user_data_validation.py:158-164 | a non-object gives one error; an object gives one error per missing assumption |
| UserDataValidation.ValidateBaseData | engine/user_data_validation.py:109-167 | non-object, missing or wrong `schema_type` each give exactly one error; missing top-level fields give one error quoting all of them |
| UserDataValidation.BaseValidIff | engine/user_data_validation.py:109-167 | a base validates clean iff it is well formed |
| UserDataValidation.ScenarioAssumptionErrors | engine/user_data_validation.py:200-209 | absent assumptions give none; a non-object gives one; an object gives one per missing key |
| UserDataValidation.ValidateScenarioData | engine/user_data_validation.py:170-212 | single error for a non-object or a wrong `schema_type`; missing fields are quoted; a non-list `life_events` is reported first, mentioning `life_events` and "list"; no errors iff well formed |
| UserDataValidation.MissingByIn | engine/user_data_validation.py:216 | the missing fields are exactly those `in` does not find |
| UserDataValidation.CheckFields | engine/user_data_validation.py:220-230 | no error iff every required field is present |
| UserDataValidation.ValidateJsonSchema | engine/user_data_validation.py:215-233 | returns normally iff every required top-level, person, expense and assumption field is present and `life_events` is a list; a missing top-level field raises `ValueError` |
| Normalize.CheckOrder | data/normalize.py:18-22 | passes iff every event has a date and the dates never decrease |
| Normalize.AllKeysIff | data/normalize.py:39-60 | a key is introduced iff some event override names it |
| Normalize.BackfillSpec | data/normalize.py:39-48 | the baseline gains exactly the introduced keys, at 0.0, and keeps its own values |
| Normalize.BackfillNoop | data/normalize.py:39-60 | a baseline that already has every key is unchanged |
| Normalize.BackfillNestedKeys | data/normalize.py:49-52 | the portfolio gains exactly the introduced categories |
| Normalize.BackfillNestedSpec | data/normalize.py:49-56 | each category is back-filled with its own sub-keys at 0.0 |
| Normalize.LastSetter | data/normalize.py:63-73 | the index found is the last override that sets the key |
| Normalize.RunningValue | data/normalize.py:63-73 | the running value of a key is the latest override's, else the baseline's |
| Normalize.RunningKeys | data/normalize.py:63-73 | the running state has the baseline keys plus every overridden key |
| Normalize.RunningNestedSpec | data/normalize.py:92-97 | each running portfolio category is the forward fill of its own column |
| Normalize.RunningRateIsLatest | data/normalize.py:77-80 | the running tax rate is the latest event's own, else the initial rate |
| Normalize.ZeroFillNested | data/normalize.py:49-56 | the nested zero-fill loop equals the category back-fill |
| Normalize.Overwrite | data/normalize.py:73 | `dict.update` gives the overriding union |
| Normalize.MergePortfolio | data/normalize.py:93-97 | the nested override loop equals the category-wise merge |
| Normalize.BackfillBaseline | data/normalize.py:24-60 | the baseline step yields the back-filled baseline |
| Normalize.RewriteEvents | data/normalize.py:62-107 | the event walk rewrites every event as its complete snapshot and leaves the running tax rate as the result's |
| Normalize.RewriteAt | data/normalize.py:68-107 | one pass of the event walk advances the carried blocks by the event's overrides and rewrites that event |
| Normalize.Normalized | data/normalize.py:4-113 | fails iff events are out of date order; else the normalized data |
| Normalize.NormalizeUserDataEvents | data/normalize.py:4-113 | the in-place routine equals the normalization function |
| Normalize.NormalizedFrame | data/normalize.py:68-107 | only the baseline blocks, tax rate and override blocks change; classification and policy survive; the event count is kept |
| Normalize.NormalizedBaseline | data/normalize.py:39-60 | each baseline gains exactly the introduced keys at 0.0 and keeps its values |
| Normalize.NormalizedPortfolioBaseline | data/normalize.py:49-56 | each portfolio category gains exactly its introduced sub-keys at 0.0 |
| Normalize.NormalizedComplete | data/normalize.py:75-107 | every event has all blocks, each with exactly the baseline keys, category by category for the portfolio |
| Normalize.NormalizedForwardFill | data/normalize.py:63-107 | an event's expense, income and assumption value is the latest override up to it, else the baseline |
| Normalize.NormalizedPortfolioForwardFill | data/normalize.py:92-102 | a portfolio sub-value is the latest override up to the event, else the baseline, else 0.0 |
| Normalize.NormalizedTax | data/normalize.py:77-81 | an event's tax rate is the latest set up to it, else the input's rate or 0.0 |
| Normalize.NormalizedFinalTax | data/normalize.py:82 | the input's tax rate ends equal to the last event's |
| Normalize.NormalizedDates | data/normalize.py:20-22 | normalization keeps the date order check's verdict |
| Normalize.NormalizedDataFixed | data/normalize.py:68-107 | normalizing normalized data changes nothing |
| Normalize.NormalizeIdempotent | data/normalize.py:4-113 | a second call on the output returns it unchanged |
| Cashflow.CategoryTotals | engine/retirement_simulator.py:320-321 | each category's total is the sum of its values |
| Cashflow.SumPortfolioNonNegative | engine/retirement_simulator.py:318-322 | non-negative holdings have a non-negative total |
| Cashflow.SumPortfolioUpdate | engine/retirement_simulator.py:318-322 | replacing one category changes the total by its difference |
| Cashflow.ApplyTaxRateSpec | engine/retirement_simulator.py:324-325 | below 100% tax the result times (1 - tax) is the value; at or above it the value passes through; a non-negative value never shrinks |
| Cashflow.CashflowsSpec | engine/retirement_simulator.py:461-467 | taxed income, net expense and gross-up obey the tax identities; gross-up is non-negative and 0 for a surplus |
| Cashflow.DiscKeys | engine/retirement_simulator.py:518 | exactly the requested keys classified discretionary (default "fixed") |
| Cashflow.Dedup | engine/retirement_simulator.py:554 | keeps each element once, in first-seen order |
| Cashflow.FundingOrderSpec | engine/retirement_simulator.py:552-556 | the order lists every discretionary key once: listed priorities first, then the rest in ascending order |
| Cashflow.FundBounds | engine/retirement_simulator.py:562-569 | each funded amount lies between 0 and its request |
| Cashflow.FundSpent | engine/retirement_simulator.py:562-569 | the spend stays within the allowance |
| Cashflow.FundSum | engine/retirement_simulator.py:562-569 | the reported spend is the sum of funded amounts |
| Cashflow.FundGreedy | engine/retirement_simulator.py:562-569 | once a category is short-funded, no later category is funded |
| Cashflow.Allowance | engine/retirement_simulator.py:546-550 | the raw allowance is non-negative when tax is at most 100% |
| Cashflow.FundInOrder | engine/retirement_simulator.py:558-569 | the funding loop equals the greedy funding function |
| Cashflow.ApplySpendingPolicy | engine/retirement_simulator.py:503-578 | the routine equals the spending policy function |
| Cashflow.SpendingPolicyOrder | engine/retirement_simulator.py:552-556 | the policy funds each discretionary key once, in the funding order |
| Cashflow.PolicyPassThrough | engine/retirement_simulator.py:518-530 | with no discretionary keys or no usable cap, the request passes through |
| Cashflow.CappedShape | engine/retirement_simulator.py:571-576 | the effective breakdown has the request's keys, unchanged fixed values, and 0 for unfunded discretionary keys |
| Cashflow.PolicyKeepsFixed | engine/retirement_simulator.py:537-576 | key set preserved; fixed amounts unchanged |
| Cashflow.PolicyBounds | engine/retirement_simulator.py:562-576 | every effective amount lies between 0 and its request |
| Cashflow.PolicyTotal | engine/retirement_simulator.py:546-569 | the discretionary spend is the sum of funded amounts, within the allowance and the request |
| Cashflow.PolicyWithinCap | engine/retirement_simulator.py:532-550 | the resulting gross-up stays within the cap, or within the fixed need when that alone exceeds it |
| Cashflow.PolicyGreedy | engine/retirement_simulator.py:562-569 | after a short-funded category, later ones get 0 |
| Cashflow.PolicyAgreesWithoutRepeats | engine/retirement_simulator.py:553-556 | without repeats in `priority_order`, the corrected and as-written policies agree |
| Cashflow.DuplicatePriorityFundsTwice | engine/retirement_simulator.py:553-569 | a repeated priority is funded twice as written, and once when corrected |
| Stepper.Overrides | engine/retirement_simulator.py:394-408 | income and expense overrides are key-wise overwrites; the clock and return are untouched |
| Stepper.ExpenseUpdated | engine/retirement_simulator.py:399-408 | the breakdown and classification are overwritten key-wise, `total_tax_rate` replaces the tax rate and `spending_policy` updates the policy key-wise, each only when present; income and return are untouched |
| Stepper.TakeAssumptions | engine/retirement_simulator.py:411-452 | only return, variance and inflation change; the label is kept |
| Stepper.ApplyEvent | engine/retirement_simulator.py:390-455 | one event never moves the clock |
| Stepper.ApplyAll | engine/retirement_simulator.py:382-459 | applying the month's events never moves the clock |
| Stepper.Matching | engine/retirement_simulator.py:391-392 | only events dated this month are kept |
| Stepper.Spend | engine/retirement_simulator.py:605-649 | a step keeps the clock, stamps the record with it and leaves a non-negative portfolio equal to the record's |
| Stepper.Grown | engine/retirement_simulator.py:618 | the new portfolio is 0 or the grown value minus the gross-up, never negative |
| Stepper.FuelDecreases | engine/retirement_simulator.py:482-498 | each timeline step uses up one step of the remaining count |
| Stepper.StepOnce | engine/retirement_simulator.py:594-649 | a whole step keeps the clock and stamps the record with it |
| Stepper.Inflate | engine/retirement_simulator.py:646-649 | the drift loop scales every expense by the factor |
| Stepper.DefaultFixed | engine/retirement_simulator.py:358-361 | unclassified keys become "fixed" and existing ones are kept |
| Stepper.SimState.constructor | engine/retirement_simulator.py:343-377 | the new state is the initial state of the data |
| Stepper.SimState.Copy | engine/retirement_simulator.py:589 | the copy holds the given values |
| Stepper.SimState.TakeOverrides | engine/retirement_simulator.py:394-408 | the fields become the overwritten ones |
| Stepper.SimState.TakeExpenseUpdate | engine/retirement_simulator.py:399-408 | the fields become the updated ones |
| Stepper.SimState.TakeAssumptionsFrom | engine/retirement_simulator.py:411-452 | the fields and report become those of the assumption update |
| Stepper.SimState.ApplyEventsForDate | engine/retirement_simulator.py:382-459 | the method fails exactly when the specification does; else it returns its report and leaves its state |
| Stepper.SimState.Advance | engine/retirement_simulator.py:486-498 | the clock advances one month with wrap, or one year |
| Stepper.SimState.MoveTo | engine/retirement_simulator.py:714-715 | only the clock fields change |
| Stepper.SimState.SpendStep | engine/retirement_simulator.py:605-649 | the state and record become those of one spend |
| Stepper.SimState.SettleStep | engine/retirement_simulator.py:613-649 | the cashflows, the floored portfolio update, the record and the inflation drift, once the policy has answered |
| Stepper.SimState.StepMonth | engine/retirement_simulator.py:594-652 | the method fails iff the step does; else the record, rates and state are the step's |
| Stepper.SimState.RunTimeline | engine/retirement_simulator.py:593-652 | the loop's records and final state are the run's |
| Stepper.FailureExtends | engine/retirement_simulator.py:437-440 | once an event raises, later events do not change the outcome |
| Stepper.RunScenario | engine/retirement_simulator.py:589-654 | one scenario's records are the run from the initial state with that return |
| Stepper.SimulateRetirement | engine/retirement_simulator.py:580-656 | the three scenarios are the runs at return minus variance, return, and return plus variance |
| Stepper.RunScenarios | engine/retirement_simulator.py:584-654 | the scenario loop equals the scenario function |
| Events.ApplyAllMatching | engine/retirement_simulator.py:390-392 | only this month's events matter |
| Events.NoMatchNoChange | engine/retirement_simulator.py:390-392 | with no event this month, nothing changes and the report is empty |
| Events.ApplyAllFails | engine/retirement_simulator.py:434-440 | raises iff an event this month resets to base and there is no base |
| Events.ApplyAllLabel | engine/retirement_simulator.py:454-455 | the label is the first matching event's non-empty name, or "" when there is none |
| Events.ApplyAllKeeps | engine/retirement_simulator.py:395-402 | a key no event sets keeps its value or stays absent |
| Events.ApplyAllLastWins | engine/retirement_simulator.py:395-402 | a key takes the last matching event's value |
| Events.ApplyAllClassKeeps | engine/retirement_simulator.py:406 | a category no matching event classifies keeps its classification or stays absent |
| Events.ApplyAllClassLastWins | engine/retirement_simulator.py:406 | a category takes the classification of the last matching event that classifies it |
| Events.ApplyAllSettingKeeps | engine/retirement_simulator.py:403-408 | the tax rate, and each of the policy's `type`, `cap_rate` and `priority_order`, keeps its value (or stays unset) when no matching event gives it one |
| Events.ApplyAllSettingLastWins | engine/retirement_simulator.py:403-408 | the tax rate and each policy key take the value the last matching event gives them |
| Events.ApplyAllChanged | engine/retirement_simulator.py:411-452 | the changed flag is set iff a matching event touches an assumption |
| Events.ApplyAllBlur | engine/retirement_simulator.py:410-452 | the starting return affects nothing else |
| Events.ReturnOverwritten | engine/retirement_simulator.py:415-418 | an event setting `expected_return` erases the starting return |
| Runs.RunPortfolio | engine/retirement_simulator.py:618-652 | every recorded portfolio is >= 0, all but the last are > 0, and the run stops at depletion or past the stop age |
| Runs.AdvancedMonth | engine/retirement_simulator.py:486-491 | a monthly step keeps the month in 1..12 and adds one month; a yearly step adds twelve |
| Runs.CursorShift | engine/retirement_simulator.py:697-704 | the cursor after one step is the cursor one index later |
| Runs.RunCursor | engine/retirement_simulator.py:480-498 | record j carries the cursor at step j, so the accumulating timeline agrees with `_cursor_from_step` |
| Runs.RunLength | engine/retirement_simulator.py:482 | a run has at most the timeline's step count, and exactly that many when it does not deplete |
| Runs.ScenarioReturnErased | engine/retirement_simulator.py:589-603 | an event on the start month that sets the return erases the scenario's return |
| Runs.ScenariosCollapse | engine/retirement_simulator.py:584-603 | then min, expected and max coincide |
| Runs.NormalizedEventsSetReturn | data/normalize.py:105-107 | after normalization every event sets `expected_return` |
| Runs.NormalizedScenariosCollapse | engine/retirement_simulator.py:596-603 | on normalized data with an event on the start month, the three scenarios coincide |
| MonteCarlo.McStep | engine/retirement_simulator.py:712-753 | a depleted trial stays depleted at the same value; otherwise the portfolio is >= 0 and depleted iff it is 0 |
| MonteCarlo.McStepKeeps | engine/retirement_simulator.py:743-757 | the recorded value is the portfolio, >= 0, and 0 iff depleted |
| MonteCarlo.TrialFromShape | engine/retirement_simulator.py:712-757 | the remaining path has one value per step and keeps zeros once reached |
| MonteCarlo.TrialOutcome | engine/retirement_simulator.py:706-759 | a trial's path has `steps_total` non-negative values, 0 forever once 0; it failed iff the last is 0; terminal is the last value |
| MonteCarlo.TrialsEach | engine/retirement_simulator.py:706-759 | row t is trial t's result |
| MonteCarlo.TrialsShape | engine/retirement_simulator.py:706-759 | every row has the trial shape |
| MonteCarlo.FailedCount | engine/retirement_simulator.py:748 | the failure count is at most the number of trials |
| MonteCarlo.SuccessRateFraction | engine/retirement_simulator.py:762 | the success rate is the fraction of trials that did not fail, in [0, 1], and 1 iff none failed |
| MonteCarlo.SummaryOutcome | engine/retirement_simulator.py:761-771 | the summary has one path, terminal value and flag per trial; flags mark paths ending at 0; the rate is the non-failed fraction |
| MonteCarlo.StepsTotalOvershoots | engine/retirement_simulator.py:689-690 | the rounded count takes a step past the stop age, or misses none-left cases |
| MonteCarlo.StepsTotalCounts | engine/retirement_simulator.py:689-704 | step s is within the corrected count iff the cursor age at s is at most the stop age |
| MonteCarlo.StepsTotalAgreesOnWholeSteps | engine/retirement_simulator.py:690 | on a whole number of steps the rounded and corrected counts agree |
| MonteCarlo.AdvancedCursor | engine/retirement_simulator.py:697-704 | accumulating one step agrees with the cursor from the step index |
| MonteCarlo.McStepMatchesStepOnce | engine/retirement_simulator.py:727-753 | without a sampler a Monte Carlo step records the deterministic step's portfolio |
| MonteCarlo.TrialMatchesExpectedRun | engine/retirement_simulator.py:660-757 | without a sampler a trial's path is the expected scenario's portfolio, then 0 after depletion |
| MonteCarlo.McStepState | engine/retirement_simulator.py:712-753 | the in-place step equals the step function |
| MonteCarlo.RunTrial | engine/retirement_simulator.py:706-759 | the step loop gives the trial's path, terminal value and flag |
| MonteCarlo.RunTrials | engine/retirement_simulator.py:706-759 | the trial loop gives every trial in order |
| MonteCarlo.McCore | engine/retirement_simulator.py:660-771 | the routine's summary is the Monte Carlo result |
| MonteCarlo.ForcedReturn | engine/retirement_simulator.py:886-889 | `shock_return` takes precedence; else `drop_pct` becomes minus its absolute value |
| MonteCarlo.BuildCrashMap | engine/retirement_simulator.py:881-889 | the loop builds the crash map |
| MonteCarlo.CrashMapLastWins | engine/retirement_simulator.py:881-889 | a month is in the map iff some event forces it, with the last such event's return |
| MonteCarlo.DatedEventKey | engine/retirement_simulator.py:873-877 | an event dated "YYYY-MM…" has key `{y:04d}-{m:02d}` |
| MonteCarlo.ForcedMonthReturn | engine/retirement_simulator.py:899-902 | in a forced month the sampler returns the last forcing event's return |
| MonteCarlo.RunMonteCarloForce | engine/retirement_simulator.py:868-914 | Monte Carlo with the forced sampler over the crash map of the given events, or of the data's own when none are given |

## Left out

- File and JSON loading, `datetime.now()` defaults, `compute_start_age`, `get_event_age` and start-date parsing. These are I/O and the clock. The start is a year/month pair and the start age is a value.
- Dates are year/month pairs; the day is ignored, because every date the code writes is the first of a month.
- `step_factors`' fractional power `(1 + x) ** (1/12) - 1` has no Dafny counterpart. It is the function parameter `root12`; the yearly branch is modelled exactly.
- Age-based timing `int(round((age - age0) * 12))` is float rounding. It is the function parameter `ageMonths`.
- Floating-point rounding is not modelled. Money and rates are exact reals, and the age drift of repeated `+= 1/12` is not reproduced. `t_month`, `t.year`, `t.month` and the offset `years` and `months` are integers, so the truncation `int(...)` applies to a float there is not modelled.
- Result records keep the unrounded values, and logging and `print` are left out.
- `rng.normal` and `_step_sigma` with its square root are the sampler parameter, which receives the trial and step index in place of the generator.
- `step_div` is not passed to the sampler, because no sampler reads it.
- The median and percentiles of terminal values, and the `nanpercentile` envelopes, come from NumPy and are left out.
- NumPy arrays are modelled as sequences filled in order.
- `collect_paths` is always on, as in both callers.
- `run_monte_carlo` and `run_monte_carlo_events` are thin wrappers around `mc_core`, apart from percentiles, so they are not modelled.
- Income values are numbers, so the `isinstance` filter in `compute_cashflows` is not modelled.
- A raised error returns a failure. The partly updated state it leaves behind is not specified.
- `validate_user_data` and `validate_files_in_dir` read files and are not modelled.
- MonteCarlo.McCore: uses the corrected step count (see Findings); `StepsTotalAsWritten` keeps the rounded count.
- Cashflow.ApplySpendingPolicy: funds each category once (see Findings); `SpendingPolicyAsWritten` keeps the code's order.
- MonteCarlo.TrialMatchesExpectedRun: relates a trial to the deterministic run only when there is no sampler.
- JSON objects are maps, so their key order is lost. Messages that list keys list them sorted.
- UserDataValidation.ExtraExpenseKeys: lists the extra `updated_expenses` keys sorted, while `engine/user_data_validation.py:79` lists them in insertion order. The message text differs when there are two or more extras.
- UserDataValidation.Render: shows a non-string, non-boolean event name as `<value>` rather than Python's `str(v)`. JSON numbers are reals here, so `str` of an int and of a float cannot be told apart.
- Stepper.DateKey: sorts by month index where the source sorts by the date string; `Types.DateStrOrder` proves the two orders agree. It sorts an event without a date as month 0, where `sorted(..., key=lambda e: e["date"])` at lines 581 and 680 raises `KeyError`. After `load_user_data` every event carries a date (`Loader.ResolveEventTiming` proves each result event `Timed`).
- A missing `breakdown`, `classification` or `spending_policy` is the empty map or the empty policy, so the `setdefault` calls for them at lines 168-170 have nothing to do.

## Findings

| source | as written | input that shows it | evidently intended | confidence | as-written member | corrected member |
|---|---|---|---|---|---|---|
| engine/retirement_simulator.py:689-690 | `steps_total = round((stop - start) * per_year) + 1` | monthly, start age 60, stop age 60.05: two steps, the second at age 60.083 > 60.05; stop 59.99 gives one step where the timeline gives none | the same steps as `while age <= stop_age`, as the comment says | not executed; high | MonteCarlo.StepsTotalOvershoots | MonteCarlo.StepsTotalCounts |
| engine/retirement_simulator.py:553-569 | `priority_order` is filtered but not de-duplicated | policy `portfolio_cap` 0.04, portfolio 4500, travel 10 discretionary, `priority_order` ["travel", "travel"]: travel funded 5, spend reported 15 | each discretionary category funded once, so travel gets 10 and spend 10 | not executed; medium | Cashflow.DuplicatePriorityFundsTwice | Cashflow.SpendingPolicyOrder |
