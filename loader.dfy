/**
 * The part of load_user_data that runs after the two files are merged: new
 * income and expense keys are back-filled, every life event gets a month offset
 * t_month (directly, from t{year,month}, from an age, from a legacy date, or
 * relative to another event), then a date and a t, and the list is sorted by t_month.
 */
module Loader {
  import opened Wrappers
  import opened Strings
  import opened Sums
  import opened Types
  import opened Sequences

  /** The ValueErrors the timing passes raise. */
  datatype TimingError =
    | EmptyEventName
    | DuplicateEventNames(names: seq<string>)
    | NegativeTYear
    | TMonthOutOfRange
    | BeforeStart(event: string)
    | NoTimeForm
    | MissingOffsetFrom(event: string)
    | UnknownOffsetFrom(event: string, from: string)
    | UnresolvedOffsets(offenders: seq<(string, string)>)
    | StillMissingTMonth(event: string)

  // ---------------------------------------------------------------------------
  // _validate_unique_event_names
  // ---------------------------------------------------------------------------

  predicate NamesNonEmpty(events: seq<Event>) {
    forall i :: 0 <= i < |events| ==> Strip(events[i].name) != ""
  }

  predicate NamesDistinct(events: seq<Event>) {
    forall i, j :: 0 <= i < j < |events| ==> Strip(events[i].name) != Strip(events[j].name)
  }

  /** The stripped names that occur more than once (Counter(names) entries with count > 1). */
  function Duplicates(names: seq<string>): set<string> {
    set i, j | 0 <= i < j < |names| && names[i] == names[j] :: names[i]
  }

  /** Requires every stripped name to be non-empty and unique; None when that holds. */
  method ValidateUniqueEventNames(events: seq<Event>) returns (r: Option<TimingError>)
    ensures r.None? <==> NamesNonEmpty(events) && NamesDistinct(events)
    ensures r == Some(EmptyEventName) <==> !NamesNonEmpty(events)
    ensures r.Some? ==> r.value.EmptyEventName? || r.value.DuplicateEventNames?
    ensures r.Some? && r.value.DuplicateEventNames? ==>
      StrictlySorted(r.value.names)
      && forall n :: n in r.value.names <==> exists i, j :: 0 <= i < j < |events| && Strip(events[i].name) == n && Strip(events[j].name) == n
  {
    var names: seq<string> := [];
    var i := 0;
    while i < |events|
      invariant 0 <= i <= |events|
      invariant |names| == i && forall k :: 0 <= k < i ==> names[k] == Strip(events[k].name)
      invariant forall k :: 0 <= k < i ==> names[k] != ""
    {
      var name := Strip(events[i].name);
      if name == "" {
        return Some(EmptyEventName);
      }
      names := names + [name];
      i := i + 1;
    }
    DuplicatesOfNames(events, names);
    var dupes := SortedKeys(Duplicates(names));
    SortedKeysSorted(Duplicates(names));
    if dupes != [] {
      return Some(DuplicateEventNames(dupes));
    }
    return None;
  }

  /** The duplicates of the stripped names are the names two events share. */
  lemma DuplicatesOfNames(events: seq<Event>, names: seq<string>)
    requires |names| == |events| && forall k :: 0 <= k < |events| ==> names[k] == Strip(events[k].name)
    ensures forall n :: n in Duplicates(names) <==>
      exists i, j :: 0 <= i < j < |events| && Strip(events[i].name) == n && Strip(events[j].name) == n
    ensures Duplicates(names) == {} <==> NamesDistinct(events)
  {
    if Duplicates(names) == {} {
      forall i, j | 0 <= i < j < |names|
        ensures names[i] != names[j]
      {
        assert names[i] !in Duplicates(names);
      }
    }
  }

  // ---------------------------------------------------------------------------
  // Pass 1: events that are not offset-based
  // ---------------------------------------------------------------------------

  /** t{year, month} as a month offset: 12*year + (month - 1). */
  function MonthOfT(t: TSpec): int {
    t.year * 12 + (t.month - 1)
  }

  /** The t a month offset is given when it has none: {tm // 12, tm % 12 + 1}. */
  function TOfMonth(tm: int): (t: TSpec)
    ensures 1 <= t.month <= 12 && MonthOfT(t) == tm
    ensures tm >= 0 ==> t.year >= 0
  {
    TSpec(tm / 12, tm % 12 + 1)
  }

  /** The derived t inverts t{year, month} for every t pass 1 accepts. */
  lemma TRoundTrip(t: TSpec)
    requires t.year >= 0 && 1 <= t.month <= 12
    ensures TOfMonth(MonthOfT(t)) == t
  {
    MonthIndexInjective(YearMonth(TOfMonth(MonthOfT(t)).year, TOfMonth(MonthOfT(t)).month), YearMonth(t.year, t.month));
  }

  /**
   * The month offset of an event that has no offset block, tried in the order
   * t_month, t, age, legacy date. ageMonths is int(round((age - age0) * 12)).
   */
  function FixedMonth(ev: Event, start: YearMonth, ageMonths: real -> int): (r: Result<int, TimingError>)
    ensures ev.tMonth.Some? ==> r == Success(ev.tMonth.value)
    ensures ev.tMonth.None? && ev.t.Some? ==>
      (r.Success? <==> ev.t.value.year >= 0 && 1 <= ev.t.value.month <= 12)
    ensures ev.tMonth.None? && ev.t.None? && ev.age.None? && ev.date.None? ==> r == Failure(NoTimeForm)
    ensures ev.tMonth.None? && ev.t.None? && ev.age.None? && ev.date.Some? ==>
      r == Success(MonthIndex(ev.date.value) - MonthIndex(start))
    ensures ev.tMonth.None? && ev.t.None? && ev.age.Some? ==> (r.Success? ==> r.value >= 0)
  {
    if ev.tMonth.Some? then Success(ev.tMonth.value)
    else if ev.t.Some? then
      if ev.t.value.year < 0 then Failure(NegativeTYear)
      else if !(1 <= ev.t.value.month <= 12) then Failure(TMonthOutOfRange)
      else Success(MonthOfT(ev.t.value))
    else if ev.age.Some? then
      var tm := ageMonths(ev.age.value);
      if tm < 0 then Failure(BeforeStart(ev.name)) else Success(tm)
    else if ev.date.Some? then Success(MonthIndex(ev.date.value) - MonthIndex(start))
    else Failure(NoTimeForm)
  }

  /** Pass 1 on one event: offset-based events are left for pass 2. */
  function Pass1Event(ev: Event, start: YearMonth, ageMonths: real -> int): (r: Result<Event, TimingError>)
    ensures ev.offset.Some? ==> r == Success(ev)
    ensures r.Success? ==> r.value == ev.(tMonth := r.value.tMonth)
    ensures r.Failure? ==> !r.error.StillMissingTMonth?
    ensures ev.offset.None? ==>
      (r.Success? <==> FixedMonth(ev, start, ageMonths).Success?)
      && (r.Success? ==> r.value.tMonth == Some(FixedMonth(ev, start, ageMonths).value))
  {
    if ev.offset.Some? then Success(ev)
    else
      var tm :- FixedMonth(ev, start, ageMonths);
      Success(ev.(tMonth := Some(tm)))
  }

  method ResolveFixedTimes(events: seq<Event>, start: YearMonth, ageMonths: real -> int)
    returns (r: Result<seq<Event>, TimingError>)
    ensures r == MapAll(events, ev => Pass1Event(ev, start, ageMonths))
  {
    var f := ev => Pass1Event(ev, start, ageMonths);
    var done: seq<Event> := [];
    var i := 0;
    while i < |events|
      invariant 0 <= i <= |events|
      invariant MapAll(events[..i], f) == Success(done)
    {
      MapAllStep(events, f, i, done);
      match f(events[i])
      case Failure(e) =>
        FailureOfPrefix(events, f, i + 1);
        return Failure(e);
      case Success(ev) =>
        done := done + [ev];
        i := i + 1;
    }
    assert events[..i] == events;
    return Success(done);
  }

  // ---------------------------------------------------------------------------
  // Pass 2: offset-based events (_resolve_offset_events_to_t_month)
  // ---------------------------------------------------------------------------

  /** The stripped event names, in list order. */
  function StrippedNames(evs: seq<Event>): (names: seq<string>)
    ensures |names| == |evs| && forall i :: 0 <= i < |evs| ==> names[i] == Strip(evs[i].name)
  {
    seq(|evs|, i requires 0 <= i < |evs| => Strip(evs[i].name))
  }

  /** Each name maps to its last position (a dict comprehension keeps the last write). */
  function LastIndex(names: seq<string>): (m: map<string, nat>)
    ensures forall n :: n in m ==> m[n] < |names|
  {
    if names == [] then map[]
    else LastIndex(names[..|names| - 1])[names[|names| - 1] := |names| - 1]
  }

  /** Every name is a key, and it maps to the last position that holds it. */
  lemma {:induction false} LastIndexSpec(names: seq<string>, n: string)
    ensures n in LastIndex(names) <==> n in names
    ensures n in LastIndex(names) ==>
      names[LastIndex(names)[n]] == n && forall k :: LastIndex(names)[n] < k < |names| ==> names[k] != n
  {
    if names != [] {
      var init := names[..|names| - 1];
      LastIndexSpec(init, n);
      assert names == init + [names[|names| - 1]];
    }
  }

  /** by_name: each stripped name maps to the last event that carries it. */
  function ByName(evs: seq<Event>): (m: map<string, nat>)
    ensures forall n :: n in m ==> m[n] < |evs|
  {
    LastIndex(StrippedNames(evs))
  }

  /** An event with an offset block and no t_month yet. */
  predicate Pending(evs: seq<Event>, i: int)
    requires 0 <= i < |evs|
  {
    evs[i].offset.Some? && evs[i].tMonth.None?
  }

  /** (offset.from or "").strip() */
  function FromName(ev: Event): string {
    if ev.offset.Some? then Strip(ev.offset.value.from) else ""
  }

  function Delta(ev: Event): int
    requires ev.offset.Some?
  {
    ev.offset.value.years * 12 + ev.offset.value.months
  }

  /**
   * The links between events: the stripped offset.from of each event, and
   * by_name. The chain functions below take the links as a parameter; the
   * resolution instantiates them with LinksOf(evs).
   */
  datatype Links = Links(froms: seq<string>, byName: map<string, nat>)

  predicate LinksFor(ix: Links, evs: seq<Event>) {
    |ix.froms| == |evs| && forall n :: n in ix.byName ==> ix.byName[n] < |evs|
  }

  function LinksOf(evs: seq<Event>): (ix: Links)
    ensures LinksFor(ix, evs)
    ensures forall i :: 0 <= i < |evs| ==> ix.froms[i] == FromName(evs[i])
    ensures ix.byName == ByName(evs)
  {
    Links(seq(|evs|, i requires 0 <= i < |evs| => FromName(evs[i])), ByName(evs))
  }

  /**
   * The month an event gets by following its offset chain for at most fuel links:
   * its own t_month, or the referenced event's month plus 12*years + months.
   */
  function ChainValue(evs: seq<Event>, ix: Links, i: nat, fuel: nat): Option<int>
    requires LinksFor(ix, evs) && i < |evs|
    decreases fuel
  {
    if evs[i].tMonth.Some? then evs[i].tMonth
    else if evs[i].offset.None? || fuel == 0 then None
    else
      var frm := ix.froms[i];
      if frm !in ix.byName then None
      else match ChainValue(evs, ix, ix.byName[frm], fuel - 1)
        case None => None
        case Some(t) => Some(t + Delta(evs[i]))
  }

  /** The chain from event i ends at an event with a t_month. */
  ghost predicate Resolvable(evs: seq<Event>, ix: Links, i: nat)
    requires LinksFor(ix, evs) && i < |evs|
  {
    exists f: nat :: ChainValue(evs, ix, i, f).Some?
  }

  lemma {:induction false} ChainMonotone(evs: seq<Event>, ix: Links, i: nat, f: nat, g: nat)
    requires LinksFor(ix, evs) && i < |evs| && f <= g && ChainValue(evs, ix, i, f).Some?
    ensures ChainValue(evs, ix, i, g) == ChainValue(evs, ix, i, f)
    decreases f
  {
    if evs[i].tMonth.None? {
      ChainMonotone(evs, ix, ix.byName[ix.froms[i]], f - 1, g - 1);
    }
  }

  /** The month the chain of a resolvable event ends in. */
  ghost function ResolvedMonth(evs: seq<Event>, ix: Links, i: nat): (t: int)
    requires LinksFor(ix, evs) && i < |evs| && Resolvable(evs, ix, i)
    ensures exists f: nat :: ChainValue(evs, ix, i, f) == Some(t)
  {
    var f: nat :| ChainValue(evs, ix, i, f).Some?;
    ChainValue(evs, ix, i, f).value
  }

  /** Any fuel that reaches the end of the chain gives the same month. */
  lemma ResolvedMonthIs(evs: seq<Event>, ix: Links, i: nat, f: nat)
    requires LinksFor(ix, evs) && i < |evs| && ChainValue(evs, ix, i, f).Some?
    ensures Resolvable(evs, ix, i) && ResolvedMonth(evs, ix, i) == ChainValue(evs, ix, i, f).value
  {
    var g: nat :| ChainValue(evs, ix, i, g) == Some(ResolvedMonth(evs, ix, i));
    if f <= g {
      ChainMonotone(evs, ix, i, f, g);
    } else {
      ChainMonotone(evs, ix, i, g, f);
    }
  }

  /** The month an event ends with: its own t_month, or the one its chain resolves to. */
  ghost function FinalMonth(evs: seq<Event>, ix: Links, j: nat): int
    requires LinksFor(ix, evs) && j < |evs| && (evs[j].tMonth.Some? || Resolvable(evs, ix, j))
  {
    if evs[j].tMonth.Some? then evs[j].tMonth.value else ResolvedMonth(evs, ix, j)
  }

  /** A resolved offset event sits 12*years + months after the event it names. */
  lemma ResolvedFollowsRef(evs: seq<Event>, ix: Links, i: nat)
    requires LinksFor(ix, evs) && i < |evs| && Pending(evs, i) && Resolvable(evs, ix, i)
    ensures ix.froms[i] in ix.byName
    ensures var j := ix.byName[ix.froms[i]];
      (evs[j].tMonth.Some? || Resolvable(evs, ix, j))
      && ResolvedMonth(evs, ix, i) == FinalMonth(evs, ix, j) + Delta(evs[i])
  {
    var f: nat :| ChainValue(evs, ix, i, f) == Some(ResolvedMonth(evs, ix, i));
    var j := ix.byName[ix.froms[i]];
    ResolvedMonthIs(evs, ix, j, f - 1);
  }

  /** Two pending events that name each other never resolve: a cycle is an error. */
  lemma CycleUnresolvable(evs: seq<Event>, ix: Links, i: nat, j: nat)
    requires LinksFor(ix, evs) && i < |evs| && j < |evs| && Pending(evs, i) && Pending(evs, j)
    requires ix.froms[i] in ix.byName && ix.byName[ix.froms[i]] == j
    requires ix.froms[j] in ix.byName && ix.byName[ix.froms[j]] == i
    ensures !Resolvable(evs, ix, i) && !Resolvable(evs, ix, j)
  {
    forall f: nat
      ensures ChainValue(evs, ix, i, f).None? && ChainValue(evs, ix, j, f).None?
    {
      CycleNone(evs, ix, i, j, f);
    }
  }

  lemma {:induction false} CycleNone(evs: seq<Event>, ix: Links, i: nat, j: nat, f: nat)
    requires LinksFor(ix, evs) && i < |evs| && j < |evs| && Pending(evs, i) && Pending(evs, j)
    requires ix.froms[i] in ix.byName && ix.byName[ix.froms[i]] == j
    requires ix.froms[j] in ix.byName && ix.byName[ix.froms[j]] == i
    ensures ChainValue(evs, ix, i, f).None? && ChainValue(evs, ix, j, f).None?
  {
    if f > 0 {
      CycleNone(evs, ix, i, j, f - 1);
    }
  }

  /** An unresolved offset event whose offset.from is empty or names no event. */
  predicate BadFrom(evs: seq<Event>, ix: Links, i: int)
    requires LinksFor(ix, evs) && 0 <= i < |evs|
  {
    Pending(evs, i) && (ix.froms[i] == "" || ix.froms[i] !in ix.byName)
  }

  /** The error for a bad offset.from: missing when empty, unknown otherwise. */
  function FromError(evs: seq<Event>, ix: Links, i: nat): TimingError
    requires LinksFor(ix, evs) && i < |evs|
  {
    if ix.froms[i] == "" then MissingOffsetFrom(evs[i].name) else UnknownOffsetFrom(evs[i].name, ix.froms[i])
  }

  /** The first event at or after k whose offset.from is bad. */
  function FirstBadFrom(evs: seq<Event>, ix: Links, k: nat): (r: Option<nat>)
    requires LinksFor(ix, evs) && k <= |evs|
    ensures r.Some? ==>
      (k <= r.value < |evs| && BadFrom(evs, ix, r.value) && forall j :: k <= j < r.value ==> !BadFrom(evs, ix, j))
    ensures r.None? <==> forall j :: k <= j < |evs| ==> !BadFrom(evs, ix, j)
    decreases |evs| - k
  {
    if k == |evs| then None
    else if BadFrom(evs, ix, k) then Some(k)
    else FirstBadFrom(evs, ix, k + 1)
  }

  /** (event, offset.from) of every offset event still without t_month, in list order. */
  function OpenPairs(cur: seq<Event>, n: nat): seq<(string, string)>
    requires n <= |cur|
  {
    if n == 0 then []
    else
      var last := if cur[n - 1].offset.Some? && cur[n - 1].tMonth.None?
        then [(cur[n - 1].name, cur[n - 1].offset.value.from)] else [];
      OpenPairs(cur, n - 1) + last
  }

  /** The pending events whose chain never resolves, in list order. */
  ghost function UnresolvedPairs(evs: seq<Event>, ix: Links, n: nat): seq<(string, string)>
    requires LinksFor(ix, evs) && n <= |evs|
  {
    if n == 0 then []
    else
      var last := if Pending(evs, n - 1) && !Resolvable(evs, ix, n - 1)
        then [(evs[n - 1].name, evs[n - 1].offset.value.from)] else [];
      UnresolvedPairs(evs, ix, n - 1) + last
  }

  /** Event k of cur is event k of events, or that event resolved to its chain's month. */
  ghost predicate AgreesAt(events: seq<Event>, ix: Links, cur: seq<Event>, fuel: map<nat, nat>, k: nat)
    requires LinksFor(ix, events) && |cur| == |events| && k < |cur|
  {
    cur[k] == events[k]
    || (Pending(events, k) && k in fuel && ChainValue(events, ix, k, fuel[k]).Some?
        && cur[k] == events[k].(tMonth := ChainValue(events, ix, k, fuel[k])))
  }

  /**
   * cur is events with some pending events resolved, each to its chain's month.
   * The quantifier fires only where a proof names AgreesAt, which keeps the
   * chain function from being unfolded at every index in sight.
   */
  ghost predicate Agrees(events: seq<Event>, ix: Links, cur: seq<Event>, fuel: map<nat, nat>)
    requires LinksFor(ix, events)
  {
    |cur| == |events|
    && forall k: nat {:trigger AgreesAt(events, ix, cur, fuel, k)} :: k < |cur| ==> AgreesAt(events, ix, cur, fuel, k)
  }

  /** Event k is pending in the input and still has no t_month in cur. */
  predicate IsOpen(events: seq<Event>, cur: seq<Event>, k: int)
    requires |cur| == |events| && 0 <= k < |cur|
  {
    Pending(events, k) && cur[k].tMonth.None?
  }

  ghost function Open(events: seq<Event>, cur: seq<Event>): set<nat>
    requires |cur| == |events|
  {
    set k: nat | k < |cur| && IsOpen(events, cur, k)
  }

  /** Pointwise shrinking of the open events, as sets. */
  lemma OpenShrinks(events: seq<Event>, cur: seq<Event>, next: seq<Event>)
    requires |cur| == |events| && |next| == |events|
    requires forall k :: 0 <= k < |next| && IsOpen(events, next, k) ==> IsOpen(events, cur, k)
    ensures Open(events, next) <= Open(events, cur)
    ensures (exists k :: 0 <= k < |next| && IsOpen(events, cur, k) && !IsOpen(events, next, k)) ==>
      Open(events, next) < Open(events, cur)
  {
    if exists k :: 0 <= k < |next| && IsOpen(events, cur, k) && !IsOpen(events, next, k) {
      var k :| 0 <= k < |next| && IsOpen(events, cur, k) && !IsOpen(events, next, k);
      assert k in Open(events, cur) - Open(events, next);
    }
  }

  /** Every open event names an event that is itself still open. */
  ghost predicate Stuck(events: seq<Event>, ix: Links, cur: seq<Event>)
    requires LinksFor(ix, events) && |cur| == |events|
  {
    forall k :: 0 <= k < |cur| && Pending(events, k) && cur[k].tMonth.None? ==>
      ix.froms[k] in ix.byName && cur[ix.byName[ix.froms[k]]].tMonth.None?
  }

  lemma {:induction false} StuckHasNoChain(events: seq<Event>, ix: Links, cur: seq<Event>,
                                           fuel: map<nat, nat>, k: nat, f: nat)
    requires LinksFor(ix, events) && Agrees(events, ix, cur, fuel) && Stuck(events, ix, cur)
    requires k < |cur| && cur[k].tMonth.None?
    ensures ChainValue(events, ix, k, f).None?
    decreases f
  {
    assert AgreesAt(events, ix, cur, fuel, k);
    if events[k].offset.Some? && f > 0 {
      StuckHasNoChain(events, ix, cur, fuel, ix.byName[ix.froms[k]], f - 1);
    }
  }

  lemma {:induction false} PairsAgree(events: seq<Event>, ix: Links, cur: seq<Event>, n: nat)
    requires LinksFor(ix, events) && |cur| == |events| && n <= |cur|
    requires forall k :: 0 <= k < |cur| ==> cur[k].name == events[k].name && cur[k].offset == events[k].offset
    requires forall k :: 0 <= k < |cur| ==>
      ((cur[k].offset.Some? && cur[k].tMonth.None?) <==> (Pending(events, k) && !Resolvable(events, ix, k)))
    ensures OpenPairs(cur, n) == UnresolvedPairs(events, ix, n)
  {
    if n > 0 {
      PairsAgree(events, ix, cur, n - 1);
    }
  }

  /** The first pending event whose offset.from is bad is reported, by position. */
  lemma FirstBadFromIs(events: seq<Event>, ix: Links, i: nat)
    requires LinksFor(ix, events) && i < |events| && BadFrom(events, ix, i)
    requires forall k :: 0 <= k < i ==> !BadFrom(events, ix, k)
    ensures FirstBadFrom(events, ix, 0) == Some(i)
  {
  }

  /** When no pass can make progress, the open events are exactly the unresolvable ones. */
  lemma StuckIsUnresolved(events: seq<Event>, ix: Links, cur: seq<Event>, fuel: map<nat, nat>)
    requires LinksFor(ix, events) && Agrees(events, ix, cur, fuel) && Stuck(events, ix, cur)
    requires Open(events, cur) != {}
    ensures OpenPairs(cur, |cur|) == UnresolvedPairs(events, ix, |events|)
    ensures exists i :: 0 <= i < |events| && Pending(events, i) && !Resolvable(events, ix, i)
  {
    forall k | 0 <= k < |cur|
      ensures cur[k].name == events[k].name && cur[k].offset == events[k].offset
      ensures (cur[k].offset.Some? && cur[k].tMonth.None?) <==> (Pending(events, k) && !Resolvable(events, ix, k))
    {
      assert AgreesAt(events, ix, cur, fuel, k);
      if cur[k].tMonth.None? {
        forall f: nat
          ensures ChainValue(events, ix, k, f).None?
        {
          StuckHasNoChain(events, ix, cur, fuel, k, f);
        }
      } else if Pending(events, k) {
        assert ChainValue(events, ix, k, fuel[k]).Some?;
      }
    }
    PairsAgree(events, ix, cur, |cur|);
    var k :| k in Open(events, cur);
    assert Pending(events, k) && !Resolvable(events, ix, k);
  }

  /** Once nothing is open, every pending event holds the month its chain resolves to. */
  lemma AllResolved(events: seq<Event>, ix: Links, cur: seq<Event>, fuel: map<nat, nat>)
    requires LinksFor(ix, events) && Agrees(events, ix, cur, fuel) && Open(events, cur) == {}
    ensures forall i :: 0 <= i < |events| && !Pending(events, i) ==> cur[i] == events[i]
    ensures forall i :: 0 <= i < |events| && Pending(events, i) ==>
      Resolvable(events, ix, i) && cur[i] == events[i].(tMonth := Some(ResolvedMonth(events, ix, i)))
  {
    forall i | 0 <= i < |events| && !Pending(events, i)
      ensures cur[i] == events[i]
    {
      assert AgreesAt(events, ix, cur, fuel, i);
    }
    forall i | 0 <= i < |events| && Pending(events, i)
      ensures Resolvable(events, ix, i) && cur[i] == events[i].(tMonth := Some(ResolvedMonth(events, ix, i)))
    {
      assert AgreesAt(events, ix, cur, fuel, i);
      assert i !in Open(events, cur);
      ResolvedMonthIs(events, ix, i, fuel[i]);
    }
  }

  /** Resolving one open event from a reference that has its month keeps cur in agreement. */
  lemma ResolveOne(events: seq<Event>, ix: Links, cur: seq<Event>, fuel: map<nat, nat>, i: nat)
    returns (fuel': map<nat, nat>)
    requires LinksFor(ix, events) && Agrees(events, ix, cur, fuel) && i < |cur| && IsOpen(events, cur, i)
    requires ix.froms[i] in ix.byName && cur[ix.byName[ix.froms[i]]].tMonth.Some?
    ensures var t := cur[ix.byName[ix.froms[i]]].tMonth.value + Delta(events[i]);
      var next := cur[i := cur[i].(tMonth := Some(t))];
      Agrees(events, ix, next, fuel')
      && forall k :: 0 <= k < |cur| ==> (IsOpen(events, next, k) <==> IsOpen(events, cur, k) && k != i)
  {
    var j := ix.byName[ix.froms[i]];
    assert AgreesAt(events, ix, cur, fuel, i) && AgreesAt(events, ix, cur, fuel, j);
    var fj: nat := if cur[j] == events[j] then 0 else fuel[j];
    assert ChainValue(events, ix, j, fj) == cur[j].tMonth;
    assert ChainValue(events, ix, i, fj + 1) == Some(cur[j].tMonth.value + Delta(events[i]));
    fuel' := fuel[i := fj + 1];
    var next := cur[i := cur[i].(tMonth := Some(cur[j].tMonth.value + Delta(events[i])))];
    forall k: nat | k < |next|
      ensures AgreesAt(events, ix, next, fuel', k)
    {
      if k != i {
        assert AgreesAt(events, ix, cur, fuel, k);
      }
    }
  }

  /** What holds after a pass has visited the first i events. */
  ghost predicate PassInv(events: seq<Event>, ix: Links, cur: seq<Event>, firstPass: bool,
                          i: nat, next: seq<Event>, fuel: map<nat, nat>, remaining: bool, progressed: bool)
    requires LinksFor(ix, events) && |cur| == |events|
  {
    i <= |next| == |cur|
    && Agrees(events, ix, next, fuel)
    && (forall k :: i <= k < |next| ==> next[k] == cur[k])
    && (firstPass ==> forall k :: 0 <= k < i ==> !BadFrom(events, ix, k))
    && (!remaining ==> forall k :: 0 <= k < i ==> !IsOpen(events, next, k))
    && (forall k :: 0 <= k < |next| && IsOpen(events, next, k) ==> IsOpen(events, cur, k))
    && (progressed ==> exists k :: 0 <= k < |next| && IsOpen(events, cur, k) && !IsOpen(events, next, k))
    && (!progressed ==> next == cur)
    && (!progressed ==> forall k :: 0 <= k < i && IsOpen(events, next, k) ==>
          ix.froms[k] in ix.byName && next[ix.byName[ix.froms[k]]].tMonth.None?)
    && (remaining && !progressed ==> exists k :: 0 <= k < i && IsOpen(events, next, k))
  }

  /** Visiting an event that is not open changes nothing. */
  lemma VisitSkip(events: seq<Event>, ix: Links, cur: seq<Event>, firstPass: bool, i: nat,
                  next: seq<Event>, fuel: map<nat, nat>, remaining: bool, progressed: bool)
    requires LinksFor(ix, events) && |cur| == |events| && i < |cur|
    requires firstPass ==> cur == events
    requires PassInv(events, ix, cur, firstPass, i, next, fuel, remaining, progressed)
    requires !(next[i].offset.Some? && next[i].tMonth.None?)
    ensures PassInv(events, ix, cur, firstPass, i + 1, next, fuel, remaining, progressed)
  {
    assert AgreesAt(events, ix, next, fuel, i);
    assert !IsOpen(events, next, i);
  }

  /** Visiting an open event whose reference is still open marks the pass as incomplete. */
  lemma VisitWait(events: seq<Event>, ix: Links, cur: seq<Event>, firstPass: bool, i: nat,
                  next: seq<Event>, fuel: map<nat, nat>, remaining: bool, progressed: bool)
    requires LinksFor(ix, events) && |cur| == |events| && i < |cur|
    requires PassInv(events, ix, cur, firstPass, i, next, fuel, remaining, progressed)
    requires next[i].offset.Some? && next[i].tMonth.None?
    requires ix.froms[i] in ix.byName && next[ix.byName[ix.froms[i]]].tMonth.None?
    requires firstPass ==> !BadFrom(events, ix, i)
    ensures PassInv(events, ix, cur, firstPass, i + 1, next, fuel, true, progressed)
  {
    assert AgreesAt(events, ix, next, fuel, i);
    assert next[i] == events[i] && IsOpen(events, next, i);
  }

  /** Visiting an open event whose reference has its month resolves it. */
  lemma VisitResolve(events: seq<Event>, ix: Links, cur: seq<Event>, firstPass: bool, i: nat,
                     next: seq<Event>, fuel: map<nat, nat>, remaining: bool, progressed: bool)
    returns (fuel': map<nat, nat>)
    requires LinksFor(ix, events) && |cur| == |events| && i < |cur|
    requires PassInv(events, ix, cur, firstPass, i, next, fuel, remaining, progressed)
    requires next[i].offset.Some? && next[i].tMonth.None?
    requires ix.froms[i] in ix.byName && next[ix.byName[ix.froms[i]]].tMonth.Some?
    requires firstPass ==> !BadFrom(events, ix, i)
    ensures var t := next[ix.byName[ix.froms[i]]].tMonth.value + Delta(next[i]);
      PassInv(events, ix, cur, firstPass, i + 1, next[i := next[i].(tMonth := Some(t))], fuel', remaining, true)
  {
    assert AgreesAt(events, ix, next, fuel, i);
    assert next[i] == events[i] && IsOpen(events, next, i);
    fuel' := ResolveOne(events, ix, next, fuel, i);
  }

  /** An open event with a bad offset.from can only be met in the first pass, and is the first such. */
  lemma VisitBad(events: seq<Event>, ix: Links, cur: seq<Event>, firstPass: bool, i: nat,
                 next: seq<Event>, fuel: map<nat, nat>, remaining: bool, progressed: bool)
    requires LinksFor(ix, events) && |cur| == |events| && i < |cur|
    requires firstPass ==> cur == events
    requires !firstPass ==> FirstBadFrom(events, ix, 0).None?
    requires PassInv(events, ix, cur, firstPass, i, next, fuel, remaining, progressed)
    requires next[i].offset.Some? && next[i].tMonth.None?
    requires ix.froms[i] == "" || ix.froms[i] !in ix.byName
    ensures next[i] == events[i]
    ensures firstPass && FirstBadFrom(events, ix, 0) == Some(i)
  {
    assert AgreesAt(events, ix, next, fuel, i);
    assert next[i] == events[i];
    assert BadFrom(events, ix, i);
    if firstPass {
      FirstBadFromIs(events, ix, i);
    }
  }

  /** The pass's visit of event i. */
  method Visit(events: seq<Event>, ix: Links, cur: seq<Event>, ghost firstPass: bool, i: nat,
               next: seq<Event>, ghost fuel: map<nat, nat>, remaining: bool, progressed: bool)
    returns (err: Option<TimingError>, next': seq<Event>, ghost fuel': map<nat, nat>, remaining': bool, progressed': bool)
    requires LinksFor(ix, events) && |cur| == |events| && i < |cur|
    requires firstPass ==> cur == events
    requires !firstPass ==> FirstBadFrom(events, ix, 0).None?
    requires PassInv(events, ix, cur, firstPass, i, next, fuel, remaining, progressed)
    ensures err.Some? ==>
      (firstPass && FirstBadFrom(events, ix, 0).Some?
       && err.value == FromError(events, ix, FirstBadFrom(events, ix, 0).value))
    ensures err.None? ==> PassInv(events, ix, cur, firstPass, i + 1, next', fuel', remaining', progressed')
  {
    next', fuel', remaining', progressed' := next, fuel, remaining, progressed;
    err := None;
    var ev := next[i];
    if !(ev.offset.Some? && ev.tMonth.None?) {
      VisitSkip(events, ix, cur, firstPass, i, next, fuel, remaining, progressed);
      return;
    }
    var frm := ix.froms[i];
    if frm == "" || frm !in ix.byName {
      VisitBad(events, ix, cur, firstPass, i, next, fuel, remaining, progressed);
      err := if frm == "" then Some(MissingOffsetFrom(ev.name)) else Some(UnknownOffsetFrom(ev.name, frm));
      return;
    }
    var ref := next[ix.byName[frm]];
    if ref.tMonth.None? {
      VisitWait(events, ix, cur, firstPass, i, next, fuel, remaining, progressed);
      remaining' := true;
    } else {
      fuel' := VisitResolve(events, ix, cur, firstPass, i, next, fuel, remaining, progressed);
      next' := next[i := ev.(tMonth := Some(ref.tMonth.value + Delta(ev)))];
      progressed' := true;
    }
  }

  /**
   * One pass of the while-remaining loop: every pending event whose reference
   * already has a t_month is resolved from it. The first pass also reports a
   * missing or unknown offset.from.
   */
  method ResolvePass(events: seq<Event>, ix: Links, cur: seq<Event>,
                     ghost fuel: map<nat, nat>, ghost firstPass: bool)
    returns (err: Option<TimingError>, next: seq<Event>, remaining: bool, progressed: bool, ghost fuel': map<nat, nat>)
    requires LinksFor(ix, events) && Agrees(events, ix, cur, fuel)
    requires firstPass ==> cur == events
    requires !firstPass ==> FirstBadFrom(events, ix, 0).None?
    ensures err.Some? ==>
      (firstPass && FirstBadFrom(events, ix, 0).Some?
       && err.value == FromError(events, ix, FirstBadFrom(events, ix, 0).value))
    ensures err.None? ==> FirstBadFrom(events, ix, 0).None?
    ensures err.None? ==> Agrees(events, ix, next, fuel') && Open(events, next) <= Open(events, cur)
    ensures err.None? && progressed ==> Open(events, next) < Open(events, cur)
    ensures err.None? && !progressed ==> next == cur
    ensures err.None? && !remaining ==> Open(events, next) == {}
    ensures err.None? && remaining && !progressed ==> Stuck(events, ix, next) && Open(events, next) != {}
  {
    next, fuel' := cur, fuel;
    remaining, progressed := false, false;
    err := None;
    var i := 0;
    while i < |next|
      invariant PassInv(events, ix, cur, firstPass, i, next, fuel', remaining, progressed)
      invariant err.None?
    {
      err, next, fuel', remaining, progressed := Visit(events, ix, cur, firstPass, i, next, fuel', remaining, progressed);
      if err.Some? {
        return;
      }
      i := i + 1;
    }
    if firstPass {
      assert FirstBadFrom(events, ix, 0).None?;
    }
    OpenShrinks(events, cur, next);
    if !remaining {
      assert forall k :: k in Open(events, next) ==> k < |next|;
      assert Open(events, next) == {};
    }
    if remaining && !progressed {
      var w :| 0 <= w < |next| && IsOpen(events, next, w);
      assert w in Open(events, next);
      assert Stuck(events, ix, next) by {
        forall k | 0 <= k < |next| && Pending(events, k) && next[k].tMonth.None?
          ensures ix.froms[k] in ix.byName && next[ix.byName[ix.froms[k]]].tMonth.None?
        {
          assert IsOpen(events, next, k);
        }
      }
    }
  }

  /**
   * _resolve_offset_events_to_t_month: repeated passes until no offset event is
   * open, or a pass makes no progress (a cycle, or a chain into a missing month).
   * The chain functions are read with the links LinksOf(events).
   */
  method ResolveOffsets(events: seq<Event>) returns (r: Result<seq<Event>, TimingError>)
    ensures var ix := LinksOf(events); var bad := FirstBadFrom(events, ix, 0);
      bad.Some? ==> r == Failure(FromError(events, ix, bad.value))
    ensures var ix := LinksOf(events); FirstBadFrom(events, ix, 0).None? ==>
      (r.Success? <==> forall i :: 0 <= i < |events| && Pending(events, i) ==> Resolvable(events, ix, i))
    ensures var ix := LinksOf(events); FirstBadFrom(events, ix, 0).None? && r.Failure? ==>
      r == Failure(UnresolvedOffsets(UnresolvedPairs(events, ix, |events|)))
    ensures r.Success? ==> |r.value| == |events|
    ensures r.Success? ==> forall i :: 0 <= i < |events| && !Pending(events, i) ==> r.value[i] == events[i]
    ensures r.Success? ==> forall i :: 0 <= i < |events| ==>
      (events[i].offset.Some? || events[i].tMonth.Some? ==> r.value[i].tMonth.Some?)
    ensures var ix := LinksOf(events); r.Success? ==> forall i :: 0 <= i < |events| && Pending(events, i) ==>
      Resolvable(events, ix, i) && r.value[i] == events[i].(tMonth := Some(ResolvedMonth(events, ix, i)))
  {
    var ix := LinksOf(events);
    var cur := events;
    ghost var fuel: map<nat, nat> := map[];
    var remaining := true;
    ghost var firstPass := true;
    while remaining
      invariant Agrees(events, ix, cur, fuel)
      invariant firstPass ==> cur == events && remaining
      invariant !firstPass ==> FirstBadFrom(events, ix, 0).None?
      invariant !remaining ==> Open(events, cur) == {}
      decreases remaining, Open(events, cur)
    {
      var err, next, rem, progressed, fuel' := ResolvePass(events, ix, cur, fuel, firstPass);
      if err.Some? {
        return Failure(err.value);
      }
      if rem && !progressed {
        StuckIsUnresolved(events, ix, next, fuel');
        return Failure(UnresolvedOffsets(OpenPairs(next, |next|)));
      }
      cur, fuel, remaining := next, fuel', rem;
      firstPass := false;
    }
    AllResolved(events, ix, cur, fuel);
    return Success(cur);
  }

  // ---------------------------------------------------------------------------
  // Pass 3: date and t from t_month
  // ---------------------------------------------------------------------------

  /** date = start + t_month months (first of month); t is filled only when absent. */
  function Pass3Event(ev: Event, start: YearMonth): (r: Result<Event, TimingError>)
    ensures ev.tMonth.None? <==> r.Failure?
    ensures r.Success? ==>
      r.value.date == Some(AddMonths(start, ev.tMonth.value))
      && r.value.t == (if ev.t.Some? then ev.t else Some(TOfMonth(ev.tMonth.value)))
      && r.value == ev.(date := r.value.date, t := r.value.t)
  {
    if ev.tMonth.None? then Failure(StillMissingTMonth(ev.name))
    else
      var tm := ev.tMonth.value;
      Success(ev.(date := Some(AddMonths(start, tm)), t := if ev.t.Some? then ev.t else Some(TOfMonth(tm))))
  }

  method DateAllEvents(events: seq<Event>, start: YearMonth) returns (r: Result<seq<Event>, TimingError>)
    ensures r == MapAll(events, ev => Pass3Event(ev, start))
  {
    var f := ev => Pass3Event(ev, start);
    var done: seq<Event> := [];
    var i := 0;
    while i < |events|
      invariant 0 <= i <= |events|
      invariant MapAll(events[..i], f) == Success(done)
    {
      MapAllStep(events, f, i, done);
      match f(events[i])
      case Failure(e) =>
        FailureOfPrefix(events, f, i + 1);
        return Failure(e);
      case Success(ev) =>
        done := done + [ev];
        i := i + 1;
    }
    assert events[..i] == events;
    return Success(done);
  }

  /** The sort key: int(e.get("t_month", 0)). */
  function TMonthKey(e: Event): int {
    e.tMonth.GetOr(0)
  }

  // ---------------------------------------------------------------------------
  // The whole timing resolution
  // ---------------------------------------------------------------------------

  /** Every event carries a t_month, the date it names, and a t. */
  predicate Timed(e: Event, start: YearMonth) {
    e.tMonth.Some? && e.date == Some(AddMonths(start, e.tMonth.value)) && e.t.Some?
  }

  /** After pass 1 every event has a t_month or an offset block, and no error is a missing t_month. */
  lemma Pass1Shape(events: seq<Event>, start: YearMonth, ageMonths: real -> int)
    ensures var r := MapAll(events, ev => Pass1Event(ev, start, ageMonths));
      (r.Failure? ==> !r.error.StillMissingTMonth?)
      && (r.Success? ==> forall i :: 0 <= i < |r.value| ==> r.value[i].offset.Some? || r.value[i].tMonth.Some?)
  {
    var f := ev => Pass1Event(ev, start, ageMonths);
    var r := MapAll(events, f);
    if r.Success? {
      forall i | 0 <= i < |r.value|
        ensures r.value[i].offset.Some? || r.value[i].tMonth.Some?
      {
        assert f(events[i]) == Success(r.value[i]);
      }
    }
  }

  /** After pass 3 every event is timed. */
  lemma Pass3Timed(events: seq<Event>, start: YearMonth)
    requires forall i :: 0 <= i < |events| ==> events[i].tMonth.Some?
    ensures var r := MapAll(events, ev => Pass3Event(ev, start));
      r.Success? && forall e :: e in r.value ==> Timed(e, start)
  {
    var f := ev => Pass3Event(ev, start);
    var r := MapAll(events, f);
    forall e | e in r.value
      ensures Timed(e, start)
    {
      var k :| 0 <= k < |r.value| && r.value[k] == e;
      assert f(events[k]) == Success(e);
    }
  }

  /** Sorting keeps every element, so a property of all elements survives it. */
  lemma SortKeepsTimed(events: seq<Event>, start: YearMonth)
    requires forall e :: e in events ==> Timed(e, start)
    ensures forall e :: e in SortBy(events, TMonthKey) ==> Timed(e, start)
  {
    forall e | e in SortBy(events, TMonthKey)
      ensures Timed(e, start)
    {
      assert e in multiset(SortBy(events, TMonthKey));
      assert e in multiset(events);
    }
  }

  /**
   * The timing passes of load_user_data: unique names, pass 1, offsets, pass 3,
   * then sorted by t_month (a stable sort). The ghost outputs are the lists after
   * pass 1, after the offsets and after pass 3; each is tied to its pass.
   */
  method ResolveEventTiming(events: seq<Event>, start: YearMonth, ageMonths: real -> int)
    returns (r: Result<seq<Event>, TimingError>, ghost fixed: seq<Event>, ghost resolved: seq<Event>,
             ghost dated: seq<Event>)
    ensures !NamesNonEmpty(events) ==> r == Failure(EmptyEventName)
    ensures NamesNonEmpty(events) && !NamesDistinct(events) ==>
      r.Failure? && r.error.DuplicateEventNames? && StrictlySorted(r.error.names)
      && forall n :: n in r.error.names <==>
           exists i, j :: 0 <= i < j < |events| && Strip(events[i].name) == n && Strip(events[j].name) == n
    ensures var p1 := MapAll(events, ev => Pass1Event(ev, start, ageMonths));
      NamesNonEmpty(events) && NamesDistinct(events) && p1.Failure? ==> r == Failure(p1.error)
    ensures var p1 := MapAll(events, ev => Pass1Event(ev, start, ageMonths));
      NamesNonEmpty(events) && NamesDistinct(events) && p1.Success? ==> fixed == p1.value
    ensures var ix := LinksOf(fixed); var bad := FirstBadFrom(fixed, ix, 0);
      (NamesNonEmpty(events) && NamesDistinct(events) && MapAll(events, ev => Pass1Event(ev, start, ageMonths)).Success?
       && bad.Some?) ==> r == Failure(FromError(fixed, ix, bad.value))
    ensures var ix := LinksOf(fixed);
      (NamesNonEmpty(events) && NamesDistinct(events) && MapAll(events, ev => Pass1Event(ev, start, ageMonths)).Success?
       && FirstBadFrom(fixed, ix, 0).None?
       && !(forall i :: 0 <= i < |fixed| && Pending(fixed, i) ==> Resolvable(fixed, ix, i)))
      ==> r == Failure(UnresolvedOffsets(UnresolvedPairs(fixed, ix, |fixed|)))
    ensures var ix := LinksOf(fixed);
      (NamesNonEmpty(events) && NamesDistinct(events) && MapAll(events, ev => Pass1Event(ev, start, ageMonths)).Success?
       && FirstBadFrom(fixed, ix, 0).None?
       && (forall i :: 0 <= i < |fixed| && Pending(fixed, i) ==> Resolvable(fixed, ix, i)))
      ==> r.Success?
    ensures r.Success? ==> NamesNonEmpty(events) && NamesDistinct(events)
    ensures r.Success? ==> MapAll(events, ev => Pass1Event(ev, start, ageMonths)) == Success(fixed)
    ensures r.Success? ==> |resolved| == |fixed|
    ensures r.Success? ==> forall i :: 0 <= i < |fixed| && !Pending(fixed, i) ==> resolved[i] == fixed[i]
    ensures r.Success? ==> forall i :: 0 <= i < |fixed| && Pending(fixed, i) ==>
      Resolvable(fixed, LinksOf(fixed), i)
      && resolved[i] == fixed[i].(tMonth := Some(ResolvedMonth(fixed, LinksOf(fixed), i)))
    ensures r.Success? ==> MapAll(resolved, ev => Pass3Event(ev, start)) == Success(dated)
    ensures r.Success? ==> r.value == SortBy(dated, TMonthKey)
    ensures r.Success? ==> |r.value| == |events|
    ensures r.Success? ==> SortedBy(r.value, TMonthKey)
    ensures r.Success? ==> forall e :: e in r.value ==> Timed(e, start)
    ensures r.Failure? ==> !r.error.StillMissingTMonth?
  {
    fixed, resolved, dated := [], [], [];
    var nameError := ValidateUniqueEventNames(events);
    if nameError.Some? {
      return Failure(nameError.value), fixed, resolved, dated;
    }
    Pass1Shape(events, start, ageMonths);
    var pass1 := ResolveFixedTimes(events, start, ageMonths);
    if pass1.Failure? {
      return Failure(pass1.error), fixed, resolved, dated;
    }
    fixed := pass1.value;
    var offsets := ResolveOffsets(pass1.value);
    if offsets.Failure? {
      return Failure(offsets.error), fixed, resolved, dated;
    }
    resolved := offsets.value;
    Pass3Timed(offsets.value, start);
    var pass3 := DateAllEvents(offsets.value, start);
    dated := pass3.value;
    SortKeepsTimed(pass3.value, start);
    return Success(SortBy(pass3.value, TMonthKey)), fixed, resolved, dated;
  }


  // ---------------------------------------------------------------------------
  // Key back-fill: categories introduced by events start at 0.0
  // ---------------------------------------------------------------------------

  function IncomeKeysOf(ev: Event): set<string> {
    if ev.updatedIncome.Some? then ev.updatedIncome.value.Keys else {}
  }

  /** Keys of updated_expenses.breakdown and updated_expenses.classification. */
  function ExpenseKeysOf(ev: Event): set<string> {
    if ev.updatedExpenses.None? then {}
    else
      var ue := ev.updatedExpenses.value;
      (if ue.breakdown.Some? then ue.breakdown.value.Keys else {})
      + (if ue.classification.Some? then ue.classification.value.Keys else {})
  }

  function EventIncomeKeys(events: seq<Event>): set<string> {
    if events == [] then {} else EventIncomeKeys(events[..|events| - 1]) + IncomeKeysOf(events[|events| - 1])
  }

  function EventExpenseKeys(events: seq<Event>): set<string> {
    if events == [] then {} else EventExpenseKeys(events[..|events| - 1]) + ExpenseKeysOf(events[|events| - 1])
  }

  /**
   * The defensive defaults, then the back-fill: income gets "monthly" at 0.0 and the
   * tax rate 0.0 when absent; income and expense categories named by any event are
   * added at 0.0; every expense category without a classification is classified "fixed".
   */
  method BackfillKeys(income: Amounts, expenses: Expenses, events: seq<Event>)
    returns (income': Amounts, expenses': Expenses)
    ensures income'.Keys == income.Keys + {"monthly"} + EventIncomeKeys(events)
    ensures forall k :: k in income ==> income'[k] == income[k]
    ensures forall k :: k in income' && k !in income ==> income'[k] == 0.0
    ensures expenses'.totalTaxRate == Some(expenses.totalTaxRate.GetOr(0.0))
    ensures expenses'.spendingPolicy == expenses.spendingPolicy
    ensures expenses'.breakdown.Keys == expenses.breakdown.Keys + EventExpenseKeys(events)
    ensures forall k :: k in expenses.breakdown ==> expenses'.breakdown[k] == expenses.breakdown[k]
    ensures forall k :: k in expenses'.breakdown && k !in expenses.breakdown ==> expenses'.breakdown[k] == 0.0
    ensures expenses'.classification.Keys == expenses.classification.Keys + expenses'.breakdown.Keys
    ensures forall k :: k in expenses.classification ==> expenses'.classification[k] == expenses.classification[k]
    ensures forall k :: k in expenses'.classification && k !in expenses.classification ==>
      expenses'.classification[k] == "fixed"
  {
    var incomeKeys := income.Keys + {"monthly"};
    var expenseKeys := expenses.breakdown.Keys;
    var i := 0;
    while i < |events|
      invariant 0 <= i <= |events|
      invariant incomeKeys == income.Keys + {"monthly"} + EventIncomeKeys(events[..i])
      invariant expenseKeys == expenses.breakdown.Keys + EventExpenseKeys(events[..i])
    {
      assert events[..i + 1][..i] == events[..i];
      incomeKeys := incomeKeys + IncomeKeysOf(events[i]);
      expenseKeys := expenseKeys + ExpenseKeysOf(events[i]);
      i := i + 1;
    }
    assert events[..i] == events;
    income' := SetDefaults(income, incomeKeys, 0.0);
    var breakdown := SetDefaults(expenses.breakdown, expenseKeys, 0.0);
    expenses' := expenses.(totalTaxRate := Some(expenses.totalTaxRate.GetOr(0.0)), breakdown := breakdown,
                           classification := SetDefaults(expenses.classification, breakdown.Keys, "fixed"));
  }
}
