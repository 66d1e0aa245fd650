/**
 * Sums over the values of a string-keyed map (Python's sum(d.values())).
 * The sum walks the keys in ascending order so that it is a compiled
 * function; SumRemove shows that the order does not matter.
 */
module Sums {
  import opened Strings

  /** A category name -> amount mapping (income, expenses, assumptions). */
  type Amounts = map<string, real>

  function SumValues(m: Amounts): real
    decreases |m.Keys|
  {
    if m.Keys == {} then 0.0
    else
      var k := MinKey(m.Keys);
      m[k] + SumValues(m - {k})
  }

  function Restrict(m: Amounts, a: set<string>): (r: Amounts)
    ensures r.Keys == m.Keys * a
    ensures forall k :: k in r ==> r[k] == m[k]
  {
    map k | k in m && k in a :: m[k]
  }

  /** d.setdefault(k, v) for every k in keys. */
  function SetDefaults<V>(d: map<string, V>, keys: set<string>, v: V): (r: map<string, V>)
    ensures r.Keys == d.Keys + keys
    ensures forall k :: k in d ==> r[k] == d[k]
    ensures forall k :: k in r && k !in d ==> r[k] == v
  {
    map k | k in d.Keys + keys :: if k in d then d[k] else v
  }

  /** for k in keys: d.setdefault(k, 0.0) */
  method ZeroFill(base: Amounts, keys: set<string>) returns (r: Amounts)
    ensures r == SetDefaults(base, keys, 0.0)
  {
    r := base;
    var todo := keys;
    while todo != {}
      invariant todo <= keys
      invariant r.Keys == base.Keys + (keys - todo)
      invariant forall k :: k in r ==> r[k] == if k in base then base[k] else 0.0
      decreases |todo|
    {
      var k :| k in todo;
      if k !in r {
        r := r[k := 0.0];
      }
      todo := todo - {k};
    }
  }

  function Without(m: Amounts, a: set<string>): (r: Amounts)
    ensures r.Keys == m.Keys - a
    ensures forall k :: k in r ==> r[k] == m[k]
  {
    map k | k in m && k !in a :: m[k]
  }

  /** Taking out a key other than the smallest leaves the smallest in place. */
  lemma MinKeyRemove(s: set<string>, k: string)
    requires k in s && k != MinKey(s)
    ensures s - {k} != {} && MinKey(s - {k}) == MinKey(s)
  {
    var j := MinKey(s);
    assert j in s - {k};
    var j' := MinKey(s - {k});
    MinKeyLeast(s);
    MinKeyLeast(s - {k});
    if j' != j {
      LexAsymmetric(j, j');
    }
  }

  /** Taking any one key out first gives the same sum. */
  lemma {:induction false} SumRemove(m: Amounts, k: string)
    requires k in m
    ensures SumValues(m) == m[k] + SumValues(m - {k})
    decreases |m.Keys|
  {
    var j := MinKey(m.Keys);
    if j != k {
      var mj := m - {j};
      var mk := m - {k};
      assert mj.Keys == m.Keys - {j};
      SumRemove(mj, k);
      assert mk.Keys == m.Keys - {k};
      MinKeyRemove(m.Keys, k);
      assert mj - {k} == mk - {j};
      SumFirst(m, j);
      SumFirst(mk, j);
    }
  }

  /** One step of the sum: the smallest key's value plus the sum of the rest. */
  lemma SumFirst(m: Amounts, j: string)
    requires m.Keys != {} && j == MinKey(m.Keys)
    ensures SumValues(m) == m[j] + SumValues(m - {j})
  {
  }

  lemma SumInsert(m: Amounts, k: string, v: real)
    requires k !in m
    ensures SumValues(m[k := v]) == SumValues(m) + v
  {
    SumRemove(m[k := v], k);
    assert m[k := v] - {k} == m;
  }

  lemma SumUpdate(m: Amounts, k: string, v: real)
    requires k in m
    ensures SumValues(m[k := v]) == SumValues(m) - m[k] + v
  {
    SumRemove(m[k := v], k);
    SumRemove(m, k);
    assert m[k := v] - {k} == m - {k};
  }

  /** A map whose every value is 0.0 sums to 0.0. */
  lemma {:induction false} SumZeros(m: Amounts)
    requires forall k :: k in m ==> m[k] == 0.0
    ensures SumValues(m) == 0.0
    decreases |m.Keys|
  {
    if m.Keys != {} {
      SumZeros(m - {MinKey(m.Keys)});
    }
  }

  /** Keys added with the value 0.0 leave the sum unchanged. */
  lemma SumZeroDefaults(m: Amounts, keys: set<string>)
    ensures SumValues(SetDefaults(m, keys, 0.0)) == SumValues(m)
  {
    var z := SetDefaults(m, keys, 0.0);
    SumSplit(z, m.Keys);
    assert Restrict(z, m.Keys) == m;
    SumZeros(Without(z, m.Keys));
  }

  lemma {:induction false} SumSplit(m: Amounts, a: set<string>)
    ensures SumValues(m) == SumValues(Restrict(m, a)) + SumValues(Without(m, a))
    decreases |m.Keys|
  {
    if m.Keys == {} {
      assert Restrict(m, a).Keys == {} && Without(m, a).Keys == {};
    } else {
      var k := MinKey(m.Keys);
      var rest := m - {k};
      assert SumValues(m) == m[k] + SumValues(rest);
      SumSplit(rest, a);
      if k in a {
        SplitTakesIn(m, a, k);
      } else {
        SplitTakesOut(m, a, k);
      }
    }
  }

  lemma SplitTakesIn(m: Amounts, a: set<string>, k: string)
    requires k in m && k in a
    ensures SumValues(Restrict(m, a)) == m[k] + SumValues(Restrict(m - {k}, a))
    ensures Without(m, a) == Without(m - {k}, a)
  {
    SumRemove(Restrict(m, a), k);
    assert Restrict(m, a) - {k} == Restrict(m - {k}, a);
  }

  lemma SplitTakesOut(m: Amounts, a: set<string>, k: string)
    requires k in m && k !in a
    ensures SumValues(Without(m, a)) == m[k] + SumValues(Without(m - {k}, a))
    ensures Restrict(m, a) == Restrict(m - {k}, a)
  {
    SumRemove(Without(m, a), k);
    assert Without(m, a) - {k} == Without(m - {k}, a);
  }

  lemma {:induction false} SumNonNegative(m: Amounts)
    requires forall k :: k in m ==> m[k] >= 0.0
    ensures SumValues(m) >= 0.0
    decreases |m.Keys|
  {
    if m.Keys != {} {
      SumNonNegative(m - {MinKey(m.Keys)});
    }
  }

  /** A pointwise smaller map over the same keys has a smaller sum. */
  lemma {:induction false} SumMonotone(m: Amounts, n: Amounts)
    requires m.Keys == n.Keys
    requires forall k :: k in m ==> m[k] <= n[k]
    ensures SumValues(m) <= SumValues(n)
    decreases |m.Keys|
  {
    if m.Keys != {} {
      var k := MinKey(m.Keys);
      SumRemove(n, k);
      SumMonotone(m - {k}, n - {k});
    }
  }
}
