/**
 * Two list operations the loader and the normalizer share: Python's sorted() with a
 * key (a stable sort), and a per-element step that may raise, applied in order so
 * that the first failure is the one reported.
 */
module Sequences {
  import opened Wrappers

  // ---------------------------------------------------------------------------
  // sorted(xs, key=...)
  // ---------------------------------------------------------------------------

  predicate SortedBy<T>(xs: seq<T>, key: T -> int) {
    forall i, j :: 0 <= i < j < |xs| ==> key(xs[i]) <= key(xs[j])
  }

  /** Insert x before the first element whose key is at least x's. */
  function Insert<T>(x: T, xs: seq<T>, key: T -> int): (r: seq<T>)
    ensures multiset(r) == multiset(xs) + multiset{x}
    ensures |r| == |xs| + 1
  {
    if xs == [] || key(x) <= key(xs[0]) then [x] + xs
    else
      assert xs == [xs[0]] + xs[1..];
      [xs[0]] + Insert(x, xs[1..], key)
  }

  lemma {:induction false} InsertSorted<T>(x: T, xs: seq<T>, key: T -> int)
    requires SortedBy(xs, key)
    ensures SortedBy(Insert(x, xs, key), key)
  {
    if xs != [] && key(x) > key(xs[0]) {
      var rest := Insert(x, xs[1..], key);
      InsertSorted(x, xs[1..], key);
      assert xs == [xs[0]] + xs[1..];
      forall j | 0 <= j < |rest|
        ensures key(xs[0]) <= key(rest[j])
      {
        assert rest[j] in multiset(rest);
        if rest[j] != x {
          assert rest[j] in multiset(xs[1..]);
          var k :| 0 <= k < |xs[1..]| && xs[1..][k] == rest[j];
          assert xs[k + 1] == rest[j];
        }
      }
      assert Insert(x, xs, key) == [xs[0]] + rest;
    }
  }

  /** sorted(xs, key=key): insertion sort, which is stable. */
  function SortBy<T>(xs: seq<T>, key: T -> int): (r: seq<T>)
    ensures multiset(r) == multiset(xs)
    ensures |r| == |xs|
    ensures SortedBy(r, key)
  {
    if xs == [] then []
    else
      assert xs == [xs[0]] + xs[1..];
      var rest := SortBy(xs[1..], key);
      InsertSorted(xs[0], rest, key);
      Insert(xs[0], rest, key)
  }

  /** The elements of xs whose key is k, in their order in xs. */
  function KeyFilter<T>(xs: seq<T>, key: T -> int, k: int): seq<T> {
    if xs == [] then []
    else (if key(xs[0]) == k then [xs[0]] else []) + KeyFilter(xs[1..], key, k)
  }

  lemma {:induction false} KeyFilterInsert<T>(x: T, xs: seq<T>, key: T -> int, k: int)
    ensures KeyFilter(Insert(x, xs, key), key, k)
         == (if key(x) == k then [x] else []) + KeyFilter(xs, key, k)
  {
    if xs == [] || key(x) <= key(xs[0]) {
      assert ([x] + xs)[1..] == xs;
    } else {
      KeyFilterInsert(x, xs[1..], key, k);
      var rest := Insert(x, xs[1..], key);
      assert ([xs[0]] + rest)[1..] == rest;
    }
  }

  /** Stability: the elements with any one key keep their relative order. */
  lemma {:induction false} SortStable<T>(xs: seq<T>, key: T -> int, k: int)
    ensures KeyFilter(SortBy(xs, key), key, k) == KeyFilter(xs, key, k)
  {
    if xs != [] {
      SortStable(xs[1..], key, k);
      KeyFilterInsert(xs[0], SortBy(xs[1..], key), key, k);
    }
  }

  /** Sorting leaves a list unchanged exactly when it is already in key order. */
  lemma {:induction false} SortIdentity<T>(xs: seq<T>, key: T -> int)
    ensures SortBy(xs, key) == xs <==> SortedBy(xs, key)
  {
    if xs != [] && SortedBy(xs, key) {
      assert SortedBy(xs[1..], key);
      SortIdentity(xs[1..], key);
      assert xs == [xs[0]] + xs[1..];
    }
  }

  // ---------------------------------------------------------------------------
  // A step applied to each element in turn; the first failure stops the walk
  // ---------------------------------------------------------------------------

  function MapAll<A, B, E>(xs: seq<A>, f: A -> Result<B, E>): (r: Result<seq<B>, E>)
    ensures r.Success? ==> |r.value| == |xs| && forall i :: 0 <= i < |xs| ==> f(xs[i]) == Success(r.value[i])
    ensures r.Success? <==> forall i :: 0 <= i < |xs| ==> f(xs[i]).Success?
    ensures r.Failure? ==> exists i :: 0 <= i < |xs| && f(xs[i]) == Failure(r.error)
  {
    if xs == [] then Success([])
    else
      var init :- MapAll(xs[..|xs| - 1], f);
      var last :- f(xs[|xs| - 1]);
      Success(init + [last])
  }

  /** A prefix that fails makes the whole walk fail with the same error. */
  lemma {:induction false} FailureOfPrefix<A, B, E>(xs: seq<A>, f: A -> Result<B, E>, n: nat)
    requires n <= |xs| && MapAll(xs[..n], f).Failure?
    ensures MapAll(xs, f) == MapAll(xs[..n], f)
    decreases |xs| - n
  {
    if n < |xs| {
      assert xs[..n + 1][..n] == xs[..n];
      FailureOfPrefix(xs, f, n + 1);
    } else {
      assert xs[..n] == xs;
    }
  }

  /** One more element: the walk extends by its result, or fails with its error. */
  lemma MapAllStep<A, B, E>(xs: seq<A>, f: A -> Result<B, E>, i: nat, done: seq<B>)
    requires i < |xs| && MapAll(xs[..i], f) == Success(done)
    ensures MapAll(xs[..i + 1], f) ==
      (if f(xs[i]).Success? then Success(done + [f(xs[i]).value]) else Failure(f(xs[i]).error))
  {
    assert xs[..i + 1][..i] == xs[..i];
  }

  /** The first element whose step fails, when one does. */
  function FirstFailure<A, B, E>(xs: seq<A>, f: A -> Result<B, E>): (r: Option<nat>)
    ensures r.Some? ==>
      (r.value < |xs| && f(xs[r.value]).Failure? && forall k :: 0 <= k < r.value ==> f(xs[k]).Success?)
    ensures r.None? <==> forall i :: 0 <= i < |xs| ==> f(xs[i]).Success?
  {
    if xs == [] then None
    else if f(xs[0]).Failure? then Some(0)
    else match FirstFailure(xs[1..], f)
      case None => None
      case Some(k) => Some(k + 1)
  }

  /** MapAll reports the failure of the first element that fails. */
  lemma {:induction false} MapAllFirstFailure<A, B, E>(xs: seq<A>, f: A -> Result<B, E>)
    requires FirstFailure(xs, f).Some?
    ensures MapAll(xs, f) == Failure(f(xs[FirstFailure(xs, f).value]).error)
  {
    var n := |xs| - 1;
    var j := FirstFailure(xs, f).value;
    if j == n {
      assert MapAll(xs[..n], f).Success? by {
        forall i | 0 <= i < |xs[..n]|
          ensures f(xs[..n][i]).Success?
        {
          assert xs[..n][i] == xs[i];
        }
      }
    } else {
      var init := xs[..n];
      assert init[0] == xs[0] && init[1..] == xs[1..][..n - 1];
      FirstFailureOfPrefix(xs, f, n);
      MapAllFirstFailure(init, f);
      assert init[j] == xs[j];
    }
  }

  lemma FirstFailureOfPrefix<A, B, E>(xs: seq<A>, f: A -> Result<B, E>, n: nat)
    requires n <= |xs|
    requires FirstFailure(xs, f).Some? && FirstFailure(xs, f).value < n
    ensures FirstFailure(xs[..n], f) == FirstFailure(xs, f)
  {
    var j := FirstFailure(xs, f).value;
    var p := xs[..n];
    assert forall k :: 0 <= k <= j ==> p[k] == xs[k];
  }
}
