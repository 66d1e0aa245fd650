/**
 * Python string behaviour the simulator relies on: str.strip(), substring
 * membership, integer formatting with zero padding, code-point ordering as
 * used by sorted(), and the repr of a list of strings.
 */
module Strings {
  import opened Wrappers

  // ---------------------------------------------------------------------------
  // Whitespace and strip()
  // ---------------------------------------------------------------------------

  /** The characters for which Python's str.isspace() holds. */
  predicate IsSpace(c: char) {
    ('\t' <= c <= '\r') || ('\U{1C}' <= c <= '\U{1F}') || c == ' ' || c == '\U{85}' || c == '\U{A0}'
    || c == '\U{1680}' || ('\U{2000}' <= c <= '\U{200A}') || c == '\U{2028}' || c == '\U{2029}'
    || c == '\U{202F}' || c == '\U{205F}' || c == '\U{3000}'
  }

  predicate AllSpace(s: string) {
    forall i :: 0 <= i < |s| ==> IsSpace(s[i])
  }

  function TrimLeft(s: string): string {
    if |s| > 0 && IsSpace(s[0]) then TrimLeft(s[1..]) else s
  }

  function TrimRight(s: string): string {
    if |s| > 0 && IsSpace(s[|s| - 1]) then TrimRight(s[..|s| - 1]) else s
  }

  /** TrimLeft drops the longest all-space prefix. */
  lemma {:induction false} TrimLeftDropsSpace(s: string)
    ensures var r := TrimLeft(s);
      |r| <= |s| && r == s[|s| - |r|..] && AllSpace(s[..|s| - |r|]) && (r == [] || !IsSpace(r[0]))
  {
    if |s| > 0 && IsSpace(s[0]) {
      TrimLeftDropsSpace(s[1..]);
      var r := TrimLeft(s);
      assert s[..|s| - |r|] == [s[0]] + s[1..][..|s| - 1 - |r|];
    }
  }

  /** TrimRight drops the longest all-space suffix. */
  lemma {:induction false} TrimRightDropsSpace(s: string)
    ensures var r := TrimRight(s);
      |r| <= |s| && r == s[..|r|] && AllSpace(s[|r|..]) && (r == [] || !IsSpace(r[|r| - 1]))
  {
    if |s| > 0 && IsSpace(s[|s| - 1]) {
      TrimRightDropsSpace(s[..|s| - 1]);
      var r := TrimRight(s);
      assert s[|r|..] == s[..|s| - 1][|r|..] + [s[|s| - 1]];
    }
  }

  /**
   * str.strip() with no argument: drop leading and trailing whitespace. Its facts
   * are in StripEnds and StripEmptyIff, so that callers pay for them only on demand.
   */
  function Strip(s: string): string {
    TrimRight(TrimLeft(s))
  }

  /** The stripped string neither starts nor ends with whitespace. */
  lemma StripEnds(s: string)
    ensures var r := Strip(s); r == [] || (!IsSpace(r[0]) && !IsSpace(r[|r| - 1]))
  {
    var l := TrimLeft(s);
    TrimLeftDropsSpace(s);
    TrimRightDropsSpace(l);
  }

  /** A string strips to the empty string exactly when it is all whitespace. */
  lemma StripEmptyIff(s: string)
    ensures Strip(s) == [] <==> AllSpace(s)
  {
    var l := TrimLeft(s);
    var r := TrimRight(l);
    TrimLeftDropsSpace(s);
    TrimRightDropsSpace(l);
    if r == [] {
      assert l[|r|..] == l;
      assert s == s[..|s| - |l|] + l;
    } else {
      assert r[0] == s[|s| - |l|];
    }
  }

  // ---------------------------------------------------------------------------
  // Substrings
  // ---------------------------------------------------------------------------

  /** Python's `sub in s` for two strings. */
  predicate Contains(s: string, sub: string) {
    exists i :: 0 <= i <= |s| - |sub| && OccursAt(s, sub, i)
  }

  predicate OccursAt(s: string, sub: string, i: int)
    requires 0 <= i <= |s| - |sub|
  {
    s[i..i + |sub|] == sub
  }

  lemma ContainsMiddle(a: string, sub: string, b: string)
    ensures Contains(a + sub + b, sub)
  {
    var s := a + sub + b;
    assert OccursAt(s, sub, |a|);
  }

  // ---------------------------------------------------------------------------
  // Decimal digits and Python's `{v:0Nd}` formatting
  // ---------------------------------------------------------------------------

  predicate IsDigit(c: char) {
    '0' <= c <= '9'
  }

  predicate AllDigits(s: string) {
    forall i :: 0 <= i < |s| ==> IsDigit(s[i])
  }

  function DigitChar(d: nat): (c: char)
    requires d < 10
    ensures IsDigit(c) && c as int - '0' as int == d
  {
    ('0' as int + d) as char
  }

  /** str(n) for a non-negative integer. */
  function NatStr(n: nat): (r: string)
    ensures |r| >= 1 && AllDigits(r)
  {
    if n < 10 then [DigitChar(n)] else NatStr(n / 10) + [DigitChar(n % 10)]
  }

  /** int(s) for a string of decimal digits. */
  function DigitsValue(s: string): nat
    requires AllDigits(s)
  {
    if s == [] then 0 else DigitsValue(s[..|s| - 1]) * 10 + (s[|s| - 1] as int - '0' as int)
  }

  lemma {:induction false} NatStrRoundTrip(n: nat)
    ensures DigitsValue(NatStr(n)) == n
  {
    if n >= 10 {
      NatStrRoundTrip(n / 10);
      var s := NatStr(n);
      assert s[..|s| - 1] == NatStr(n / 10);
    }
  }

  function Zeros(k: nat): (r: string)
    ensures |r| == k && AllDigits(r)
    ensures forall i :: 0 <= i < k ==> r[i] == '0'
  {
    if k == 0 then [] else Zeros(k - 1) + ['0']
  }

  lemma {:induction false} LeadingZeros(k: nat, s: string)
    requires AllDigits(s)
    ensures DigitsValue(Zeros(k) + s) == DigitsValue(s)
  {
    if s == [] {
      assert Zeros(k) + s == Zeros(k);
      ZerosValue(k);
    } else {
      var t := Zeros(k) + s;
      assert t[..|t| - 1] == Zeros(k) + s[..|s| - 1];
      LeadingZeros(k, s[..|s| - 1]);
    }
  }

  lemma {:induction false} ZerosValue(k: nat)
    ensures DigitsValue(Zeros(k)) == 0
  {
    if k > 0 {
      assert Zeros(k)[..k - 1] == Zeros(k - 1);
      ZerosValue(k - 1);
    }
  }

  /** Pad a digit string with leading zeros to at least w characters. */
  function ZeroPad(s: string, w: nat): (r: string)
    requires AllDigits(s)
    ensures AllDigits(r) && |r| >= |s| && |r| >= w
  {
    if |s| >= w then s else Zeros(w - |s|) + s
  }

  /** Python's format(v, "0{w}d"): the sign counts towards the width. */
  function FormatInt(v: int, w: nat): (r: string)
    ensures |r| >= 1
  {
    if v >= 0 then ZeroPad(NatStr(v), w)
    else "-" + ZeroPad(NatStr(-v), if w >= 1 then w - 1 else 0)
  }

  /** int(s) for an optional minus sign followed by at least one digit; None otherwise. */
  function ParseInt(s: string): (r: Option<int>)
  {
    if |s| >= 2 && s[0] == '-' && AllDigits(s[1..]) then Some(-(DigitsValue(s[1..]) as int))
    else if |s| >= 1 && AllDigits(s) then Some(DigitsValue(s))
    else None
  }

  lemma FormatIntRoundTrip(v: int, w: nat)
    ensures ParseInt(FormatInt(v, w)) == Some(v)
  {
    if v >= 0 {
      var d := NatStr(v);
      NatStrRoundTrip(v);
      if |d| < w {
        LeadingZeros(w - |d|, d);
      }
    } else {
      var d := NatStr(-v);
      var w' := if w >= 1 then w - 1 else 0;
      NatStrRoundTrip(-v);
      if |d| < w' {
        LeadingZeros(w' - |d|, d);
      }
      var s := FormatInt(v, w);
      assert s[1..] == ZeroPad(d, w');
    }
  }

  // ---------------------------------------------------------------------------
  // Code-point order of strings, as used by Python's sorted()
  // ---------------------------------------------------------------------------

  predicate LexLess(a: string, b: string)
    decreases |a|
  {
    |b| > 0 && (|a| == 0 || a[0] < b[0] || (a[0] == b[0] && LexLess(a[1..], b[1..])))
  }

  lemma {:induction false} LexIrreflexive(a: string)
    ensures !LexLess(a, a)
    decreases |a|
  {
    if |a| > 0 {
      LexIrreflexive(a[1..]);
    }
  }

  lemma {:induction false} LexTransitive(a: string, b: string, c: string)
    requires LexLess(a, b) && LexLess(b, c)
    ensures LexLess(a, c)
    decreases |a|
  {
    if |a| > 0 && a[0] == b[0] && b[0] == c[0] {
      LexTransitive(a[1..], b[1..], c[1..]);
    }
  }

  lemma {:induction false} LexTrichotomy(a: string, b: string)
    ensures a == b || LexLess(a, b) || LexLess(b, a)
    decreases |a|
  {
    if |a| > 0 && |b| > 0 && a[0] == b[0] {
      LexTrichotomy(a[1..], b[1..]);
      if a[1..] == b[1..] {
        assert a == [a[0]] + a[1..] && b == [b[0]] + b[1..];
      }
    }
  }

  lemma LexAsymmetric(a: string, b: string)
    ensures !(LexLess(a, b) && LexLess(b, a))
  {
    if LexLess(a, b) && LexLess(b, a) {
      LexTransitive(a, b, a);
      LexIrreflexive(a);
    }
  }

  lemma LexAsymmetricAll()
    ensures forall a: string, b: string :: LexLess(a, b) ==> !LexLess(b, a)
  {
    forall a: string, b: string ensures LexLess(a, b) ==> !LexLess(b, a) {
      LexAsymmetric(a, b);
    }
  }

  function Pow10(n: nat): (r: nat)
    ensures r >= 1
  {
    if n == 0 then 1 else 10 * Pow10(n - 1)
  }

  /** A digit string of length n is worth less than 10^n. */
  lemma {:induction false} DigitsBound(s: string)
    requires AllDigits(s)
    ensures DigitsValue(s) < Pow10(|s|)
    decreases |s|
  {
    if s != [] {
      DigitsBound(s[..|s| - 1]);
    }
  }

  lemma ConsArithmetic(d: int, p: int, v: int, last: int)
    ensures (d * p + v) * 10 + last == d * (10 * p) + (v * 10 + last)
  {
  }

  /** The leading digit of a digit string weighs 10^(the number of digits after it). */
  lemma {:induction false} DigitsCons(c: char, s: string)
    requires IsDigit(c) && AllDigits(s)
    ensures AllDigits([c] + s)
    ensures DigitsValue([c] + s) == (c as int - '0' as int) * Pow10(|s|) + DigitsValue(s)
    decreases |s|
  {
    var t := [c] + s;
    assert forall i :: 0 <= i < |t| ==> t[i] == if i == 0 then c else s[i - 1];
    if s != [] {
      var d := c as int - '0' as int;
      var s' := s[..|s| - 1];
      var last := s[|s| - 1] as int - '0' as int;
      assert t[..|t| - 1] == [c] + s';
      assert t[|t| - 1] == s[|s| - 1];
      DigitsCons(c, s');
      var p, v := Pow10(|s'|), DigitsValue(s');
      assert DigitsValue(t) == (d * p + v) * 10 + last;
      assert DigitsValue(s) == v * 10 + last;
      assert Pow10(|s|) == 10 * p;
      ConsArithmetic(d, p, v, last);
    }
  }

  lemma {:induction false} MulAtLeast(k: int, p: int)
    requires k >= 1 && p >= 0
    ensures k * p >= p
    decreases k
  {
    if k > 1 {
      MulAtLeast(k - 1, p);
      assert k * p == (k - 1) * p + p;
    }
  }

  /** A smaller leading digit outweighs whatever digits follow it. */
  lemma LeadingDigitWins(ds: int, dt: int, p: nat, x: nat, y: nat)
    requires 0 <= ds < dt && x < p
    ensures ds * p + x < dt * p + y
  {
    assert dt * p == ds * p + (dt - ds) * p;
    MulAtLeast(dt - ds, p);
  }

  /** On digit strings of one length, code-point order is numeric order. */
  lemma {:induction false} LexDigits(s: string, t: string)
    requires AllDigits(s) && AllDigits(t) && |s| == |t|
    ensures LexLess(s, t) <==> DigitsValue(s) < DigitsValue(t)
    decreases |s|
  {
    if s != [] {
      var s', t' := s[1..], t[1..];
      assert s == [s[0]] + s' && t == [t[0]] + t';
      DigitsCons(s[0], s');
      DigitsCons(t[0], t');
      DigitsBound(s');
      DigitsBound(t');
      var p := Pow10(|s'|);
      var ds, dt := s[0] as int - '0' as int, t[0] as int - '0' as int;
      if ds < dt {
        LeadingDigitWins(ds, dt, p, DigitsValue(s'), DigitsValue(t'));
      } else if dt < ds {
        LeadingDigitWins(dt, ds, p, DigitsValue(t'), DigitsValue(s'));
      } else {
        LexDigits(s', t');
      }
    }
  }

  /** Comparing two strings that start with prefixes of one length compares the prefixes first. */
  lemma {:induction false} LexAppend(s: string, x: string, t: string, y: string)
    requires |s| == |t|
    ensures LexLess(s + x, t + y) <==> LexLess(s, t) || (s == t && LexLess(x, y))
    decreases |s|
  {
    if s != [] {
      assert (s + x)[1..] == s[1..] + x && (t + y)[1..] == t[1..] + y;
      LexAppend(s[1..], x, t[1..], y);
      if s[0] == t[0] && s[1..] == t[1..] {
        assert s == [s[0]] + s[1..] && t == [t[0]] + t[1..];
      }
    } else {
      assert s + x == x && t + y == y;
    }
  }

  lemma {:induction false} NatStrLength(v: nat, k: nat)
    requires k >= 1 && v < Pow10(k)
    ensures |NatStr(v)| <= k
    decreases v
  {
    if v >= 10 {
      assert k >= 2;
      NatStrLength(v / 10, k - 1);
    }
  }

  /** Below 10^w, format(v, "0{w}d") is exactly w digits worth v. */
  lemma FormatIntFixed(v: nat, w: nat)
    requires w >= 1 && v < Pow10(w)
    ensures var r := FormatInt(v, w); |r| == w && AllDigits(r) && DigitsValue(r) == v
  {
    var d := NatStr(v);
    NatStrLength(v, w);
    NatStrRoundTrip(v);
    assert FormatInt(v, w) == ZeroPad(d, w);
    if |d| < w {
      assert ZeroPad(d, w) == Zeros(w - |d|) + d;
      LeadingZeros(w - |d|, d);
    } else {
      assert ZeroPad(d, w) == d;
    }
  }

  /** Adding x to a set whose least element is m: the lesser of m and x is least. */
  lemma MinWithOne(s: set<string>, x: string, m: string) returns (w: string)
    requires x in s && m in s - {x}
    requires forall k :: k in s - {x} && k != m ==> LexLess(m, k)
    ensures w in s && forall k :: k in s && k != w ==> LexLess(w, k)
  {
    LexTrichotomy(m, x);
    if LexLess(m, x) {
      w := m;
      forall k | k in s && k != m
        ensures LexLess(m, k)
      {
        if k != x {
          assert k in s - {x};
        }
      }
    } else {
      w := x;
      forall k | k in s && k != x
        ensures LexLess(x, k)
      {
        if k != m {
          assert k in s - {x};
          LexTransitive(x, m, k);
        }
      }
    }
  }

  lemma {:induction false} MinExists(s: set<string>)
    requires s != {}
    ensures exists m :: m in s && forall k :: k in s && k != m ==> LexLess(m, k)
    decreases |s|
  {
    var x :| x in s;
    var rest := s - {x};
    if rest == {} {
      forall k | k in s
        ensures k == x
      {
        assert k !in rest;
      }
    } else {
      MinExists(rest);
      var m :| m in rest && forall k :: k in rest && k != m ==> LexLess(m, k);
      var w := MinWithOne(s, x, m);
    }
  }

  /** The smallest element of a non-empty set of strings. */
  function MinKey(s: set<string>): (m: string)
    requires s != {}
    ensures m in s
  {
    MinExists(s);
    LexAsymmetricAll();
    var m :| m in s && forall k :: k in s && k != m ==> LexLess(m, k);
    m
  }

  /** MinKey is below every other element of the set. */
  lemma MinKeyLeast(s: set<string>)
    requires s != {}
    ensures forall k :: k in s && k != MinKey(s) ==> LexLess(MinKey(s), k)
  {
    MinExists(s);
    LexAsymmetricAll();
  }

  predicate StrictlySorted(r: seq<string>) {
    forall i, j :: 0 <= i < j < |r| ==> LexLess(r[i], r[j])
  }

  /** sorted(s) for a set of strings: every element once, in ascending order. */
  function SortedKeys(s: set<string>): (r: seq<string>)
    ensures |r| == |s|
    ensures forall k :: k in r <==> k in s
    decreases |s|
  {
    if s == {} then []
    else
      var m := MinKey(s);
      [m] + SortedKeys(s - {m})
  }

  /** SortedKeys lists the set in strictly ascending order. */
  lemma {:induction false} SortedKeysSorted(s: set<string>)
    ensures StrictlySorted(SortedKeys(s))
    decreases |s|
  {
    if s != {} {
      var m := MinKey(s);
      var rest := SortedKeys(s - {m});
      SortedKeysSorted(s - {m});
      MinKeyLeast(s);
      var r := [m] + rest;
      forall i, j | 0 <= i < j < |r|
        ensures LexLess(r[i], r[j])
      {
        if i > 0 {
          assert r[i] == rest[i - 1] && r[j] == rest[j - 1];
        } else {
          assert r[j] == rest[j - 1];
          assert r[j] in s - {m};
        }
      }
    }
  }

  lemma SortedDistinct(r: seq<string>)
    requires StrictlySorted(r)
    ensures forall i, j :: 0 <= i < j < |r| ==> r[i] != r[j]
  {
    forall i, j | 0 <= i < j < |r|
      ensures r[i] != r[j]
    {
      LexIrreflexive(r[i]);
    }
  }

  // ---------------------------------------------------------------------------
  // repr() of a list of strings
  // ---------------------------------------------------------------------------

  function Quote(s: string): string {
    "'" + s + "'"
  }

  function JoinQuoted(xs: seq<string>): string {
    if xs == [] then ""
    else if |xs| == 1 then Quote(xs[0])
    else Quote(xs[0]) + ", " + JoinQuoted(xs[1..])
  }

  /** repr(xs) for a list of plain strings, e.g. "['person', 'income']". */
  function ListRepr(xs: seq<string>): string {
    "[" + JoinQuoted(xs) + "]"
  }
}
