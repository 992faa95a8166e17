/**
 * The JavaScript built-ins that the event client relies on, modelled on
 * values: Array.prototype.filter and slice, String.prototype.toLowerCase and
 * includes, String(n) for a non-negative integer, the truncating `%`
 * operator and the `\s` character class of regular expressions.
 */
module JsLib {

  datatype Option<+T> = None | Some(value: T)

  function Min(a: int, b: int): int {
    if a <= b then a else b
  }

  // ---------------------------------------------------------------------------
  // Array.prototype.filter
  // ---------------------------------------------------------------------------

  /** The elements of `s` that satisfy `p`, in their original order. */
  function Filter<T(!new)>(s: seq<T>, p: T -> bool): (r: seq<T>)
    ensures |r| <= |s|
    ensures forall x :: x in r <==> x in s && p(x)
    decreases |s|
  {
    if s == [] then [] else (if p(s[0]) then [s[0]] else []) + Filter(s[1..], p)
  }

  /** Filtering keeps every occurrence of a passing element and none of a failing one. */
  lemma {:induction false} FilterMultiset<T(!new)>(s: seq<T>, p: T -> bool)
    ensures forall x :: multiset(Filter(s, p))[x] == if p(x) then multiset(s)[x] else 0
    decreases |s|
  {
    if s != [] {
      FilterMultiset(s[1..], p);
      assert s == [s[0]] + s[1..];
    }
  }

  /** Filtering keeps everything when every element passes. */
  lemma {:induction false} FilterKeepsAll<T(!new)>(s: seq<T>, p: T -> bool)
    requires forall x :: x in s ==> p(x)
    ensures Filter(s, p) == s
    decreases |s|
  {
    if s != [] {
      FilterKeepsAll(s[1..], p);
    }
  }

  /** Filtering removes everything when no element passes. */
  lemma {:induction false} FilterDropsAll<T(!new)>(s: seq<T>, p: T -> bool)
    requires forall i :: 0 <= i < |s| ==> !p(s[i])
    ensures Filter(s, p) == []
    decreases |s|
  {
    if s != [] {
      FilterDropsAll(s[1..], p);
    }
  }

  /** Filtering keeps exactly the one element that passes. */
  lemma {:induction false} FilterSingle<T(!new)>(s: seq<T>, p: T -> bool, k: nat)
    requires k < |s| && p(s[k])
    requires forall i :: 0 <= i < |s| && i != k ==> !p(s[i])
    ensures Filter(s, p) == [s[k]]
    decreases k
  {
    FilterCons(s, p);
    if k == 0 {
      FilterDropsAll(s[1..], p);
    } else {
      FilterSingle(s[1..], p, k - 1);
    }
  }

  /** Filtering an eight-entry list where entries 0, 1, 6 and 7 pass and the rest do not. */
  lemma FilterFallbackShape<T(!new)>(d: seq<T>, p: T -> bool)
    requires |d| == 8
    requires p(d[0]) && p(d[1]) && p(d[6]) && p(d[7])
    requires !p(d[2]) && !p(d[3]) && !p(d[4]) && !p(d[5])
    ensures Filter(d, p) == [d[0], d[1], d[6], d[7]]
  {
    FilterFromSecond(d, p);
    FilterCons(d, p);
  }

  /** The same list from its second entry on. */
  lemma FilterFromSecond<T(!new)>(d: seq<T>, p: T -> bool)
    requires |d| == 8
    requires p(d[1]) && p(d[6]) && p(d[7])
    requires !p(d[2]) && !p(d[3]) && !p(d[4]) && !p(d[5])
    ensures Filter(d[1..], p) == [d[1], d[6], d[7]]
  {
    FilterLastTwo(d, p);
    FilterSkipFour(d, p);
    FilterSuffixStep(d, 1, p);
  }

  /** The last two entries of an eight-entry list, both passing. */
  lemma FilterLastTwo<T(!new)>(d: seq<T>, p: T -> bool)
    requires |d| == 8 && p(d[6]) && p(d[7])
    ensures Filter(d[6..], p) == [d[6], d[7]]
  {
    assert d[8..] == [];
    FilterSuffixStep(d, 7, p);
    FilterSuffixStep(d, 6, p);
  }

  /** Entries 2 to 5 of an eight-entry list, none passing, add nothing. */
  lemma FilterSkipFour<T(!new)>(d: seq<T>, p: T -> bool)
    requires |d| == 8 && !p(d[2]) && !p(d[3]) && !p(d[4]) && !p(d[5])
    ensures Filter(d[2..], p) == Filter(d[6..], p)
  {
    FilterSuffixStep(d, 5, p);
    FilterSuffixStep(d, 4, p);
    FilterSuffixStep(d, 3, p);
    FilterSuffixStep(d, 2, p);
  }

  /** One step of `Filter` on the suffix of `s` from position `k`. */
  lemma FilterSuffixStep<T(!new)>(s: seq<T>, k: nat, p: T -> bool)
    requires k < |s|
    ensures Filter(s[k..], p) == (if p(s[k]) then [s[k]] else []) + Filter(s[k + 1..], p)
  {
    FilterCons(s[k..], p);
    assert s[k..][1..] == s[k + 1..];
  }

  /** One step of `Filter`: the first element, then the rest. */
  lemma FilterCons<T(!new)>(s: seq<T>, p: T -> bool)
    requires s != []
    ensures Filter(s, p) == (if p(s[0]) then [s[0]] else []) + Filter(s[1..], p)
  {
  }

  /** Filtering twice is filtering once by the conjunction. */
  lemma {:induction false} FilterOfFilter<T(!new)>(s: seq<T>, p: T -> bool, q: T -> bool, pq: T -> bool)
    requires forall x :: pq(x) == (p(x) && q(x))
    ensures Filter(Filter(s, p), q) == Filter(s, pq)
    decreases |s|
  {
    if s != [] {
      FilterOfFilter(s[1..], p, q, pq);
      var x := Filter(s, p);
      if p(s[0]) {
        assert x == [s[0]] + Filter(s[1..], p);
        assert x != [] && x[0] == s[0] && x[1..] == Filter(s[1..], p);
        assert Filter(x, q) == (if q(s[0]) then [s[0]] else []) + Filter(Filter(s[1..], p), q);
      } else {
        assert x == Filter(s[1..], p);
      }
    }
  }

  /** Two pointwise equal predicates filter alike. */
  lemma {:induction false} FilterSame<T(!new)>(s: seq<T>, p: T -> bool, q: T -> bool)
    requires forall x :: p(x) == q(x)
    ensures Filter(s, p) == Filter(s, q)
    decreases |s|
  {
    if s != [] {
      FilterSame(s[1..], p, q);
    }
  }

  /** A predicate and its negation split a sequence into two parts whose lengths add up. */
  lemma {:induction false} FilterSplitsLength<T(!new)>(s: seq<T>, p: T -> bool, q: T -> bool)
    requires forall x :: q(x) == !p(x)
    ensures |Filter(s, p)| + |Filter(s, q)| == |s|
    decreases |s|
  {
    if s != [] {
      FilterSplitsLength(s[1..], p, q);
    }
  }

  // ---------------------------------------------------------------------------
  // Order: subsequences
  // ---------------------------------------------------------------------------

  /** `r` can be obtained from `s` by deleting elements, keeping the order of the rest. */
  predicate Subsequence<T(==)>(r: seq<T>, s: seq<T>)
    decreases |s|
  {
    if r == [] then true
    else if s == [] then false
    else (r[0] == s[0] && Subsequence(r[1..], s[1..])) || Subsequence(r, s[1..])
  }

  lemma {:induction false} FilterIsSubsequence<T(!new)>(s: seq<T>, p: T -> bool)
    ensures Subsequence(Filter(s, p), s)
    decreases |s|
  {
    if s != [] {
      FilterIsSubsequence(s[1..], p);
      var rest := Filter(s[1..], p);
      if p(s[0]) {
        assert Filter(s, p) == [s[0]] + rest;
        assert ([s[0]] + rest)[1..] == rest;
      } else {
        assert Filter(s, p) == rest;
        if rest != [] {
          assert Subsequence(rest, s[1..]);
        }
      }
    }
  }

  /** A prefix of a subsequence is again a subsequence. */
  lemma {:induction false} PrefixOfSubsequence<T>(r: seq<T>, s: seq<T>, n: nat)
    requires Subsequence(r, s)
    requires n <= |r|
    ensures Subsequence(r[..n], s)
    decreases |s|
  {
    if n > 0 {
      assert r != [] && s != [];
      if r[0] == s[0] && Subsequence(r[1..], s[1..]) {
        PrefixOfSubsequence(r[1..], s[1..], n - 1);
        assert r[1..][..n - 1] == r[..n][1..];
      } else {
        PrefixOfSubsequence(r, s[1..], n);
      }
    }
  }

  // ---------------------------------------------------------------------------
  // Array.prototype.slice(0, n)
  // ---------------------------------------------------------------------------

  /** The first `n` elements of `s`, or all of `s` when it is shorter. */
  function Take<T>(s: seq<T>, n: nat): (r: seq<T>)
    ensures r <= s
    ensures |r| <= n
    ensures |s| <= n ==> r == s
    ensures n <= |s| ==> |r| == n
  {
    s[..Min(n, |s|)]
  }

  // ---------------------------------------------------------------------------
  // Strings
  // ---------------------------------------------------------------------------

  predicate IsAsciiUpper(c: char) {
    'A' <= c <= 'Z'
  }

  function LowerChar(c: char): char {
    if IsAsciiUpper(c) then (c as int + 32) as char else c
  }

  /** String.prototype.toLowerCase, for the ASCII letters. */
  function Lower(s: string): (r: string)
    ensures |r| == |s|
    ensures forall i :: 0 <= i < |s| ==> !IsAsciiUpper(r[i])
    ensures forall i :: 0 <= i < |s| && !IsAsciiUpper(s[i]) ==> r[i] == s[i]
    ensures forall i :: 0 <= i < |s| && IsAsciiUpper(s[i]) ==> r[i] as int == s[i] as int + 32
  {
    seq(|s|, i requires 0 <= i < |s| => LowerChar(s[i]))
  }

  /** A lower-case letter that a text holds in neither case is missing from its lower-case form. */
  lemma LowerLacks(s: string, c: char)
    requires 'a' <= c <= 'z'
    requires c !in s && (c as int - 32) as char !in s
    ensures c !in Lower(s)
  {
    forall i | 0 <= i < |s| ensures Lower(s)[i] != c {
      assert s[i] != c && s[i] as int != c as int - 32;
    }
  }

  /** String.prototype.includes: `q` occurs in `t` as a contiguous block. */
  predicate Includes(t: string, q: string)
    decreases |t|
  {
    q <= t || (t != [] && Includes(t[1..], q))
  }

  /** `q` occurs in `t` starting at position `i`. */
  predicate OccursAt(t: string, q: string, i: int) {
    0 <= i <= |t| - |q| && t[i..i + |q|] == q
  }

  /** An occurrence at any position is found by `Includes`. */
  lemma {:induction false} OccursAtIncludes(t: string, q: string, i: int)
    requires OccursAt(t, q, i)
    ensures Includes(t, q)
    decreases i
  {
    if i == 0 {
      assert t[..|q|] == q;
    } else {
      assert t[1..][i - 1..i - 1 + |q|] == t[i..i + |q|];
      OccursAtIncludes(t[1..], q, i - 1);
    }
  }

  /** `Includes` agrees with the positional definition of an occurrence. */
  lemma {:induction false} IncludesIffOccurs(t: string, q: string)
    ensures Includes(t, q) <==> exists i :: OccursAt(t, q, i)
    decreases |t|
  {
    if q <= t {
      assert OccursAt(t, q, 0);
    } else if Includes(t, q) {
      IncludesIffOccurs(t[1..], q);
      var i :| OccursAt(t[1..], q, i);
      assert t[i + 1..i + 1 + |q|] == t[1..][i..i + |q|];
      assert OccursAt(t, q, i + 1);
    }
    forall i | OccursAt(t, q, i) ensures Includes(t, q) {
      OccursAtIncludes(t, q, i);
    }
  }

  /** A query holding a character that the text lacks is not included in it. */
  lemma {:induction false} MissingCharNotIncluded(t: string, q: string, c: char)
    requires c in q && c !in t
    ensures !Includes(t, q)
    decreases |t|
  {
    if t != [] {
      MissingCharNotIncluded(t[1..], q, c);
    }
  }

  /** The `\s` class of JavaScript regular expressions. */
  predicate IsWhitespace(c: char) {
    c == ' ' || c == '\t' || c == '\n' || c == '\U{000B}' || c == '\U{000C}' || c == '\r'
    || c == '\U{00A0}' || c == '\U{1680}' || ('\U{2000}' <= c <= '\U{200A}')
    || c == '\U{2028}' || c == '\U{2029}' || c == '\U{202F}' || c == '\U{205F}'
    || c == '\U{3000}' || c == '\U{FEFF}'
  }

  // ---------------------------------------------------------------------------
  // String(n) for n >= 0, and reading it back
  // ---------------------------------------------------------------------------

  predicate IsDigit(c: char) {
    '0' <= c <= '9'
  }

  function DigitChar(d: nat): (c: char)
    requires d < 10
    ensures IsDigit(c) && c as int - '0' as int == d
  {
    ('0' as int + d) as char
  }

  /** The decimal numeral of `n`, without leading zeros. */
  function NatToString(n: nat): (r: string)
    ensures |r| >= 1
    ensures forall i :: 0 <= i < |r| ==> IsDigit(r[i])
    ensures |r| > 1 ==> r[0] != '0'
    decreases n
  {
    if n < 10 then [DigitChar(n)] else NatToString(n / 10) + [DigitChar(n % 10)]
  }

  /** The value of a string of decimal digits. */
  function DecimalValue(s: string): nat
    requires forall i :: 0 <= i < |s| ==> IsDigit(s[i])
    decreases |s|
  {
    if s == [] then 0
    else
      assert IsDigit(s[|s| - 1]);
      DecimalValue(s[..|s| - 1]) * 10 + (s[|s| - 1] as int - '0' as int)
  }

  /** Reading back the numeral of `n` gives `n`. */
  lemma {:induction false} DecimalValueOfNatToString(n: nat)
    ensures DecimalValue(NatToString(n)) == n
    decreases n
  {
    var r := NatToString(n);
    if n >= 10 {
      DecimalValueOfNatToString(n / 10);
      assert r[..|r| - 1] == NatToString(n / 10);
    }
  }

  /** Distinct numbers have distinct numerals. */
  lemma NatToStringInjective(m: nat, n: nat)
    requires m != n
    ensures NatToString(m) != NatToString(n)
  {
    DecimalValueOfNatToString(m);
    DecimalValueOfNatToString(n);
  }

  // ---------------------------------------------------------------------------
  // The `%` operator
  // ---------------------------------------------------------------------------

  /** JavaScript's `a % n`: the remainder of division truncated toward zero. */
  function JsRem(a: int, n: int): (r: int)
    requires n != 0
    ensures a >= 0 ==> 0 <= r < (if n > 0 then n else -n)
    ensures a < 0 ==> -(if n > 0 then n else -n) < r <= 0
    ensures a >= 0 && n > 0 ==> r == a % n
  {
    var m := if n > 0 then n else -n;
    if a >= 0 then a % m else -((-a) % m)
  }
}
