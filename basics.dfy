/** Shared vocabulary: optional values and errors, decimal digit strings,
    the JavaScript/Python slicing rules, a stable sort by a numeric key
    (descending) and counting helpers used by every backend. */
module Basics {

  datatype Option<T> = None | Some(value: T)

  /** An operation that either produces a value or fails with the message
      the source puts into its thrown Error / exception. */
  datatype Result<T> = Ok(value: T) | Err(message: string)

  type byte = b: int | 0 <= b < 256

  // ---------------------------------------------------------------------
  // Decimal digits

  predicate IsDigit(c: char) { '0' <= c <= '9' }

  predicate AllDigits(s: string) {
    forall i :: 0 <= i < |s| ==> IsDigit(s[i])
  }

  /** What a `(\d+)` capture group can hold: one or more decimal digits. */
  predicate IsNumeral(s: string) { |s| > 0 && AllDigits(s) }

  /** An artwork or user identifier as the site hands it out. */
  type Id = s: string | IsNumeral(s) witness "0"

  function DigitValue(c: char): nat
    requires IsDigit(c)
  {
    (c as int - '0' as int) as nat
  }

  function DigitChar(d: nat): (c: char)
    requires d < 10
    ensures IsDigit(c) && DigitValue(c) == d
  {
    ('0' as int + d) as char
  }

  /** The value `parseInt` gives a string made only of decimal digits,
      exact as long as it is below 2^53; `parseInt` returns a double, so
      above that it is rounded to the nearest double. */
  function DecimalValue(s: string): nat
    requires AllDigits(s)
  {
    if s == [] then 0 else DecimalValue(s[..|s| - 1]) * 10 + DigitValue(s[|s| - 1])
  }

  /** `String(n)` for a non-negative integer: its decimal numeral. */
  function Decimal(n: nat): (s: string)
    decreases n
  {
    if n < 10 then [DigitChar(n)] else Decimal(n / 10) + [DigitChar(n % 10)]
  }

  /** The numeral of `n` is a numeral, and `parseInt` reads `n` back from it. */
  lemma {:induction false} DecimalRoundTrip(n: nat)
    ensures IsNumeral(Decimal(n)) && DecimalValue(Decimal(n)) == n
    decreases n
  {
    if n >= 10 {
      DecimalRoundTrip(n / 10);
      var s := Decimal(n);
      assert s[..|s| - 1] == Decimal(n / 10);
    }
  }

  // ---------------------------------------------------------------------
  // Slicing

  /** `s.slice(0, end)` in JavaScript and `s[:end]` in Python: a negative
      end counts from the back, an end past the length stops at it. */
  function PrefixTo<T>(s: seq<T>, end: int): seq<T>
  {
    if end >= 0 then s[..if end < |s| then end else |s|]
    else s[..if |s| + end > 0 then |s| + end else 0]
  }

  lemma PrefixToIsPrefix<T>(s: seq<T>, end: int)
    ensures |PrefixTo(s, end)| <= |s| && PrefixTo(s, end) == s[..|PrefixTo(s, end)|]
    ensures 0 <= end ==> |PrefixTo(s, end)| == if end < |s| then end else |s|
  {
  }

  // ---------------------------------------------------------------------
  // Stable descending sort by an integer key
  // (`Array.prototype.sort((a, b) => key(b) - key(a))`, which is stable)

  predicate SortedDesc<T>(s: seq<T>, key: T -> int) {
    forall i, j :: 0 <= i < j < |s| ==> key(s[i]) >= key(s[j])
  }

  /** Puts `x` after every element whose key is at least its own. */
  function InsertDesc<T>(x: T, s: seq<T>, key: T -> int): seq<T>
  {
    if s == [] then [x]
    else if key(s[0]) >= key(x) then [s[0]] + InsertDesc(x, s[1..], key)
    else [x] + s
  }

  function SortDesc<T>(s: seq<T>, key: T -> int): seq<T>
  {
    if s == [] then [] else InsertDesc(s[|s| - 1], SortDesc(s[..|s| - 1], key), key)
  }

  lemma {:induction false} InsertDescFacts<T>(x: T, s: seq<T>, key: T -> int)
    requires SortedDesc(s, key)
    ensures SortedDesc(InsertDesc(x, s, key), key)
    ensures multiset(InsertDesc(x, s, key)) == multiset(s) + multiset{x}
    ensures |InsertDesc(x, s, key)| == |s| + 1
  {
    InsertDescPermutes(x, s, key);
    InsertDescSorted(x, s, key);
  }

  lemma {:induction false} InsertDescPermutes<T>(x: T, s: seq<T>, key: T -> int)
    ensures multiset(InsertDesc(x, s, key)) == multiset(s) + multiset{x}
    ensures |InsertDesc(x, s, key)| == |s| + 1
  {
    if s != [] && key(s[0]) >= key(x) {
      InsertDescPermutes(x, s[1..], key);
      assert s == [s[0]] + s[1..];
    }
  }

  /** Inserting keeps every key below a bound that all keys respect. */
  lemma {:induction false} InsertDescBelow<T>(x: T, s: seq<T>, key: T -> int, bound: int)
    requires key(x) <= bound && forall k :: 0 <= k < |s| ==> key(s[k]) <= bound
    ensures forall k :: 0 <= k < |InsertDesc(x, s, key)| ==> key(InsertDesc(x, s, key)[k]) <= bound
  {
    if s != [] && key(s[0]) >= key(x) {
      InsertDescBelow(x, s[1..], key, bound);
      var r := InsertDesc(x, s[1..], key);
      assert InsertDesc(x, s, key) == [s[0]] + r;
      forall k | 0 <= k < |r| + 1
        ensures key(([s[0]] + r)[k]) <= bound
      {
        if k > 0 {
          assert ([s[0]] + r)[k] == r[k - 1];
        }
      }
    }
  }

  lemma {:induction false} InsertDescSorted<T>(x: T, s: seq<T>, key: T -> int)
    requires SortedDesc(s, key)
    ensures SortedDesc(InsertDesc(x, s, key), key)
  {
    if s != [] && key(s[0]) >= key(x) {
      var t := s[1..];
      assert SortedDesc(t, key) by {
        forall i, j | 0 <= i < j < |t| ensures key(t[i]) >= key(t[j]) {
          assert t[i] == s[i + 1] && t[j] == s[j + 1];
        }
      }
      InsertDescSorted(x, t, key);
      forall k | 0 <= k < |t| ensures key(t[k]) <= key(s[0]) {
        assert t[k] == s[k + 1];
      }
      InsertDescBelow(x, t, key, key(s[0]));
      var r := InsertDesc(x, t, key);
      var l := [s[0]] + r;
      assert InsertDesc(x, s, key) == l;
      forall i, j | 0 <= i < j < |l| ensures key(l[i]) >= key(l[j]) {
        assert l[j] == r[j - 1];
        if i > 0 {
          assert l[i] == r[i - 1];
        }
      }
    } else if s != [] {
      var l := [x] + s;
      forall i, j | 0 <= i < j < |l| ensures key(l[i]) >= key(l[j]) {
        assert l[j] == s[j - 1];
        if i > 0 {
          assert l[i] == s[i - 1];
        } else {
          assert key(s[0]) >= key(s[j - 1]) || j == 1;
        }
      }
    }
  }

  /** An element no larger than every other goes last. */
  lemma {:induction false} InsertDescLast<T>(x: T, s: seq<T>, key: T -> int)
    requires forall k :: 0 <= k < |s| ==> key(s[k]) >= key(x)
    ensures InsertDesc(x, s, key) == s + [x]
  {
    if s != [] {
      InsertDescLast(x, s[1..], key);
      assert s == [s[0]] + s[1..];
    }
  }

  /** Sorting a sorted list leaves it as it is: the sort is stable. */
  lemma {:induction false} SortDescOfSorted<T>(s: seq<T>, key: T -> int)
    requires SortedDesc(s, key)
    ensures SortDesc(s, key) == s
  {
    if s != [] {
      var init := s[..|s| - 1];
      assert SortedDesc(init, key);
      SortDescOfSorted(init, key);
      InsertDescLast(s[|s| - 1], init, key);
      assert s == init + [s[|s| - 1]];
    }
  }

  /** A prefix of a sorted list is sorted. */
  lemma SortedPrefix<T>(s: seq<T>, n: nat, key: T -> int)
    requires SortedDesc(s, key) && n <= |s|
    ensures SortedDesc(s[..n], key)
  {
    forall i, j | 0 <= i < j < n ensures key(s[..n][i]) >= key(s[..n][j]) {
      assert s[..n][i] == s[i] && s[..n][j] == s[j];
    }
  }

  /** The sort orders by key, descending, and only reorders. */
  lemma {:induction false} SortDescFacts<T>(s: seq<T>, key: T -> int)
    ensures SortedDesc(SortDesc(s, key), key)
    ensures multiset(SortDesc(s, key)) == multiset(s)
    ensures |SortDesc(s, key)| == |s|
  {
    if s != [] {
      var init := s[..|s| - 1];
      SortDescFacts(init, key);
      InsertDescFacts(s[|s| - 1], SortDesc(init, key), key);
      assert s == init + [s[|s| - 1]];
    }
  }

  // ---------------------------------------------------------------------
  // Filtering, counting, summing

  function Filter<T>(s: seq<T>, p: T -> bool): (r: seq<T>)
  {
    if s == [] then [] else (if p(s[0]) then [s[0]] else []) + Filter(s[1..], p)
  }

  lemma {:induction false} FilterFacts<T>(s: seq<T>, p: T -> bool)
    ensures |Filter(s, p)| <= |s|
    ensures forall x :: x in Filter(s, p) <==> x in s && p(x)
  {
    if s != [] {
      FilterFacts(s[1..], p);
      assert s == [s[0]] + s[1..];
    }
  }

  lemma {:induction false} FilterAppend<T>(a: seq<T>, b: seq<T>, p: T -> bool)
    ensures Filter(a + b, p) == Filter(a, p) + Filter(b, p)
  {
    if a != [] {
      FilterAppend(a[1..], b, p);
      assert (a + b)[1..] == a[1..] + b;
    } else {
      assert a + b == b;
    }
  }

  /** A weaker predicate keeps at least as many elements. */
  lemma {:induction false} FilterMonotone<T>(s: seq<T>, p: T -> bool, q: T -> bool)
    requires forall x :: p(x) ==> q(x)
    ensures |Filter(s, p)| <= |Filter(s, q)|
  {
    if s != [] {
      FilterMonotone(s[1..], p, q);
    }
  }

  /** Predicates that never hold together keep no more than the whole. */
  lemma {:induction false} FilterDisjoint<T>(s: seq<T>, p: T -> bool, q: T -> bool)
    requires forall x :: !(p(x) && q(x))
    ensures |Filter(s, p)| + |Filter(s, q)| <= |s|
  {
    if s != [] {
      FilterDisjoint(s[1..], p, q);
    }
  }

  /** A predicate and its negation split the list between them. */
  lemma {:induction false} FilterSplit<T>(s: seq<T>, p: T -> bool, q: T -> bool)
    requires forall x :: q(x) == !p(x)
    ensures |Filter(s, p)| + |Filter(s, q)| == |s|
  {
    if s != [] {
      FilterSplit(s[1..], p, q);
    }
  }

  /** Filtering again by the same predicate changes nothing. */
  lemma {:induction false} FilterTwice<T>(s: seq<T>, p: T -> bool)
    ensures Filter(Filter(s, p), p) == Filter(s, p)
  {
    if s != [] {
      FilterTwice(s[1..], p);
      if p(s[0]) {
        var r := Filter(s, p);
        assert r == [s[0]] + Filter(s[1..], p);
        assert r[0] == s[0] && r[1..] == Filter(s[1..], p);
        assert Filter(r, p) == [r[0]] + Filter(r[1..], p);
      } else {
        assert Filter(s, p) == [] + Filter(s[1..], p) == Filter(s[1..], p);
      }
    }
  }

  function Sum<T>(s: seq<T>, f: T -> int): int
  {
    if s == [] then 0 else f(s[0]) + Sum(s[1..], f)
  }

  predicate NoDuplicates<T(==)>(s: seq<T>) {
    forall i, j :: 0 <= i < j < |s| ==> s[i] != s[j]
  }

  /** `[...new Set(s)]`: each value once, at its first occurrence. */
  function Dedup<T(==)>(s: seq<T>): seq<T>
  {
    if s == [] then []
    else
      var d := Dedup(s[..|s| - 1]);
      if s[|s| - 1] in d then d else d + [s[|s| - 1]]
  }

  lemma {:induction false} DedupFacts<T>(s: seq<T>)
    ensures NoDuplicates(Dedup(s))
    ensures forall x :: x in Dedup(s) <==> x in s
    ensures s != [] ==> Dedup(s) != [] && Dedup(s)[0] == s[0]
  {
    if s != [] {
      var init := s[..|s| - 1];
      DedupFacts(init);
      assert s == init + [s[|s| - 1]];
      if init == [] {
        assert Dedup(init) == [];
      }
    }
  }

  /** A list that has no duplicates is left as it is. */
  lemma {:induction false} DedupKeepsDistinct<T>(s: seq<T>)
    requires NoDuplicates(s)
    ensures Dedup(s) == s
  {
    if s != [] {
      var init := s[..|s| - 1];
      DedupKeepsDistinct(init);
      assert s[|s| - 1] !in init;
      assert s == init + [s[|s| - 1]];
    }
  }

  /** In a list without duplicates every value occurs at most once. */
  lemma {:induction false} DistinctOnce<T>(s: seq<T>)
    requires NoDuplicates(s)
    ensures forall x :: multiset(s)[x] <= 1
  {
    if s != [] {
      var init := s[..|s| - 1];
      DistinctOnce(init);
      assert s == init + [s[|s| - 1]];
      assert s[|s| - 1] !in init;
    }
  }

  /** A value at two positions occurs at least twice. */
  lemma RepeatTwice<T>(s: seq<T>, i: nat, j: nat)
    requires i < j < |s| && s[i] == s[j]
    ensures multiset(s)[s[i]] >= 2
  {
    assert s == s[..j] + [s[j]] + s[j + 1..];
    assert s[i] in s[..j];
  }

  /** Reordering a list without duplicates gives one without duplicates. */
  lemma PermutationDistinct<T>(s: seq<T>, r: seq<T>)
    requires NoDuplicates(s) && multiset(r) == multiset(s)
    ensures NoDuplicates(r)
  {
    DistinctOnce(s);
    forall i, j | 0 <= i < j < |r|
      ensures r[i] != r[j]
    {
      if r[i] == r[j] {
        RepeatTwice(r, i, j);
        assert false;
      }
    }
  }

  /** The number of images of one artwork. */
  function ImageCount(images: seq<string>): int { |images| }

  lemma {:induction false} SumAppend<T>(a: seq<T>, b: seq<T>, f: T -> int)
    ensures Sum(a + b, f) == Sum(a, f) + Sum(b, f)
  {
    if a != [] {
      SumAppend(a[1..], b, f);
      assert (a + b)[1..] == a[1..] + b;
    } else {
      assert a + b == b;
    }
  }

  lemma AppendAssoc<T>(a: seq<T>, b: seq<T>, c: seq<T>)
    ensures (a + b) + c == a + (b + c)
  {
  }

  lemma TakeSnoc<T>(s: seq<T>, i: nat)
    requires i < |s|
    ensures s[..i + 1] == s[..i] + [s[i]]
  {
  }

  function Flatten<T>(ss: seq<seq<T>>): seq<T>
  {
    if ss == [] then [] else ss[0] + Flatten(ss[1..])
  }

  lemma {:induction false} FlattenAppend<T>(a: seq<seq<T>>, b: seq<seq<T>>)
    ensures Flatten(a + b) == Flatten(a) + Flatten(b)
  {
    if a != [] {
      FlattenAppend(a[1..], b);
      assert (a + b)[1..] == a[1..] + b;
    } else {
      assert a + b == b;
    }
  }

  // ---------------------------------------------------------------------
  // Arithmetic helpers

  lemma MulAtLeast(a: int, n: int)
    requires a >= 1 && n > 0
    ensures a * n >= n
  {
    assert a * n == (a - 1) * n + n;
    assert (a - 1) * n >= 0;
  }

  /** Euclidean remainder is determined by any quotient/remainder split. */
  lemma ModUnique(x: int, n: int, q: int, r: int)
    requires n > 0 && 0 <= r < n && x == q * n + r
    ensures x % n == r
  {
    var q', r' := x / n, x % n;
    assert x == q' * n + r';
    assert q * n - q' * n == r' - r;
    assert (q - q') * n == q * n - q' * n;
    if q > q' {
      MulAtLeast(q - q', n);
    } else if q < q' {
      assert (q' - q) * n == q' * n - q * n;
      MulAtLeast(q' - q, n);
    }
  }

  lemma ModSucc(x: nat, n: nat)
    requires n > 0
    ensures (x % n + 1) % n == (x + 1) % n
  {
    var q, r := x / n, x % n;
    assert x == q * n + r;
    if r + 1 < n {
      ModUnique(x + 1, n, q, r + 1);
    } else {
      assert x + 1 == (q + 1) * n + 0;
      ModUnique(x + 1, n, q + 1, 0);
    }
  }

  function Min(a: int, b: int): int { if a <= b then a else b }
  function Max(a: int, b: int): int { if a >= b then a else b }
}
