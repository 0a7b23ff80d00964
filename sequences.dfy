// Generic sequence operations the pipeline leans on: integer sums and
// counts, first-occurrence de-duplication (pandas `unique` and
// `drop_duplicates`), concatenation of a list of tables (`pd.concat`), a
// stable sort under a total preorder (`sorted`, `sort_values`) and the
// lexicographic order on strings that Python uses to compare names.

module Sequences {

  /** Appending one element after a concatenation. */
  lemma SnocAssoc<T>(a: seq<T>, b: seq<T>, x: T)
    ensures a + (b + [x]) == (a + b) + [x]
  {
  }

  /** Indexing into a concatenation picks from the left part, then the right. */
  lemma AppendAt<T>(a: seq<T>, b: seq<T>, k: nat)
    requires k < |a| + |b|
    ensures k < |a| ==> (a + b)[k] == a[k]
    ensures k >= |a| ==> (a + b)[k] == b[k - |a|]
  {
  }

  /** Four equal-length blocks laid end to end: position k * n + i holds element i of block k. */
  lemma Blocks4<T>(a: seq<T>, b: seq<T>, c: seq<T>, d: seq<T>, n: nat, i: nat)
    requires |a| == |b| == |c| == |d| == n && i < n
    ensures |a + b + c + d| == 4 * n
    ensures (a + b + c + d)[i] == a[i] && (a + b + c + d)[n + i] == b[i]
    ensures (a + b + c + d)[2 * n + i] == c[i] && (a + b + c + d)[3 * n + i] == d[i]
  {
  }

  function Sum(s: seq<int>): int
  {
    if s == [] then 0 else Sum(s[..|s| - 1]) + s[|s| - 1]
  }

  function Count(s: seq<int>, v: int): (n: nat)
    ensures n <= |s|
  {
    if s == [] then 0
    else Count(s[..|s| - 1], v) + (if s[|s| - 1] == v then 1 else 0)
  }

  /** A value occurs at least once exactly when it is in the sequence. */
  lemma {:induction false} CountPositive(s: seq<int>, v: int)
    ensures Count(s, v) > 0 <==> v in s
  {
    if s != [] {
      CountPositive(s[..|s| - 1], v);
      assert s == s[..|s| - 1] + [s[|s| - 1]];
    }
  }

  lemma CountAppend(a: seq<int>, b: seq<int>, v: int)
    ensures Count(a + b, v) == Count(a, v) + Count(b, v)
    decreases |b|
  {
    if b == [] {
      assert a + b == a;
    } else {
      assert (a + b)[..|a + b| - 1] == a + b[..|b| - 1];
      CountAppend(a, b[..|b| - 1], v);
    }
  }

  /** Over a sequence of 0s and 1s, the sum counts the 1s and the rest are 0s. */
  lemma {:induction false} BinarySumCount(s: seq<int>)
    requires forall i :: 0 <= i < |s| ==> s[i] == 0 || s[i] == 1
    ensures Sum(s) == Count(s, 1)
    ensures Count(s, 0) + Count(s, 1) == |s|
  {
    if s != [] {
      BinarySumCount(s[..|s| - 1]);
    }
  }

  predicate Distinct<T(==)>(s: seq<T>)
  {
    forall i, j :: 0 <= i < j < |s| ==> s[i] != s[j]
  }

  /** The index of the first occurrence of `x` in `s`. */
  function FirstIndex<T(==)>(s: seq<T>, x: T): (k: nat)
    requires x in s
    ensures k < |s| && s[k] == x && x !in s[..k]
  {
    if x in s[..|s| - 1] then FirstIndex(s[..|s| - 1], x) else |s| - 1
  }

  lemma FirstIndexPrefix<T>(s: seq<T>, n: nat, x: T)
    requires n <= |s| && x in s[..n]
    ensures FirstIndex(s, x) == FirstIndex(s[..n], x)
    decreases |s|
  {
    if n < |s| {
      assert s[..|s| - 1][..n] == s[..n];
      assert x in s[..|s| - 1];
      FirstIndexPrefix(s[..|s| - 1], n, x);
    } else {
      assert s[..n] == s;
    }
  }

  /** `r` holds distinct elements of `s`, listed in the order of their first occurrence in `s`. */
  ghost predicate InFirstOccurrenceOrder<T>(r: seq<T>, s: seq<T>)
  {
    (forall x :: x in r ==> x in s) &&
    (forall i, j :: 0 <= i < j < |r| ==> FirstIndex(s, r[i]) < FirstIndex(s, r[j]))
  }

  lemma FirstOccurrenceOrderDistinct<T>(r: seq<T>, s: seq<T>)
    requires InFirstOccurrenceOrder(r, s)
    ensures Distinct(r)
  {
    forall i, j | 0 <= i < j < |r| ensures r[i] != r[j] {
      assert r[i] in r && r[j] in r;
    }
  }

  /**
   * The distinct elements of `s`, each kept at its first occurrence:
   * `Series.unique()`, and `drop_duplicates()` with its default keep="first".
   */
  function Unique<T(==,!new)>(s: seq<T>): (u: seq<T>)
    ensures forall x :: x in u <==> x in s
    ensures Distinct(u)
  {
    if s == [] then []
    else
      var u' := Unique(s[..|s| - 1]);
      if s[|s| - 1] in u' then u' else u' + [s[|s| - 1]]
  }

  /** De-duplication keeps first occurrences, in order, and adds nothing. */
  lemma {:induction false} UniqueFirstOccurrences<T(!new)>(s: seq<T>)
    ensures InFirstOccurrenceOrder(Unique(s), s)
    ensures multiset(Unique(s)) <= multiset(s)
  {
    if s != [] {
      var p := s[..|s| - 1];
      var x := s[|s| - 1];
      var u' := Unique(p);
      UniqueFirstOccurrences(p);
      assert s == p + [x];
      forall y | y in u' ensures FirstIndex(s, y) == FirstIndex(p, y) < |s| - 1 {
        FirstIndexPrefix(s, |s| - 1, y);
      }
      if x !in u' {
        var u := u' + [x];
        assert FirstIndex(s, x) == |s| - 1;
        forall i, j | 0 <= i < j < |u| ensures FirstIndex(s, u[i]) < FirstIndex(s, u[j]) {
          assert u[i] in u';
          if j < |u'| {
            assert u[j] in u';
          }
        }
      }
    }
  }

  /** A sequence without repeated elements is its own de-duplication. */
  lemma {:induction false} UniqueOfDistinct<T(!new)>(s: seq<T>)
    requires Distinct(s)
    ensures Unique(s) == s
  {
    if s != [] {
      var p := s[..|s| - 1];
      assert Distinct(p);
      UniqueOfDistinct(p);
      assert s[|s| - 1] !in p;
      assert s == p + [s[|s| - 1]];
    }
  }

  lemma {:induction false} MultiplicityOfDistinct<T>(s: seq<T>, x: T)
    requires Distinct(s)
    ensures multiset(s)[x] <= 1
  {
    if s != [] {
      var p := s[..|s| - 1];
      assert s == p + [s[|s| - 1]];
      assert Distinct(p);
      MultiplicityOfDistinct(p, x);
      if x == s[|s| - 1] {
        assert x !in p;
      }
    }
  }

  /** A sequence whose elements all come from one without repeats has no repeats either. */
  lemma SubMultisetDistinct<T>(a: seq<T>, b: seq<T>)
    requires Distinct(a) && multiset(b) <= multiset(a)
    ensures Distinct(b)
  {
    forall i, j | 0 <= i < j < |b| ensures b[i] != b[j] {
      if b[i] == b[j] {
        assert b == b[..i] + [b[i]] + b[i + 1..j] + [b[j]] + b[j + 1..];
        assert multiset(b)[b[i]] >= 2;
        MultiplicityOfDistinct(a, b[i]);
      }
    }
  }

  /** A subsequence in first-occurrence order of a sorted sequence is sorted. */
  lemma FirstOccurrenceOrderSorted<T>(r: seq<T>, s: seq<T>, le: (T, T) -> bool)
    requires InFirstOccurrenceOrder(r, s)
    requires SortedWith(s, le)
    ensures SortedWith(r, le)
  {
    forall i, j | 0 <= i < j < |r| ensures le(r[i], r[j]) {
      assert r[i] in r && r[j] in r;
      var a, b := FirstIndex(s, r[i]), FirstIndex(s, r[j]);
      assert s[a] == r[i] && s[b] == r[j];
    }
  }

  /** `a` is `b` with some elements left out, the rest in their order. */
  predicate IsSubsequence<T(==)>(a: seq<T>, b: seq<T>)
    decreases |b|
  {
    if a == [] then true
    else if b == [] then false
    else (a[|a| - 1] == b[|b| - 1] && IsSubsequence(a[..|a| - 1], b[..|b| - 1])) || IsSubsequence(a, b[..|b| - 1])
  }

  lemma {:induction false} SubsequenceMultiset<T>(a: seq<T>, b: seq<T>)
    requires IsSubsequence(a, b)
    ensures multiset(a) <= multiset(b)
    decreases |b|
  {
    if a != [] {
      var b' := b[..|b| - 1];
      assert b == b' + [b[|b| - 1]];
      if a[|a| - 1] == b[|b| - 1] && IsSubsequence(a[..|a| - 1], b') {
        SubsequenceMultiset(a[..|a| - 1], b');
        assert a == a[..|a| - 1] + [a[|a| - 1]];
      } else {
        SubsequenceMultiset(a, b');
      }
    }
  }

  /** Leaving elements out keeps any pairwise order the sequence had. */
  lemma {:induction false} SubsequenceSorted<T>(a: seq<T>, b: seq<T>, le: (T, T) -> bool)
    requires IsSubsequence(a, b) && SortedWith(b, le)
    ensures SortedWith(a, le)
    decreases |b|
  {
    if a != [] {
      var b' := b[..|b| - 1];
      assert SortedWith(b', le);
      if a[|a| - 1] == b[|b| - 1] && IsSubsequence(a[..|a| - 1], b') {
        var a' := a[..|a| - 1];
        SubsequenceSorted(a', b', le);
        SubsequenceMultiset(a', b');
        forall i, j | 0 <= i < j < |a| ensures le(a[i], a[j]) {
          if j == |a| - 1 {
            assert a[i] in multiset(a');
            var k :| 0 <= k < |b'| && b'[k] == a[i];
            assert le(b[k], b[|b| - 1]);
          } else {
            assert le(a'[i], a'[j]);
          }
        }
      } else {
        SubsequenceSorted(a, b', le);
      }
    }
  }

  /** A subsequence of a sequence without repeats has none either. */
  lemma SubsequenceDistinct<T>(a: seq<T>, b: seq<T>)
    requires IsSubsequence(a, b) && Distinct(b)
    ensures Distinct(a)
  {
    var ne := (x: T, y: T) => x != y;
    assert SortedWith(b, ne);
    SubsequenceSorted(a, b, ne);
  }

  /** A subsequence of a list kept in first-occurrence order of `s` is in that order too. */
  lemma SubsequenceFirstOccurrence<T>(a: seq<T>, r: seq<T>, s: seq<T>)
    requires IsSubsequence(a, r) && InFirstOccurrenceOrder(r, s)
    ensures InFirstOccurrenceOrder(a, s)
  {
    var before := (x: T, y: T) => x in s && y in s && FirstIndex(s, x) < FirstIndex(s, y);
    forall i, j | 0 <= i < j < |r| ensures before(r[i], r[j]) {
      assert r[i] in r && r[j] in r;
    }
    SubsequenceSorted(a, r, before);
    SubsequenceMultiset(a, r);
    forall x | x in a ensures x in s {
      assert x in multiset(a);
      assert x in r;
    }
    forall i, j | 0 <= i < j < |a| ensures FirstIndex(s, a[i]) < FirstIndex(s, a[j]) {
      assert before(a[i], a[j]);
    }
  }

  /** The concatenation of a list of tables, in list order (`pd.concat`). */
  function Flatten<T>(ts: seq<seq<T>>): seq<T>
  {
    if ts == [] then [] else Flatten(ts[..|ts| - 1]) + ts[|ts| - 1]
  }

  lemma {:induction false} FlattenMember<T>(ts: seq<seq<T>>, x: T)
    requires x in Flatten(ts)
    ensures exists k :: 0 <= k < |ts| && x in ts[k]
  {
    if ts != [] {
      var p := ts[..|ts| - 1];
      if x in Flatten(p) {
        FlattenMember(p, x);
        var k :| 0 <= k < |p| && x in p[k];
        assert ts[k] == p[k];
      } else {
        assert x in ts[|ts| - 1];
      }
    }
  }

  // ---------------------------------------------------------------------
  // Sorting

  predicate SortedWith<T>(s: seq<T>, le: (T, T) -> bool)
  {
    forall i, j :: 0 <= i < j < |s| ==> le(s[i], s[j])
  }

  ghost predicate TotalPreorder<T(!new)>(le: (T, T) -> bool)
  {
    (forall a, b :: le(a, b) || le(b, a)) &&
    (forall a, b, c :: le(a, b) && le(b, c) ==> le(a, c))
  }

  /** Insert `x` after every element of `t` that is not above it. */
  function InsertWith<T>(t: seq<T>, x: T, le: (T, T) -> bool): (r: seq<T>)
    ensures multiset(r) == multiset(t) + multiset{x}
    ensures |r| == |t| + 1
  {
    if t == [] || le(t[|t| - 1], x) then t + [x]
    else
      var r' := InsertWith(t[..|t| - 1], x, le);
      assert t == t[..|t| - 1] + [t[|t| - 1]];
      r' + [t[|t| - 1]]
  }

  lemma {:induction false} InsertSorted<T(!new)>(t: seq<T>, x: T, le: (T, T) -> bool)
    requires TotalPreorder(le)
    requires SortedWith(t, le)
    ensures SortedWith(InsertWith(t, x, le), le)
  {
    if t == [] || le(t[|t| - 1], x) {
      var r := t + [x];
      forall i, j | 0 <= i < j < |r| ensures le(r[i], r[j]) {
        if j < |t| {
        } else if i < |t| - 1 {
          assert le(t[i], t[|t| - 1]);
        }
      }
    } else {
      var p := t[..|t| - 1];
      var last := t[|t| - 1];
      assert le(x, last);
      InsertSorted(p, x, le);
      var q := InsertWith(p, x, le);
      forall y | y in q ensures le(y, last) {
        assert y in multiset(q);
        assert y in multiset(p) || y == x;
        if y != x {
          assert y in p;
          var i :| 0 <= i < |p| && p[i] == y;
          assert t[i] == y;
        }
      }
      var r := q + [last];
      forall i, j | 0 <= i < j < |r| ensures le(r[i], r[j]) {
        if j == |q| {
          assert r[i] in q;
        }
      }
    }
  }

  /**
   * A stable insertion sort. With a total preorder it returns a sorted
   * permutation of its input, and an already sorted input comes back as it is.
   */
  function SortWith<T>(s: seq<T>, le: (T, T) -> bool): (r: seq<T>)
    ensures multiset(r) == multiset(s)
    ensures |r| == |s|
  {
    if s == [] then []
    else
      assert s == s[..|s| - 1] + [s[|s| - 1]];
      InsertWith(SortWith(s[..|s| - 1], le), s[|s| - 1], le)
  }

  lemma {:induction false} SortWithSorted<T(!new)>(s: seq<T>, le: (T, T) -> bool)
    requires TotalPreorder(le)
    ensures SortedWith(SortWith(s, le), le)
  {
    if s != [] {
      SortWithSorted(s[..|s| - 1], le);
      InsertSorted(SortWith(s[..|s| - 1], le), s[|s| - 1], le);
    }
  }

  /** Sorting an already sorted sequence changes nothing. */
  lemma {:induction false} SortSortedIdentity<T>(s: seq<T>, le: (T, T) -> bool)
    requires SortedWith(s, le)
    ensures SortWith(s, le) == s
  {
    if s != [] {
      var p := s[..|s| - 1];
      assert SortedWith(p, le);
      SortSortedIdentity(p, le);
      if |p| > 0 {
        assert le(p[|p| - 1], s[|s| - 1]);
      }
      assert s == p + [s[|s| - 1]];
    }
  }

  // ---------------------------------------------------------------------
  // Strings

  /** Python's `<` on str: code point by code point, a proper prefix first. */
  predicate LexLess(a: string, b: string)
  {
    if |b| == 0 then false
    else if |a| == 0 then true
    else if a[0] != b[0] then a[0] < b[0]
    else LexLess(a[1..], b[1..])
  }

  lemma {:induction false} LexLessIrreflexive(a: string)
    ensures !LexLess(a, a)
  {
    if |a| > 0 {
      LexLessIrreflexive(a[1..]);
    }
  }

  lemma {:induction false} LexLessTotal(a: string, b: string)
    ensures a == b || LexLess(a, b) || LexLess(b, a)
  {
    if |a| > 0 && |b| > 0 && a[0] == b[0] {
      LexLessTotal(a[1..], b[1..]);
      if a[1..] == b[1..] {
        assert a == [a[0]] + a[1..] && b == [b[0]] + b[1..];
      }
    }
  }

  lemma {:induction false} LexLessTransitive(a: string, b: string, c: string)
    requires LexLess(a, b) && LexLess(b, c)
    ensures LexLess(a, c)
  {
    if |a| > 0 && a[0] == b[0] && b[0] == c[0] {
      LexLessTransitive(a[1..], b[1..], c[1..]);
    }
  }

  /** `a` sorts no later than `b` under Python's string order. */
  predicate NameLe(a: string, b: string)
  {
    !LexLess(b, a)
  }

  lemma NameLeTotalPreorder()
    ensures TotalPreorder(NameLe)
  {
    forall a, b ensures NameLe(a, b) || NameLe(b, a) {
      LexLessTotal(a, b);
      if a == b { LexLessIrreflexive(a); }
      if LexLess(a, b) && LexLess(b, a) { LexLessTransitive(a, b, a); LexLessIrreflexive(a); }
    }
    forall a, b, c | NameLe(a, b) && NameLe(b, c) ensures NameLe(a, c) {
      if LexLess(c, a) {
        LexLessTotal(a, b);
        LexLessTotal(b, c);
        if a == b {
        } else if b == c {
        } else {
          assert LexLess(a, b) && LexLess(b, c);
          LexLessTransitive(a, b, c);
          LexLessTransitive(c, a, c);
          LexLessIrreflexive(c);
        }
      }
    }
  }

  /** Sorted names that are pairwise different are strictly increasing. */
  lemma SortedDistinctNamesStrict(s: seq<string>)
    requires SortedWith(s, NameLe) && Distinct(s)
    ensures forall i, j :: 0 <= i < j < |s| ==> LexLess(s[i], s[j])
  {
    forall i, j | 0 <= i < j < |s| ensures LexLess(s[i], s[j]) {
      LexLessTotal(s[i], s[j]);
    }
  }

  /** The decimal digits of `n`, as Python's `str(n)`. */
  function NatToString(n: nat): (s: string)
    ensures |s| > 0
    ensures forall i :: 0 <= i < |s| ==> '0' <= s[i] <= '9'
  {
    if n < 10 then [Digit(n)] else NatToString(n / 10) + [Digit(n % 10)]
  }

  function Digit(d: nat): (c: char)
    requires d < 10
    ensures '0' <= c <= '9'
  {
    "0123456789"[d]
  }

  lemma DigitInjective(a: nat, b: nat)
    requires a < 10 && b < 10 && Digit(a) == Digit(b)
    ensures a == b
  {
  }

  /** Different numbers have different decimal strings. */
  lemma {:induction false} NatToStringInjective(a: nat, b: nat)
    requires NatToString(a) == NatToString(b)
    ensures a == b
  {
    var sa, sb := NatToString(a), NatToString(b);
    if a < 10 && b < 10 {
      DigitInjective(a, b);
    } else if a >= 10 && b >= 10 {
      assert sa[..|sa| - 1] == NatToString(a / 10);
      assert sb[..|sb| - 1] == NatToString(b / 10);
      NatToStringInjective(a / 10, b / 10);
      DigitInjective(a % 10, b % 10);
    }
  }
}
