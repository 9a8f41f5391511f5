/** The query shapes the read side is built from: a filter, a sum, a sort by
    a comparator, and a truncation (the `find`, `reduce`, `sort` and
    `limit`/`slice` of the handlers). */
module Seqs {
  import Domain

  /** `findById` / `findOne` on a single key: the position of the first
      element whose key is `id`, if there is one. */
  function FindBy<T>(s: seq<T>, key: T -> string, id: string): (r: Domain.Option<nat>)
    ensures r.Some? ==> r.value < |s| && key(s[r.value]) == id
    ensures r.Some? ==> forall k :: 0 <= k < r.value ==> key(s[k]) != id
    ensures r.None? ==> forall k :: 0 <= k < |s| ==> key(s[k]) != id
  {
    if s == [] then Domain.None
    else if key(s[0]) == id then Domain.Some(0)
    else
      var r := FindBy(s[1..], key, id);
      if r.Some? then Domain.Some(r.value + 1) else Domain.None
  }

  function Filter<T>(s: seq<T>, p: T -> bool): (r: seq<T>)
    ensures |r| <= |s|
    ensures forall k :: 0 <= k < |r| ==> p(r[k])
    ensures forall k :: 0 <= k < |r| ==> r[k] in s
    ensures forall k :: 0 <= k < |s| && p(s[k]) ==> s[k] in r
  {
    if s == [] then [] else (if p(s[0]) then [s[0]] else []) + Filter(s[1..], p)
  }

  lemma {:induction false} FilterAppend<T>(a: seq<T>, b: seq<T>, p: T -> bool)
    ensures Filter(a + b, p) == Filter(a, p) + Filter(b, p)
  {
    if a == [] {
      assert a + b == b;
    } else {
      assert (a + b)[1..] == a[1..] + b;
      FilterAppend(a[1..], b, p);
    }
  }

  /** Filtering keeps every element of the input that passes, as often as it occurs. */
  lemma {:induction false} FilterMultiset<T(!new)>(s: seq<T>, p: T -> bool)
    ensures forall x :: multiset(Filter(s, p))[x] == if p(x) then multiset(s)[x] else 0
  {
    if s != [] {
      FilterMultiset(s[1..], p);
      assert s == [s[0]] + s[1..];
    }
  }

  /** Filtering by a stronger predicate keeps no more elements. */
  lemma {:induction false} FilterMonotone<T>(s: seq<T>, p: T -> bool, q: T -> bool)
    requires forall x :: p(x) ==> q(x)
    ensures |Filter(s, p)| <= |Filter(s, q)|
  {
    if s != [] {
      FilterMonotone(s[1..], p, q);
    }
  }

  /** Two predicates that never hold together select at most the whole input. */
  lemma {:induction false} FilterDisjoint<T>(s: seq<T>, p: T -> bool, q: T -> bool)
    requires forall x :: !(p(x) && q(x))
    ensures |Filter(s, p)| + |Filter(s, q)| <= |s|
  {
    if s != [] {
      FilterDisjoint(s[1..], p, q);
    }
  }

  /** Filtering by the union of two disjoint predicates counts both parts. */
  lemma {:induction false} FilterUnionCount<T>(s: seq<T>, p: T -> bool, q: T -> bool, u: T -> bool)
    requires forall x :: !(p(x) && q(x))
    requires forall x :: u(x) == (p(x) || q(x))
    ensures |Filter(s, u)| == |Filter(s, p)| + |Filter(s, q)|
  {
    if s != [] {
      FilterUnionCount(s[1..], p, q, u);
    }
  }

  /** Filtering by two predicates that agree everywhere gives the same result. */
  lemma {:induction false} FilterSame<T>(s: seq<T>, p: T -> bool, q: T -> bool)
    requires forall x :: p(x) == q(x)
    ensures Filter(s, p) == Filter(s, q)
  {
    if s != [] {
      FilterSame(s[1..], p, q);
    }
  }

  /** Filtering twice is filtering by the conjunction. */
  lemma {:induction false} FilterFilter<T>(s: seq<T>, p: T -> bool, q: T -> bool, both: T -> bool)
    requires forall x :: both(x) == (p(x) && q(x))
    ensures Filter(Filter(s, p), q) == Filter(s, both)
  {
    if s != [] {
      FilterFilter(s[1..], p, q, both);
      if p(s[0]) {
        var f := Filter(s, p);
        assert f[0] == s[0] && f[1..] == Filter(s[1..], p);
      } else {
        assert Filter(s, p) == Filter(s[1..], p);
      }
    }
  }

  /** The left fold `reduce((acc, x) => acc + f(x), 0)`. */
  function Sum<T>(s: seq<T>, f: T -> int): int
  {
    if s == [] then 0 else f(s[0]) + Sum(s[1..], f)
  }

  function SumReal<T>(s: seq<T>, f: T -> real): real
  {
    if s == [] then 0.0 else f(s[0]) + SumReal(s[1..], f)
  }

  lemma {:induction false} SumAppend<T>(a: seq<T>, b: seq<T>, f: T -> int)
    ensures Sum(a + b, f) == Sum(a, f) + Sum(b, f)
  {
    if a == [] {
      assert a + b == b;
    } else {
      assert (a + b)[1..] == a[1..] + b;
      SumAppend(a[1..], b, f);
    }
  }

  /** Summing over a filtered subsequence never exceeds the whole sum when no term is negative. */
  lemma {:induction false} SumRealFilterLe<T>(s: seq<T>, f: T -> real, p: T -> bool)
    requires forall k :: 0 <= k < |s| ==> f(s[k]) >= 0.0
    ensures 0.0 <= SumReal(Filter(s, p), f) <= SumReal(s, f)
  {
    if s != [] {
      assert forall k :: 0 <= k < |s[1..]| ==> f(s[1..][k]) >= 0.0 by {
        forall k | 0 <= k < |s[1..]| ensures f(s[1..][k]) >= 0.0 {
          assert s[1..][k] == s[k + 1];
        }
      }
      SumRealFilterLe(s[1..], f, p);
      if p(s[0]) {
        var r := Filter(s, p);
        assert r == [s[0]] + Filter(s[1..], p);
        assert r[0] == s[0] && r[1..] == Filter(s[1..], p);
        assert SumReal(r, f) == f(s[0]) + SumReal(Filter(s[1..], p), f);
      } else {
        assert Filter(s, p) == Filter(s[1..], p);
      }
    }
  }

  /** Replacing one element changes a sum by exactly the difference of its terms. */
  lemma {:induction false} SumRealUpdate<T>(s: seq<T>, i: nat, x: T, f: T -> real)
    requires i < |s|
    ensures SumReal(s[i := x], f) == SumReal(s, f) - f(s[i]) + f(x)
  {
    if i > 0 {
      SumRealUpdate(s[1..], i - 1, x, f);
      assert s[i := x][1..] == s[1..][i - 1 := x];
    }
  }

  /** With no negative term, a filtered sum lies between nothing and the whole sum. */
  lemma {:induction false} SumFilterLe<T>(s: seq<T>, f: T -> int, p: T -> bool)
    requires forall k :: 0 <= k < |s| ==> f(s[k]) >= 0
    ensures 0 <= Sum(Filter(s, p), f) <= Sum(s, f)
  {
    if s != [] {
      forall k | 0 <= k < |s[1..]| ensures f(s[1..][k]) >= 0 {
        assert s[1..][k] == s[k + 1];
      }
      SumFilterLe(s[1..], f, p);
      if p(s[0]) {
        var r := Filter(s, p);
        assert r[0] == s[0] && r[1..] == Filter(s[1..], p);
        assert Sum(r, f) == f(s[0]) + Sum(Filter(s[1..], p), f);
      } else {
        assert Filter(s, p) == Filter(s[1..], p);
      }
      assert Sum(s, f) == f(s[0]) + Sum(s[1..], f);
    }
  }

  /** Replacing one element changes a filtered sum by the terms that left and joined it. */
  lemma {:induction false} SumRealFilterUpdate<T>(s: seq<T>, i: nat, x: T, p: T -> bool, f: T -> real)
    requires i < |s|
    ensures SumReal(Filter(s[i := x], p), f) ==
            SumReal(Filter(s, p), f) - (if p(s[i]) then f(s[i]) else 0.0) + (if p(x) then f(x) else 0.0)
  {
    var t := s[i := x];
    assert t[0] == (if i == 0 then x else s[0]);
    if i == 0 {
      assert t[1..] == s[1..];
    } else {
      SumRealFilterUpdate(s[1..], i - 1, x, p, f);
      assert t[1..] == s[1..][i - 1 := x];
    }
    SumRealFilterCons(s, p, f);
    SumRealFilterCons(t, p, f);
  }

  /** Replacing one element changes a filter's length by the elements that left and joined it. */
  lemma {:induction false} FilterUpdateCount<T>(s: seq<T>, i: nat, x: T, p: T -> bool)
    requires i < |s|
    ensures |Filter(s[i := x], p)| == |Filter(s, p)| - (if p(s[i]) then 1 else 0) + (if p(x) then 1 else 0)
  {
    var t := s[i := x];
    if i == 0 {
      assert t[1..] == s[1..];
    } else {
      FilterUpdateCount(s[1..], i - 1, x, p);
      assert t[1..] == s[1..][i - 1 := x];
    }
  }

  /** Replacing one element changes a filtered sum by the terms that left and joined it. */
  lemma {:induction false} SumFilterUpdate<T>(s: seq<T>, i: nat, x: T, p: T -> bool, f: T -> int)
    requires i < |s|
    ensures Sum(Filter(s[i := x], p), f) ==
            Sum(Filter(s, p), f) - (if p(s[i]) then f(s[i]) else 0) + (if p(x) then f(x) else 0)
  {
    var t := s[i := x];
    if i == 0 {
      assert t[1..] == s[1..];
    } else {
      SumFilterUpdate(s[1..], i - 1, x, p, f);
      assert t[1..] == s[1..][i - 1 := x];
    }
    SumFilterCons(s, p, f);
    SumFilterCons(t, p, f);
  }

  lemma SumFilterCons<T>(s: seq<T>, p: T -> bool, f: T -> int)
    requires s != []
    ensures Sum(Filter(s, p), f) == (if p(s[0]) then f(s[0]) else 0) + Sum(Filter(s[1..], p), f)
  {
    if p(s[0]) {
      var r := Filter(s, p);
      assert r[0] == s[0] && r[1..] == Filter(s[1..], p);
    } else {
      assert Filter(s, p) == Filter(s[1..], p);
    }
  }

  lemma SumRealFilterCons<T>(s: seq<T>, p: T -> bool, f: T -> real)
    requires s != []
    ensures SumReal(Filter(s, p), f) == (if p(s[0]) then f(s[0]) else 0.0) + SumReal(Filter(s[1..], p), f)
  {
    if p(s[0]) {
      var r := Filter(s, p);
      assert r[0] == s[0] && r[1..] == Filter(s[1..], p);
    } else {
      assert Filter(s, p) == Filter(s[1..], p);
    }
  }

  /** Scaling every term scales the sum. */
  lemma {:induction false} SumRealScale<T>(s: seq<T>, f: T -> real, g: T -> int, c: real)
    requires forall k :: 0 <= k < |s| ==> f(s[k]) == c * (g(s[k]) as real)
    ensures SumReal(s, f) == c * (Sum(s, g) as real)
  {
    if s != [] {
      SumRealScale(s[1..], f, g, c);
    }
  }

  /** The first `n` elements, or all of them when there are fewer (`limit(n)`, `slice(0, n)`). */
  function Take<T>(s: seq<T>, n: nat): (r: seq<T>)
    ensures |r| <= n && |r| <= |s|
    ensures |r| == if |s| < n then |s| else n
    ensures r == s[..|r|]
  {
    if |s| <= n then s else s[..n]
  }

  function MapSeq<T, U>(s: seq<T>, f: T -> U): (r: seq<U>)
    ensures |r| == |s| && forall k :: 0 <= k < |s| ==> r[k] == f(s[k])
  {
    seq(|s|, k requires 0 <= k < |s| => f(s[k]))
  }

  /** `le(a, b)` says `a` may come before `b`: a total preorder. */
  ghost predicate TotalPreorder<T(!new)>(le: (T, T) -> bool)
  {
    && (forall a, b :: le(a, b) || le(b, a))
    && (forall a, b, c :: le(a, b) && le(b, c) ==> le(a, c))
  }

  ghost predicate Sorted<T>(s: seq<T>, le: (T, T) -> bool)
  {
    forall i, j :: 0 <= i < j < |s| ==> le(s[i], s[j])
  }

  function Insert<T>(x: T, s: seq<T>, le: (T, T) -> bool): (r: seq<T>)
    ensures multiset(r) == multiset(s) + multiset{x}
    ensures |r| == |s| + 1
  {
    if s == [] || le(x, s[0]) then [x] + s
    else
      assert s == [s[0]] + s[1..];
      [s[0]] + Insert(x, s[1..], le)
  }

  /** A sort by comparator: the result is the input reordered. */
  function SortBy<T>(s: seq<T>, le: (T, T) -> bool): (r: seq<T>)
    ensures multiset(r) == multiset(s)
    ensures |r| == |s|
  {
    if s == [] then []
    else
      assert s == [s[0]] + s[1..];
      Insert(s[0], SortBy(s[1..], le), le)
  }

  lemma {:induction false} InsertSorted<T(!new)>(x: T, s: seq<T>, le: (T, T) -> bool)
    requires TotalPreorder(le)
    requires Sorted(s, le)
    ensures Sorted(Insert(x, s, le), le)
  {
    if s != [] && !le(x, s[0]) {
      InsertSorted(x, s[1..], le);
      var r := Insert(x, s, le);
      assert r == [s[0]] + Insert(x, s[1..], le);
      forall j | 0 < j < |r| ensures le(r[0], r[j]) {
        assert r[j] in multiset(Insert(x, s[1..], le));
        assert r[j] == x || r[j] in multiset(s[1..]);
        if r[j] != x {
          var k :| 1 <= k < |s| && s[k] == r[j];
        }
      }
    }
  }

  /** The sort's output is in comparator order. */
  lemma {:induction false} SortBySorted<T(!new)>(s: seq<T>, le: (T, T) -> bool)
    requires TotalPreorder(le)
    ensures Sorted(SortBy(s, le), le)
  {
    if s != [] {
      SortBySorted(s[1..], le);
      InsertSorted(s[0], SortBy(s[1..], le), le);
    }
  }

  /** A filter followed by a sort (`find(filter).sort(order)`): in order, and
      holding each passing input element exactly as often as the input does. */
  lemma SortFilter<T(!new)>(s: seq<T>, p: T -> bool, le: (T, T) -> bool)
    requires TotalPreorder(le)
    ensures Sorted(SortBy(Filter(s, p), le), le)
    ensures forall x :: multiset(SortBy(Filter(s, p), le))[x] == if p(x) then multiset(s)[x] else 0
  {
    SortBySorted(Filter(s, p), le);
    FilterMultiset(s, p);
  }

  /** A prefix of a sorted sequence is sorted. */
  lemma TakeSorted<T>(s: seq<T>, n: nat, le: (T, T) -> bool)
    requires Sorted(s, le)
    ensures Sorted(Take(s, n), le)
  {
  }

  /** A prefix holds no more of anything than the whole, and is the whole when it is short enough. */
  lemma TakeSub<T>(s: seq<T>, n: nat)
    ensures multiset(Take(s, n)) <= multiset(s)
    ensures |s| <= n ==> Take(s, n) == s
  {
    var t := Take(s, n);
    assert s == t + s[|t|..];
    assert multiset(s) == multiset(t) + multiset(s[|t|..]);
  }

  /** What a sort-then-limit leaves out comes no earlier than anything it keeps:
      every element that occurs more often in `s` than in its first `n` is
      preceded by all of those `n`. */
  lemma TakeDominates<T(!new)>(s: seq<T>, n: nat, le: (T, T) -> bool)
    requires Sorted(s, le)
    ensures forall x, i :: multiset(Take(s, n))[x] < multiset(s)[x] && 0 <= i < |Take(s, n)| ==> le(Take(s, n)[i], x)
  {
    var t := Take(s, n);
    var rest := s[|t|..];
    assert s == t + rest;
    forall x, i | multiset(t)[x] < multiset(s)[x] && 0 <= i < |t| ensures le(t[i], x) {
      assert multiset(s) == multiset(t) + multiset(rest);
      assert x in multiset(rest);
      var j :| 0 <= j < |rest| && rest[j] == x;
      assert s[|t| + j] == x;
    }
  }
}
