/**
 * Sequence operations that model the SQL the services issue: WHERE
 * (Filter), lookup by key (Find), ORDER BY (a stable sort by a comparison),
 * LIMIT/OFFSET (Window), COUNT ... GROUP BY (CountBy).
 */
module Seqs {
  import opened Wrappers

  /** The elements of `s` satisfying `p`, in their original order. */
  function Filter<T>(s: seq<T>, p: T -> bool): (r: seq<T>)
    ensures |r| <= |s|
    ensures forall x :: x in r ==> x in s && p(x)
    ensures forall x :: x in s && p(x) ==> x in r
    ensures multiset(r) <= multiset(s)
  {
    if s == [] then []
    else
      var rest := Filter(s[1..], p);
      assert s == [s[0]] + s[1..];
      if p(s[0]) then [s[0]] + rest else rest
  }

  /** Two arrangements of the same elements have the same members. */
  lemma SameMembers<T>(a: seq<T>, b: seq<T>)
    requires multiset(a) == multiset(b)
    ensures forall x :: x in a <==> x in b
  {
    forall x
      ensures x in a <==> x in b
    {
      assert x in a <==> x in multiset(a);
      assert x in b <==> x in multiset(b);
    }
  }

  /** A filter keeps every copy of an element it accepts and none of one it refuses. */
  lemma {:induction false} FilterCount<T>(s: seq<T>, p: T -> bool, x: T)
    ensures multiset(Filter(s, p))[x] == if p(x) then multiset(s)[x] else 0
  {
    if s != [] {
      FilterCount(s[1..], p, x);
      assert s == [s[0]] + s[1..];
    }
  }

  /** Filtering by a weaker condition never keeps fewer elements. */
  lemma {:induction false} FilterMonotone<T>(s: seq<T>, p: T -> bool, q: T -> bool)
    requires forall x :: q(x) ==> p(x)
    ensures |Filter(s, q)| <= |Filter(s, p)|
  {
    if s != [] {
      FilterMonotone(s[1..], p, q);
    }
  }

  /** Filtering splits over concatenation. */
  lemma {:induction false} FilterAppend<T>(a: seq<T>, b: seq<T>, p: T -> bool)
    ensures Filter(a + b, p) == Filter(a, p) + Filter(b, p)
  {
    if a == [] {
      assert a + b == b;
    } else {
      assert (a + b)[1..] == a[1..] + b;
      FilterAppend(a[1..], b, p);
    }
  }

  /** When every element passes, filtering changes nothing. */
  lemma {:induction false} FilterAll<T>(s: seq<T>, p: T -> bool)
    requires forall i :: 0 <= i < |s| ==> p(s[i])
    ensures Filter(s, p) == s
  {
    if s != [] {
      FilterAll(s[1..], p);
    }
  }

  /** When no element passes, the result is empty. */
  lemma {:induction false} FilterNone<T>(s: seq<T>, p: T -> bool)
    requires forall i :: 0 <= i < |s| ==> !p(s[i])
    ensures Filter(s, p) == []
  {
    if s != [] {
      FilterNone(s[1..], p);
    }
  }

  /** Filtering by two conditions that agree everywhere gives the same rows. */
  lemma {:induction false} FilterSame<T>(s: seq<T>, p: T -> bool, q: T -> bool)
    requires forall x :: p(x) == q(x)
    ensures Filter(s, p) == Filter(s, q)
  {
    if s != [] {
      FilterSame(s[1..], p, q);
    }
  }

  /** Every row either passes a condition or passes its negation. */
  lemma {:induction false} FilterComplement<T>(s: seq<T>, p: T -> bool, q: T -> bool)
    requires forall x :: q(x) == !p(x)
    ensures |Filter(s, p)| + |Filter(s, q)| == |s|
  {
    if s != [] {
      FilterComplement(s[1..], p, q);
    }
  }

  /** Two conditions no row meets together count no more than a condition each of them implies. */
  lemma {:induction false} FilterDisjoint<T>(s: seq<T>, p: T -> bool, q: T -> bool, r: T -> bool)
    requires forall x :: !(p(x) && q(x))
    requires forall x :: p(x) || q(x) ==> r(x)
    ensures |Filter(s, p)| + |Filter(s, q)| <= |Filter(s, r)|
  {
    if s != [] {
      FilterDisjoint(s[1..], p, q, r);
    }
  }

  /** Removing the element at `i` removes one occurrence of it. */
  lemma RemoveAtMultiset<T>(b: seq<T>, i: nat)
    requires i < |b|
    ensures multiset(b[..i] + b[i + 1..]) == multiset(b) - multiset{b[i]}
  {
    assert b == b[..i] + [b[i]] + b[i + 1..];
  }

  /** Removing the element at `i` removes it from the filtered rows, if it passed. */
  lemma RemoveAtFilter<T>(b: seq<T>, i: nat, p: T -> bool)
    requires i < |b|
    ensures |Filter(b, p)| == |Filter(b[..i] + b[i + 1..], p)| + (if p(b[i]) then 1 else 0)
  {
    assert b == b[..i] + ([b[i]] + b[i + 1..]);
    FilterAppend(b[..i], [b[i]] + b[i + 1..], p);
    FilterAppend(b[..i], b[i + 1..], p);
    assert ([b[i]] + b[i + 1..])[1..] == b[i + 1..];
  }

  /** Replacing the row at `k` changes a count only by what the old and the new row contribute. */
  lemma FilterUpdate<T>(s: seq<T>, k: nat, x: T, p: T -> bool)
    requires k < |s|
    ensures |Filter(s[k := x], p)| + (if p(s[k]) then 1 else 0) == |Filter(s, p)| + (if p(x) then 1 else 0)
  {
    var t := s[k := x];
    assert t[..k] + t[k + 1..] == s[..k] + s[k + 1..];
    RemoveAtFilter(s, k, p);
    RemoveAtFilter(t, k, p);
  }

  /** Rearranging the rows does not change how many pass a condition. */
  lemma {:induction false} FilterPermutation<T>(a: seq<T>, b: seq<T>, p: T -> bool)
    requires multiset(a) == multiset(b)
    ensures |Filter(a, p)| == |Filter(b, p)|
    decreases |a|
  {
    if a == [] {
      assert |multiset(b)| == 0;
    } else {
      var x := a[0];
      assert x in multiset(b);
      var i :| 0 <= i < |b| && b[i] == x;
      RemoveAtMultiset(b, i);
      assert a == [x] + a[1..];
      assert multiset(a[1..]) == multiset(a) - multiset{x};
      FilterPermutation(a[1..], b[..i] + b[i + 1..], p);
      RemoveAtFilter(b, i, p);
    }
  }

  /** A prefix has no more rows passing a condition than the whole. */
  lemma TakeFilter<T>(s: seq<T>, n: nat, p: T -> bool)
    ensures |Filter(Take(s, n), p)| <= |Filter(s, p)|
  {
    if n < |s| {
      assert s == s[..n] + s[n..];
      FilterAppend(s[..n], s[n..], p);
    }
  }

  /** `[f(x) for x in s]`. */
  function MapSeq<A, B>(s: seq<A>, f: A -> B): (r: seq<B>)
    ensures |r| == |s|
    ensures forall i :: 0 <= i < |s| ==> r[i] == f(s[i])
  {
    seq(|s|, i requires 0 <= i < |s| => f(s[i]))
  }

  /** A value occurs among the images exactly when some element maps to it. */
  lemma MapSeqImage<A, B>(s: seq<A>, f: A -> B)
    ensures forall y :: y in MapSeq(s, f) <==> exists x :: x in s && f(x) == y
  {
    forall y | y in MapSeq(s, f)
      ensures exists x :: x in s && f(x) == y
    {
      var i :| 0 <= i < |s| && MapSeq(s, f)[i] == y;
      assert s[i] in s && f(s[i]) == y;
    }
  }

  /** Mapping one more element appends its image. */
  lemma MapSeqSnoc<A, B>(s: seq<A>, i: nat, f: A -> B)
    requires i < |s|
    ensures MapSeq(s[..i + 1], f) == MapSeq(s[..i], f) + [f(s[i])]
  {
  }

  /**
   * When `p` holds exactly of the rows whose key `f` is `k`, the grouped
   * count of `k` in the key column is the number of rows `p` keeps.
   */
  lemma {:induction false} CountMatchesFilter<A, K>(s: seq<A>, f: A -> K, k: K, p: A -> bool)
    requires forall x :: p(x) <==> f(x) == k
    ensures multiset(MapSeq(s, f))[k] == |Filter(s, p)|
  {
    if s != [] {
      CountMatchesFilter(s[1..], f, k, p);
      assert MapSeq(s, f) == [f(s[0])] + MapSeq(s[1..], f);
    }
  }

  /** The distinct values of `f` over the rows. */
  function Image<A(==), B>(s: seq<A>, f: A -> B): set<B>
  {
    set x | x in s :: f(x)
  }

  /** `COUNT(DISTINCT f(x))` never exceeds the number of rows. */
  lemma {:induction false} DistinctCountBound<A, B>(s: seq<A>, f: A -> B)
    ensures |Image(s, f)| <= |s|
  {
    if s != [] {
      DistinctCountBound(s[1..], f);
      assert Image(s, f) == Image(s[1..], f) + {f(s[0])};
    }
  }

  /** The elements of `s` that `f` finds a partner for, in order: the rows an inner join keeps. */
  function Joinable<A(!new), B>(s: seq<A>, f: A -> Option<B>): (r: seq<A>)
    ensures forall x :: x in r <==> x in s && f(x).Some?
  {
    Filter(s, x => f(x).Some?)
  }

  /**
   * The `Some` results of `f`, in the order of `s`: the inner join of each
   * element with the partner `f` finds for it.
   */
  function FilterMap<A(!new), B(!new)>(s: seq<A>, f: A -> Option<B>): (r: seq<B>)
    ensures |r| <= |s|
    ensures forall y :: y in r <==> exists x :: x in s && f(x) == Some(y)
  {
    if s == [] then []
    else
      var rest := FilterMap(s[1..], f);
      assert forall x :: x in s <==> x == s[0] || x in s[1..];
      match f(s[0])
      case None => rest
      case Some(y) => [y] + rest
  }

  /**
   * The inner join has one result per joinable element, the partner of the
   * element at the same place.
   */
  lemma {:induction false} FilterMapJoins<A(!new), B(!new)>(s: seq<A>, f: A -> Option<B>)
    ensures |FilterMap(s, f)| == |Joinable(s, f)|
    ensures forall i :: 0 <= i < |FilterMap(s, f)| ==> f(Joinable(s, f)[i]) == Some(FilterMap(s, f)[i])
  {
    if s != [] {
      FilterMapJoins(s[1..], f);
      assert Joinable(s, f) == if f(s[0]).Some? then [s[0]] + Joinable(s[1..], f) else Joinable(s[1..], f);
    }
  }

  /** The index of the first element satisfying `p`, searching from `from`. */
  function FindFrom<T>(s: seq<T>, p: T -> bool, from: nat): (r: Option<nat>)
    requires from <= |s|
    ensures r.Some? ==> from <= r.value < |s| && p(s[r.value])
    ensures r.Some? ==> forall j :: from <= j < r.value ==> !p(s[j])
    ensures r.None? ==> forall j :: from <= j < |s| ==> !p(s[j])
    decreases |s| - from
  {
    if from == |s| then None
    else if p(s[from]) then Some(from)
    else FindFrom(s, p, from + 1)
  }

  /** The index of the first element satisfying `p`. */
  function Find<T>(s: seq<T>, p: T -> bool): (r: Option<nat>)
    ensures r.Some? ==> r.value < |s| && p(s[r.value])
    ensures r.Some? ==> forall j :: 0 <= j < r.value ==> !p(s[j])
    ensures r.None? ==> forall j :: 0 <= j < |s| ==> !p(s[j])
  {
    FindFrom(s, p, 0)
  }

  function Min(a: int, b: int): int
  {
    if a <= b then a else b
  }

  /**
   * `LIMIT limit OFFSET offset`: the rows from position `offset` on, at most
   * `limit` of them.
   */
  function Window<T>(s: seq<T>, limit: nat, offset: nat): (r: seq<T>)
    ensures |r| == if offset >= |s| then 0 else Min(limit, |s| - offset)
    ensures forall i :: 0 <= i < |r| ==> offset + i < |s| && r[i] == s[offset + i]
  {
    if offset >= |s| then []
    else s[offset..offset + Min(limit, |s| - offset)]
  }

  /** Python's `s[:n]`: the first `n` elements, or all of them. */
  function Take<T>(s: seq<T>, n: nat): (r: seq<T>)
    ensures |r| == Min(n, |s|)
    ensures forall i :: 0 <= i < |r| ==> r[i] == s[i]
  {
    if n >= |s| then s else s[..n]
  }

  /** `leq` is total and transitive: it may order a sort. */
  ghost predicate TotalPreorder<T(!new)>(leq: (T, T) -> bool)
  {
    && (forall a, b :: leq(a, b) || leq(b, a))
    && (forall a, b, c :: leq(a, b) && leq(b, c) ==> leq(a, c))
  }

  /** Every earlier element is ordered before every later one. */
  ghost predicate SortedBy<T>(s: seq<T>, leq: (T, T) -> bool)
  {
    forall i, j :: 0 <= i < j < |s| ==> leq(s[i], s[j])
  }

  /**
   * Inserts `x` in front of the first element it is ordered before; applied
   * to the head of the input this keeps equal elements in input order.
   */
  function Insert<T>(x: T, s: seq<T>, leq: (T, T) -> bool): (r: seq<T>)
    ensures multiset(r) == multiset(s) + multiset{x}
    ensures |r| == |s| + 1
  {
    if s == [] || leq(x, s[0]) then [x] + s
    else
      assert s == [s[0]] + s[1..];
      [s[0]] + Insert(x, s[1..], leq)
  }

  /** A stable insertion sort: ORDER BY with ties left in table order. */
  function SortBy<T>(s: seq<T>, leq: (T, T) -> bool): (r: seq<T>)
    ensures |r| == |s|
  {
    if s == [] then []
    else Insert(s[0], SortBy(s[1..], leq), leq)
  }

  lemma {:induction false} InsertSorted<T(!new)>(x: T, s: seq<T>, leq: (T, T) -> bool)
    requires TotalPreorder(leq)
    requires SortedBy(s, leq)
    ensures SortedBy(Insert(x, s, leq), leq)
  {
    if s == [] || leq(x, s[0]) {
      var r := [x] + s;
      forall i, j | 0 <= i < j < |r|
        ensures leq(r[i], r[j])
      {
        if i == 0 && j > 1 {
          assert leq(s[0], s[j - 1]);
        }
      }
    } else {
      assert leq(s[0], x);
      var t := Insert(x, s[1..], leq);
      assert SortedBy(s[1..], leq) by {
        forall i, j | 0 <= i < j < |s[1..]|
          ensures leq(s[1..][i], s[1..][j])
        {
          assert s[1..][i] == s[i + 1] && s[1..][j] == s[j + 1];
        }
      }
      InsertSorted(x, s[1..], leq);
      var r := [s[0]] + t;
      forall j | 0 <= j < |t|
        ensures leq(s[0], t[j])
      {
        assert t[j] in multiset(t);
        assert t[j] in multiset(s[1..]) + multiset{x};
        if t[j] != x {
          assert t[j] in multiset(s[1..]);
          assert t[j] in s[1..];
          var k :| 0 <= k < |s[1..]| && s[1..][k] == t[j];
          assert s[k + 1] == t[j];
        }
      }
      forall i, j | 0 <= i < j < |r|
        ensures leq(r[i], r[j])
      {
        if i == 0 {
          assert r[j] == t[j - 1];
        } else {
          assert r[i] == t[i - 1] && r[j] == t[j - 1];
        }
      }
    }
  }

  /** ORDER BY yields a sorted result ... */
  lemma {:induction false} SortBySorted<T(!new)>(s: seq<T>, leq: (T, T) -> bool)
    requires TotalPreorder(leq)
    ensures SortedBy(SortBy(s, leq), leq)
  {
    if s != [] {
      SortBySorted(s[1..], leq);
      InsertSorted(s[0], SortBy(s[1..], leq), leq);
    }
  }

  /** ... holding exactly the rows it was given. */
  lemma {:induction false} SortByPermutation<T>(s: seq<T>, leq: (T, T) -> bool)
    ensures multiset(SortBy(s, leq)) == multiset(s)
  {
    if s != [] {
      SortByPermutation(s[1..], leq);
      assert s == [s[0]] + s[1..];
    }
  }

  /** A sorted sequence stays sorted after LIMIT/OFFSET. */
  lemma WindowSorted<T>(s: seq<T>, leq: (T, T) -> bool, limit: nat, offset: nat)
    requires SortedBy(s, leq)
    ensures SortedBy(Window(s, limit, offset), leq)
  {
    var r := Window(s, limit, offset);
    forall i, j | 0 <= i < j < |r|
      ensures leq(r[i], r[j])
    {
      assert r[i] == s[offset + i] && r[j] == s[offset + j];
    }
  }

  /** A sorted sequence stays sorted after taking a prefix. */
  lemma TakeSorted<T>(s: seq<T>, leq: (T, T) -> bool, n: nat)
    requires SortedBy(s, leq)
    ensures SortedBy(Take(s, n), leq)
  {
    var r := Take(s, n);
    forall i, j | 0 <= i < j < |r|
      ensures leq(r[i], r[j])
    {
      assert r[i] == s[i] && r[j] == s[j];
    }
  }

  /**
   * `ORDER BY ... LIMIT limit OFFSET offset`: the page of the sorted rows.
   * Its rows come from the input; a first page that has room for every row
   * holds all of them.
   */
  function SortedPage<T>(s: seq<T>, leq: (T, T) -> bool, limit: nat, offset: nat): (r: seq<T>)
    ensures |r| == if offset >= |s| then 0 else Min(limit, |s| - offset)
    ensures forall x :: x in r ==> x in s
    ensures offset == 0 && |s| <= limit ==> multiset(r) == multiset(s)
  {
    var sorted := SortBy(s, leq);
    SortByPermutation(s, leq);
    var r := Window(sorted, limit, offset);
    assert forall x :: x in r ==> x in multiset(sorted);
    assert offset == 0 && |s| <= limit ==> r == sorted;
    r
  }

  /**
   * `page` is what `ORDER BY leq LIMIT limit OFFSET offset` may return for the
   * rows `s`: the window of some arrangement of exactly those rows that is
   * sorted by `leq` (rows that tie may come in any order).
   */
  ghost predicate IsSortedPage<T(!new)>(page: seq<T>, s: seq<T>, leq: (T, T) -> bool, limit: nat, offset: nat)
  {
    exists sorted: seq<T> :: multiset(sorted) == multiset(s) && SortedBy(sorted, leq) && page == Window(sorted, limit, offset)
  }

  /**
   * The page of a sort by a total preorder is itself sorted, and it is the
   * window of a sorted arrangement of the input.
   */
  lemma SortedPageSorted<T(!new)>(s: seq<T>, leq: (T, T) -> bool, limit: nat, offset: nat)
    requires TotalPreorder(leq)
    ensures SortedBy(SortedPage(s, leq, limit, offset), leq)
    ensures IsSortedPage(SortedPage(s, leq, limit, offset), s, leq, limit, offset)
  {
    var sorted := SortBy(s, leq);
    SortBySorted(s, leq);
    SortByPermutation(s, leq);
    WindowSorted(sorted, leq, limit, offset);
    assert SortedPage(s, leq, limit, offset) == Window(sorted, limit, offset);
  }

  /** `ORDER BY ... LIMIT n`: the first `n` of the sorted rows, each one from the input. */
  function TopBy<T>(s: seq<T>, leq: (T, T) -> bool, n: nat): (r: seq<T>)
    ensures |r| == Min(n, |s|)
    ensures forall x :: x in r ==> x in s
  {
    var sorted := SortBy(s, leq);
    SortByPermutation(s, leq);
    var r := Take(sorted, n);
    assert forall x :: x in r ==> x in multiset(sorted);
    r
  }

  /**
   * `top` is what `ORDER BY leq LIMIT n` may return for the rows `s`: the
   * first `n` of some arrangement of exactly those rows that is sorted by
   * `leq`.
   */
  ghost predicate IsTop<T(!new)>(top: seq<T>, s: seq<T>, leq: (T, T) -> bool, n: nat)
  {
    exists sorted: seq<T> :: multiset(sorted) == multiset(s) && SortedBy(sorted, leq) && top == Take(sorted, n)
  }

  /**
   * The first rows of a sort by a total preorder are themselves sorted, and
   * they are the first `n` of a sorted arrangement of the input.
   */
  lemma TopBySorted<T(!new)>(s: seq<T>, leq: (T, T) -> bool, n: nat)
    requires TotalPreorder(leq)
    ensures SortedBy(TopBy(s, leq, n), leq)
    ensures IsTop(TopBy(s, leq, n), s, leq, n)
  {
    var sorted := SortBy(s, leq);
    SortBySorted(s, leq);
    SortByPermutation(s, leq);
    TakeSorted(sorted, leq, n);
    assert TopBy(s, leq, n) == Take(sorted, n);
  }

  /** `SELECT key, count(*) ... GROUP BY key` over a column of keys. */
  function CountBy<K>(keys: seq<K>): (m: map<K, nat>)
    ensures m.Keys == set k | k in keys
    ensures forall k :: k in m ==> m[k] == multiset(keys)[k]
  {
    if keys == [] then map[]
    else
      var m := CountBy(keys[1..]);
      assert keys == [keys[0]] + keys[1..];
      var n := if keys[0] in m then m[keys[0]] else 0;
      m[keys[0] := n + 1]
  }

  /** The sum of the counts in a grouping. */
  ghost function SumValues<K>(m: map<K, nat>): nat
    decreases |m|
  {
    if m == map[] then 0
    else
      var k :| k in m;
      m[k] + SumValues(m - {k})
  }

  /** The sum does not depend on which key is taken first. */
  lemma {:induction false} SumValuesRemove<K>(m: map<K, nat>, k: K)
    requires k in m
    ensures SumValues(m) == m[k] + SumValues(m - {k})
    decreases |m|
  {
    var j :| j in m && SumValues(m) == m[j] + SumValues(m - {j});
    if j != k {
      var mj := m - {j};
      var mk := m - {k};
      assert |mj| < |m| && |mk| < |m|;
      SumValuesRemove(mj, k);
      SumValuesRemove(mk, j);
      assert mj - {k} == mk - {j};
    }
  }

  /** Counting one more row under `k` adds one to the sum. */
  lemma SumValuesBump<K>(m: map<K, nat>, k: K)
    ensures SumValues(m[k := (if k in m then m[k] else 0) + 1]) == SumValues(m) + 1
  {
    var n := if k in m then m[k] else 0;
    var m' := m[k := n + 1];
    SumValuesRemove(m', k);
    assert m' - {k} == m - {k};
    if k in m {
      SumValuesRemove(m, k);
    } else {
      assert m - {k} == m;
    }
  }

  /** The groups of a GROUP BY add up to the number of rows grouped. */
  lemma {:induction false} CountBySum<K>(keys: seq<K>)
    ensures SumValues(CountBy(keys)) == |keys|
  {
    if keys != [] {
      var m := CountBy(keys[1..]);
      CountBySum(keys[1..]);
      SumValuesBump(m, keys[0]);
      assert CountBy(keys) == m[keys[0] := (if keys[0] in m then m[keys[0]] else 0) + 1];
    }
  }
}
