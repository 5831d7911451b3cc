/** Sequence operations behind the document store's queries: `find` with a
    filter, `countDocuments`, `sort`, `$group` keys, and their properties. */
module Collections {
  import opened Common

  /** The position of the first element satisfying `p` (`findIndex`), if any. */
  function FirstIndex<T(!new)>(s: seq<T>, p: T -> bool): (r: Option<nat>)
    ensures r.None? <==> forall x :: x in s ==> !p(x)
    ensures r.Some? ==> r.value < |s| && p(s[r.value]) && forall k :: 0 <= k < r.value ==> !p(s[k])
  {
    if s == [] then None
    else if p(s[0]) then Some(0)
    else
      match FirstIndex(s[1..], p)
      case None => None
      case Some(i) => Some(i + 1)
  }

  /** The number of elements of `s` that satisfy `p`. */
  function Count<T>(s: seq<T>, p: T -> bool): (n: nat)
    ensures n <= |s|
  {
    if s == [] then 0 else Count(s[..|s| - 1], p) + (if p(s[|s| - 1]) then 1 else 0)
  }

  /** The elements of `s` that satisfy `p`, in their original order. */
  function Filter<T(!new)>(s: seq<T>, p: T -> bool): (r: seq<T>)
    ensures |r| == Count(s, p)
    ensures forall x :: x in r <==> x in s && p(x)
  {
    if s == [] then [] else Filter(s[..|s| - 1], p) + (if p(s[|s| - 1]) then [s[|s| - 1]] else [])
  }

  /** Filtering distributes over concatenation, so it keeps the relative
      order of the elements it keeps. */
  lemma {:induction false} FilterAppend<T(!new)>(a: seq<T>, b: seq<T>, p: T -> bool)
    ensures Filter(a + b, p) == Filter(a, p) + Filter(b, p)
  {
    if b != [] {
      FilterAppend(a, b[..|b| - 1], p);
      assert (a + b)[..|a + b| - 1] == a + b[..|b| - 1];
    } else {
      assert a + b == a;
    }
  }

  /** Counting over a concatenation adds the counts. */
  lemma {:induction false} CountAppend<T>(a: seq<T>, b: seq<T>, p: T -> bool)
    ensures Count(a + b, p) == Count(a, p) + Count(b, p)
  {
    if b != [] {
      CountAppend(a, b[..|b| - 1], p);
      assert (a + b)[..|a + b| - 1] == a + b[..|b| - 1];
    } else {
      assert a + b == a;
    }
  }

  /** A count of elements satisfying one of two exclusive predicates is
      the sum of the two counts. */
  lemma {:induction false} CountDisjoint<T>(s: seq<T>, p: T -> bool, q: T -> bool, pq: T -> bool)
    requires forall x :: pq(x) == (p(x) || q(x))
    requires forall x :: !(p(x) && q(x))
    ensures Count(s, pq) == Count(s, p) + Count(s, q)
  {
    if s != [] {
      CountDisjoint(s[..|s| - 1], p, q, pq);
    }
  }

  /** Nothing is counted when no element satisfies `p`. */
  lemma {:induction false} CountNone<T>(s: seq<T>, p: T -> bool)
    requires forall x :: x in s ==> !p(x)
    ensures Count(s, p) == 0
  {
    if s != [] {
      CountNone(s[..|s| - 1], p);
    }
  }

  /** Two filters that agree everywhere count the same elements. */
  lemma {:induction false} CountSame<T>(s: seq<T>, p: T -> bool, q: T -> bool)
    requires forall x :: p(x) == q(x)
    ensures Count(s, p) == Count(s, q)
  {
    if s != [] {
      CountSame(s[..|s| - 1], p, q);
    }
  }

  /** Every element satisfies `p` exactly when all of them are counted. */
  lemma {:induction false} CountAll<T>(s: seq<T>, p: T -> bool)
    ensures Count(s, p) == |s| <==> forall x :: x in s ==> p(x)
  {
    if s != [] {
      CountAll(s[..|s| - 1], p);
      assert s == s[..|s| - 1] + [s[|s| - 1]];
    }
  }

  /** `above(a, b)` lets `a` stand before `b`; it is a total preorder. */
  ghost predicate TotalPreorder<T(!new)>(above: (T, T) -> bool) {
    && (forall a, b :: above(a, b) || above(b, a))
    && (forall a, b, c :: above(a, b) && above(b, c) ==> above(a, c))
  }

  predicate SortedBy<T>(s: seq<T>, above: (T, T) -> bool) {
    forall i, j :: 0 <= i < j < |s| ==> above(s[i], s[j])
  }

  /** `x` placed before the first element that may not stand before it,
      so after every element it ties with. */
  function InsertBy<T>(x: T, s: seq<T>, above: (T, T) -> bool): (r: seq<T>)
    ensures multiset(r) == multiset(s) + multiset{x}
    ensures |r| == |s| + 1
  {
    if s == [] || !above(s[0], x) then [x] + s
    else
      assert s == [s[0]] + s[1..];
      [s[0]] + InsertBy(x, s[1..], above)
  }

  /** The elements of `s` ordered by `above` (insertion sort; each element
      is inserted after the earlier ones it ties with). */
  function SortBy<T>(s: seq<T>, above: (T, T) -> bool): (r: seq<T>)
    ensures multiset(r) == multiset(s)
    ensures |r| == |s|
  {
    if s == [] then []
    else
      assert s == s[..|s| - 1] + [s[|s| - 1]];
      InsertBy(s[|s| - 1], SortBy(s[..|s| - 1], above), above)
  }

  lemma {:induction false} InsertBySorted<T(!new)>(x: T, s: seq<T>, above: (T, T) -> bool)
    requires TotalPreorder(above)
    requires SortedBy(s, above)
    ensures SortedBy(InsertBy(x, s, above), above)
  {
    if s == [] || !above(s[0], x) {
      if s != [] {
        assert above(x, s[0]);
      }
    } else {
      var rest := InsertBy(x, s[1..], above);
      InsertBySorted(x, s[1..], above);
      forall y | y in rest
        ensures above(s[0], y)
      {
        assert y in multiset(rest);
        if y != x {
          assert y in multiset(s[1..]);
          assert y in s[1..];
        }
      }
      var r := [s[0]] + rest;
      forall i, j | 0 <= i < j < |r|
        ensures above(r[i], r[j])
      {
        if i > 0 {
          assert r[i] == rest[i - 1] && r[j] == rest[j - 1];
        } else {
          assert r[j] in rest;
        }
      }
    }
  }

  /** Sorting by a total preorder yields a sequence ordered by it. */
  lemma {:induction false} SortBySorted<T(!new)>(s: seq<T>, above: (T, T) -> bool)
    requires TotalPreorder(above)
    ensures SortedBy(SortBy(s, above), above)
  {
    if s != [] {
      SortBySorted(s[..|s| - 1], above);
      InsertBySorted(s[|s| - 1], SortBy(s[..|s| - 1], above), above);
    }
  }

  /** The elements that tie with `x`: each may stand before the other. */
  function TiesWith<T>(above: (T, T) -> bool, x: T): T -> bool {
    (y: T) => above(x, y) && above(y, x)
  }

  /** Where `InsertBy` puts `x`: after the prefix of elements that may
      stand before it, in front of the first one that may not. */
  lemma {:induction false} InsertBySplit<T>(x: T, s: seq<T>, above: (T, T) -> bool) returns (k: nat)
    ensures k <= |s| && InsertBy(x, s, above) == s[..k] + [x] + s[k..]
    ensures forall i :: 0 <= i < k ==> above(s[i], x)
    ensures k == |s| || !above(s[k], x)
  {
    if s == [] || !above(s[0], x) {
      k := 0;
    } else {
      var j := InsertBySplit(x, s[1..], above);
      k := j + 1;
      ConsSplit(s, j);
    }
  }

  /** Cutting the tail of `s` at `j` is cutting `s` at `j + 1`. */
  lemma ConsSplit<T>(s: seq<T>, j: nat)
    requires j < |s|
    ensures [s[0]] + s[1..][..j] == s[..j + 1] && s[1..][j..] == s[j + 1..]
    ensures forall i :: 1 <= i < j + 1 ==> s[i] == s[1..][i - 1]
  {
  }

  lemma FilterNone<T(!new)>(s: seq<T>, p: T -> bool)
    requires forall z :: z in s ==> !p(z)
    ensures Filter(s, p) == []
  {
    if Filter(s, p) != [] {
      assert Filter(s, p)[0] in Filter(s, p);
    }
  }

  /** A test every element passes keeps the whole sequence. */
  lemma {:induction false} FilterAll<T(!new)>(s: seq<T>, p: T -> bool)
    requires forall i :: 0 <= i < |s| ==> p(s[i])
    ensures Filter(s, p) == s
  {
    if s != [] {
      var init, last := s[..|s| - 1], s[|s| - 1];
      assert s == init + [last];
      assert forall i :: 0 <= i < |init| ==> init[i] == s[i];
      FilterAll(init, p);
      FilterSnoc(init, last, p);
    }
  }

  /** Filtering around one element `y`, when nothing after it passes if
      `y` does. */
  lemma FilterAround<T(!new)>(a: seq<T>, y: T, b: seq<T>, p: T -> bool)
    requires p(y) ==> Filter(b, p) == []
    ensures Filter(a + [y] + b, p) == Filter(a + b, p) + (if p(y) then [y] else [])
  {
    var fy := if p(y) then [y] else [];
    FilterAppend(a + [y], b, p);
    FilterSnoc(a, y, p);
    FilterAppend(a, b, p);
    Regroup(Filter(a + [y] + b, p), Filter(a + [y], p), Filter(a + b, p), Filter(a, p), Filter(b, p), fy);
  }

  /** The concatenations `FilterAround` combines, as plain sequences. */
  lemma Regroup<T>(whole: seq<T>, front: seq<T>, rest: seq<T>, fa: seq<T>, fb: seq<T>, fy: seq<T>)
    requires whole == front + fb && front == fa + fy && rest == fa + fb
    requires fy != [] ==> fb == []
    ensures whole == rest + fy
  {
    if fy != [] {
      assert whole == fa + fy + [];
    }
  }

  lemma FilterSnoc<T(!new)>(a: seq<T>, y: T, p: T -> bool)
    ensures Filter(a + [y], p) == Filter(a, p) + (if p(y) then [y] else [])
  {
    assert (a + [y])[..|a + [y]| - 1] == a;
  }

  /** Inserting `y` at position `k`, when nothing from `k` on passes `p`
      if `y` does, keeps the order of what passes and puts `y` last. */
  lemma FilterInserted<T(!new)>(s: seq<T>, y: T, k: nat, p: T -> bool)
    requires k <= |s|
    requires p(y) ==> Filter(s[k..], p) == []
    ensures Filter(s[..k] + [y] + s[k..], p) == Filter(s, p) + (if p(y) then [y] else [])
  {
    var a, b := s[..k], s[k..];
    assert a + b == s;
    FilterAround(a, y, b, p);
  }

  /** In a sorted sequence, nothing from the first element that may not
      stand before `y` on ties with `y`'s class. */
  lemma NoTieAfter<T(!new)>(x: T, y: T, s: seq<T>, above: (T, T) -> bool, k: nat)
    requires TotalPreorder(above) && SortedBy(s, above)
    requires k <= |s| && (k == |s| || !above(s[k], y))
    ensures TiesWith(above, x)(y) ==> Filter(s[k..], TiesWith(above, x)) == []
  {
    if TiesWith(above, x)(y) {
      NoTieIn(x, y, s, above, k);
      FilterNone(s[k..], TiesWith(above, x));
    }
  }

  lemma NoTieIn<T(!new)>(x: T, y: T, s: seq<T>, above: (T, T) -> bool, k: nat)
    requires TotalPreorder(above) && SortedBy(s, above)
    requires k <= |s| && (k == |s| || !above(s[k], y))
    requires TiesWith(above, x)(y)
    ensures forall z :: z in s[k..] ==> !TiesWith(above, x)(z)
  {
    forall j | k <= j < |s| ensures !above(s[j], y) {
      if j > k {
        assert above(s[k], s[j]);
      }
    }
    forall z | z in s[k..] ensures !TiesWith(above, x)(z) {
      var j :| k <= j < |s| && s[j] == z;
      assert !above(z, y);
    }
  }

  /** `SortBy` is stable: the elements that tie with any `x` come out in
      the order they went in. */
  lemma {:induction false} SortByStable<T(!new)>(s: seq<T>, above: (T, T) -> bool, x: T)
    requires TotalPreorder(above)
    ensures Filter(SortBy(s, above), TiesWith(above, x)) == Filter(s, TiesWith(above, x))
  {
    if s != [] {
      var init, last := s[..|s| - 1], s[|s| - 1];
      var sorted := SortBy(init, above);
      SortByStable(init, above, x);
      SortBySorted(init, above);
      var k := InsertBySplit(last, sorted, above);
      NoTieAfter(x, last, sorted, above, k);
      FilterInserted(sorted, last, k, TiesWith(above, x));
    }
  }

  predicate NoDuplicates<T(==)>(s: seq<T>) {
    forall i, j :: 0 <= i < j < |s| ==> s[i] != s[j]
  }

  /** The distinct elements of `s`, in order of first appearance. */
  function Distinct<T(==,!new)>(s: seq<T>): (r: seq<T>)
    ensures NoDuplicates(r)
    ensures forall x :: x in r <==> x in s
  {
    if s == [] then []
    else
      var rest := Distinct(s[..|s| - 1]);
      assert forall x :: x in s <==> x in s[..|s| - 1] || x == s[|s| - 1];
      if s[|s| - 1] in rest then rest else rest + [s[|s| - 1]]
  }

  /** The sum of `f` over the elements of `s`. */
  function SumBy<T>(s: seq<T>, f: T -> int): int {
    if s == [] then 0 else SumBy(s[..|s| - 1], f) + f(s[|s| - 1])
  }

  lemma {:induction false} SumByAppend<T>(a: seq<T>, b: seq<T>, f: T -> int)
    ensures SumBy(a + b, f) == SumBy(a, f) + SumBy(b, f)
  {
    if b != [] {
      SumByAppend(a, b[..|b| - 1], f);
      assert (a + b)[..|a + b| - 1] == a + b[..|b| - 1];
    } else {
      assert a + b == a;
    }
  }

  lemma {:induction false} SumByInsert<T>(x: T, s: seq<T>, above: (T, T) -> bool, f: T -> int)
    ensures SumBy(InsertBy(x, s, above), f) == SumBy(s, f) + f(x)
  {
    if s == [] || !above(s[0], x) {
      SumByAppend([x], s, f);
    } else {
      SumByInsert(x, s[1..], above, f);
      SumByAppend([s[0]], InsertBy(x, s[1..], above), f);
      SumByAppend([s[0]], s[1..], f);
      assert s == [s[0]] + s[1..];
    }
  }

  /** Sorting does not change a sum over the elements. */
  lemma {:induction false} SumBySort<T>(s: seq<T>, above: (T, T) -> bool, f: T -> int)
    ensures SumBy(SortBy(s, above), f) == SumBy(s, f)
  {
    if s != [] {
      SumBySort(s[..|s| - 1], above, f);
      SumByInsert(s[|s| - 1], SortBy(s[..|s| - 1], above), above, f);
    }
  }

  /** The filter `key(x) == k`. */
  function KeyIs<T, K(==)>(key: T -> K, k: K): T -> bool {
    (x: T) => key(x) == k
  }

  /** How often `v` occurs in `s`. */
  function Occurrences<K(==)>(s: seq<K>, v: K): nat {
    if s == [] then 0 else Occurrences(s[..|s| - 1], v) + (if s[|s| - 1] == v then 1 else 0)
  }

  lemma {:induction false} OccursOnce<K>(s: seq<K>, v: K)
    requires NoDuplicates(s)
    ensures Occurrences(s, v) == if v in s then 1 else 0
  {
    if s != [] {
      var init := s[..|s| - 1];
      assert NoDuplicates(init) by {
        forall i, j | 0 <= i < j < |init| ensures init[i] != init[j] {
          assert init[i] == s[i] && init[j] == s[j];
        }
      }
      OccursOnce(init, v);
      assert s == init + [s[|s| - 1]];
      if v == s[|s| - 1] {
        forall i | 0 <= i < |init| ensures init[i] != v {
          assert init[i] == s[i];
        }
      }
    }
  }

  /** The sizes of the groups of `s` under `key` for the keys `keys`, added up. */
  function GroupSizes<T, K(==)>(s: seq<T>, key: T -> K, keys: seq<K>): nat {
    if keys == [] then 0
    else GroupSizes(s, key, keys[..|keys| - 1]) + Count(s, KeyIs(key, keys[|keys| - 1]))
  }

  lemma {:induction false} GroupSizesEmpty<T, K>(key: T -> K, keys: seq<K>)
    ensures GroupSizes([], key, keys) == 0
  {
    if keys != [] {
      GroupSizesEmpty(key, keys[..|keys| - 1]);
    }
  }

  lemma {:induction false} GroupSizesSnoc<T, K>(s: seq<T>, x: T, key: T -> K, keys: seq<K>)
    ensures GroupSizes(s + [x], key, keys) == GroupSizes(s, key, keys) + Occurrences(keys, key(x))
  {
    if keys != [] {
      GroupSizesSnoc(s, x, key, keys[..|keys| - 1]);
      assert (s + [x])[..|s + [x]| - 1] == s;
    }
  }

  /** Grouping by `key` under distinct keys that cover every element puts
      each element in exactly one group. */
  lemma {:induction false} GroupsPartition<T, K>(s: seq<T>, key: T -> K, keys: seq<K>)
    requires NoDuplicates(keys)
    requires forall x :: x in s ==> key(x) in keys
    ensures GroupSizes(s, key, keys) == |s|
  {
    if s == [] {
      GroupSizesEmpty(key, keys);
    } else {
      var init := s[..|s| - 1];
      assert s == init + [s[|s| - 1]];
      GroupsPartition(init, key, keys);
      GroupSizesSnoc(init, s[|s| - 1], key, keys);
      OccursOnce(keys, key(s[|s| - 1]));
    }
  }

  /** Sorting keeps exactly the elements it is given. */
  lemma SortByMembers<T>(s: seq<T>, above: (T, T) -> bool)
    ensures forall x :: x in SortBy(s, above) <==> x in s
  {
    forall x ensures x in SortBy(s, above) <==> x in s {
      assert x in SortBy(s, above) <==> x in multiset(SortBy(s, above));
    }
  }

  /** `f` applied to every element (`map`). */
  function MapSeq<T, K>(s: seq<T>, f: T -> K): (r: seq<K>)
    ensures |r| == |s|
    ensures forall i :: 0 <= i < |s| ==> r[i] == f(s[i])
  {
    seq(|s|, i requires 0 <= i < |s| => f(s[i]))
  }

  lemma {:induction false} CountWitness<T>(s: seq<T>, p: T -> bool, j: nat)
    requires j < |s| && p(s[j])
    ensures Count(s, p) >= 1
  {
    if j < |s| - 1 {
      CountWitness(s[..|s| - 1], p, j);
    }
  }

  /** A key that some element has names a non-empty group. */
  lemma KeyOccurs<T, K>(s: seq<T>, key: T -> K, k: K)
    requires k in MapSeq(s, key)
    ensures Count(s, KeyIs(key, k)) >= 1
  {
    var j :| 0 <= j < |s| && MapSeq(s, key)[j] == k;
    CountWitness(s, KeyIs(key, k), j);
  }

  lemma KeyOfMember<T, K>(s: seq<T>, key: T -> K, x: T)
    requires x in s
    ensures key(x) in MapSeq(s, key)
  {
    var j :| 0 <= j < |s| && s[j] == x;
    assert MapSeq(s, key)[j] == key(x);
  }

  /** At most the first `n` elements (`$limit`). */
  function Take<T>(s: seq<T>, n: nat): (r: seq<T>)
    ensures |r| == if |s| <= n then |s| else n
    ensures r == s[..|r|]
  {
    if |s| <= n then s else s[..n]
  }

  /** The first `n` elements of an ordered sequence are ordered, and any
      element left out may stand after every element kept. */
  lemma TakeSorted<T>(s: seq<T>, above: (T, T) -> bool, n: nat, x: T)
    requires SortedBy(s, above)
    requires x in s
    ensures SortedBy(Take(s, n), above)
    ensures x in Take(s, n) || (|Take(s, n)| == n && forall y :: y in Take(s, n) ==> above(y, x))
  {
    var r := Take(s, n);
    var k :| 0 <= k < |s| && s[k] == x;
    if k >= |r| {
      forall y | y in r ensures above(y, x) {
        var m :| 0 <= m < |r| && r[m] == y;
        assert s[m] == y;
      }
    } else {
      assert r[k] == x;
    }
  }
}
