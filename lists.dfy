/**
 * The array idioms the pages chain together: `filter`, `slice(0, n)`, and a stable
 * `sort` with a numeric comparator `(a, b) => key(a) - key(b)` (ECMAScript requires
 * `Array.prototype.sort` to be stable).
 */
module Lists {
  import opened Wrappers

  /** `s.filter(p)`. */
  function Filter<T>(s: seq<T>, p: T -> bool): (r: seq<T>)
    ensures |r| <= |s|
    ensures forall i :: 0 <= i < |r| ==> r[i] in s && p(r[i])
    ensures forall i :: 0 <= i < |s| && p(s[i]) ==> s[i] in r
  {
    if s == [] then [] else (if p(s[0]) then [s[0]] else []) + Filter(s[1..], p)
  }

  lemma {:induction false} FilterAppend<T>(a: seq<T>, b: seq<T>, p: T -> bool)
    ensures Filter(a + b, p) == Filter(a, p) + Filter(b, p)
  {
    if a == [] {
      assert a + b == b;
    } else {
      assert (a + b)[1..] == a[1..] + b;
      FilterAppend(a[1..], b, p);
    }
  }

  lemma FilterSnoc<T>(a: seq<T>, x: T, p: T -> bool)
    ensures Filter(a + [x], p) == Filter(a, p) + (if p(x) then [x] else [])
  {
    FilterAppend(a, [x], p);
  }

  /** Filtering keeps the multiset of accepted elements. */
  lemma {:induction false} FilterMultiset<T>(s: seq<T>, p: T -> bool, x: T)
    ensures multiset(Filter(s, p))[x] == if p(x) then multiset(s)[x] else 0
  {
    if s != [] {
      FilterMultiset(s[1..], p, x);
      assert s == [s[0]] + s[1..];
    }
  }

  /** Filtering with a predicate every element meets changes nothing. */
  lemma {:induction false} FilterAll<T>(s: seq<T>, p: T -> bool)
    requires forall i :: 0 <= i < |s| ==> p(s[i])
    ensures Filter(s, p) == s
  {
    if s != [] {
      FilterAll(s[1..], p);
    }
  }

  /** `s.filter(p).length`. */
  function Count<T>(s: seq<T>, p: T -> bool): nat {
    |Filter(s, p)|
  }

  /** The count is the whole length exactly when every element is accepted. */
  lemma {:induction false} CountAll<T>(s: seq<T>, p: T -> bool)
    ensures Count(s, p) == |s| <==> forall i :: 0 <= i < |s| ==> p(s[i])
  {
    if s != [] {
      CountAll(s[1..], p);
      assert forall i :: 1 <= i < |s| ==> s[i] == s[1..][i - 1];
    }
  }

  /** The count is zero exactly when no element is accepted. */
  lemma {:induction false} CountNone<T>(s: seq<T>, p: T -> bool)
    ensures Count(s, p) == 0 <==> forall i :: 0 <= i < |s| ==> !p(s[i])
  {
    if s != [] {
      CountNone(s[1..], p);
      assert forall i :: 1 <= i < |s| ==> s[i] == s[1..][i - 1];
    }
  }

  /** Counting over a concatenation adds the counts of the parts. */
  lemma CountAppend<T>(a: seq<T>, b: seq<T>, p: T -> bool)
    ensures Count(a + b, p) == Count(a, p) + Count(b, p)
  {
    FilterAppend(a, b, p);
  }

  /** `s.slice(0, n)`. */
  function Take<T>(s: seq<T>, n: nat): (r: seq<T>)
    ensures |r| <= n && |r| <= |s|
    ensures |s| <= n ==> r == s
    ensures n <= |s| ==> |r| == n
    ensures r == s[..|r|]
  {
    if |s| <= n then s else s[..n]
  }

  /** Ascending by `key` (for `b - a` comparators the key is negated). */
  ghost predicate SortedBy<T>(s: seq<T>, key: T -> int) {
    forall i, j :: 0 <= i < j < |s| ==> key(s[i]) <= key(s[j])
  }

  /** Insert `x` after the leading elements whose keys are below its own, so before the first key at least its own. */
  function InsertBy<T>(x: T, s: seq<T>, key: T -> int): (r: seq<T>)
    ensures |r| == |s| + 1
    ensures multiset(r) == multiset(s) + multiset{x}
  {
    if s == [] then [x]
    else if key(x) <= key(s[0]) then [x] + s
    else assert s == [s[0]] + s[1..]; [s[0]] + InsertBy(x, s[1..], key)
  }

  /**
   * An insertion sort: `[...s].sort((a, b) => key(a) - key(b))`. Each element is inserted
   * in front of the sorted rest, before the elements of equal key that followed it, so
   * elements of equal key keep their order (`SortByStable`).
   */
  function SortBy<T>(s: seq<T>, key: T -> int): (r: seq<T>)
    ensures |r| == |s|
    ensures multiset(r) == multiset(s)
  {
    if s == [] then []
    else assert s == [s[0]] + s[1..]; InsertBy(s[0], SortBy(s[1..], key), key)
  }

  lemma {:induction false} InsertBySorted<T>(x: T, s: seq<T>, key: T -> int)
    requires SortedBy(s, key)
    ensures SortedBy(InsertBy(x, s, key), key)
  {
    if s != [] && key(x) > key(s[0]) {
      InsertBySorted(x, s[1..], key);
      var r := InsertBy(x, s, key);
      var tail := InsertBy(x, s[1..], key);
      assert r == [s[0]] + tail;
      forall k | 0 <= k < |tail| ensures key(s[0]) <= key(tail[k]) {
        InsertByMember(x, s[1..], key, tail[k]);
        if tail[k] != x {
          SortedHeadLeast(s, key, tail[k]);
        }
      }
      SortedCons(s[0], tail, key);
    }
  }

  /** An element of the insertion's result is the inserted one or came from the list. */
  lemma InsertByMember<T>(x: T, s: seq<T>, key: T -> int, y: T)
    requires y in InsertBy(x, s, key)
    ensures y == x || y in s
  {
    assert y in multiset(InsertBy(x, s, key));
    assert y in multiset(s) + multiset{x};
  }

  /** The head of an ascending list has the least key. */
  lemma SortedHeadLeast<T>(s: seq<T>, key: T -> int, y: T)
    requires SortedBy(s, key) && s != [] && y in s[1..]
    ensures key(s[0]) <= key(y)
  {
    var q :| 0 <= q < |s[1..]| && s[1..][q] == y;
    assert s[q + 1] == y;
  }

  /** An ascending list with an element in front whose key is at most all of its keys. */
  lemma SortedCons<T>(h: T, t: seq<T>, key: T -> int)
    requires SortedBy(t, key)
    requires forall k :: 0 <= k < |t| ==> key(h) <= key(t[k])
    ensures SortedBy([h] + t, key)
  {
    var r := [h] + t;
    forall i, j | 0 <= i < j < |r| ensures key(r[i]) <= key(r[j]) {
      assert r[j] == t[j - 1];
      if i > 0 {
        assert r[i] == t[i - 1];
      }
    }
  }

  /** The sort's result is ascending by key. */
  lemma {:induction false} SortBySorted<T>(s: seq<T>, key: T -> int)
    ensures SortedBy(SortBy(s, key), key)
  {
    if s != [] {
      SortBySorted(s[1..], key);
      InsertBySorted(s[0], SortBy(s[1..], key), key);
    }
  }

  /** The elements whose key is `k`. */
  function HasKey<T>(key: T -> int, k: int): T -> bool {
    (y: T) => key(y) == k
  }

  /** Inserting `x` puts it in front of the elements of its own key and moves no other element past one of equal key. */
  lemma {:induction false} InsertByFilter<T>(x: T, s: seq<T>, key: T -> int, k: int)
    ensures Filter(InsertBy(x, s, key), HasKey(key, k)) == (if key(x) == k then [x] else []) + Filter(s, HasKey(key, k))
  {
    var p := HasKey(key, k);
    var mine := if key(x) == k then [x] else [];
    if s == [] {
      assert InsertBy(x, s, key) == [x];
      FilterCons(x, [], p);
    } else if key(x) <= key(s[0]) {
      assert InsertBy(x, s, key) == [x] + s;
      FilterCons(x, s, p);
    } else {
      InsertByFilter(x, s[1..], key, k);
      var tail := InsertBy(x, s[1..], key);
      assert InsertBy(x, s, key) == [s[0]] + tail;
      FilterCons(s[0], tail, p);
      FilterCons(s[0], s[1..], p);
      assert [s[0]] + s[1..] == s;
      var head := if p(s[0]) then [s[0]] else [];
      if mine == [] {
        assert mine + Filter(s[1..], p) == Filter(s[1..], p);
      } else {
        assert head == [];
        assert head + (mine + Filter(s[1..], p)) == mine + Filter(s[1..], p);
      }
    }
  }

  lemma FilterCons<T>(h: T, t: seq<T>, p: T -> bool)
    ensures Filter([h] + t, p) == (if p(h) then [h] else []) + Filter(t, p)
  {
    var r := [h] + t;
    assert r[0] == h && r[1..] == t;
  }

  /** The sort is stable: the elements of any one key come out in their input order. */
  lemma {:induction false} SortByStable<T>(s: seq<T>, key: T -> int, k: int)
    ensures Filter(SortBy(s, key), HasKey(key, k)) == Filter(s, HasKey(key, k))
  {
    if s != [] {
      SortByStable(s[1..], key, k);
      InsertByFilter(s[0], SortBy(s[1..], key), key, k);
    }
  }

  /** The first `n` of an ascending list have keys at most those of every element left out. */
  lemma TakeSortedLeast<T>(s: seq<T>, n: nat, key: T -> int)
    requires SortedBy(s, key)
    ensures var r := Take(s, n);
      multiset(r) <= multiset(s) &&
      forall x, y :: x in multiset(s) - multiset(r) && y in r ==> key(y) <= key(x)
  {
    var r := Take(s, n);
    var rest := s[|r|..];
    assert s == r + rest;
    assert multiset(s) == multiset(r) + multiset(rest);
    assert multiset(s) - multiset(r) == multiset(rest);
    forall x, y | x in multiset(s) - multiset(r) && y in r ensures key(y) <= key(x) {
      assert x in rest;
      var q :| 0 <= q < |rest| && rest[q] == x;
      var i :| 0 <= i < |r| && r[i] == y;
      assert s[i] == y && s[|r| + q] == x;
    }
  }

  /**
   * `[...s].sort(...).slice(0, n)` keeps the `n` least keys: as many as there are up to
   * `n`, taken from the input, and no element left out has a smaller key than one kept.
   */
  lemma SortByTakeLeast<T>(s: seq<T>, n: nat, key: T -> int)
    ensures var r := Take(SortBy(s, key), n);
      |r| == (if |s| <= n then |s| else n) &&
      SortedBy(r, key) &&
      multiset(r) <= multiset(s) &&
      forall x, y :: x in multiset(s) - multiset(r) && y in r ==> key(y) <= key(x)
  {
    var sorted := SortBy(s, key);
    SortBySorted(s, key);
    TakeSorted(sorted, n, key);
    TakeSortedLeast(sorted, n, key);
  }

  /** Filtering keeps the order of an ascending list. */
  lemma FilterSorted<T>(s: seq<T>, p: T -> bool, key: T -> int)
    requires SortedBy(s, key)
    ensures SortedBy(Filter(s, p), key)
  {
    if s != [] {
      FilterSorted(s[1..], p, key);
      var t := Filter(s[1..], p);
      if p(s[0]) {
        forall k | 0 <= k < |t| ensures key(s[0]) <= key(t[k]) {
          SortedHeadLeast(s, key, t[k]);
        }
        SortedCons(s[0], t, key);
      }
    }
  }

  /** Filtering twice is filtering once by both predicates. */
  lemma {:induction false} FilterFilter<T>(s: seq<T>, p: T -> bool, q: T -> bool, pq: T -> bool)
    requires forall x :: pq(x) == (p(x) && q(x))
    ensures Filter(Filter(s, p), q) == Filter(s, pq)
  {
    if s != [] {
      FilterFilter(s[1..], p, q, pq);
      var t := Filter(s[1..], p);
      if p(s[0]) {
        var w := [s[0]] + t;
        assert Filter(s, p) == w;
        assert w[0] == s[0] && w[1..] == t;
        assert Filter(w, q) == (if q(s[0]) then [s[0]] else []) + Filter(t, q);
      } else {
        assert Filter(s, p) == t;
      }
    }
  }

  /** Every element of the sorted list comes from the input and vice versa. */
  lemma SortByMembers<T>(s: seq<T>, key: T -> int, x: T)
    ensures x in SortBy(s, key) <==> x in s
  {
    assert x in SortBy(s, key) <==> x in multiset(SortBy(s, key));
    assert x in s <==> x in multiset(s);
  }

  /** A prefix of an ascending list is ascending and holds only elements of it. */
  lemma TakeSorted<T>(s: seq<T>, n: nat, key: T -> int)
    requires SortedBy(s, key)
    ensures SortedBy(Take(s, n), key)
    ensures forall i :: 0 <= i < |Take(s, n)| ==> Take(s, n)[i] in s
  {
  }

  /** `s.map(x => matches(x) ? f(x) : x)`: the stores' update-by-id. */
  function MapWhere<T>(s: seq<T>, matches: T -> bool, f: T -> T): (r: seq<T>)
    ensures |r| == |s|
    ensures forall i :: 0 <= i < |s| ==> r[i] == if matches(s[i]) then f(s[i]) else s[i]
  {
    if s == [] then [] else [if matches(s[0]) then f(s[0]) else s[0]] + MapWhere(s[1..], matches, f)
  }

  /** When nothing matches, the update-by-id leaves the list as it was. */
  lemma MapWhereNoMatch<T>(s: seq<T>, matches: T -> bool, f: T -> T)
    requires forall i :: 0 <= i < |s| ==> !matches(s[i])
    ensures MapWhere(s, matches, f) == s
  {
  }

  /** Filters with predicates that agree everywhere give the same list. */
  lemma {:induction false} FilterSame<T>(s: seq<T>, p: T -> bool, q: T -> bool)
    requires forall x :: p(x) == q(x)
    ensures Filter(s, p) == Filter(s, q)
  {
    if s != [] {
      FilterSame(s[1..], p, q);
    }
  }

  /** `s.find(p)`: the first element that satisfies `p`. */
  function FindFirst<T>(s: seq<T>, p: T -> bool): (r: Option<T>)
    ensures r.Some? ==> r.value in s && p(r.value)
    ensures r.None? <==> forall i :: 0 <= i < |s| ==> !p(s[i])
    ensures forall i :: 0 <= i < |s| && p(s[i]) && (forall j :: 0 <= j < i ==> !p(s[j])) ==> r == Some(s[i])
  {
    if s == [] then None
    else if p(s[0]) then Some(s[0])
    else
      var r := FindFirst(s[1..], p);
      assert forall i :: 1 <= i < |s| ==> s[i] == s[1..][i - 1];
      r
  }

  /** Filtering by a predicate and by its complement splits the list's elements between the two. */
  lemma {:induction false} FilterPartition<T>(s: seq<T>, p: T -> bool, q: T -> bool)
    requires forall x :: q(x) == !p(x)
    ensures multiset(Filter(s, p)) + multiset(Filter(s, q)) == multiset(s)
    ensures |Filter(s, p)| + |Filter(s, q)| == |s|
  {
    if s != [] {
      FilterPartition(s[1..], p, q);
      assert s == [s[0]] + s[1..];
    }
  }

  /** Filtering by a stronger predicate picks from the weaker one's result. */
  lemma {:induction false} FilterNarrow<T>(s: seq<T>, p: T -> bool, q: T -> bool)
    requires forall x :: p(x) ==> q(x)
    ensures Filter(Filter(s, q), p) == Filter(s, p)
    ensures |Filter(s, p)| <= |Filter(s, q)|
  {
    if s != [] {
      FilterNarrow(s[1..], p, q);
      var t := Filter(s[1..], q);
      if q(s[0]) {
        var w := [s[0]] + t;
        assert Filter(s, q) == w;
        assert w[0] == s[0] && w[1..] == t;
        assert Filter(w, p) == (if p(s[0]) then [s[0]] else []) + Filter(t, p);
      } else {
        assert Filter(s, q) == t;
      }
    }
  }
}
