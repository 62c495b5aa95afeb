/** Generic folds over sequences: the `reduce`, `filter`, `find`, `sort`
    and `slice` calls the ledger handlers make on query results. */
module Folds {

  /** Sum of `f` over `s`, folded from the left as `Array.prototype.reduce`
      and a `for ... of` accumulator do. */
  function Sum<T>(s: seq<T>, f: T -> real): real
    decreases |s|
  {
    if s == [] then 0.0 else Sum(s[..|s| - 1], f) + f(s[|s| - 1])
  }

  lemma {:induction false} SumAppend<T>(a: seq<T>, b: seq<T>, f: T -> real)
    ensures Sum(a + b, f) == Sum(a, f) + Sum(b, f)
    decreases |b|
  {
    if b == [] {
      assert a + b == a;
    } else {
      var b' := b[..|b| - 1];
      assert (a + b)[..|a + b| - 1] == a + b';
      SumAppend(a, b', f);
    }
  }

  lemma {:induction false} SumPointwise<T>(s: seq<T>, f: T -> real, g: T -> real)
    requires forall x :: x in s ==> f(x) == g(x)
    ensures Sum(s, f) == Sum(s, g)
    decreases |s|
  {
    if s != [] {
      SumPointwise(s[..|s| - 1], f, g);
    }
  }

  lemma {:induction false} SumAdd<T>(s: seq<T>, f: T -> real, g: T -> real, h: T -> real)
    requires forall x :: x in s ==> h(x) == f(x) + g(x)
    ensures Sum(s, h) == Sum(s, f) + Sum(s, g)
    decreases |s|
  {
    if s != [] {
      SumAdd(s[..|s| - 1], f, g, h);
    }
  }

  lemma {:induction false} SumNeg<T>(s: seq<T>, f: T -> real, g: T -> real)
    requires forall x :: x in s ==> g(x) == -f(x)
    ensures Sum(s, g) == -Sum(s, f)
    decreases |s|
  {
    if s != [] {
      SumNeg(s[..|s| - 1], f, g);
    }
  }

  lemma {:induction false} SumZero<T>(s: seq<T>, f: T -> real)
    requires forall x :: x in s ==> f(x) == 0.0
    ensures Sum(s, f) == 0.0
    decreases |s|
  {
    if s != [] {
      SumZero(s[..|s| - 1], f);
    }
  }

  lemma {:induction false} SumNonNegative<T>(s: seq<T>, f: T -> real)
    requires forall x :: x in s ==> f(x) >= 0.0
    ensures Sum(s, f) >= 0.0
    decreases |s|
  {
    if s != [] {
      SumNonNegative(s[..|s| - 1], f);
    }
  }

  /** Only the element at index `k` contributes. */
  lemma {:induction false} SumSingle<T>(s: seq<T>, f: T -> real, k: nat)
    requires k < |s|
    requires forall j :: 0 <= j < |s| && j != k ==> f(s[j]) == 0.0
    ensures Sum(s, f) == f(s[k])
    decreases |s|
  {
    var s' := s[..|s| - 1];
    if k == |s| - 1 {
      SumZero(s', f);
    } else {
      SumSingle(s', f, k);
    }
  }

  /** `Sum` commutes with itself: a table summed by rows or by columns. */
  function Row<A, B>(ys: seq<B>, f: A -> B -> real): A -> real
  {
    a => Sum(ys, f(a))
  }

  function Flip<A, B>(f: A -> B -> real): B -> A -> real
  {
    b => a => f(a)(b)
  }

  lemma {:induction false} SumSwap<A, B>(xs: seq<A>, ys: seq<B>, f: A -> B -> real)
    ensures Sum(xs, Row(ys, f)) == Sum(ys, Row(xs, Flip(f)))
    decreases |xs|
  {
    if xs == [] {
      SumZero(ys, Row(xs, Flip(f)));
    } else {
      var xs' := xs[..|xs| - 1];
      var a := xs[|xs| - 1];
      SumSwap(xs', ys, f);
      forall b | b in ys
        ensures Row(xs, Flip(f))(b) == Row(xs', Flip(f))(b) + f(a)(b)
      {
      }
      SumAdd(ys, Row(xs', Flip(f)), f(a), Row(xs, Flip(f)));
    }
  }

  /** `Array.prototype.filter`, keeping order. */
  function Filter<T>(s: seq<T>, p: T -> bool): (r: seq<T>)
    ensures |r| <= |s|
    ensures forall i :: 0 <= i < |r| ==> p(r[i])
    decreases |s|
  {
    if s == [] then []
    else Filter(s[..|s| - 1], p) + (if p(s[|s| - 1]) then [s[|s| - 1]] else [])
  }

  /** How often `x` occurs in the filtered sequence: as often as in `s`
      when it passes the test, never otherwise. */
  lemma {:induction false} FilterCount<T>(s: seq<T>, p: T -> bool, x: T)
    ensures multiset(Filter(s, p))[x] == if p(x) then multiset(s)[x] else 0
    decreases |s|
  {
    if s != [] {
      var s' := s[..|s| - 1];
      FilterCount(s', p, x);
      assert s == s' + [s[|s| - 1]];
    }
  }

  /** `s` read back to front. */
  function Reverse<T>(s: seq<T>): (r: seq<T>)
    ensures |r| == |s|
    ensures forall i :: 0 <= i < |s| ==> r[i] == s[|s| - 1 - i]
    decreases |s|
  {
    if s == [] then [] else [s[|s| - 1]] + Reverse(s[..|s| - 1])
  }

  lemma {:induction false} ReverseMultiset<T>(s: seq<T>)
    ensures multiset(Reverse(s)) == multiset(s)
    decreases |s|
  {
    if s != [] {
      ReverseMultiset(s[..|s| - 1]);
      assert s == s[..|s| - 1] + [s[|s| - 1]];
    }
  }

  lemma {:induction false} FilterMembers<T>(s: seq<T>, p: T -> bool, x: T)
    ensures x in Filter(s, p) <==> x in s && p(x)
    decreases |s|
  {
    if s != [] {
      FilterMembers(s[..|s| - 1], p, x);
      assert s == s[..|s| - 1] + [s[|s| - 1]];
    }
  }

  lemma {:induction false} SumFilter<T>(s: seq<T>, p: T -> bool, f: T -> real, g: T -> real)
    requires forall x :: x in s ==> g(x) == (if p(x) then f(x) else 0.0)
    ensures Sum(Filter(s, p), f) == Sum(s, g)
    decreases |s|
  {
    if s != [] {
      var s' := s[..|s| - 1];
      var x := s[|s| - 1];
      SumFilter(s', p, f, g);
      SumAppend(Filter(s', p), if p(x) then [x] else [], f);
      if p(x) {
        assert Sum([x], f) == Sum([], f) + f(x);
      }
    }
  }

  lemma {:induction false} FilterAppend<T>(a: seq<T>, b: seq<T>, p: T -> bool)
    ensures Filter(a + b, p) == Filter(a, p) + Filter(b, p)
    decreases |b|
  {
    if b == [] {
      assert a + b == a;
    } else {
      var b' := b[..|b| - 1];
      assert (a + b)[..|a + b| - 1] == a + b';
      FilterAppend(a, b', p);
    }
  }

  lemma {:induction false} FilterAll<T>(s: seq<T>, p: T -> bool)
    requires forall i :: 0 <= i < |s| ==> p(s[i])
    ensures Filter(s, p) == s
    decreases |s|
  {
    if s != [] {
      FilterAll(s[..|s| - 1], p);
      assert s[..|s| - 1] + [s[|s| - 1]] == s;
    }
  }

  lemma {:induction false} FilterFilter<T>(s: seq<T>, p: T -> bool, q: T -> bool, pq: T -> bool)
    requires forall x :: x in s ==> pq(x) == (p(x) && q(x))
    ensures Filter(Filter(s, p), q) == Filter(s, pq)
    decreases |s|
  {
    if s != [] {
      var s' := s[..|s| - 1];
      var x := s[|s| - 1];
      FilterFilter(s', p, q, pq);
      FilterAppend(Filter(s', p), if p(x) then [x] else [], q);
      if p(x) {
        assert Filter([x], q) == Filter([], q) + (if q(x) then [x] else []);
      }
    }
  }

  /** Two disjoint filters of one sequence together select what their
      disjunction selects. */
  lemma {:induction false} FilterUnion<T>(s: seq<T>, p: T -> bool, q: T -> bool, pq: T -> bool)
    requires forall x :: x in s ==> !(p(x) && q(x)) && pq(x) == (p(x) || q(x))
    ensures multiset(Filter(s, p) + Filter(s, q)) == multiset(Filter(s, pq))
    decreases |s|
  {
    if s != [] {
      var s' := s[..|s| - 1];
      var x := s[|s| - 1];
      FilterUnion(s', p, q, pq);
      assert x in s;
      var ps, qs, pqs := Filter(s', p), Filter(s', q), Filter(s', pq);
      assert multiset(Filter(s, p) + Filter(s, q))
          == multiset(ps + qs) + multiset(if p(x) then [x] else []) + multiset(if q(x) then [x] else []);
    }
  }

  /** Index of the first element satisfying `p`, or |s| when there is none
      (`Array.prototype.find` returns the element at that index or undefined). */
  function FirstIndex<T>(s: seq<T>, p: T -> bool): (k: nat)
    ensures k <= |s|
    ensures forall j :: 0 <= j < k ==> !p(s[j])
    ensures k < |s| ==> p(s[k])
    decreases |s|
  {
    if s == [] then 0
    else if p(s[0]) then 0
    else 1 + FirstIndex(s[1..], p)
  }

  /** `s[..n]` clamped, as `Array.prototype.slice(0, n)` and `take(n)` do. */
  function Take<T>(s: seq<T>, n: nat): (r: seq<T>)
    ensures |r| <= n && |r| <= |s|
    ensures |s| <= n ==> r == s
    ensures |s| >= n ==> |r| == n
    ensures r == s[..|r|]
  {
    if |s| <= n then s else s[..n]
  }

  /** `a` is obtained from `b` by deleting elements, without reordering. */
  predicate IsSubsequence<T(==)>(a: seq<T>, b: seq<T>)
    decreases |b|
  {
    if a == [] then true
    else if b == [] then false
    else if a[|a| - 1] == b[|b| - 1] then IsSubsequence(a[..|a| - 1], b[..|b| - 1])
    else IsSubsequence(a, b[..|b| - 1])
  }

  lemma {:induction false} FilterIsSubsequence<T>(s: seq<T>, p: T -> bool)
    ensures IsSubsequence(Filter(s, p), s)
    decreases |s|
  {
    if s != [] {
      var s' := s[..|s| - 1];
      FilterIsSubsequence(s', p);
      if !p(s[|s| - 1]) {
        assert Filter(s, p) == Filter(s', p);
        SubsequenceExtend(Filter(s', p), s', s[|s| - 1]);
      } else {
        assert Filter(s, p)[..|Filter(s, p)| - 1] == Filter(s', p);
      }
    }
  }

  lemma {:induction false} SubsequenceExtend<T>(a: seq<T>, b: seq<T>, x: T)
    requires IsSubsequence(a, b)
    ensures IsSubsequence(a, b + [x])
    decreases |b|, 1
  {
    if a != [] {
      assert (b + [x])[..|b|] == b;
      if a[|a| - 1] == x {
        SubsequencePrefix(a, b);
      }
    }
  }

  lemma {:induction false} SubsequencePrefix<T>(a: seq<T>, b: seq<T>)
    requires a != []
    requires IsSubsequence(a, b)
    ensures IsSubsequence(a[..|a| - 1], b)
    decreases |b|, 0
  {
    var a' := a[..|a| - 1];
    var b' := b[..|b| - 1];
    if a[|a| - 1] == b[|b| - 1] {
      if a' != [] {
        assert a'[|a'| - 1] != b[|b| - 1] || a'[|a'| - 1] == b[|b| - 1];
        SubsequenceExtend(a', b', b[|b| - 1]);
        assert b' + [b[|b| - 1]] == b;
      }
    } else {
      SubsequencePrefix(a, b');
      if a' != [] {
        SubsequenceExtend(a', b', b[|b| - 1]);
        assert b' + [b[|b| - 1]] == b;
      }
    }
  }

  lemma {:induction false} SubsequenceOfPrefix<T>(a: seq<T>, b: seq<T>, n: nat)
    requires n <= |a|
    requires IsSubsequence(a, b)
    ensures IsSubsequence(a[..n], b)
    decreases |a| - n
  {
    if n < |a| {
      SubsequencePrefix(a, b);
      assert a[..|a| - 1][..n] == a[..n];
      SubsequenceOfPrefix(a[..|a| - 1], b, n);
    } else {
      assert a[..n] == a;
    }
  }

  /** Descending order by `key` (`list.sort((a, b) => key(b) - key(a))`). */
  predicate SortedDesc<T>(s: seq<T>, key: T -> real)
  {
    forall i, j :: 0 <= i < j < |s| ==> key(s[i]) >= key(s[j])
  }

  lemma {:induction false} FilterSorted<T>(s: seq<T>, p: T -> bool, key: T -> real)
    requires SortedDesc(s, key)
    ensures SortedDesc(Filter(s, p), key)
    decreases |s|
  {
    if s != [] {
      var s' := s[..|s| - 1];
      var x := s[|s| - 1];
      FilterSorted(s', p, key);
      if p(x) {
        var f := Filter(s', p);
        forall y | y in f ensures key(y) >= key(x) {
          FilterMembers(s', p, y);
          var k :| 0 <= k < |s'| && s'[k] == y;
          assert s[k] == y;
        }
        var r := f + [x];
        forall i, j | 0 <= i < j < |r| ensures key(r[i]) >= key(r[j]) {
          if j == |r| - 1 {
            assert r[i] in f;
          } else {
            assert r[i] == f[i] && r[j] == f[j];
          }
        }
      }
    }
  }

  /** Inserts `x` before the first element whose key is not larger,
      so equal keys keep their original order. */
  function Insert<T(==)>(x: T, s: seq<T>, key: T -> real): (r: seq<T>)
    ensures multiset(r) == multiset(s) + multiset{x}
    decreases |s|
  {
    if s == [] then [x]
    else if key(s[0]) <= key(x) then [x] + s
    else
      var rest := Insert(x, s[1..], key);
      assert s == [s[0]] + s[1..];
      [s[0]] + rest
  }

  lemma {:induction false} InsertMembers<T>(x: T, s: seq<T>, key: T -> real, y: T)
    ensures y in Insert(x, s, key) <==> y == x || y in s
  {
    assert y in Insert(x, s, key) <==> y in multiset(Insert(x, s, key));
    assert y in s <==> y in multiset(s);
  }

  /** In a sorted sequence no later element has a larger key than the first. */
  lemma SortedHead<T>(s: seq<T>, key: T -> real, y: T)
    requires SortedDesc(s, key) && s != [] && y in s[1..]
    ensures key(y) <= key(s[0])
  {
    var k :| 0 <= k < |s[1..]| && s[1..][k] == y;
    assert s[k + 1] == y;
  }

  lemma {:induction false} InsertSorted<T>(x: T, s: seq<T>, key: T -> real)
    requires SortedDesc(s, key)
    ensures SortedDesc(Insert(x, s, key), key)
    decreases |s|
  {
    if s != [] && key(s[0]) > key(x) {
      var rest := Insert(x, s[1..], key);
      var r := [s[0]] + rest;
      assert Insert(x, s, key) == r;
      assert SortedDesc(s[1..], key);
      InsertSorted(x, s[1..], key);
      forall j | 0 < j < |r| ensures key(r[0]) >= key(r[j]) {
        assert r[j] == rest[j - 1];
        InsertMembers(x, s[1..], key, r[j]);
        if r[j] != x {
          SortedHead(s, key, r[j]);
        }
      }
      forall i, j | 0 < i < j < |r| ensures key(r[i]) >= key(r[j]) {
        assert r[i] == rest[i - 1] && r[j] == rest[j - 1];
      }
    }
  }

  /** The library's stable sort, by descending key. */
  function SortDesc<T(==)>(s: seq<T>, key: T -> real): (r: seq<T>)
    ensures multiset(r) == multiset(s)
    ensures |r| == |s|
    ensures SortedDesc(r, key)
    decreases |s|
  {
    if s == [] then []
    else
      assert s == [s[0]] + s[1..];
      InsertSorted(s[0], SortDesc(s[1..], key), key);
      Insert(s[0], SortDesc(s[1..], key), key)
  }

  lemma {:induction false} SumInsert<T>(x: T, s: seq<T>, key: T -> real, f: T -> real)
    ensures Sum(Insert(x, s, key), f) == f(x) + Sum(s, f)
    decreases |s|
  {
    if s == [] {
      assert Sum([x], f) == Sum([], f) + f(x);
    } else if key(s[0]) <= key(x) {
      SumAppend([x], s, f);
      assert Sum([x], f) == Sum([], f) + f(x);
    } else {
      SumInsert(x, s[1..], key, f);
      SumAppend([s[0]], Insert(x, s[1..], key), f);
      SumAppend([s[0]], s[1..], f);
      assert [s[0]] + s[1..] == s;
      assert Sum([s[0]], f) == Sum([], f) + f(s[0]);
    }
  }

  lemma {:induction false} SumSortDesc<T>(s: seq<T>, key: T -> real, f: T -> real)
    ensures Sum(SortDesc(s, key), f) == Sum(s, f)
    decreases |s|
  {
    if s != [] {
      SumSortDesc(s[1..], key, f);
      SumInsert(s[0], SortDesc(s[1..], key), key, f);
      SumAppend([s[0]], s[1..], f);
      assert [s[0]] + s[1..] == s;
      assert Sum([s[0]], f) == Sum([], f) + f(s[0]);
    }
  }

  predicate DistinctBy<T, K(==)>(s: seq<T>, id: T -> K)
  {
    forall i, j :: 0 <= i < j < |s| ==> id(s[i]) != id(s[j])
  }

  lemma {:induction false} InsertDistinct<T, K>(x: T, s: seq<T>, key: T -> real, id: T -> K)
    requires DistinctBy(s, id)
    requires forall y :: y in s ==> id(y) != id(x)
    ensures DistinctBy(Insert(x, s, key), id)
    decreases |s|
  {
    if s != [] && key(s[0]) > key(x) {
      InsertDistinct(x, s[1..], key, id);
      var rest := Insert(x, s[1..], key);
      forall y | y in rest ensures id(y) != id(s[0]) {
        InsertMembers(x, s[1..], key, y);
        if y != x {
          var k :| 0 <= k < |s[1..]| && s[1..][k] == y;
          assert s[k + 1] == y;
        }
      }
      var r := [s[0]] + rest;
      forall i, j | 0 <= i < j < |r| ensures id(r[i]) != id(r[j]) {
        if i == 0 {
          assert r[j] in rest;
        } else {
          assert r[i] == rest[i - 1] && r[j] == rest[j - 1];
        }
      }
    }
  }

  lemma {:induction false} SortDistinct<T, K>(s: seq<T>, key: T -> real, id: T -> K)
    requires DistinctBy(s, id)
    ensures DistinctBy(SortDesc(s, key), id)
    decreases |s|
  {
    if s != [] {
      assert DistinctBy(s[1..], id) by {
        forall i, j | 0 <= i < j < |s[1..]| ensures id(s[1..][i]) != id(s[1..][j]) {
          assert s[1..][i] == s[i + 1] && s[1..][j] == s[j + 1];
        }
      }
      SortDistinct(s[1..], key, id);
      var t := SortDesc(s[1..], key);
      forall y | y in t ensures id(y) != id(s[0]) {
        assert y in multiset(s[1..]);
        var k :| 0 <= k < |s[1..]| && s[1..][k] == y;
        assert s[k + 1] == y;
      }
      InsertDistinct(s[0], t, key, id);
    }
  }

  /** First occurrences of `s`, in order: the keys of a JavaScript object
      after assigning each element of `s` as a key. */
  function Dedup<T(==)>(s: seq<T>): (r: seq<T>)
    ensures forall i, j :: 0 <= i < j < |r| ==> r[i] != r[j]
    ensures forall i :: 0 <= i < |r| ==> r[i] in s
    decreases |s|
  {
    if s == [] then []
    else
      var prefix := Dedup(s[..|s| - 1]);
      if s[|s| - 1] in prefix then prefix else prefix + [s[|s| - 1]]
  }

  lemma {:induction false} DedupMembers<T>(s: seq<T>, x: T)
    ensures x in Dedup(s) <==> x in s
    decreases |s|
  {
    if s != [] {
      DedupMembers(s[..|s| - 1], x);
      assert s == s[..|s| - 1] + [s[|s| - 1]];
    }
  }
}
