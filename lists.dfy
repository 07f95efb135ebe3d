/** Array operations the code uses everywhere: `filter`, `length` of a filter,
    `reduce` as a sum, and the "remove if present, append otherwise" toggle. */
module Lists {
  import opened Wrappers

  /** `s.filter(p)`: the elements satisfying `p`, in their original order. */
  function Filter<T>(s: seq<T>, p: T -> bool): (r: seq<T>)
    ensures |r| <= |s|
    ensures forall i :: 0 <= i < |r| ==> p(r[i])
    ensures forall x :: x in r ==> x in s
    decreases |s|
  {
    if s == [] then []
    else (if p(s[0]) then [s[0]] else []) + Filter(s[1..], p)
  }

  /** `a` is obtained from `b` by deleting elements, order kept. */
  ghost predicate IsSubsequence<T>(a: seq<T>, b: seq<T>)
    decreases |b|
  {
    a == [] || (b != [] && ((a[0] == b[0] && IsSubsequence(a[1..], b[1..])) || IsSubsequence(a, b[1..])))
  }

  /** A filter result is an order-preserving subsequence of its input. */
  lemma {:induction false} FilterIsSubsequence<T>(s: seq<T>, p: T -> bool)
    ensures IsSubsequence(Filter(s, p), s)
    decreases |s|
  {
    if s != [] {
      FilterIsSubsequence(s[1..], p);
      var r := Filter(s, p);
      if p(s[0]) {
        assert r == [s[0]] + Filter(s[1..], p);
        assert r[1..] == Filter(s[1..], p);
      } else {
        assert r == Filter(s[1..], p);
      }
    }
  }

  /** Every element of the input that satisfies `p` survives the filter. */
  lemma {:induction false} FilterKeeps<T>(s: seq<T>, p: T -> bool, x: T)
    requires x in s && p(x)
    ensures x in Filter(s, p)
    decreases |s|
  {
    if s[0] != x {
      FilterKeeps(s[1..], p, x);
    }
  }

  /** An element is in the result exactly when it is in the input and satisfies `p`. */
  lemma FilterMembership<T>(s: seq<T>, p: T -> bool, x: T)
    ensures x in Filter(s, p) <==> x in s && p(x)
  {
    if x in s && p(x) {
      FilterKeeps(s, p, x);
    }
    if x in Filter(s, p) {
      var r := Filter(s, p);
      var i :| 0 <= i < |r| && r[i] == x;
    }
  }

  /** A filter that keeps everything is the identity. */
  lemma {:induction false} FilterAll<T>(s: seq<T>, p: T -> bool)
    requires forall i :: 0 <= i < |s| ==> p(s[i])
    ensures Filter(s, p) == s
    decreases |s|
  {
    if s != [] {
      FilterAll(s[1..], p);
      assert [s[0]] + s[1..] == s;
    }
  }

  /** A filter that keeps nothing gives the empty list. */
  lemma {:induction false} FilterNone<T>(s: seq<T>, p: T -> bool)
    requires forall i :: 0 <= i < |s| ==> !p(s[i])
    ensures Filter(s, p) == []
    decreases |s|
  {
    if s != [] {
      FilterNone(s[1..], p);
    }
  }

  /** Two successive filters are one filter with the conjunction of the predicates. */
  lemma {:induction false} FilterFilter<T>(s: seq<T>, p: T -> bool, q: T -> bool, both: T -> bool)
    requires forall x :: both(x) == (p(x) && q(x))
    ensures Filter(Filter(s, p), q) == Filter(s, both)
    decreases |s|
  {
    if s != [] {
      FilterFilter(s[1..], p, q, both);
      assert both(s[0]) == (p(s[0]) && q(s[0]));
      var f := Filter(s, p);
      if p(s[0]) {
        assert f == [s[0]] + Filter(s[1..], p);
        assert f[0] == s[0] && f[1..] == Filter(s[1..], p);
        calc {
          Filter(f, q);
          (if q(s[0]) then [s[0]] else []) + Filter(Filter(s[1..], p), q);
          (if both(s[0]) then [s[0]] else []) + Filter(s[1..], both);
          Filter(s, both);
        }
      } else {
        assert f == Filter(s[1..], p);
        assert Filter(s, both) == Filter(s[1..], both);
      }
    }
  }

  /** Filtering distributes over concatenation. */
  lemma {:induction false} FilterAppend<T>(a: seq<T>, b: seq<T>, p: T -> bool)
    ensures Filter(a + b, p) == Filter(a, p) + Filter(b, p)
    decreases |a|
  {
    if a == [] {
      assert a + b == b;
    } else {
      assert (a + b)[1..] == a[1..] + b;
      FilterAppend(a[1..], b, p);
    }
  }

  /** Filters with pointwise-equal predicates agree. */
  lemma {:induction false} FilterExt<T>(s: seq<T>, p: T -> bool, q: T -> bool)
    requires forall i :: 0 <= i < |s| ==> p(s[i]) == q(s[i])
    ensures Filter(s, p) == Filter(s, q)
    decreases |s|
  {
    if s != [] {
      FilterExt(s[1..], p, q);
    }
  }

  /** `if (cond) s = s.filter(p)`: a filter applied only when its condition holds. */
  function FilterIf<T>(s: seq<T>, cond: bool, p: T -> bool): (r: seq<T>)
    ensures !cond ==> r == s
    ensures cond ==> r == Filter(s, p)
  {
    if cond then Filter(s, p) else s
  }

  /** Two conditional filters in a row are one filter whose predicate ignores the
      filters that are switched off. */
  lemma {:induction false} TwoFiltersOne<T>(s: seq<T>, c1: bool, p: T -> bool, c2: bool, q: T -> bool, keep: T -> bool)
    requires forall x :: keep(x) == ((!c1 || p(x)) && (!c2 || q(x)))
    ensures FilterIf(FilterIf(s, c1, p), c2, q) == Filter(s, keep)
  {
    if c1 && c2 {
      FilterFilter(s, p, q, keep);
    } else if c1 {
      FilterExt(s, p, keep);
    } else if c2 {
      FilterExt(s, q, keep);
    } else {
      FilterAll(s, keep);
    }
  }

  /** What a filter guarantees, in one place: the result is an order-preserving
      subsequence holding exactly the elements that satisfy `p`. */
  lemma FilterSpec<T>(s: seq<T>, p: T -> bool)
    ensures IsSubsequence(Filter(s, p), s)
    ensures forall x :: x in Filter(s, p) <==> x in s && p(x)
  {
    FilterIsSubsequence(s, p);
    forall x ensures x in Filter(s, p) <==> x in s && p(x) {
      FilterMembership(s, p, x);
    }
  }

  /** Filtering by either of two predicates that never hold together keeps as many
      elements as filtering by each and adding. */
  lemma {:induction false} CountDisjointUnion<T>(s: seq<T>, p: T -> bool, q: T -> bool, either: T -> bool)
    requires forall x :: either(x) == (p(x) || q(x))
    requires forall x :: !(p(x) && q(x))
    ensures |Filter(s, either)| == |Filter(s, p)| + |Filter(s, q)|
    decreases |s|
  {
    if s != [] {
      CountDisjointUnion(s[1..], p, q, either);
    }
  }

  /** `s.map(f)`. */
  function Map<A, B>(s: seq<A>, f: A -> B): (r: seq<B>)
    ensures |r| == |s|
    ensures forall i :: 0 <= i < |s| ==> r[i] == f(s[i])
  {
    seq(|s|, i requires 0 <= i < |s| => f(s[i]))
  }

  /** `s.find(p)`: the first element satisfying `p`. */
  function Find<T>(s: seq<T>, p: T -> bool): (r: Option<T>)
    ensures r.Some? <==> exists i :: 0 <= i < |s| && p(s[i])
    ensures r.Some? ==> r.value in s && p(r.value)
    decreases |s|
  {
    if s == [] then None
    else if p(s[0]) then Some(s[0])
    else Find(s[1..], p)
  }

  /** `s.findIndex(p)`, with None for -1. */
  function FindIndex<T>(s: seq<T>, p: T -> bool): (r: Option<nat>)
    ensures r.Some? <==> exists i :: 0 <= i < |s| && p(s[i])
    ensures r.Some? ==> r.value < |s| && p(s[r.value]) && forall j :: 0 <= j < r.value ==> !p(s[j])
    decreases |s|
  {
    if s == [] then None
    else if p(s[0]) then Some(0)
    else match FindIndex(s[1..], p)
      case None => None
      case Some(i) => Some(i + 1)
  }

  /** `find` returns the element at `findIndex`. */
  lemma {:induction false} FindAtFindIndex<T>(s: seq<T>, p: T -> bool)
    ensures Find(s, p).Some? == FindIndex(s, p).Some?
    ensures FindIndex(s, p).Some? ==> Find(s, p).value == s[FindIndex(s, p).value]
    decreases |s|
  {
    if s != [] && !p(s[0]) {
      FindAtFindIndex(s[1..], p);
    }
  }

  /** `s.filter(p).length`. */
  function Count<T>(s: seq<T>, p: T -> bool): (n: nat)
    ensures n <= |s|
  {
    |Filter(s, p)|
  }

  /** `s.reduce((acc, x) => acc + f(x), 0)`. */
  function Sum<T>(s: seq<T>, f: T -> int): int
    decreases |s|
  {
    if s == [] then 0 else Sum(s[..|s| - 1], f) + f(s[|s| - 1])
  }

  /** Sums are monotone in the summand. */
  lemma {:induction false} SumMonotone<T>(s: seq<T>, f: T -> int, g: T -> int)
    requires forall i :: 0 <= i < |s| ==> f(s[i]) <= g(s[i])
    ensures Sum(s, f) <= Sum(s, g)
    decreases |s|
  {
    if s != [] {
      SumMonotone(s[..|s| - 1], f, g);
    }
  }

  /** A sum of non-negative terms is non-negative. */
  lemma {:induction false} SumNonNegative<T>(s: seq<T>, f: T -> int)
    requires forall i :: 0 <= i < |s| ==> f(s[i]) >= 0
    ensures Sum(s, f) >= 0
    decreases |s|
  {
    if s != [] {
      SumNonNegative(s[..|s| - 1], f);
    }
  }

  /** Remove every occurrence of `v` when present, otherwise append it. */
  function Toggle<T(==,!new)>(xs: seq<T>, v: T): (r: seq<T>)
    ensures v in r <==> v !in xs
    ensures forall y :: y != v ==> (y in r <==> y in xs)
  {
    if v in xs then
      var r := Filter(xs, Without(v));
      forall y ensures y in r <==> y in xs && y != v { FilterMembership(xs, Without(v), y); }
      r
    else xs + [v]
  }

  /** `y => y !== v`. */
  function Without<T(==)>(v: T): T -> bool {
    (y: T) => y != v
  }

  /** Toggling twice restores membership of every value. */
  lemma ToggleTwice<T(!new)>(xs: seq<T>, v: T)
    ensures forall y :: y in Toggle(Toggle(xs, v), v) <==> y in xs
  {
  }

  /** Toggling an absent value and then toggling it again restores the list exactly. */
  lemma {:induction false} ToggleAbsentTwice<T(!new)>(xs: seq<T>, v: T)
    requires v !in xs
    ensures Toggle(Toggle(xs, v), v) == xs
  {
    assert Toggle(xs, v) == xs + [v];
    FilterAppend(xs, [v], Without(v));
    FilterAll(xs, Without(v));
    assert Filter([v], Without(v)) == [];
  }
}
