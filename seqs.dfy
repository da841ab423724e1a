/**
 * Sequence combinators shared by the pipeline: the `filter`, map-then-filter
 * and `reduce` shapes of the dashboard's array code, with the facts about
 * them that the rest of the model relies on.
 */
module Seqs {
  import opened Wrappers

  /** `a` can be obtained from `b` by deleting elements (order is kept). */
  predicate IsSubsequence<T(==)>(a: seq<T>, b: seq<T>)
    decreases |b|
  {
    if a == [] then true
    else if b == [] then false
    else (a[0] == b[0] && IsSubsequence(a[1..], b[1..])) || IsSubsequence(a, b[1..])
  }

  /** Array.prototype.filter: the elements satisfying `p`, in their original order. */
  function Filter<T(!new)>(s: seq<T>, p: T -> bool): (r: seq<T>)
    ensures |r| <= |s|
    ensures forall x :: x in r <==> x in s && p(x)
  {
    if s == [] then []
    else if p(s[0]) then [s[0]] + Filter(s[1..], p) else Filter(s[1..], p)
  }

  lemma {:induction false} FilterIsSubsequence<T(!new)>(s: seq<T>, p: T -> bool)
    ensures IsSubsequence(Filter(s, p), s)
  {
    if s != [] {
      FilterIsSubsequence(s[1..], p);
      if p(s[0]) {
        assert Filter(s, p)[1..] == Filter(s[1..], p);
      }
    }
  }

  /** Filtering keeps every copy of a passing element and no copy of the others. */
  lemma {:induction false} FilterMultiset<T(!new)>(s: seq<T>, p: T -> bool)
    ensures forall x :: multiset(Filter(s, p))[x] == if p(x) then multiset(s)[x] else 0
  {
    if s != [] {
      FilterMultiset(s[1..], p);
      assert s == [s[0]] + s[1..];
    }
  }

  /** Filtering a list with a given first element. */
  lemma FilterCons<T(!new)>(x: T, s: seq<T>, p: T -> bool)
    ensures Filter([x] + s, p) == (if p(x) then [x] else []) + Filter(s, p)
  {
    assert ([x] + s)[0] == x && ([x] + s)[1..] == s;
  }

  lemma {:induction false} FilterAppend<T(!new)>(a: seq<T>, b: seq<T>, p: T -> bool)
    ensures Filter(a + b, p) == Filter(a, p) + Filter(b, p)
  {
    if a == [] {
      assert a + b == b;
    } else {
      var x, t := a[0], a[1..];
      var h := if p(x) then [x] else [];
      assert a == [x] + t;
      assert a + b == [x] + (t + b);
      calc {
        Filter(a + b, p);
        { FilterCons(x, t + b, p); }
        h + Filter(t + b, p);
        { FilterAppend(t, b, p); }
        h + (Filter(t, p) + Filter(b, p));
        (h + Filter(t, p)) + Filter(b, p);
        { FilterCons(x, t, p); }
        Filter(a, p) + Filter(b, p);
      }
    }
  }

  /** Filtering a sequence extended by one element. */
  lemma FilterSnoc<T(!new)>(s: seq<T>, x: T, p: T -> bool)
    ensures Filter(s + [x], p) == Filter(s, p) + if p(x) then [x] else []
  {
    FilterAppend(s, [x], p);
    FilterCons(x, [], p);
    assert [x] + [] == [x];
  }

  /** A predicate that holds everywhere keeps everything. */
  lemma {:induction false} FilterAll<T(!new)>(s: seq<T>, p: T -> bool)
    requires forall x :: x in s ==> p(x)
    ensures Filter(s, p) == s
  {
    if s != [] {
      FilterAll(s[1..], p);
    }
  }

  /** Filtering by two predicates that agree on `s` gives the same result. */
  lemma {:induction false} FilterAgree<T(!new)>(s: seq<T>, p: T -> bool, q: T -> bool)
    requires forall x :: x in s ==> (p(x) <==> q(x))
    ensures Filter(s, p) == Filter(s, q)
  {
    if s != [] {
      FilterAgree(s[1..], p, q);
    }
  }

  /** `map` followed by `filter` on the non-null results. */
  function FilterMap<A(!new), B(!new)>(s: seq<A>, f: A -> Option<B>): (r: seq<B>)
    ensures |r| <= |s|
    ensures forall y :: y in r ==> exists x :: x in s && f(x) == Some(y)
    ensures forall x :: x in s && f(x).Some? ==> f(x).value in r
  {
    if s == [] then []
    else if f(s[0]).Some? then [f(s[0]).value] + FilterMap(s[1..], f)
    else FilterMap(s[1..], f)
  }

  lemma {:induction false} FilterMapAppend<A(!new), B(!new)>(a: seq<A>, b: seq<A>, f: A -> Option<B>)
    ensures FilterMap(a + b, f) == FilterMap(a, f) + FilterMap(b, f)
  {
    if a == [] {
      assert a + b == b;
    } else {
      var x, t := a[0], a[1..];
      var h := if f(x).Some? then [f(x).value] else [];
      assert a == [x] + t;
      assert a + b == [x] + (t + b);
      calc {
        FilterMap(a + b, f);
        { FilterMapCons(x, t + b, f); }
        h + FilterMap(t + b, f);
        { FilterMapAppend(t, b, f); }
        h + (FilterMap(t, f) + FilterMap(b, f));
        (h + FilterMap(t, f)) + FilterMap(b, f);
        { FilterMapCons(x, t, f); }
        FilterMap(a, f) + FilterMap(b, f);
      }
    }
  }

  lemma FilterMapCons<A(!new), B(!new)>(x: A, s: seq<A>, f: A -> Option<B>)
    ensures FilterMap([x] + s, f) == (if f(x).Some? then [f(x).value] else []) + FilterMap(s, f)
  {
    assert ([x] + s)[0] == x && ([x] + s)[1..] == s;
  }

  /** Array.prototype.reduce((sum, x) => sum + f(x), 0), folded from the left. */
  function Sum<T>(s: seq<T>, f: T -> real): real
  {
    if s == [] then 0.0 else Sum(s[..|s| - 1], f) + f(s[|s| - 1])
  }

  /** Extending a sequence by one element adds that element's value to the sum. */
  lemma SumSnoc<T>(s: seq<T>, x: T, f: T -> real)
    ensures Sum(s + [x], f) == Sum(s, f) + f(x)
  {
    assert (s + [x])[..|s|] == s;
  }

  lemma {:induction false} SumNonNegative<T(!new)>(s: seq<T>, f: T -> real)
    requires forall x :: x in s ==> f(x) >= 0.0
    ensures Sum(s, f) >= 0.0
  {
    if s != [] {
      SumNonNegative(s[..|s| - 1], f);
    }
  }
}
