/**
 * Sorting by the dashboard's comparator: values compared with `<` and `>`
 * (numbers by value, strings character by character), ascending or
 * descending. The runtime's `Array.prototype.sort`, which is stable, is
 * modelled by an in-place insertion sort driven by that comparator.
 */
module Sorting {
  import opened Seqs

  /** A sort key as the comparator sees it. */
  datatype SortValue = Number(x: real) | Text(s: string) | Absent

  datatype Direction = Asc | Desc

  /** JavaScript `<` on two strings: lexicographic by character. */
  predicate LexLess(a: string, b: string)
  {
    if b == [] then false
    else if a == [] then true
    else if a[0] != b[0] then a[0] < b[0]
    else LexLess(a[1..], b[1..])
  }

  lemma {:induction false} LexLessIrreflexive(a: string)
    ensures !LexLess(a, a)
  {
    if a != [] {
      LexLessIrreflexive(a[1..]);
    }
  }

  lemma {:induction false} LexLessTransitive(a: string, b: string, c: string)
    requires LexLess(a, b) && LexLess(b, c)
    ensures LexLess(a, c)
  {
    if a != [] && a[0] == b[0] && b[0] == c[0] {
      LexLessTransitive(a[1..], b[1..], c[1..]);
    }
  }

  lemma {:induction false} LexLessTotal(a: string, b: string)
    ensures a == b || LexLess(a, b) || LexLess(b, a)
  {
    if a != [] && b != [] && a[0] == b[0] {
      LexLessTotal(a[1..], b[1..]);
      if a[1..] == b[1..] {
        assert a == [a[0]] + a[1..] && b == [b[0]] + b[1..];
      }
    }
  }

  /** `valA < valB`; values of different kinds are never less than each other. */
  predicate Less(u: SortValue, v: SortValue)
  {
    match (u, v)
    case (Number(x), Number(y)) => x < y
    case (Text(a), Text(b)) => LexLess(a, b)
    case _ => false
  }

  predicate SameKind(u: SortValue, v: SortValue)
  {
    u.Number? == v.Number? && u.Text? == v.Text?
  }

  /** Every record yields a key of the same kind (one column is sorted at a time). */
  ghost predicate UniformKey<T(!new)>(key: T -> SortValue)
  {
    forall x, y :: SameKind(key(x), key(y))
  }

  /** The comparator puts `u` strictly before `v`. */
  predicate Before(u: SortValue, v: SortValue, dir: Direction)
  {
    if dir == Asc then Less(u, v) else Less(v, u)
  }

  /**
   * The comparator: -1 when `u < v`, 1 when `u > v`, each negated for a
   * descending sort, and 0 otherwise.
   */
  function Compare(u: SortValue, v: SortValue, dir: Direction): (r: int)
    ensures r < 0 <==> Before(u, v, dir)
    ensures r > 0 <==> Before(v, u, dir)
  {
    if Less(u, v) then
      LessAsymmetric(u, v);
      if dir == Asc then -1 else 1
    else if Less(v, u) then (if dir == Asc then 1 else -1)
    else 0
  }

  lemma LessAsymmetric(u: SortValue, v: SortValue)
    requires Less(u, v)
    ensures !Less(v, u)
  {
    if u.Text? && v.Text? && LexLess(v.s, u.s) {
      LexLessTransitive(u.s, v.s, u.s);
      LexLessIrreflexive(u.s);
    }
  }

  /** Not-before is transitive among keys of one kind, so sorted runs can be extended. */
  lemma NotBeforeTransitive(u: SortValue, v: SortValue, w: SortValue, dir: Direction)
    requires SameKind(u, v) && SameKind(v, w)
    requires !Before(u, v, dir) && !Before(v, w, dir)
    ensures !Before(u, w, dir)
  {
    if u.Text? {
      var (a, b, c) := if dir == Asc then (u.s, v.s, w.s) else (w.s, v.s, u.s);
      assert !LexLess(a, b) && !LexLess(b, c);
      LexLessTotal(a, b);
      if LexLess(a, c) {
        if LexLess(b, a) {
          LexLessTransitive(b, a, c);
        }
      }
    }
  }

  /** No later element is ordered strictly before an earlier one. */
  predicate SortedBy<T>(s: seq<T>, key: T -> SortValue, dir: Direction)
  {
    forall i, j :: 0 <= i < j < |s| ==> !Before(key(s[j]), key(s[i]), dir)
  }

  /** The records that the comparator ties with key `v`: those whose key is `v`. */
  function HasKey<T>(key: T -> SortValue, v: SortValue): T -> bool
  {
    x => key(x) == v
  }

  /** The records of `s` whose key is `v`, in their order in `s`. */
  function Run<T(!new)>(s: seq<T>, key: T -> SortValue, v: SortValue): seq<T>
  {
    Filter(s, HasKey(key, v))
  }

  /** Stability: records with equal keys appear in `r` in the same relative order as in `s`. */
  ghost predicate KeepsTies<T(!new)>(r: seq<T>, s: seq<T>, key: T -> SortValue)
  {
    forall v :: Run(r, key, v) == Run(s, key, v)
  }

  /** Among keys of one kind the comparator returns 0 exactly for equal keys, so ties are runs of one key. */
  lemma TieIffEqualKey(u: SortValue, v: SortValue, dir: Direction)
    requires SameKind(u, v)
    ensures Compare(u, v, dir) == 0 <==> u == v
  {
    if u.Text? {
      LexLessTotal(u.s, v.s);
      LexLessIrreflexive(u.s);
      if LexLess(u.s, v.s) {
        LessAsymmetric(u, v);
      }
    }
  }

  lemma BeforeIrreflexive(u: SortValue, dir: Direction)
    ensures !Before(u, u, dir)
  {
    if u.Text? {
      LexLessIrreflexive(u.s);
    }
  }

  /** A two-element list, filtered. */
  lemma FilterPair<T(!new)>(x: T, y: T, p: T -> bool)
    ensures Filter([x, y], p) == (if p(x) then [x] else []) + (if p(y) then [y] else [])
  {
    assert [x, y] == [x] + [y];
    FilterCons(x, [y], p);
    FilterCons(y, [], p);
    assert [y] + [] == [y];
  }

  /** Exchanging two neighbours of which at most one passes `p` leaves the filtered list unchanged. */
  lemma SwapKeepsRun<T(!new)>(pre: seq<T>, x: T, y: T, post: seq<T>, p: T -> bool)
    requires !(p(x) && p(y))
    ensures Filter(pre + [y, x] + post, p) == Filter(pre + [x, y] + post, p)
  {
    FilterAppend(pre + [x, y], post, p);
    FilterAppend(pre, [x, y], p);
    FilterAppend(pre + [y, x], post, p);
    FilterAppend(pre, [y, x], p);
    FilterPair(x, y, p);
    FilterPair(y, x, p);
  }

  /** Exchanging two neighbours with different keys keeps every run of equal keys in order. */
  lemma SwapKeepsTies<T(!new)>(before: seq<T>, after: seq<T>, j: int, key: T -> SortValue)
    requires 0 < j < |before| == |after|
    requires after[j - 1] == before[j] && after[j] == before[j - 1]
    requires forall k :: 0 <= k < |after| && k != j - 1 && k != j ==> after[k] == before[k]
    requires key(before[j - 1]) != key(before[j])
    ensures KeepsTies(after, before, key)
  {
    var pre, x, y, post := before[..j - 1], before[j - 1], before[j], before[j + 1..];
    assert before == pre + [x, y] + post;
    assert after == pre + [y, x] + post;
    forall v ensures Run(after, key, v) == Run(before, key, v) {
      SwapKeepsRun(pre, x, y, post, HasKey(key, v));
    }
  }

  /** The comparator agrees with the sorted order: it never returns a positive value for a pair in order. */
  lemma {:induction false} SortedComparatorNonPositive<T>(s: seq<T>, key: T -> SortValue, dir: Direction, i: int, j: int)
    requires SortedBy(s, key, dir) && 0 <= i < j < |s|
    ensures Compare(key(s[i]), key(s[j]), dir) <= 0
  {
    assert !Before(key(s[j]), key(s[i]), dir);
  }

  /**
   * Sorts `a` in place by the comparator, moving an element left only past
   * strictly greater ones, so the sort is stable.
   */
  method InsertionSort<T(!new)>(a: array<T>, key: T -> SortValue, dir: Direction)
    requires UniformKey(key)
    modifies a
    ensures SortedBy(a[..], key, dir)
    ensures multiset(a[..]) == old(multiset(a[..]))
    ensures KeepsTies(a[..], old(a[..]), key)
  {
    var i := 0;
    while i < a.Length
      invariant 0 <= i <= a.Length
      invariant SortedBy(a[..i], key, dir)
      invariant multiset(a[..]) == old(multiset(a[..]))
      invariant KeepsTies(a[..], old(a[..]), key)
    {
      InsertIntoSortedPrefix(a, i, key, dir);
      i := i + 1;
    }
    assert a[..] == a[..a.Length];
  }

  /** Moves `a[i]` left into the sorted prefix `a[..i]`. */
  method InsertIntoSortedPrefix<T(!new)>(a: array<T>, i: int, key: T -> SortValue, dir: Direction)
    requires UniformKey(key)
    requires 0 <= i < a.Length && SortedBy(a[..i], key, dir)
    modifies a
    ensures SortedBy(a[..i + 1], key, dir)
    ensures multiset(a[..]) == old(multiset(a[..]))
    ensures KeepsTies(a[..], old(a[..]), key)
  {
    var j := i;
    while j > 0 && Compare(key(a[j - 1]), key(a[j]), dir) > 0
      invariant 0 <= j <= i
      invariant multiset(a[..]) == old(multiset(a[..]))
      invariant KeepsTies(a[..], old(a[..]), key)
      invariant forall p, q :: 0 <= p < q <= i && p != j && q != j ==> !Before(key(a[q]), key(a[p]), dir)
      invariant forall q :: j < q <= i ==> Before(key(a[j]), key(a[q]), dir)
    {
      ghost var before := a[..];
      BeforeIrreflexive(key(a[j]), dir);
      Swap(a, j - 1, j);
      SwapKeepsTies(before, a[..], j, key);
      j := j - 1;
    }
    assert j > 0 ==> !Before(key(a[j]), key(a[j - 1]), dir);
    InsertionFinished(a[..], i, j, key, dir);
  }

  /**
   * When the moving element stops (at the front, or behind an element not
   * after it), the prefix up to `i` is sorted.
   */
  lemma InsertionFinished<T(!new)>(s: seq<T>, i: int, j: int, key: T -> SortValue, dir: Direction)
    requires UniformKey(key) && 0 <= j <= i < |s|
    requires forall p, q :: 0 <= p < q <= i && p != j && q != j ==> !Before(key(s[q]), key(s[p]), dir)
    requires forall q :: j < q <= i ==> Before(key(s[j]), key(s[q]), dir)
    requires j > 0 ==> !Before(key(s[j]), key(s[j - 1]), dir)
    ensures SortedBy(s[..i + 1], key, dir)
  {
    forall p, q | 0 <= p < q <= i
      ensures !Before(key(s[q]), key(s[p]), dir)
    {
      if q == j && p < j - 1 {
        NotBeforeTransitive(key(s[j]), key(s[j - 1]), key(s[p]), dir);
      } else if p == j {
        if Before(key(s[q]), key(s[p]), dir) {
          BeforeAsymmetric(key(s[p]), key(s[q]), dir);
        }
      }
    }
  }

  method Swap<T>(a: array<T>, i: int, j: int)
    requires 0 <= i < a.Length && 0 <= j < a.Length
    modifies a
    ensures a[i] == old(a[j]) && a[j] == old(a[i])
    ensures forall k :: 0 <= k < a.Length && k != i && k != j ==> a[k] == old(a[k])
    ensures multiset(a[..]) == old(multiset(a[..]))
  {
    a[i], a[j] := a[j], a[i];
  }

  lemma BeforeAsymmetric(u: SortValue, v: SortValue, dir: Direction)
    requires Before(u, v, dir)
    ensures !Before(v, u, dir)
  {
    if dir == Asc {
      LessAsymmetric(u, v);
    } else {
      LessAsymmetric(v, u);
    }
  }

  /** `[...xs].sort(comparator)`: a stable sorted permutation of `s`. */
  method SortedCopy<T(!new)>(s: seq<T>, key: T -> SortValue, dir: Direction) returns (r: seq<T>)
    requires UniformKey(key)
    ensures SortedBy(r, key, dir)
    ensures multiset(r) == multiset(s) && |r| == |s|
    ensures KeepsTies(r, s, key)
  {
    var a := new T[|s|](i requires 0 <= i < |s| => s[i]);
    assert a[..] == s;
    InsertionSort(a, key, dir);
    r := a[..];
    assert |r| == |multiset(r)| == |multiset(s)| == |s|;
  }
}
