/**
 * The chart manager's aggregation: records grouped by a key (customer,
 * payment status, expense category or month), amounts summed per group in a
 * dictionary whose keys keep their insertion order, the largest groups kept
 * for the ranked charts, and the per-canvas map of live charts.
 */
module ChartManagement {
  import opened Wrappers
  import opened Seqs
  import opened Sorting
  import opened Dates
  import opened DataProcessing

  predicate Distinct<K(==)>(s: seq<K>)
  {
    forall i, j :: 0 <= i < j < |s| ==> s[i] != s[j]
  }

  // ---------------------------------------------------------------- grouping

  /**
   * The group keys in order of first appearance, skipping records without a
   * key: the key order of the accumulating dictionary.
   */
  function GroupKeys<T(!new), K(==,!new)>(items: seq<T>, key: T -> Option<K>): (ks: seq<K>)
    ensures Distinct(ks)
    decreases |items|
  {
    if items == [] then []
    else
      var init, last := items[..|items| - 1], items[|items| - 1];
      var ks := GroupKeys(init, key);
      var k := key(last);
      if k.Some? && k.value !in ks then ks + [k.value] else ks
  }

  /** The group keys are exactly the keys that some record carries. */
  lemma {:induction false} GroupKeysMembers<T(!new), K(!new)>(items: seq<T>, key: T -> Option<K>, k: K)
    ensures k in GroupKeys(items, key) <==> exists x :: x in items && key(x) == Some(k)
    decreases |items|
  {
    if items != [] {
      var init, last := items[..|items| - 1], items[|items| - 1];
      assert forall x :: x in items <==> x in init || x == last;
      GroupKeysMembers(init, key, k);
    }
  }

  /** The amount summed over the records whose key is `k`. */
  function GroupTotal<T, K(==,!new)>(items: seq<T>, key: T -> Option<K>, amount: T -> real, k: K): real
    decreases |items|
  {
    if items == [] then 0.0
    else
      var last := items[|items| - 1];
      GroupTotal(items[..|items| - 1], key, amount, k) + (if key(last) == Some(k) then amount(last) else 0.0)
  }

  /** The amount summed over every record that has a key. */
  function KeyedTotal<T, K>(items: seq<T>, key: T -> Option<K>, amount: T -> real): real
    decreases |items|
  {
    if items == [] then 0.0
    else
      var last := items[|items| - 1];
      KeyedTotal(items[..|items| - 1], key, amount) + (if key(last).Some? then amount(last) else 0.0)
  }

  /** The group totals of the keys `ks`, added up. */
  function KeysTotal<T, K(==,!new)>(ks: seq<K>, items: seq<T>, key: T -> Option<K>, amount: T -> real): real
  {
    if ks == [] then 0.0 else GroupTotal(items, key, amount, ks[0]) + KeysTotal(ks[1..], items, key, amount)
  }

  /** A group total is the plain sum over the records of that group. */
  lemma GroupTotalIsFilteredSum<T(!new), K(!new)>(items: seq<T>, key: T -> Option<K>, amount: T -> real, k: K)
    ensures GroupTotal(items, key, amount, k) == Sum(Filter(items, x => key(x) == Some(k)), amount)
  {
    GroupTotalIsSumOf(items, key, amount, k, x => key(x) == Some(k));
  }

  lemma {:induction false} GroupTotalIsSumOf<T(!new), K(!new)>(items: seq<T>, key: T -> Option<K>, amount: T -> real, k: K, p: T -> bool)
    requires forall x :: p(x) <==> key(x) == Some(k)
    ensures GroupTotal(items, key, amount, k) == Sum(Filter(items, p), amount)
    decreases |items|
  {
    if items != [] {
      var init, last := items[..|items| - 1], items[|items| - 1];
      assert items == init + [last];
      GroupTotalIsSumOf(init, key, amount, k, p);
      FilterSnoc(init, last, p);
      if p(last) {
        SumSnoc(Filter(init, p), last, amount);
      } else {
        assert Filter(items, p) == Filter(init, p);
      }
    }
  }

  /** A key that no record carries has total 0. */
  lemma {:induction false} AbsentGroupIsZero<T(!new), K(!new)>(items: seq<T>, key: T -> Option<K>, amount: T -> real, k: K)
    requires k !in GroupKeys(items, key)
    ensures GroupTotal(items, key, amount, k) == 0.0
    decreases |items|
  {
    if items != [] {
      var init := items[..|items| - 1];
      assert forall x :: x in init ==> x in items;
      AbsentGroupIsZero(init, key, amount, k);
    }
  }

  /** Adding one record adds its amount to the total of exactly one listed key, if any. */
  lemma {:induction false} KeysTotalStep<T, K(!new)>(ks: seq<K>, init: seq<T>, last: T, key: T -> Option<K>, amount: T -> real)
    requires Distinct(ks)
    ensures KeysTotal(ks, init + [last], key, amount)
      == KeysTotal(ks, init, key, amount) + (if key(last).Some? && key(last).value in ks then amount(last) else 0.0)
  {
    var items := init + [last];
    assert items[..|items| - 1] == init;
    if ks != [] {
      assert Distinct(ks[1..]) by {
        forall i, j | 0 <= i < j < |ks[1..]| ensures ks[1..][i] != ks[1..][j] {
          assert ks[1..][i] == ks[i + 1] && ks[1..][j] == ks[j + 1];
        }
      }
      KeysTotalStep(ks[1..], init, last, key, amount);
      assert ks[0] !in ks[1..];
    }
  }

  lemma {:induction false} KeysTotalAppend<T, K(!new)>(ks: seq<K>, k: K, items: seq<T>, key: T -> Option<K>, amount: T -> real)
    ensures KeysTotal(ks + [k], items, key, amount) == KeysTotal(ks, items, key, amount) + GroupTotal(items, key, amount, k)
  {
    if ks == [] {
      assert ([k])[1..] == [];
    } else {
      assert (ks + [k])[1..] == ks[1..] + [k];
      KeysTotalAppend(ks[1..], k, items, key, amount);
    }
  }

  /**
   * Conservation: the group totals add up to the amount of every record that
   * has a key, so nothing is lost or counted twice.
   */
  lemma {:induction false} GroupTotalsConserve<T(!new), K(!new)>(items: seq<T>, key: T -> Option<K>, amount: T -> real)
    ensures KeysTotal(GroupKeys(items, key), items, key, amount) == KeyedTotal(items, key, amount)
    decreases |items|
  {
    if items != [] {
      var init, last := items[..|items| - 1], items[|items| - 1];
      assert items == init + [last];
      var ks := GroupKeys(init, key);
      GroupTotalsConserve(init, key, amount);
      KeysTotalStep(ks, init, last, key, amount);
      var k := key(last);
      if k.Some? && k.value !in ks {
        KeysTotalAppend(ks, k.value, items, key, amount);
        AbsentGroupIsZero(init, key, amount, k.value);
        assert GroupTotal(items, key, amount, k.value) == amount(last);
      }
    }
  }

  /** The accumulated dictionary of a prefix of the records: its keys in order and its totals. */
  ghost predicate Accumulated<T(!new), K(!new)>(keys: seq<K>, totals: map<K, real>, done: seq<T>, key: T -> Option<K>, amount: T -> real)
  {
    && keys == GroupKeys(done, key)
    && totals.Keys == (set k | k in keys)
    && forall k :: k in totals ==> totals[k] == GroupTotal(done, key, amount, k)
  }

  /**
   * One `forEach` step: a record with a key starts its entry at 0 when the
   * entry is missing or falsy, then adds its amount.
   */
  method AddRecord<T(!new), K(==,!new)>(keys: seq<K>, totals: map<K, real>, ghost done: seq<T>, x: T,
                                        key: T -> Option<K>, amount: T -> real)
    returns (keys': seq<K>, totals': map<K, real>)
    requires Accumulated(keys, totals, done, key, amount)
    ensures Accumulated(keys', totals', done + [x], key, amount)
  {
    GroupStep(done, x, key, amount);
    keys', totals' := keys, totals;
    match key(x) {
      case None =>
      case Some(k) =>
        if k !in totals' || totals'[k] == 0.0 {
          if k !in totals' {
            AbsentGroupIsZero(done, key, amount, k);
            keys' := keys' + [k];
          }
          totals' := totals'[k := 0.0];
        }
        assert totals'[k] == GroupTotal(done, key, amount, k);
        totals' := totals'[k := totals'[k] + amount(x)];
    }
  }

  /** One more record: its key joins the keys if it is new, and its amount joins that key's total only. */
  lemma GroupStep<T(!new), K(!new)>(done: seq<T>, x: T, key: T -> Option<K>, amount: T -> real)
    ensures GroupKeys(done + [x], key) ==
      if key(x).Some? && key(x).value !in GroupKeys(done, key) then GroupKeys(done, key) + [key(x).value] else GroupKeys(done, key)
    ensures forall k ::
      GroupTotal(done + [x], key, amount, k) == GroupTotal(done, key, amount, k) + (if key(x) == Some(k) then amount(x) else 0.0)
  {
    var items := done + [x];
    assert items[..|items| - 1] == done;
  }

  /** The `forEach` accumulation over all the records. */
  method GroupTotals<T(!new), K(==,!new)>(items: seq<T>, key: T -> Option<K>, amount: T -> real)
    returns (keys: seq<K>, totals: map<K, real>)
    ensures keys == GroupKeys(items, key)
    ensures totals.Keys == set k | k in keys
    ensures forall k :: k in totals ==> totals[k] == GroupTotal(items, key, amount, k)
  {
    keys := [];
    totals := map[];
    var i := 0;
    while i < |items|
      invariant 0 <= i <= |items|
      invariant Accumulated(keys, totals, items[..i], key, amount)
    {
      assert items[..i + 1] == items[..i] + [items[i]];
      keys, totals := AddRecord(keys, totals, items[..i], items[i], key, amount);
      i := i + 1;
    }
    assert items[..|items|] == items;
  }

  // ---------------------------------------------------------------- ranking

  function EntryValue<K>(e: (K, real)): SortValue
  {
    Number(e.1)
  }

  lemma EntryValueUniform<K(!new)>()
    ensures UniformKey(EntryValue<K>)
  {
  }

  /** `Object.entries(totals)`, in key order. */
  function Entries<K(!new)>(keys: seq<K>, totals: map<K, real>): (r: seq<(K, real)>)
    requires forall k :: k in keys ==> k in totals
    ensures |r| == |keys|
    ensures forall e :: e in r ==> e.0 in keys && e.1 == totals[e.0]
  {
    seq(|keys|, i requires 0 <= i < |keys| => (keys[i], totals[keys[i]]))
  }

  /**
   * `entries.sort(([,a], [,b]) => b - a).slice(0, n)`: the `n` largest
   * entries, largest first; every entry left out is at most every entry kept,
   * and among entries with equal values the ones kept are the first ones, in
   * their order in `entries` (the sort is stable).
   */
  method TopEntries<K(!new)>(entries: seq<(K, real)>, n: nat) returns (top: seq<(K, real)>)
    ensures |top| == if |entries| < n then |entries| else n
    ensures multiset(top) <= multiset(entries)
    ensures |entries| <= n ==> multiset(top) == multiset(entries)
    ensures Distinct(entries) ==> Distinct(top)
    ensures forall i, j :: 0 <= i < j < |top| ==> top[i].1 >= top[j].1
    ensures forall e, f :: e in entries && e !in top && f in top ==> e.1 <= f.1
    ensures forall v :: Run(top, EntryValue, v) <= Run(entries, EntryValue, v)
  {
    EntryValueUniform<K>();
    var sorted := SortedCopy(entries, EntryValue, Desc);
    var m := if |sorted| < n then |sorted| else n;
    top := sorted[..m];
    if m == |sorted| {
      assert top == sorted;
    } else {
      assert sorted == top + sorted[m..];
      assert multiset(sorted) == multiset(top) + multiset(sorted[m..]);
    }
    DescendingPrefix(sorted, m);
    forall e | e in entries && e !in top ensures e in sorted[m..] {
      assert e in multiset(sorted);
    }
    SortedPrefix(entries, sorted, m);
  }

  /** A prefix of a stable sort keeps the entries distinct and, per value, keeps the first ones. */
  lemma SortedPrefix<K(!new)>(entries: seq<(K, real)>, sorted: seq<(K, real)>, m: nat)
    requires multiset(sorted) == multiset(entries) && KeepsTies(sorted, entries, EntryValue) && m <= |sorted|
    ensures Distinct(entries) ==> Distinct(sorted[..m])
    ensures forall v :: Run(sorted[..m], EntryValue, v) <= Run(entries, EntryValue, v)
  {
    if Distinct(entries) {
      DistinctPermutation(entries, sorted);
      forall i, j | 0 <= i < j < m ensures sorted[..m][i] != sorted[..m][j] {
        assert sorted[..m][i] == sorted[i] && sorted[..m][j] == sorted[j];
      }
    }
    assert sorted == sorted[..m] + sorted[m..];
    forall v ensures Run(sorted[..m], EntryValue, v) <= Run(entries, EntryValue, v) {
      FilterAppend(sorted[..m], sorted[m..], HasKey(EntryValue, v));
    }
  }

  /** In entries sorted by descending value, a prefix is descending and outranks the rest. */
  lemma DescendingPrefix<K>(sorted: seq<(K, real)>, m: nat)
    requires SortedBy(sorted, EntryValue, Desc) && m <= |sorted|
    ensures forall i, j :: 0 <= i < j < |sorted[..m]| ==> sorted[..m][i].1 >= sorted[..m][j].1
    ensures forall e, f :: e in sorted[m..] && f in sorted[..m] ==> e.1 <= f.1
  {
    forall i, j | 0 <= i < j < |sorted| ensures sorted[j].1 <= sorted[i].1 {
      assert !Before(EntryValue(sorted[j]), EntryValue(sorted[i]), Desc);
    }
    forall i, j | 0 <= i < j < |sorted[..m]| ensures sorted[..m][i].1 >= sorted[..m][j].1 {
      assert sorted[..m][i] == sorted[i] && sorted[..m][j] == sorted[j];
    }
    forall e, f | e in sorted[m..] && f in sorted[..m] ensures e.1 <= f.1 {
      var j :| 0 <= j < |sorted[m..]| && sorted[m..][j] == e;
      var i :| 0 <= i < m && sorted[..m][i] == f;
      assert sorted[i] == f && sorted[m + j] == e;
    }
  }

  /** A key whose entry is not among the top ones was outranked, and only because the chart is full. */
  lemma LeftOutEntry<K(!new)>(keys: seq<K>, totals: map<K, real>, entries: seq<(K, real)>, top: seq<(K, real)>, n: nat, k: K)
    requires forall k :: k in keys ==> k in totals
    requires entries == Entries(keys, totals)
    requires |entries| <= n ==> multiset(top) == multiset(entries)
    requires forall e, f :: e in entries && e !in top && f in top ==> e.1 <= f.1
    requires k in keys && forall e :: e in top ==> e.0 != k
    ensures |keys| > n && forall e :: e in top ==> totals[k] <= e.1
  {
    var i :| 0 <= i < |keys| && keys[i] == k;
    assert entries[i] == (k, totals[k]);
    assert entries[i] !in top;
    assert entries[i] in multiset(entries);
  }

  /** Every group with its total, in the order the groups first appear. */
  function GroupEntries<T(!new), K(==,!new)>(items: seq<T>, key: T -> Option<K>, amount: T -> real): seq<(K, real)>
  {
    var ks := GroupKeys(items, key);
    seq(|ks|, i requires 0 <= i < |ks| => (ks[i], GroupTotal(items, key, amount, ks[i])))
  }

  /**
   * A ranked chart of the `n` largest groups: `n` groups (all of them if
   * there are fewer), each once with its group total, largest first; a group
   * left out is outranked by every group shown, and groups with equal totals
   * are shown in order of first appearance.
   */
  ghost predicate RankedGroups<T(!new), K(!new)>(items: seq<T>, key: T -> Option<K>, amount: T -> real, n: nat, top: seq<(K, real)>)
  {
    var ks := GroupKeys(items, key);
    && |top| == (if |ks| < n then |ks| else n)
    && (forall e :: e in top ==> e.0 in ks && e.1 == GroupTotal(items, key, amount, e.0))
    && (forall i, j :: 0 <= i < j < |top| ==> top[i].0 != top[j].0)
    && (forall i, j :: 0 <= i < j < |top| ==> top[i].1 >= top[j].1)
    && (forall k :: k in ks && (forall e :: e in top ==> e.0 != k) ==>
          |ks| > n && forall e :: e in top ==> GroupTotal(items, key, amount, k) <= e.1)
    && (forall v :: Run(top, EntryValue, v) <= Run(GroupEntries(items, key, amount), EntryValue, v))
  }

  /** `Object.entries(totals).sort(...).slice(0, n)` over the accumulated groups. */
  method TopGroups<T(!new), K(==,!new)>(items: seq<T>, key: T -> Option<K>, amount: T -> real, n: nat)
    returns (top: seq<(K, real)>)
    ensures RankedGroups(items, key, amount, n, top)
  {
    var keys, totals := GroupTotals(items, key, amount);
    var entries := Entries(keys, totals);
    assert entries == GroupEntries(items, key, amount);
    assert Distinct(entries) by {
      forall i, j | 0 <= i < j < |entries| ensures entries[i] != entries[j] {
        assert entries[i].0 == keys[i] && entries[j].0 == keys[j];
      }
    }
    top := TopEntries(entries, n);
    forall e | e in top ensures e.0 in keys && e.1 == GroupTotal(items, key, amount, e.0) {
      assert e in multiset(entries);
    }
    forall i, j | 0 <= i < j < |top| ensures top[i].0 != top[j].0 {
      assert top[i] in top && top[j] in top;
    }
    forall k | k in keys && (forall e :: e in top ==> e.0 != k)
      ensures |keys| > n && forall e :: e in top ==> GroupTotal(items, key, amount, k) <= e.1
    {
      LeftOutEntry(keys, totals, entries, top, n, k);
    }
  }

  // ---------------------------------------------------------------- the charts' keys

  /** A sale counts for the customer chart when its customer is non-empty. */
  function SaleCustomer(s: Sale): Option<string>
  {
    if s.customer == "" then None else Some(s.customer)
  }

  function SaleStatus(s: Sale): Option<string>
  {
    if s.paymentStatus == "" then None else Some(s.paymentStatus)
  }

  function TransactionCategory(t: Transaction): Option<string>
  {
    if t.category == "" then None else Some(t.category)
  }

  /** The month label of a record, as a month index (labels name a month of a year). */
  function SaleMonth(s: Sale): Option<int>
  {
    Some(DateMonth(s.date))
  }

  function TransactionMonth(t: Transaction): Option<int>
  {
    Some(DateMonth(t.date))
  }

  function MonthValue(m: int): SortValue
  {
    Number(m as real)
  }

  lemma MonthValueUniform()
    ensures UniformKey(MonthValue)
  {
  }

  /** The total of a list of chart values. */
  function Total(values: seq<real>): real
  {
    if values == [] then 0.0 else values[0] + Total(values[1..])
  }

  lemma {:induction false} TotalOfGroupValues<T, K(!new)>(keys: seq<K>, values: seq<real>, items: seq<T>, key: T -> Option<K>, amount: T -> real)
    requires |values| == |keys|
    requires forall i :: 0 <= i < |keys| ==> values[i] == GroupTotal(items, key, amount, keys[i])
    ensures Total(values) == KeysTotal(keys, items, key, amount)
  {
    if keys != [] {
      TotalOfGroupValues(keys[1..], values[1..], items, key, amount);
    }
  }

  /** Two lists with the same elements, one of them without repeats: the other has none either. */
  lemma {:induction false} DistinctPermutation<K>(a: seq<K>, b: seq<K>)
    requires Distinct(a) && multiset(a) == multiset(b)
    ensures Distinct(b)
  {
    forall i, j | 0 <= i < j < |b| ensures b[i] != b[j] {
      if b[i] == b[j] {
        assert b == b[..j] + [b[j]] + b[j + 1..];
        assert b[i] in multiset(b[..j]);
        assert multiset(b)[b[j]] >= 2;
        DistinctCount(a, b[j]);
        assert false;
      }
    }
  }

  lemma {:induction false} DistinctCount<K>(a: seq<K>, x: K)
    requires Distinct(a)
    ensures multiset(a)[x] <= 1
  {
    if a != [] {
      assert a == [a[0]] + a[1..];
      assert Distinct(a[1..]) by {
        forall i, j | 0 <= i < j < |a[1..]| ensures a[1..][i] != a[1..][j] {
          assert a[1..][i] == a[i + 1] && a[1..][j] == a[j + 1];
        }
      }
      DistinctCount(a[1..], x);
      if a[0] == x {
        assert x !in a[1..];
      }
    }
  }

  /** `Object.keys(byMonth).sort(by date)`: distinct month labels, in calendar order. */
  method SortedMonths(months: seq<int>) returns (labels: seq<int>)
    requires Distinct(months)
    ensures multiset(labels) == multiset(months)
    ensures forall m :: m in labels <==> m in months
    ensures forall i, j :: 0 <= i < j < |labels| ==> labels[i] < labels[j]
  {
    MonthValueUniform();
    labels := SortedCopy(months, MonthValue, Asc);
    DistinctPermutation(months, labels);
    forall m ensures m in labels <==> m in months {
      assert m in labels <==> m in multiset(labels);
    }
    forall i, j | 0 <= i < j < |labels| ensures labels[i] < labels[j] {
      assert !Before(MonthValue(labels[j]), MonthValue(labels[i]), Asc);
    }
  }

  // ---------------------------------------------------------------- the five charts

  datatype FinancialSeries = FinancialSeries(labels: seq<int>, revenue: seq<real>, expenses: seq<real>, profit: seq<real>)

  predicate Increasing(s: seq<int>)
  {
    forall i, j :: 0 <= i < j < |s| ==> s[i] < s[j]
  }

  /**
   * The financial chart's series: one label per month with a sale or an
   * expense, in calendar order, with that month's revenue, expenses and their
   * difference.
   */
  ghost predicate FinancialSeriesOf(sales: seq<Sale>, transactions: seq<Transaction>, r: FinancialSeries)
  {
    && |r.revenue| == |r.labels| && |r.expenses| == |r.labels| && |r.profit| == |r.labels|
    && Increasing(r.labels)
    && (forall m :: m in r.labels <==>
          (exists s :: s in sales && DateMonth(s.date) == m) || (exists t :: t in transactions && DateMonth(t.date) == m))
    && (forall i :: 0 <= i < |r.labels| ==>
          && r.revenue[i] == GroupTotal(sales, SaleMonth, SaleAmount, r.labels[i])
          && r.expenses[i] == GroupTotal(transactions, TransactionMonth, TransactionAmount, r.labels[i])
          && r.profit[i] == r.revenue[i] - r.expenses[i])
  }

  /** Two calendar-ordered label lists naming the same months are the same list. */
  lemma {:induction false} IncreasingUnique(a: seq<int>, b: seq<int>)
    requires Increasing(a) && Increasing(b) && forall m :: m in a <==> m in b
    ensures a == b
    decreases |a|
  {
    assert a != [] ==> b != [] by {
      if a != [] {
        assert a[0] in a;
      }
    }
    assert b != [] ==> a != [] by {
      if b != [] {
        assert b[0] in b;
      }
    }
    if a != [] {
      assert a[0] == b[0] by {
        assert a[0] in a && b[0] in b;
        var i :| 0 <= i < |a| && a[i] == b[0];
        var j :| 0 <= j < |b| && b[j] == a[0];
        assert a[0] <= a[i] && b[0] <= b[j];
      }
      forall m ensures m in a[1..] <==> m in b[1..] {
        assert a == [a[0]] + a[1..] && b == [b[0]] + b[1..];
        if m in a[1..] {
          var i :| 1 <= i < |a| && a[i] == m;
          assert m in a;
        }
        if m in b[1..] {
          var j :| 1 <= j < |b| && b[j] == m;
          assert m in b;
        }
      }
      IncreasingUnique(a[1..], b[1..]);
      assert a == [a[0]] + a[1..] && b == [b[0]] + b[1..];
    }
  }

  /** The financial series is determined by the records: there is only one. */
  lemma FinancialSeriesUnique(sales: seq<Sale>, transactions: seq<Transaction>, r1: FinancialSeries, r2: FinancialSeries)
    requires FinancialSeriesOf(sales, transactions, r1) && FinancialSeriesOf(sales, transactions, r2)
    ensures r1 == r2
  {
    IncreasingUnique(r1.labels, r2.labels);
  }

  /**
   * The financial chart's data: one label per month with a sale or an
   * expense, in calendar order, with that month's revenue, expenses and their
   * difference (a month without sales has revenue 0, and likewise expenses).
   */
  method FinancialChartData(sales: seq<Sale>, transactions: seq<Transaction>) returns (r: FinancialSeries)
    ensures FinancialSeriesOf(sales, transactions, r)
    ensures forall i :: 0 <= i < |r.labels| && r.labels[i] !in GroupKeys(sales, SaleMonth) ==> r.revenue[i] == 0.0
  {
    var saleMonths, revenue := GroupTotals(sales, SaleMonth, SaleAmount);
    var expenseMonths, expenses := GroupTotals(transactions, TransactionMonth, TransactionAmount);
    var labels := CalendarLabels(saleMonths, expenseMonths);
    MonthKeys(sales, transactions, labels);
    var rev := TotalsOrZero(labels, saleMonths, revenue, sales, SaleMonth, SaleAmount);
    var exp := TotalsOrZero(labels, expenseMonths, expenses, transactions, TransactionMonth, TransactionAmount);
    var profit := seq(|labels|, j requires 0 <= j < |labels| => rev[j] - exp[j]);
    r := FinancialSeries(labels, rev, exp, profit);
  }

  /**
   * The keys of one dictionary filled from two lists: the first list's keys,
   * then the second's that are new, each once.
   */
  method MergeKeys<K(==)>(a: seq<K>, b: seq<K>) returns (ks: seq<K>)
    requires Distinct(a)
    ensures Distinct(ks)
    ensures forall m :: m in ks <==> m in a || m in b
    ensures |a| <= |ks| && ks[..|a|] == a
  {
    ks := a;
    var i := 0;
    while i < |b|
      invariant 0 <= i <= |b|
      invariant Distinct(ks) && |a| <= |ks| && ks[..|a|] == a
      invariant forall m :: m in ks <==> m in a || m in b[..i]
    {
      if b[i] !in ks {
        ks := ks + [b[i]];
      }
      assert b[..i + 1] == b[..i] + [b[i]];
      i := i + 1;
    }
    assert b[..i] == b;
  }

  /** The financial chart's labels: the months of both dictionaries, once each, in calendar order. */
  method CalendarLabels(saleMonths: seq<int>, expenseMonths: seq<int>) returns (labels: seq<int>)
    requires Distinct(saleMonths)
    ensures forall m :: m in labels <==> m in saleMonths || m in expenseMonths
    ensures forall i, j :: 0 <= i < j < |labels| ==> labels[i] < labels[j]
  {
    var months := MergeKeys(saleMonths, expenseMonths);
    labels := SortedMonths(months);
  }

  /** The month labels are the months of the sales and of the expenses. */
  lemma MonthKeys(sales: seq<Sale>, transactions: seq<Transaction>, labels: seq<int>)
    requires forall m :: m in labels <==> m in GroupKeys(sales, SaleMonth) || m in GroupKeys(transactions, TransactionMonth)
    ensures forall m :: m in labels <==>
      (exists s :: s in sales && DateMonth(s.date) == m) || (exists t :: t in transactions && DateMonth(t.date) == m)
  {
    forall m ensures m in GroupKeys(sales, SaleMonth) <==> exists s :: s in sales && DateMonth(s.date) == m {
      SaleMonths(sales, m);
    }
    forall m ensures m in GroupKeys(transactions, TransactionMonth) <==> exists t :: t in transactions && DateMonth(t.date) == m {
      TransactionMonths(transactions, m);
    }
  }

  /** A month is a sales month exactly when some sale is dated in it. */
  lemma SaleMonths(sales: seq<Sale>, m: int)
    ensures m in GroupKeys(sales, SaleMonth) <==> exists s :: s in sales && DateMonth(s.date) == m
  {
    GroupKeysMembers(sales, SaleMonth, m);
    if exists s :: s in sales && DateMonth(s.date) == m {
      var s :| s in sales && DateMonth(s.date) == m;
      assert SaleMonth(s) == Some(m);
    }
  }

  /** A month is an expense month exactly when some transaction is dated in it. */
  lemma TransactionMonths(transactions: seq<Transaction>, m: int)
    ensures m in GroupKeys(transactions, TransactionMonth) <==> exists t :: t in transactions && DateMonth(t.date) == m
  {
    GroupKeysMembers(transactions, TransactionMonth, m);
    if exists t :: t in transactions && DateMonth(t.date) == m {
      var t :| t in transactions && DateMonth(t.date) == m;
      assert TransactionMonth(t) == Some(m);
    }
  }

  /** `labels.map(m => byMonth[m] || 0)` reads each label's group total, 0 for a group with no records. */
  method TotalsOrZero<T(!new), K(==,!new)>(labels: seq<K>, keys: seq<K>, totals: map<K, real>,
                                             ghost items: seq<T>, key: T -> Option<K>, amount: T -> real)
    returns (values: seq<real>)
    requires keys == GroupKeys(items, key) && totals.Keys == set k | k in keys
    requires forall k :: k in totals ==> totals[k] == GroupTotal(items, key, amount, k)
    ensures |values| == |labels|
    ensures forall j :: 0 <= j < |labels| ==> values[j] == GroupTotal(items, key, amount, labels[j])
    ensures forall j :: 0 <= j < |labels| && labels[j] !in keys ==> values[j] == 0.0
  {
    values := seq(|labels|, j requires 0 <= j < |labels| => if labels[j] in totals then totals[labels[j]] else 0.0);
    forall j | 0 <= j < |labels| ensures values[j] == GroupTotal(items, key, amount, labels[j]) {
      if labels[j] !in totals {
        AbsentGroupIsZero(items, key, amount, labels[j]);
      }
    }
  }

  datatype TrendSeries = TrendSeries(labels: seq<int>, revenue: seq<real>)

  /** The trends chart's series: each month with a sale, in calendar order, with its revenue. */
  ghost predicate TrendSeriesOf(sales: seq<Sale>, r: TrendSeries)
  {
    && |r.revenue| == |r.labels|
    && Increasing(r.labels)
    && (forall m :: m in r.labels <==> exists s :: s in sales && DateMonth(s.date) == m)
    && (forall i :: 0 <= i < |r.labels| ==> r.revenue[i] == GroupTotal(sales, SaleMonth, SaleAmount, r.labels[i]))
  }

  /** The trends series is determined by the sales: there is only one. */
  lemma TrendSeriesUnique(sales: seq<Sale>, r1: TrendSeries, r2: TrendSeries)
    requires TrendSeriesOf(sales, r1) && TrendSeriesOf(sales, r2)
    ensures r1 == r2
  {
    IncreasingUnique(r1.labels, r2.labels);
  }

  /** The trends chart's data. */
  method TrendsChartData(sales: seq<Sale>) returns (r: TrendSeries)
    ensures TrendSeriesOf(sales, r)
  {
    var months, totals := GroupTotals(sales, SaleMonth, SaleAmount);
    var labels := SortedMonths(months);
    assert forall m :: m in labels ==> m in totals;
    r := TrendSeries(labels, seq(|labels|, j requires 0 <= j < |labels| => totals[labels[j]]));
    forall m ensures m in r.labels <==> exists s :: s in sales && DateMonth(s.date) == m {
      SaleMonths(sales, m);
    }
  }

  /** The customer chart's data: the ten customers with the largest sales totals. */
  method CustomerChartData(sales: seq<Sale>) returns (top: seq<(string, real)>)
    ensures RankedGroups(sales, SaleCustomer, SaleAmount, 10, top)
    ensures |top| <= 10
    ensures forall e :: e in top ==> e.0 != "" && e.1 == GroupTotal(sales, SaleCustomer, SaleAmount, e.0)
    ensures forall i, j :: 0 <= i < j < |top| ==> top[i].1 >= top[j].1
    ensures forall c :: c in GroupKeys(sales, SaleCustomer) && (forall e :: e in top ==> e.0 != c) ==>
      |top| == 10 && forall e :: e in top ==> GroupTotal(sales, SaleCustomer, SaleAmount, c) <= e.1
  {
    top := TopGroups(sales, SaleCustomer, SaleAmount, 10);
    forall e | e in top ensures e.0 != "" {
      GroupKeysMembers(sales, SaleCustomer, e.0);
      var s :| s in sales && SaleCustomer(s) == Some(e.0);
    }
  }

  /** The expense-category chart's data: the eight categories with the largest totals. */
  method ExpenseCategoriesChartData(transactions: seq<Transaction>) returns (top: seq<(string, real)>)
    ensures RankedGroups(transactions, TransactionCategory, TransactionAmount, 8, top)
    ensures |top| <= 8
    ensures forall e :: e in top ==> e.0 != "" && e.1 == GroupTotal(transactions, TransactionCategory, TransactionAmount, e.0)
    ensures forall i, j :: 0 <= i < j < |top| ==> top[i].1 >= top[j].1
    ensures forall c :: c in GroupKeys(transactions, TransactionCategory) && (forall e :: e in top ==> e.0 != c) ==>
      |top| == 8 && forall e :: e in top ==> GroupTotal(transactions, TransactionCategory, TransactionAmount, c) <= e.1
  {
    top := TopGroups(transactions, TransactionCategory, TransactionAmount, 8);
    forall e | e in top ensures e.0 != "" {
      GroupKeysMembers(transactions, TransactionCategory, e.0);
      var t :| t in transactions && TransactionCategory(t) == Some(e.0);
    }
  }

  /**
   * The payment-status chart's data: every status with a sale, in order of
   * first appearance, with its total; the totals add up to the amount of all
   * sales that have a status.
   */
  method PaymentStatusChartData(sales: seq<Sale>) returns (labels: seq<string>, values: seq<real>)
    ensures labels == GroupKeys(sales, SaleStatus)
    ensures |values| == |labels| && Distinct(labels)
    ensures forall s :: s in labels <==> s != "" && exists x :: x in sales && x.paymentStatus == s
    ensures forall i :: 0 <= i < |labels| ==> values[i] == GroupTotal(sales, SaleStatus, SaleAmount, labels[i])
    ensures Total(values) == KeyedTotal(sales, SaleStatus, SaleAmount)
  {
    var totals;
    labels, totals := GroupTotals(sales, SaleStatus, SaleAmount);
    values := seq(|labels|, i requires 0 <= i < |labels| => totals[labels[i]]);
    forall s ensures s in labels <==> s != "" && exists x :: x in sales && x.paymentStatus == s {
      GroupKeysMembers(sales, SaleStatus, s);
      if s != "" && exists x :: x in sales && x.paymentStatus == s {
        var x :| x in sales && x.paymentStatus == s;
        assert SaleStatus(x) == Some(s);
      }
      if s in labels {
        var x :| x in sales && SaleStatus(x) == Some(s);
      }
    }
    TotalOfGroupValues(labels, values, sales, SaleStatus, SaleAmount);
    GroupTotalsConserve(sales, SaleStatus, SaleAmount);
  }

  // ---------------------------------------------------------------- the chart registry

  datatype ChartKind = Bar | Line | Pie | Doughnut

  /** A chart label: a name (customer, status, category) or a month. */
  datatype Label = Name(text: string) | Month(index: int)

  datatype ChartData = ChartData(labels: seq<Label>, datasets: seq<seq<real>>)

  datatype Chart = Chart(kind: ChartKind, data: ChartData)

  function Names(entries: seq<(string, real)>): (r: seq<Label>)
    ensures |r| == |entries|
  {
    seq(|entries|, i requires 0 <= i < |entries| => Name(entries[i].0))
  }

  function Amounts(entries: seq<(string, real)>): (r: seq<real>)
    ensures |r| == |entries|
  {
    seq(|entries|, i requires 0 <= i < |entries| => entries[i].1)
  }

  function NameLabels(names: seq<string>): (r: seq<Label>)
    ensures |r| == |names|
  {
    seq(|names|, i requires 0 <= i < |names| => Name(names[i]))
  }

  function MonthLabels(months: seq<int>): (r: seq<Label>)
    ensures |r| == |months|
  {
    seq(|months|, i requires 0 <= i < |months| => Month(months[i]))
  }

  /**
   * The dashboard's five chart canvases, by element id: `financialChart`,
   * `customerChart`, `paymentStatusChart`, `trendsChart` and
   * `expenseCategoriesChart`.
   */
  datatype Canvas = FinancialCanvas | CustomerCanvas | PaymentStatusCanvas | TrendsCanvas | ExpenseCategoriesCanvas

  /** The live charts, at most one per canvas. */
  class ChartManager {
    var charts: map<Canvas, Chart>

    constructor ()
      ensures charts == map[]
    {
      charts := map[];
    }

    /** Creates the chart of a canvas, replacing (and destroying) any earlier one there. */
    method CreateChart(canvas: Canvas, kind: ChartKind, data: ChartData) returns (replaced: bool)
      modifies this
      ensures replaced <==> canvas in old(charts)
      ensures charts == old(charts)[canvas := Chart(kind, data)]
    {
      replaced := canvas in charts;
      charts := charts[canvas := Chart(kind, data)];
    }

    /** Destroys every chart and forgets them all. */
    method DestroyAllCharts()
      modifies this
      ensures charts == map[]
    {
      charts := map[];
    }

    /** Redraws the financial chart: revenue, expenses and profit per month, as bars. */
    method UpdateFinancialChart(sales: seq<Sale>, transactions: seq<Transaction>)
      modifies this
      ensures FinancialCanvas in charts && charts == old(charts)[FinancialCanvas := charts[FinancialCanvas]]
      ensures FinancialChartShape(charts[FinancialCanvas])
      ensures FinancialChartOf(charts[FinancialCanvas], sales, transactions)
    {
      var r := FinancialChartData(sales, transactions);
      var _ := CreateChart(FinancialCanvas, Bar, ChartData(MonthLabels(r.labels), [r.revenue, r.expenses, r.profit]));
      assert charts[FinancialCanvas] == FinancialChart(r);
    }

    /** Redraws the customer chart: the top customers, as a doughnut. */
    method UpdateCustomerChart(sales: seq<Sale>)
      modifies this
      ensures CustomerCanvas in charts && charts == old(charts)[CustomerCanvas := charts[CustomerCanvas]]
      ensures CustomerChartShape(charts[CustomerCanvas])
      ensures CustomerChartOf(charts[CustomerCanvas], sales)
    {
      var top := CustomerChartData(sales);
      var _ := CreateChart(CustomerCanvas, Doughnut, ChartData(Names(top), [Amounts(top)]));
      assert charts[CustomerCanvas] == RankedChart(Doughnut, top);
    }

    /** Redraws the payment-status chart: the totals per status, as a pie that adds up to the keyed sales. */
    method UpdatePaymentStatusChart(sales: seq<Sale>)
      modifies this
      ensures PaymentStatusCanvas in charts && charts == old(charts)[PaymentStatusCanvas := charts[PaymentStatusCanvas]]
      ensures PaymentStatusChartShape(charts[PaymentStatusCanvas])
      ensures Total(charts[PaymentStatusCanvas].data.datasets[0]) == KeyedTotal(sales, SaleStatus, SaleAmount)
      ensures PaymentStatusChartOf(charts[PaymentStatusCanvas], sales)
    {
      var labels, values := PaymentStatusChartData(sales);
      var _ := CreateChart(PaymentStatusCanvas, Pie, ChartData(NameLabels(labels), [values]));
    }

    /** Redraws the trends chart: the revenue per month, as a line. */
    method UpdateTrendsChart(sales: seq<Sale>)
      modifies this
      ensures TrendsCanvas in charts && charts == old(charts)[TrendsCanvas := charts[TrendsCanvas]]
      ensures TrendsChartShape(charts[TrendsCanvas])
      ensures TrendsChartOf(charts[TrendsCanvas], sales)
    {
      var r := TrendsChartData(sales);
      var _ := CreateChart(TrendsCanvas, Line, ChartData(MonthLabels(r.labels), [r.revenue]));
      assert charts[TrendsCanvas] == TrendsChart(r);
    }

    /** Redraws the expense-category chart: the top categories, as bars. */
    method UpdateExpenseCategoriesChart(transactions: seq<Transaction>)
      modifies this
      ensures ExpenseCategoriesCanvas in charts && charts == old(charts)[ExpenseCategoriesCanvas := charts[ExpenseCategoriesCanvas]]
      ensures ExpenseChartShape(charts[ExpenseCategoriesCanvas])
      ensures ExpenseChartOf(charts[ExpenseCategoriesCanvas], transactions)
    {
      var top := ExpenseCategoriesChartData(transactions);
      var _ := CreateChart(ExpenseCategoriesCanvas, Bar, ChartData(Names(top), [Amounts(top)]));
      assert charts[ExpenseCategoriesCanvas] == RankedChart(Bar, top);
    }

    /** Redraws all five charts, in order; afterwards every canvas holds its chart. */
    method UpdateAllCharts(sales: seq<Sale>, transactions: seq<Transaction>)
      modifies this
      ensures forall c: Canvas :: c in charts
      ensures FinancialChartShape(charts[FinancialCanvas]) && CustomerChartShape(charts[CustomerCanvas])
      ensures PaymentStatusChartShape(charts[PaymentStatusCanvas]) && TrendsChartShape(charts[TrendsCanvas])
      ensures ExpenseChartShape(charts[ExpenseCategoriesCanvas])
      ensures FinancialChartOf(charts[FinancialCanvas], sales, transactions)
      ensures CustomerChartOf(charts[CustomerCanvas], sales)
      ensures PaymentStatusChartOf(charts[PaymentStatusCanvas], sales)
      ensures TrendsChartOf(charts[TrendsCanvas], sales)
      ensures ExpenseChartOf(charts[ExpenseCategoriesCanvas], transactions)
    {
      UpdateFinancialChart(sales, transactions);
      UpdateCustomerChart(sales);
      UpdatePaymentStatusChart(sales);
      UpdateTrendsChart(sales);
      UpdateExpenseCategoriesChart(transactions);
      forall c: Canvas ensures c in charts {
        match c
        case FinancialCanvas =>
        case CustomerCanvas =>
        case PaymentStatusCanvas =>
        case TrendsCanvas =>
        case ExpenseCategoriesCanvas =>
      }
    }
  }

  /** A bar chart with three series (revenue, expenses, profit), one value per month label. */
  predicate FinancialChartShape(c: Chart)
  {
    c.kind == Bar && |c.data.datasets| == 3 && forall d :: d in c.data.datasets ==> |d| == |c.data.labels|
  }

  /** A doughnut with at most ten labelled values. */
  predicate CustomerChartShape(c: Chart)
  {
    c.kind == Doughnut && |c.data.labels| <= 10 && |c.data.datasets| == 1 && |c.data.datasets[0]| == |c.data.labels|
  }

  /** A pie with one value per label. */
  predicate PaymentStatusChartShape(c: Chart)
  {
    c.kind == Pie && |c.data.datasets| == 1 && |c.data.datasets[0]| == |c.data.labels|
  }

  /** A line with one value per month label. */
  predicate TrendsChartShape(c: Chart)
  {
    c.kind == Line && |c.data.datasets| == 1 && |c.data.datasets[0]| == |c.data.labels|
  }

  /** Bars for at most eight labelled values. */
  predicate ExpenseChartShape(c: Chart)
  {
    c.kind == Bar && |c.data.labels| <= 8 && |c.data.datasets| == 1 && |c.data.datasets[0]| == |c.data.labels|
  }

  // ---------------------------------------------------------------- what each chart shows

  function FinancialChart(r: FinancialSeries): Chart
  {
    Chart(Bar, ChartData(MonthLabels(r.labels), [r.revenue, r.expenses, r.profit]))
  }

  function TrendsChart(r: TrendSeries): Chart
  {
    Chart(Line, ChartData(MonthLabels(r.labels), [r.revenue]))
  }

  function RankedChart(kind: ChartKind, top: seq<(string, real)>): Chart
  {
    Chart(kind, ChartData(Names(top), [Amounts(top)]))
  }

  /** The financial chart shows the records' financial series (there is only one: `FinancialSeriesUnique`). */
  ghost predicate FinancialChartOf(c: Chart, sales: seq<Sale>, transactions: seq<Transaction>)
  {
    exists r :: FinancialSeriesOf(sales, transactions, r) && c == FinancialChart(r)
  }

  /** The trends chart shows the sales' monthly revenue (there is only one: `TrendSeriesUnique`). */
  ghost predicate TrendsChartOf(c: Chart, sales: seq<Sale>)
  {
    exists r :: TrendSeriesOf(sales, r) && c == TrendsChart(r)
  }

  /** The customer chart shows the ten largest customers as a doughnut. */
  ghost predicate CustomerChartOf(c: Chart, sales: seq<Sale>)
  {
    exists top :: RankedGroups(sales, SaleCustomer, SaleAmount, 10, top) && c == RankedChart(Doughnut, top)
  }

  /** The expense-category chart shows the eight largest categories as bars. */
  ghost predicate ExpenseChartOf(c: Chart, transactions: seq<Transaction>)
  {
    exists top :: RankedGroups(transactions, TransactionCategory, TransactionAmount, 8, top) && c == RankedChart(Bar, top)
  }

  /** The payment-status chart shows every status, in order of first appearance, with its total, as a pie. */
  predicate PaymentStatusChartOf(c: Chart, sales: seq<Sale>)
  {
    var ks := GroupKeys(sales, SaleStatus);
    && c.kind == Pie && c.data.labels == NameLabels(ks)
    && |c.data.datasets| == 1 && |c.data.datasets[0]| == |ks|
    && forall i :: 0 <= i < |ks| ==> c.data.datasets[0][i] == GroupTotal(sales, SaleStatus, SaleAmount, ks[i])
  }
}
