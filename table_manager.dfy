/**
 * The table manager: per-table page number, records per page and sort
 * column/direction, the handlers that change them, and the rendering of one
 * page of a sorted copy of the records (with its "a-b of n" label and the
 * states of the Prev/Next buttons).
 */
module TableManagement {
  import opened Sorting
  import opened Text
  import opened Dates
  import opened DataProcessing

  /** Records per page: a positive count, or `Infinity` for "all". */
  datatype PerPage = All | Limit(n: nat)

  /** Which table a control belongs to (`data-table` is `sales` or anything else). */
  datatype Table = SalesTable | TransactionsTable

  datatype SortState = SortState(key: string, dir: Direction)

  /** The sort key of a sale for a column name: `date` by time, strings lower-cased. */
  function SaleKey(column: string): Sale -> SortValue
  {
    (s: Sale) =>
      if column == "date" then Number(Time(s.date) as real)
      else if column == "customer" then Text(Lower(s.customer))
      else if column == "totalAmount" then Number(s.totalAmount)
      else if column == "paymentStatus" then Text(Lower(s.paymentStatus))
      else if column == "paymentMethod" then Text(Lower(s.paymentMethod))
      else if column == "totalTrays" then Number(s.totalTrays as real)
      else Absent
  }

  /** The sort key of a transaction for a column name. */
  function TransactionKey(column: string): Transaction -> SortValue
  {
    (t: Transaction) =>
      if column == "date" then Number(Time(t.date) as real)
      else if column == "name" then Text(Lower(t.name))
      else if column == "amount" then Number(t.amount)
      else if column == "type" then Text(Lower(t.kind))
      else if column == "category" then Text(Lower(t.category))
      else if column == "paymentMethod" then Text(Lower(t.paymentMethod))
      else if column == "status" then Text(Lower(t.status))
      else Absent
  }

  lemma SaleKeyUniform(column: string)
    ensures UniformKey(SaleKey(column))
  {
  }

  lemma TransactionKeyUniform(column: string)
    ensures UniformKey(TransactionKey(column))
  {
  }

  /** `Math.ceil(total / n)` for a positive `n`. */
  function CeilDiv(total: nat, n: nat): nat
    requires n > 0
  {
    (total + n - 1) / n
  }

  /**
   * The Next handler's test `page < Math.ceil(total / perPage)`: never for
   * "all" (the quotient is 0), and for a count of 0 whenever there is data
   * (the quotient is Infinity, or NaN for no data).
   */
  predicate CanGoNext(page: int, total: nat, perPage: PerPage)
  {
    match perPage
    case All => false
    case Limit(n) => if n == 0 then total > 0 else page < CeilDiv(total, n)
  }

  /** The last page number a table of `total` records can be on. */
  function LastPage(total: nat, perPage: PerPage): int
  {
    match perPage
    case All => 1
    case Limit(n) => if n == 0 || total == 0 then 1 else CeilDiv(total, n)
  }

  datatype Window = Window(start: int, end: int)

  function Min(a: int, b: int): int { if a <= b then a else b }

  /** The slice bounds of the current page. */
  function PageWindow(page: int, perPage: PerPage, total: nat): (w: Window)
    requires page >= 1
    ensures 0 <= w.start && w.end <= total
    ensures perPage.All? ==> w == Window(0, total)
    ensures perPage.Limit? ==> w.start == (page - 1) * perPage.n && w.end <= w.start + perPage.n
    ensures perPage.Limit? && w.start + perPage.n <= total ==> w.end == w.start + perPage.n
    ensures perPage.Limit? && w.start + perPage.n > total ==> w.end == total
  {
    match perPage
    case All => Window(0, total)
    case Limit(n) =>
      var start := (page - 1) * n;
      Window(start, Min(start + n, total))
  }

  /** `slice(start, end)`: empty when the window lies past the data. */
  function Slice<T>(s: seq<T>, w: Window): (r: seq<T>)
    requires 0 <= w.start && w.end <= |s|
    ensures |r| == if w.start < w.end then w.end - w.start else 0
    ensures w.start < w.end ==> r == s[w.start..w.end]
  {
    if w.start < w.end then s[w.start..w.end] else []
  }

  /** The page label: `0` for no data, otherwise `start+1-end of total`. */
  function PageInfo(w: Window, total: nat): string
    requires 0 <= w.start
  {
    if total == 0 then "0"
    else NatToString(w.start + 1) + "-" + NatToString(if w.end < 0 then 0 else w.end) + " of " + NatToString(total)
  }

  /** What a populated table shows. */
  datatype TableView<T> = TableView(rows: seq<T>, pageInfo: string, prevDisabled: bool, nextDisabled: bool)

  /**
   * Sorts a copy of the records and renders the current page of it: the body
   * of `populateSalesTable` / `populateTransactionsTable` without the DOM.
   */
  method RenderPage<T(!new)>(records: seq<T>, key: T -> SortValue, dir: Direction, page: int, perPage: PerPage)
    returns (sorted: seq<T>, view: TableView<T>)
    requires UniformKey(key) && page >= 1
    ensures multiset(sorted) == multiset(records) && |sorted| == |records|
    ensures SortedBy(sorted, key, dir)
    ensures KeepsTies(sorted, records, key)
    ensures var w := PageWindow(page, perPage, |records|);
      view.rows == Slice(sorted, w) && view.pageInfo == PageInfo(w, |records|)
    ensures perPage.Limit? ==> |view.rows| <= perPage.n
    ensures perPage.All? ==> view.rows == sorted
    ensures view.pageInfo == "0" <==> records == []
    ensures view.prevDisabled <==> page <= 1
    ensures view.nextDisabled <==> !CanGoNext(page, |records|, perPage)
  {
    sorted := SortedCopy(records, key, dir);
    var total := |sorted|;
    var w := PageWindow(page, perPage, total);
    var info := PageInfo(w, total);
    if total != 0 {
      assert info[|NatToString(w.start + 1)|] == '-';
    }
    NextButtonMatchesHandler(page, total, perPage);
    view := TableView(Slice(sorted, w), info, page <= 1, w.end >= total);
  }

  /**
   * The Next button is disabled (`end >= total`) exactly when the Next handler
   * would refuse to move (`page >= ceil(total / perPage)`).
   */
  lemma NextButtonMatchesHandler(page: int, total: nat, perPage: PerPage)
    requires page >= 1
    ensures PageWindow(page, perPage, total).end >= total <==> !CanGoNext(page, total, perPage)
  {
    if perPage.Limit? && perPage.n > 0 {
      var n := perPage.n;
      var c := CeilDiv(total, n);
      assert c * n <= total + n - 1 < c * n + n;
      if page < c {
        MulMonotone(page + 1, c, n);
      } else {
        MulMonotone(c, page, n);
      }
    }
  }

  lemma MulMonotone(a: int, b: int, n: nat)
    requires a <= b
    ensures a * n <= b * n
  {
    assert b * n - a * n == (b - a) * n;
  }

  /**
   * Prev (when `page > 1`) and Next (when `CanGoNext`) keep a page that is in
   * range in range: between 1 and the last page.
   */
  lemma NavigationKeepsPageInRange(page: int, total: nat, perPage: PerPage)
    requires perPage.Limit? ==> perPage.n > 0
    requires 1 <= page <= LastPage(total, perPage)
    ensures page > 1 ==> 1 <= page - 1 <= LastPage(total, perPage)
    ensures CanGoNext(page, total, perPage) ==> 1 <= page + 1 <= LastPage(total, perPage)
  {
  }

  class TableManager {
    var salesPage: int
    var transactionsPage: int
    var salesPerPage: PerPage
    var transactionsPerPage: PerPage
    var salesSort: SortState
    var transactionsSort: SortState

    ghost predicate Valid()
      reads this
    {
      salesPage >= 1 && transactionsPage >= 1
    }

    constructor ()
      ensures Valid()
      ensures salesPage == 1 && transactionsPage == 1
      ensures salesPerPage == Limit(25) && transactionsPerPage == Limit(25)
      ensures salesSort == SortState("date", Desc) && transactionsSort == SortState("date", Desc)
    {
      salesPage := 1;
      transactionsPage := 1;
      salesPerPage := Limit(25);
      transactionsPerPage := Limit(25);
      salesSort := SortState("date", Desc);
      transactionsSort := SortState("date", Desc);
    }

    /** `populateSalesTable`: the current page of the sales, sorted by the sales sort state. */
    method PopulateSalesTable(sales: seq<Sale>) returns (sorted: seq<Sale>, view: TableView<Sale>)
      requires Valid()
      ensures multiset(sorted) == multiset(sales) && |sorted| == |sales|
      ensures SortedBy(sorted, SaleKey(salesSort.key), salesSort.dir)
      ensures KeepsTies(sorted, sales, SaleKey(salesSort.key))
      ensures view.rows == Slice(sorted, PageWindow(salesPage, salesPerPage, |sales|))
      ensures view.pageInfo == PageInfo(PageWindow(salesPage, salesPerPage, |sales|), |sales|)
      ensures salesPerPage.Limit? ==> |view.rows| <= salesPerPage.n
      ensures view.pageInfo == "0" <==> sales == []
      ensures view.prevDisabled <==> salesPage <= 1
      ensures view.nextDisabled <==> !CanGoNext(salesPage, |sales|, salesPerPage)
    {
      SaleKeyUniform(salesSort.key);
      sorted, view := RenderPage(sales, SaleKey(salesSort.key), salesSort.dir, salesPage, salesPerPage);
    }

    /** `populateTransactionsTable`: the current page of the transactions. */
    method PopulateTransactionsTable(transactions: seq<Transaction>)
      returns (sorted: seq<Transaction>, view: TableView<Transaction>)
      requires Valid()
      ensures multiset(sorted) == multiset(transactions) && |sorted| == |transactions|
      ensures SortedBy(sorted, TransactionKey(transactionsSort.key), transactionsSort.dir)
      ensures KeepsTies(sorted, transactions, TransactionKey(transactionsSort.key))
      ensures view.rows == Slice(sorted, PageWindow(transactionsPage, transactionsPerPage, |transactions|))
      ensures view.pageInfo == PageInfo(PageWindow(transactionsPage, transactionsPerPage, |transactions|), |transactions|)
      ensures transactionsPerPage.Limit? ==> |view.rows| <= transactionsPerPage.n
      ensures view.pageInfo == "0" <==> transactions == []
      ensures view.prevDisabled <==> transactionsPage <= 1
      ensures view.nextDisabled <==> !CanGoNext(transactionsPage, |transactions|, transactionsPerPage)
    {
      TransactionKeyUniform(transactionsSort.key);
      sorted, view := RenderPage(transactions, TransactionKey(transactionsSort.key), transactionsSort.dir,
        transactionsPage, transactionsPerPage);
    }

    /** The records-per-page selector: store the new setting and go back to page 1. */
    method SetRecordsPerPage(table: Table, perPage: PerPage)
      requires Valid()
      modifies this
      ensures Valid()
      ensures table == SalesTable ==>
        salesPerPage == perPage && salesPage == 1
        && transactionsPage == old(transactionsPage) && transactionsPerPage == old(transactionsPerPage)
      ensures table == TransactionsTable ==>
        transactionsPerPage == perPage && transactionsPage == 1
        && salesPage == old(salesPage) && salesPerPage == old(salesPerPage)
      ensures salesSort == old(salesSort) && transactionsSort == old(transactionsSort)
    {
      if table == SalesTable {
        salesPerPage := perPage;
        salesPage := 1;
      } else {
        transactionsPerPage := perPage;
        transactionsPage := 1;
      }
    }

    /** The Prev button: go back one page unless on the first. */
    method PrevPage(table: Table) returns (moved: bool)
      requires Valid()
      modifies this
      ensures Valid()
      ensures table == SalesTable ==>
        moved == (old(salesPage) > 1)
        && salesPage == (if moved then old(salesPage) - 1 else old(salesPage))
        && transactionsPage == old(transactionsPage)
      ensures table == TransactionsTable ==>
        moved == (old(transactionsPage) > 1)
        && transactionsPage == (if moved then old(transactionsPage) - 1 else old(transactionsPage))
        && salesPage == old(salesPage)
      ensures salesPerPage == old(salesPerPage) && transactionsPerPage == old(transactionsPerPage)
      ensures salesSort == old(salesSort) && transactionsSort == old(transactionsSort)
    {
      moved := false;
      if table == SalesTable {
        if salesPage > 1 {
          salesPage := salesPage - 1;
          moved := true;
        }
      } else {
        if transactionsPage > 1 {
          transactionsPage := transactionsPage - 1;
          moved := true;
        }
      }
    }

    /** The Next button: advance one page while there is a later one; `total` is the shown list's length. */
    method NextPage(table: Table, total: nat) returns (moved: bool)
      requires Valid()
      modifies this
      ensures Valid()
      ensures table == SalesTable ==>
        moved == CanGoNext(old(salesPage), total, salesPerPage)
        && salesPage == (if moved then old(salesPage) + 1 else old(salesPage))
        && transactionsPage == old(transactionsPage)
      ensures table == TransactionsTable ==>
        moved == CanGoNext(old(transactionsPage), total, transactionsPerPage)
        && transactionsPage == (if moved then old(transactionsPage) + 1 else old(transactionsPage))
        && salesPage == old(salesPage)
      ensures salesPerPage == old(salesPerPage) && transactionsPerPage == old(transactionsPerPage)
      ensures salesSort == old(salesSort) && transactionsSort == old(transactionsSort)
    {
      moved := false;
      if table == SalesTable {
        if CanGoNext(salesPage, total, salesPerPage) {
          salesPage := salesPage + 1;
          moved := true;
        }
      } else {
        if CanGoNext(transactionsPage, total, transactionsPerPage) {
          transactionsPage := transactionsPage + 1;
          moved := true;
        }
      }
    }

    /**
     * A click on a sortable header: the same column flips the direction, a new
     * column sorts ascending by it; the table goes back to page 1 and the other
     * table is untouched.
     */
    method ClickSortHeader(table: Table, key: string)
      requires Valid()
      modifies this
      ensures Valid()
      ensures table == SalesTable ==>
        && salesSort == ToggledSort(old(salesSort), key)
        && salesPage == 1
        && transactionsSort == old(transactionsSort) && transactionsPage == old(transactionsPage)
      ensures table == TransactionsTable ==>
        && transactionsSort == ToggledSort(old(transactionsSort), key)
        && transactionsPage == 1
        && salesSort == old(salesSort) && salesPage == old(salesPage)
      ensures salesPerPage == old(salesPerPage) && transactionsPerPage == old(transactionsPerPage)
    {
      if table == SalesTable {
        if salesSort.key == key {
          salesSort := salesSort.(dir := if salesSort.dir == Asc then Desc else Asc);
        } else {
          salesSort := SortState(key, Asc);
        }
        salesPage := 1;
      } else {
        if transactionsSort.key == key {
          transactionsSort := transactionsSort.(dir := if transactionsSort.dir == Asc then Desc else Asc);
        } else {
          transactionsSort := SortState(key, Asc);
        }
        transactionsPage := 1;
      }
    }

    /** `resetPagination`: both tables back to page 1, nothing else changes. */
    method ResetPagination()
      modifies this
      ensures Valid()
      ensures salesPage == 1 && transactionsPage == 1
      ensures salesPerPage == old(salesPerPage) && transactionsPerPage == old(transactionsPerPage)
      ensures salesSort == old(salesSort) && transactionsSort == old(transactionsSort)
    {
      salesPage := 1;
      transactionsPage := 1;
    }
  }

  /** The sort state after a header click on `key`. */
  function ToggledSort(s: SortState, key: string): (r: SortState)
    ensures r.key == key
    ensures s.key == key ==> r.dir != s.dir
    ensures s.key != key ==> r.dir == Asc
  {
    if s.key == key then s.(dir := if s.dir == Asc then Desc else Asc) else SortState(key, Asc)
  }

  /** Clicking the same header twice restores the sort state. */
  lemma ToggleTwiceRestores(s: SortState)
    ensures ToggledSort(ToggledSort(s, s.key), s.key) == s
  {
  }
}
