/**
 * The data processor: cleaning parsed CSV rows into sales and expense
 * records, filtering them, summing them into the summary figures, and the
 * current-month / previous-month totals the summary compares.
 */
module DataProcessing {
  import opened Wrappers
  import opened Seqs
  import opened Text
  import opened Dates

  /** A row as the CSV parser delivers it in header mode: column name to cell text. */
  type Row = map<string, string>

  /** The cell of a column; a missing column reads as the empty string (both are falsy). */
  function Field(row: Row, column: string): string
  {
    if column in row then row[column] else ""
  }

  /** `value || fallback` on strings. */
  function OrDefault(value: string, fallback: string): string
  {
    if value != "" then value else fallback
  }

  /**
   * The runtime's parsing primitives, abstracted: `new Date(text)` (None for an
   * Invalid Date), `parseFloat` and `parseInt` (None for NaN).
   */
  datatype Parsers = Parsers(
    parseDate: string -> Option<Date>,
    parseFloat: string -> Option<real>,
    parseInt: string -> Option<int>)

  /** A JavaScript number that may be NaN. */
  datatype Number = Num(value: real) | NaN

  function Minus(a: Number, b: Number): Number
  {
    if a.Num? && b.Num? then Num(a.value - b.value) else NaN
  }

  datatype Sale = Sale(
    date: Date,
    customer: string,
    totalAmount: real,
    paymentStatus: string,
    paymentMethod: string,
    totalTrays: int)

  /** An expense transaction; `kind` holds the Type column. */
  datatype Transaction = Transaction(
    date: Date,
    name: string,
    amount: real,
    kind: string,
    category: string,
    paymentMethod: string,
    status: string)

  // ---------------------------------------------------------------------------
  // Customer names: the capture group of `Customer.match(/^(.*?)\s*\(/)`

  function IndexOf(s: string, c: char): (r: Option<nat>)
    ensures r.Some? ==> r.value < |s| && s[r.value] == c && c !in s[..r.value]
    ensures r.None? ==> c !in s
  {
    if s == [] then None
    else if s[0] == c then Some(0)
    else
      var rest := IndexOf(s[1..], c);
      if rest.None? then None
      else
        assert s[..rest.value + 1] == [s[0]] + s[1..][..rest.value];
        Some(rest.value + 1)
  }

  /** The start of the run of whitespace that ends just before index `p`. */
  function WhitespaceRunStart(s: string, p: nat): (k: nat)
    requires p <= |s|
    ensures k <= p
    ensures forall m :: k <= m < p ==> IsWhitespace(s[m])
    ensures k > 0 ==> !IsWhitespace(s[k - 1])
  {
    if p > 0 && IsWhitespace(s[p - 1]) then WhitespaceRunStart(s, p - 1) else p
  }

  /**
   * `^(.*?)\s*\(` matches `s` with a capture group of length `k`: the first `k`
   * characters hold no line terminator (`.` does not match one), and after them
   * come zero or more whitespace characters and then `(`.
   */
  ghost predicate CaptureMatchesAt(s: string, k: int)
  {
    && 0 <= k <= |s|
    && (forall i :: 0 <= i < k ==> !IsLineTerminator(s[i]))
    && exists j :: k <= j < |s| && s[j] == '(' && forall m :: k <= m < j ==> IsWhitespace(s[m])
  }

  /** The capture group of the lazy match, computed from the first `(`. */
  function ParenPrefix(s: string): Option<string>
  {
    match IndexOf(s, '(')
    case None => None
    case Some(p) =>
      var k := WhitespaceRunStart(s, p);
      if exists i :: 0 <= i < k && IsLineTerminator(s[i]) then None else Some(s[..k])
  }

  /** A match whose group starts its whitespace run at or before the first `(` ends at it. */
  lemma MatchEndsAtFirstParen(s: string, p: nat, k: int, j: int)
    requires p < |s| && s[p] == '(' && '(' !in s[..p]
    requires 0 <= k <= p && k <= j < |s| && s[j] == '('
    requires forall m :: k <= m < j ==> IsWhitespace(s[m])
    ensures j == p && k >= WhitespaceRunStart(s, p)
  {
  }

  /**
   * ParenPrefix is the regular expression's answer: it fails exactly when no
   * capture length matches, and otherwise returns the shortest one (the lazy
   * `.*?` tries lengths 0, 1, 2, ... in turn).
   */
  lemma ParenPrefixIsLeastMatch(s: string)
    ensures ParenPrefix(s).None? <==> forall k :: !CaptureMatchesAt(s, k)
    ensures ParenPrefix(s).Some? ==>
      var c := ParenPrefix(s).value;
      && c <= s
      && CaptureMatchesAt(s, |c|)
      && forall k :: 0 <= k < |c| ==> !CaptureMatchesAt(s, k)
  {
    match IndexOf(s, '(')
    case None =>
      assert forall k :: !CaptureMatchesAt(s, k);
    case Some(p) =>
      var k0 := WhitespaceRunStart(s, p);
      forall k | 0 <= k < k0 ensures !CaptureMatchesAt(s, k) {
        if CaptureMatchesAt(s, k) {
          var j :| k <= j < |s| && s[j] == '(' && forall m :: k <= m < j ==> IsWhitespace(s[m]);
          MatchEndsAtFirstParen(s, p, k, j);
        }
      }
      if exists i :: 0 <= i < k0 && IsLineTerminator(s[i]) {
        var i :| 0 <= i < k0 && IsLineTerminator(s[i]);
        forall k | k0 <= k ensures !CaptureMatchesAt(s, k) {
        }
      } else {
        assert s[..k0] <= s;
        assert CaptureMatchesAt(s, k0) by {
          assert k0 <= p < |s| && s[p] == '(' && forall m :: k0 <= m < p ==> IsWhitespace(s[m]);
        }
      }
  }

  /**
   * The customer column's display name: the trimmed text before the first `(`
   * when the pattern matches, otherwise the raw value, and `N/A` when the
   * column is missing or empty.
   */
  function CustomerName(raw: string): (r: string)
    ensures raw == "" ==> r == "N/A"
    ensures raw != "" && ParenPrefix(raw).None? ==> r == raw
    ensures raw != "" && ParenPrefix(raw).Some? ==>
      r == Trim(ParenPrefix(raw).value) && '(' !in r
  {
    if raw == "" then "N/A"
    else match ParenPrefix(raw)
      case Some(p) =>
        ParenPrefixIsLeastMatch(raw);
        var j := IndexOf(raw, '(');
        assert '(' !in p by {
          assert j.Some? && |p| <= j.value && p == raw[..j.value][..|p|];
        }
        Trim(p)
      case None => raw
  }

  // ---------------------------------------------------------------------------
  // Cleaning: map each row to a record or null, then drop the nulls and the
  // records without a valid date or a positive amount.

  /**
   * `parseFloat(String(cell).replace(/,/g, '')) || 0` when the cell is present
   * and non-empty, otherwise 0.
   */
  function ParsedAmount(row: Row, column: string, P: Parsers): real
  {
    var text := Field(row, column);
    if text == "" then 0.0
    else match P.parseFloat(RemoveAll(text, ','))
      case Some(v) => v
      case None => 0.0
  }

  /** `parseInt(cell) || 0`. */
  function ParsedCount(row: Row, column: string, P: Parsers): int
  {
    match P.parseInt(Field(row, column))
    case Some(v) => v
    case None => 0
  }

  /** The date of a row, when its Date cell is present and parses. */
  function RowDate(row: Row, P: Parsers): Option<Date>
  {
    if Field(row, "Date") == "" then None else P.parseDate(Field(row, "Date"))
  }

  /** One row of the sales file, or None when the cleaner drops it. */
  function CleanSaleRow(row: Row, P: Parsers): (r: Option<Sale>)
    ensures r.Some? <==> RowDate(row, P).Some? && ParsedAmount(row, "Total Amount", P) > 0.0
    ensures Field(row, "Date") == "" ==> r.None?
    ensures r.Some? ==>
      && Some(r.value.date) == RowDate(row, P)
      && r.value.totalAmount > 0.0
      && r.value.totalAmount == ParsedAmount(row, "Total Amount", P)
      && r.value.customer == CustomerName(Field(row, "Customer"))
      && (Field(row, "Payment Status") == "" ==> r.value.paymentStatus == "N/A")
      && (Field(row, "Payment Status") != "" ==> r.value.paymentStatus == Field(row, "Payment Status"))
      && (Field(row, "Payment Method") == "" ==> r.value.paymentMethod == "N/A")
      && (Field(row, "Payment Method") != "" ==> r.value.paymentMethod == Field(row, "Payment Method"))
      && (P.parseInt(Field(row, "Total Trays")).None? ==> r.value.totalTrays == 0)
      && (P.parseInt(Field(row, "Total Trays")).Some? ==> r.value.totalTrays == P.parseInt(Field(row, "Total Trays")).value)
  {
    var totalAmount := ParsedAmount(row, "Total Amount", P);
    match RowDate(row, P)
    case None => None
    case Some(date) =>
      if totalAmount > 0.0 then
        Some(Sale(
          date,
          CustomerName(Field(row, "Customer")),
          totalAmount,
          OrDefault(Field(row, "Payment Status"), "N/A"),
          OrDefault(Field(row, "Payment Method"), "N/A"),
          ParsedCount(row, "Total Trays", P)))
      else None
  }

  /** One row of the transactions file, or None when the cleaner drops it. */
  function CleanTransactionRow(row: Row, P: Parsers): (r: Option<Transaction>)
    ensures r.Some? <==> RowDate(row, P).Some? && ParsedAmount(row, "Expense Amount", P) > 0.0
    ensures Field(row, "Date") == "" ==> r.None?
    ensures r.Some? ==>
      && Some(r.value.date) == RowDate(row, P)
      && r.value.amount > 0.0
      && r.value.amount == ParsedAmount(row, "Expense Amount", P)
      && (Field(row, "Category") == "" ==> r.value.category == "Uncategorized")
      && (Field(row, "Category") != "" ==> r.value.category == Field(row, "Category"))
      && (Field(row, "Name") == "" ==> r.value.name == "N/A")
      && (Field(row, "Name") != "" ==> r.value.name == Field(row, "Name"))
      && (Field(row, "Type") == "" ==> r.value.kind == "N/A")
      && (Field(row, "Type") != "" ==> r.value.kind == Field(row, "Type"))
      && (Field(row, "Payment Method") == "" ==> r.value.paymentMethod == "N/A")
      && (Field(row, "Payment Method") != "" ==> r.value.paymentMethod == Field(row, "Payment Method"))
      && (Field(row, "Status") == "" ==> r.value.status == "N/A")
      && (Field(row, "Status") != "" ==> r.value.status == Field(row, "Status"))
  {
    var amount := ParsedAmount(row, "Expense Amount", P);
    match RowDate(row, P)
    case None => None
    case Some(date) =>
      if amount > 0.0 then
        Some(Transaction(
          date,
          OrDefault(Field(row, "Name"), "N/A"),
          amount,
          OrDefault(Field(row, "Type"), "N/A"),
          OrDefault(Field(row, "Category"), "Uncategorized"),
          OrDefault(Field(row, "Payment Method"), "N/A"),
          OrDefault(Field(row, "Status"), "N/A")))
      else None
  }

  /** `cleanSalesData`: the kept rows' records, in row order. */
  function CleanSalesData(rows: seq<Row>, P: Parsers): (r: seq<Sale>)
    ensures |r| <= |rows|
    ensures forall row :: row in rows && CleanSaleRow(row, P).Some? ==> CleanSaleRow(row, P).value in r
    ensures forall s :: s in r ==> s.totalAmount > 0.0
    ensures forall s :: s in r ==> exists row :: row in rows && Field(row, "Date") != "" && RowDate(row, P) == Some(s.date)
    ensures forall s :: s in r ==> exists row :: row in rows && CleanSaleRow(row, P) == Some(s)
  {
    FilterMap(rows, row => CleanSaleRow(row, P))
  }

  /** `cleanTransactionsData`: the kept rows' records, in row order. */
  function CleanTransactionsData(rows: seq<Row>, P: Parsers): (r: seq<Transaction>)
    ensures |r| <= |rows|
    ensures forall row :: row in rows && CleanTransactionRow(row, P).Some? ==> CleanTransactionRow(row, P).value in r
    ensures forall t :: t in r ==> t.amount > 0.0
    ensures forall t :: t in r ==> exists row :: row in rows && Field(row, "Date") != "" && RowDate(row, P) == Some(t.date)
    ensures forall t :: t in r ==> exists row :: row in rows && CleanTransactionRow(row, P) == Some(t)
  {
    FilterMap(rows, row => CleanTransactionRow(row, P))
  }

  /** Cleaning works row by row: the records of a concatenation are concatenated in order. */
  lemma CleanSalesPreservesOrder(a: seq<Row>, b: seq<Row>, P: Parsers)
    ensures CleanSalesData(a + b, P) == CleanSalesData(a, P) + CleanSalesData(b, P)
  {
    FilterMapAppend(a, b, row => CleanSaleRow(row, P));
  }

  lemma CleanTransactionsPreservesOrder(a: seq<Row>, b: seq<Row>, P: Parsers)
    ensures CleanTransactionsData(a + b, P) == CleanTransactionsData(a, P) + CleanTransactionsData(b, P)
  {
    FilterMapAppend(a, b, row => CleanTransactionRow(row, P));
  }

  // ---------------------------------------------------------------------------
  // Filtering

  /**
   * The filter criteria: a customer search text, optional start and end dates,
   * and a payment status and method that must match exactly when non-empty.
   */
  datatype FilterValues = FilterValues(
    customerFilter: string,
    startDate: Option<Date>,
    endDate: Option<Date>,
    paymentStatusFilter: string,
    paymentMethodFilter: string)

  const NoFilters := FilterValues("", None, None, "", "")

  predicate InDateRange(f: FilterValues, d: Date)
  {
    (f.startDate.None? || Time(d) >= Time(f.startDate.value))
    && (f.endDate.None? || Time(d) <= Time(f.endDate.value))
  }

  /** The test `filterData` applies to a sale. */
  predicate SaleMatches(f: FilterValues, s: Sale)
  {
    && Includes(Lower(s.customer), Lower(f.customerFilter))
    && InDateRange(f, s.date)
    && (f.paymentStatusFilter == "" || s.paymentStatus == f.paymentStatusFilter)
    && (f.paymentMethodFilter == "" || s.paymentMethod == f.paymentMethodFilter)
  }

  /** The test `filterData` applies to a transaction: there is no customer test. */
  predicate TransactionMatches(f: FilterValues, t: Transaction)
  {
    && InDateRange(f, t.date)
    && (f.paymentStatusFilter == "" || t.status == f.paymentStatusFilter)
    && (f.paymentMethodFilter == "" || t.paymentMethod == f.paymentMethodFilter)
  }

  datatype FilteredData = FilteredData(sales: seq<Sale>, transactions: seq<Transaction>)

  /** The filtered lists: exactly the matching records, in stored order. */
  function FilterRecords(f: FilterValues, sales: seq<Sale>, transactions: seq<Transaction>): (r: FilteredData)
    ensures IsSubsequence(r.sales, sales) && IsSubsequence(r.transactions, transactions)
    ensures forall s :: s in r.sales <==> s in sales && SaleMatches(f, s)
    ensures forall t :: t in r.transactions <==> t in transactions && TransactionMatches(f, t)
    ensures forall s :: multiset(r.sales)[s] == if SaleMatches(f, s) then multiset(sales)[s] else 0
    ensures forall t :: multiset(r.transactions)[t] == if TransactionMatches(f, t) then multiset(transactions)[t] else 0
  {
    FilterIsSubsequence(sales, s => SaleMatches(f, s));
    FilterIsSubsequence(transactions, t => TransactionMatches(f, t));
    FilterMultiset(sales, s => SaleMatches(f, s));
    FilterMultiset(transactions, t => TransactionMatches(f, t));
    FilteredData(Filter(sales, s => SaleMatches(f, s)), Filter(transactions, t => TransactionMatches(f, t)))
  }

  /** With every criterion empty, filtering keeps everything. */
  lemma NoFiltersKeepEverything(sales: seq<Sale>, transactions: seq<Transaction>)
    ensures FilterRecords(NoFilters, sales, transactions) == FilteredData(sales, transactions)
  {
    forall s | s in sales ensures SaleMatches(NoFilters, s) {
      EmptyIsIncluded(Lower(s.customer));
    }
    FilterAll(sales, s => SaleMatches(NoFilters, s));
    FilterAll(transactions, t => TransactionMatches(NoFilters, t));
  }

  /** The customer criterion has no effect on the transactions. */
  lemma TransactionsIgnoreCustomer(f: FilterValues, customer: string, sales: seq<Sale>, transactions: seq<Transaction>)
    ensures FilterRecords(f, sales, transactions).transactions
         == FilterRecords(f.(customerFilter := customer), sales, transactions).transactions
  {
    var g := f.(customerFilter := customer);
    forall t | t in transactions ensures TransactionMatches(f, t) <==> TransactionMatches(g, t) {
      assert InDateRange(f, t.date) == InDateRange(g, t.date);
    }
    FilterAgree(transactions, t => TransactionMatches(f, t), t => TransactionMatches(g, t));
  }

  // ---------------------------------------------------------------------------
  // Totals and the summary

  function SaleAmount(s: Sale): real { s.totalAmount }
  function TransactionAmount(t: Transaction): real { t.amount }

  function TotalRevenue(sales: seq<Sale>): real { Sum(sales, SaleAmount) }
  function TotalExpenses(transactions: seq<Transaction>): real { Sum(transactions, TransactionAmount) }

  /**
   * `previousPeriodData`: unset (`{}`, whose fields read as undefined) until
   * the current/previous month totals have been computed.
   */
  datatype PeriodData =
    | Unset
    | Totals(currentRevenue: real, currentExpenses: real, previousRevenue: real, previousExpenses: real)

  datatype SummaryData = SummaryData(
    totalRevenue: real,
    totalExpenses: real,
    netProfit: real,
    profitMargin: real,
    revenueChange: Number,
    expensesChange: Number,
    profitChange: Number)

  /** The sales and expenses dated in the given month. */
  function SalesInMonth(sales: seq<Sale>, year: int, month: int): seq<Sale>
  {
    Filter(sales, (s: Sale) => InMonth(s.date, year, month))
  }

  function TransactionsInMonth(transactions: seq<Transaction>, year: int, month: int): seq<Transaction>
  {
    Filter(transactions, (t: Transaction) => InMonth(t.date, year, month))
  }

  /** The month key of a record's date. */
  function DateMonth(d: Date): int { MonthIndex(d.year, d.month) }

  /**
   * The previous-month filter with the January wrap selects exactly the records
   * dated one month before `now` on the month line.
   */
  lemma PreviousMonthSelectsMonthBefore(sales: seq<Sale>, transactions: seq<Transaction>, now: Date)
    ensures var (py, pm) := PreviousMonth(now.year, now.month);
      && SalesInMonth(sales, py, pm) == Filter(sales, (s: Sale) => DateMonth(s.date) + 1 == DateMonth(now))
      && TransactionsInMonth(transactions, py, pm) == Filter(transactions, (t: Transaction) => DateMonth(t.date) + 1 == DateMonth(now))
  {
    var (py, pm) := PreviousMonth(now.year, now.month);
    forall d: Date ensures InMonth(d, py, pm) <==> DateMonth(d) + 1 == DateMonth(now) {
      assert 0 <= pm < 12;
    }
    FilterAgree(sales, (s: Sale) => InMonth(s.date, py, pm), (s: Sale) => DateMonth(s.date) + 1 == DateMonth(now));
    FilterAgree(transactions, (t: Transaction) => InMonth(t.date, py, pm), (t: Transaction) => DateMonth(t.date) + 1 == DateMonth(now));
  }

  /** The data processor's state: the cleaned lists and the period totals. */
  class DataProcessor {
    var salesData: seq<Sale>
    var transactionsData: seq<Transaction>
    var previousPeriodData: PeriodData

    constructor ()
      ensures salesData == [] && transactionsData == [] && previousPeriodData == Unset
    {
      salesData := [];
      transactionsData := [];
      previousPeriodData := Unset;
    }

    /**
     * The completion step of `processFile`, on the rows the CSV parser produced:
     * `'sales'` rows are cleaned into the sales list, any other kind into the
     * transactions list; the other list is left as it was.
     */
    method ProcessFile(rows: seq<Row>, kind: string, P: Parsers) returns (count: nat)
      modifies this`salesData, this`transactionsData
      ensures kind == "sales" ==> salesData == CleanSalesData(rows, P) && transactionsData == old(transactionsData)
      ensures kind != "sales" ==> transactionsData == CleanTransactionsData(rows, P) && salesData == old(salesData)
      ensures count == (if kind == "sales" then |salesData| else |transactionsData|) && count <= |rows|
    {
      if kind == "sales" {
        salesData := CleanSalesData(rows, P);
        count := |salesData|;
      } else {
        transactionsData := CleanTransactionsData(rows, P);
        count := |transactionsData|;
      }
    }

    /**
     * Totals of the month of `now` (the clock, passed in) and of the month
     * before it; January's previous month is December of the year before.
     */
    method CalculatePreviousPeriodData(now: Date)
      modifies this`previousPeriodData
      ensures previousPeriodData == Totals(
        TotalRevenue(SalesInMonth(salesData, now.year, now.month)),
        TotalExpenses(TransactionsInMonth(transactionsData, now.year, now.month)),
        TotalRevenue(Filter(salesData, (s: Sale) => DateMonth(s.date) + 1 == DateMonth(now))),
        TotalExpenses(Filter(transactionsData, (t: Transaction) => DateMonth(t.date) + 1 == DateMonth(now))))
    {
      var (previousYear, previousMonth) := PreviousMonth(now.year, now.month);
      var currentSales := SalesInMonth(salesData, now.year, now.month);
      var currentExpenses := TransactionsInMonth(transactionsData, now.year, now.month);
      var previousSales := SalesInMonth(salesData, previousYear, previousMonth);
      var previousExpenses := TransactionsInMonth(transactionsData, previousYear, previousMonth);
      PreviousMonthSelectsMonthBefore(salesData, transactionsData, now);
      previousPeriodData := Totals(
        TotalRevenue(currentSales), TotalExpenses(currentExpenses),
        TotalRevenue(previousSales), TotalExpenses(previousExpenses));
    }

    /**
     * `getSummary`: the totals of the given lists, their difference and margin,
     * and the month-over-month changes (NaN while the period totals are unset).
     */
    function GetSummary(sales: seq<Sale>, transactions: seq<Transaction>): (r: SummaryData)
      reads this
      ensures r.totalRevenue == TotalRevenue(sales) && r.totalExpenses == TotalExpenses(transactions)
      ensures r.netProfit == r.totalRevenue - r.totalExpenses
      ensures r.totalRevenue <= 0.0 ==> r.profitMargin == 0.0
      ensures r.totalRevenue > 0.0 ==> r.profitMargin * r.totalRevenue == r.netProfit * 100.0
      ensures r.revenueChange.NaN? <==> previousPeriodData.Unset?
      ensures r.expensesChange.NaN? <==> previousPeriodData.Unset?
      ensures r.profitChange == Minus(r.revenueChange, r.expensesChange)
      ensures previousPeriodData.Totals? ==>
        && r.revenueChange == Num(previousPeriodData.currentRevenue - previousPeriodData.previousRevenue)
        && r.expensesChange == Num(previousPeriodData.currentExpenses - previousPeriodData.previousExpenses)
    {
      var totalRevenue := TotalRevenue(sales);
      var totalExpenses := TotalExpenses(transactions);
      var netProfit := totalRevenue - totalExpenses;
      var profitMargin := if totalRevenue > 0.0 then (netProfit / totalRevenue) * 100.0 else 0.0;
      match previousPeriodData
      case Unset =>
        SummaryData(totalRevenue, totalExpenses, netProfit, profitMargin, NaN, NaN, NaN)
      case Totals(cr, ce, pr, pe) =>
        SummaryData(totalRevenue, totalExpenses, netProfit, profitMargin,
          Num(cr - pr), Num(ce - pe), Num((cr - ce) - (pr - pe)))
    }

    /** `filterData` over the stored lists. */
    function FilterData(f: FilterValues): (r: FilteredData)
      reads this
      ensures IsSubsequence(r.sales, salesData) && IsSubsequence(r.transactions, transactionsData)
      ensures forall s :: s in r.sales <==> s in salesData && SaleMatches(f, s)
      ensures forall t :: t in r.transactions <==> t in transactionsData && TransactionMatches(f, t)
      ensures forall s :: multiset(r.sales)[s] == if SaleMatches(f, s) then multiset(salesData)[s] else 0
      ensures forall t :: multiset(r.transactions)[t] == if TransactionMatches(f, t) then multiset(transactionsData)[t] else 0
      ensures f == NoFilters ==> r == FilteredData(salesData, transactionsData)
    {
      NoFiltersKeepEverything(salesData, transactionsData);
      FilterRecords(f, salesData, transactionsData)
    }
  }

  /** With non-negative expenses, the profit margin of a positive revenue is at most 100%. */
  lemma MarginAtMostHundred(dp: DataProcessor, sales: seq<Sale>, transactions: seq<Transaction>)
    requires forall t :: t in transactions ==> t.amount >= 0.0
    ensures dp.GetSummary(sales, transactions).profitMargin <= 100.0
  {
    var r := dp.GetSummary(sales, transactions);
    SumNonNegative(transactions, TransactionAmount);
    if r.totalRevenue > 0.0 && r.profitMargin > 100.0 {
      PositiveProduct(r.profitMargin - 100.0, r.totalRevenue);
      assert false;
    }
  }

  lemma PositiveProduct(a: real, b: real)
    requires a > 0.0 && b > 0.0
    ensures a * b > 0.0
  {
  }
}
