/**
 * The export manager: the CSV report of the stored records that meet the
 * current filter criteria, laid out section by section (header with the
 * criteria, sales, expense transactions, summary statistics).
 */
module ExportReport {
  import opened Wrappers
  import opened Seqs
  import opened Text
  import opened Dates
  import opened DataProcessing

  /**
   * The runtime's text conversions, passed in: `toLocaleDateString`, a date
   * criterion interpolated into the header (`null` when absent), a number
   * interpolated into text, and `toFixed(2)`.
   */
  datatype Formats = Formats(
    dateText: Date -> string,
    criterionDateText: Option<Date> -> string,
    numberText: real -> string,
    fixed2: real -> string)

  const DataUriPrefix := "data:text/csv;charset=utf-8,"
  const SalesHeading := "Sales Data\nDate,Customer,Total Amount,Payment Status,Payment Method\n"
  const TransactionsHeading := "\nTransactions Data\nDate,Description,Amount,Category,Payment Method,Status\n"

  /** The export's own test for a sale: an empty customer criterion is skipped outright. */
  predicate ExportSaleMatches(f: FilterValues, s: Sale)
  {
    && (f.customerFilter == "" || Includes(Lower(s.customer), Lower(f.customerFilter)))
    && (f.startDate.None? || Time(s.date) >= Time(f.startDate.value))
    && (f.endDate.None? || Time(s.date) <= Time(f.endDate.value))
    && (f.paymentStatusFilter == "" || s.paymentStatus == f.paymentStatusFilter)
    && (f.paymentMethodFilter == "" || s.paymentMethod == f.paymentMethodFilter)
  }

  /** The export's test for a transaction: no customer criterion. */
  predicate ExportTransactionMatches(f: FilterValues, t: Transaction)
  {
    && (f.startDate.None? || Time(t.date) >= Time(f.startDate.value))
    && (f.endDate.None? || Time(t.date) <= Time(f.endDate.value))
    && (f.paymentStatusFilter == "" || t.status == f.paymentStatusFilter)
    && (f.paymentMethodFilter == "" || t.paymentMethod == f.paymentMethodFilter)
  }

  /** The exported sales: the stored sales meeting the criteria, in stored order. */
  function ExportedSales(f: FilterValues, sales: seq<Sale>): (r: seq<Sale>)
    ensures IsSubsequence(r, sales)
    ensures forall s :: s in r <==> s in sales && ExportSaleMatches(f, s)
    ensures forall s :: multiset(r)[s] == if ExportSaleMatches(f, s) then multiset(sales)[s] else 0
  {
    FilterIsSubsequence(sales, (s: Sale) => ExportSaleMatches(f, s));
    FilterMultiset(sales, (s: Sale) => ExportSaleMatches(f, s));
    Filter(sales, (s: Sale) => ExportSaleMatches(f, s))
  }

  function ExportedTransactions(f: FilterValues, transactions: seq<Transaction>): (r: seq<Transaction>)
    ensures IsSubsequence(r, transactions)
    ensures forall t :: t in r <==> t in transactions && ExportTransactionMatches(f, t)
    ensures forall t :: multiset(r)[t] == if ExportTransactionMatches(f, t) then multiset(transactions)[t] else 0
  {
    FilterIsSubsequence(transactions, (t: Transaction) => ExportTransactionMatches(f, t));
    FilterMultiset(transactions, (t: Transaction) => ExportTransactionMatches(f, t));
    Filter(transactions, (t: Transaction) => ExportTransactionMatches(f, t))
  }

  /**
   * The export selects exactly what the dashboard's filtering selects: the
   * skipped empty customer criterion matches every customer anyway.
   */
  lemma ExportAgreesWithFilterData(dp: DataProcessor, f: FilterValues)
    ensures ExportedSales(f, dp.salesData) == dp.FilterData(f).sales
    ensures ExportedTransactions(f, dp.transactionsData) == dp.FilterData(f).transactions
  {
    forall s | s in dp.salesData ensures ExportSaleMatches(f, s) <==> SaleMatches(f, s) {
      if f.customerFilter == "" {
        EmptyIsIncluded(Lower(s.customer));
      }
    }
    FilterAgree(dp.salesData, (s: Sale) => ExportSaleMatches(f, s), s => SaleMatches(f, s));
    FilterAgree(dp.transactionsData, (t: Transaction) => ExportTransactionMatches(f, t), t => TransactionMatches(f, t));
  }

  /** With no criteria, everything stored is exported. */
  lemma ExportWithoutFiltersKeepsAll(sales: seq<Sale>, transactions: seq<Transaction>)
    ensures ExportedSales(NoFilters, sales) == sales
    ensures ExportedTransactions(NoFilters, transactions) == transactions
  {
    FilterAll(sales, (s: Sale) => ExportSaleMatches(NoFilters, s));
    FilterAll(transactions, (t: Transaction) => ExportTransactionMatches(NoFilters, t));
  }

  /** One sale's line: date, quoted customer, amount, status, method. */
  function SaleLine(s: Sale, fm: Formats): string
  {
    fm.dateText(s.date) + ",\"" + s.customer + "\"," + fm.numberText(s.totalAmount) + ","
      + s.paymentStatus + "," + s.paymentMethod + "\n"
  }

  /** One transaction's line: date, quoted description, amount, category, method, status. */
  function TransactionLine(t: Transaction, fm: Formats): string
  {
    fm.dateText(t.date) + ",\"" + t.name + "\"," + fm.numberText(t.amount) + ","
      + t.category + "," + t.paymentMethod + "," + t.status + "\n"
  }

  function SaleLines(sales: seq<Sale>, fm: Formats): string
  {
    if sales == [] then "" else SaleLines(sales[..|sales| - 1], fm) + SaleLine(sales[|sales| - 1], fm)
  }

  function TransactionLines(transactions: seq<Transaction>, fm: Formats): string
  {
    if transactions == [] then ""
    else TransactionLines(transactions[..|transactions| - 1], fm) + TransactionLine(transactions[|transactions| - 1], fm)
  }

  /** The report header: title, generation date, and the criteria as given. */
  function HeaderSection(f: FilterValues, today: string, fm: Formats): string
  {
    "Summary Report\n" + "Generated on: " + today + "\n"
      + "Filters: Customer=" + f.customerFilter
      + ", Start Date=" + fm.criterionDateText(f.startDate)
      + ", End Date=" + fm.criterionDateText(f.endDate)
      + ", Status=" + f.paymentStatusFilter
      + ", Method=" + f.paymentMethodFilter + "\n\n"
  }

  function SummarySection(s: SummaryData, fm: Formats): string
  {
    "\nSummary Statistics\n"
      + "Total Revenue," + fm.numberText(s.totalRevenue) + "\n"
      + "Total Expenses," + fm.numberText(s.totalExpenses) + "\n"
      + "Net Profit," + fm.numberText(s.netProfit) + "\n"
      + "Profit Margin," + fm.fixed2(s.profitMargin) + "%\n"
  }

  /** The whole report, section by section. */
  function Report(f: FilterValues, today: string, fm: Formats,
                  sales: seq<Sale>, transactions: seq<Transaction>, summary: SummaryData): string
  {
    DataUriPrefix + HeaderSection(f, today, fm)
      + SalesHeading + SaleLines(sales, fm)
      + TransactionsHeading + TransactionLines(transactions, fm)
      + SummarySection(summary, fm)
  }

  /** The lines of two runs of sales are the lines of the first, then those of the second. */
  lemma {:induction false} SaleLinesAppend(a: seq<Sale>, b: seq<Sale>, fm: Formats)
    ensures SaleLines(a + b, fm) == SaleLines(a, fm) + SaleLines(b, fm)
    decreases |b|
  {
    if b == [] {
      assert a + b == a;
    } else {
      assert (a + b)[..|a + b| - 1] == a + b[..|b| - 1];
      SaleLinesAppend(a, b[..|b| - 1], fm);
    }
  }

  /** No line break inside any field of a sale's line. */
  predicate SaleFieldsOnOneLine(s: Sale, fm: Formats)
  {
    '\n' !in fm.dateText(s.date) && '\n' !in s.customer && '\n' !in fm.numberText(s.totalAmount)
    && '\n' !in s.paymentStatus && '\n' !in s.paymentMethod
  }

  /** One line per sale: with single-line fields, the sales lines hold exactly one line break per sale. */
  lemma {:induction false} OneLinePerSale(sales: seq<Sale>, fm: Formats)
    requires forall s :: s in sales ==> SaleFieldsOnOneLine(s, fm)
    ensures Breaks(SaleLines(sales, fm)) == |sales|
  {
    if sales != [] {
      var init, last := sales[..|sales| - 1], sales[|sales| - 1];
      assert forall s :: s in init ==> s in sales;
      OneLinePerSale(init, fm);
      SaleLineBreaks(last, fm);
    }
  }

  /** A line break count, piece by piece. */
  function Breaks(s: string): nat
  {
    multiset(s)['\n']
  }

  lemma SaleLineBreaks(s: Sale, fm: Formats)
    requires SaleFieldsOnOneLine(s, fm)
    ensures Breaks(SaleLine(s, fm)) == 1
  {
    var d, c, n := fm.dateText(s.date), s.customer, fm.numberText(s.totalAmount);
    assert SaleLine(s, fm) == d + ",\"" + c + "\"," + n + "," + s.paymentStatus + "," + s.paymentMethod + "\n";
    assert Breaks(",\"") == 0 && Breaks("\",") == 0 && Breaks(",") == 0 && Breaks("\n") == 1;
    assert Breaks(d) == 0 && Breaks(c) == 0 && Breaks(n) == 0;
    assert Breaks(s.paymentStatus) == 0 && Breaks(s.paymentMethod) == 0;
  }

  lemma TransactionLineBreaks(t: Transaction, fm: Formats)
    requires TransactionFieldsOnOneLine(t, fm)
    ensures Breaks(TransactionLine(t, fm)) == 1
  {
    var d, c, n := fm.dateText(t.date), t.name, fm.numberText(t.amount);
    assert TransactionLine(t, fm) == d + ",\"" + c + "\"," + n + "," + t.category + "," + t.paymentMethod + "," + t.status + "\n";
    assert Breaks(",\"") == 0 && Breaks("\",") == 0 && Breaks(",") == 0 && Breaks("\n") == 1;
    assert Breaks(d) == 0 && Breaks(c) == 0 && Breaks(n) == 0;
    assert Breaks(t.category) == 0 && Breaks(t.paymentMethod) == 0 && Breaks(t.status) == 0;
  }

  predicate TransactionFieldsOnOneLine(t: Transaction, fm: Formats)
  {
    '\n' !in fm.dateText(t.date) && '\n' !in t.name && '\n' !in fm.numberText(t.amount)
    && '\n' !in t.category && '\n' !in t.paymentMethod && '\n' !in t.status
  }

  lemma {:induction false} OneLinePerTransaction(transactions: seq<Transaction>, fm: Formats)
    requires forall t :: t in transactions ==> TransactionFieldsOnOneLine(t, fm)
    ensures Breaks(TransactionLines(transactions, fm)) == |transactions|
  {
    if transactions != [] {
      var init, last := transactions[..|transactions| - 1], transactions[|transactions| - 1];
      assert forall t :: t in init ==> t in transactions;
      OneLinePerTransaction(init, fm);
      TransactionLineBreaks(last, fm);
    }
  }

  /** The report's figures are those the dashboard's summary shows for the same criteria. */
  lemma ExportedSummaryMatchesDashboard(dp: DataProcessor, f: FilterValues)
    ensures var filtered := dp.FilterData(f);
      var exported := dp.GetSummary(ExportedSales(f, dp.salesData), ExportedTransactions(f, dp.transactionsData));
      && exported == dp.GetSummary(filtered.sales, filtered.transactions)
      && exported.totalRevenue == TotalRevenue(filtered.sales)
      && exported.totalExpenses == TotalExpenses(filtered.transactions)
  {
    ExportAgreesWithFilterData(dp, f);
  }

  /** `sales.forEach(sale => csv += line(sale))`. */
  method AppendSaleLines(csv: string, sales: seq<Sale>, fm: Formats) returns (content: string)
    ensures content == csv + SaleLines(sales, fm)
  {
    content := csv;
    var i := 0;
    while i < |sales|
      invariant 0 <= i <= |sales|
      invariant content == csv + SaleLines(sales[..i], fm)
    {
      assert sales[..i + 1][..i] == sales[..i];
      content := content + SaleLine(sales[i], fm);
      i := i + 1;
    }
    assert sales[..i] == sales;
  }

  method AppendTransactionLines(csv: string, transactions: seq<Transaction>, fm: Formats) returns (content: string)
    ensures content == csv + TransactionLines(transactions, fm)
  {
    content := csv;
    var i := 0;
    while i < |transactions|
      invariant 0 <= i <= |transactions|
      invariant content == csv + TransactionLines(transactions[..i], fm)
    {
      assert transactions[..i + 1][..i] == transactions[..i];
      content := content + TransactionLine(transactions[i], fm);
      i := i + 1;
    }
    assert transactions[..i] == transactions;
  }

  class ExportManager {
    var dataProcessor: DataProcessor?

    constructor ()
      ensures dataProcessor == null
    {
      dataProcessor := null;
    }

    method SetDataProcessor(dp: DataProcessor)
      modifies this
      ensures dataProcessor == dp
    {
      dataProcessor := dp;
    }

    /**
     * `exportData`: nothing without a data processor; otherwise the report
     * text handed to the download, built line by line.
     */
    method ExportData(filters: FilterValues, today: string, fm: Formats) returns (csv: Option<string>)
      ensures dataProcessor == null ==> csv == None
      ensures dataProcessor != null ==>
        var sales := ExportedSales(filters, dataProcessor.salesData);
        var transactions := ExportedTransactions(filters, dataProcessor.transactionsData);
        csv == Some(Report(filters, today, fm, sales, transactions, dataProcessor.GetSummary(sales, transactions)))
    {
      if dataProcessor == null {
        return None;
      }
      var sales := ExportedSales(filters, dataProcessor.salesData);
      var transactions := ExportedTransactions(filters, dataProcessor.transactionsData);
      var content := DataUriPrefix;
      content := content + HeaderSection(filters, today, fm);
      content := content + SalesHeading;
      content := AppendSaleLines(content, sales, fm);
      content := content + TransactionsHeading;
      content := AppendTransactionLines(content, transactions, fm);
      content := content + SummarySection(dataProcessor.GetSummary(sales, transactions), fm);
      csv := Some(content);
    }
  }
}
