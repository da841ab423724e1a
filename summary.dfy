/**
 * The summary component's arithmetic: period-over-period change, the sign
 * and magnitude shown by a change indicator, and the summary statistics.
 */
module SummaryComponent {
  import opened DataProcessing

  datatype PeriodChange = PeriodChange(change: real, percentage: real, isPositive: bool)

  /**
   * `calculatePeriodChange`: the change is always `current - previous`; the
   * percentage is relative to `previous`, or 100/0 against a zero baseline.
   */
  function CalculatePeriodChange(current: real, previous: real): (r: PeriodChange)
    ensures previous + r.change == current
    ensures previous != 0.0 ==> r.percentage * previous == r.change * 100.0
    ensures previous == 0.0 ==> r.percentage == (if current > 0.0 then 100.0 else 0.0)
    ensures r.isPositive <==> if previous == 0.0 then current > 0.0 else current >= previous
  {
    if previous == 0.0 then
      PeriodChange(current, if current > 0.0 then 100.0 else 0.0, current > 0.0)
    else
      var change := current - previous;
      PeriodChange(change, (change / previous) * 100.0, change >= 0.0)
  }

  /** Against a positive baseline the percentage has the sign the indicator shows. */
  lemma PercentageSignAgrees(current: real, previous: real)
    requires previous > 0.0
    ensures CalculatePeriodChange(current, previous).isPositive <==> CalculatePeriodChange(current, previous).percentage >= 0.0
  {
  }

  /** What a change indicator shows: a sign, then the formatted magnitude. */
  datatype Indicator = Indicator(sign: char, magnitude: Number, positive: bool)

  /**
   * `updateChangeIndicator`'s rule: '+' (and the positive style) when the change
   * is at least 0, '-' otherwise (including NaN), followed by `Math.abs(change)`.
   */
  function ChangeIndicator(change: Number): (r: Indicator)
    ensures r.positive <==> change.Num? && change.value >= 0.0
    ensures r.sign == (if r.positive then '+' else '-')
    ensures r.magnitude.NaN? <==> change.NaN?
    ensures r.magnitude.Num? ==> r.magnitude.value >= 0.0
  {
    match change
    case NaN => Indicator('-', NaN, false)
    case Num(v) =>
      var magnitude := if v < 0.0 then -v else v;
      Indicator(if v >= 0.0 then '+' else '-', Num(magnitude), v >= 0.0)
  }

  /** The shown sign and magnitude give back the change. */
  lemma IndicatorRoundTrip(change: Number)
    requires change.Num?
    ensures var r := ChangeIndicator(change);
      (if r.sign == '+' then r.magnitude.value else -r.magnitude.value) == change.value
  {
  }

  /** The indicator's text, with the currency formatting passed in. */
  function IndicatorText(change: Number, formatCurrency: Number -> string): (text: string)
    ensures text != [] && (text[0] == '+' <==> change.Num? && change.value >= 0.0)
    ensures change.Num? ==> text[1..] == formatCurrency(Num(if change.value < 0.0 then -change.value else change.value))
    ensures change.NaN? ==> text[1..] == formatCurrency(NaN)
  {
    var r := ChangeIndicator(change);
    [r.sign] + formatCurrency(r.magnitude)
  }

  datatype SummaryStats = SummaryStats(
    totalRevenue: real,
    totalExpenses: real,
    netProfit: real,
    profitMargin: real,
    revenueChange: Number,
    expensesChange: Number,
    profitChange: Number,
    salesCount: nat,
    transactionsCount: nat)

  /** `getSummaryStats`: the seven summary figures and the sizes of the two lists. */
  function GetSummaryStats(dp: DataProcessor, sales: seq<Sale>, transactions: seq<Transaction>): (r: SummaryStats)
    reads dp
    ensures var s := dp.GetSummary(sales, transactions);
      && r.totalRevenue == TotalRevenue(sales) && r.totalExpenses == TotalExpenses(transactions)
      && r.netProfit == r.totalRevenue - r.totalExpenses
      && r.profitMargin == s.profitMargin
      && r.revenueChange == s.revenueChange && r.expensesChange == s.expensesChange
      && r.profitChange == Minus(r.revenueChange, r.expensesChange)
    ensures r.salesCount == |sales| && r.transactionsCount == |transactions|
  {
    var s := dp.GetSummary(sales, transactions);
    SummaryStats(s.totalRevenue, s.totalExpenses, s.netProfit, s.profitMargin,
      s.revenueChange, s.expensesChange, s.profitChange, |sales|, |transactions|)
  }
}
