/**
 * The filter panel: the criteria last applied, how many of them are active,
 * their one-line summary, the date-range check, and applying or resetting
 * the inputs (the end date moved to the last millisecond of its day).
 */
module FilterPanel {
  import opened Wrappers
  import opened Seqs
  import opened Text
  import opened Dates
  import opened DataProcessing

  /** The raw text of the five filter inputs. */
  datatype FilterInputs = FilterInputs(
    customer: string,
    startDate: string,
    endDate: string,
    paymentStatus: string,
    paymentMethod: string)

  const EmptyInputs := FilterInputs("", "", "", "", "")

  /**
   * Whether criterion `i` is set, numbering them in summary order: customer,
   * start date, end date, payment status, payment method.
   */
  predicate IsActive(f: FilterValues, i: int)
  {
    if i == 0 then f.customerFilter != ""
    else if i == 1 then f.startDate.Some?
    else if i == 2 then f.endDate.Some?
    else if i == 3 then f.paymentStatusFilter != ""
    else if i == 4 then f.paymentMethodFilter != ""
    else false
  }

  /** The summary text of criterion `i`; dates are shown with the locale's date format. */
  function PartText(f: FilterValues, i: int, dateText: Date -> string): string
    requires 0 <= i < 5 && IsActive(f, i)
  {
    if i == 0 then "Customer: " + f.customerFilter
    else if i == 1 then "From: " + dateText(f.startDate.value)
    else if i == 2 then "To: " + dateText(f.endDate.value)
    else if i == 3 then "Status: " + f.paymentStatusFilter
    else "Method: " + f.paymentMethodFilter
  }

  /** The numbers of the set criteria below `n`, in increasing order. */
  function ActiveUpTo(f: FilterValues, n: nat): seq<int>
  {
    if n == 0 then [] else ActiveUpTo(f, n - 1) + if IsActive(f, n - 1) then [n - 1] else []
  }

  /** The summary parts of the set criteria below `n`, in criterion order. */
  function PartsUpTo(f: FilterValues, n: nat, dateText: Date -> string): seq<string>
    requires n <= 5
  {
    if n == 0 then [] else PartsUpTo(f, n - 1, dateText) + if IsActive(f, n - 1) then [PartText(f, n - 1, dateText)] else []
  }

  /** The numbers of the set criteria, in increasing order. */
  function ActiveFields(f: FilterValues): seq<int>
  {
    ActiveUpTo(f, 5)
  }

  /** One summary part per set criterion, in criterion order. */
  function Parts(f: FilterValues, dateText: Date -> string): seq<string>
  {
    PartsUpTo(f, 5, dateText)
  }

  /** The criteria listed below `n` are exactly the set ones, each once and in increasing order. */
  lemma {:induction false} ActiveUpToMeaning(f: FilterValues, n: nat)
    ensures forall i :: i in ActiveUpTo(f, n) <==> 0 <= i < n && IsActive(f, i)
    ensures forall j, k :: 0 <= j < k < |ActiveUpTo(f, n)| ==> ActiveUpTo(f, n)[j] < ActiveUpTo(f, n)[k]
    ensures |ActiveUpTo(f, n)| <= n
  {
    if n > 0 {
      var init := ActiveUpTo(f, n - 1);
      ActiveUpToMeaning(f, n - 1);
      assert forall j :: 0 <= j < |init| ==> init[j] in init;
    }
  }

  /** The active fields are exactly the set criteria, in increasing order; there are none exactly when nothing is filtered. */
  lemma ActiveFieldsMeaning(f: FilterValues)
    ensures forall i :: i in ActiveFields(f) <==> 0 <= i < 5 && IsActive(f, i)
    ensures forall j, k :: 0 <= j < k < |ActiveFields(f)| ==> ActiveFields(f)[j] < ActiveFields(f)[k]
    ensures |ActiveFields(f)| <= 5
    ensures ActiveFields(f) == [] <==> f == NoFilters
  {
    ActiveUpToMeaning(f, 5);
    if f != NoFilters {
      var i :| 0 <= i < 5 && IsActive(f, i) by {
        if f.customerFilter != "" { assert IsActive(f, 0); }
        else if f.startDate.Some? { assert IsActive(f, 1); }
        else if f.endDate.Some? { assert IsActive(f, 2); }
        else if f.paymentStatusFilter != "" { assert IsActive(f, 3); }
        else { assert IsActive(f, 4); }
      }
      assert i in ActiveFields(f);
    }
  }

  /** There is one summary part per active field below `n`: the text of that criterion. */
  lemma {:induction false} PartsUpToFollow(f: FilterValues, n: nat, dateText: Date -> string)
    requires n <= 5
    ensures |PartsUpTo(f, n, dateText)| == |ActiveUpTo(f, n)|
    ensures forall j :: 0 <= j < |ActiveUpTo(f, n)| ==>
      0 <= ActiveUpTo(f, n)[j] < 5 && IsActive(f, ActiveUpTo(f, n)[j])
      && PartsUpTo(f, n, dateText)[j] == PartText(f, ActiveUpTo(f, n)[j], dateText)
  {
    if n > 0 {
      PartsUpToFollow(f, n - 1, dateText);
      ActiveUpToMeaning(f, n - 1);
    }
  }

  /** The summary has one part per active field: the text of that criterion. */
  lemma PartsFollowActiveFields(f: FilterValues, dateText: Date -> string)
    ensures |Parts(f, dateText)| == |ActiveFields(f)|
    ensures forall j :: 0 <= j < |ActiveFields(f)| ==>
      0 <= ActiveFields(f)[j] < 5 && IsActive(f, ActiveFields(f)[j])
      && Parts(f, dateText)[j] == PartText(f, ActiveFields(f)[j], dateText)
  {
    PartsUpToFollow(f, 5, dateText);
  }

  const NoFiltersText := "No filters applied"

  /** `validateDateRange`: refused exactly when both dates are set and the start is after the end. */
  predicate ValidateDateRange(startDate: Option<Date>, endDate: Option<Date>)
  {
    !(startDate.Some? && endDate.Some? && Time(startDate.value) > Time(endDate.value))
  }

  /**
   * A date input's value: absent when empty, otherwise the parsed date (an
   * unparsable text counts as absent).
   */
  function InputDate(value: string, parseDate: string -> Option<Date>): Option<Date>
  {
    if value == "" then None else parseDate(value)
  }

  /** The criteria `applyFilters` stores: the customer text lower-cased, the end date moved to the end of its day. */
  function AppliedFilters(inputs: FilterInputs, parseDate: string -> Option<Date>): (f: FilterValues)
    ensures f.customerFilter == Lower(inputs.customer)
    ensures f.startDate == InputDate(inputs.startDate, parseDate)
    ensures InputDate(inputs.endDate, parseDate).None? ==> f.endDate.None?
    ensures InputDate(inputs.endDate, parseDate).Some? ==>
      var d, e := InputDate(inputs.endDate, parseDate).value, f.endDate;
      e.Some? && e.value.year == d.year && e.value.month == d.month && e.value.day == d.day
      && e.value.msOfDay == DayMs - 1
    ensures f.paymentStatusFilter == inputs.paymentStatus && f.paymentMethodFilter == inputs.paymentMethod
  {
    var endDate := InputDate(inputs.endDate, parseDate);
    FilterValues(
      Lower(inputs.customer),
      InputDate(inputs.startDate, parseDate),
      if endDate.Some? then Some(EndOfDay(endDate.value)) else None,
      inputs.paymentStatus,
      inputs.paymentMethod)
  }

  /**
   * With the end moved to the end of its day, a range that passes the check
   * contains its start date, and a refused range that starts at midnight
   * contains no date at all.
   */
  lemma DateRangeCheckMeaning(f: FilterValues, raw: Option<Date>)
    requires raw.Some? ==> f.endDate == Some(EndOfDay(raw.value))
    requires raw.None? ==> f.endDate.None?
    ensures ValidateDateRange(f.startDate, raw) && f.startDate.Some? ==> InDateRange(f, f.startDate.value)
    ensures !ValidateDateRange(f.startDate, raw) && f.startDate.value.msOfDay == 0 ==> forall d: Date :: !InDateRange(f, d)
  {
    if f.startDate.Some? && raw.Some? {
      var s, e := f.startDate.value, raw.value;
      if ValidateDateRange(f.startDate, raw) {
        assert Time(s) <= Time(e) <= Time(EndOfDay(e));
      } else if s.msOfDay == 0 {
        forall d: Date ensures !InDateRange(f, d) {
          EndOfDayBound(d, e);
          EndOfDayBound(s, e);
        }
      }
    }
  }

  /** The filter panel: the criteria last applied and the processor they filter. */
  class Filters {
    var currentFilters: FilterValues
    const dataProcessor: DataProcessor

    /** Starts with every criterion empty. */
    constructor (dataProcessor: DataProcessor)
      ensures this.dataProcessor == dataProcessor
      ensures currentFilters == NoFilters
    {
      this.dataProcessor := dataProcessor;
      currentFilters := NoFilters;
    }

    /** `getActiveFilterCount`: one for each set criterion. */
    method GetActiveFilterCount() returns (count: nat)
      ensures count == |ActiveFields(currentFilters)|
      ensures count <= 5
      ensures count == 0 <==> currentFilters == NoFilters
    {
      var f := currentFilters;
      count := 0;
      if f.customerFilter != "" { count := count + 1; }
      assert count == |ActiveUpTo(f, 1)|;
      if f.startDate.Some? { count := count + 1; }
      assert count == |ActiveUpTo(f, 2)|;
      if f.endDate.Some? { count := count + 1; }
      assert count == |ActiveUpTo(f, 3)|;
      if f.paymentStatusFilter != "" { count := count + 1; }
      assert count == |ActiveUpTo(f, 4)|;
      if f.paymentMethodFilter != "" { count := count + 1; }
      ActiveFieldsMeaning(f);
    }

    /** `hasActiveFilters`. */
    method HasActiveFilters() returns (active: bool)
      ensures active <==> currentFilters != NoFilters
    {
      var count := GetActiveFilterCount();
      active := count > 0;
    }

    /**
     * `getFilterSummary`: the parts of the set criteria joined with ", ", or
     * "No filters applied" exactly when none is set.
     */
    method GetFilterSummary(dateText: Date -> string) returns (text: string)
      ensures text == if currentFilters == NoFilters then NoFiltersText else Join(Parts(currentFilters, dateText), ", ")
      ensures text == NoFiltersText <==> currentFilters == NoFilters
    {
      var f := currentFilters;
      var summary: seq<string> := [];
      if f.customerFilter != "" { summary := summary + ["Customer: " + f.customerFilter]; }
      assert summary == PartsUpTo(f, 1, dateText);
      if f.startDate.Some? { summary := summary + ["From: " + dateText(f.startDate.value)]; }
      assert summary == PartsUpTo(f, 2, dateText);
      if f.endDate.Some? { summary := summary + ["To: " + dateText(f.endDate.value)]; }
      assert summary == PartsUpTo(f, 3, dateText);
      if f.paymentStatusFilter != "" { summary := summary + ["Status: " + f.paymentStatusFilter]; }
      assert summary == PartsUpTo(f, 4, dateText);
      if f.paymentMethodFilter != "" { summary := summary + ["Method: " + f.paymentMethodFilter]; }
      assert summary == Parts(f, dateText);
      ActiveFieldsMeaning(f);
      PartsFollowActiveFields(f, dateText);
      if |summary| > 0 {
        text := Join(summary, ", ");
        JoinedSummaryIsNotNoFilters(f, dateText);
      } else {
        text := NoFiltersText;
      }
    }

    /**
     * `applyFilters`: stores the criteria read from the inputs and returns the
     * stored records that meet them.
     */
    method ApplyFilters(inputs: FilterInputs, parseDate: string -> Option<Date>) returns (r: FilteredData)
      modifies this`currentFilters
      ensures currentFilters == AppliedFilters(inputs, parseDate)
      ensures r == dataProcessor.FilterData(currentFilters)
    {
      var endDate := InputDate(inputs.endDate, parseDate);
      var filters := FilterValues(Lower(inputs.customer), InputDate(inputs.startDate, parseDate), endDate,
        inputs.paymentStatus, inputs.paymentMethod);
      if filters.endDate.Some? {
        filters := filters.(endDate := Some(EndOfDay(filters.endDate.value)));
      }
      currentFilters := filters;
      r := dataProcessor.FilterData(filters);
    }

    /** `resetFilters`: clears the five inputs and applies them, so nothing is filtered out. */
    method ResetFilters(parseDate: string -> Option<Date>) returns (r: FilteredData)
      modifies this`currentFilters
      ensures currentFilters == NoFilters
      ensures ActiveFields(currentFilters) == []
      ensures r == FilteredData(dataProcessor.salesData, dataProcessor.transactionsData)
    {
      r := ApplyFilters(EmptyInputs, parseDate);
      assert Lower("") == "";
    }
  }

  /** Every part begins with its label, so a joined summary never reads "No filters applied". */
  lemma JoinedSummaryIsNotNoFilters(f: FilterValues, dateText: Date -> string)
    requires f != NoFilters
    ensures Parts(f, dateText) != [] && Join(Parts(f, dateText), ", ") != NoFiltersText
  {
    ActiveFieldsMeaning(f);
    PartsFollowActiveFields(f, dateText);
    var p := Parts(f, dateText)[0];
    assert p[0] in "CFTSM";
    JoinStartsWithFirst(Parts(f, dateText), ", ");
    assert Join(Parts(f, dateText), ", ")[0] == p[0];
  }
}
