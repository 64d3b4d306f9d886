/** The transactions page (`transactions.page.ts`): its state, the
    filtering that produces what it shows, the totals, the grouping by
    month, the year navigation, the month chips and the validity test of
    the new-transaction form. */
module TransactionsPage {

  import opened Wrappers
  import opened Text
  import opened Models
  import opened Collections
  import opened TransactionFilters
  import opened MonthGroups

  /** The years offered for selection: strictly decreasing. */
  predicate StrictlyDesc(ys: seq<int>) {
    forall i, j :: 0 <= i < j < |ys| ==> ys[i] > ys[j]
  }

  function YearKey(y: int): real {
    y as real
  }

  /** Sorting distinct years from the latest to the earliest leaves them
      strictly decreasing, and keeps every one of them. */
  lemma SortedYears(ys: seq<int>)
    requires DistinctBy(ys, YearKey)
    ensures StrictlyDesc(SortDesc(ys, YearKey))
    ensures forall y :: y in SortDesc(ys, YearKey) <==> y in ys
  {
    var r := SortDesc(ys, YearKey);
    SortDescPermutes(ys, YearKey);
    PermutationKeepsDistinct(ys, r, YearKey);
    forall i, j | 0 <= i < j < |r| ensures r[i] > r[j] {
      assert YearKey(r[i]) >= YearKey(r[j]) && YearKey(r[i]) != YearKey(r[j]);
    }
    SortKeepsMembers(ys, YearKey);
  }

  /** `Math.min(...ys)`. */
  function MinOf(ys: seq<int>): (m: int)
    requires ys != []
    ensures m in ys && forall y :: y in ys ==> m <= y
  {
    if |ys| == 1 then ys[0]
    else
      var m := MinOf(ys[1..]);
      assert forall y :: y in ys <==> y == ys[0] || y in ys[1..];
      if ys[0] < m then ys[0] else m
  }

  /** The lowest year of `canGoToPreviousYear`: the earliest available
      year, or the current year when none is known. */
  function MinYear(years: seq<int>, currentYear: int): int {
    if |years| > 0 then MinOf(years) else currentYear
  }

  predicate PreviousYearAllowed(selected: int, years: seq<int>, currentYear: int) {
    selected > MinYear(years, currentYear) - 5
  }

  predicate NextYearAllowed(selected: int, currentYear: int) {
    selected < currentYear + 1
  }

  /** The years the navigation buttons can reach: from five years before
      the earliest available year to the year after the current one. */
  predicate InYearWindow(selected: int, years: seq<int>, currentYear: int) {
    MinYear(years, currentYear) - 5 <= selected <= currentYear + 1
  }

  /** Once the available years include the current year, the current year
      lies in the window, and each step the buttons allow stays inside it;
      a step out of the window's edge is refused. */
  lemma YearWindowInvariant(selected: int, years: seq<int>, currentYear: int)
    ensures currentYear in years ==> InYearWindow(currentYear, years, currentYear)
    ensures (InYearWindow(selected, years, currentYear) && PreviousYearAllowed(selected, years, currentYear))
              ==> InYearWindow(selected - 1, years, currentYear)
    ensures (InYearWindow(selected, years, currentYear) && NextYearAllowed(selected, currentYear))
              ==> InYearWindow(selected + 1, years, currentYear)
    ensures selected == MinYear(years, currentYear) - 5 ==> !PreviousYearAllowed(selected, years, currentYear)
    ensures selected == currentYear + 1 ==> !NextYearAllowed(selected, currentYear)
  {
  }

  /** `selectMonth`: choosing the selected month again clears the choice. */
  function ToggleMonth(current: Option<int>, m: Option<int>): (r: Option<int>)
    ensures m.Some? ==> (r == m <==> current != m)
    ensures r.Some? ==> r == m
  {
    if current == m then None else m
  }

  /** Choosing a month twice returns to where it started when nothing, or
      that month, was selected, and to no selection otherwise. */
  lemma ToggleMonthTwice(current: Option<int>, m: int)
    ensures ToggleMonth(ToggleMonth(current, Some(m)), Some(m)) == (if current == Some(m) then Some(m) else None)
  {
  }

  const MonthNames: seq<string> := ["Janeiro", "Fevereiro", "Março", "Abril", "Maio", "Junho",
                                    "Julho", "Agosto", "Setembro", "Outubro", "Novembro", "Dezembro"]

  /** The labels of the month chips. */
  const MonthChips: seq<string> := ["Jan", "Fev", "Mar", "Abr", "Mai", "Jun",
                                    "Jul", "Ago", "Set", "Out", "Nov", "Dez"]

  /** `getMonthFullName`: the Portuguese name of months 1 to 12, and the
      empty text for any other number. */
  function MonthFullName(m: int): (r: string)
    ensures r != "" <==> 1 <= m <= 12
  {
    if 1 <= m <= 12 then MonthNames[m - 1] else ""
  }

  /** Each chip label is the first three letters of the month's name. */
  lemma ChipsAbbreviateNames(m: int)
    requires 1 <= m <= 12
    ensures |MonthFullName(m)| > 3 && MonthChips[m - 1] == MonthFullName(m)[..3]
  {
  }

  /** The new-transaction form (`formData`). Identifiers are numbers, which
      are truthy when present and not zero. */
  datatype TransactionForm = TransactionForm(
    releaseTypeId: Option<int>,
    categoryId: Option<int>,
    recurrenceTypeId: Option<int>,
    paymentStatusId: Option<int>,
    description: Option<string>,
    value: Option<real>,
    date: Option<string>,
    paymentMethod: Option<string>,
    notes: Option<string>)

  predicate TruthyId(x: Option<int>) {
    x.Some? && x.value != 0
  }

  /** `isFormValid`, as the chain of truthiness tests it is. */
  predicate IsFormValid(f: TransactionForm) {
    && TruthyId(f.releaseTypeId)
    && TruthyId(f.categoryId)
    && TruthyId(f.paymentStatusId)
    && Truthy(f.description)
    && |CodeUnits(f.description.value)| >= 6
    && f.value.Some? && f.value.value != 0.0
    && f.value.value > 0.0
    && Truthy(f.date)
    && Truthy(f.paymentMethod)
    && |CodeUnits(f.paymentMethod.value)| >= 3
  }

  /** The truthiness tests are implied by the length and sign tests: a form
      is valid exactly when its type, category and payment status are
      chosen, the description has at least six UTF-16 code units, the value
      is positive, a date is set and the payment method has at least three
      code units. */
  lemma FormValidity(f: TransactionForm)
    ensures IsFormValid(f) <==>
              && TruthyId(f.releaseTypeId) && TruthyId(f.categoryId) && TruthyId(f.paymentStatusId)
              && f.description.Some? && |CodeUnits(f.description.value)| >= 6
              && f.value.Some? && f.value.value > 0.0
              && f.date.Some? && f.date.value != ""
              && f.paymentMethod.Some? && |CodeUnits(f.paymentMethod.value)| >= 3
  {
  }

  /** Since `length` counts UTF-16 code units, a five-character description
      holding one character outside the Basic Multilingual Plane is long
      enough. */
  lemma AstralDescriptionLongEnough(f: TransactionForm)
    requires TruthyId(f.releaseTypeId) && TruthyId(f.categoryId) && TruthyId(f.paymentStatusId)
    requires f.value.Some? && f.value.value > 0.0 && f.date.Some? && f.date.value != ""
    requires f.paymentMethod.Some? && |f.paymentMethod.value| >= 3
    requires f.description.Some? && |f.description.value| == 5 && AstralCount(f.description.value) >= 1
    ensures IsFormValid(f)
  {
    CodeUnitsLength(f.description.value);
    CodeUnitsLength(f.paymentMethod.value);
  }

  /** `getEmptyFormData`, with the type and status codes it uses and the
      formatted current date. */
  function EmptyForm(expenseTypeId: int, looseRecurrenceId: int, pendingStatusId: int, today: string): TransactionForm {
    TransactionForm(Some(expenseTypeId), None, Some(looseRecurrenceId), Some(pendingStatusId), Some(""), None,
                    Some(today), Some(""), Some(""))
  }

  /** A freshly opened form cannot be submitted. */
  lemma EmptyFormInvalid(expenseTypeId: int, looseRecurrenceId: int, pendingStatusId: int, today: string)
    ensures !IsFormValid(EmptyForm(expenseTypeId, looseRecurrenceId, pendingStatusId, today))
  {
  }

  class TransactionsPage {

    var allTransactions: seq<ApiTransaction>
    var filteredTransactions: seq<ApiTransaction>
    var groupedTransactions: seq<MonthGroup>
    var filterType: string
    var searchTerm: string
    var selectedYear: int
    var selectedMonth: Option<int>
    var availableYears: seq<int>
    var totalIncome: real
    var totalExpense: real
    var totalBalance: real
    var formData: TransactionForm

    /** The page as constructed: nothing loaded, all types, no search, the
        current year and no month. */
    constructor(currentYear: int, emptyForm: TransactionForm)
      ensures allTransactions == [] && filteredTransactions == [] && groupedTransactions == []
      ensures filterType == "all" && searchTerm == "" && selectedYear == currentYear && selectedMonth == None
      ensures availableYears == [] && totalIncome == 0.0 && totalExpense == 0.0 && totalBalance == 0.0
      ensures formData == emptyForm
    {
      allTransactions := [];
      filteredTransactions := [];
      groupedTransactions := [];
      filterType := "all";
      searchTerm := "";
      selectedYear := currentYear;
      selectedMonth := None;
      availableYears := [];
      totalIncome := 0.0;
      totalExpense := 0.0;
      totalBalance := 0.0;
      formData := emptyForm;
    }

    /** `extractAvailableYears`: the current year and the year of every
        transaction, each once, latest first. The `Set` it fills keeps its
        first-insertion order, so it is a list that grows only by years it
        does not hold yet. */
    method ExtractAvailableYears(currentYear: int)
      modifies this`availableYears
      ensures StrictlyDesc(availableYears)
      ensures forall y :: y in availableYears <==>
                y == currentYear || exists i :: 0 <= i < |allTransactions| && allTransactions[i].date.year == y
    {
      var years: seq<int> := [currentYear];
      var i := 0;
      while i < |allTransactions|
        invariant 0 <= i <= |allTransactions|
        invariant DistinctBy(years, YearKey)
        invariant forall y :: y in years <==>
                    y == currentYear || exists k :: 0 <= k < i && allTransactions[k].date.year == y
      {
        var y := allTransactions[i].date.year;
        if y !in years {
          years := years + [y];
        }
        i := i + 1;
      }
      SortedYears(years);
      availableYears := SortDesc(years, YearKey);
      forall y ensures y in availableYears <==>
                 y == currentYear || exists k :: 0 <= k < |allTransactions| && allTransactions[k].date.year == y {
        assert y in availableYears <==> y in years;
      }
    }

    /** `canGoToPreviousYear`. */
    predicate CanGoToPreviousYear(currentYear: int)
      reads this
    {
      PreviousYearAllowed(selectedYear, availableYears, currentYear)
    }

    /** `canGoToNextYear`. */
    predicate CanGoToNextYear(currentYear: int)
      reads this
    {
      NextYearAllowed(selectedYear, currentYear)
    }

    /** `calculateTotals`: the income and expense sums of what is shown and
        their difference. */
    method CalculateTotals()
      modifies this`totalIncome, this`totalExpense, this`totalBalance
      ensures totalIncome == SumWhere(filteredTransactions, OfReleaseType(IncomeCode), Value)
      ensures totalExpense == SumWhere(filteredTransactions, OfReleaseType(ExpenseCode), Value)
      ensures totalBalance == totalIncome - totalExpense
    {
      totalIncome := SumWhere(filteredTransactions, OfReleaseType(IncomeCode), Value);
      totalExpense := SumWhere(filteredTransactions, OfReleaseType(ExpenseCode), Value);
      totalBalance := totalIncome - totalExpense;
    }

    /** `groupByMonth`: one pass over what is shown, filling the groups in
        order of first appearance, then the latest month first. */
    method GroupByMonth()
      modifies this`groupedTransactions
      ensures groupedTransactions == MonthGroupList(filteredTransactions)
    {
      var ts := filteredTransactions;
      var groups: seq<MonthGroup> := [];
      var i := 0;
      while i < |ts|
        invariant 0 <= i <= |ts|
        invariant groups == Grouped(ts[..i])
      {
        var t := ts[i];
        assert ts[..i + 1][..i] == ts[..i];
        var key := MonthKey(t);
        var j := IndexOfMonth(groups, key);
        if j == |groups| {
          AppendThenUpdate(groups, EmptyGroup(key), Record(EmptyGroup(key), t));
          groups := groups + [EmptyGroup(key)];
        }
        groups := groups[j := Record(groups[j], t)];
        i := i + 1;
      }
      assert ts[..i] == ts;
      groupedTransactions := SortDesc(groups, GroupKey);
    }

    /** The filtering half of `applyFilters`: the year filter, the month
        filter when a month is selected, the type filter unless it is
        `'all'`, the search when there is a term, then the newest-first
        sort. */
    method FilterShown()
      modifies this`filteredTransactions
      ensures filteredTransactions == FilteredView(allTransactions, selectedYear, selectedMonth, filterType, searchTerm)
    {
      var filtered := FilterSteps(allTransactions, selectedYear, selectedMonth, filterType, searchTerm);
      filteredTransactions := SortDesc(filtered, DateKey);
    }

    /** The successive filters of `applyFilters`, each applied only when
        its control is set, keep exactly what the combined test admits. */
    static method FilterSteps(all: seq<ApiTransaction>, year: int, month: Option<int>, kind: string, term: string)
      returns (filtered: seq<ApiTransaction>)
      ensures filtered == Filter(all, ShownBy(year, month, kind, term))
    {
      filtered := Filter(all, InYear(year));
      ghost var byYear := filtered;
      if month.Some? {
        filtered := Filter(filtered, InMonth(month.value));
      }
      OptionalFilter(byYear, month.Some?, InMonth(month.GetOr(0)), MonthTest(month));
      ghost var byMonth := filtered;
      if kind != "all" {
        filtered := Filter(filtered, OfReleaseType(kind));
      }
      OptionalFilter(byMonth, kind != "all", OfReleaseType(kind), TypeTest(kind));
      ghost var byType := filtered;
      if term != "" {
        filtered := Filter(filtered, Matching(ToLower(term)));
      }
      OptionalFilter(byType, term != "", Matching(ToLower(term)), SearchTest(term));
      FilterChain(all, year, month, kind, term);
    }

    /** `applyFilters`: filter and sort, then the totals and the groups of
        the result. */
    method ApplyFilters()
      modifies this`filteredTransactions, this`totalIncome, this`totalExpense, this`totalBalance,
               this`groupedTransactions
      ensures filteredTransactions == FilteredView(allTransactions, selectedYear, selectedMonth, filterType, searchTerm)
      ensures totalIncome == SumWhere(filteredTransactions, OfReleaseType(IncomeCode), Value)
      ensures totalExpense == SumWhere(filteredTransactions, OfReleaseType(ExpenseCode), Value)
      ensures totalBalance == totalIncome - totalExpense
      ensures groupedTransactions == MonthGroupList(filteredTransactions)
    {
      FilterShown();
      CalculateTotals();
      GroupByMonth();
    }

    /** `selectMonth`: toggle the month, then filter again. */
    method SelectMonth(m: Option<int>)
      modifies this`selectedMonth, this`filteredTransactions, this`totalIncome, this`totalExpense,
               this`totalBalance, this`groupedTransactions
      ensures selectedMonth == ToggleMonth(old(selectedMonth), m)
      ensures filteredTransactions == FilteredView(allTransactions, selectedYear, selectedMonth, filterType, searchTerm)
      ensures groupedTransactions == MonthGroupList(filteredTransactions)
      ensures totalIncome == SumWhere(filteredTransactions, OfReleaseType(IncomeCode), Value)
      ensures totalExpense == SumWhere(filteredTransactions, OfReleaseType(ExpenseCode), Value)
      ensures totalBalance == totalIncome - totalExpense
    {
      selectedMonth := if selectedMonth == m then None else m;
      ApplyFilters();
    }

    /** `previousYear`. */
    method PreviousYear()
      modifies this`selectedYear, this`filteredTransactions, this`totalIncome, this`totalExpense,
               this`totalBalance, this`groupedTransactions
      ensures selectedYear == old(selectedYear) - 1
      ensures filteredTransactions == FilteredView(allTransactions, selectedYear, selectedMonth, filterType, searchTerm)
      ensures groupedTransactions == MonthGroupList(filteredTransactions)
      ensures totalIncome == SumWhere(filteredTransactions, OfReleaseType(IncomeCode), Value)
      ensures totalExpense == SumWhere(filteredTransactions, OfReleaseType(ExpenseCode), Value)
      ensures totalBalance == totalIncome - totalExpense
    {
      selectedYear := selectedYear - 1;
      ApplyFilters();
    }

    /** `nextYear`. */
    method NextYear()
      modifies this`selectedYear, this`filteredTransactions, this`totalIncome, this`totalExpense,
               this`totalBalance, this`groupedTransactions
      ensures selectedYear == old(selectedYear) + 1
      ensures filteredTransactions == FilteredView(allTransactions, selectedYear, selectedMonth, filterType, searchTerm)
      ensures groupedTransactions == MonthGroupList(filteredTransactions)
      ensures totalIncome == SumWhere(filteredTransactions, OfReleaseType(IncomeCode), Value)
      ensures totalExpense == SumWhere(filteredTransactions, OfReleaseType(ExpenseCode), Value)
      ensures totalBalance == totalIncome - totalExpense
    {
      selectedYear := selectedYear + 1;
      ApplyFilters();
    }

    /** `isFormValid` on the page's form. */
    predicate FormIsValid()
      reads this
    {
      IsFormValid(formData)
    }
  }
}
