/** The reports page (`ReportsPage`): the savings rate and the month-on-month
    differences of the comparative endpoint, the current month's expenses
    by category with the largest one singled out, and the export of the
    report. */
module ReportsPage {

  import opened Wrappers
  import opened Models
  import opened Collections
  import Reports

  /** `CategoryTotal`: one category of the current month's expenses. */
  datatype CategoryTotal = CategoryTotal(name: string, icon: string, total: real, percentage: real)

  /** `YearEvolutionResponse`: the months of the year so far. */
  datatype YearEvolution = YearEvolution(year: int, months: seq<MonthData>)

  /** What the three report requests return together (`Promise.all`). */
  datatype Responses = Responses(evolution: YearEvolution, comparative: Comparative)

  function ExpenseName(e: ReportTransaction): string {
    e.categoryName
  }

  function ExpenseValue(e: ReportTransaction): real {
    e.value
  }

  function EntryTotal(c: CategoryTotal): real {
    c.total
  }

  function EntryPercentage(c: CategoryTotal): real {
    c.percentage
  }

  function EntryName(c: CategoryTotal): string {
    c.name
  }

  // ---------------------------------------------------------------------
  // Expenses by category

  /** The `map` callback for one entry of the `Map`: the icon of the
      expense that opened it, its total and its share of all the expenses
      (0 when they do not add up to a positive amount). */
  function Entry(b: Bucket<ReportTransaction, string>, overall: real): CategoryTotal {
    CategoryTotal(b.key, b.first.categoryIcon, b.total, if overall > 0.0 then b.total / overall * 100.0 else 0.0)
  }

  function Entries(bs: seq<Bucket<ReportTransaction, string>>, overall: real): seq<CategoryTotal> {
    seq(|bs|, j requires 0 <= j < |bs| => Entry(bs[j], overall))
  }

  /** The groups of the `Map`, keyed by category name, in insertion order. */
  function Groups(expenses: seq<ReportTransaction>): seq<Bucket<ReportTransaction, string>> {
    GroupBy(expenses, ExpenseName, ExpenseValue)
  }

  /** What `calculateExpensesByCategory` stores in `expensesByCategory`:
      the entries of the `Map`, the percentages taken over the sum of all
      the expenses, sorted by total, largest first. */
  function CategoryTotals(expenses: seq<ReportTransaction>): seq<CategoryTotal> {
    SortDesc(Entries(Groups(expenses), SumOf(expenses, ExpenseValue)), EntryTotal)
  }

  /** `expensesByCategory[0] || null`. */
  function TopOf(entries: seq<CategoryTotal>): Option<CategoryTotal> {
    if entries == [] then None else Some(entries[0])
  }

  lemma {:induction false} EntriesSums(bs: seq<Bucket<ReportTransaction, string>>, overall: real)
    ensures SumOf(Entries(bs, overall), EntryTotal) == BucketTotal(bs)
    ensures overall > 0.0 ==> SumOf(Entries(bs, overall), EntryPercentage) == BucketTotal(bs) / overall * 100.0
  {
    if bs != [] {
      var init := bs[..|bs| - 1];
      var r := Entries(bs, overall);
      EntriesSums(init, overall);
      assert r[..|r| - 1] == Entries(init, overall);
      if overall > 0.0 {
        Reports.PercentOfSum(BucketTotal(init), bs[|bs| - 1].total, BucketTotal(bs), overall);
      }
    }
  }

  /** An entry is named `k` exactly when a group has the key `k`. */
  lemma EntryNamed(bs: seq<Bucket<ReportTransaction, string>>, overall: real, k: string)
    ensures (exists x :: x in Entries(bs, overall) && x.name == k) <==> k in BucketKeys(bs)
  {
    var s := Entries(bs, overall);
    if k in BucketKeys(bs) {
      var j :| 0 <= j < |bs| && BucketKeys(bs)[j] == k;
      assert s[j] in s && s[j].name == k;
    }
    if exists x :: x in s && x.name == k {
      var x :| x in s && x.name == k;
      var j :| 0 <= j < |s| && s[j] == x;
      assert BucketKeys(bs)[j] == k;
    }
  }

  /** Before sorting: distinct names, exactly the category names of the
      expenses, each with its category's total. */
  lemma EntriesOfGroups(expenses: seq<ReportTransaction>)
    ensures var s := Entries(Groups(expenses), SumOf(expenses, ExpenseValue));
            && DistinctBy(s, EntryName)
            && (forall k :: (exists x :: x in s && x.name == k) <==> Occurs(expenses, ExpenseName, k))
            && (forall x :: x in s ==> x.total == SumKey(expenses, ExpenseName, x.name, ExpenseValue))
  {
    var bs := Groups(expenses);
    var overall := SumOf(expenses, ExpenseValue);
    var s := Entries(bs, overall);
    GroupByKeys(expenses, ExpenseName, ExpenseValue);
    forall i, j | 0 <= i < j < |s| ensures s[i].name != s[j].name {
      assert BucketKeys(bs)[i] == s[i].name && BucketKeys(bs)[j] == s[j].name;
    }
    forall k ensures (exists x :: x in s && x.name == k) <==> Occurs(expenses, ExpenseName, k) {
      EntryNamed(bs, overall, k);
    }
    forall x | x in s ensures x.total == SumKey(expenses, ExpenseName, x.name, ExpenseValue) {
      var j :| 0 <= j < |s| && s[j] == x;
      GroupByBucket(expenses, ExpenseName, ExpenseValue, j);
    }
  }

  /** One entry per category name among the expenses, each holding that
      category's total, largest first. */
  lemma CategoryTotalsShows(expenses: seq<ReportTransaction>)
    ensures var r := CategoryTotals(expenses);
            && SortedDesc(r, EntryTotal)
            && DistinctBy(r, EntryName)
            && (forall k :: (exists x :: x in r && x.name == k) <==> Occurs(expenses, ExpenseName, k))
            && (forall x :: x in r ==> x.total == SumKey(expenses, ExpenseName, x.name, ExpenseValue))
  {
    var s := Entries(Groups(expenses), SumOf(expenses, ExpenseValue));
    EntriesOfGroups(expenses);
    SortDescPermutes(s, EntryTotal);
    PermutationKeepsDistinct(s, SortDesc(s, EntryTotal), EntryName);
    SortKeepsMembers(s, EntryTotal);
  }

  /** The entries add up to the month's expenses, and their percentages to
      100 when those are positive; otherwise every percentage is 0. */
  lemma CategoryTotalsSums(expenses: seq<ReportTransaction>)
    ensures SumOf(CategoryTotals(expenses), EntryTotal) == SumOf(expenses, ExpenseValue)
    ensures SumOf(expenses, ExpenseValue) > 0.0 ==> SumOf(CategoryTotals(expenses), EntryPercentage) == 100.0
  {
    var bs := Groups(expenses);
    var overall := SumOf(expenses, ExpenseValue);
    var s := Entries(bs, overall);
    GroupByPartition(expenses, ExpenseName, ExpenseValue);
    EntriesSums(bs, overall);
    SortKeepsSum(s, EntryTotal, EntryTotal);
    SortKeepsSum(s, EntryTotal, EntryPercentage);
    if overall > 0.0 {
      Reports.WholeIsHundred(overall);
    }
  }

  lemma CategoryTotalsNoPercentages(expenses: seq<ReportTransaction>)
    requires SumOf(expenses, ExpenseValue) <= 0.0
    ensures forall x :: x in CategoryTotals(expenses) ==> x.percentage == 0.0
  {
    var s := Entries(Groups(expenses), SumOf(expenses, ExpenseValue));
    SortKeepsMembers(s, EntryTotal);
    forall x | x in s ensures x.percentage == 0.0 {
      var j :| 0 <= j < |s| && s[j] == x;
    }
  }

  /** There is a top category exactly when the month has expenses, and it
      is one of the entries with no entry above it. */
  lemma TopIsLargest(expenses: seq<ReportTransaction>)
    ensures var r := CategoryTotals(expenses);
            && (TopOf(r).None? <==> expenses == [])
            && (TopOf(r).Some? ==> TopOf(r).value in r && forall x :: x in r ==> x.total <= TopOf(r).value.total)
  {
    GroupByPartition(expenses, ExpenseName, ExpenseValue);
    var bs := Groups(expenses);
    if bs == [] {
      assert BucketCount(bs) == 0;
    }
  }

  // ---------------------------------------------------------------------
  // Savings rate

  /** The savings rate after `calculateMetrics`: recomputed from a month
      with incomes, kept as it was otherwise. */
  function NextSavingsRate(previousRate: real, current: MonthData): (r: real)
    ensures current.totalIncomes <= 0.0 ==> r == previousRate
    ensures current.totalIncomes > 0.0 ==> r * current.totalIncomes == (current.totalIncomes - current.totalExpenses) * 100.0
  {
    if current.totalIncomes > 0.0
    then (current.totalIncomes - current.totalExpenses) / current.totalIncomes * 100.0
    else previousRate
  }

  /** `getBalance`. */
  function Balance(m: MonthData): real {
    m.totalIncomes - m.totalExpenses
  }

  /** `getSavingsRateClass`. */
  function RateClass(rate: real): string {
    if rate >= 20.0 then "excellent"
    else if rate >= 10.0 then "good"
    else if rate >= 0.0 then "warning"
    else "danger"
  }

  /** `getSavingsRateLabel`. */
  function RateLabel(rate: real): string {
    if rate >= 20.0 then "Excelente!"
    else if rate >= 10.0 then "Bom"
    else if rate >= 0.0 then "Atenção"
    else "Negativo"
  }

  /** The class and the label always name the same band. */
  lemma RateClassAgreesWithLabel(rate: real)
    ensures RateClass(rate) == "excellent" <==> RateLabel(rate) == "Excelente!"
    ensures RateClass(rate) == "good" <==> RateLabel(rate) == "Bom"
    ensures RateClass(rate) == "warning" <==> RateLabel(rate) == "Atenção"
    ensures RateClass(rate) == "danger" <==> RateLabel(rate) == "Negativo"
  {
  }

  /** For a month with incomes, the bands read off its expenses: excellent
      when they take at most 80% of the incomes, good up to 90%, attention
      up to 100%, and negative exactly when the balance is. */
  lemma RateBandsOfMonth(previousRate: real, m: MonthData)
    requires m.totalIncomes > 0.0
    ensures RateClass(NextSavingsRate(previousRate, m)) == "excellent" <==> m.totalExpenses <= m.totalIncomes * 0.8
    ensures RateClass(NextSavingsRate(previousRate, m)) == "good"
            <==> m.totalIncomes * 0.8 < m.totalExpenses <= m.totalIncomes * 0.9
    ensures RateClass(NextSavingsRate(previousRate, m)) == "warning"
            <==> m.totalIncomes * 0.9 < m.totalExpenses <= m.totalIncomes
    ensures RateClass(NextSavingsRate(previousRate, m)) == "danger" <==> Balance(m) < 0.0
  {
    var inc, exp := m.totalIncomes, m.totalExpenses;
    var r := NextSavingsRate(previousRate, m);
    RateAtLeast(r, 20.0, inc, exp);
    RateAtLeast(r, 10.0, inc, exp);
    RateAtLeast(r, 0.0, inc, exp);
  }

  /** A rate of at least `c` percent leaves at most `100 - c` percent of
      the incomes to the expenses. */
  lemma RateAtLeast(r: real, c: real, inc: real, exp: real)
    requires inc > 0.0 && r * inc == (inc - exp) * 100.0
    ensures r >= c <==> exp * 100.0 <= inc * (100.0 - c)
  {
    assert r * inc - c * inc == (r - c) * inc;
    if r >= c {
      assert (r - c) * inc >= 0.0;
    } else {
      assert (r - c) * inc < 0.0;
    }
  }

  // ---------------------------------------------------------------------
  // The page

  class ReportsPage {

    var yearEvolution: Option<YearEvolution>
    var comparative: Option<Comparative>
    var isLoading: bool
    var savingsRate: real
    var expenseDifference: real
    var incomeDifference: real
    var topExpenseCategory: Option<CategoryTotal>
    var expensesByCategory: seq<CategoryTotal>
    var isExporting: bool

    /** The page as constructed: loading, nothing computed yet. */
    constructor()
      ensures yearEvolution == None && comparative == None && isLoading
      ensures savingsRate == 0.0 && expenseDifference == 0.0 && incomeDifference == 0.0
      ensures topExpenseCategory == None && expensesByCategory == [] && !isExporting
    {
      yearEvolution := None;
      comparative := None;
      isLoading := true;
      savingsRate := 0.0;
      expenseDifference := 0.0;
      incomeDifference := 0.0;
      topExpenseCategory := None;
      expensesByCategory := [];
      isExporting := false;
    }

    /** `calculateExpensesByCategory`: total the expenses per category name
        in a `Map`, sum all the expenses, turn each entry into a category
        total with its percentage, sort by total and keep the first as the
        top category. */
    method CalculateExpensesByCategory(expenses: seq<ReportTransaction>)
      modifies this`expensesByCategory, this`topExpenseCategory
      ensures expensesByCategory == CategoryTotals(expenses)
      ensures topExpenseCategory == TopOf(expensesByCategory)
    {
      var categoryMap := GroupByName(expenses);
      var totalExpenses := TotalOf(expenses);
      expensesByCategory := SortDesc(Entries(categoryMap, totalExpenses), EntryTotal);
      topExpenseCategory := TopOf(expensesByCategory);
    }

    /** The `forEach` that fills the `Map`. */
    static method GroupByName(expenses: seq<ReportTransaction>) returns (groups: seq<Bucket<ReportTransaction, string>>)
      ensures groups == Groups(expenses)
    {
      groups := [];
      var i := 0;
      while i < |expenses|
        invariant 0 <= i <= |expenses|
        invariant groups == GroupBy(expenses[..i], ExpenseName, ExpenseValue)
      {
        GroupStep(expenses, i);
        groups := AddToGroup(groups, expenses[i]);
        i := i + 1;
      }
      assert expenses[..|expenses|] == expenses;
    }

    /** One turn of that `forEach`: add to the entry of the category name,
        or open one with the expense's icon and value. */
    static method AddToGroup(groups: seq<Bucket<ReportTransaction, string>>, e: ReportTransaction)
      returns (g: seq<Bucket<ReportTransaction, string>>)
      ensures g == AddToBuckets(groups, e, ExpenseName, ExpenseValue)
    {
      var k := FindBucket(groups, e.categoryName);
      if k < |groups| {
        g := groups[k := groups[k].(total := groups[k].total + e.value, count := groups[k].count + 1)];
      } else {
        g := groups + [Bucket(e.categoryName, e, e.value, 1)];
      }
    }

    /** The `reduce` over the expenses. */
    static method TotalOf(expenses: seq<ReportTransaction>) returns (total: real)
      ensures total == SumOf(expenses, ExpenseValue)
    {
      total := 0.0;
      var i := 0;
      while i < |expenses|
        invariant 0 <= i <= |expenses|
        invariant total == SumOf(expenses[..i], ExpenseValue)
      {
        total := total + expenses[i].value;
        assert expenses[..i + 1][..i] == expenses[..i];
        i := i + 1;
      }
      assert expenses[..|expenses|] == expenses;
    }

    /** `calculateMetrics`: nothing without the comparative; otherwise the
        savings rate (only for a month with incomes), the differences from
        the previous month and the expenses by category. */
    method CalculateMetrics()
      modifies this`savingsRate, this`expenseDifference, this`incomeDifference,
               this`expensesByCategory, this`topExpenseCategory
      ensures comparative.None? ==>
                && savingsRate == old(savingsRate) && expenseDifference == old(expenseDifference)
                && incomeDifference == old(incomeDifference) && expensesByCategory == old(expensesByCategory)
                && topExpenseCategory == old(topExpenseCategory)
      ensures comparative.Some? ==>
                var current, previous := comparative.value.currentMonth, comparative.value.previousMonth;
                && savingsRate == NextSavingsRate(old(savingsRate), current)
                && expenseDifference == current.totalExpenses - previous.totalExpenses
                && incomeDifference == current.totalIncomes - previous.totalIncomes
                && expensesByCategory == CategoryTotals(current.expenses)
                && topExpenseCategory == TopOf(expensesByCategory)
    {
      if comparative.None? {
        return;
      }
      var current := comparative.value.currentMonth;
      var previous := comparative.value.previousMonth;
      if current.totalIncomes > 0.0 {
        savingsRate := (current.totalIncomes - current.totalExpenses) / current.totalIncomes * 100.0;
      }
      expenseDifference := current.totalExpenses - previous.totalExpenses;
      incomeDifference := current.totalIncomes - previous.totalIncomes;
      CalculateExpensesByCategory(current.expenses);
    }

    /** `loadData`, given what the three requests return together (`None`
        when one of them fails, and then nothing is stored). Loading ends
        either way. */
    method LoadData(responses: Option<Responses>)
      modifies this`yearEvolution, this`comparative, this`isLoading, this`savingsRate, this`expenseDifference,
               this`incomeDifference, this`expensesByCategory, this`topExpenseCategory
      ensures !isLoading
      ensures responses.None? ==>
                && yearEvolution == old(yearEvolution) && comparative == old(comparative)
                && savingsRate == old(savingsRate) && expensesByCategory == old(expensesByCategory)
                && topExpenseCategory == old(topExpenseCategory)
                && expenseDifference == old(expenseDifference) && incomeDifference == old(incomeDifference)
      ensures responses.Some? ==>
                var current := responses.value.comparative.currentMonth;
                var previous := responses.value.comparative.previousMonth;
                && expenseDifference == current.totalExpenses - previous.totalExpenses
                && incomeDifference == current.totalIncomes - previous.totalIncomes
                && yearEvolution == Some(responses.value.evolution)
                && comparative == Some(responses.value.comparative)
                && savingsRate == NextSavingsRate(old(savingsRate), current)
                && expensesByCategory == CategoryTotals(current.expenses)
                && topExpenseCategory == TopOf(expensesByCategory)
    {
      isLoading := true;
      if responses.Some? {
        yearEvolution := Some(responses.value.evolution);
        comparative := Some(responses.value.comparative);
        CalculateMetrics();
      }
      isLoading := false;
    }

    /** `getSavingsRateClass`. */
    function GetSavingsRateClass(): string
      reads this
    {
      RateClass(savingsRate)
    }

    /** `getSavingsRateLabel`. */
    function GetSavingsRateLabel(): string
      reads this
    {
      RateLabel(savingsRate)
    }

    /** `exportPDF`, given whether the export succeeds: the toasts shown in
        order. Without the comparative and the year's evolution it only
        asks to wait; otherwise it announces the export and reports how it
        went, and is no longer exporting afterwards. */
    method ExportPDF(exportOk: bool) returns (toasts: seq<string>)
      modifies this`isExporting
      ensures comparative.None? || yearEvolution.None? ==>
                toasts == ["Aguarde o carregamento dos dados"] && isExporting == old(isExporting)
      ensures comparative.Some? && yearEvolution.Some? ==>
                && toasts == ["Gerando relatório PDF...",
                              if exportOk then "Relatório PDF gerado com sucesso!"
                              else "Erro ao gerar o relatório. Tente novamente."]
                && !isExporting
    {
      if comparative.None? || yearEvolution.None? {
        toasts := ["Aguarde o carregamento dos dados"];
        return;
      }
      isExporting := true;
      toasts := ["Gerando relatório PDF..."];
      if exportOk {
        toasts := toasts + ["Relatório PDF gerado com sucesso!"];
      } else {
        toasts := toasts + ["Erro ao gerar o relatório. Tente novamente."];
      }
      isExporting := false;
    }
  }

  /** One more expense of the `forEach` is one more grouping step. */
  lemma GroupStep(expenses: seq<ReportTransaction>, i: nat)
    requires i < |expenses|
    ensures GroupBy(expenses[..i + 1], ExpenseName, ExpenseValue)
            == AddToBuckets(GroupBy(expenses[..i], ExpenseName, ExpenseValue), expenses[i], ExpenseName, ExpenseValue)
  {
    assert expenses[..i + 1][..i] == expenses[..i];
  }
}
