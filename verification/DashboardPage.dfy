/** The dashboard page (`DashboardPage`): the month's figures from the
    dashboard endpoint, the five latest transactions, the expenses broken
    down by category for the doughnut chart, and the fixed releases due in
    the next seven days. */
module DashboardPage {

  import opened Wrappers
  import opened Text
  import opened Models
  import opened Collections
  import opened TransactionFilters
  import Reports

  /** `DashboardData`: the totals and the transactions of the month. */
  datatype DashboardData = DashboardData(
    totalExpenses: real,
    totalIncomes: real,
    balance: real,
    transactions: seq<ApiTransaction>)

  /** One slice of the doughnut chart (`CategorySummary`). */
  datatype CategorySummary = CategorySummary(
    categoryName: string,
    categoryIcon: string,
    total: real,
    percentage: real,
    color: string)

  /** One entry of the monthly payment status. */
  datatype UpcomingItem = UpcomingItem(expense: Release, isPaid: bool, daysUntilDue: int, isOverdue: bool)

  /** The sixteen chart colours, handed out in turn. */
  const CategoryColors: seq<string> := [
    "#ef4444", "#f97316", "#f59e0b", "#eab308",
    "#84cc16", "#22c55e", "#14b8a6", "#06b6d4",
    "#0ea5e9", "#3b82f6", "#6366f1", "#8b5cf6",
    "#a855f7", "#d946ef", "#ec4899", "#f43f5e"]

  const NoCategory: string := "Sem categoria"

  /** The package emoji shown for a category without an icon. */
  const NoIcon: string := "\U{1F4E6}"

  // ---------------------------------------------------------------------
  // Expenses by category

  /** `t.category_name || 'Sem categoria'`. */
  function CategoryKey(t: ApiTransaction): string {
    if Truthy(t.categoryName) then t.categoryName.value else NoCategory
  }

  /** `t.category_icon || '📦'`. */
  function IconOr(icon: Option<string>): string {
    if Truthy(icon) then icon.value else NoIcon
  }

  function SummaryTotal(s: CategorySummary): real {
    s.total
  }

  function SummaryPercentage(s: CategorySummary): real {
    s.percentage
  }

  function SummaryName(s: CategorySummary): string {
    s.categoryName
  }

  /** The entry pushed for the `j`-th group of the `Map`: its total, its
      share of the overall total (0 when that is not positive), the icon of
      the transaction that opened the group and the `j`-th colour in turn. */
  function Summary(b: Bucket<ApiTransaction, string>, j: nat, overall: real): CategorySummary {
    CategorySummary(b.key, IconOr(b.first.categoryIcon), b.total,
                    if overall > 0.0 then b.total / overall * 100.0 else 0.0,
                    CategoryColors[j % |CategoryColors|])
  }

  function Summaries(bs: seq<Bucket<ApiTransaction, string>>, overall: real): seq<CategorySummary> {
    seq(|bs|, j requires 0 <= j < |bs| => Summary(bs[j], j, overall))
  }

  /** The expense transactions, the only ones the chart counts. */
  function Expenses(transactions: seq<ApiTransaction>): seq<ApiTransaction> {
    Filter(transactions, OfReleaseType(ExpenseCode))
  }

  /** The groups of the `Map` filled by the `forEach`, in insertion order. */
  function Grouped(transactions: seq<ApiTransaction>): seq<Bucket<ApiTransaction, string>> {
    GroupBy(Expenses(transactions), CategoryKey, Value)
  }

  /** What `calculateExpensesByCategory` returns: one entry per group, with
      the overall total taken over the groups, sorted by total, largest
      first. */
  function ExpensesByCategory(transactions: seq<ApiTransaction>): seq<CategorySummary> {
    var bs := Grouped(transactions);
    SortDesc(Summaries(bs, BucketTotal(bs)), SummaryTotal)
  }

  /** Totals and percentages of the entries, in group order. */
  lemma {:induction false} SummariesSums(bs: seq<Bucket<ApiTransaction, string>>, overall: real)
    ensures SumOf(Summaries(bs, overall), SummaryTotal) == BucketTotal(bs)
    ensures overall > 0.0 ==> SumOf(Summaries(bs, overall), SummaryPercentage) == BucketTotal(bs) / overall * 100.0
  {
    if bs != [] {
      var init := bs[..|bs| - 1];
      var r := Summaries(bs, overall);
      SummariesSums(init, overall);
      assert r[..|r| - 1] == Summaries(init, overall);
      if overall > 0.0 {
        Reports.PercentOfSum(BucketTotal(init), bs[|bs| - 1].total, BucketTotal(bs), overall);
      }
    }
  }

  /** Before sorting, the entries follow the groups: distinct names. */
  lemma SummariesDistinct(transactions: seq<ApiTransaction>)
    ensures var bs := Grouped(transactions);
            DistinctBy(Summaries(bs, BucketTotal(bs)), SummaryName)
  {
    var bs := Grouped(transactions);
    var s := Summaries(bs, BucketTotal(bs));
    GroupByKeys(Expenses(transactions), CategoryKey, Value);
    forall i, j | 0 <= i < j < |s| ensures s[i].categoryName != s[j].categoryName {
      assert BucketKeys(bs)[i] == s[i].categoryName && BucketKeys(bs)[j] == s[j].categoryName;
    }
  }

  /** Before sorting: an entry for every category name occurring among the
      expenses and for no other. */
  lemma SummariesNames(transactions: seq<ApiTransaction>)
    ensures var bs := Grouped(transactions);
            var s := Summaries(bs, BucketTotal(bs));
            forall k :: (exists x :: x in s && x.categoryName == k) <==> Occurs(Expenses(transactions), CategoryKey, k)
  {
    var es := Expenses(transactions);
    var bs := Grouped(transactions);
    GroupByKeys(es, CategoryKey, Value);
    forall k ensures (exists x :: x in Summaries(bs, BucketTotal(bs)) && x.categoryName == k) <==> k in BucketKeys(bs) {
      SummaryNamed(bs, BucketTotal(bs), k);
    }
  }

  /** An entry is named `k` exactly when a group has the key `k`. */
  lemma SummaryNamed(bs: seq<Bucket<ApiTransaction, string>>, overall: real, k: string)
    ensures (exists x :: x in Summaries(bs, overall) && x.categoryName == k) <==> k in BucketKeys(bs)
  {
    var s := Summaries(bs, overall);
    if k in BucketKeys(bs) {
      var j :| 0 <= j < |bs| && BucketKeys(bs)[j] == k;
      assert s[j] in s && s[j].categoryName == k;
    }
    if exists x :: x in s && x.categoryName == k {
      var x :| x in s && x.categoryName == k;
      var j :| 0 <= j < |s| && s[j] == x;
      assert BucketKeys(bs)[j] == k;
    }
  }

  /** Before sorting: each entry holds the total of its category, and the
      colour its group's position picks. */
  lemma SummariesTotalsAndColors(transactions: seq<ApiTransaction>)
    ensures var bs := Grouped(transactions);
            var s := Summaries(bs, BucketTotal(bs));
            && (forall x :: x in s ==> x.total == SumKey(Expenses(transactions), CategoryKey, x.categoryName, Value))
            && (forall x :: x in s ==> exists j :: 0 <= j < |bs| && bs[j].key == x.categoryName
                                                 && x.color == CategoryColors[j % 16])
  {
    var es := Expenses(transactions);
    var bs := Grouped(transactions);
    var s := Summaries(bs, BucketTotal(bs));
    forall x | x in s ensures x.total == SumKey(es, CategoryKey, x.categoryName, Value) {
      var j :| 0 <= j < |s| && s[j] == x;
      GroupByBucket(es, CategoryKey, Value, j);
    }
    forall x | x in s ensures exists j :: 0 <= j < |bs| && bs[j].key == x.categoryName && x.color == CategoryColors[j % 16] {
      var j :| 0 <= j < |s| && s[j] == x;
      assert bs[j].key == x.categoryName;
    }
  }

  /** The chart shows exactly one entry per category name occurring among
      the expense transactions (a missing name counts as "Sem categoria"),
      each holding that category's total, largest first, and each coloured
      by its group's position in order of first occurrence. */
  lemma ExpensesByCategoryShows(transactions: seq<ApiTransaction>)
    ensures var r := ExpensesByCategory(transactions);
            var es := Expenses(transactions);
            var bs := Grouped(transactions);
            && SortedDesc(r, SummaryTotal)
            && DistinctBy(r, SummaryName)
            && (forall k :: (exists x :: x in r && x.categoryName == k) <==> Occurs(es, CategoryKey, k))
            && (forall x :: x in r ==> x.total == SumKey(es, CategoryKey, x.categoryName, Value))
            && (forall x :: x in r ==> exists j :: 0 <= j < |bs| && bs[j].key == x.categoryName
                                                 && x.color == CategoryColors[j % 16])
  {
    var bs := Grouped(transactions);
    var s := Summaries(bs, BucketTotal(bs));
    SummariesDistinct(transactions);
    SummariesNames(transactions);
    SummariesTotalsAndColors(transactions);
    SortDescPermutes(s, SummaryTotal);
    PermutationKeepsDistinct(s, SortDesc(s, SummaryTotal), SummaryName);
    SortKeepsMembers(s, SummaryTotal);
  }

  /** The entries add up to the total of the expenses. */
  lemma ExpensesByCategoryTotal(transactions: seq<ApiTransaction>)
    ensures SumOf(ExpensesByCategory(transactions), SummaryTotal) == SumOf(Expenses(transactions), Value)
  {
    var bs := Grouped(transactions);
    var s := Summaries(bs, BucketTotal(bs));
    SortKeepsSum(s, SummaryTotal, SummaryTotal);
    SummariesSums(bs, BucketTotal(bs));
    GroupByPartition(Expenses(transactions), CategoryKey, Value);
  }

  /** When the expenses add up to a positive amount the percentages add up
      to 100. */
  lemma ExpensesByCategoryPercentages(transactions: seq<ApiTransaction>)
    requires SumOf(Expenses(transactions), Value) > 0.0
    ensures SumOf(ExpensesByCategory(transactions), SummaryPercentage) == 100.0
  {
    var bs := Grouped(transactions);
    var overall := BucketTotal(bs);
    GroupByPartition(Expenses(transactions), CategoryKey, Value);
    SortKeepsSum(Summaries(bs, overall), SummaryTotal, SummaryPercentage);
    SummariesSums(bs, overall);
    Reports.WholeIsHundred(overall);
  }

  /** Otherwise every percentage is 0. */
  lemma ExpensesByCategoryNoPercentages(transactions: seq<ApiTransaction>)
    requires SumOf(Expenses(transactions), Value) <= 0.0
    ensures forall x :: x in ExpensesByCategory(transactions) ==> x.percentage == 0.0
  {
    var bs := Grouped(transactions);
    var s := Summaries(bs, BucketTotal(bs));
    GroupByPartition(Expenses(transactions), CategoryKey, Value);
    SortKeepsMembers(s, SummaryTotal);
    forall x | x in s ensures x.percentage == 0.0 {
      var j :| 0 <= j < |s| && s[j] == x;
    }
  }

  /** The first sixteen groups get sixteen different colours. */
  lemma ColorsDistinctUpToSixteen(bs: seq<Bucket<ApiTransaction, string>>, overall: real, i: nat, j: nat)
    requires i < j < |bs| && j < 16
    ensures Summaries(bs, overall)[i].color != Summaries(bs, overall)[j].color
  {
    var cs := CategoryColors;
    assert forall p, q :: 0 <= p < q < 16 ==> cs[p] != cs[q];
  }

  // ---------------------------------------------------------------------
  // Upcoming fixed releases

  /** The `filter` of `loadData`: not yet turned into a transaction, not
      marked paid, and due in seven days or less. */
  predicate IsUpcoming(x: UpcomingItem) {
    && !Truthy(x.expense.currentMonthReleaseId)
    && x.expense.currentMonthPaymentStatus != Text("pago")
    && x.daysUntilDue <= 7
  }

  /** The key under which `sort((a, b) => a.daysUntilDue - b.daysUntilDue)`
      is a sort from the largest key down. */
  function SoonestFirst(x: UpcomingItem): real {
    -(x.daysUntilDue as real)
  }

  /** One more transaction of the `forEach` is one more grouping step. */
  lemma GroupByStep(expenses: seq<ApiTransaction>, i: nat)
    requires i < |expenses|
    ensures GroupBy(expenses[..i + 1], CategoryKey, Value)
            == AddToBuckets(GroupBy(expenses[..i], CategoryKey, Value), expenses[i], CategoryKey, Value)
  {
    assert expenses[..i + 1][..i] == expenses[..i];
  }

  /** The list `loadData` keeps in `upcomingExpenses`. */
  function Upcoming(items: seq<UpcomingItem>): seq<UpcomingItem> {
    FilterSorted(items, IsUpcoming, SoonestFirst)
  }

  /** The upcoming list holds exactly the entries that pass the filter,
      each as often as the status list holds it, soonest due first. */
  lemma UpcomingShows(items: seq<UpcomingItem>)
    ensures var r := Upcoming(items);
            && (forall x :: x in r <==> x in items && IsUpcoming(x))
            && multiset(r) == multiset(Filter(items, IsUpcoming))
            && (forall i, j :: 0 <= i < j < |r| ==> r[i].daysUntilDue <= r[j].daysUntilDue)
  {
    var r := Upcoming(items);
    FilterSortedShows(items, IsUpcoming, SoonestFirst);
    forall i, j | 0 <= i < j < |r| ensures r[i].daysUntilDue <= r[j].daysUntilDue {
      assert SoonestFirst(r[i]) >= SoonestFirst(r[j]);
    }
  }

  /** `getDaysLabel`. */
  function DaysLabel(x: UpcomingItem): string {
    var d := x.daysUntilDue;
    if x.expense.currentMonthPaymentStatus == Text("pago") then "Pagamento realizado"
    else if d < 0 then "Atrasada (" + IntToString(-d) + "d)"
    else if d == 0 then "Vence hoje"
    else if d == 1 then "Vence amanhã"
    else "Vence em " + IntToString(d) + "d"
  }

  /** `getExpenseColor`: the urgency colours apply only when the status is
      exactly `null`. */
  function ExpenseColor(x: UpcomingItem): string {
    var status := x.expense.currentMonthPaymentStatus;
    if status == Null && x.isOverdue then "danger"
    else if status == Null && x.daysUntilDue == 0 then "warning"
    else if status == Null && x.daysUntilDue <= 3 then "warning"
    else if status == Text("pago") then "success"
    else "medium"
  }

  /** Red exactly for an overdue entry whose status is `null`, amber exactly
      for a `null`-status entry due in three days or less and not overdue,
      green exactly for `'pago'`. An entry whose status is absent rather
      than `null` is grey however late it is. */
  lemma ExpenseColorBands(x: UpcomingItem)
    ensures ExpenseColor(x) == "danger" <==> x.expense.currentMonthPaymentStatus == Null && x.isOverdue
    ensures ExpenseColor(x) == "warning" <==>
              x.expense.currentMonthPaymentStatus == Null && !x.isOverdue && x.daysUntilDue <= 3
    ensures ExpenseColor(x) == "success" <==> x.expense.currentMonthPaymentStatus == Text("pago")
    ensures x.expense.currentMonthPaymentStatus == Undefined ==> ExpenseColor(x) == "medium"
  {
  }

  /** An entry that passes the upcoming filter is not shown as paid, and a
      label that counts days counts at most seven. */
  lemma UpcomingItemNotPaid(x: UpcomingItem)
    requires IsUpcoming(x)
    ensures ExpenseColor(x) != "success"
    ensures DaysLabel(x) != "Pagamento realizado"
    ensures x.daysUntilDue > 1 ==> DaysLabel(x) == "Vence em " + IntToString(x.daysUntilDue) + "d" && x.daysUntilDue <= 7
  {
    var d := x.daysUntilDue;
    if d < 0 {
      assert DaysLabel(x)[0] == 'A';
    } else if d > 1 {
      assert DaysLabel(x)[1] == 'e';
    }
  }

  /** Nothing on the upcoming list is shown as paid. */
  lemma UpcomingNeverPaid(items: seq<UpcomingItem>)
    ensures forall x :: x in Upcoming(items) ==> ExpenseColor(x) != "success" && DaysLabel(x) != "Pagamento realizado"
  {
    UpcomingShows(items);
    forall x | x in Upcoming(items) ensures ExpenseColor(x) != "success" && DaysLabel(x) != "Pagamento realizado" {
      UpcomingItemNotPaid(x);
    }
  }

  // ---------------------------------------------------------------------
  // Small display helpers

  /** `slice(0, 5)`: the first five transactions, or all of them. */
  function Recent(transactions: seq<ApiTransaction>): (r: seq<ApiTransaction>)
    ensures |r| == if |transactions| < 5 then |transactions| else 5
    ensures r == transactions[..|r|]
  {
    if |transactions| < 5 then transactions else transactions[..5]
  }

  /** `getTransactionIcon`. */
  function TransactionIcon(releaseType: string): string {
    if releaseType == IncomeCode then "arrow-up" else "arrow-down"
  }

  /** `getTransactionColor`. */
  function TransactionColor(releaseType: string): string {
    if releaseType == IncomeCode then "success" else "danger"
  }

  /** `getTransactionClass`. */
  function TransactionClass(releaseType: string): string {
    if releaseType == IncomeCode then "income" else "expense"
  }

  /** Icon, colour and class always agree, and mark income exactly for the
      income code: anything else, not only the expense code, is drawn as
      an expense. */
  lemma TransactionStyleAgrees(releaseType: string)
    ensures TransactionIcon(releaseType) == "arrow-up" <==> releaseType == IncomeCode
    ensures TransactionColor(releaseType) == "success" <==> TransactionIcon(releaseType) == "arrow-up"
    ensures TransactionClass(releaseType) == "income" <==> TransactionColor(releaseType) == "success"
  {
  }

  // ---------------------------------------------------------------------
  // The page

  class DashboardPage {

    var dashboardData: Option<DashboardData>
    var recentTransactions: seq<ApiTransaction>
    var expensesByCategory: seq<CategorySummary>
    var upcomingExpenses: seq<UpcomingItem>

    /** The page as constructed: nothing loaded. */
    constructor()
      ensures dashboardData == None && recentTransactions == [] && expensesByCategory == [] && upcomingExpenses == []
    {
      dashboardData := None;
      recentTransactions := [];
      expensesByCategory := [];
      upcomingExpenses := [];
    }

    /** `calculateExpensesByCategory`: keep the expenses, total them per
        category name in a `Map`, take the overall total over the groups,
        turn each group into an entry with its percentage and the next
        colour, and sort by total, largest first. */
    static method CalculateExpensesByCategory(transactions: seq<ApiTransaction>) returns (r: seq<CategorySummary>)
      ensures r == ExpensesByCategory(transactions)
    {
      var expenses := Filter(transactions, OfReleaseType(ExpenseCode));
      var grouped := GroupExpenses(expenses);
      var totalExpenses := TotalOfGroups(grouped);
      var result := SummariesOf(grouped, totalExpenses);
      r := SortDesc(result, SummaryTotal);
    }

    /** The `forEach` that fills the `Map`: add to the group of the
        transaction's category name, or open one with its value and icon. */
    static method GroupExpenses(expenses: seq<ApiTransaction>) returns (grouped: seq<Bucket<ApiTransaction, string>>)
      ensures grouped == GroupBy(expenses, CategoryKey, Value)
    {
      grouped := [];
      var i := 0;
      while i < |expenses|
        invariant 0 <= i <= |expenses|
        invariant grouped == GroupBy(expenses[..i], CategoryKey, Value)
      {
        GroupByStep(expenses, i);
        grouped := AddToGroup(grouped, expenses[i]);
        i := i + 1;
      }
      assert expenses[..|expenses|] == expenses;
    }

    /** One turn of that `forEach`: `grouped.has`, then either `current.total
        += value` or `grouped.set`. */
    static method AddToGroup(grouped: seq<Bucket<ApiTransaction, string>>, t: ApiTransaction)
      returns (g: seq<Bucket<ApiTransaction, string>>)
      ensures g == AddToBuckets(grouped, t, CategoryKey, Value)
    {
      var name := CategoryKey(t);
      var k := FindBucket(grouped, name);
      if k < |grouped| {
        g := grouped[k := grouped[k].(total := grouped[k].total + Value(t), count := grouped[k].count + 1)];
      } else {
        g := grouped + [Bucket(name, t, Value(t), 1)];
      }
    }

    /** The `reduce` over the group totals. */
    static method TotalOfGroups(grouped: seq<Bucket<ApiTransaction, string>>) returns (total: real)
      ensures total == BucketTotal(grouped)
    {
      total := 0.0;
      var i := 0;
      while i < |grouped|
        invariant 0 <= i <= |grouped|
        invariant total == BucketTotal(grouped[..i])
      {
        total := total + grouped[i].total;
        assert grouped[..i + 1][..i] == grouped[..i];
        i := i + 1;
      }
      assert grouped[..|grouped|] == grouped;
    }

    /** The second `forEach`, which pushes one entry per group and moves the
        colour index on by one each time. */
    static method SummariesOf(grouped: seq<Bucket<ApiTransaction, string>>, totalExpenses: real)
      returns (result: seq<CategorySummary>)
      ensures result == Summaries(grouped, totalExpenses)
    {
      result := [];
      var colorIndex := 0;
      var i := 0;
      while i < |grouped|
        invariant 0 <= i <= |grouped| && colorIndex == i
        invariant result == Summaries(grouped[..i], totalExpenses)
      {
        var b := grouped[i];
        result := result + [CategorySummary(b.key, IconOr(b.first.categoryIcon), b.total,
                                            if totalExpenses > 0.0 then b.total / totalExpenses * 100.0 else 0.0,
                                            CategoryColors[colorIndex % |CategoryColors|])];
        colorIndex := colorIndex + 1;
        i := i + 1;
      }
      assert grouped[..|grouped|] == grouped;
    }

    /** `loadData`, given what the dashboard endpoint and the payment-status
        endpoint return (`None` for a request that fails). A failed
        dashboard request changes nothing; a failed status request leaves
        the upcoming list as it was. */
    method LoadData(data: Option<DashboardData>, status: Option<seq<UpcomingItem>>)
      modifies this`dashboardData, this`recentTransactions, this`expensesByCategory, this`upcomingExpenses
      ensures data.None? ==> dashboardData == old(dashboardData) && recentTransactions == old(recentTransactions)
                              && expensesByCategory == old(expensesByCategory)
      ensures data.Some? ==> dashboardData == data && recentTransactions == Recent(data.value.transactions)
                              && expensesByCategory == ExpensesByCategory(data.value.transactions)
      ensures data.Some? && status.Some? ==> upcomingExpenses == Upcoming(status.value)
      ensures data.None? || status.None? ==> upcomingExpenses == old(upcomingExpenses)
    {
      if data.Some? {
        var byCategory := CalculateExpensesByCategory(data.value.transactions);
        dashboardData := data;
        recentTransactions := Recent(data.value.transactions);
        expensesByCategory := byCategory;
        if status.Some? {
          upcomingExpenses := Upcoming(status.value);
        }
      }
    }

    /** `getBalanceColor`: grey before anything is loaded, then green for a
        balance of zero or more and red below zero. */
    function GetBalanceColor(): (c: string)
      reads this
      ensures dashboardData.None? ==> c == "medium"
      ensures dashboardData.Some? ==> (c == "success" <==> dashboardData.value.balance >= 0.0)
                                      && (c == "danger" <==> dashboardData.value.balance < 0.0)
    {
      if dashboardData.None? then "medium"
      else if dashboardData.value.balance >= 0.0 then "success" else "danger"
    }
  }
}
