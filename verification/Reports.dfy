/** The report service (`report.service.ts`): the monthly summary with its
    per-category shares, the comparison with the previous month, the
    twelve summaries of a year and the trend of one category. */
module Reports {

  import opened Wrappers
  import opened Calendar
  import opened Collections
  import opened Models
  import opened Categories
  import opened Ledger
  import opened FixedExpenses

  /** What the report reads of a transaction: `release_type`, `amount` and
      `categoryId`. */
  datatype ReportItem = ReportItem(releaseType: Option<string>, amount: real, categoryId: string)

  function ItemAmount(i: ReportItem): real {
    i.amount
  }

  function ItemCategory(i: ReportItem): string {
    i.categoryId
  }

  /** `t.release_type === code`. */
  function OfRelease(code: string): ReportItem -> bool {
    (i: ReportItem) => i.releaseType == Some(code)
  }

  /** A ledger transaction as the report reads it: the ledger's record has
      no `release_type`, so the field reads as `undefined`. */
  function ItemAsRead(t: Transaction): ReportItem {
    ReportItem(None, t.amount, t.categoryId)
  }

  /** A ledger transaction with its type carried over as the release code
      of the same meaning. */
  function ItemOf(t: Transaction): ReportItem {
    ReportItem(Some(if t.kind == Income then IncomeCode else ExpenseCode), t.amount, t.categoryId)
  }

  /** `CategoryExpense` / `CategoryIncome`: one category's share of a
      month. `budget` and `remaining` are absent unless set. */
  datatype CategoryShare = CategoryShare(
    categoryId: string,
    categoryName: string,
    color: string,
    icon: string,
    total: real,
    percentage: real,
    transactionCount: nat,
    budget: Option<real>,
    remaining: Option<real>)

  function ShareTotal(s: CategoryShare): real {
    s.total
  }

  function SharePercentage(s: CategoryShare): real {
    s.percentage
  }

  function ShareCount(s: CategoryShare): real {
    s.transactionCount as real
  }

  /** The fallbacks for a category the catalogue does not know. */
  const UnknownName: string := "Sem categoria"
  const UnknownColor: string := "#999999"
  const UnknownIcon: string := "help"

  /** `s || fallback` on a string: the empty string is falsy. */
  function TextOr(s: string, fallback: string): string {
    if s == "" then fallback else s
  }

  /** The budget a share carries: the category's, for the expense type,
      when the category has a non-zero (truthy) budget. */
  function ShareBudget(category: Option<Category>, code: string): Option<real> {
    if code == ExpenseCode && category.Some? && category.value.budget.Some? && category.value.budget.value != 0.0
    then category.value.budget
    else None
  }

  /** The `map` callback of `groupByCategory` for one group. */
  function Share(b: Bucket<ReportItem, string>, categories: seq<Category>, overall: real, code: string): CategoryShare {
    var category := CategoryById(categories, b.key);
    var budget := ShareBudget(category, code);
    CategoryShare(
      b.key,
      if category.Some? then TextOr(category.value.name, UnknownName) else UnknownName,
      if category.Some? then TextOr(category.value.color, UnknownColor) else UnknownColor,
      if category.Some? then TextOr(category.value.icon, UnknownIcon) else UnknownIcon,
      b.total,
      if overall > 0.0 then b.total / overall * 100.0 else 0.0,
      b.count,
      budget,
      if budget.Some? then Some(budget.value - b.total) else None)
  }

  function Shares(bs: seq<Bucket<ReportItem, string>>, categories: seq<Category>, overall: real, code: string): (r: seq<CategoryShare>)
    ensures |r| == |bs|
    ensures forall j :: 0 <= j < |bs| ==> r[j] == Share(bs[j], categories, overall, code)
  {
    if bs == [] then []
    else Shares(bs[..|bs| - 1], categories, overall, code) + [Share(bs[|bs| - 1], categories, overall, code)]
  }

  /** `groupByCategory`: one share per category id, in order of first
      occurrence (lodash `groupBy`, read back with `Object.keys`). */
  function GroupByCategory(items: seq<ReportItem>, categories: seq<Category>, code: string): seq<CategoryShare> {
    Shares(GroupBy(items, ItemCategory, ItemAmount), categories, SumOf(items, ItemAmount), code)
  }

  /** There is exactly one share per category id occurring in the items;
      each holds the total and the number of the items with that id. */
  lemma GroupByCategoryShares(items: seq<ReportItem>, categories: seq<Category>, code: string)
    ensures var r := GroupByCategory(items, categories, code);
            && (forall i, j :: 0 <= i < j < |r| ==> r[i].categoryId != r[j].categoryId)
            && (forall k :: Occurs(items, ItemCategory, k) <==> exists j :: 0 <= j < |r| && r[j].categoryId == k)
            && (forall j :: 0 <= j < |r| ==>
                  r[j].total == SumKey(items, ItemCategory, r[j].categoryId, ItemAmount)
                  && r[j].transactionCount == CountKey(items, ItemCategory, r[j].categoryId))
  {
    var bs := GroupBy(items, ItemCategory, ItemAmount);
    var r := GroupByCategory(items, categories, code);
    GroupByKeys(items, ItemCategory, ItemAmount);
    forall i, j | 0 <= i < j < |r| ensures r[i].categoryId != r[j].categoryId {
      assert r[i].categoryId == BucketKeys(bs)[i] && r[j].categoryId == BucketKeys(bs)[j];
    }
    forall k ensures Occurs(items, ItemCategory, k) <==> exists j :: 0 <= j < |r| && r[j].categoryId == k {
      if Occurs(items, ItemCategory, k) {
        var j :| 0 <= j < |bs| && BucketKeys(bs)[j] == k;
        assert r[j].categoryId == k;
      }
      if exists j :: 0 <= j < |r| && r[j].categoryId == k {
        var j :| 0 <= j < |r| && r[j].categoryId == k;
        assert BucketKeys(bs)[j] == k;
      }
    }
    forall j | 0 <= j < |r|
      ensures r[j].total == SumKey(items, ItemCategory, r[j].categoryId, ItemAmount)
      ensures r[j].transactionCount == CountKey(items, ItemCategory, r[j].categoryId)
    {
      GroupByBucket(items, ItemCategory, ItemAmount, j);
    }
  }

  /** Grouping loses nothing: the share totals add up to the total of the
      items and the share counts to their number. */
  lemma GroupByCategoryPartition(items: seq<ReportItem>, categories: seq<Category>, code: string)
    ensures SumOf(GroupByCategory(items, categories, code), ShareTotal) == SumOf(items, ItemAmount)
    ensures SumOf(GroupByCategory(items, categories, code), ShareCount) == |items| as real
  {
    var bs := GroupBy(items, ItemCategory, ItemAmount);
    GroupByPartition(items, ItemCategory, ItemAmount);
    SharesSums(bs, categories, SumOf(items, ItemAmount), code);
  }

  lemma {:induction false} SharesSums(bs: seq<Bucket<ReportItem, string>>, categories: seq<Category>, overall: real, code: string)
    ensures SumOf(Shares(bs, categories, overall, code), ShareTotal) == BucketTotal(bs)
    ensures SumOf(Shares(bs, categories, overall, code), ShareCount) == BucketCount(bs) as real
  {
    if bs != [] {
      var r := Shares(bs, categories, overall, code);
      SharesSums(bs[..|bs| - 1], categories, overall, code);
      assert r[..|r| - 1] == Shares(bs[..|bs| - 1], categories, overall, code);
    }
  }

  lemma {:induction false} SharesPercentages(bs: seq<Bucket<ReportItem, string>>, categories: seq<Category>, overall: real, code: string)
    requires overall > 0.0
    ensures SumOf(Shares(bs, categories, overall, code), SharePercentage) == BucketTotal(bs) / overall * 100.0
  {
    if bs != [] {
      var init, last := bs[..|bs| - 1], bs[|bs| - 1];
      SharesPercentages(init, categories, overall, code);
      SumSnoc(Shares(init, categories, overall, code), Share(last, categories, overall, code), SharePercentage);
      SharePercent(last, categories, overall, code);
      PercentOfSum(BucketTotal(init), last.total, BucketTotal(bs), overall);
    }
  }

  lemma SharePercent(b: Bucket<ReportItem, string>, categories: seq<Category>, overall: real, code: string)
    requires overall > 0.0
    ensures SharePercentage(Share(b, categories, overall, code)) == b.total / overall * 100.0
  {
  }

  /** A whole is a hundred percent of itself. */
  lemma WholeIsHundred(whole: real)
    requires whole != 0.0
    ensures whole / whole * 100.0 == 100.0
  {
  }

  /** Percentages of one whole add up like the parts they measure. */
  lemma PercentOfSum(a: real, t: real, sum: real, whole: real)
    requires whole != 0.0 && sum == a + t
    ensures a / whole * 100.0 + t / whole * 100.0 == sum / whole * 100.0
  {
    var x := a / whole;
    var y := t / whole;
    assert x * whole == a && y * whole == t;
    assert (x + y) * whole == a + t;
  }

  /** When the overall total is positive the percentages add up to 100;
      otherwise every percentage is 0. */
  lemma GroupByCategoryPercentages(items: seq<ReportItem>, categories: seq<Category>, code: string)
    ensures SumOf(items, ItemAmount) > 0.0 ==> SumOf(GroupByCategory(items, categories, code), SharePercentage) == 100.0
    ensures SumOf(items, ItemAmount) <= 0.0 ==>
              forall s :: s in GroupByCategory(items, categories, code) ==> s.percentage == 0.0
  {
    var overall := SumOf(items, ItemAmount);
    var bs := GroupBy(items, ItemCategory, ItemAmount);
    var r := GroupByCategory(items, categories, code);
    assert r == Shares(bs, categories, overall, code);
    GroupByPartition(items, ItemCategory, ItemAmount);
    if overall > 0.0 {
      SharesPercentages(bs, categories, overall, code);
      WholeIsHundred(overall);
    } else {
      forall s | s in r ensures s.percentage == 0.0 {
        var j :| 0 <= j < |r| && r[j] == s;
        assert s == Share(bs[j], categories, overall, code);
      }
    }
  }

  /** A share of a category the catalogue does not know falls back to
      "Sem categoria", "#999999" and "help" and carries no budget; a share
      carries a budget only for the expense type and a category with a
      non-zero budget, and then what remains of it is the budget less the
      total. */
  lemma ShareFields(b: Bucket<ReportItem, string>, categories: seq<Category>, overall: real, code: string)
    ensures var s := Share(b, categories, overall, code);
            var category := CategoryById(categories, b.key);
            && (category.None? ==> s.categoryName == UnknownName && s.color == UnknownColor
                                   && s.icon == UnknownIcon && s.budget.None?)
            && (category.Some? && category.value.name != "" ==> s.categoryName == category.value.name)
            && (s.budget.Some? <==> code == ExpenseCode && category.Some? && category.value.budget.Some?
                                    && category.value.budget.value != 0.0)
            && (s.budget.Some? ==> s.budget == category.value.budget)
            && (s.remaining.Some? <==> s.budget.Some?)
            && (s.budget.Some? ==> s.remaining.value + s.total == s.budget.value)
  {
  }

  /** `period` of a `FinancialSummary`. */
  datatype Period = Period(month: int, year: int, startDate: DateTime, endDate: DateTime)

  /** `projection` of a `FinancialSummary`. */
  datatype Projection = Projection(estimatedExpenses: real, estimatedIncome: real, estimatedBalance: real)

  /** `FinancialSummary`. */
  datatype FinancialSummary = FinancialSummary(
    period: Period,
    totalIncome: real,
    totalExpense: real,
    balance: real,
    transactionCount: nat,
    expensesByCategory: seq<CategoryShare>,
    incomeByCategory: seq<CategoryShare>,
    dailyAverage: real,
    projection: Projection)

  /** The body of `getMonthlyReport` once its three queries have answered:
      the month's items, the catalogue and the fixed-expense total. */
  function MonthlyReport(month: int, year: int, items: seq<ReportItem>, categories: seq<Category>, fixedTotal: real): (r: FinancialSummary)
    requires 1 <= month <= 12
    ensures r.period.month == month && r.period.year == year
    ensures r.transactionCount == |items|
  {
    var income := Filter(items, OfRelease(IncomeCode));
    var expenses := Filter(items, OfRelease(ExpenseCode));
    var totalIncome := SumOf(income, ItemAmount);
    var totalExpense := SumOf(expenses, ItemAmount);
    var days := DaysInMonth(year, month) as real;
    var dailyAverage := totalExpense / days;
    var estimatedExpenses := fixedTotal + dailyAverage * days;
    FinancialSummary(
      Period(month, year, StartOfDay(DateTime(year, month, 1, 0)),
             EndOfDay(DateTime(year, month, DaysInMonth(year, month), 0))),
      totalIncome,
      totalExpense,
      totalIncome - totalExpense,
      |items|,
      GroupByCategory(expenses, categories, ExpenseCode),
      GroupByCategory(income, categories, IncomeCode),
      dailyAverage,
      Projection(estimatedExpenses, totalIncome, totalIncome - estimatedExpenses))
  }

  /** The balance is income less expense; the daily average spread back
      over the days of the month gives the expense again, so the projected
      expense is the month's expense plus the fixed expenses and the
      estimated balance is the balance less the fixed expenses. */
  lemma MonthlyReportProjection(month: int, year: int, items: seq<ReportItem>, categories: seq<Category>, fixedTotal: real)
    requires 1 <= month <= 12
    ensures var r := MonthlyReport(month, year, items, categories, fixedTotal);
            && r.totalIncome == SumOf(Filter(items, OfRelease(IncomeCode)), ItemAmount)
            && r.totalExpense == SumOf(Filter(items, OfRelease(ExpenseCode)), ItemAmount)
            && r.balance == r.totalIncome - r.totalExpense
            && r.projection.estimatedExpenses == fixedTotal + r.totalExpense
            && r.projection.estimatedIncome == r.totalIncome
            && r.projection.estimatedBalance == r.balance - fixedTotal
  {
    SpreadOverDays(SumOf(Filter(items, OfRelease(ExpenseCode)), ItemAmount), DaysInMonth(year, month) as real);
  }

  /** Each grouping of a monthly summary adds up to its type's total, and
      the items of the two types are among the month's transactions. */
  lemma MonthlyReportGroups(month: int, year: int, items: seq<ReportItem>, categories: seq<Category>, fixedTotal: real)
    requires 1 <= month <= 12
    ensures var r := MonthlyReport(month, year, items, categories, fixedTotal);
            && SumOf(r.expensesByCategory, ShareTotal) == r.totalExpense
            && SumOf(r.incomeByCategory, ShareTotal) == r.totalIncome
            && SumOf(r.expensesByCategory, ShareCount) + SumOf(r.incomeByCategory, ShareCount) <= r.transactionCount as real
  {
    var income := Filter(items, OfRelease(IncomeCode));
    var expenses := Filter(items, OfRelease(ExpenseCode));
    GroupByCategoryPartition(income, categories, IncomeCode);
    GroupByCategoryPartition(expenses, categories, ExpenseCode);
    CodesDiffer();
    DisjointFilters(items, OfRelease(IncomeCode), OfRelease(ExpenseCode));
  }

  /** An average over a number of days, multiplied back, is the total. */
  lemma SpreadOverDays(total: real, days: real)
    requires days != 0.0
    ensures total / days * days == total
  {
  }

  /** The two release codes are different strings. */
  lemma CodesDiffer()
    ensures IncomeCode != ExpenseCode
  {
    assert IncomeCode[0] != ExpenseCode[0];
  }

  /** Two tests no element passes together keep at most all the elements
      between them. */
  lemma {:induction false} DisjointFilters<T>(s: seq<T>, p: T -> bool, q: T -> bool)
    requires forall x :: !(p(x) && q(x))
    ensures |Filter(s, p)| + |Filter(s, q)| <= |s|
  {
    if s != [] {
      DisjointFilters(s[..|s| - 1], p, q);
    }
  }

  /** Items whose type is neither code count as transactions of the month
      but fall in neither total. */
  lemma UntypedItemsCountOnly(month: int, year: int, items: seq<ReportItem>, categories: seq<Category>, fixedTotal: real)
    requires 1 <= month <= 12
    requires forall i :: 0 <= i < |items| ==> items[i].releaseType.None?
    ensures var r := MonthlyReport(month, year, items, categories, fixedTotal);
            r.totalIncome == 0.0 && r.totalExpense == 0.0 && r.balance == 0.0
            && r.expensesByCategory == [] && r.incomeByCategory == []
            && r.transactionCount == |items|
            && r.projection.estimatedBalance == -fixedTotal
  {
    NoneMatch(items, OfRelease(IncomeCode));
    NoneMatch(items, OfRelease(ExpenseCode));
  }

  lemma {:induction false} NoneMatch<T>(s: seq<T>, p: T -> bool)
    requires forall i :: 0 <= i < |s| ==> !p(s[i])
    ensures Filter(s, p) == []
  {
    if s != [] {
      NoneMatch(s[..|s| - 1], p);
    }
  }

  /** Read as the report reads them, ledger transactions have no release
      type, so a month full of income and expenses reports zero for both. */
  lemma LedgerMonthReadsAsEmpty(month: int, year: int, ts: seq<Transaction>, categories: seq<Category>, fixedTotal: real)
    requires 1 <= month <= 12
    ensures var r := MonthlyReport(month, year, MapSeq(ts, ItemAsRead), categories, fixedTotal);
            r.totalIncome == 0.0 && r.totalExpense == 0.0
            && r.expensesByCategory == [] && r.incomeByCategory == []
            && r.transactionCount == |ts|
  {
    UntypedItemsCountOnly(month, year, MapSeq(ts, ItemAsRead), categories, fixedTotal);
  }

  /** With the type carried over, the report's total of a type is the
      ledger's sum of `amount` over the transactions of that type. */
  lemma ItemsOfTotals(ts: seq<Transaction>, kind: TxType)
    ensures SumOf(Filter(MapSeq(ts, ItemOf), OfRelease(if kind == Income then IncomeCode else ExpenseCode)), ItemAmount)
            == SumOf(Filter(ts, OfKind(kind)), Amount)
  {
    CodesDiffer();
    MapFilterSum(ts, ItemOf, OfKind(kind), OfRelease(if kind == Income then IncomeCode else ExpenseCode), Amount, ItemAmount);
  }

  /** `calculatePercentageChange`: the relative change in percent, with 100
      for a rise from zero and 0 for anything else from zero. */
  function PercentageChange(oldValue: real, newValue: real): (r: real)
    ensures oldValue == 0.0 ==> (r == 100.0 <==> newValue > 0.0) && (r == 0.0 <==> newValue <= 0.0)
    ensures oldValue != 0.0 ==> oldValue + oldValue * r / 100.0 == newValue
  {
    if oldValue == 0.0 then (if newValue > 0.0 then 100.0 else 0.0)
    else (newValue - oldValue) / oldValue * 100.0
  }

  /** From a positive value the change is positive exactly when the value
      grew, and never below -100 for a value that stays non-negative. */
  lemma PercentageChangeSign(oldValue: real, newValue: real)
    requires oldValue > 0.0
    ensures PercentageChange(oldValue, newValue) > 0.0 <==> newValue > oldValue
    ensures PercentageChange(oldValue, newValue) == 0.0 <==> newValue == oldValue
    ensures newValue >= 0.0 ==> PercentageChange(oldValue, newValue) >= -100.0
  {
    var r := PercentageChange(oldValue, newValue);
    assert r * oldValue == (newValue - oldValue) * 100.0;
  }

  /** `MonthlyComparison`. */
  datatype MonthlyComparison = MonthlyComparison(
    currentMonth: FinancialSummary,
    previousMonth: FinancialSummary,
    incomeChange: real,
    expenseChange: real,
    balanceChange: real)

  datatype Trend = Up | Down | Stable

  /** The trend of `getCategoryReport`: the change from the first half's
      total to the second's, in percent, against the thresholds +10 and
      -10. A first half of zero divides by zero: a rise gives +Infinity
      ("up"), a fall -Infinity ("down") and no change NaN, which passes
      neither comparison ("stable"). */
  function TrendOf(firstHalf: real, secondHalf: real): Trend {
    if firstHalf == 0.0 then
      (if secondHalf > 0.0 then Up else if secondHalf < 0.0 then Down else Stable)
    else
      var change := (secondHalf - firstHalf) / firstHalf * 100.0;
      if change > 10.0 then Up else if change < -10.0 then Down else Stable
  }

  /** For a positive first half, "up" means the second half is more than
      10% larger and "down" that it is more than 10% smaller. */
  lemma TrendBands(firstHalf: real, secondHalf: real)
    requires firstHalf > 0.0
    ensures TrendOf(firstHalf, secondHalf) == Up <==> secondHalf > firstHalf * 1.1
    ensures TrendOf(firstHalf, secondHalf) == Down <==> secondHalf < firstHalf * 0.9
    ensures TrendOf(firstHalf, secondHalf) == Stable <==> firstHalf * 0.9 <= secondHalf <= firstHalf * 1.1
  {
    var change := (secondHalf - firstHalf) / firstHalf * 100.0;
    assert change * firstHalf == (secondHalf - firstHalf) * 100.0;
    assert change > 10.0 <==> secondHalf > firstHalf * 1.1 by {
      if change > 10.0 {
        assert change * firstHalf > 10.0 * firstHalf;
      }
      if secondHalf > firstHalf * 1.1 {
        assert (secondHalf - firstHalf) * 100.0 > 10.0 * firstHalf;
      }
    }
    assert change < -10.0 <==> secondHalf < firstHalf * 0.9 by {
      if change < -10.0 {
        assert change * firstHalf < -10.0 * firstHalf;
      }
      if secondHalf < firstHalf * 0.9 {
        assert (secondHalf - firstHalf) * 100.0 < -10.0 * firstHalf;
      }
    }
  }

  /** The result of `getCategoryReport`. */
  datatype CategoryReport = CategoryReport(total: real, transactions: nat, average: real, trend: Trend)

  /** `total / Math.max(days, 1)`: spread over the days of the period (at
      least one), the average gives back the total. */
  function DailyAverage(total: real, days: int): (a: real)
    ensures a * (if days > 1 then days else 1) as real == total
  {
    var divisor := (if days > 1 then days else 1) as real;
    assert (total / divisor) * divisor == total;
    total / divisor
  }

  /** `moment(t.date).isBefore(midPoint)`. */
  function Before(midPoint: DateTime): Transaction -> bool {
    (t: Transaction) => Instant(t.date) < Instant(midPoint)
  }

  class ReportService {

    const transactionService: TransactionService
    const categoryService: CategoryService
    const fixedExpenseService: FixedExpenseService

    constructor(transactionService: TransactionService, categoryService: CategoryService,
                fixedExpenseService: FixedExpenseService)
      ensures this.transactionService == transactionService
      ensures this.categoryService == categoryService
      ensures this.fixedExpenseService == fixedExpenseService
    {
      this.transactionService := transactionService;
      this.categoryService := categoryService;
      this.fixedExpenseService := fixedExpenseService;
    }

    /** `getMonthlyReport` for a month in 1..12 (outside it `moment` yields
        an invalid date). */
    function GetMonthlyReport(month: int, year: int): (r: FinancialSummary)
      requires 1 <= month <= 12
      reads transactionService, categoryService, fixedExpenseService
      ensures r.period.month == month && r.period.year == year
    {
      MonthlyReport(month, year, MapSeq(transactionService.GetTransactionsByMonth(month, year), ItemOf),
                    categoryService.categories, fixedExpenseService.GetMonthlyTotal(month, year))
    }

    /** The monthly totals agree with the ledger's own `getTotalByType`
        for the month, and the projection adds the active fixed expenses. */
    lemma MonthlyReportMatchesLedger(month: int, year: int)
      requires 1 <= month <= 12 && year != 0
      ensures GetMonthlyReport(month, year).totalIncome == transactionService.GetTotalByType(Income, Some(month), Some(year))
      ensures GetMonthlyReport(month, year).totalExpense == transactionService.GetTotalByType(Expense, Some(month), Some(year))
      ensures GetMonthlyReport(month, year).projection.estimatedBalance
              == GetMonthlyReport(month, year).balance - SumOf(fixedExpenseService.GetActiveExpenses(), ExpenseAmount)
    {
      var ts := transactionService.GetTransactionsByMonth(month, year);
      MonthlyReportProjection(month, year, MapSeq(ts, ItemOf), categoryService.categories,
                              fixedExpenseService.GetMonthlyTotal(month, year));
      ItemsOfTotals(ts, Income);
      ItemsOfTotals(ts, Expense);
    }

    /** `getMonthlyComparison`: this month's report, the previous month's
        (December of the year before for January) and the three changes. */
    function GetMonthlyComparison(month: int, year: int): (r: MonthlyComparison)
      requires 1 <= month <= 12
      reads transactionService, categoryService, fixedExpenseService
      ensures r.currentMonth.period.month == month && r.currentMonth.period.year == year
      ensures 1 <= r.previousMonth.period.month <= 12
      ensures r.previousMonth.period.year * 12 + r.previousMonth.period.month == year * 12 + month - 1
      ensures r.currentMonth == GetMonthlyReport(month, year)
      ensures r.previousMonth == GetMonthlyReport(r.previousMonth.period.month, r.previousMonth.period.year)
      ensures r.incomeChange == PercentageChange(r.previousMonth.totalIncome, r.currentMonth.totalIncome)
      ensures r.expenseChange == PercentageChange(r.previousMonth.totalExpense, r.currentMonth.totalExpense)
      ensures r.balanceChange == PercentageChange(r.previousMonth.balance, r.currentMonth.balance)
    {
      var current := GetMonthlyReport(month, year);
      var (prevMonth, prevYear) := PreviousMonth(month, year);
      PreviousMonthIsOneEarlier(month, year);
      var previous := GetMonthlyReport(prevMonth, prevYear);
      MonthlyComparison(
        current,
        previous,
        PercentageChange(previous.totalIncome, current.totalIncome),
        PercentageChange(previous.totalExpense, current.totalExpense),
        PercentageChange(previous.balance, current.balance))
    }

    /** The income and expense changes compare the ledger's own totals of
        the two months (both months have a truthy year, so
        `getTotalByType` restricts to them). */
    lemma ComparisonMatchesLedger(month: int, year: int)
      requires 1 <= month <= 12 && year != 0 && (month != 1 || year != 1)
      ensures var (pm, py) := PreviousMonth(month, year);
              && 1 <= pm <= 12
              && GetMonthlyComparison(month, year).incomeChange
                 == PercentageChange(transactionService.GetTotalByType(Income, Some(pm), Some(py)),
                                     transactionService.GetTotalByType(Income, Some(month), Some(year)))
              && GetMonthlyComparison(month, year).expenseChange
                 == PercentageChange(transactionService.GetTotalByType(Expense, Some(pm), Some(py)),
                                     transactionService.GetTotalByType(Expense, Some(month), Some(year)))
    {
      var (pm, py) := PreviousMonth(month, year);
      PreviousMonthIsOneEarlier(month, year);
      MonthlyReportMatchesLedger(month, year);
      MonthlyReportMatchesLedger(pm, py);
    }

    /** `getYearlyReport`: the reports of months 1 to 12, in order. */
    method GetYearlyReport(year: int) returns (reports: seq<FinancialSummary>)
      ensures |reports| == 12
      ensures forall i :: 0 <= i < 12 ==> reports[i] == GetMonthlyReport(i + 1, year)
    {
      reports := [];
      var month := 1;
      while month <= 12
        invariant 1 <= month <= 13
        invariant |reports| == month - 1
        invariant forall i :: 0 <= i < month - 1 ==> reports[i] == GetMonthlyReport(i + 1, year)
      {
        var report := GetMonthlyReport(month, year);
        reports := reports + [report];
        month := month + 1;
      }
    }

    /** `getCategoryReport` over `[startDate, endDate]`; `days` is the
        whole-day difference plus one and `midPoint` the start moved by
        half of it, both of which `moment` computes. */
    function GetCategoryReport(categoryId: string, startDate: DateTime, endDate: DateTime, days: int, midPoint: DateTime): (r: CategoryReport)
      reads transactionService
      ensures r.transactions == |transactionService.GetFilteredTransactions(
                TransactionFilter(None, Some(categoryId), Some(startDate), Some(endDate), None))|
      ensures r.total == SumOf(transactionService.GetFilteredTransactions(
                TransactionFilter(None, Some(categoryId), Some(startDate), Some(endDate), None)), Amount)
      ensures r.average == DailyAverage(r.total, days)
    {
      var ts := transactionService.GetFilteredTransactions(
        TransactionFilter(None, Some(categoryId), Some(startDate), Some(endDate), None));
      var total := SumOf(ts, Amount);
      var firstHalfTotal := SumOf(Filter(ts, Before(midPoint)), Amount);
      var secondHalfTotal := SumOf(Filter(ts, Not(Before(midPoint))), Amount);
      CategoryReport(total, |ts|, DailyAverage(total, days), TrendOf(firstHalfTotal, secondHalfTotal))
    }

    /** The two halves split the category's transactions, so the trend
        compares two totals that add up to the report's total. */
    lemma CategoryReportHalves(categoryId: string, startDate: DateTime, endDate: DateTime, days: int, midPoint: DateTime)
      ensures var ts := transactionService.GetFilteredTransactions(
                TransactionFilter(None, Some(categoryId), Some(startDate), Some(endDate), None));
              var first := SumOf(Filter(ts, Before(midPoint)), Amount);
              var second := SumOf(Filter(ts, Not(Before(midPoint))), Amount);
              first + second == GetCategoryReport(categoryId, startDate, endDate, days, midPoint).total
              && GetCategoryReport(categoryId, startDate, endDate, days, midPoint).trend == TrendOf(first, second)
    {
      var ts := transactionService.GetFilteredTransactions(
        TransactionFilter(None, Some(categoryId), Some(startDate), Some(endDate), None));
      SumSplit(ts, Before(midPoint), Amount);
    }
  }
}
