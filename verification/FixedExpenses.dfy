/** The local store of recurring expenses (`FixedExpenseService`): one
    in-memory list that each mutator copies, changes and republishes, and a
    payment history per expense with at most one payment a month. */
module FixedExpenses {

  import opened Wrappers
  import opened Calendar
  import opened Collections
  import opened Models
  import opened Categories

  /** The record `addExpense` builds: active, notifying three days ahead
      unless told otherwise, with no payments yet. */
  function NewExpense(id: string, data: FixedExpenseCreate, category: Option<Category>, now: DateTime): FixedExpense {
    FixedExpense(
      id, data.name, data.amount, data.dueDay, data.categoryId, category,
      true,
      data.notifications.GetOr(true),
      data.notifyDaysBefore.GetOr(3),
      data.description,
      [],
      now, now)
  }

  /** A new expense is active, has an empty history, and takes the defaults
      for what the caller left out. */
  lemma NewExpenseDefaults(id: string, data: FixedExpenseCreate, category: Option<Category>, now: DateTime)
    ensures var e := NewExpense(id, data, category, now);
            && e.id == id && e.isActive && e.paymentHistory == []
            && (data.notifications.None? ==> e.notifications)
            && (data.notifyDaysBefore.None? ==> e.notifyDaysBefore == 3)
            && (data.notifyDaysBefore.Some? ==> e.notifyDaysBefore == data.notifyDaysBefore.value)
            && e.createdAt == now && e.updatedAt == now
  {
  }

  /** `{...e, ...updates, category, updatedAt}`. */
  function MergeExpense(e: FixedExpense, p: FixedExpensePatch, category: Option<Category>, now: DateTime): FixedExpense {
    FixedExpense(
      e.id,
      p.name.GetOr(e.name),
      p.amount.GetOr(e.amount),
      p.dueDay.GetOr(e.dueDay),
      p.categoryId.GetOr(e.categoryId),
      category,
      p.isActive.GetOr(e.isActive),
      p.notifications.GetOr(e.notifications),
      p.notifyDaysBefore.GetOr(e.notifyDaysBefore),
      p.description.GetOr(e.description),
      e.paymentHistory,
      e.createdAt,
      now)
  }

  /** The patch `toggleActive` sends: only the flipped flag. */
  function TogglePatch(e: FixedExpense): FixedExpensePatch {
    FixedExpensePatch(None, None, None, None, None, None, None, Some(!e.isActive))
  }

  /** Toggling flips the flag and keeps every other field but the update
      time; toggling twice gives back the original expense, up to that
      time. */
  lemma ToggleTwice(e: FixedExpense, t1: DateTime, t2: DateTime)
    ensures var once := MergeExpense(e, TogglePatch(e), e.category, t1);
            && once.isActive == !e.isActive
            && once == e.(isActive := !e.isActive, updatedAt := t1)
            && MergeExpense(once, TogglePatch(once), once.category, t2) == e.(updatedAt := t2)
  {
  }

  /** `pDate.month() === month - 1 && pDate.year() === year`: a stored date
      that `moment` could not build never matches. */
  predicate PaidInMonth(p: PaymentRecord, month: int, year: int) {
    Valid(p.date) && p.date.month == month && p.date.year == year
  }

  /** `e.isActive` as a test. */
  function IsActive(e: FixedExpense): bool {
    e.isActive
  }

  function ExpenseAmount(e: FixedExpense): real {
    e.amount
  }

  function InMonth(month: int, year: int): PaymentRecord -> bool {
    (p: PaymentRecord) => PaidInMonth(p, month, year)
  }

  /** `amount || expense.amount`: a missing or zero amount falls back to the
      expense's. */
  function PaidAmount(amount: Option<real>, fallback: real): (r: real)
    ensures amount.Some? && amount.value != 0.0 ==> r == amount.value
    ensures amount.None? || amount.value == 0.0 ==> r == fallback
  {
    if amount.Some? && amount.value != 0.0 then amount.value else fallback
  }

  /** The payment `markAsPaid` records, dated on the due day of the month. */
  function Payment(e: FixedExpense, month: int, year: int, amount: Option<real>, notes: Option<string>,
                   paymentId: string, now: DateTime): PaymentRecord {
    PaymentRecord(paymentId, DateTime(year, month, e.dueDay, 0), PaidAmount(amount, e.amount), true, Some(now), notes)
  }

  /** Replace the month's first payment, or append when the month has
      none. */
  function RecordPayment(history: seq<PaymentRecord>, p: PaymentRecord, month: int, year: int): (r: seq<PaymentRecord>)
    ensures |history| <= |r| <= |history| + 1
    ensures |r| == |history| <==> exists k :: 0 <= k < |history| && PaidInMonth(history[k], month, year)
    ensures p in r
    ensures forall k :: 0 <= k < |history| && !PaidInMonth(history[k], month, year) ==> r[k] == history[k]
  {
    var j := FindIndex(history, InMonth(month, year));
    if j >= 0 then
      var r := history[j := p];
      assert r[j] == p;
      r
    else
      var r := history + [p];
      assert r[|history|] == p;
      r
  }

  /** Marking the same month twice leaves a single payment for it: the
      second mark replaces the first when the due day exists in that
      month. */
  lemma {:induction false} MarkTwiceOnePayment(history: seq<PaymentRecord>, p1: PaymentRecord, p2: PaymentRecord, month: int, year: int)
    requires PaidInMonth(p1, month, year)
    ensures |RecordPayment(RecordPayment(history, p1, month, year), p2, month, year)| <= |history| + 1
    ensures |RecordPayment(RecordPayment(history, p1, month, year), p2, month, year)|
            == |RecordPayment(history, p1, month, year)|
  {
    var r1 := RecordPayment(history, p1, month, year);
    var k :| 0 <= k < |r1| && r1[k] == p1;
    assert PaidInMonth(r1[k], month, year);
  }

  /** With a due day the month does not have, the payment's date is not a
      valid date, so it never matches and every mark appends. */
  lemma OverflowingDueDayAppends(e: FixedExpense, month: int, year: int, amount: Option<real>, notes: Option<string>,
                                 paymentId: string, now: DateTime)
    requires 1 <= month <= 12 && e.dueDay > DaysInMonth(year, month)
    ensures var p := Payment(e, month, year, amount, notes, paymentId, now);
            !PaidInMonth(p, month, year)
  {
  }

  class FixedExpenseService {

    /** The catalogue used to resolve each expense's category. */
    const categoryService: CategoryService

    /** `expensesSubject.value`. */
    var expenses: seq<FixedExpense>

    /** Construction loads the persisted list and resolves each category. */
    constructor(categoryService: CategoryService, persisted: seq<FixedExpense>)
      ensures this.categoryService == categoryService
      ensures |expenses| == |persisted|
      ensures forall i :: 0 <= i < |persisted| ==>
                expenses[i] == persisted[i].(category := categoryService.GetCategoryById(persisted[i].categoryId))
    {
      this.categoryService := categoryService;
      expenses := seq(|persisted|, i requires 0 <= i < |persisted| reads categoryService =>
        persisted[i].(category := categoryService.GetCategoryById(persisted[i].categoryId)));
    }

    /** `getActiveExpenses`: the active expenses, in order. */
    function GetActiveExpenses(): (r: seq<FixedExpense>)
      reads this
      ensures forall i :: 0 <= i < |r| ==> r[i] in expenses && r[i].isActive
      ensures forall i :: 0 <= i < |expenses| && expenses[i].isActive ==> expenses[i] in r
    {
      Filter(expenses, IsActive)
    }

    /** `getExpenseById`: the first expense with that id. */
    function GetExpenseById(id: string): (r: Option<FixedExpense>)
      reads this
      ensures r.Some? ==> r.value in expenses && r.value.id == id
      ensures r.Some? ==> exists i :: 0 <= i < |expenses| && expenses[i] == r.value
                                    && forall j :: 0 <= j < i ==> expenses[j].id != id
      ensures r.None? <==> forall i :: 0 <= i < |expenses| ==> expenses[i].id != id
    {
      Find(expenses, (e: FixedExpense) => e.id == id)
    }

    /** `getMonthlyTotal`: the amounts of the active expenses; the month and
        year it receives are not used. */
    function GetMonthlyTotal(month: int, year: int): real
      reads this
    {
      SumOf(GetActiveExpenses(), ExpenseAmount)
    }

    /** The monthly total and the total of the inactive expenses add up to
        the total of all expenses, whatever the month. */
    lemma MonthlyTotalSplit(month: int, year: int)
      ensures GetMonthlyTotal(month, year) + SumOf(Filter(expenses, Not(IsActive)), ExpenseAmount)
              == SumOf(expenses, ExpenseAmount)
      ensures GetMonthlyTotal(month, year) == GetMonthlyTotal(1, 2000)
    {
      SumSplit(expenses, IsActive, ExpenseAmount);
    }

    /** `addExpense`: appends exactly one new expense and returns it. */
    method AddExpense(data: FixedExpenseCreate, newId: string, now: DateTime) returns (e: FixedExpense)
      modifies this
      ensures e == NewExpense(newId, data, categoryService.GetCategoryById(data.categoryId), now)
      ensures expenses == old(expenses) + [e]
    {
      var category := categoryService.GetCategoryById(data.categoryId);
      e := NewExpense(newId, data, category, now);
      expenses := expenses + [e];
    }

    /** `updateExpense`: an unknown id changes nothing; otherwise only the
        first expense with the id is merged, its category looked up again
        only when the patch names one. */
    method UpdateExpense(id: string, patch: FixedExpensePatch, now: DateTime)
      modifies this
      ensures var i := FindIndex(old(expenses), (e: FixedExpense) => e.id == id);
              && (i == -1 ==> expenses == old(expenses))
              && (i >= 0 ==>
                    var category := if patch.categoryId.Some? && patch.categoryId.value != ""
                                    then categoryService.GetCategoryById(patch.categoryId.value)
                                    else old(expenses)[i].category;
                    expenses == old(expenses)[i := MergeExpense(old(expenses)[i], patch, category, now)])
    {
      var i := FindIndex(expenses, (e: FixedExpense) => e.id == id);
      if i == -1 {
        return;
      }
      var category := if patch.categoryId.Some? && patch.categoryId.value != ""
                      then categoryService.GetCategoryById(patch.categoryId.value)
                      else expenses[i].category;
      expenses := expenses[i := MergeExpense(expenses[i], patch, category, now)];
    }

    /** `deleteExpense`: keeps, in order, exactly the expenses with another
        id. */
    method DeleteExpense(id: string)
      modifies this
      ensures expenses == Filter(old(expenses), (e: FixedExpense) => e.id != id)
    {
      expenses := Filter(expenses, (e: FixedExpense) => e.id != id);
    }

    /** `toggleActive`: flips the flag of the first expense with the id and
        touches nothing else. */
    method ToggleActive(id: string, now: DateTime)
      modifies this
      ensures var i := FindIndex(old(expenses), (e: FixedExpense) => e.id == id);
              && (i == -1 ==> expenses == old(expenses))
              && (i >= 0 ==> expenses == old(expenses)[i := old(expenses)[i].(isActive := !old(expenses)[i].isActive, updatedAt := now)])
    {
      FindAtFindIndex(expenses, (e: FixedExpense) => e.id == id);
      var expense := GetExpenseById(id);
      if expense.None? {
        return;
      }
      ToggleTwice(expense.value, now, now);
      UpdateExpense(id, TogglePatch(expense.value), now);
    }

    /** `markAsPaid`: an unknown id changes nothing; otherwise the expense's
        history gets the new payment (replacing that month's, if any) and
        nothing else in the list changes. */
    method MarkAsPaid(expenseId: string, month: int, year: int, amount: Option<real>, notes: Option<string>,
                      paymentId: string, now: DateTime)
      modifies this
      ensures var i := FindIndex(old(expenses), (e: FixedExpense) => e.id == expenseId);
              && (i == -1 ==> expenses == old(expenses))
              && (i >= 0 ==>
                    var e := old(expenses)[i];
                    var p := Payment(e, month, year, amount, notes, paymentId, now);
                    expenses == old(expenses)[i := e.(paymentHistory := RecordPayment(e.paymentHistory, p, month, year), updatedAt := now)])
    {
      var i := FindIndex(expenses, (e: FixedExpense) => e.id == expenseId);
      if i == -1 {
        return;
      }
      var e := expenses[i];
      var p := Payment(e, month, year, amount, notes, paymentId, now);
      expenses := expenses[i := e.(paymentHistory := RecordPayment(e.paymentHistory, p, month, year), updatedAt := now)];
    }
  }
}
