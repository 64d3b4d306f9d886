/** The records the services and pages exchange. Two transaction shapes
    coexist: the local ledger's (`type`/`amount`/`categoryId`) and the one the
    pages receive from the HTTP API (`release_type`/`value`/`category_name`).
    Amounts are exact decimals (`real`), not IEEE doubles. */
module Models {

  import opened Wrappers
  import opened Calendar

  /** `'income' | 'expense'`. */
  datatype TxType = Income | Expense

  /** A category of the local catalogue. */
  datatype Category = Category(
    id: string,
    name: string,
    icon: string,
    color: string,
    kind: TxType,
    budget: Option<real>,
    order: Option<int>)

  /** `Omit<Category, 'id'>`: what `addCategory` receives. */
  datatype CategoryDraft = CategoryDraft(
    name: string,
    icon: string,
    color: string,
    kind: TxType,
    budget: Option<real>,
    order: Option<int>)

  /** `Partial<Category>`: each present field overrides the stored one. */
  datatype CategoryPatch = CategoryPatch(
    id: Option<string>,
    name: Option<string>,
    icon: Option<string>,
    color: Option<string>,
    kind: Option<TxType>,
    budget: Option<Option<real>>,
    order: Option<Option<int>>)

  /** A ledger transaction as the in-memory list holds it, with its
      category resolved. */
  datatype Transaction = Transaction(
    id: string,
    kind: TxType,
    amount: real,
    categoryId: string,
    category: Option<Category>,
    description: string,
    date: DateTime,
    isRecurring: bool,
    recurringDay: Option<int>,
    notes: Option<string>,
    tags: seq<string>,
    createdAt: DateTime,
    updatedAt: DateTime)

  /** What `addTransaction` receives. */
  datatype TransactionCreate = TransactionCreate(
    kind: TxType,
    amount: real,
    categoryId: string,
    description: string,
    date: Option<DateTime>,
    isRecurring: Option<bool>,
    recurringDay: Option<int>,
    notes: Option<string>,
    tags: Option<seq<string>>)

  /** `Partial<TransactionCreate>`: what `updateTransaction` receives. */
  datatype TransactionPatch = TransactionPatch(
    kind: Option<TxType>,
    amount: Option<real>,
    categoryId: Option<string>,
    description: Option<string>,
    date: Option<DateTime>,
    isRecurring: Option<bool>,
    recurringDay: Option<Option<int>>,
    notes: Option<Option<string>>,
    tags: Option<seq<string>>)

  /** `TransactionFilter`: every present field narrows the result. */
  datatype TransactionFilter = TransactionFilter(
    kind: Option<TxType>,
    categoryId: Option<string>,
    startDate: Option<DateTime>,
    endDate: Option<DateTime>,
    search: Option<string>)

  /** One payment in a fixed expense's history. */
  datatype PaymentRecord = PaymentRecord(
    id: string,
    date: DateTime,
    amount: real,
    paid: bool,
    paidDate: Option<DateTime>,
    notes: Option<string>)

  /** A fixed (recurring) expense of the local store. */
  datatype FixedExpense = FixedExpense(
    id: string,
    name: string,
    amount: real,
    dueDay: int,
    categoryId: string,
    category: Option<Category>,
    isActive: bool,
    notifications: bool,
    notifyDaysBefore: int,
    description: Option<string>,
    paymentHistory: seq<PaymentRecord>,
    createdAt: DateTime,
    updatedAt: DateTime)

  /** What `addExpense` receives. */
  datatype FixedExpenseCreate = FixedExpenseCreate(
    name: string,
    amount: real,
    dueDay: int,
    categoryId: string,
    notifications: Option<bool>,
    notifyDaysBefore: Option<int>,
    description: Option<string>)

  /** `Partial<FixedExpenseCreate>`, plus the `isActive` flag `toggleActive`
      passes through it. */
  datatype FixedExpensePatch = FixedExpensePatch(
    name: Option<string>,
    amount: Option<real>,
    dueDay: Option<int>,
    categoryId: Option<string>,
    notifications: Option<bool>,
    notifyDaysBefore: Option<int>,
    description: Option<Option<string>>,
    isActive: Option<bool>)

  /** The `ReleaseTypes` codes of the HTTP API. */
  const IncomeCode: string := "1"
  const ExpenseCode: string := "2"

  /** The `ActiveStatus` codes of the HTTP API. */
  const ActiveCode: int := 1
  const InactiveCode: int := 2

  /** A transaction as the pages receive it from the HTTP API (the fields
      the pages read; `value` already parsed). */
  datatype ApiTransaction = ApiTransaction(
    id: string,
    description: string,
    releaseType: string,
    value: real,
    date: DateTime,
    categoryName: Option<string>,
    categoryIcon: Option<string>,
    notes: Option<string>)

  /** A field that can be absent (`undefined`), `null`, or hold a string;
      `=== null` tells the first two apart. */
  datatype NullableText = Undefined | Null | Text(text: string)

  /** A fixed release (`Release`) as the pages receive it. */
  datatype Release = Release(
    id: string,
    description: string,
    isActive: int,
    releaseType: Option<string>,
    currentMonthPaymentStatus: NullableText,
    currentMonthReleaseId: Option<string>,
    value: real,
    paymentDay: int,
    categoryName: Option<string>,
    notifications: bool,
    notifyDaysBefore: int,
    notes: Option<string>,
    paymentMethod: Option<string>,
    startDate: Option<string>,
    endDate: Option<string>)

  /** The payment status the API reports for one release in the current
      month. */
  datatype PaymentStatus = PaymentStatus(isPaid: bool, daysUntilDue: int, isOverdue: bool)

  /** A transaction of the reports endpoints (`ReportTransaction`). */
  datatype ReportTransaction = ReportTransaction(
    id: int,
    description: string,
    value: real,
    categoryName: string,
    categoryIcon: string)

  /** One month of the comparative endpoint (`MonthData`). */
  datatype MonthData = MonthData(
    month: int,
    year: int,
    incomes: seq<ReportTransaction>,
    expenses: seq<ReportTransaction>,
    totalIncomes: real,
    totalExpenses: real)

  /** `ComparativeResponse`. */
  datatype Comparative = Comparative(previousMonth: MonthData, currentMonth: MonthData)
}
