/** The local transaction ledger (`TransactionService`): one in-memory list
    that every mutator copies, changes and republishes after writing it,
    without the resolved categories, to storage. */
module Ledger {

  import opened Wrappers
  import opened Text
  import opened Calendar
  import opened Collections
  import opened Models
  import opened Categories

  /** A transaction as it is persisted: everything but the resolved
      category. */
  datatype StoredTransaction = StoredTransaction(
    id: string,
    kind: TxType,
    amount: real,
    categoryId: string,
    description: string,
    date: DateTime,
    isRecurring: bool,
    recurringDay: Option<int>,
    notes: Option<string>,
    tags: seq<string>,
    createdAt: DateTime,
    updatedAt: DateTime)

  /** `({ category, ...rest }) => rest`. */
  function Strip(t: Transaction): StoredTransaction {
    StoredTransaction(t.id, t.kind, t.amount, t.categoryId, t.description, t.date,
                      t.isRecurring, t.recurringDay, t.notes, t.tags, t.createdAt, t.updatedAt)
  }

  /** The copy `saveTransactions` persists. */
  function StripAll(ts: seq<Transaction>): (ps: seq<StoredTransaction>)
    ensures |ps| == |ts|
    ensures forall i :: 0 <= i < |ts| ==> ps[i] == Strip(ts[i])
  {
    seq(|ts|, i requires 0 <= i < |ts| => Strip(ts[i]))
  }

  /** A persisted transaction with its category looked up again, as
      `loadTransactions` rebuilds it. */
  function Attach(p: StoredTransaction, category: Option<Category>): Transaction {
    Transaction(p.id, p.kind, p.amount, p.categoryId, category, p.description, p.date,
                p.isRecurring, p.recurringDay, p.notes, p.tags, p.createdAt, p.updatedAt)
  }

  /** Stripping undoes attaching: a load followed by a save writes back
      what was read. */
  lemma StripAttach(ps: seq<StoredTransaction>, cats: seq<Category>)
    ensures StripAll(seq(|ps|, i requires 0 <= i < |ps| => Attach(ps[i], CategoryById(cats, ps[i].categoryId)))) == ps
  {
  }

  /** The persisted copy differs from the in-memory list only by the missing
      categories: same length, same ids, same order. */
  lemma StrippedKeepsIds(ts: seq<Transaction>)
    ensures |StripAll(ts)| == |ts|
    ensures forall i :: 0 <= i < |ts| ==> StripAll(ts)[i].id == ts[i].id && StripAll(ts)[i].amount == ts[i].amount
  {
  }

  /** The record `addTransaction` builds. */
  function NewTransaction(id: string, data: TransactionCreate, category: Option<Category>, now: DateTime): Transaction {
    Transaction(
      id, data.kind, data.amount, data.categoryId, category, data.description,
      data.date.GetOr(now),
      data.isRecurring.GetOr(false),
      data.recurringDay,
      data.notes,
      data.tags.GetOr([]),
      now, now)
  }

  /** A new transaction gets the current time when no date is given, is not
      recurring unless asked, has no tags unless given, and carries the
      creation time as both timestamps. */
  lemma NewTransactionDefaults(id: string, data: TransactionCreate, category: Option<Category>, now: DateTime)
    ensures var t := NewTransaction(id, data, category, now);
            && t.id == id && t.category == category
            && (data.date.None? ==> t.date == now) && (data.date.Some? ==> t.date == data.date.value)
            && (data.isRecurring.None? ==> !t.isRecurring)
            && (data.tags.None? ==> t.tags == [])
            && t.createdAt == now && t.updatedAt == now
  {
  }

  /** `{...t, ...updates, category, updatedAt}`. */
  function MergeTransaction(t: Transaction, p: TransactionPatch, category: Option<Category>, now: DateTime): Transaction {
    Transaction(
      t.id,
      p.kind.GetOr(t.kind),
      p.amount.GetOr(t.amount),
      p.categoryId.GetOr(t.categoryId),
      category,
      p.description.GetOr(t.description),
      p.date.GetOr(t.date),
      p.isRecurring.GetOr(t.isRecurring),
      p.recurringDay.GetOr(t.recurringDay),
      p.notes.GetOr(t.notes),
      p.tags.GetOr(t.tags),
      t.createdAt,
      now)
  }

  /** An update can change neither the id nor the creation time. */
  lemma MergeKeepsIdentity(t: Transaction, p: TransactionPatch, category: Option<Category>, now: DateTime)
    ensures MergeTransaction(t, p, category, now).id == t.id
    ensures MergeTransaction(t, p, category, now).createdAt == t.createdAt
    ensures MergeTransaction(t, p, category, now).updatedAt == now
  {
  }

  /** The case-insensitive search of `getFilteredTransactions`: the lowered
      term occurs in the description, the notes or the category name. */
  predicate SearchHit(t: Transaction, term: string) {
    || Contains(ToLower(t.description), term)
    || (t.notes.Some? && Contains(ToLower(t.notes.value), term))
    || (t.category.Some? && Contains(ToLower(t.category.value.name), term))
  }

  /** Every filter that is present (and, for strings, non-empty) holds. */
  predicate MatchesFilter(t: Transaction, f: TransactionFilter) {
    && (f.kind.Some? ==> t.kind == f.kind.value)
    && (Truthy(f.categoryId) ==> t.categoryId == f.categoryId.value)
    && (f.startDate.Some? ==> Instant(t.date) >= Instant(StartOfDay(f.startDate.value)))
    && (f.endDate.Some? ==> Instant(t.date) <= Instant(EndOfDay(f.endDate.value)))
    && (Truthy(f.search) ==> SearchHit(t, ToLower(f.search.value)))
  }

  /** The sort key of `sort((a, b) => time(b) - time(a))`. */
  function DateKey(t: Transaction): real {
    Instant(t.date) as real
  }

  /** The test a transaction filter applies. */
  function Passes(f: TransactionFilter): Transaction -> bool {
    (t: Transaction) => MatchesFilter(t, f)
  }

  /** The type test of `getTotalByType`. */
  function OfKind(kind: TxType): Transaction -> bool {
    (t: Transaction) => t.kind == kind
  }

  /** The summed field of `getTotalByType`. */
  function Amount(t: Transaction): real {
    t.amount
  }

  /** The filters `getFilteredTransactions` applies, then the newest-first
      sort. */
  function FilterTransactions(ts: seq<Transaction>, f: TransactionFilter): (r: seq<Transaction>)
    ensures forall t :: t in r <==> t in ts && MatchesFilter(t, f)
    ensures multiset(r) == multiset(Filter(ts, Passes(f)))
    ensures forall i, j :: 0 <= i < j < |r| ==> Instant(r[i].date) >= Instant(r[j].date)
  {
    FilterSortedShows(ts, Passes(f), DateKey);
    FilterSorted(ts, Passes(f), DateKey)
  }

  /** The whole days of a month, as `getTransactionsByMonth` bounds them. */
  predicate InMonthRange(d: DateTime, month: int, year: int)
    requires 1 <= month <= 12
  {
    var first := DateTime(year, month, 1, 0);
    var last := DateTime(year, month, DaysInMonth(year, month), 0);
    Instant(StartOfDay(first)) <= Instant(d) <= Instant(EndOfDay(last))
  }

  /** The filter `getTransactionsByMonth` hands to `getFilteredTransactions`:
      the first and the last day of the month. Outside 1..12 the month's
      `moment` is invalid and nothing compares as inside it. */
  function MonthFilter(month: int, year: int): TransactionFilter
    requires 1 <= month <= 12
  {
    TransactionFilter(None, None, Some(DateTime(year, month, 1, 0)),
                      Some(DateTime(year, month, DaysInMonth(year, month), 0)), None)
  }

  /** For a date with in-range fields, lying in a month's range means
      having that year and month. */
  lemma MonthRangeIsMonth(d: DateTime, month: int, year: int)
    requires Valid(d) && 1 <= month <= 12
    ensures InMonthRange(d, month, year) <==> d.year == year && d.month == month
  {
    var first := StartOfDay(DateTime(year, month, 1, 0));
    var last := EndOfDay(DateTime(year, month, DaysInMonth(year, month), 0));
    assert Valid(first) && Valid(last);
    InstantOrder(first, d);
    InstantOrder(d, last);
  }

  class TransactionService {

    /** The category catalogue `addTransaction` and `updateTransaction`
        consult. */
    const categoryService: CategoryService

    /** `transactionsSubject.value`. */
    var transactions: seq<Transaction>

    /** What storage holds under the `transactions` key. */
    var stored: seq<StoredTransaction>

    /** The persisted copy is always the in-memory list without its
        categories. */
    predicate Valid()
      reads this
    {
      stored == StripAll(transactions)
    }

    /** Construction loads the persisted list and resolves each category. */
    constructor(categoryService: CategoryService, persisted: seq<StoredTransaction>)
      ensures this.categoryService == categoryService
      ensures stored == persisted
      ensures |transactions| == |persisted|
      ensures forall i :: 0 <= i < |persisted| ==>
                transactions[i] == Attach(persisted[i], categoryService.GetCategoryById(persisted[i].categoryId))
      ensures Valid()
    {
      this.categoryService := categoryService;
      transactions := seq(|persisted|, i requires 0 <= i < |persisted| reads categoryService =>
        Attach(persisted[i], categoryService.GetCategoryById(persisted[i].categoryId)));
      stored := persisted;
    }

    /** `saveTransactions`: write the stripped copy, then publish; a failed
        write rejects before anything is published. */
    method SaveTransactions(ts: seq<Transaction>, storageOk: bool) returns (r: Result<()>)
      modifies this
      ensures storageOk ==> r.Success? && transactions == ts && stored == StripAll(ts)
      ensures !storageOk ==> r.Failure? && transactions == old(transactions) && stored == old(stored)
    {
      if !storageOk {
        return Failure("storage write rejected");
      }
      stored := StripAll(ts);
      transactions := ts;
      return Success(());
    }

    /** `getTransactionById`: the first transaction with that id. */
    function GetTransactionById(id: string): (r: Option<Transaction>)
      reads this
      ensures r.Some? ==> exists i :: 0 <= i < |transactions| && transactions[i] == r.value && r.value.id == id
                                    && forall j :: 0 <= j < i ==> transactions[j].id != id
      ensures r.None? <==> forall i :: 0 <= i < |transactions| ==> transactions[i].id != id
    {
      Find(transactions, (t: Transaction) => t.id == id)
    }

    /** `addTransaction`: the old list followed by exactly one new
        transaction, which is returned. */
    method AddTransaction(data: TransactionCreate, newId: string, now: DateTime, storageOk: bool)
      returns (r: Result<Transaction>)
      requires Valid()
      modifies this
      ensures Valid()
      ensures var t := NewTransaction(newId, data, categoryService.GetCategoryById(data.categoryId), now);
              if storageOk then r == Success(t) && transactions == old(transactions) + [t]
              else r.Failure? && transactions == old(transactions)
    {
      var category := categoryService.GetCategoryById(data.categoryId);
      var t := NewTransaction(newId, data, category, now);
      var saved := SaveTransactions(transactions + [t], storageOk);
      if saved.Failure? {
        return Failure(saved.error);
      }
      return Success(t);
    }

    /** `updateTransaction`: an unknown id changes and saves nothing;
        otherwise only the entry at the first matching index changes, its
        category looked up again only when the patch names a category. */
    method UpdateTransaction(id: string, patch: TransactionPatch, now: DateTime, storageOk: bool)
      returns (r: Result<()>)
      requires Valid()
      modifies this
      ensures Valid()
      ensures var i := FindIndex(old(transactions), (t: Transaction) => t.id == id);
              && (i == -1 ==> r.Success? && transactions == old(transactions) && stored == old(stored))
              && (i >= 0 && !storageOk ==> r.Failure? && transactions == old(transactions))
              && (i >= 0 && storageOk ==>
                    && r.Success?
                    && var category := if Truthy(patch.categoryId)
                                       then categoryService.GetCategoryById(patch.categoryId.value)
                                       else old(transactions)[i].category;
                       transactions == old(transactions)[i := MergeTransaction(old(transactions)[i], patch, category, now)])
    {
      var i := FindIndex(transactions, (t: Transaction) => t.id == id);
      if i == -1 {
        return Success(());
      }
      var category := if Truthy(patch.categoryId)
                      then categoryService.GetCategoryById(patch.categoryId.value)
                      else transactions[i].category;
      r := SaveTransactions(transactions[i := MergeTransaction(transactions[i], patch, category, now)], storageOk);
    }

    /** `deleteTransaction`: keeps, in order, exactly the transactions with
        another id. */
    method DeleteTransaction(id: string, storageOk: bool) returns (r: Result<()>)
      requires Valid()
      modifies this
      ensures Valid()
      ensures storageOk ==> r.Success? && transactions == Filter(old(transactions), (t: Transaction) => t.id != id)
      ensures !storageOk ==> r.Failure? && transactions == old(transactions)
    {
      r := SaveTransactions(Filter(transactions, (t: Transaction) => t.id != id), storageOk);
    }

    /** `getFilteredTransactions`: the transactions that pass every given
        filter, newest first. */
    function GetFilteredTransactions(f: TransactionFilter): (r: seq<Transaction>)
      reads this
      ensures forall t :: t in r <==> t in transactions && MatchesFilter(t, f)
      ensures multiset(r) == multiset(Filter(transactions, Passes(f)))
      ensures forall i, j :: 0 <= i < j < |r| ==> Instant(r[i].date) >= Instant(r[j].date)
    {
      FilterTransactions(transactions, f)
    }

    /** `getTransactionsByMonth`: the transactions dated within the month,
        newest first; none for a month outside 1..12. */
    function GetTransactionsByMonth(month: int, year: int): (r: seq<Transaction>)
      reads this
      ensures !(1 <= month <= 12) ==> r == []
      ensures 1 <= month <= 12 ==> forall t :: t in r <==> t in transactions && InMonthRange(t.date, month, year)
    {
      if 1 <= month <= 12 then
        MonthFilterIsRange(month, year);
        GetFilteredTransactions(MonthFilter(month, year))
      else []
    }

    /** `getTotalByType`: the total of one type, over the month's
        transactions when both month and year are given and non-zero. */
    function GetTotalByType(kind: TxType, month: Option<int>, year: Option<int>): (r: real)
      reads this
      ensures month.Some? && month.value != 0 && year.Some? && year.value != 0 && !(1 <= month.value <= 12) ==> r == 0.0
    {
      var pool := if month.Some? && month.value != 0 && year.Some? && year.value != 0
                  then GetTransactionsByMonth(month.value, year.value) else transactions;
      SumOf(Filter(pool, OfKind(kind)), Amount)
    }

    /** The type total is the plain sum of `amount` over the transactions of
        that type, restricted to the month when one is given: the sort
        inside the month query changes nothing. */
    lemma TotalByTypeIsSum(kind: TxType, month: int, year: int)
      ensures GetTotalByType(kind, None, None)
              == SumOf(Filter(transactions, OfKind(kind)), Amount)
      ensures 1 <= month <= 12 && year != 0 ==>
              GetTotalByType(kind, Some(month), Some(year))
              == SumOf(Filter(transactions, (t: Transaction) => InMonthRange(t.date, month, year) && t.kind == kind), Amount)
      ensures !(1 <= month <= 12) && month != 0 && year != 0 ==> GetTotalByType(kind, Some(month), Some(year)) == 0.0
    {
      if 1 <= month <= 12 && year != 0 {
        assert GetTransactionsByMonth(month, year) == FilterSorted(transactions, Passes(MonthFilter(month, year)), DateKey);
        MonthTotalIsSum(transactions, kind, month, year);
      }
    }
  }

  /** Summing one type over the month's sorted transactions is summing it
      over the transactions dated in the month. */
  lemma MonthTotalIsSum(ts: seq<Transaction>, kind: TxType, month: int, year: int)
    requires 1 <= month <= 12
    ensures SumOf(Filter(FilterSorted(ts, Passes(MonthFilter(month, year)), DateKey), OfKind(kind)), Amount)
            == SumOf(Filter(ts, (t: Transaction) => InMonthRange(t.date, month, year) && t.kind == kind), Amount)
  {
    var inMonth := Passes(MonthFilter(month, year));
    FilterSortedSum(ts, inMonth, DateKey, OfKind(kind), Amount);
    MonthFilterIsRange(month, year);
    FilterSameTest(ts, Both(inMonth, OfKind(kind)),
                   (t: Transaction) => InMonthRange(t.date, month, year) && t.kind == kind);
  }

  /** The month filter admits exactly the dates in the month's range. */
  lemma MonthFilterIsRange(month: int, year: int)
    requires 1 <= month <= 12
    ensures forall t :: MatchesFilter(t, MonthFilter(month, year)) <==> InMonthRange(t.date, month, year)
  {
  }

  /** After a delete no transaction with that id is left, every other one
      is, and the length drops by the number of entries with that id. */
  lemma DeleteRemovesExactlyId(ts: seq<Transaction>, id: string)
    ensures forall t :: t in Filter(ts, (t: Transaction) => t.id != id) ==> t.id != id
    ensures forall i :: 0 <= i < |ts| && ts[i].id != id ==> ts[i] in Filter(ts, (t: Transaction) => t.id != id)
    ensures |Filter(ts, (t: Transaction) => t.id != id)| == |ts| - CountKey(ts, (t: Transaction) => t.id, id)
  {
    DeleteCount(ts, id);
  }

  lemma {:induction false} DeleteCount(ts: seq<Transaction>, id: string)
    ensures |Filter(ts, (t: Transaction) => t.id != id)| == |ts| - CountKey(ts, (t: Transaction) => t.id, id)
  {
    if ts != [] {
      DeleteCount(ts[..|ts| - 1], id);
    }
  }
}
