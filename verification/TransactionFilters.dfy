/** The filters of the transactions page (`applyFilters` in
    `transactions.page.ts`): the year, month, type and search tests, their
    composition, and the newest-first list they produce. */
module TransactionFilters {

  import opened Wrappers
  import opened Text
  import opened Calendar
  import opened Models
  import opened Collections

  /** The search of `applyFilters`: the lowered term occurs in the lowered
      description, category name or notes. */
  predicate SearchHit(t: ApiTransaction, term: string) {
    || Contains(ToLower(t.description), term)
    || (t.categoryName.Some? && Contains(ToLower(t.categoryName.value), term))
    || (t.notes.Some? && Contains(ToLower(t.notes.value), term))
  }

  /** What the filters of `applyFilters` let through: the selected year,
      the selected month when there is one, the release type unless it is
      `'all'`, and the search term when it is not empty. */
  predicate Shown(t: ApiTransaction, year: int, month: Option<int>, filterType: string, searchTerm: string) {
    && t.date.year == year
    && (month.Some? ==> t.date.month == month.value)
    && (filterType != "all" ==> t.releaseType == filterType)
    && (searchTerm != "" ==> SearchHit(t, ToLower(searchTerm)))
  }

  function ShownBy(year: int, month: Option<int>, filterType: string, searchTerm: string): ApiTransaction -> bool {
    t => Shown(t, year, month, filterType, searchTerm)
  }

  function InYear(year: int): ApiTransaction -> bool {
    (t: ApiTransaction) => t.date.year == year
  }

  function InMonth(month: int): ApiTransaction -> bool {
    (t: ApiTransaction) => t.date.month == month
  }

  function OfReleaseType(code: string): ApiTransaction -> bool {
    (t: ApiTransaction) => t.releaseType == code
  }

  function Matching(term: string): ApiTransaction -> bool {
    t => SearchHit(t, term)
  }

  /** The month filter, passing everything when no month is selected. */
  function MonthTest(month: Option<int>): ApiTransaction -> bool {
    (t: ApiTransaction) => month.Some? ==> t.date.month == month.value
  }

  /** The type filter, passing everything for `'all'`. */
  function TypeTest(filterType: string): ApiTransaction -> bool {
    (t: ApiTransaction) => filterType != "all" ==> t.releaseType == filterType
  }

  /** The search filter, passing everything for an empty term. */
  function SearchTest(searchTerm: string): ApiTransaction -> bool {
    (t: ApiTransaction) => searchTerm != "" ==> SearchHit(t, ToLower(searchTerm))
  }

  /** The four filters in a row are the one test `Shown`. */
  lemma FilterChain(all: seq<ApiTransaction>, year: int, month: Option<int>, filterType: string, searchTerm: string)
    ensures Filter(Filter(Filter(Filter(all, InYear(year)), MonthTest(month)), TypeTest(filterType)), SearchTest(searchTerm))
            == Filter(all, ShownBy(year, month, filterType, searchTerm))
  {
    var p1 := Both(InYear(year), MonthTest(month));
    var p2 := Both(p1, TypeTest(filterType));
    FilterFilter(all, InYear(year), MonthTest(month));
    FilterFilter(all, p1, TypeTest(filterType));
    FilterFilter(all, p2, SearchTest(searchTerm));
    ChainIsShown(year, month, filterType, searchTerm);
    FilterSameTest(all, Both(p2, SearchTest(searchTerm)), ShownBy(year, month, filterType, searchTerm));
  }

  /** The four tests together are `Shown`. */
  lemma ChainIsShown(year: int, month: Option<int>, filterType: string, searchTerm: string)
    ensures forall t :: Both(Both(Both(InYear(year), MonthTest(month)), TypeTest(filterType)), SearchTest(searchTerm))(t)
                        <==> ShownBy(year, month, filterType, searchTerm)(t)
  {
  }

  /** The sort key of `sort((a, b) => time(b) - time(a))`. */
  function DateKey(t: ApiTransaction): real {
    Instant(t.date) as real
  }

  /** `parseFloat(t.value)`. */
  function Value(t: ApiTransaction): real {
    t.value
  }

  /** The list `applyFilters` shows. */
  function FilteredView(all: seq<ApiTransaction>, year: int, month: Option<int>, filterType: string,
                        searchTerm: string): seq<ApiTransaction> {
    FilterSorted(all, ShownBy(year, month, filterType, searchTerm), DateKey)
  }

  /** What is shown is exactly the transactions the filters let through,
      each as often as it occurs, newest first. */
  lemma FilteredViewShows(all: seq<ApiTransaction>, year: int, month: Option<int>, filterType: string,
                          searchTerm: string)
    ensures var r := FilteredView(all, year, month, filterType, searchTerm);
            && (forall t :: t in r <==> t in all && Shown(t, year, month, filterType, searchTerm))
            && multiset(r) == multiset(Filter(all, ShownBy(year, month, filterType, searchTerm)))
            && (forall i, j :: 0 <= i < j < |r| ==> Instant(r[i].date) >= Instant(r[j].date))
  {
    FilterSortedShows(all, ShownBy(year, month, filterType, searchTerm), DateKey);
  }

  /** The totals of what is shown are the sums, over all transactions, of
      the values of those the filters let through that have the given
      type: the newest-first sort does not change them. */
  lemma ShownTotal(all: seq<ApiTransaction>, year: int, month: Option<int>, filterType: string, searchTerm: string,
                   code: string)
    ensures SumWhere(FilteredView(all, year, month, filterType, searchTerm), OfReleaseType(code), Value)
            == SumOf(Filter(all, Both(ShownBy(year, month, filterType, searchTerm), OfReleaseType(code))), Value)
  {
    SumWhereIsFilteredSum(FilteredView(all, year, month, filterType, searchTerm), OfReleaseType(code), Value);
    FilterSortedSum(all, ShownBy(year, month, filterType, searchTerm), DateKey, OfReleaseType(code), Value);
  }
}
