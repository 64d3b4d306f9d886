# financial-control in Dafny

A model of the core of *financial-control*, an Ionic/Angular personal-finance
app. The model covers:

- the detector that turns Android bank notifications into ledger
  transactions;
- the in-memory stores behind the app: the transaction ledger, the
  recurring ("fixed") expenses with their payment history, and the category
  catalogue;
- the report, notification-id and export services;
- the filtering, grouping and status rules of the four main pages
  (transactions, fixed expenses, dashboard, reports).

Each TypeScript service or page becomes one Dafny module:

| module | models |
|---|---|
| `BankPatterns` | the detector's regular expressions, written as scanners: the six rule heads, the four amount patterns with their separator normalisation, and the name extractors |
| `BankDetector` | the package allow-list, the rule order, the category heuristics, the ledger record, and the detector object with the confirmations it requests; the sticky `lastIndex` of the shared `/g` rule patterns is modelled by pure functions beside it (`DetectSticky`, `StickyMissesRepeat`) |
| `Ledger` | `TransactionService`, a class holding the transaction list, with storage failure as an outcome |
| `FixedExpenses` | `FixedExpenseService`, a class holding the recurring expenses and their payment histories |
| `Categories` | `CategoryService`, a class holding the catalogue |
| `Reports` | `ReportService`: the monthly summary, the comparison with the previous month, the year, and a category's trend |
| `Notifications` | the 32-bit string hash, the notification ids, and the scheduling guards, over a list of pending notifications |
| `Export` | the CSV text, the PDF table rows and the page footers |
| `TransactionFilters`, `MonthGroups`, `TransactionsPage` | the transactions page |
| `FixedExpensesPage`, `DashboardPage`, `ReportsPage` | the other three pages |
| `Calendar`, `Text`, `Collections`, `Models`, `Wrappers` | dates as `moment` sees them, the JavaScript string and array primitives used, the records, and the "absent, not error" outcome |

Pages and services that change their own fields in place are Dafny classes:

- Their fields are `seq`, `map` or `Option` values that the methods
  reassign.
- Each method's `ensures` gives the whole new state in terms of
  specification functions.
- Lemmas about those functions state what the code promises.

Pure helpers are functions.

## Modelling choices

- **Money is an exact decimal (`real`), not integer cents.** The detector
  can produce amounts with more than two decimals: `R$ 1,2.34` is read as
  1.234. Integer cents could not represent that. JavaScript doubles are not
  modelled; sums are exact.
- **Dates** are a year, a month (1–12), a day and the millisecond within
  that day, ordered by an instant key. `Calendar` proves the key
  chronological on valid dates. Time zones, epoch conversion and locale
  names are not part of the model.
- **Regular expressions are deterministic scanners.** Each scanner finds
  the leftmost match and, per start position, the greedy run the
  backtracking engine settles on. This is exact for these patterns,
  because each class run is followed by a character outside the class.
  Case-insensitive matching folds only ASCII letters of the pattern's
  literals, as `/i` without `/u` does. The name class `[a-zá-ú]` under
  `/i` also admits the capitals Á to Ú (U+00C1 to U+00DA, without the
  multiplication sign ×), as `BankPatterns.InClass` states.
- **Two transaction shapes.**
  - The local services use `type`/`amount`/`categoryId`.
  - The pages receive the HTTP API's shape: `release_type`/`value`/`category_name`.
  - The report service reads `release_type`, `amount` and `categoryId`
    from local transactions. `ReportItem` holds exactly those fields.
- **Fields read but not declared.** The fixed-expenses page reads a
  release's `start_date` and `end_date`, which the `Release` interface does
  not declare. The model gives `Release` both fields.
- **Outside calls become parameters.** I/O, clocks, generated ids and the
  results of HTTP calls are parameters of the operations: "now", "today",
  the new id, the API's answer (or its failure as `None`), whether an
  export succeeds.
- **Code over documentation.** Where the app's own description and its code
  disagree, the model follows the code. The description says
  `R$1,234.56` is read as 1234.56. In the code, the comma pattern is tried
  first, captures `1,23` and yields 1.23. `BankPatterns.AmountUsFormatMisread`
  proves this behaviour.

## Model

| member | source | states |
|---|---|---|
| BankDetector.FullTextLayout | src/services/bank-transaction-detector.service.ts:123 | the matched text is title, text and big text, each missing one read as empty, lower-cased field by field and joined by single spaces, and it holds a `$` only where a field does |
| BankDetector.IsBankApp | src/services/bank-transaction-detector.service.ts:111-115 | a package is accepted when its lower-cased name contains the lower-cased form of one of the eight fragments of the allow-list |
| BankDetector.IsBankAppIgnoresCase | src/services/bank-transaction-detector.service.ts:111-115 | the fragments are already lower case, so a package is accepted exactly when its lower-cased name contains one of them as written, and exactly when its lower-cased name is itself accepted |
| BankDetector.Description | src/services/bank-transaction-detector.service.ts:128-224 | transfers always get their fixed wording; the Pix and purchase rules get "Pix recebido de", "Pix para" or "Compra em" followed by the non-empty trimmed name found in the original-case text, and their fixed wording when no name is found |
| BankDetector.Detect | src/services/bank-transaction-detector.service.ts:120-233 | a detection carries a strictly positive amount, the one the amount extractor reads from the lower-cased text, the notification's app name as source and its post time as date |
| BankDetector.FirstRuleFrom | src/services/bank-transaction-detector.service.ts:128-233 | the position of the first rule, in the fixed order, whose pattern fires, with none before it firing, or -1 exactly when none fires |
| BankDetector.DetectFromFirst | src/services/bank-transaction-detector.service.ts:128-233 | trying the rules in order gives the detection of the first rule that fires, provided an amount is found; when that rule finds no amount, no later rule is tried to any effect, because they all read the same amount |
| BankDetector.DetectFirstRule | src/services/bank-transaction-detector.service.ts:127-233 | a notification is detected exactly when some rule fires and an amount is found, and then by the first firing rule in the order Pix recebido, Pix enviado, transferência recebida, transferência enviada, compra aprovada, compra no débito |
| BankDetector.DetectedIncomeIffReceived | src/services/bank-transaction-detector.service.ts:133-190 | a detection is income exactly when its label is "Pix Recebido" or "Transferência Recebida"; every other rule gives an expense |
| BankDetector.NoDollarNoDetection | src/services/bank-transaction-detector.service.ts:123-233 | a notification with no `$` in its title, text or big text is never detected |
| BankDetector.FindAppropriateCategory | src/services/bank-transaction-detector.service.ts:381-413 | the chosen category is always one of the catalogue's, and nothing is chosen for a non-Pix, non-purchase detection only when the catalogue is empty |
| BankDetector.CategoryForRule | src/services/bank-transaction-detector.service.ts:381-413 | Pix detections take the first category of their kind whose name contains "outros"; purchases go through the merchant keywords; transfers take the first category of their kind, else the first category |
| BankDetector.LedgerRecord | src/services/bank-transaction-detector.service.ts:351-358 | the ledger record keeps the detection's kind, amount, description and date, has the empty category id when no category was found, and its notes name the source and the transaction label |
| BankDetector.BankTransactionDetector.constructor | src/services/bank-transaction-detector.service.ts:50-53 | the detector starts with no confirmation requested, over a ledger that resolves categories in the same catalogue |
| BankDetector.BankTransactionDetector.ProcessNotification | src/services/bank-transaction-detector.service.ts:82-106 | a notification from an app outside the allow-list, or one that is not detected, changes neither the ledger nor the confirmations; otherwise exactly one transaction built from the ledger record is appended, and a confirmation is recorded only when the write succeeded (the intended delivery: see the `ProcessNotification` line under Left out) |
| BankDetector.StickyTest | src/services/bank-transaction-detector.service.ts:239-240 | a `/g` pattern's `test` matches only from a `lastIndex` inside the text, and from `lastIndex` 0 it matches exactly when the stateless pattern does |
| BankDetector.StickyFromFresh | src/services/bank-transaction-detector.service.ts:25-31 | with every shared pattern's `lastIndex` at 0, the stateful rule chain detects exactly what the stateless one does |
| BankDetector.StickyNoRuleFrom | src/services/bank-transaction-detector.service.ts:25-31 | fresh patterns none of which matches leave nothing detected |
| BankDetector.StickyFirstCall | src/services/bank-transaction-detector.service.ts:239-240 | the first Pix notification is detected as the stateless model detects it, and leaves the Pix pattern's `lastIndex` at the end of its match |
| BankDetector.StickySecondCall | src/services/bank-transaction-detector.service.ts:239-240 | from the end of the only match the Pix pattern fails, and no other rule matches the same text |
| BankDetector.StickyMissesRepeat | src/services/bank-transaction-detector.service.ts:25-31 | the same Pix notification processed twice in a row is detected the first time and missed the second time |
| BankPatterns.W | src/services/bank-transaction-detector.service.ts:25-31 | a pattern word has one position per character of its text, `.` standing for any character other than a line terminator |
| BankPatterns.Run | src/services/bank-transaction-detector.service.ts:26-31 | a greedy class run stops exactly at the first character outside the class or at the end of the text |
| BankPatterns.RunIs | src/services/bank-transaction-detector.service.ts:26-31 | a run is determined by where the class stops |
| BankPatterns.PhraseEnd | src/services/bank-transaction-detector.service.ts:26-31 | the words of a rule's head, separated by at least one white-space character, end inside the text |
| BankPatterns.MarkEnd | src/services/bank-transaction-detector.service.ts:26-31 | the tail `r\$\s*([\d.,]+)` matches only at an `r$` and ends after at least one amount character; at an `r$` followed by an amount character it does match |
| BankPatterns.GapFind | src/services/bank-transaction-detector.service.ts:26-31 | the lazy gap `.*?` succeeds exactly when some tail matches at or after its start with no line terminator in between |
| BankPatterns.GapStart | src/services/bank-transaction-detector.service.ts:26-31 | the gap ends where the tail that completes the match begins |
| BankPatterns.RuleSearchSpec | src/services/bank-transaction-detector.service.ts:239-240 | `test` from a `lastIndex` succeeds exactly when the rule matches at some start at or after it |
| BankPatterns.RuleAtDollar | src/services/bank-transaction-detector.service.ts:26-31 | a rule match passes an `r$` and ends beyond it |
| BankPatterns.RuleSearchDollar | src/services/bank-transaction-detector.service.ts:239-240 | a match found from a `lastIndex` ends beyond an `r$` lying at or after it |
| BankPatterns.RuleSearchNoDollar | src/services/bank-transaction-detector.service.ts:239-240 | a search from a `lastIndex` finds nothing when no `$` lies beyond it |
| BankPatterns.CaptureAt | src/services/bank-transaction-detector.service.ts:248-253 | a capture, when there is one, is non-empty |
| BankPatterns.AmountCapture | src/services/bank-transaction-detector.service.ts:248-253 | the capture of `r\$\s*(cls+ sep \d{2})` is non-empty |
| BankPatterns.NameCapture | src/services/bank-transaction-detector.service.ts:283-286 | the capture of `phrase\s+(name+)` or `phrase:\s*(name+)` is non-empty |
| BankPatterns.ExecAt | src/services/bank-transaction-detector.service.ts:256 | `exec` returns the capture of the leftmost match |
| BankPatterns.ExecFirstDollar | src/services/bank-transaction-detector.service.ts:248-256 | an amount pattern takes its capture at the first `r$` that has one, when no `r$` comes before it |
| BankPatterns.RemoveDots | src/services/bank-transaction-detector.service.ts:263 | removing the dots leaves no dot and never lengthens the text |
| BankPatterns.RemoveDotsDigits | src/services/bank-transaction-detector.service.ts:263 | digits and dots with the dots removed are digits only |
| BankPatterns.RemoveDotsNoDot | src/services/bank-transaction-detector.service.ts:263 | a text without dots is left as it is |
| BankPatterns.RemoveDotsAppend | src/services/bank-transaction-detector.service.ts:263 | removing dots works piece by piece |
| BankPatterns.ReplaceFirstComma | src/services/bank-transaction-detector.service.ts:263 | replacing the first comma keeps the length and leaves a text without commas unchanged |
| BankPatterns.ReplaceFirstCommaAppend | src/services/bank-transaction-detector.service.ts:263 | only the first comma is replaced |
| BankPatterns.Normalize | src/services/bank-transaction-detector.service.ts:262-264 | a capture without a comma is read as it is |
| BankPatterns.ParseDecimalShows | src/services/bank-transaction-detector.service.ts:266-268 | `parseFloat` of a capture is never negative, and is `NaN` exactly when no digit starts the text, not even after a leading dot |
| BankPatterns.DecimalSplit | src/services/bank-transaction-detector.service.ts:266 | the longest decimal prefix splits into whole and fractional digits, and exists under the same condition |
| BankPatterns.DecimalValue | src/services/bank-transaction-detector.service.ts:266 | the number written `whole.frac` is non-negative |
| BankPatterns.ParseDecimalOf | src/services/bank-transaction-detector.service.ts:266 | `parseFloat` reads `whole.frac` as the number it denotes |
| BankPatterns.TryAmounts | src/services/bank-transaction-detector.service.ts:255-275 | the sub-patterns tried in order yield only strictly positive amounts |
| BankPatterns.TryAmountsHit | src/services/bank-transaction-detector.service.ts:255-270 | the first sub-pattern whose capture reads as a positive number decides the amount |
| BankPatterns.TryAmountsSkip | src/services/bank-transaction-detector.service.ts:255-258 | a sub-pattern without a capture passes the text on to the next one |
| BankPatterns.TryAmountsNone | src/services/bank-transaction-detector.service.ts:255-275 | when no sub-pattern captures, no amount is found |
| BankPatterns.ExtractAmount | src/services/bank-transaction-detector.service.ts:246-276 | the amount is strictly positive or absent, never zero or negative |
| BankPatterns.ExtractName | src/services/bank-transaction-detector.service.ts:281-335 | a name extractor finds nothing exactly when none of its two patterns matches anywhere; otherwise the trimmed capture of the first pattern that matches |
| BankPatterns.NoDollarNoRule | src/services/bank-transaction-detector.service.ts:26-31 | without a `$` no rule matches |
| BankPatterns.NoDollarNoAmount | src/services/bank-transaction-detector.service.ts:248-253 | without a `$` no amount is extracted |
| BankPatterns.CommaNormalize | src/services/bank-transaction-detector.service.ts:262-264 | `1.234,56` normalises to `1234.56` |
| BankPatterns.CommaParse | src/services/bank-transaction-detector.service.ts:262-266 | a capture with dot thousands separators and a decimal comma reads as the number it denotes |
| BankPatterns.CommaAmountAt | src/services/bank-transaction-detector.service.ts:248-270 | a text whose first `r$` is followed by digits and dots, a comma and two digits yields that number |
| BankPatterns.AmountCommaRoundTrip | src/services/bank-transaction-detector.service.ts:248-270 | an amount written `R$ 1.234,56` anywhere after a text without `$` is read back as the number it denotes, whatever follows |
| BankPatterns.DotLayoutNoComma | src/services/bank-transaction-detector.service.ts:250 | for `R$ 123.45` the first sub-pattern finds nothing |
| BankPatterns.DotExecAt | src/services/bank-transaction-detector.service.ts:251 | for `R$ 123.45` the second sub-pattern captures the amount |
| BankPatterns.DotParse | src/services/bank-transaction-detector.service.ts:262-266 | `123.45` needs no normalisation and reads as the number it denotes |
| BankPatterns.AmountDotRoundTrip | src/services/bank-transaction-detector.service.ts:248-270 | an amount written `R$123.45` after a text without `$`, and not followed by a digit, dot or comma, is read back as the number it denotes |
| BankPatterns.AmountUsFormatMisread | src/services/bank-transaction-detector.service.ts:248-270 | `R$1,234.56` is caught by the first sub-pattern as `1,23` and read as 1.23, not as 1234.56 |
| Calendar.DaysInMonth | src/services/report.service.ts:50 | a month has 28 to 31 days, and 29 exactly in February of a leap year |
| Calendar.InstantOrder | src/services/transaction.service.ts:129-139 | the order key used for dates agrees with chronological order on valid dates, and two valid dates share it only when they are equal |
| Calendar.DayIndexOrder | src/app/pages/transactions/transactions.page.ts:209-213 | the day index of a date orders days chronologically |
| Calendar.MonthIndexOrder | src/app/pages/transactions/transactions.page.ts:260 | the month index orders (year, month) pairs chronologically, and equal indices mean the same month |
| Calendar.StartOfDay | src/services/transaction.service.ts:129 | the start of a day keeps the date and sets the time to midnight |
| Calendar.EndOfDay | src/services/transaction.service.ts:136 | the end of a day keeps the date and sets the time to its last millisecond |
| Calendar.WithinOwnDay | src/services/transaction.service.ts:129-139 | a valid date lies between the start and the end of its own day |
| Calendar.PreviousMonth | src/services/report.service.ts:88-94 | the month before January is December of the year before; otherwise the month before in the same year |
| Calendar.PreviousMonthIsOneEarlier | src/services/report.service.ts:88-94 | for a month in 1..12 the previous month is again in 1..12 and exactly one month earlier |
| Calendar.Pad2 | src/services/export.service.ts:159 | a two-digit zero-padded field is two digits |
| Calendar.Pad4 | src/services/export.service.ts:159 | a four-digit zero-padded year is four digits |
| Calendar.FormatDayMonthYear | src/services/export.service.ts:159 | `DD/MM/YYYY` is ten characters with slashes at positions 2 and 5, and holds neither `;` nor a newline |
| Calendar.FormatYearMonth | src/app/pages/transactions/transactions.page.ts:260 | `YYYY-MM` is seven characters with a dash at position 4 |
| Categories.CategoryById | src/services/category.service.ts:23-26 | the lookup finds the first category with the id, and nothing exactly when no category has it |
| Categories.CategoryService.constructor | src/services/category.service.ts:12-17 | the catalogue starts empty |
| Categories.CategoryService.GetCategoryById | src/services/category.service.ts:23-26 | the result is the first category of the catalogue with that id, and nothing exactly when none has it |
| Categories.CategoryService.AddCategory | src/services/category.service.ts:28-40 | exactly one category, the draft with the generated id, is appended and returned; the others are unchanged |
| Categories.CategoryService.UpdateCategory | src/services/category.service.ts:42-49 | length and order are kept; every entry with the id gets the patch merged in, the others are unchanged |
| Categories.CategoryService.DeleteCategory | src/services/category.service.ts:51-58 | exactly the entries with another id are kept, in order |
| Categories.MergeKeepsAbsentFields | src/services/category.service.ts:44 | a merge changes only the fields the patch carries; an empty patch changes nothing |
| Categories.DeleteRemovesExactlyId | src/services/category.service.ts:51-58 | after a delete no category has the id, and every category with another id is still there |
| Categories.AddedIsFound | src/services/category.service.ts:23-40 | a category added under a fresh id is what the lookup by that id finds |
| TransactionFilters.FilterChain | src/app/pages/transactions/transactions.page.ts:205-229 | the year, month, type and search filters applied one after another keep exactly the transactions that pass all four |
| TransactionFilters.ChainIsShown | src/app/pages/transactions/transactions.page.ts:205-229 | the four tests together are the one visibility test |
| TransactionFilters.FilteredViewShows | src/app/pages/transactions/transactions.page.ts:205-232 | the shown list holds exactly the transactions that pass the filters, each as often as it occurs, newest first |
| TransactionFilters.ShownTotal | src/app/pages/transactions/transactions.page.ts:243-253 | a total over the shown list equals the total over the filtered transactions of that release type: sorting changes no total |
| Text.ToLower | src/app/pages/transactions/transactions.page.ts:223-226 | lower-casing lowers the ASCII and Latin-1 capitals one character at a time and keeps the length (other scripts are left as they are: see Left out) |
| Text.Trim | src/services/bank-transaction-detector.service.ts:291 | the trimmed text is a slice of the input that starts and ends with no white space, after all the leading white space, and text without white space is left as it is |
| Text.CodeUnitsLength | src/app/pages/transactions/transactions.page.ts:443-448 | `length` counts each character once and each character outside the Basic Multilingual Plane twice |
| Text.IntToString | src/app/pages/fixed-expenses/fixed-expenses.page.ts:421 | the rendering of an integer is never empty and starts with a minus exactly for a negative number |
| Collections.GroupByKeys | src/app/pages/dashboard/dashboard.page.ts:173-188 | the groups a `forEach` into a `Map` builds have distinct keys, exactly the keys occurring in the input |
| Collections.GroupByPartition | src/app/pages/dashboard/dashboard.page.ts:173-191 | the group totals add up to the total of the input and the group counts to its length |
| Collections.SortDesc | src/app/pages/dashboard/dashboard.page.ts:209 | sorting by a key from the largest down gives a list in that order, of the same length |
| Collections.SortDescPermutes | src/app/pages/dashboard/dashboard.page.ts:209 | sorting only reorders: the sorted list is a permutation of the input |
| Collections.SortDescStable | src/app/pages/dashboard/dashboard.page.ts:209 | the sort is stable: for every key, the elements with that key come out in the order they went in |
| Ledger.StripAll | src/services/transaction.service.ts:187 | the persisted copy has one entry per transaction, each the transaction without its category |
| Ledger.StripAttach | src/services/transaction.service.ts:29-41 | stripping undoes attaching the categories: a load followed by a save writes back what was read |
| Ledger.StrippedKeepsIds | src/services/transaction.service.ts:187-198 | the persisted copy and the in-memory list have the same length, ids, amounts and order |
| Ledger.NewTransactionDefaults | src/services/transaction.service.ts:60-76 | a new transaction takes the generated id and the looked-up category, is dated now when no date is given, is not recurring and has no tags unless told otherwise, and is created and updated now |
| Ledger.MergeKeepsIdentity | src/services/transaction.service.ts:96-103 | an update keeps the id and the creation time and sets the update time |
| Ledger.FilterTransactions | src/services/transaction.service.ts:115-155 | the filtered list holds exactly the transactions that pass every given filter, each as often as it occurs, newest first |
| Ledger.MonthRangeIsMonth | src/services/transaction.service.ts:157-166 | a valid date lies in a month's range exactly when it has that year and month |
| Ledger.TransactionService.constructor | src/services/transaction.service.ts:22-41 | construction loads the persisted list and attaches to each transaction the category its id resolves to |
| Ledger.TransactionService.SaveTransactions | src/services/transaction.service.ts:183-199 | a successful save persists the stripped copy and publishes the list; a failed write publishes nothing |
| Ledger.TransactionService.GetTransactionById | src/services/transaction.service.ts:47-49 | the first transaction with the id, or nothing exactly when none has it |
| Ledger.TransactionService.AddTransaction | src/services/transaction.service.ts:51-85 | on success the list is the old one followed by exactly the new transaction, which is returned; on a failed write the list is unchanged |
| Ledger.TransactionService.UpdateTransaction | src/services/transaction.service.ts:87-108 | an unknown id changes and saves nothing; otherwise only the first entry with the id changes, its category looked up again only when the patch names one |
| Ledger.TransactionService.DeleteTransaction | src/services/transaction.service.ts:110-113 | exactly the transactions with another id are kept, in order |
| Ledger.TransactionService.GetFilteredTransactions | src/services/transaction.service.ts:115-155 | the result holds exactly the transactions passing every given filter, each as often as it occurs, newest first |
| Ledger.TransactionService.GetTransactionsByMonth | src/services/transaction.service.ts:157-166 | the result is the transactions dated in the month, and empty for a month outside 1..12 |
| Ledger.TransactionService.GetTotalByType | src/services/transaction.service.ts:168-181 | with a non-zero month outside 1..12 and a non-zero year the total is 0, since the month query finds nothing; the sums themselves are stated by `TotalByTypeIsSum` |
| Ledger.TransactionService.TotalByTypeIsSum | src/services/transaction.service.ts:168-181 | the total of a type is the sum of its amounts, over the month's transactions when month and year are both non-zero, and 0 for a non-zero month outside 1..12 |
| Ledger.MonthTotalIsSum | src/services/transaction.service.ts:168-181 | summing a type over the month's sorted transactions is summing it over those dated in the month |
| Ledger.MonthFilterIsRange | src/services/transaction.service.ts:157-166 | the month filter admits exactly the dates in the month's range |
| Ledger.DeleteRemovesExactlyId | src/services/transaction.service.ts:110-113 | after a delete no transaction has the id, every other one is kept, and the length drops by the number of entries with the id |
| Ledger.DeleteCount | src/services/transaction.service.ts:110-113 | the length drops by the number of entries with the id |
| FixedExpenses.NewExpenseDefaults | src/services/fixed-expense.service.ts:55-76 | a new expense is active, has no payments, notifies unless told otherwise and three days ahead unless told otherwise, and is created and updated now |
| FixedExpenses.ToggleTwice | src/services/fixed-expense.service.ts:109-114 | toggling flips only the active flag and the update time, and toggling twice restores the expense up to its update time |
| FixedExpenses.PaidAmount | src/services/fixed-expense.service.ts:141 | a given non-zero amount is recorded; a missing or zero amount falls back to the expense's |
| FixedExpenses.RecordPayment | src/services/fixed-expense.service.ts:129-150 | the history grows by at most one, keeps its length exactly when the month already had a payment, contains the new payment, and keeps every payment of other months in place |
| FixedExpenses.MarkTwiceOnePayment | src/services/fixed-expense.service.ts:129-150 | marking the same month twice leaves at most one more payment than before |
| FixedExpenses.OverflowingDueDayAppends | src/services/fixed-expense.service.ts:126-134 | with a due day the month does not have, the payment's date matches no month, so every mark of that month appends |
| FixedExpenses.FixedExpenseService.constructor | src/services/fixed-expense.service.ts:22-41 | construction loads the persisted list and attaches to each expense the category its id resolves to |
| FixedExpenses.FixedExpenseService.GetActiveExpenses | src/services/fixed-expense.service.ts:47-49 | the result holds exactly the active expenses |
| FixedExpenses.FixedExpenseService.GetExpenseById | src/services/fixed-expense.service.ts:51-53 | the first expense with the id, or nothing exactly when none has it |
| FixedExpenses.FixedExpenseService.GetMonthlyTotal | src/services/fixed-expense.service.ts:183-186 | the sum of the active expenses' amounts, ignoring the month and year it receives; `MonthlyTotalSplit` states its relation to the inactive and all expenses |
| FixedExpenses.FixedExpenseService.MonthlyTotalSplit | src/services/fixed-expense.service.ts:183-186 | the monthly total and the total of the inactive expenses add up to the total of all expenses, and the month and year passed in make no difference |
| FixedExpenses.FixedExpenseService.AddExpense | src/services/fixed-expense.service.ts:55-79 | exactly one new expense is appended and returned |
| FixedExpenses.FixedExpenseService.UpdateExpense | src/services/fixed-expense.service.ts:81-102 | an unknown id changes nothing; otherwise only the first expense with the id changes, its category looked up again only when the patch names one |
| FixedExpenses.FixedExpenseService.DeleteExpense | src/services/fixed-expense.service.ts:104-107 | exactly the expenses with another id are kept, in order |
| FixedExpenses.FixedExpenseService.ToggleActive | src/services/fixed-expense.service.ts:109-114 | only the first expense with the id has its active flag flipped; an unknown id changes nothing |
| FixedExpenses.FixedExpenseService.MarkAsPaid | src/services/fixed-expense.service.ts:116-157 | an unknown id changes nothing; otherwise only that expense changes, its history getting the new payment in place of the month's payment or appended |
| Reports.Shares | src/services/report.service.ts:186-206 | one share per group, in the groups' order, each built from its own group |
| Reports.GroupByCategoryShares | src/services/report.service.ts:182-199 | exactly one share per category id occurring among the items, no id twice, each holding the sum and the number of the items with that id |
| Reports.GroupByCategoryPartition | src/services/report.service.ts:182-197 | grouping loses nothing: the share totals add up to the items' total and the share counts to the number of items |
| Reports.GroupByCategoryPercentages | src/services/report.service.ts:183-196 | when the overall total is positive the percentages add up to 100; otherwise every percentage is 0 |
| Reports.ShareFields | src/services/report.service.ts:192-204 | an unknown category falls back to "Sem categoria", "#999999" and "help" with no budget; a budget is attached exactly for the expense type and a non-zero category budget, and budget = remaining + total |
| Reports.GroupByCategory | src/services/report.service.ts:177-206 | one share per category group of the items, over the items' total; its shares, partition and percentages are stated by `GroupByCategoryShares`, `GroupByCategoryPartition` and `GroupByCategoryPercentages` |
| Reports.MonthlyReport | src/services/report.service.ts:25-80 | the summary is for the requested month and year and counts every transaction of the month |
| Reports.MonthlyReportProjection | src/services/report.service.ts:42-78 | income and expense are the sums of the items of each type, the balance is their difference, the projected expense is the month's expense plus the fixed expenses and the projected balance the balance less the fixed expenses |
| Reports.MonthlyReportGroups | src/services/report.service.ts:39-70 | each grouping adds up to its type's total and the two groupings together hold no more items than the month has |
| Reports.UntypedItemsCountOnly | src/services/report.service.ts:39-70 | items of neither type are counted as transactions but fall in no total and no grouping; the projected balance is then minus the fixed expenses |
| Reports.LedgerMonthReadsAsEmpty | src/services/report.service.ts:39-40 | as written: ledger transactions carry no `release_type`, so any month of them reports zero income, zero expense and empty groupings |
| Reports.ItemsOfTotals | src/services/report.service.ts:39-43 | with the type carried over, a type's report total equals the ledger's sum of amounts of that type |
| Reports.PercentageChange | src/services/report.service.ts:210-213 | from zero: 100 exactly for a rise and 0 otherwise; from a non-zero value, applying the change as a percentage to the old value gives the new value |
| Reports.PercentageChangeSign | src/services/report.service.ts:210-213 | from a positive value the change is positive exactly when the value grew, zero exactly when it is unchanged, and never below -100 for a non-negative new value |
| Reports.TrendOf | src/services/report.service.ts:160-167 | the change of the second half over the first, in percent, against +10 and -10, with the division by a zero first half giving "up" for a rise, "down" for a fall and "stable" for no change; `TrendBands` states the bands |
| Reports.DailyAverage | src/services/report.service.ts:148-149 | `total / Math.max(days, 1)`: the average times the day count (at least one) gives back the total |
| Reports.TrendBands | src/services/report.service.ts:163-167 | for a positive first half the trend is "up" exactly when the second half exceeds it by more than 10%, "down" exactly when it falls short by more than 10%, otherwise "stable" |
| Reports.ReportService.constructor | src/services/report.service.ts:19-23 | the service keeps the three services it is given |
| Reports.ReportService.GetMonthlyReport | src/services/report.service.ts:25-37 | corrected (see ## Findings): the report of the ledger's month, for that month and year, built from the transactions with their `type` carried over (`ItemOf`); the program as written reads `release_type` and reports zero totals, which `Reports.LedgerMonthReadsAsEmpty` states |
| Reports.ReportService.MonthlyReportMatchesLedger | src/services/report.service.ts:31-78 | corrected: income and expense equal the ledger's own totals by type for the month, and the projected balance is the balance less the active fixed expenses |
| Reports.ReportService.GetMonthlyComparison | src/services/report.service.ts:82-118 | corrected (see ## Findings), as it is built from `GetMonthlyReport`: both reports are the monthly reports of their months, the previous one being one calendar month earlier (December of the year before for January), and each change is `calculatePercentageChange` from the previous month's income, expense and balance to the current month's; the as-written reports are those of `Reports.LedgerMonthReadsAsEmpty` |
| Reports.ReportService.ComparisonMatchesLedger | src/services/report.service.ts:82-117 | corrected (see ## Findings): for a month whose previous month has a non-zero year, the income and expense changes are `calculatePercentageChange` of the ledger's own totals by type for the previous and the current month |
| Reports.ReportService.GetYearlyReport | src/services/report.service.ts:120-129 | corrected (see ## Findings), as it is built from `GetMonthlyReport`: twelve reports, the i-th being the monthly report of month i+1 of the year; the as-written reports are those of `Reports.LedgerMonthReadsAsEmpty` |
| Reports.ReportService.GetCategoryReport | src/services/report.service.ts:131-174 | the transaction count is the number of the ledger's transactions of the category within the date range, the total is the sum of their amounts, and the average is `DailyAverage` of the total over the given day count |
| Reports.ReportService.CategoryReportHalves | src/services/report.service.ts:147-167 | the two halves split the category's transactions, so their totals add up to the report's total, and the trend compares exactly those two totals |
| Notifications.ToInt32 | src/services/notification.service.ts:141 | `hash & hash` yields a signed 32-bit integer |
| Notifications.ToInt32Offset | src/services/notification.service.ts:141 | the 32-bit conversion moves its argument by a whole number of 2^32 turns |
| Notifications.ToInt32Shift | src/services/notification.service.ts:141 | adding whole turns of 2^32 does not change the 32-bit conversion |
| Notifications.ToInt32OfInt32 | src/services/notification.service.ts:141 | a 32-bit value is its own 32-bit conversion |
| Text.CodeUnits | src/services/notification.service.ts:138-139 | `charCodeAt` walks UTF-16 code units, each below 2^16, at least one per character |
| Notifications.HashStepWraps | src/services/notification.service.ts:139-141 | each step is the 32-bit two's-complement wrap of 31·hash + code unit |
| Notifications.HashFold | src/services/notification.service.ts:137-142 | the hash after the loop is a signed 32-bit integer |
| Notifications.HashFoldIsWrappedPolynomial | src/services/notification.service.ts:137-142 | wrapping after every step gives what wrapping the exact polynomial once at the end gives |
| Notifications.NotificationHash | src/services/notification.service.ts:136-144 | the hash is always an integer in [0, 100000) |
| Notifications.SimpleHash | src/services/notification.service.ts:136-144 | the loop computes the hash value, in [0, 100000) |
| Notifications.NotificationIdsOfExpense | src/services/notification.service.ts:130-134 | the ids of offsets 0 and 1 differ by exactly 10000, lie in [0, 100000) and [10000, 110000), and depend on nothing but the hash of the expense id |
| Notifications.GenerateNotificationId | src/services/notification.service.ts:130-134 | the id is the hash plus 10000 times the month offset |
| Notifications.ScheduleTouchesOwnIds | src/services/notification.service.ts:44-92 | scheduling an expense changes only its own two ids, which then carry its id exactly when their date is still ahead; scheduling it twice is scheduling it once |
| Notifications.RescheduleOnlyEligible | src/services/notification.service.ts:117-127 | rescheduling changes an entry only with permission granted, and only for an id of an active expense with notifications on |
| Notifications.NotificationService.constructor | src/services/notification.service.ts:9-11 | no notification is pending at the start |
| Notifications.NotificationService.CancelExpenseNotifications | src/services/notification.service.ts:97-113 | exactly the ids of offsets 0 and 1 are cancelled |
| Notifications.NotificationService.ScheduleExpenseNotification | src/services/notification.service.ts:33-95 | nothing changes for an inactive expense, one with notifications off, or without permission; otherwise its old ids are cancelled and each offset whose date is still ahead is scheduled |
| Notifications.NotificationService.RescheduleAllExpenses | src/services/notification.service.ts:115-127 | each active expense with notifications on is scheduled in turn, and no other |
| Export.Cents | src/services/export.service.ts:163 | the cent count `toFixed(2)` picks is within half a cent of the amount, rounding a tie up |
| Export.ToFixed2 | src/services/export.service.ts:163 | the text of an amount is at least four characters and holds neither the CSV separator nor a newline |
| Export.ToFixed2ReadsBack | src/services/export.service.ts:163 | the text starts with a minus exactly for a negative amount; the digits before and after the point read back to a cent count within half a cent of the amount |
| Export.DateField | src/services/export.service.ts:159 | a formatted date never holds the separator or a newline |
| Export.TypeField | src/services/export.service.ts:162 | the type column never holds the separator or a newline |
| Export.CategoryField | src/services/export.service.ts:161 | a missing category gives the fallback and a named one its name |
| Export.CsvLines | src/services/export.service.ts:157-170 | the header line first, then exactly one line per transaction, in order |
| Export.HeaderFields | src/services/export.service.ts:157-168 | the header line splits back into the six column names and holds no newline |
| Export.CsvRowRoundTrip | src/services/export.service.ts:158-169 | a line splits back into its six fields exactly when no free-text field holds a `;`; otherwise it splits into more than six |
| Export.CsvLineNewlines | src/services/export.service.ts:158-169 | a line holds a newline exactly when one of its free-text fields does |
| Export.CsvContentLines | src/services/export.service.ts:156-170 | splitting the CSV text on newlines gives back the header and one line per transaction exactly when no free-text field holds a newline; otherwise it gives more lines |
| Export.PdfRows | src/services/export.service.ts:99-105 | the PDF table has the rows of the first twenty transactions, in order |
| Export.PdfRowsPrefix | src/services/export.service.ts:99 | the table shows every transaction only when there are at most twenty, and transactions after the twentieth never appear |
| Export.FooterNumbersPage | src/services/export.service.ts:126-129 | two pages of one document get the same footer only when they are the same page |
| Export.PdfDocument.constructor | src/services/export.service.ts:21 | a document holds the pages it is given |
| Export.PdfDocument.AddFooters | src/services/export.service.ts:116-131 | every page keeps what it had and gains the generation stamp and "Página i de N"; the page count is unchanged |
| MonthGroups.Tally | src/app/pages/transactions/transactions.page.ts:275-282 | a group tallied from its members holds them, under its month key, with the balance equal to income minus expense |
| MonthGroups.TallyCoversMembers | src/app/pages/transactions/transactions.page.ts:275-282 | the income and expense totals of a group together account for every member's value once: any type other than income counts as expense |
| MonthGroups.TallySnoc | src/app/pages/transactions/transactions.page.ts:272-282 | recording one more transaction into a group gives the tally of its members extended by it |
| MonthGroups.GroupOf | src/app/pages/transactions/transactions.page.ts:258-283 | the group the loop builds for a month carries that month and the balance income minus expense |
| MonthGroups.GroupOfIsTally | src/app/pages/transactions/transactions.page.ts:258-283 | the group of a month is the tally of exactly that month's transactions, in order |
| MonthGroups.GroupMembers | src/app/pages/transactions/transactions.page.ts:258-273 | a group holds exactly the transactions of its month |
| MonthGroups.GroupOfAbsent | src/app/pages/transactions/transactions.page.ts:263-270 | a month that does not occur has the empty group |
| MonthGroups.GroupOfSnoc | src/app/pages/transactions/transactions.page.ts:258-283 | one more transaction changes only the group of its own month |
| MonthGroups.GroupsInOrder | src/app/pages/transactions/transactions.page.ts:256-283 | the `Map`'s groups, in the order their months first appear, are the groups of those months |
| MonthGroups.IndexOfMonth | src/app/pages/transactions/transactions.page.ts:263 | the position found is that of the first group of the month, or past the end when there is none |
| MonthGroups.KeysInOrderSnoc | src/app/pages/transactions/transactions.page.ts:263-270 | a new month is added to the `Map`'s keys at the end, a known one leaves them unchanged |
| MonthGroups.SnocKeepsGroup | src/app/pages/transactions/transactions.page.ts:272-282 | an existing group is recorded into when it is the transaction's month and unchanged otherwise |
| MonthGroups.SnocIntoGroup | src/app/pages/transactions/transactions.page.ts:272-282 | the loop's step on a month that already has a group is the grouping of the longer prefix |
| MonthGroups.SnocNewGroup | src/app/pages/transactions/transactions.page.ts:263-282 | the loop's step on a month without a group is the grouping of the longer prefix |
| MonthGroups.OtherGroupsKept | src/app/pages/transactions/transactions.page.ts:263-270 | opening a new group leaves every existing group untouched |
| MonthGroups.NoGroupNoMonth | src/app/pages/transactions/transactions.page.ts:263 | a month without a group does not occur among the transactions |
| MonthGroups.NewGroupLast | src/app/pages/transactions/transactions.page.ts:263-270 | a transaction of a month not seen before opens one group, at the end, holding just it |
| MonthGroups.GroupsInOrderSnoc | src/app/pages/transactions/transactions.page.ts:258-283 | one step of the loop turns the groups of a prefix into the groups of the prefix extended by one transaction |
| MonthGroups.GroupedIsGroupsInOrder | src/app/pages/transactions/transactions.page.ts:258-283 | the loop builds, for each month in order of first appearance, the group of that month |
| MonthGroups.GroupsInOrderDistinct | src/app/pages/transactions/transactions.page.ts:256-270 | no two groups share a month |
| MonthGroups.MonthGroupsDescending | src/app/pages/transactions/transactions.page.ts:286-288 | the months strictly decrease along the grouped list |
| MonthGroups.MonthGroupsAreGroups | src/app/pages/transactions/transactions.page.ts:256-288 | each listed group is its month's group and holds at least one transaction |
| MonthGroups.MonthGroupsCover | src/app/pages/transactions/transactions.page.ts:256-288 | every transaction's month has a group in the list |
| MonthGroups.MonthGroupsPartition | src/app/pages/transactions/transactions.page.ts:255-289 | every transaction falls in exactly one group, the group of its month, whose totals are the tallies of its members, and the groups are sorted latest month first |
| TransactionsPage.SortedYears | src/app/pages/transactions/transactions.page.ts:201 | sorting the distinct years from the latest to the earliest leaves them strictly decreasing and keeps every one of them |
| TransactionsPage.MinOf | src/app/pages/transactions/transactions.page.ts:310-312 | `Math.min` of a non-empty list is one of its elements and no element is smaller |
| TransactionsPage.YearWindowInvariant | src/app/pages/transactions/transactions.page.ts:296-320 | the year navigation stays within five years before the earliest available year and the year after the current one: every allowed step keeps the selected year in that window, and a step beyond either edge is refused |
| TransactionsPage.ToggleMonth | src/app/pages/transactions/transactions.page.ts:323-326 | choosing a month selects it exactly when it was not the selected one, and otherwise clears the selection |
| TransactionsPage.ToggleMonthTwice | src/app/pages/transactions/transactions.page.ts:323-326 | choosing the same month twice returns to that month when it was selected, and to no selection otherwise |
| TransactionsPage.MonthFullName | src/app/pages/transactions/transactions.page.ts:344-350 | the name is non-empty exactly for months 1 to 12 |
| TransactionsPage.ChipsAbbreviateNames | src/app/pages/transactions/transactions.page.ts:125-138 | each month chip's label is the first three letters of that month's full name |
| TransactionsPage.FormValidity | src/app/pages/transactions/transactions.page.ts:437-450 | the form is valid exactly when the release type, category and payment status ids are set and non-zero, the description has at least 6 UTF-16 code units (what `length` counts), the value is positive, the date is non-empty and the payment method has at least 3 code units |
| TransactionsPage.EmptyFormInvalid | src/app/pages/transactions/transactions.page.ts:404-416 | a freshly opened form cannot be submitted |
| TransactionsPage.IsFormValid | src/app/pages/transactions/transactions.page.ts:437-450 | the chain of truthiness and length tests of `isFormValid`, lengths counted in UTF-16 code units; `FormValidity` states the simplified condition |
| TransactionsPage.AstralDescriptionLongEnough | src/app/pages/transactions/transactions.page.ts:443-448 | a five-character description holding a character outside the Basic Multilingual Plane ("Gás 🔥") passes the six-unit test, the other fields being valid |
| TransactionsPage.TransactionsPage.constructor | src/app/pages/transactions/transactions.page.ts:110-156 | the page starts with nothing loaded, all types, no search, the current year and no month selected |
| TransactionsPage.TransactionsPage.ExtractAvailableYears | src/app/pages/transactions/transactions.page.ts:191-202 | the available years are strictly decreasing and are exactly the current year and the years of the loaded transactions |
| TransactionsPage.TransactionsPage.CalculateTotals | src/app/pages/transactions/transactions.page.ts:243-253 | the totals are the sums of the shown income and expense transactions, and the balance is their difference |
| TransactionsPage.TransactionsPage.GroupByMonth | src/app/pages/transactions/transactions.page.ts:255-289 | the groups are the month grouping of what is shown, latest month first |
| TransactionsPage.TransactionsPage.FilterShown | src/app/pages/transactions/transactions.page.ts:205-232 | the shown list is the filtered view of all transactions, newest first |
| TransactionsPage.TransactionsPage.FilterSteps | src/app/pages/transactions/transactions.page.ts:205-229 | the successive filters, each applied only when its control is set, keep exactly what the combined test admits, in order |
| TransactionsPage.TransactionsPage.ApplyFilters | src/app/pages/transactions/transactions.page.ts:205-240 | after filtering, the shown list, the totals and the month groups are all recomputed from the current filters |
| TransactionsPage.TransactionsPage.SelectMonth | src/app/pages/transactions/transactions.page.ts:323-326 | the month choice is toggled and the view recomputed for it: the filtered list, its groups, the income and expense totals of the shown list and their difference |
| TransactionsPage.TransactionsPage.PreviousYear | src/app/pages/transactions/transactions.page.ts:297-300 | the selected year goes back by one and the view is recomputed for it: the filtered list, its groups, the income and expense totals of the shown list and their difference |
| TransactionsPage.TransactionsPage.NextYear | src/app/pages/transactions/transactions.page.ts:302-305 | the selected year goes forward by one and the view is recomputed for it: the filtered list, its groups, the income and expense totals of the shown list and their difference |
| TransactionsPage.TransactionsPage.CanGoToPreviousYear | src/app/pages/transactions/transactions.page.ts:308-314 | going back is allowed while the selected year is above five years before the earliest available year (the current year when none is known); `YearWindowInvariant` states the window it keeps |
| TransactionsPage.TransactionsPage.CanGoToNextYear | src/app/pages/transactions/transactions.page.ts:316-320 | going forward is allowed while the selected year is before the year after the current one |
| TransactionsPage.TransactionsPage.FormIsValid | src/app/pages/transactions/transactions.page.ts:437-450 | `isFormValid` applied to the page's form |
| FixedExpensesPage.LastEntry | src/app/pages/fixed-expenses/fixed-expenses.page.ts:164-170 | the position of the last status entry for a release, with no later entry for it, or -1 exactly when the list has none |
| FixedExpensesPage.StatusMapLast | src/app/pages/fixed-expenses/fixed-expenses.page.ts:163-170 | the status map holds exactly the releases the list names, each with the status of its last entry (a later `set` replaces an earlier one) |
| FixedExpensesPage.StatusOf | src/app/pages/fixed-expenses/fixed-expenses.page.ts:390-396 | a stored status is returned as stored; a release the map lacks reads as not paid, not overdue and due today |
| FixedExpensesPage.ReleaseTypeIdOf | src/app/pages/fixed-expenses/fixed-expenses.page.ts:217-220 | the income id exactly for the type `'entrada'`; every other type, and a missing or empty one, gives the expense id |
| FixedExpensesPage.HasMatchingTransaction | src/app/pages/fixed-expenses/fixed-expenses.page.ts:359-374 | a release already converted this month always matches; otherwise it matches exactly when some transaction of the month matches it |
| FixedExpensesPage.PaymentTransactionMatches | src/app/pages/fixed-expenses/fixed-expenses.page.ts:366-384 | a transaction with the release's description, up to letter case, and the same value makes the release count as paid |
| FixedExpensesPage.PaidNeedsSameDescription | src/app/pages/fixed-expenses/fixed-expenses.page.ts:366-384 | a release the API does not report as paid and that was not converted stays unpaid unless some transaction has its description up to letter case |
| FixedExpensesPage.DaysLabelStart | src/app/pages/fixed-expenses/fixed-expenses.page.ts:421 | a countdown label of a positive number of days starts with a digit |
| FixedExpensesPage.BadgeAgreesWithLabel | src/app/pages/fixed-expenses/fixed-expenses.page.ts:398-423 | the badge colour and the label agree: "success" exactly for "Pagamento concluído", "danger" exactly for the overdue label, "medium" exactly for a countdown of more than three days, "warning" exactly for due today, pending or a countdown of one to three days |
| FixedExpensesPage.CategoryIdAsWrittenIsEmpty | src/app/pages/fixed-expenses/fixed-expenses.page.ts:222-226 | as written: the lookup compares the name with a property categories do not have, so it returns the empty id for every name |
| FixedExpensesPage.CategoryIdByName | src/app/pages/fixed-expenses/fixed-expenses.page.ts:222-226 | corrected: the empty id for a missing or empty name or a name no category has; otherwise the id of the first category with that name |
| FixedExpensesPage.CategoryLookupExample | src/app/pages/fixed-expenses/fixed-expenses.page.ts:222-226 | a catalogue with one category "Moradia" shows the two lookups disagree |
| FixedExpensesPage.SaveRequestOf | src/app/pages/fixed-expenses/fixed-expenses.page.ts:258-295 | the required-fields warning exactly when the description or category id is empty or the value is not positive; the end-date warning exactly when those pass but an end date is wanted and missing; otherwise an update of the current release in edit mode, else an addition, sending the form with an empty start date as none and the end date only when one is wanted |
| FixedExpensesPage.AddFormRejected | src/app/pages/fixed-expenses/fixed-expenses.page.ts:258-267 | a form just opened for a new release cannot be saved as it stands |
| FixedExpensesPage.EditThenSave | src/app/pages/fixed-expenses/fixed-expenses.page.ts:194-295 | with the corrected lookup, a release with a description, a positive value and a known category, opened for editing and saved, is sent as the update of that release, with its end date when it has one |
| FixedExpensesPage.EditThenSaveAsWritten | src/app/pages/fixed-expenses/fixed-expenses.page.ts:206-267 | as written: saving a release opened for editing, without picking its category again, is always refused |
| FixedExpensesPage.SaveToast | src/app/pages/fixed-expenses/fixed-expenses.page.ts:259-315 | a refused form shows its warning; a failed service call "Erro ao salvar despesa"; a successful one "Despesa atualizada/adicionada com sucesso!" by the edit flag |
| FixedExpensesPage.FixedExpensesPage.constructor | src/app/pages/fixed-expenses/fixed-expenses.page.ts:84-118 | nothing loaded, the modal closed, no current release, no end date and the initial form |
| FixedExpensesPage.FixedExpensesPage.LoadCategories | src/app/pages/fixed-expenses/fixed-expenses.page.ts:143-145 | the page holds the given catalogue |
| FixedExpensesPage.FixedExpensesPage.LoadPaymentStatus | src/app/pages/fixed-expenses/fixed-expenses.page.ts:160-171 | the map is rebuilt from the status list alone: nothing from before survives |
| FixedExpensesPage.FixedExpensesPage.LoadData | src/app/pages/fixed-expenses/fixed-expenses.page.ts:147-158 | the page holds the month's transactions, the releases and the status map of the list |
| FixedExpensesPage.FixedExpensesPage.OpenAddModal | src/app/pages/fixed-expenses/fixed-expenses.page.ts:173-192 | add mode, no current release, no end date, the modal open and the empty form dated today |
| FixedExpensesPage.FixedExpensesPage.OpenEditModal | src/app/pages/fixed-expenses/fixed-expenses.page.ts:194-215 | corrected (see ## Findings): edit mode on the release, the modal open, an end date exactly when the release has one, and the form filled from the release, its category id found by `CategoryIdByName`; the program as written always fills `''`, which `FixedExpensesPage.CategoryIdAsWrittenIsEmpty` states |
| FixedExpensesPage.FixedExpensesPage.CloseModal | src/app/pages/fixed-expenses/fixed-expenses.page.ts:228-231 | the modal closed and the end date switched off |
| FixedExpensesPage.FixedExpensesPage.OnHasEndDateChange | src/app/pages/fixed-expenses/fixed-expenses.page.ts:233-238 | only `'yes'` turns the end date on; turning it off clears the form's end date and changes nothing else |
| FixedExpensesPage.FixedExpensesPage.OnStartDateChange | src/app/pages/fixed-expenses/fixed-expenses.page.ts:240-245 | a non-empty pick sets the form's start date and nothing else; an empty one leaves the form alone |
| FixedExpensesPage.FixedExpensesPage.OnEndDateChange | src/app/pages/fixed-expenses/fixed-expenses.page.ts:247-252 | a non-empty pick sets the form's end date and nothing else; an empty one leaves the form alone |
| FixedExpensesPage.FixedExpensesPage.GetMinEndDate | src/app/pages/fixed-expenses/fixed-expenses.page.ts:254-256 | the form's start date when it has one, today otherwise |
| FixedExpensesPage.FixedExpensesPage.SaveExpense | src/app/pages/fixed-expenses/fixed-expenses.page.ts:258-316 | the request and toast are those of the form, end-date choice and mode; the modal closes only after a request the service accepted |
| FixedExpensesPage.FixedExpensesPage.ShowExpenseOptions | src/app/pages/fixed-expenses/fixed-expenses.page.ts:479-538 | "Pagar" is offered, first, exactly for an active release not yet paid; then always edit, the recurrence toggle for the release's state, delete and cancel |
| FixedExpensesPage.FixedExpensesPage.IsCurrentMonthPaid | src/app/pages/fixed-expenses/fixed-expenses.page.ts:376-384 | paid when the API reports 'pago' or a matching transaction exists this month; `PaidNeedsSameDescription` states the converse |
| FixedExpensesPage.FixedExpensesPage.GetPaymentStatus | src/app/pages/fixed-expenses/fixed-expenses.page.ts:390-396 | the stored status of the release, or the default `StatusOf` states |
| FixedExpensesPage.FixedExpensesPage.GetStatusBadgeColor | src/app/pages/fixed-expenses/fixed-expenses.page.ts:398-409 | "success" when paid, else "danger" when overdue, else "warning" within three days, else "medium"; `BadgeAgreesWithLabel` states its agreement with the label |
| FixedExpensesPage.FixedExpensesPage.GetStatusLabel | src/app/pages/fixed-expenses/fixed-expenses.page.ts:411-423 | "Pagamento concluído" when paid, else the overdue label, "Vence hoje", the countdown or "Pendente"; `BadgeAgreesWithLabel` states its agreement with the colour |
| FixedExpensesPage.SalaryColor | src/app/pages/fixed-expenses/fixed-expenses.page.ts:425-427 | a colour exactly for the "Salário" category, and then the salary green |
| DashboardPage.SummariesNames | src/app/pages/dashboard/dashboard.page.ts:170-206 | before sorting there is an entry for every category name occurring among the expenses and for no other |
| DashboardPage.SummariesDistinct | src/app/pages/dashboard/dashboard.page.ts:173-188 | before sorting no two entries share a category name |
| DashboardPage.SummariesTotalsAndColors | src/app/pages/dashboard/dashboard.page.ts:175-206 | before sorting each entry holds its category's total and the colour its group's position picks |
| DashboardPage.ExpensesByCategoryShows | src/app/pages/dashboard/dashboard.page.ts:168-210 | the entries are sorted by total, largest first, one per category name of the expenses and no other, each with its category's total and its group's colour |
| DashboardPage.ExpensesByCategoryTotal | src/app/pages/dashboard/dashboard.page.ts:170-191 | the entry totals add up to the total of the expenses |
| DashboardPage.ExpensesByCategoryPercentages | src/app/pages/dashboard/dashboard.page.ts:191-202 | when the expenses add up to a positive amount the percentages add up to 100 |
| DashboardPage.ExpensesByCategoryNoPercentages | src/app/pages/dashboard/dashboard.page.ts:202 | otherwise every percentage is 0 |
| DashboardPage.ColorsDistinctUpToSixteen | src/app/pages/dashboard/dashboard.page.ts:99-104 | the first sixteen categories get sixteen different colours |
| DashboardPage.UpcomingShows | src/app/pages/dashboard/dashboard.page.ts:143-156 | the upcoming list holds exactly the status entries not yet turned into a transaction, not marked paid and due within seven days, each as often as the status list holds it, soonest due first |
| DashboardPage.ExpenseColorBands | src/app/pages/dashboard/dashboard.page.ts:414-422 | "danger" exactly for an overdue entry whose status is `null`; "warning" exactly for a `null`-status entry not overdue and due within three days; "success" exactly for a paid one; an absent status is always grey |
| DashboardPage.UpcomingItemNotPaid | src/app/pages/dashboard/dashboard.page.ts:400-422 | an entry that passes the upcoming filter is never shown as paid, and a day count it shows is at most seven |
| DashboardPage.UpcomingNeverPaid | src/app/pages/dashboard/dashboard.page.ts:143-156 | nothing on the upcoming list is shown as paid |
| DashboardPage.Recent | src/app/pages/dashboard/dashboard.page.ts:135 | the first five transactions, or all of them when there are fewer |
| DashboardPage.TransactionStyleAgrees | src/app/pages/dashboard/dashboard.page.ts:378-388 | the up arrow, the green colour and the income class go together, exactly for the income type |
| DashboardPage.DashboardPage.constructor | src/app/pages/dashboard/dashboard.page.ts:84-92 | the page starts with nothing loaded |
| DashboardPage.DashboardPage.CalculateExpensesByCategory | src/app/pages/dashboard/dashboard.page.ts:168-210 | the grouping loop and the colour loop produce exactly `ExpensesByCategory`, whose properties the lemmas above state |
| DashboardPage.DashboardPage.GroupExpenses | src/app/pages/dashboard/dashboard.page.ts:173-188 | the map filled by the `forEach` holds the grouping of the expenses by category name, in order of first occurrence |
| DashboardPage.DashboardPage.AddToGroup | src/app/pages/dashboard/dashboard.page.ts:179-187 | one turn adds the value to the transaction's group or opens a new group at the end |
| DashboardPage.DashboardPage.TotalOfGroups | src/app/pages/dashboard/dashboard.page.ts:191 | the sum of the group totals |
| DashboardPage.DashboardPage.SummariesOf | src/app/pages/dashboard/dashboard.page.ts:194-206 | one entry per group, in group order, with colours handed out in turn |
| DashboardPage.DashboardPage.LoadData | src/app/pages/dashboard/dashboard.page.ts:131-166 | a failed load of the data changes nothing; otherwise the data, the five recent transactions and the category summary are those of the data, and the upcoming list is replaced only when the status list also loads |
| DashboardPage.DashboardPage.GetBalanceColor | src/app/pages/dashboard/dashboard.page.ts:365-368 | grey before anything is loaded, then "success" exactly for a balance of zero or more and "danger" exactly below zero |
| DashboardPage.TransactionIcon | src/app/pages/dashboard/dashboard.page.ts:378-380 | "arrow-up" for the income type, otherwise "arrow-down"; `TransactionStyleAgrees` relates it to the colour and class |
| DashboardPage.TransactionColor | src/app/pages/dashboard/dashboard.page.ts:382-384 | "success" for the income type, otherwise "danger" |
| DashboardPage.TransactionClass | src/app/pages/dashboard/dashboard.page.ts:386-388 | "income" for the income type, otherwise "expense" |
| DashboardPage.DaysLabel | src/app/pages/dashboard/dashboard.page.ts:400-412 | "Pagamento realizado" for a paid entry, else the overdue days, "Vence hoje", "Vence amanhã" or the countdown; `UpcomingItemNotPaid` states that no upcoming entry reads as paid |
| DashboardPage.ExpenseColor | src/app/pages/dashboard/dashboard.page.ts:414-422 | the urgency colours for a `null` status, green for 'pago', grey otherwise; `ExpenseColorBands` states the bands |
| ReportsPage.EntriesOfGroups | src/app/pages/reports/reports.page.ts:181-200 | before sorting there is one entry per category name of the expenses and no other, no name twice, each with its category's total |
| ReportsPage.CategoryTotalsShows | src/app/pages/reports/reports.page.ts:180-201 | the stored entries are sorted by total, largest first, one per category name of the expenses and no other, no name twice, each holding the sum of its category's expenses |
| ReportsPage.CategoryTotalsSums | src/app/pages/reports/reports.page.ts:192-199 | the entries add up to the month's expenses, and their percentages to 100 when those are positive |
| ReportsPage.CategoryTotalsNoPercentages | src/app/pages/reports/reports.page.ts:199 | when the expenses do not add up to a positive amount every percentage is 0 |
| ReportsPage.TopIsLargest | src/app/pages/reports/reports.page.ts:203 | there is a top category exactly when the month has expenses, and it is an entry with no entry above it |
| ReportsPage.NextSavingsRate | src/app/pages/reports/reports.page.ts:168-170 | for a month with incomes the rate is the share of the incomes left after the expenses, in percent; otherwise the previous rate is kept |
| ReportsPage.RateClassAgreesWithLabel | src/app/pages/reports/reports.page.ts:356-368 | the class and the label always name the same band |
| ReportsPage.RateBandsOfMonth | src/app/pages/reports/reports.page.ts:352-361 | for a month with incomes the band is "excellent" exactly when expenses take at most 80% of the incomes, "good" exactly above 80% up to 90%, "warning" exactly above 90% up to 100%, and "danger" exactly when the balance is negative |
| ReportsPage.RateAtLeast | src/app/pages/reports/reports.page.ts:356-361 | a rate of at least c percent leaves at most 100 - c percent of the incomes to the expenses, and conversely |
| ReportsPage.ReportsPage.constructor | src/app/pages/reports/reports.page.ts:84-98 | the page starts loading, with no data, zero rate and differences, no categories and not exporting |
| ReportsPage.ReportsPage.CalculateExpensesByCategory | src/app/pages/reports/reports.page.ts:180-204 | the grouping and summing loops store exactly `CategoryTotals`, whose properties the lemmas above state, and its first entry as the top category |
| ReportsPage.ReportsPage.GroupByName | src/app/pages/reports/reports.page.ts:181-190 | the map filled by the `forEach` holds the expenses grouped by category name, in order of first occurrence |
| ReportsPage.ReportsPage.AddToGroup | src/app/pages/reports/reports.page.ts:184-189 | one turn adds the value to the name's entry or opens a new one with the expense's icon |
| ReportsPage.ReportsPage.TotalOf | src/app/pages/reports/reports.page.ts:192 | the sum of the expense values |
| ReportsPage.ReportsPage.CalculateMetrics | src/app/pages/reports/reports.page.ts:161-178 | nothing changes without the comparative; otherwise the savings rate is updated as above, the differences are this month's less the previous month's, and the categories are those of this month's expenses |
| ReportsPage.ReportsPage.GetSavingsRateClass | src/app/pages/reports/reports.page.ts:356-361 | "excellent" from 20, "good" from 10, "warning" from 0, otherwise "danger"; `RateClassAgreesWithLabel` relates it to the label |
| ReportsPage.ReportsPage.GetSavingsRateLabel | src/app/pages/reports/reports.page.ts:363-368 | "Excelente!" from 20, "Bom" from 10, "Atenção" from 0, otherwise "Negativo" |
| ReportsPage.ReportsPage.LoadData | src/app/pages/reports/reports.page.ts:135-159 | loading ends either way; a failed request changes none of the data or metrics; otherwise the evolution and comparative are stored and the metrics recomputed from them: the savings rate, the expense and income differences (current minus previous month) and the category totals |
| ReportsPage.ReportsPage.ExportPDF | src/app/pages/reports/reports.page.ts:370-426 | without the comparative and the evolution only "Aguarde o carregamento dos dados" is shown; otherwise "Gerando relatório PDF..." and then the success or error toast, and the page is no longer exporting |
| ReportsPage.GroupStep | src/app/pages/reports/reports.page.ts:183-190 | one more expense of the `forEach` is one more grouping step |

## Left out

- Android notification listener, Capacitor plugins, the storage backend, the lazy injector lookup of the notification service, `console` logging, toasts' durations and colours and the chart rendering: platform I/O, not modelled. Only the ledger (`Ledger.TransactionService`) takes the storage write's outcome as a parameter; the other stores' writes are taken to succeed (next line).
- `FixedExpenses.FixedExpenseService.MarkAsPaid`, and every write of `FixedExpenses.FixedExpenseService` and `Categories.CategoryService`: the storage write is taken to succeed. The program also writes the payment into the shared `expense.paymentHistory` array in place, before `storage.set`, so after a failed write the list already published holds the payment; the model replaces the history with a new value and does not capture that aliasing.
- `BankDetector.BankTransactionDetector.ProcessNotification`: records the confirmation the detector asks for after a successful write, which is the intended behaviour. `src/services/notification.service.ts` declares no `notifyTransactionDetected`, so the program's call at `src/services/bank-transaction-detector.service.ts:367` fails at run time, the `catch` at line 373 swallows the error, and no confirmation is ever shown. The model does not capture that failure.
- `BankDetector.StickyTest`: the stored `lastIndex` counts characters, while JavaScript counts UTF-16 code units. When a character outside the Basic Multilingual Plane (an emoji) precedes the match, the stored number differs from the program's; where the next search starts in the text is the same.
- `Text.ToLower`: lowers only the ASCII capitals and the Latin-1 capitals U+00C0 to U+00DE (without ×), one character for one. `toLowerCase` lowers capitals of every script and can lengthen a string ('İ' becomes two characters); other characters are left as they are. This affects the search filter, `isBankApp`, the detector's text, the category heuristics and `PaymentTransactionMatches`.
- `getAllTransactions`, `getAllExpenses`, `getAllCategories`: each returns the class field as it stands, which the model exposes directly.
- `getUpcomingExpenses` of the fixed-expense service, `checkPermissions`, `initializeNotifications`, `getPendingNotifications` and `formatCurrency` of the notification service: not among the operations modelled; the plugin's failures are not modelled (a pending list stands for the plugin).
- The generated ids (`Date.now()` plus `Math.random()`) are parameters; their uniqueness is a precondition where a lemma needs it, not a property of the model.
- JavaScript numbers are exact decimals here: rounding of binary doubles, `NaN` and the infinities are not modelled, except where the code divides by zero on purpose (the category trend), which is written out case by case.
- `Export.ToFixed2`: amounts of 1e21 and more, which `toFixed` renders in exponent notation, are rendered like any other amount.
- `Export.DateField`: years outside 0..9999 are rendered as the sign and digits of the year, not with `moment`'s six-digit extended form.
- The PDF layout of `exportToPDF` (the summary table, fonts, positions, the automatic page breaks of the table) and `exportChartToImage`, `savePDF` and the file sharing: jsPDF and file-system work; only the table rows and the footer loop are modelled.
- `Reports.ReportService.GetMonthlyReport`: requires a month in 1..12, because for other months `moment` builds an invalid date and the report is made of `NaN` values the model does not represent. It also computes the corrected report of the second ## Findings row (the `type` carried over), not the zero totals of the program as written; `Reports.LedgerMonthReadsAsEmpty` states those.
- `Reports.ReportService.GetMonthlyComparison`: built from `GetMonthlyReport`, so both reports and the three changes are those of the corrected report, not the zero totals of the program as written.
- `Reports.ReportService.GetYearlyReport`: built from `GetMonthlyReport`, so the twelve reports are the corrected ones, not the zero totals of the program as written.
- `Reports.ReportService.GetCategoryReport`: `days` (`moment`'s whole-day difference of the end and start dates, plus one) and `midPoint` (the start date moved by `days / 2` days, rounded as `moment` rounds) are parameters; their computation from `startDate` and `endDate` is not modelled, because `Calendar`'s instant key is an order key, not an epoch count.
- `Reports.GroupByCategory`: lists categories in order of first occurrence; `Object.keys` would list integer-like ids first in numeric order, which the generated `cat_…`-style and API ids never are.
- Transactions page: the `YYYY-MM` keys of `groupByMonth` are compared by month index, which orders them as `localeCompare` does for four-digit years; `monthLabel` and the locale month names of `moment` are not modelled.
- Fixed-expenses page: `deleteExpense`, `toggleActive` and `markAsPaid` only call the service, show a toast and reload; the reload and the confirm dialogs are not modelled. `getDayOfMonthLabel`, the action sheet's sub-header text and `formatCurrency` are formatting only.
- `FixedExpensesPage.SaveRequestOf`: the `Number(...)` conversions of the ids and the value are not modelled; ids stay strings. `ReleaseTypesId` is imported from `src/models/fixed-expense.model.ts` but not declared there, so its values are taken to be those of `ReleaseTypes`: `'1'` for income and `'2'` for expense.
- `FixedExpensesPage.FixedExpensesPage.OpenEditModal`: fills the form's category id with the corrected lookup `CategoryIdByName` of the third ## Findings row; the program as written always fills `''` (`FixedExpensesPage.CategoryIdAsWrittenIsEmpty`).
- `FixedExpensesPage.FixedExpensesPage.SaveExpense`: the service call's outcome is a parameter, and the refresh and `loadData` that follow a successful save are not modelled.
- Dashboard page: `renderBarChart`, `renderPieChart`, `formatCurrency`, `formatDate`, `formatTransactionValue`, the navigation helpers and `handleRefresh` are presentation or navigation only.
- Reports page: the `formatCurrency`, `formatDifference` and `formatPercentage` helpers, the month names, `renderEvolutionChart` and `handleRefresh` are presentation only.
- `ReportsPage.ReportsPage.LoadData`: the `monthlyComparison` response is received but not stored, because no computation of the page reads it.
- `ReportsPage.ReportsPage.ExportPDF`: whether the export service succeeds is a parameter; what the page hands to it is not modelled.

## Findings

| source | as written | input that shows it | evidently intended | confidence | as-written member | corrected member |
|---|---|---|---|---|---|---|
| src/services/bank-transaction-detector.service.ts:25-31 | the rule patterns carry the `/g` flag, so `test` starts at and updates the pattern's `lastIndex`, and a pattern that matched keeps its position for the next notification | the same "Pix recebido R$ 10,00" notification processed twice by one detector: the first is detected, the second finds no rule from the stored position and is dropped (its `lastIndex` is reset only after that failure) | each notification is matched from its start, independent of earlier ones | not executed | BankDetector.StickyMissesRepeat | BankDetector.Detect |
| src/services/report.service.ts:39-40 | the monthly report splits the month's ledger transactions on `t.release_type`, a field ledger transactions (`type`/`amount`) do not have | any month with income and expense transactions: both totals are 0 and both groupings empty, while the transaction count is the month's | split on the transaction's `type`, so the totals agree with `getTotalByType` | not executed | Reports.LedgerMonthReadsAsEmpty | Reports.ReportService.MonthlyReportMatchesLedger |
| src/app/pages/fixed-expenses/fixed-expenses.page.ts:222-226 | `getCategoryIdByName` compares the name with `cat.category`, a property `Category` does not have, so it never finds a category | a catalogue with the category "Moradia" (id "home") and a release of category "Moradia" opened for editing: the form gets category id `''`, and saving it unchanged is refused with "Preencha todos os campos obrigatórios" | compare with `cat.name` and return the first match's id | not executed | FixedExpensesPage.EditThenSaveAsWritten | FixedExpensesPage.CategoryIdByName |
