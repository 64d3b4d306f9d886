/** The fixed-expenses page (`FixedExpensesPage`): the recurring releases
    with their payment status in the current month, the form that adds or
    edits one, and the action sheet offered for a release. What the HTTP
    API returns (releases, the month's transactions, the status list) is
    passed in; the service calls themselves are not modelled. */
module FixedExpensesPage {

  import opened Wrappers
  import opened Text
  import opened Collections
  import opened Models

  // ---------------------------------------------------------------------
  // Payment status of the month

  /** One entry of the monthly payment status: the release it is about and
      its status. */
  datatype StatusItem = StatusItem(expenseId: string, status: PaymentStatus)

  /** What `getPaymentStatus` answers for a release the map does not hold. */
  const NoStatus: PaymentStatus := PaymentStatus(false, 0, false)

  /** The map `loadPaymentStatus` builds: one `Map.set` per entry, in order,
      so a later entry for a release replaces an earlier one. */
  function StatusMap(items: seq<StatusItem>): map<string, PaymentStatus> {
    if items == [] then map[]
    else StatusMap(items[..|items| - 1])[items[|items| - 1].expenseId := items[|items| - 1].status]
  }

  /** The position of the last entry for `id`, or -1 when there is none. */
  function LastEntry(items: seq<StatusItem>, id: string): (k: int)
    ensures -1 <= k < |items|
    ensures k >= 0 ==> items[k].expenseId == id && forall j :: k < j < |items| ==> items[j].expenseId != id
    ensures k == -1 <==> forall j :: 0 <= j < |items| ==> items[j].expenseId != id
  {
    if items == [] then -1
    else if items[|items| - 1].expenseId == id then |items| - 1
    else LastEntry(items[..|items| - 1], id)
  }

  /** The map holds exactly the releases the list names, and for each the
      status of its last entry. */
  lemma {:induction false} StatusMapLast(items: seq<StatusItem>, id: string)
    ensures id in StatusMap(items) <==> LastEntry(items, id) >= 0
    ensures id in StatusMap(items) ==> StatusMap(items)[id] == items[LastEntry(items, id)].status
  {
    if items != [] {
      var init := items[..|items| - 1];
      StatusMapLast(init, id);
      if items[|items| - 1].expenseId != id {
        var k := LastEntry(init, id);
        assert LastEntry(items, id) == k;
        if k >= 0 {
          assert items[k] == init[k];
        }
      }
    }
  }

  /** `getPaymentStatus` on a map: the stored status, or the not-paid,
      not-overdue, due-today default. */
  function StatusOf(m: map<string, PaymentStatus>, id: string): (s: PaymentStatus)
    ensures id in m ==> s == m[id]
    ensures id !in m ==> !s.isPaid && !s.isOverdue && s.daysUntilDue == 0
  {
    if id in m then m[id] else NoStatus
  }

  // ---------------------------------------------------------------------
  // Has the release been paid this month?

  /** `getReleaseTypeIdByType`: a missing or empty type counts as an
      expense, and only `'entrada'` is income. */
  function ReleaseTypeIdOf(releaseType: Option<string>): (r: string)
    ensures r == IncomeCode <==> releaseType == Some("entrada")
    ensures r == IncomeCode || r == ExpenseCode
  {
    if !Truthy(releaseType) then ExpenseCode
    else if releaseType.value == "entrada" then IncomeCode
    else ExpenseCode
  }

  /** `isExpenseActive`. */
  predicate IsExpenseActive(e: Release) {
    e.isActive == ActiveCode
  }

  /** `s?.toLowerCase()`: an absent string stays absent. */
  function LowerOpt(s: Option<string>): Option<string> {
    if s.Some? then Some(ToLower(s.value)) else None
  }

  function Abs(x: real): real {
    if x < 0.0 then -x else x
  }

  /** The test `hasMatchingTransaction` applies to a transaction of the
      month: the same description ignoring case, and either the same
      category ignoring case (two missing categories count as the same) or
      a value less than one cent away. */
  predicate MatchesRelease(t: ApiTransaction, e: Release) {
    && ToLower(t.description) == ToLower(e.description)
    && (LowerOpt(t.categoryName) == LowerOpt(e.categoryName) || Abs(t.value - e.value) < 0.01)
  }

  function MatchesOf(e: Release): ApiTransaction -> bool {
    (t: ApiTransaction) => MatchesRelease(t, e)
  }

  /** `hasMatchingTransaction`: the release was already turned into a
      transaction this month (it carries that transaction's id), or some
      transaction of the month matches it. */
  function HasMatchingTransaction(e: Release, txs: seq<ApiTransaction>): (r: bool)
    ensures Truthy(e.currentMonthReleaseId) ==> r
    ensures !Truthy(e.currentMonthReleaseId) ==> (r <==> exists i :: 0 <= i < |txs| && MatchesRelease(txs[i], e))
  {
    Truthy(e.currentMonthReleaseId) || Find(txs, MatchesOf(e)).Some?
  }

  /** `isCurrentMonthPaid`: the API says `'pago'`, or a matching transaction
      exists. */
  predicate IsPaid(e: Release, txs: seq<ApiTransaction>) {
    e.currentMonthPaymentStatus == Text("pago") || HasMatchingTransaction(e, txs)
  }

  /** A transaction with the release's own description and value, as paying
      the release records it, counts as its payment, whatever its category
      and however the description is capitalised. */
  lemma PaymentTransactionMatches(e: Release, txs: seq<ApiTransaction>, k: nat)
    requires k < |txs| && ToLower(txs[k].description) == ToLower(e.description) && txs[k].value == e.value
    ensures IsPaid(e, txs)
  {
    assert MatchesRelease(txs[k], e);
  }

  /** Without the API's `'pago'` and without a transaction id, a release is
      paid only through a transaction whose description differs from its
      own at most in letter case. */
  lemma PaidNeedsSameDescription(e: Release, txs: seq<ApiTransaction>)
    requires e.currentMonthPaymentStatus != Text("pago") && !Truthy(e.currentMonthReleaseId)
    requires forall i :: 0 <= i < |txs| ==> ToLower(txs[i].description) != ToLower(e.description)
    ensures !IsPaid(e, txs)
  {
  }

  // ---------------------------------------------------------------------
  // Badge and label

  const PaidLabel: string := "Pagamento concluído"
  const DueTodayLabel: string := "Vence hoje"
  const PendingLabel: string := "Pendente"

  /** `Atrasada (Nd)` with the absolute number of days. */
  function OverdueLabel(d: int): string {
    "Atrasada (" + IntToString(if d < 0 then -d else d) + "d)"
  }

  /** `Nd`. */
  function DaysLabel(d: int): string {
    IntToString(d) + "d"
  }

  /** `getStatusBadgeColor` once paid and status are known. */
  function BadgeColor(paid: bool, s: PaymentStatus): string {
    if paid then "success"
    else if s.isOverdue then "danger"
    else if s.daysUntilDue <= 3 then "warning"
    else "medium"
  }

  /** `getStatusLabel` once paid and status are known. */
  function StatusLabel(paid: bool, s: PaymentStatus): string {
    if paid then PaidLabel
    else if s.isOverdue then OverdueLabel(s.daysUntilDue)
    else if s.daysUntilDue == 0 then DueTodayLabel
    else if s.daysUntilDue > 0 then DaysLabel(s.daysUntilDue)
    else PendingLabel
  }

  /** A label that starts with a digit is a countdown `Nd`. */
  lemma DaysLabelStart(d: int)
    requires d > 0
    ensures |DaysLabel(d)| >= 2 && IsDigit(DaysLabel(d)[0])
  {
    assert DaysLabel(d)[0] == IntToString(d)[0] == NatToString(d)[0];
  }

  /** The badge and the label always tell the same story: green exactly
      for "paid", red exactly for "late by N days", grey exactly for a
      countdown of more than three days, and amber for due today, a
      countdown of one to three days or a release neither late nor due. */
  lemma BadgeAgreesWithLabel(paid: bool, s: PaymentStatus)
    ensures BadgeColor(paid, s) == "success" <==> StatusLabel(paid, s) == PaidLabel
    ensures BadgeColor(paid, s) == "danger" <==> StatusLabel(paid, s) == OverdueLabel(s.daysUntilDue)
    ensures BadgeColor(paid, s) == "medium" <==> StatusLabel(paid, s) == DaysLabel(s.daysUntilDue) && s.daysUntilDue > 3
    ensures BadgeColor(paid, s) == "warning" <==>
              StatusLabel(paid, s) == DueTodayLabel || StatusLabel(paid, s) == PendingLabel
              || (StatusLabel(paid, s) == DaysLabel(s.daysUntilDue) && 0 < s.daysUntilDue <= 3)
  {
    var d := s.daysUntilDue;
    var l := StatusLabel(paid, s);
    assert OverdueLabel(d)[0] == 'A';
    if d > 0 {
      DaysLabelStart(d);
    } else {
      assert DaysLabel(d)[0] == IntToString(d)[0];
      if d == 0 {
        assert IntToString(d) == "0";
      }
    }
  }

  // ---------------------------------------------------------------------
  // Category of a release

  /** The `category` property `getCategoryIdByName` compares: `Category`
      has no such field, so it is always `undefined`. */
  function CategoryProperty(c: Category): Option<string> {
    None
  }

  /** `getCategoryIdByName` as written: it compares the name with the
      missing `category` property. */
  function CategoryIdByNameAsWritten(categories: seq<Category>, categoryName: Option<string>): string {
    if !Truthy(categoryName) then ""
    else
      match Find(categories, (c: Category) => CategoryProperty(c) == Some(categoryName.value))
      case Some(c) => c.id
      case None => ""
  }

  /** As written, the lookup never finds a category. */
  lemma CategoryIdAsWrittenIsEmpty(categories: seq<Category>, categoryName: Option<string>)
    ensures CategoryIdByNameAsWritten(categories, categoryName) == ""
  {
  }

  /** `getCategoryIdByName` as intended: the id of the first category of
      the catalogue with that name; empty for a missing or empty name or a
      name no category has. */
  function CategoryIdByName(categories: seq<Category>, categoryName: Option<string>): (r: string)
    ensures !Truthy(categoryName) ==> r == ""
    ensures Truthy(categoryName) && (forall i :: 0 <= i < |categories| ==> categories[i].name != categoryName.value) ==> r == ""
    ensures Truthy(categoryName) && (exists i :: 0 <= i < |categories| && categories[i].name == categoryName.value) ==>
              exists i :: 0 <= i < |categories| && categories[i].name == categoryName.value && r == categories[i].id
                          && forall j :: 0 <= j < i ==> categories[j].name != categoryName.value
  {
    if !Truthy(categoryName) then ""
    else
      var i := FindIndex(categories, (c: Category) => c.name == categoryName.value);
      if i < 0 then "" else categories[i].id
  }

  /** A catalogue with one category shows the difference. */
  lemma CategoryLookupExample()
    ensures var cats := [Category("home", "Moradia", "home", "#45B7D1", Expense, None, None)];
            CategoryIdByNameAsWritten(cats, Some("Moradia")) == "" && CategoryIdByName(cats, Some("Moradia")) == "home"
  {
    var cats := [Category("home", "Moradia", "home", "#45B7D1", Expense, None, None)];
    assert cats[0].name == "Moradia";
  }

  // ---------------------------------------------------------------------
  // The form and saving it

  /** The page's `formData`. */
  datatype ExpenseForm = ExpenseForm(
    description: string,
    notes: Option<string>,
    isActive: bool,
    paymentMethod: Option<string>,
    value: real,
    paymentDay: int,
    categoryName: Option<string>,
    categoryId: string,
    releaseTypeId: string,
    releaseType: Option<string>,
    notifications: bool,
    notifyDaysBefore: int,
    startDate: Option<string>,
    endDate: Option<string>)

  /** The form the page is constructed with. */
  const InitialForm: ExpenseForm :=
    ExpenseForm("", Some(""), true, Some(""), 0.0, 1, Some(""), "", ExpenseCode, Some(""), true, 3, None, None)

  /** The form `openAddModal` opens, given today's `YYYY-MM-DD`. */
  function AddForm(today: string): ExpenseForm {
    ExpenseForm("", Some(""), true, Some(""), 0.0, 1, None, "", ExpenseCode, None, true, 3, Some(today), None)
  }

  /** The form `openEditModal` fills from a release, given the category id
      the lookup produced and today's `YYYY-MM-DD`. */
  function EditForm(e: Release, categoryId: string, today: string): ExpenseForm {
    ExpenseForm(e.description, e.notes, IsExpenseActive(e), e.paymentMethod, e.value, e.paymentDay,
                e.categoryName, categoryId, ReleaseTypeIdOf(e.releaseType), e.releaseType,
                e.notifications, e.notifyDaysBefore,
                if Truthy(e.startDate) then e.startDate else Some(today),
                if Truthy(e.endDate) then e.endDate else None)
  }

  /** What `saveExpense` does with the form: refuse it with a warning, or
      send it as the update of a release or as a new release. */
  datatype SaveRequest =
    | Rejected(message: string)
    | UpdateRequest(id: string, data: ExpenseForm)
    | AddRequest(data: ExpenseForm)

  const RequiredFieldsMessage: string := "Preencha todos os campos obrigatórios"
  const EndDateMessage: string := "Informe a data de término do lançamento"

  /** The decision `saveExpense` makes. The payload is the form with an
      empty start date sent as `null` and the end date sent only when the
      release has one. */
  function SaveRequestOf(f: ExpenseForm, hasEndDate: bool, isEditMode: bool, current: Option<Release>): (r: SaveRequest)
    ensures r == Rejected(RequiredFieldsMessage) <==> f.description == "" || f.categoryId == "" || f.value <= 0.0
    ensures r == Rejected(EndDateMessage) <==>
              f.description != "" && f.categoryId != "" && f.value > 0.0 && hasEndDate && !Truthy(f.endDate)
    ensures r.Rejected? ==> r.message == RequiredFieldsMessage || r.message == EndDateMessage
    ensures !r.Rejected? ==> (r.UpdateRequest? <==> isEditMode && current.Some?)
    ensures r.UpdateRequest? ==> r.id == current.value.id
    ensures !r.Rejected? ==>
              && r.data.(startDate := f.startDate, endDate := f.endDate) == f
              && r.data.description != "" && r.data.categoryId != "" && r.data.value > 0.0
              && (r.data.startDate == if Truthy(f.startDate) then f.startDate else None)
              && (r.data.endDate.Some? <==> hasEndDate)
              && (hasEndDate ==> r.data.endDate == f.endDate && Truthy(r.data.endDate))
  {
    if f.description == "" || f.categoryId == "" || f.value <= 0.0 then Rejected(RequiredFieldsMessage)
    else if hasEndDate && !Truthy(f.endDate) then Rejected(EndDateMessage)
    else
      var data := f.(startDate := if Truthy(f.startDate) then f.startDate else None,
                     endDate := if hasEndDate then f.endDate else None);
      if isEditMode && current.Some? then UpdateRequest(current.value.id, data) else AddRequest(data)
  }

  /** A form just opened for a new release cannot be saved. */
  lemma AddFormRejected(today: string, isEditMode: bool, current: Option<Release>)
    ensures SaveRequestOf(AddForm(today), false, isEditMode, current) == Rejected(RequiredFieldsMessage)
  {
  }

  /** Opening a release for editing and saving it untouched, with the
      intended category lookup, sends the update of that release whenever
      it has a description, a positive value and a category of that name
      in the catalogue; its end date, when it has one, is sent with it. */
  lemma EditThenSave(e: Release, categories: seq<Category>, today: string)
    requires e.description != "" && e.value > 0.0
    requires CategoryIdByName(categories, e.categoryName) != ""
    ensures var r := SaveRequestOf(EditForm(e, CategoryIdByName(categories, e.categoryName), today),
                                   Truthy(e.endDate), true, Some(e));
            r.UpdateRequest? && r.id == e.id && r.data.endDate == (if Truthy(e.endDate) then e.endDate else None)
  {
  }

  /** With the lookup as written, saving a release opened for editing
      without picking its category again is always refused. */
  lemma EditThenSaveAsWritten(e: Release, categories: seq<Category>, today: string)
    ensures SaveRequestOf(EditForm(e, CategoryIdByNameAsWritten(categories, e.categoryName), today),
                          Truthy(e.endDate), true, Some(e)) == Rejected(RequiredFieldsMessage)
  {
    CategoryIdAsWrittenIsEmpty(categories, e.categoryName);
  }

  /** The toast `saveExpense` shows: the warning of a refused form, the
      error of a failed request, or the success message, which follows the
      edit flag. */
  function SaveToast(r: SaveRequest, isEditMode: bool, serviceOk: bool): (message: string)
    ensures r.Rejected? ==> message == r.message
    ensures !r.Rejected? && !serviceOk ==> message == "Erro ao salvar despesa"
    ensures !r.Rejected? && serviceOk ==>
              message == "Despesa " + (if isEditMode then "atualizada" else "adicionada") + " com sucesso!"
  {
    if r.Rejected? then r.message
    else if !serviceOk then "Erro ao salvar despesa"
    else "Despesa " + (if isEditMode then "atualizada" else "adicionada") + " com sucesso!"
  }

  // ---------------------------------------------------------------------
  // The action sheet

  /** What a button of the action sheet does. */
  datatype ButtonAction = Pay | Edit | ToggleRecurrence | Delete | Dismiss

  datatype ActionButton = ActionButton(text: string, icon: string, role: Option<string>, action: ButtonAction)

  const PayButton: ActionButton := ActionButton("Pagar", "checkmark-circle", None, Pay)
  const EditButton: ActionButton := ActionButton("Editar", "pencil", None, Edit)
  const DeleteButton: ActionButton := ActionButton("Excluir", "trash", Some("destructive"), Delete)
  const CancelButton: ActionButton := ActionButton("Cancelar", "close", Some("cancel"), Dismiss)

  function ToggleButton(active: bool): ActionButton {
    if active then ActionButton("Desativar recorrência", "close", None, ToggleRecurrence)
    else ActionButton("Ativar recorrência", "checkmark", None, ToggleRecurrence)
  }

  predicate Offers(buttons: seq<ActionButton>, a: ButtonAction) {
    exists i :: 0 <= i < |buttons| && buttons[i].action == a
  }

  // ---------------------------------------------------------------------
  // The page

  class FixedExpensesPage {

    var expenses: seq<Release>
    var categories: seq<Category>
    var isModalOpen: bool
    var isEditMode: bool
    var currentExpense: Option<Release>
    var paymentStatusMap: map<string, PaymentStatus>
    var currentMonthTransactions: seq<ApiTransaction>
    var formData: ExpenseForm
    var hasEndDate: bool

    /** The page as constructed: nothing loaded, the modal closed. */
    constructor()
      ensures expenses == [] && categories == [] && currentMonthTransactions == [] && paymentStatusMap == map[]
      ensures !isModalOpen && !isEditMode && currentExpense == None && !hasEndDate
      ensures formData == InitialForm
    {
      expenses := [];
      categories := [];
      isModalOpen := false;
      isEditMode := false;
      currentExpense := None;
      paymentStatusMap := map[];
      currentMonthTransactions := [];
      formData := InitialForm;
      hasEndDate := false;
    }

    /** `loadCategories`, given the catalogue. */
    method LoadCategories(all: seq<Category>)
      modifies this`categories
      ensures categories == all
    {
      categories := all;
    }

    /** `loadPaymentStatus`, given the status list: the map is cleared and
        refilled entry by entry. */
    method LoadPaymentStatus(items: seq<StatusItem>)
      modifies this`paymentStatusMap
      ensures paymentStatusMap == StatusMap(items)
    {
      paymentStatusMap := map[];
      var i := 0;
      while i < |items|
        invariant 0 <= i <= |items|
        invariant paymentStatusMap == StatusMap(items[..i])
      {
        assert items[..i + 1][..i] == items[..i];
        paymentStatusMap := paymentStatusMap[items[i].expenseId := items[i].status];
        i := i + 1;
      }
      assert items[..|items|] == items;
    }

    /** `loadData`, given the month's transactions, the releases and the
        status list the API returns. */
    method LoadData(monthTransactions: seq<ApiTransaction>, all: seq<Release>, items: seq<StatusItem>)
      modifies this`currentMonthTransactions, this`expenses, this`paymentStatusMap
      ensures currentMonthTransactions == monthTransactions && expenses == all
      ensures paymentStatusMap == StatusMap(items)
    {
      currentMonthTransactions := monthTransactions;
      expenses := all;
      LoadPaymentStatus(items);
    }

    /** `getPaymentStatus`. */
    function GetPaymentStatus(id: string): PaymentStatus
      reads this
    {
      StatusOf(paymentStatusMap, id)
    }

    /** `isCurrentMonthPaid`. */
    predicate IsCurrentMonthPaid(e: Release)
      reads this
    {
      IsPaid(e, currentMonthTransactions)
    }

    /** `getStatusBadgeColor`. */
    function GetStatusBadgeColor(e: Release): string
      reads this
    {
      BadgeColor(IsCurrentMonthPaid(e), GetPaymentStatus(e.id))
    }

    /** `getStatusLabel`. */
    function GetStatusLabel(e: Release): string
      reads this
    {
      StatusLabel(IsCurrentMonthPaid(e), GetPaymentStatus(e.id))
    }

    /** `openAddModal`, given today's `YYYY-MM-DD`. */
    method OpenAddModal(today: string)
      modifies this`isEditMode, this`currentExpense, this`hasEndDate, this`formData, this`isModalOpen
      ensures !isEditMode && currentExpense == None && !hasEndDate && isModalOpen
      ensures formData == AddForm(today)
    {
      isEditMode := false;
      currentExpense := None;
      hasEndDate := false;
      formData := AddForm(today);
      isModalOpen := true;
    }

    /** `openEditModal`, given today's `YYYY-MM-DD`: the form holds the
        release, with its category looked up by name in the catalogue. */
    method OpenEditModal(e: Release, today: string)
      modifies this`isEditMode, this`currentExpense, this`hasEndDate, this`formData, this`isModalOpen
      ensures isEditMode && currentExpense == Some(e) && isModalOpen
      ensures hasEndDate == Truthy(e.endDate)
      ensures formData == EditForm(e, CategoryIdByName(categories, e.categoryName), today)
    {
      isEditMode := true;
      currentExpense := Some(e);
      hasEndDate := Truthy(e.endDate);
      formData := EditForm(e, CategoryIdByName(categories, e.categoryName), today);
      isModalOpen := true;
    }

    /** `closeModal`. */
    method CloseModal()
      modifies this`isModalOpen, this`hasEndDate
      ensures !isModalOpen && !hasEndDate
    {
      isModalOpen := false;
      hasEndDate := false;
    }

    /** `onHasEndDateChange`: only `'yes'` turns the end date on, and
        turning it off clears the chosen date. */
    method OnHasEndDateChange(choice: string)
      modifies this`hasEndDate, this`formData
      ensures hasEndDate == (choice == "yes")
      ensures formData == if hasEndDate then old(formData) else old(formData).(endDate := None)
    {
      hasEndDate := choice == "yes";
      if !hasEndDate {
        formData := formData.(endDate := None);
      }
    }

    /** `onStartDateChange`, given the picked value and its `YYYY-MM-DD`
        rendering: an empty pick leaves the form alone. */
    method OnStartDateChange(picked: Option<string>, formatted: string)
      modifies this`formData
      ensures formData == if Truthy(picked) then old(formData).(startDate := Some(formatted)) else old(formData)
    {
      if Truthy(picked) {
        formData := formData.(startDate := Some(formatted));
      }
    }

    /** `onEndDateChange`, like `onStartDateChange` for the end date. */
    method OnEndDateChange(picked: Option<string>, formatted: string)
      modifies this`formData
      ensures formData == if Truthy(picked) then old(formData).(endDate := Some(formatted)) else old(formData)
    {
      if Truthy(picked) {
        formData := formData.(endDate := Some(formatted));
      }
    }

    /** `getMinEndDate`: the start date, or today when there is none. */
    function GetMinEndDate(today: string): (d: string)
      reads this
      ensures Truthy(formData.startDate) ==> d == formData.startDate.value
      ensures !Truthy(formData.startDate) ==> d == today
    {
      if Truthy(formData.startDate) then formData.startDate.value else today
    }

    /** `saveExpense`, given whether the request succeeds: the decision and
        the toast it shows. A request that went through closes the modal
        (the reload that follows is `loadData`); a refused form or a failed
        request leaves the page as it was. */
    method SaveExpense(serviceOk: bool) returns (r: SaveRequest, toast: string)
      modifies this`isModalOpen, this`hasEndDate
      ensures r == SaveRequestOf(formData, old(hasEndDate), isEditMode, currentExpense)
      ensures toast == SaveToast(r, isEditMode, serviceOk)
      ensures !r.Rejected? && serviceOk ==> !isModalOpen && !hasEndDate
      ensures r.Rejected? || !serviceOk ==> isModalOpen == old(isModalOpen) && hasEndDate == old(hasEndDate)
    {
      r := SaveRequestOf(formData, hasEndDate, isEditMode, currentExpense);
      toast := SaveToast(r, isEditMode, serviceOk);
      if !r.Rejected? && serviceOk {
        CloseModal();
      }
    }

    /** `showExpenseOptions`: "Pagar" first when the release is active and
        not yet paid, then edit, the recurrence toggle, delete and cancel. */
    method ShowExpenseOptions(e: Release) returns (buttons: seq<ActionButton>)
      ensures Offers(buttons, Pay) <==> IsExpenseActive(e) && !IsCurrentMonthPaid(e)
      ensures |buttons| == if Offers(buttons, Pay) then 5 else 4
      ensures Offers(buttons, Pay) ==> buttons[0] == PayButton
      ensures buttons[|buttons| - 4..] == [EditButton, ToggleButton(IsExpenseActive(e)), DeleteButton, CancelButton]
    {
      var isPaid := IsCurrentMonthPaid(e);
      var isActive := IsExpenseActive(e);
      buttons := [];
      if !isPaid && isActive {
        buttons := buttons + [PayButton];
      }
      buttons := buttons + [EditButton];
      buttons := buttons + [ToggleButton(isActive)];
      buttons := buttons + [DeleteButton];
      buttons := buttons + [CancelButton];
      assert !Offers(buttons[|buttons| - 4..], Pay);
      if !isPaid && isActive {
        assert buttons[0].action == Pay;
      } else {
        assert buttons == buttons[|buttons| - 4..];
      }
    }
  }

  /** `getColor`: the salary green for the `Salário` category and no
      colour otherwise. */
  function SalaryColor(e: Release): (c: Option<string>)
    ensures c.Some? <==> e.categoryName == Some("Salário")
    ensures c.Some? ==> c.value == "#85bb65"
  {
    if e.categoryName == Some("Salário") then Some("#85bb65") else None
  }
}
