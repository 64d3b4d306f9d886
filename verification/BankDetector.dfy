/** The bank-notification detector (`BankTransactionDetectorService`): an
    allow-list of bank packages, six rules tried in a fixed order on the
    lower-cased text of a notification, the amount and name extractors of
    `BankPatterns`, a keyword choice of category, and the ledger record the
    detection becomes. */
module BankDetector {

  import opened Wrappers
  import opened Text
  import opened Calendar
  import opened Collections
  import opened Models
  import opened Categories
  import opened Ledger
  import opened BankPatterns

  /** The fields of an Android notification the detector reads. */
  datatype Notification = Notification(
    packageName: string,
    appName: string,
    title: Option<string>,
    text: Option<string>,
    bigText: Option<string>,
    postTime: DateTime)

  /** The package-name fragments of the supported banks. */
  const SupportedBankApps: seq<string> :=
    ["com.nu.production", "nubank", "inter", "bradesco", "itau", "santander", "caixa", "bb"]

  /** `isBankApp`: the lower-cased package name contains one of the
      fragments. */
  predicate IsBankApp(packageName: string) {
    exists i :: 0 <= i < |SupportedBankApps| && Contains(ToLower(packageName), ToLower(SupportedBankApps[i]))
  }

  /** The allow-list is matched without regard to case: the fragments are
      already lower case, and a package name is accepted exactly when its
      lower-cased form is. */
  lemma IsBankAppIgnoresCase(packageName: string)
    ensures IsBankApp(packageName) <==>
              exists i :: 0 <= i < |SupportedBankApps| && Contains(ToLower(packageName), SupportedBankApps[i])
    ensures IsBankApp(packageName) <==> IsBankApp(ToLower(packageName))
  {
    forall i | 0 <= i < |SupportedBankApps|
      ensures ToLower(SupportedBankApps[i]) == SupportedBankApps[i]
    {
      LowerOfLowerCase(SupportedBankApps[i]);
    }
    LowerTwice(packageName);
  }

  /** `${title || ''} ${text || ''} ${bigText || ''}`, lower-cased: the only
      text the rules and the amount extractor see. */
  function FullText(n: Notification): string {
    ToLower(n.title.GetOr("") + " " + n.text.GetOr("") + " " + n.bigText.GetOr(""))
  }

  /** The text the name extractors read: `text || ''`, in its own case. */
  function NameText(n: Notification): string {
    n.text.GetOr("")
  }

  /** Lower-casing never produces a `$`. */
  lemma LowerKeepsDollar(c: char)
    ensures LowerChar(c) == '$' <==> c == '$'
  {
  }

  /** The full text has each field lower-cased on its own, separated by
      single spaces, and contains a `$` only where a field has one. */
  lemma FullTextLayout(n: Notification)
    ensures var t := n.title.GetOr("");
            var x := n.text.GetOr("");
            var b := n.bigText.GetOr("");
            && FullText(n) == ToLower(t) + " " + ToLower(x) + " " + ToLower(b)
            && ('$' in FullText(n) <==> '$' in t || '$' in x || '$' in b)
  {
    var t, x, b := n.title.GetOr(""), n.text.GetOr(""), n.bigText.GetOr("");
    LowerJoin(t, x, b);
    DollarInLower(t + " " + x + " " + b);
    DollarInJoin(t, x, b);
  }

  /** Lower-casing works character by character, so it lower-cases each
      field of a join on its own. */
  lemma LowerJoin(t: string, x: string, b: string)
    ensures ToLower(t + " " + x + " " + b) == ToLower(t) + " " + ToLower(x) + " " + ToLower(b)
  {
  }

  lemma DollarInLower(s: string)
    ensures '$' in ToLower(s) <==> '$' in s
  {
    if '$' in ToLower(s) {
      var i :| 0 <= i < |s| && ToLower(s)[i] == '$';
      LowerKeepsDollar(s[i]);
    }
    if '$' in s {
      var i :| 0 <= i < |s| && s[i] == '$';
      assert ToLower(s)[i] == LowerChar(s[i]);
    }
  }

  lemma DollarInJoin(t: string, x: string, b: string)
    ensures '$' in t + " " + x + " " + b <==> '$' in t || '$' in x || '$' in b
  {
    assert '$' !in " ";
  }

  /** The six rules of the detector. */
  datatype Rule =
    | PixRecebido
    | PixEnviado
    | TransferenciaRecebida
    | TransferenciaEnviada
    | CompraAprovada
    | CompraDebito

  /** The order the rules are tried in. */
  const RuleOrder: seq<Rule> :=
    [PixRecebido, PixEnviado, TransferenciaRecebida, TransferenciaEnviada, CompraAprovada, CompraDebito]

  /** The phrase that opens each rule's pattern (`phrase.*?r\$\s*([\d.,]+)`). */
  function Head(rule: Rule): seq<Word> {
    match rule
    case PixRecebido => [W("pix"), W("recebido")]
    case PixEnviado => [W("pix"), W("enviado")]
    case TransferenciaRecebida => [W("transfer.ncia"), W("recebida")]
    case TransferenciaEnviada => [W("transfer.ncia"), W("enviada")]
    case CompraAprovada => [W("compra"), W("aprovada")]
    case CompraDebito => [W("compra"), W("no"), W("d.bito")]
  }

  /** The two "received" rules are income; all others are expenses. */
  function RuleKind(rule: Rule): TxType {
    if rule == PixRecebido || rule == TransferenciaRecebida then Income else Expense
  }

  /** The `transactionType` label of each rule. */
  function Label(rule: Rule): string {
    match rule
    case PixRecebido => "Pix Recebido"
    case PixEnviado => "Pix Enviado"
    case TransferenciaRecebida => "Transfer\U{EA}ncia Recebida"
    case TransferenciaEnviada => "Transfer\U{EA}ncia Enviada"
    case CompraAprovada => "Compra Cr\U{E9}dito"
    case CompraDebito => "Compra D\U{E9}bito"
  }

  /** A name is used only when the extractor returns a non-empty one. */
  function Named(name: Option<string>, prefix: string, fallback: string): string {
    if Truthy(name) then prefix + name.value else fallback
  }

  /** The description of a detection: the counterparty or merchant found in
      the notification's text when there is one, else the rule's fixed
      wording; transfers always use the fixed wording. */
  function Description(rule: Rule, text: string): (r: string)
    ensures rule == TransferenciaRecebida ==> r == "Transfer\U{EA}ncia recebida"
    ensures rule == TransferenciaEnviada ==> r == "Transfer\U{EA}ncia enviada"
    ensures rule == PixRecebido ==> NamedOrFixed(r, "Pix recebido de ", "Pix recebido", ExtractName(text, SenderPatterns))
    ensures rule == PixEnviado ==> NamedOrFixed(r, "Pix para ", "Pix enviado", ExtractName(text, RecipientPatterns))
    ensures rule == CompraAprovada ==> NamedOrFixed(r, "Compra em ", "Compra aprovada", ExtractName(text, MerchantPatterns))
    ensures rule == CompraDebito ==> NamedOrFixed(r, "Compra em ", "Compra no d\U{E9}bito", ExtractName(text, MerchantPatterns))
  {
    match rule
    case PixRecebido => Named(ExtractName(text, SenderPatterns), "Pix recebido de ", "Pix recebido")
    case PixEnviado => Named(ExtractName(text, RecipientPatterns), "Pix para ", "Pix enviado")
    case TransferenciaRecebida => "Transfer\U{EA}ncia recebida"
    case TransferenciaEnviada => "Transfer\U{EA}ncia enviada"
    case CompraAprovada => Named(ExtractName(text, MerchantPatterns), "Compra em ", "Compra aprovada")
    case CompraDebito => Named(ExtractName(text, MerchantPatterns), "Compra em ", "Compra no d\U{E9}bito")
  }

  /** `r` is `prefix` followed by the extracted name, which is non-empty
      and trimmed, or the fixed wording when no usable name was found. */
  predicate NamedOrFixed(r: string, prefix: string, fixed: string, name: Option<string>) {
    if name.Some? && name.value != [] then
      r == prefix + name.value && !IsSpace(name.value[0]) && !IsSpace(name.value[|name.value| - 1])
    else
      r == fixed
  }

  /** `DetectedTransaction`. */
  datatype Detected = Detected(
    kind: TxType,
    amount: real,
    description: string,
    source: string,
    transactionType: string,
    date: DateTime,
    raw: Notification)

  /** The detection a matching rule produces. */
  function Build(n: Notification, rule: Rule, amount: real): Detected {
    Detected(RuleKind(rule), amount, Description(rule, NameText(n)), n.appName, Label(rule), n.postTime, n)
  }

  /** The rules from the `k`-th on: the first that matches, provided an
      amount is found, decides. */
  function DetectFrom(n: Notification, full: string, k: nat): (r: Option<Detected>)
    requires k <= |RuleOrder|
    decreases |RuleOrder| - k
  {
    if k == |RuleOrder| then None
    else if RuleMatches(full, Head(RuleOrder[k])) && ExtractAmount(full).Some? then
      Some(Build(n, RuleOrder[k], ExtractAmount(full).value))
    else DetectFrom(n, full, k + 1)
  }

  /** `detectTransaction`, every rule tested from the start of the text. */
  function Detect(n: Notification): (r: Option<Detected>)
    ensures r.Some? ==> && r.value.amount > 0.0
                        && r.value.source == n.appName
                        && r.value.date == n.postTime
                        && Some(r.value.amount) == ExtractAmount(FullText(n))
  {
    DetectFirstRule(n);
    DetectFrom(n, FullText(n), 0)
  }

  /** The text fires `rule`: its pattern matches somewhere. */
  function Fires(full: string): Rule -> bool {
    (rule: Rule) => RuleMatches(full, Head(rule))
  }

  /** The position in the rule order of the first rule from `k` on that
      `fires`, or -1. */
  function FirstRuleFrom(fires: Rule -> bool, k: nat): (j: int)
    requires k <= |RuleOrder|
    ensures j == -1 || k <= j < |RuleOrder|
    ensures j >= 0 ==> fires(RuleOrder[j]) && forall i :: k <= i < j ==> !fires(RuleOrder[i])
    ensures j == -1 <==> forall i :: k <= i < |RuleOrder| ==> !fires(RuleOrder[i])
    decreases |RuleOrder| - k
  {
    if k == |RuleOrder| then -1
    else if fires(RuleOrder[k]) then k
    else FirstRuleFrom(fires, k + 1)
  }

  /** The rules from `k` on decide on the first one that fires, and only
      when an amount is found. */
  lemma {:induction false} DetectFromFirst(n: Notification, full: string, k: nat)
    requires k <= |RuleOrder|
    ensures DetectFrom(n, full, k)
            == var j := FirstRuleFrom(Fires(full), k);
               if j >= 0 && ExtractAmount(full).Some? then Some(Build(n, RuleOrder[j], ExtractAmount(full).value))
               else None
    decreases |RuleOrder| - k
  {
    if k < |RuleOrder| {
      DetectFromFirst(n, full, k + 1);
    }
  }

  /** `detectTransaction` decides on the first rule, in the fixed order,
      whose pattern matches the full text, provided an amount is found in
      it; with no matching rule or no amount nothing is detected. */
  lemma DetectFirstRule(n: Notification)
    ensures var full := FullText(n);
            var j := FirstRuleFrom(Fires(full), 0);
            DetectFrom(n, full, 0)
            == if j >= 0 && ExtractAmount(full).Some? then Some(Build(n, RuleOrder[j], ExtractAmount(full).value))
               else None
  {
    DetectFromFirst(n, FullText(n), 0);
  }

  /** A detection is income exactly when one of the two "received" rules
      decided it. */
  lemma DetectedIncomeIffReceived(n: Notification)
    requires Detect(n).Some?
    ensures Detect(n).value.kind == Income <==>
              Detect(n).value.transactionType == "Pix Recebido"
              || Detect(n).value.transactionType == "Transfer\U{EA}ncia Recebida"
  {
    DetectFirstRule(n);
    var j := FirstRuleFrom(Fires(FullText(n)), 0);
    LabelsDistinct(RuleOrder[j]);
  }

  /** Only the received rules carry the received labels. */
  lemma LabelsDistinct(rule: Rule)
    ensures Label(rule) == "Pix Recebido" <==> rule == PixRecebido
    ensures Label(rule) == "Transfer\U{EA}ncia Recebida" <==> rule == TransferenciaRecebida
  {
    match rule
    case PixRecebido => assert Label(rule)[0] != "Transfer\U{EA}ncia Recebida"[0];
    case PixEnviado => assert Label(rule)[4] != "Pix Recebido"[4];
    case TransferenciaRecebida => assert Label(rule)[0] != "Pix Recebido"[0];
    case TransferenciaEnviada => assert Label(rule)[14] != "Transfer\U{EA}ncia Recebida"[14];
    case CompraAprovada => assert Label(rule)[0] != "Pix Recebido"[0] && Label(rule)[0] != "Transfer\U{EA}ncia Recebida"[0];
    case CompraDebito => assert Label(rule)[0] != "Pix Recebido"[0] && Label(rule)[0] != "Transfer\U{EA}ncia Recebida"[0];
  }

  /** A notification without a `$` in its title, text or big text is never
      detected. */
  lemma NoDollarNoDetection(n: Notification)
    requires '$' !in n.title.GetOr("") && '$' !in n.text.GetOr("") && '$' !in n.bigText.GetOr("")
    ensures Detect(n) == None
  {
    FullTextLayout(n);
    NoDollarNoAmount(FullText(n));
    DetectFirstRule(n);
  }

  /** A category whose lower-cased name contains `word`. */
  function NameIncludes(word: string): Category -> bool {
    (c: Category) => Contains(ToLower(c.name), word)
  }

  /** A category of kind `kind` whose lower-cased name contains `word`. */
  function KindNameIncludes(kind: TxType, word: string): Category -> bool {
    (c: Category) => c.kind == kind && Contains(ToLower(c.name), word)
  }

  /** A category of kind `kind`. */
  function OfCategoryKind(kind: TxType): Category -> bool {
    (c: Category) => c.kind == kind
  }

  /** The category chosen for a purchase from its lower-cased description. */
  function PurchaseCategory(merchant: string, categories: seq<Category>): Option<Category> {
    if Contains(merchant, "ifood") || Contains(merchant, "rappi") then
      Find(categories, NameIncludes("alimenta\U{E7}\U{E3}o"))
    else if Contains(merchant, "uber") || Contains(merchant, "99") then
      Find(categories, NameIncludes("transporte"))
    else
      Find(categories, KindNameIncludes(Expense, "compra"))
  }

  /** `findAppropriateCategory`: a Pix goes to a same-kind "outros"
      category, a purchase is classified by keywords of its description,
      and anything else takes the first same-kind category, else the first
      category. */
  function FindAppropriateCategory(d: Detected, categories: seq<Category>): (r: Option<Category>)
    ensures r.Some? ==> r.value in categories
    ensures r.None? && !Contains(d.transactionType, "Pix") && !Contains(d.transactionType, "Compra") ==> categories == []
  {
    if Contains(d.transactionType, "Pix") then
      Find(categories, KindNameIncludes(d.kind, "outros"))
    else if Contains(d.transactionType, "Compra") then
      PurchaseCategory(ToLower(d.description), categories)
    else
      match Find(categories, OfCategoryKind(d.kind))
      case Some(c) => Some(c)
      case None => if categories == [] then None else Some(categories[0])
  }

  /** `s.includes(sub)` holds when `s` starts with `sub`. */
  lemma ContainsPrefix(s: string, sub: string)
    requires |sub| <= |s| && s[..|sub|] == sub
    ensures Contains(s, sub)
  {
    assert OccursAt(s, sub, 0);
  }

  /** `s.includes(sub)` fails when the first character of `sub` is not in
      `s`. */
  lemma NotContainsFirst(s: string, sub: string)
    requires sub != [] && sub[0] !in s
    ensures !Contains(s, sub)
  {
    forall i | 0 <= i <= |s| - |sub| ensures !OccursAt(s, sub, i) {
      assert s[i..i + |sub|][0] == s[i];
    }
  }

  /** Which branch of the category choice each rule takes: Pix rules look
      for "outros", purchases for their keywords, transfers for the first
      category of their kind. */
  lemma CategoryForRule(d: Detected, rule: Rule, categories: seq<Category>)
    requires d.transactionType == Label(rule)
    ensures var r := FindAppropriateCategory(d, categories);
            && (rule == PixRecebido || rule == PixEnviado ==>
                  r == Find(categories, KindNameIncludes(d.kind, "outros")))
            && (rule == CompraAprovada || rule == CompraDebito ==>
                  r == PurchaseCategory(ToLower(d.description), categories))
            && (rule == TransferenciaRecebida || rule == TransferenciaEnviada ==>
                  r == (match Find(categories, OfCategoryKind(d.kind))
                        case Some(c) => Some(c)
                        case None => if categories == [] then None else Some(categories[0])))
  {
    LabelRoute(rule);
  }

  /** Which of the two keywords each label contains. */
  lemma LabelRoute(rule: Rule)
    ensures Contains(Label(rule), "Pix") <==> rule == PixRecebido || rule == PixEnviado
    ensures Contains(Label(rule), "Compra") <==> rule == CompraAprovada || rule == CompraDebito
  {
    match rule
    case PixRecebido => PixLabel("Pix Recebido");
    case PixEnviado => PixLabel("Pix Enviado");
    case TransferenciaRecebida => OtherLabel("Transfer\U{EA}ncia Recebida");
    case TransferenciaEnviada => OtherLabel("Transfer\U{EA}ncia Enviada");
    case CompraAprovada => CompraLabel("Compra Cr\U{E9}dito");
    case CompraDebito => CompraLabel("Compra D\U{E9}bito");
  }

  lemma PixLabel(tag: string)
    requires |tag| >= 6 && tag[..3] == "Pix" && 'C' !in tag
    ensures Contains(tag, "Pix") && !Contains(tag, "Compra")
  {
    ContainsPrefix(tag, "Pix");
    NotContainsFirst(tag, "Compra");
  }

  lemma CompraLabel(tag: string)
    requires |tag| >= 6 && tag[..6] == "Compra" && 'P' !in tag
    ensures Contains(tag, "Compra") && !Contains(tag, "Pix")
  {
    ContainsPrefix(tag, "Compra");
    NotContainsFirst(tag, "Pix");
  }

  lemma OtherLabel(tag: string)
    requires 'P' !in tag && 'C' !in tag
    ensures !Contains(tag, "Compra") && !Contains(tag, "Pix")
  {
    NotContainsFirst(tag, "Compra");
    NotContainsFirst(tag, "Pix");
  }


  /** The ledger record of a detection: no category becomes the empty id,
      and the notes name the source and the kind of transaction. */
  function LedgerRecord(d: Detected, category: Option<Category>): (r: TransactionCreate)
    ensures r.kind == d.kind && r.amount == d.amount && r.description == d.description
    ensures category.None? ==> r.categoryId == ""
    ensures category.Some? ==> r.categoryId == category.value.id
    ensures r.date == Some(d.date)
    ensures r.notes == Some("Detectado automaticamente de " + d.source + " - " + d.transactionType)
  {
    TransactionCreate(
      d.kind, d.amount,
      if category.Some? then category.value.id else "",
      d.description,
      Some(d.date),
      None, None,
      Some("Detectado automaticamente de " + d.source + " - " + d.transactionType),
      None)
  }

  /** The arguments of the confirmation the detector requests after a
      successful write. */
  datatype Confirmation = Confirmation(description: string, amount: real, source: string)

  class BankTransactionDetector {

    /** The catalogue `findAppropriateCategory` reads. */
    const categoryService: CategoryService

    /** The ledger detections are written to. */
    const ledger: TransactionService

    /** The confirmations requested so far, in order. */
    var confirmations: seq<Confirmation>

    /** The ledger resolves categories against the same root catalogue. */
    predicate Valid()
      reads this, ledger
    {
      ledger.Valid() && ledger.categoryService == categoryService
    }

    constructor(categoryService: CategoryService, ledger: TransactionService)
      requires ledger.Valid() && ledger.categoryService == categoryService
      ensures this.categoryService == categoryService && this.ledger == ledger
      ensures confirmations == []
      ensures Valid()
    {
      this.categoryService := categoryService;
      this.ledger := ledger;
      confirmations := [];
    }

    /** `processNotification`: a notification from outside the allow-list,
        or one that no rule detects, changes nothing; a detection is added
        to the ledger with the chosen category, and only once the write has
        succeeded is the confirmation requested. A failed write is
        swallowed. */
    method ProcessNotification(n: Notification, newId: string, now: DateTime, storageOk: bool)
      requires Valid()
      modifies this, ledger
      ensures Valid()
      ensures !IsBankApp(n.packageName) || Detect(n).None? ==>
                ledger.transactions == old(ledger.transactions) && confirmations == old(confirmations)
      ensures IsBankApp(n.packageName) && Detect(n).Some? ==>
                var d := Detect(n).value;
                var record := LedgerRecord(d, FindAppropriateCategory(d, categoryService.categories));
                var t := NewTransaction(newId, record, categoryService.GetCategoryById(record.categoryId), now);
                if storageOk then
                  && ledger.transactions == old(ledger.transactions) + [t]
                  && confirmations == old(confirmations) + [Confirmation(d.description, d.amount, d.source)]
                else
                  ledger.transactions == old(ledger.transactions) && confirmations == old(confirmations)
    {
      if !IsBankApp(n.packageName) {
        return;
      }
      var detected := Detect(n);
      if detected.None? {
        return;
      }
      var d := detected.value;
      var category := FindAppropriateCategory(d, categoryService.categories);
      var record := LedgerRecord(d, category);
      var added := ledger.AddTransaction(record, newId, now, storageOk);
      if added.Success? {
        confirmations := confirmations + [Confirmation(d.description, d.amount, d.source)];
      }
    }
  }

  // ---------------------------------------------------------------------
  // The shared `/g` rule patterns.

  /** Where each rule pattern's `lastIndex` stands, in rule order. */
  type LastIndices = s: seq<nat> | |s| == |RuleOrder| witness [0, 0, 0, 0, 0, 0]

  const FreshIndices: LastIndices := [0, 0, 0, 0, 0, 0]

  /** What `test` on a `/g` pattern reports and where it leaves
      `lastIndex`. */
  datatype TestOutcome = TestOutcome(matched: bool, lastIndex: nat)

  /** `pattern.test(s)` on a global pattern: the search starts at
      `lastIndex`; a match moves it to the match's end, a miss resets it
      to 0. */
  function StickyTest(s: string, head: seq<Word>, lastIndex: nat): (t: TestOutcome)
    ensures t.matched ==> lastIndex <= |s|
    ensures lastIndex == 0 ==> t.matched == RuleMatches(s, head)
  {
    if lastIndex > |s| then TestOutcome(false, 0)
    else match RuleSearch(s, head, lastIndex)
    case Some(e) => TestOutcome(true, e)
    case None => TestOutcome(false, 0)
  }

  /** `detectTransaction` as written, with the rule patterns shared
      between calls: each rule reached tests from its pattern's
      `lastIndex` and moves it. */
  function DetectStickyFrom(n: Notification, full: string, k: nat, indices: LastIndices): (Option<Detected>, LastIndices)
    requires k <= |RuleOrder|
    decreases |RuleOrder| - k
  {
    if k == |RuleOrder| then (None, indices)
    else
      var t := StickyTest(full, Head(RuleOrder[k]), indices[k]);
      var next: LastIndices := indices[k := t.lastIndex];
      if t.matched && ExtractAmount(full).Some? then (Some(Build(n, RuleOrder[k], ExtractAmount(full).value)), next)
      else DetectStickyFrom(n, full, k + 1, next)
  }

  function DetectSticky(n: Notification, indices: LastIndices): (Option<Detected>, LastIndices) {
    DetectStickyFrom(n, FullText(n), 0, indices)
  }

  /** With every `lastIndex` at 0 the shared patterns behave as fresh
      ones. */
  lemma {:induction false} StickyFromFresh(n: Notification, full: string, k: nat, indices: LastIndices)
    requires k <= |RuleOrder|
    requires forall j :: k <= j < |RuleOrder| ==> indices[j] == 0
    ensures DetectStickyFrom(n, full, k, indices).0 == DetectFrom(n, full, k)
    decreases |RuleOrder| - k
  {
    if k < |RuleOrder| {
      var t := StickyTest(full, Head(RuleOrder[k]), indices[k]);
      var next: LastIndices := indices[k := t.lastIndex];
      StickyFromFresh(n, full, k + 1, next);
    }
  }

  /** The rules from `k` on, none of which matches, leave nothing detected
      when their patterns start from 0. */
  lemma {:induction false} StickyNoRuleFrom(n: Notification, full: string, k: nat, indices: LastIndices)
    requires k <= |RuleOrder|
    requires forall j :: k <= j < |RuleOrder| ==> indices[j] == 0 && !RuleMatches(full, Head(RuleOrder[j]))
    ensures DetectStickyFrom(n, full, k, indices).0 == None
    decreases |RuleOrder| - k
  {
    if k < |RuleOrder| {
      var t := StickyTest(full, Head(RuleOrder[k]), indices[k]);
      var next: LastIndices := indices[k := t.lastIndex];
      StickyNoRuleFrom(n, full, k + 1, next);
    }
  }

  /** `s` holds exactly one `$`, at `p`. */
  predicate OnlyDollarAt(s: string, p: nat) {
    p < |s| && s[p] == '$' && forall k :: 0 <= k < |s| && k != p ==> s[k] != '$'
  }

  /** The shared patterns lose a repeated notification: a "Pix recebido"
      text with a single `$` and no other rule is detected by fresh
      patterns every time, but the second of two identical notifications
      finds the Pix pattern's `lastIndex` past its only match and nothing
      is detected. */
  lemma StickyMissesRepeat(n: Notification, p: nat)
    requires RuleMatches(FullText(n), Head(PixRecebido)) && ExtractAmount(FullText(n)).Some?
    requires forall j :: 1 <= j < |RuleOrder| ==> !RuleMatches(FullText(n), Head(RuleOrder[j]))
    requires OnlyDollarAt(FullText(n), p)
    ensures Detect(n).Some?
    ensures DetectSticky(n, FreshIndices).0 == Detect(n)
    ensures DetectSticky(n, DetectSticky(n, FreshIndices).1).0 == None
  {
    var full := FullText(n);
    var e := RuleSearch(full, Head(PixRecebido), 0).value;
    StickyFirstCall(n);
    StickySecondCall(n, p, e);
  }

  /** The first call detects what fresh patterns detect and leaves the Pix
      pattern's `lastIndex` at the end of its match. */
  lemma StickyFirstCall(n: Notification)
    requires RuleMatches(FullText(n), Head(PixRecebido)) && ExtractAmount(FullText(n)).Some?
    ensures Detect(n).Some?
    ensures DetectSticky(n, FreshIndices).0 == Detect(n)
    ensures DetectSticky(n, FreshIndices).1 == FreshIndices[0 := RuleSearch(FullText(n), Head(PixRecebido), 0).value]
  {
    StickyFirstFrom(n, FullText(n));
  }

  lemma StickyFirstFrom(n: Notification, full: string)
    requires RuleMatches(full, Head(PixRecebido)) && ExtractAmount(full).Some?
    ensures DetectFrom(n, full, 0).Some?
    ensures DetectStickyFrom(n, full, 0, FreshIndices).0 == DetectFrom(n, full, 0)
    ensures DetectStickyFrom(n, full, 0, FreshIndices).1 == FreshIndices[0 := RuleSearch(full, Head(PixRecebido), 0).value]
  {
    StickyFirstDetects(n, full);
    FreshIndicesAtZero();
    StickyFromFresh(n, full, 0, FreshIndices);
    StickyFirstStep(n, full);
  }

  lemma FreshIndicesAtZero()
    ensures forall j :: 0 <= j < |RuleOrder| ==> FreshIndices[j] == 0
  {
  }

  lemma StickyFirstDetects(n: Notification, full: string)
    requires RuleMatches(full, Head(PixRecebido)) && ExtractAmount(full).Some?
    ensures DetectFrom(n, full, 0).Some?
  {
    assert RuleOrder[0] == PixRecebido;
  }

  lemma StickyFirstStep(n: Notification, full: string)
    requires RuleMatches(full, Head(PixRecebido)) && ExtractAmount(full).Some?
    ensures DetectStickyFrom(n, full, 0, FreshIndices).1 == FreshIndices[0 := RuleSearch(full, Head(PixRecebido), 0).value]
  {
    assert RuleOrder[0] == PixRecebido;
  }

  /** From the end of the only match, the Pix pattern fails and resets,
      and no other rule matches. */
  lemma StickySecondCall(n: Notification, p: nat, e: nat)
    requires RuleSearch(FullText(n), Head(PixRecebido), 0) == Some(e)
    requires forall j :: 1 <= j < |RuleOrder| ==> !RuleMatches(FullText(n), Head(RuleOrder[j]))
    requires OnlyDollarAt(FullText(n), p)
    ensures DetectSticky(n, FreshIndices[0 := e]).0 == None
  {
    StickySecondFrom(n, FullText(n), p, e);
  }

  lemma StickySecondFrom(n: Notification, full: string, p: nat, e: nat)
    requires RuleSearch(full, Head(PixRecebido), 0) == Some(e)
    requires forall j :: 1 <= j < |RuleOrder| ==> !RuleMatches(full, Head(RuleOrder[j]))
    requires OnlyDollarAt(full, p)
    ensures DetectStickyFrom(n, full, 0, FreshIndices[0 := e]).0 == None
  {
    PastOnlyDollar(full, p, e);
    assert RuleOrder[0] == PixRecebido;
    StickyNoRuleFrom(n, full, 1, FreshIndices[0 := e][0 := 0]);
  }

  /** The Pix pattern finds nothing past the end of its only match. */
  lemma PastOnlyDollar(full: string, p: nat, e: nat)
    requires RuleSearch(full, Head(PixRecebido), 0) == Some(e)
    requires OnlyDollarAt(full, p)
    ensures RuleSearch(full, Head(PixRecebido), e) == None
  {
    var head := Head(PixRecebido);
    RuleSearchDollar(full, head, 0);
    var q :| 0 <= q && q + 2 < e && DollarSignAt(full, q);
    assert q + 1 == p;
    RuleSearchNoDollar(full, head, e);
  }
}
