/** The export service (`export.service.ts`): the `;`-separated CSV text of
    a list of ledger transactions, the rows of the PDF transaction table and
    the page footers of the PDF. Saving and sharing the files, the jsPDF
    layout and the chart image are not part of this model. */
module Export {

  import opened Wrappers
  import opened Text
  import opened Calendar
  import opened Models
  import opened Collections

  /** The cent count `toFixed(2)` picks for a non-negative
      amount: the integer `n` with `n / 100` nearest to it, the larger one
      on a tie. */
  function Cents(a: real): (n: nat)
    requires a >= 0.0
    ensures (n as real) - 0.5 <= a * 100.0 < (n as real) + 0.5
  {
    (a * 100.0 + 0.5).Floor
  }

  /** `x.toFixed(2)`: a minus sign for a negative amount, the whole part,
      a point and two decimals. */
  function ToFixed2(x: real): (r: string)
    ensures |r| >= 4
    ensures ';' !in r && '\n' !in r
  {
    var a := if x < 0.0 then -x else x;
    var n := Cents(a);
    (if x < 0.0 then "-" else "") + NatToString(n / 100) + "." + Pad2(n % 100)
  }

  lemma Pad2Value(m: nat)
    requires m < 100
    ensures DigitsValue(Pad2(m)) == m
  {
    var p := Pad2(m);
    assert p[..1] == [DigitChar(m / 10)];
    assert p[..1][..0] == [];
    assert DigitsValue(p[..1]) == m / 10;
    assert DigitsValue(p) == 10 * (m / 10) + m % 10;
  }

  /** Reading back what `toFixed(2)` wrote: the sign says whether the amount
      was negative, and the digits around the point denote a cent count
      within half a cent of the amount. */
  lemma ToFixed2ReadsBack(x: real)
    ensures var r := ToFixed2(x);
            (r[0] == '-' <==> x < 0.0)
            && (x < 0.0 ==> r[1..] == ToFixed2(-x))
    ensures x >= 0.0 ==>
              var r := ToFixed2(x);
              var k := |r| - 3;
              && r[k] == '.' && AllDigits(r[..k]) && AllDigits(r[k + 1..])
              && var c := (DigitsValue(r[..k]) * 100 + DigitsValue(r[k + 1..])) as real;
                 c - 0.5 <= x * 100.0 < c + 0.5
  {
    var r := ToFixed2(x);
    var a := if x < 0.0 then -x else x;
    var n := Cents(a);
    var whole := NatToString(n / 100);
    assert r == (if x < 0.0 then "-" else "") + whole + "." + Pad2(n % 100);
    if x < 0.0 {
      assert r[0] == '-';
      assert r[1..] == ToFixed2(-x);
    } else {
      assert r == whole + "." + Pad2(n % 100);
      assert r[0] == whole[0];
      var k := |r| - 3;
      assert r[..k] == whole;
      assert r[k + 1..] == Pad2(n % 100);
      DigitsValueOfNatToString(n / 100);
      Pad2Value(n % 100);
    }
  }

  /** `moment(date).format('DD/MM/YYYY')`, with moment's text for a date
      that does not exist. */
  function DateField(d: DateTime): (r: string)
    ensures ';' !in r && '\n' !in r
  {
    if !Valid(d) then "Invalid date"
    else if 0 <= d.year < 10000 then FormatDayMonthYear(d)
    else Pad2(d.day) + "/" + Pad2(d.month) + "/" + IntToString(d.year)
  }

  /** `t.type === 'income' ? 'Receita' : 'Despesa'`. */
  function TypeField(kind: TxType): (r: string)
    ensures ';' !in r && '\n' !in r
  {
    match kind
    case Income => "Receita"
    case Expense => "Despesa"
  }

  /** `t.category?.name || fallback`. */
  function CategoryField(category: Option<Category>, fallback: string): (r: string)
    ensures category.None? ==> r == fallback
    ensures category.Some? && category.value.name != "" ==> r == category.value.name
  {
    match category
    case None => fallback
    case Some(c) => if c.name == "" then fallback else c.name
  }

  /** `t.notes || ''`. */
  function NotesField(notes: Option<string>): string {
    notes.GetOr("")
  }

  const CsvHeaders: seq<string> := ["Data", "Descrição", "Categoria", "Tipo", "Valor", "Notas"]

  /** `headers.join(';')`. */
  function CsvHeaderLine(): string {
    Join(CsvHeaders, ";")
  }

  /** The six CSV fields of a transaction, in column order. */
  function CsvRow(t: Transaction): seq<string> {
    [DateField(t.date), t.description, CategoryField(t.category, ""), TypeField(t.kind),
     ToFixed2(t.amount), NotesField(t.notes)]
  }

  /** `row.join(';')`. */
  function CsvLine(t: Transaction): string {
    Join(CsvRow(t), ";")
  }

  /** The header line followed by one line per transaction. */
  function CsvLines(ts: seq<Transaction>): (lines: seq<string>)
    ensures |lines| == |ts| + 1
    ensures lines[0] == CsvHeaderLine()
    ensures forall i :: 0 <= i < |ts| ==> lines[i + 1] == CsvLine(ts[i])
  {
    var header := CsvHeaderLine();
    var body := MapSeq(ts, CsvLine);
    assert forall i :: 0 <= i < |ts| ==> ([header] + body)[i + 1] == body[i];
    [header] + body
  }

  /** `exportTransactionsToCSV`'s content: the lines joined by `'\n'`. */
  function CsvContent(ts: seq<Transaction>): string {
    Join(CsvLines(ts), "\n")
  }

  /** The free-text fields of a transaction: the only ones that can hold a
      separator. */
  predicate FreeOf(t: Transaction, c: char) {
    c !in t.description && c !in CategoryField(t.category, "") && c !in NotesField(t.notes)
  }

  /** The header line splits back into the six column names, and holds no
      newline. */
  lemma HeaderFields()
    ensures Split(CsvHeaderLine(), ';') == CsvHeaders
    ensures '\n' !in CsvHeaderLine()
  {
    assert forall i :: 0 <= i < |CsvHeaders| ==> ';' !in CsvHeaders[i] && '\n' !in CsvHeaders[i];
    SplitJoin(CsvHeaders, ';');
    JoinMembers(CsvHeaders, ";", '\n');
  }

  /** A row splits back into its six fields exactly when no free-text field
      holds a `;`: the export does no quoting. */
  lemma CsvRowRoundTrip(t: Transaction)
    ensures FreeOf(t, ';') ==> Split(CsvLine(t), ';') == CsvRow(t)
    ensures !FreeOf(t, ';') ==> |Split(CsvLine(t), ';')| > |CsvHeaders|
  {
    var row := CsvRow(t);
    if FreeOf(t, ';') {
      SplitJoin(row, ';');
    } else if ';' in t.description {
      SplitJoinOnlyIf(row, ';', 1);
    } else if ';' in CategoryField(t.category, "") {
      SplitJoinOnlyIf(row, ';', 2);
    } else {
      SplitJoinOnlyIf(row, ';', 5);
    }
  }

  /** A line holds a newline only when a free-text field does. */
  lemma CsvLineNewlines(t: Transaction)
    ensures '\n' in CsvLine(t) <==> !FreeOf(t, '\n')
  {
    var row := CsvRow(t);
    JoinMembers(row, ";", '\n');
    assert row[0] == DateField(t.date) && row[3] == TypeField(t.kind) && row[4] == ToFixed2(t.amount);
    assert row[1] == t.description && row[2] == CategoryField(t.category, "") && row[5] == NotesField(t.notes);
    if !FreeOf(t, '\n') {
      if '\n' in t.description {
        assert '\n' in row[1];
      } else if '\n' in CategoryField(t.category, "") {
        assert '\n' in row[2];
      } else {
        assert '\n' in row[5];
      }
    }
  }

  /** A character is in a join with a separator free of it exactly when it
      is in one of the parts. */
  lemma {:induction false} JoinMembers(parts: seq<string>, sep: string, c: char)
    requires c !in sep
    ensures c in Join(parts, sep) <==> exists i :: 0 <= i < |parts| && c in parts[i]
  {
    if |parts| > 1 {
      JoinMembers(parts[1..], sep, c);
      if c in parts[0] {
      } else {
        forall i | 1 <= i < |parts| ensures parts[i] == parts[1..][i - 1] {
        }
      }
    }
  }

  /** Splitting the CSV text on newlines gives back its lines (one more
      than there are transactions, the header line first and line `i + 1`
      that of transaction `i`) exactly when no free-text field holds a
      newline; otherwise it gives more lines. */
  lemma CsvContentLines(ts: seq<Transaction>)
    ensures (forall i :: 0 <= i < |ts| ==> FreeOf(ts[i], '\n')) ==>
              Split(CsvContent(ts), '\n') == CsvLines(ts)
    ensures (exists i :: 0 <= i < |ts| && !FreeOf(ts[i], '\n')) ==>
              |Split(CsvContent(ts), '\n')| > |ts| + 1
  {
    if forall i :: 0 <= i < |ts| ==> FreeOf(ts[i], '\n') {
      CsvContentSplitsIntoLines(ts);
    } else {
      var i :| 0 <= i < |ts| && !FreeOf(ts[i], '\n');
      CsvContentExtraLines(ts, i);
    }
  }

  lemma CsvContentSplitsIntoLines(ts: seq<Transaction>)
    requires forall i :: 0 <= i < |ts| ==> FreeOf(ts[i], '\n')
    ensures Split(CsvContent(ts), '\n') == CsvLines(ts)
  {
    var lines := CsvLines(ts);
    HeaderFields();
    forall j | 0 <= j < |lines| ensures '\n' !in lines[j] {
      if j > 0 {
        CsvLineNewlines(ts[j - 1]);
      }
    }
    SplitJoin(lines, '\n');
  }

  lemma CsvContentExtraLines(ts: seq<Transaction>, i: nat)
    requires i < |ts| && !FreeOf(ts[i], '\n')
    ensures |Split(CsvContent(ts), '\n')| > |ts| + 1
  {
    CsvLineNewlines(ts[i]);
    SplitJoinOnlyIf(CsvLines(ts), '\n', i + 1);
  }

  /** The PDF table has at most this many transactions. */
  const PdfRowLimit: nat := 20

  /** The five PDF table cells of a transaction; a missing category shows
      as `-` and the amount carries the currency prefix. */
  function PdfRow(t: Transaction): seq<string> {
    [DateField(t.date), t.description, CategoryField(t.category, "-"), TypeField(t.kind),
     "R$ " + ToFixed2(t.amount)]
  }

  /** `transactions.slice(0, 20).map(...)`: the rows of the first twenty
      transactions, in order. */
  function PdfRows(ts: seq<Transaction>): (rows: seq<seq<string>>)
    ensures |rows| == if |ts| < PdfRowLimit then |ts| else PdfRowLimit
    ensures forall i :: 0 <= i < |rows| ==> rows[i] == PdfRow(ts[i])
  {
    MapSeq(ts[..if |ts| < PdfRowLimit then |ts| else PdfRowLimit], PdfRow)
  }

  /** The PDF table shows the whole list only when it has at most twenty
      transactions, and a transaction appended after the twentieth never
      appears. */
  lemma PdfRowsPrefix(ts: seq<Transaction>, more: seq<Transaction>)
    ensures |PdfRows(ts)| == |ts| <==> |ts| <= PdfRowLimit
    ensures |ts| >= PdfRowLimit ==> PdfRows(ts + more) == PdfRows(ts)
  {
    if |ts| >= PdfRowLimit {
      var a, b := PdfRows(ts + more), PdfRows(ts);
      assert |a| == |b|;
      forall i | 0 <= i < |a| ensures a[i] == b[i] {
        assert (ts + more)[i] == ts[i];
      }
    }
  }

  /** The page-number footer of page `i` of `n`. */
  function Footer(i: nat, n: nat): string {
    "Página " + NatToString(i) + " de " + NatToString(n)
  }

  /** Different pages of one document get different footers: the page
      number can be read back from the footer. */
  lemma FooterNumbersPage(i: nat, j: nat, n: nat)
    ensures Footer(i, n) == Footer(j, n) <==> i == j
  {
    if Footer(i, n) == Footer(j, n) {
      var a, b := NatToString(i), NatToString(j);
      var suffix := " de " + NatToString(n);
      assert Footer(i, n) == "Página " + a + suffix;
      assert Footer(j, n) == "Página " + b + suffix;
      assert |a| == |b|;
      assert a == Footer(i, n)[7..7 + |a|];
      assert b == Footer(j, n)[7..7 + |b|];
      DigitsValueOfNatToString(i);
      DigitsValueOfNatToString(j);
    }
  }

  /** The pages of a PDF document, each a list of the texts drawn on it. */
  class PdfDocument {

    var pages: seq<seq<string>>

    constructor(pages: seq<seq<string>>)
      ensures this.pages == pages
    {
      this.pages := pages;
    }

    /** The footer loop of `exportToPDF`: page `i` of `N` gets the
        generation stamp and "Página i de N"; nothing else changes. */
    method AddFooters(generatedAt: string)
      modifies this
      ensures |pages| == |old(pages)|
      ensures forall i :: 0 <= i < |pages| ==>
                pages[i] == old(pages[i]) + ["Gerado em " + generatedAt, Footer(i + 1, |pages|)]
    {
      var pageCount := |pages|;
      var i := 1;
      while i <= pageCount
        invariant 1 <= i <= pageCount + 1
        invariant |pages| == pageCount
        invariant forall k :: 0 <= k < i - 1 ==>
                    pages[k] == old(pages[k]) + ["Gerado em " + generatedAt, Footer(k + 1, pageCount)]
        invariant forall k :: i - 1 <= k < pageCount ==> pages[k] == old(pages[k])
      {
        pages := pages[i - 1 := pages[i - 1] + ["Gerado em " + generatedAt, Footer(i, pageCount)]];
        i := i + 1;
      }
    }
  }
}
