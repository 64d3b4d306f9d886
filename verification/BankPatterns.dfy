/** The regular expressions of the bank-notification detector, written out
    as scanners over strings.

    Every pattern here is case-insensitive (`/i`): an ASCII letter of the
    pattern matches both cases of that letter, and no other character folds
    onto it. `\s` is `Text.IsSpace`; `.` is anything but a line terminator.

    The scanners are exact for these particular patterns because no
    backtracking choice can change the outcome: each `\s+` inside a phrase
    is followed by a literal letter, so it must swallow the whole white-space
    run; each capture class is followed by a character outside it, so the
    greedy run is the only candidate; and the lazy `.*?` of a rule stops at
    the first place where the rest of the rule matches. */
module BankPatterns {

  import opened Wrappers
  import opened Text

  /** One position of a pattern word: a literal character or `.`. */
  datatype PatChar = Lit(c: char) | Any

  type Word = seq<PatChar>

  /** A pattern word written as text, where `.` stands for any character
      other than a line terminator. */
  function W(s: string): (w: Word)
    ensures |w| == |s|
  {
    seq(|s|, i requires 0 <= i < |s| => if s[i] == '.' then Any else Lit(s[i]))
  }

  /** How one pattern position compares with one subject character. */
  predicate CharMatches(p: PatChar, c: char) {
    match p
    case Lit(l) => FoldAscii(c) == l
    case Any => !IsLineTerminator(c)
  }

  /** The word `w` matches `s` at position `i`. */
  predicate WordAt(s: string, w: Word, i: nat) {
    i + |w| <= |s| && forall k :: 0 <= k < |w| ==> CharMatches(w[k], s[i + k])
  }

  /** The character classes the patterns use. */
  datatype CharClass =
    | Space          // \s
    | AmountChars    // [\d.,]
    | DigitsDots     // [\d.]
    | DigitsCommas   // [\d,]
    | Digits         // \d
    | NameChars      // [a-zá-ú\s] under /i
    | MerchantChars  // [a-z0-9\s*] under /i

  /** Membership, with the `/i` flag applied: `á-ú` then also admits the
      upper-case letters U+00C1-U+00DA except the multiplication sign. */
  predicate InClass(cls: CharClass, c: char) {
    match cls
    case Space => IsSpace(c)
    case AmountChars => IsDigit(c) || c == '.' || c == ','
    case DigitsDots => IsDigit(c) || c == '.'
    case DigitsCommas => IsDigit(c) || c == ','
    case Digits => IsDigit(c)
    case NameChars =>
      IsAsciiLetter(c) || IsSpace(c)
      || ('\U{E1}' <= c <= '\U{FA}') || ('\U{C1}' <= c <= '\U{DA}' && c != '\U{D7}')
    case MerchantChars => IsAsciiLetter(c) || IsDigit(c) || IsSpace(c) || c == '*'
  }

  /** Length of the longest run of class characters starting at `i`: what
      a greedy `cls*` consumes. */
  function Run(s: string, i: nat, cls: CharClass): (n: nat)
    requires i <= |s|
    ensures i + n <= |s|
    ensures forall k {:trigger InClass(cls, s[k])} :: i <= k < i + n ==> InClass(cls, s[k])
    ensures i + n == |s| || !InClass(cls, s[i + n])
    decreases |s| - i
  {
    if i < |s| && InClass(cls, s[i]) then 1 + Run(s, i + 1, cls) else 0
  }

  /** A run of digits is a string of digits. */
  lemma RunDigits(s: string, i: nat)
    requires i <= |s|
    ensures AllDigits(s[i..i + Run(s, i, Digits)])
  {
    var t := s[i..i + Run(s, i, Digits)];
    forall k | 0 <= k < |t| ensures IsDigit(t[k]) {
      assert InClass(Digits, s[i + k]);
    }
  }

  /** A run is determined by where the class stops. */
  lemma {:induction false} RunIs(s: string, i: nat, n: nat, cls: CharClass)
    requires i + n <= |s|
    requires forall k :: i <= k < i + n ==> InClass(cls, s[k])
    requires i + n == |s| || !InClass(cls, s[i + n])
    ensures Run(s, i, cls) == n
    decreases n
  {
    if n > 0 {
      RunIs(s, i + 1, n - 1, cls);
    }
  }

  /** End of a phrase: its words in order, separated by `\s+`. */
  function PhraseEnd(s: string, words: seq<Word>, i: nat): (r: Option<nat>)
    requires i <= |s|
    ensures r.Some? ==> i <= r.value <= |s|
    decreases |words|
  {
    if words == [] then Some(i)
    else if !WordAt(s, words[0], i) then None
    else if |words| == 1 then Some(i + |words[0]|)
    else
      var j := i + |words[0]|;
      var m := Run(s, j, Space);
      if m == 0 then None else PhraseEnd(s, words[1..], j + m)
  }

  /** `r\$` at position `p`. */
  predicate DollarSignAt(s: string, p: nat) {
    p + 2 <= |s| && FoldAscii(s[p]) == 'r' && s[p + 1] == '$'
  }

  /** The tail `r\$\s*([\d.,]+)` of a rule at `p`: where it ends, the amount
      run taken greedily. */
  function MarkEnd(s: string, p: nat): (r: Option<nat>)
    requires p <= |s|
    ensures r.Some? ==> DollarSignAt(s, p) && p + 2 < r.value <= |s|
    ensures DollarSignAt(s, p) ==>
              var q := p + 2 + Run(s, p + 2, Space);
              (r.Some? <==> q < |s| && InClass(AmountChars, s[q]))
  {
    if !DollarSignAt(s, p) then None
    else
      var q := p + 2 + Run(s, p + 2, Space);
      var k := Run(s, q, AmountChars);
      if k == 0 then None else Some(q + k)
  }

  /** The lazy `.*?` followed by the rule's tail, from `p`: the end of the
      tail at the first place it matches, provided no line terminator comes
      before it. */
  function GapFind(s: string, p: nat): (r: Option<nat>)
    requires p <= |s|
    ensures r.Some? <==> exists q :: p <= q <= |s| && MarkEnd(s, q).Some? && NoTerminator(s, p, q)
    decreases |s| - p
  {
    if p == |s| then None
    else if MarkEnd(s, p).Some? then MarkEnd(s, p)
    else if IsLineTerminator(s[p]) then None
    else
      var r := GapFind(s, p + 1);
      assert r.Some? ==> exists q :: p <= q <= |s| && MarkEnd(s, q).Some? && NoTerminator(s, p, q) by {
        if r.Some? {
          var q :| p + 1 <= q <= |s| && MarkEnd(s, q).Some? && NoTerminator(s, p + 1, q);
          assert NoTerminator(s, p, q);
        }
      }
      r
  }

  /** No line terminator in `s[p..q]`. */
  predicate NoTerminator(s: string, p: nat, q: nat)
    requires p <= q <= |s|
  {
    forall k :: p <= k < q ==> !IsLineTerminator(s[k])
  }

  /** A whole rule `head.*?r\$\s*([\d.,]+)` matching at `i`, with its end. */
  function RuleAt(s: string, head: seq<Word>, i: nat): Option<nat> {
    if i > |s| then None
    else match PhraseEnd(s, head, i)
    case None => None
    case Some(e) => GapFind(s, e)
  }

  /** The first `f(i)` with `from <= i <= last` that holds something: how
      a global regular expression looks for its leftmost match. */
  function Leftmost<X>(f: nat -> Option<X>, from: nat, last: nat): Option<X>
    decreases last + 1 - from
  {
    if from > last then None
    else if f(from).Some? then f(from)
    else Leftmost(f, from + 1, last)
  }

  /** The leftmost search finds a witness with nothing before it, and finds
      nothing only when nothing holds in the range. */
  lemma {:induction false} LeftmostSpec<X>(f: nat -> Option<X>, from: nat, last: nat)
    ensures var r := Leftmost(f, from, last);
            && (r.Some? ==> exists i :: from <= i <= last && f(i) == r && forall j :: from <= j < i ==> f(j).None?)
            && (r.None? <==> forall i :: from <= i <= last ==> f(i).None?)
    decreases last + 1 - from
  {
    if from <= last && f(from).None? {
      LeftmostSpec(f, from + 1, last);
      assert forall i :: from <= i <= last && f(i).Some? ==> from + 1 <= i;
    }
  }

  /** The first match wins: when nothing holds before `i` and something
      holds at `i`, that is the result. */
  lemma {:induction false} LeftmostAt<X>(f: nat -> Option<X>, from: nat, last: nat, i: nat)
    requires from <= i <= last
    requires forall j :: from <= j < i ==> f(j).None?
    requires f(i).Some?
    ensures Leftmost(f, from, last) == f(i)
    decreases i - from
  {
    if from < i {
      LeftmostAt(f, from + 1, last, i);
    }
  }

  /** `pattern.test` from `lastIndex` `from`: the end of the leftmost match
      that starts at or after `from`. */
  function RuleSearch(s: string, head: seq<Word>, from: nat): (r: Option<nat>)
  {
    Leftmost((i: nat) => RuleAt(s, head, i), from, |s|)
  }

  /** A rule search succeeds exactly when the rule matches at some start at
      or after `from`, and it reports the end of the leftmost such match. */
  lemma RuleSearchSpec(s: string, head: seq<Word>, from: nat)
    ensures RuleSearch(s, head, from).Some? <==> exists i :: from <= i <= |s| && RuleAt(s, head, i).Some?
  {
    var f := (i: nat) => RuleAt(s, head, i);
    assert forall i :: f(i) == RuleAt(s, head, i);
    LeftmostSpec(f, from, |s|);
    var r := Leftmost(f, from, |s|);
    if r.Some? {
      var i :| from <= i <= |s| && f(i) == r;
      assert RuleAt(s, head, i).Some?;
    }
  }

  /** Where the tail that ends the lazy gap starts. */
  function GapStart(s: string, p: nat): (q: nat)
    requires p <= |s| && GapFind(s, p).Some?
    ensures p <= q <= |s| && MarkEnd(s, q) == GapFind(s, p)
    decreases |s| - p
  {
    if MarkEnd(s, p).Some? then p else GapStart(s, p + 1)
  }

  /** A rule match starting at `i` passes an `r$` at or after `i` and ends
      beyond it. */
  lemma RuleAtDollar(s: string, head: seq<Word>, i: nat)
    requires RuleAt(s, head, i).Some?
    ensures exists q :: i <= q && q + 2 < RuleAt(s, head, i).value && DollarSignAt(s, q)
  {
    var e :| PhraseEnd(s, head, i) == Some(e);
    var q := GapStart(s, e);
  }

  /** The match a search from `from` finds ends beyond an `r$` lying at or
      after `from`. */
  lemma RuleSearchDollar(s: string, head: seq<Word>, from: nat)
    requires RuleSearch(s, head, from).Some?
    ensures exists q :: from <= q && q + 2 < RuleSearch(s, head, from).value && DollarSignAt(s, q)
  {
    var f := (i: nat) => RuleAt(s, head, i);
    LeftmostSpec(f, from, |s|);
    var i :| from <= i <= |s| && f(i) == RuleSearch(s, head, from);
    RuleAtDollar(s, head, i);
  }

  /** A search from `from` finds nothing when no `$` lies beyond `from`. */
  lemma RuleSearchNoDollar(s: string, head: seq<Word>, from: nat)
    requires forall k :: from < k < |s| ==> s[k] != '$'
    ensures RuleSearch(s, head, from) == None
  {
    if RuleSearch(s, head, from).Some? {
      RuleSearchDollar(s, head, from);
      assert false;
    }
  }

  /** `pattern.test(s)` on a pattern whose `lastIndex` is 0. */
  predicate RuleMatches(s: string, head: seq<Word>) {
    RuleSearch(s, head, 0).Some?
  }

  /** The capturing patterns of the extractors. */
  datatype Pattern =
      /** `r\$\s*(cls+ sep \d{2})`. */
    | AmountPat(cls: CharClass, sep: char)
      /** `phrase \s{min,}(cls+)` where `min` is 0 for `\s*`, 1 for `\s+`. */
    | NamePat(words: seq<Word>, minSpaces: nat, name: CharClass)

  /** The capture of `pat` when matching at `i`, if it matches there. */
  function CaptureAt(s: string, pat: Pattern, i: nat): (r: Option<string>)
    ensures r.Some? ==> r.value != [] && i <= |s|
  {
    match pat
    case AmountPat(cls, sep) => AmountCapture(s, cls, sep, i)
    case NamePat(words, minSpaces, name) => NameCapture(s, words, minSpaces, name, i)
  }

  /** `r\$\s*(cls+ sep \d{2})` at `i`. */
  function AmountCapture(s: string, cls: CharClass, sep: char, i: nat): (r: Option<string>)
    ensures r.Some? ==> r.value != [] && i <= |s|
  {
    if i > |s| || !DollarSignAt(s, i) then None
    else
      var q := i + 2 + Run(s, i + 2, Space);
      var k := q + Run(s, q, cls);
      if k > q && k + 2 < |s| && s[k] == sep && IsDigit(s[k + 1]) && IsDigit(s[k + 2])
      then Some(s[q..k + 3]) else None
  }

  /** `phrase \s{min,}(cls+)` at `i`: with fewer class characters than the
      greedy `\s` run leaves, the engine backtracks one space into the
      group. */
  function NameCapture(s: string, words: seq<Word>, minSpaces: nat, name: CharClass, i: nat): (r: Option<string>)
    ensures r.Some? ==> r.value != [] && i <= |s|
  {
    if i > |s| then None
    else match PhraseEnd(s, words, i)
    case None => None
    case Some(e) =>
      var m := Run(s, e, Space);
      var c := e + m;
      if m >= minSpaces && c < |s| && InClass(name, s[c]) then Some(s[c..c + Run(s, c, name)])
      else if m >= minSpaces + 1 then Some(s[c - 1..c])
      else None
  }

  /** `pat.exec(s)` on a fresh pattern: the capture of the leftmost match. */
  function Exec(s: string, pat: Pattern): Option<string> {
    Leftmost((i: nat) => CaptureAt(s, pat, i), 0, |s|)
  }

  /** The first match wins. */
  lemma ExecAt(s: string, pat: Pattern, i: nat)
    requires i <= |s|
    requires forall j :: 0 <= j < i ==> CaptureAt(s, pat, j).None?
    requires CaptureAt(s, pat, i).Some?
    ensures Exec(s, pat) == CaptureAt(s, pat, i)
  {
    LeftmostAt((i: nat) => CaptureAt(s, pat, i), 0, |s|, i);
  }

  /** An amount pattern whose only `r$` candidates lie at `i` or later
      takes its leftmost capture at `i` when there is one. */
  lemma ExecFirstDollar(s: string, pat: Pattern, i: nat)
    requires pat.AmountPat? && i <= |s|
    requires forall j :: 0 <= j < i ==> !DollarSignAt(s, j)
    requires CaptureAt(s, pat, i).Some?
    ensures Exec(s, pat) == CaptureAt(s, pat, i)
  {
    forall j | 0 <= j < i ensures CaptureAt(s, pat, j).None? {
      assert !DollarSignAt(s, j);
    }
    ExecAt(s, pat, i);
  }

  /** `s.replace(/\./g, '')`. */
  function RemoveDots(s: string): (r: string)
    ensures '.' !in r && |r| <= |s|
  {
    if s == [] then []
    else if s[0] == '.' then RemoveDots(s[1..])
    else [s[0]] + RemoveDots(s[1..])
  }

  /** The number written with digits and `.` thousands separators. */
  function GroupedValue(s: string): nat
    requires forall k :: 0 <= k < |s| ==> IsDigit(s[k]) || s[k] == '.'
  {
    RemoveDotsDigits(s);
    DigitsValue(RemoveDots(s))
  }

  /** Removing the dots from digits and dots leaves digits only. */
  lemma {:induction false} RemoveDotsDigits(s: string)
    requires forall k :: 0 <= k < |s| ==> IsDigit(s[k]) || s[k] == '.'
    ensures AllDigits(RemoveDots(s))
  {
    if s != [] {
      RemoveDotsDigits(s[1..]);
    }
  }

  /** A text without dots is left as it is. */
  lemma {:induction false} RemoveDotsNoDot(s: string)
    requires '.' !in s
    ensures RemoveDots(s) == s
  {
    if s != [] {
      assert s[0] != '.';
      assert '.' !in s[1..] by {
        forall k | 0 <= k < |s[1..]| ensures s[1..][k] != '.' {
          assert s[1..][k] == s[k + 1];
        }
      }
      RemoveDotsNoDot(s[1..]);
    }
  }

  lemma {:induction false} RemoveDotsAppend(a: string, b: string)
    ensures RemoveDots(a + b) == RemoveDots(a) + RemoveDots(b)
  {
    if a != [] {
      assert (a + b)[1..] == a[1..] + b;
      RemoveDotsAppend(a[1..], b);
    } else {
      assert a + b == b;
    }
  }

  /** `s.replace(',', '.')`: only the first comma. */
  function ReplaceFirstComma(s: string): (r: string)
    ensures |r| == |s|
    ensures ',' !in s ==> r == s
  {
    if s == [] then []
    else if s[0] == ',' then ['.'] + s[1..]
    else [s[0]] + ReplaceFirstComma(s[1..])
  }

  lemma {:induction false} ReplaceFirstCommaAppend(a: string, b: string)
    requires ',' !in a
    ensures ReplaceFirstComma(a + b) == a + ReplaceFirstComma(b)
  {
    if a != [] {
      assert (a + b)[1..] == a[1..] + b;
      ReplaceFirstCommaAppend(a[1..], b);
    } else {
      assert a + b == b;
    }
  }

  /** The separator normalisation of `extractAmount`: with a comma present,
      the dots are thousands separators and the first comma is the decimal
      point. */
  function Normalize(cap: string): (r: string)
    ensures ',' !in cap ==> r == cap
  {
    if ',' in cap then ReplaceFirstComma(RemoveDots(cap)) else cap
  }

  /** `parseFloat` on a string of digits, dots and commas: the longest
      prefix of the form `digits[.digits]`, with no number (`NaN`) when that
      prefix has no digit. */
  function ParseDecimal(s: string): Option<real> {
    match DecimalSplit(s)
    case None => None
    case Some((whole, frac)) => Some(DecimalValue(whole, frac))
  }

  /** `parseFloat` gives `NaN` exactly when no digit starts the text, not
      even after a leading `.`, and never a negative number here. */
  lemma ParseDecimalShows(s: string)
    ensures ParseDecimal(s).Some? ==> ParseDecimal(s).value >= 0.0
    ensures ParseDecimal(s).None? <==> Run(s, 0, Digits) == 0 && (|s| < 2 || s[0] != '.' || !IsDigit(s[1]))
  {
  }

  /** The whole and fractional digits of that prefix. */
  function DecimalSplit(s: string): (r: Option<(string, string)>)
    ensures r.Some? ==> AllDigits(r.value.0) && AllDigits(r.value.1)
    ensures r.None? <==> Run(s, 0, Digits) == 0 && (|s| < 2 || s[0] != '.' || !IsDigit(s[1]))
  {
    var a := Run(s, 0, Digits);
    RunDigits(s, 0);
    assert s[..a] == s[0..a];
    if a < |s| && s[a] == '.' then
      var b := Run(s, a + 1, Digits);
      RunDigits(s, a + 1);
      if a == 0 && b == 0 then None
      else Some((s[..a], s[a + 1..a + 1 + b]))
    else if a == 0 then None
    else Some((s[..a], ""))
  }

  /** The number written `whole.frac` in decimal. */
  function DecimalValue(whole: string, frac: string): (v: real)
    requires AllDigits(whole) && AllDigits(frac)
    ensures v >= 0.0
  {
    DigitsValue(whole) as real + DigitsValue(frac) as real / Pow10(|frac|) as real
  }

  /** The amount sub-patterns, in the order they are tried. */
  const AmountPatterns: seq<Pattern> := [
    AmountPat(DigitsDots, ','),    // R$ 1.234,56
    AmountPat(DigitsCommas, '.'),  // R$ 1,234.56
    AmountPat(Digits, ','),        // R$ 123,45
    AmountPat(Digits, '.')         // R$ 123.45
  ]

  /** The loop of `extractAmount` from the `k`-th pattern on: each pattern
      offers its leftmost capture only, and an unparsable or non-positive
      reading passes on to the next pattern. */
  function TryAmounts(s: string, k: nat): (r: Option<real>)
    requires k <= |AmountPatterns|
    ensures r.Some? ==> r.value > 0.0
    decreases |AmountPatterns| - k
  {
    if k == |AmountPatterns| then None
    else
      match Exec(s, AmountPatterns[k])
      case Some(cap) =>
        var v := ParseDecimal(Normalize(cap));
        if v.Some? && v.value > 0.0 then v else TryAmounts(s, k + 1)
      case None => TryAmounts(s, k + 1)
  }

  /** `extractAmount`: a strictly positive amount, or none. */
  function ExtractAmount(s: string): (r: Option<real>)
    ensures r.Some? ==> r.value > 0.0
  {
    TryAmounts(s, 0)
  }

  /** The loop of the name extractors: the trimmed capture of the first
      pattern that matches anywhere, even when trimming leaves nothing. */
  function ExtractName(s: string, pats: seq<Pattern>): (r: Option<string>)
    ensures r.None? <==> forall k :: 0 <= k < |pats| ==> Exec(s, pats[k]).None?
  {
    if pats == [] then None
    else
      match Exec(s, pats[0])
      case Some(cap) => Some(Trim(cap))
      case None =>
        var r := ExtractName(s, pats[1..]);
        assert forall k :: 1 <= k < |pats| ==> pats[k] == pats[1..][k - 1];
        r
  }

  /** `extractSenderFromPix`: `recebido\s+de\s+(...)`, then `de:\s*(...)`. */
  const SenderPatterns: seq<Pattern> := [
    NamePat([W("recebido"), W("de")], 1, NameChars),
    NamePat([W("de:")], 0, NameChars)
  ]

  /** `extractRecipientFromPix`: `para\s+(...)`, then `para:\s*(...)`. */
  const RecipientPatterns: seq<Pattern> := [
    NamePat([W("para")], 1, NameChars),
    NamePat([W("para:")], 0, NameChars)
  ]

  /** `extractMerchantName`: `aprovada\s+em\s+(...)`, then
      `no\s+d.bito\s+em\s+(...)`. */
  const MerchantPatterns: seq<Pattern> := [
    NamePat([W("aprovada"), W("em")], 1, MerchantChars),
    NamePat([W("no"), W("d.bito"), W("em")], 1, MerchantChars)
  ]

  /** Without a `$` sign no rule can match. */
  lemma NoDollarNoRule(s: string, head: seq<Word>)
    requires '$' !in s
    ensures !RuleMatches(s, head)
  {
    RuleSearchSpec(s, head, 0);
  }

  /** Without a `$` sign no amount is extracted. */
  lemma NoDollarNoAmount(s: string)
    requires '$' !in s
    ensures ExtractAmount(s) == None
  {
    forall k | 0 <= k < |AmountPatterns| ensures Exec(s, AmountPatterns[k]) == None {
      ExecNeedsDollar(s, AmountPatterns[k]);
    }
    TryAmountsNone(s, 0);
  }

  lemma ExecNeedsDollar(s: string, pat: Pattern)
    requires pat.AmountPat? && '$' !in s
    ensures Exec(s, pat) == None
  {
    var f := (i: nat) => CaptureAt(s, pat, i);
    forall i: nat ensures f(i).None? {
      if i + 2 <= |s| {
        assert s[i + 1] in s;
      }
    }
    LeftmostSpec(f, 0, |s|);
  }

  lemma {:induction false} TryAmountsNone(s: string, k: nat)
    requires k <= |AmountPatterns|
    requires forall j :: k <= j < |AmountPatterns| ==> Exec(s, AmountPatterns[j]) == None
    ensures TryAmounts(s, k) == None
    decreases |AmountPatterns| - k
  {
    if k < |AmountPatterns| {
      TryAmountsNone(s, k + 1);
    }
  }

  /** The capture of an amount pattern at `i` when the text there is laid
      out as `r$`, `w` spaces, `n` class characters, the separator and two
      digits. */
  lemma AmountCaptureLayout(s: string, i: nat, w: nat, n: nat, cls: CharClass, sep: char)
    requires DollarSignAt(s, i)
    requires i + 2 + w + n + 3 <= |s|
    requires forall k :: i + 2 <= k < i + 2 + w ==> IsSpace(s[k])
    requires n > 0 && !IsSpace(s[i + 2 + w])
    requires forall k :: i + 2 + w <= k < i + 2 + w + n ==> InClass(cls, s[k])
    requires !InClass(cls, s[i + 2 + w + n])
    requires s[i + 2 + w + n] == sep && IsDigit(s[i + 2 + w + n + 1]) && IsDigit(s[i + 2 + w + n + 2])
    ensures CaptureAt(s, AmountPat(cls, sep), i) == Some(s[i + 2 + w..i + 2 + w + n + 3])
  {
    SpaceRun(s, i + 2, w);
    RunIs(s, i + 2 + w, n, cls);
    AmountCaptureOfRuns(s, i, w, n, cls, sep);
  }

  /** `w` spaces and then no space make a white-space run of `w`. */
  lemma SpaceRun(s: string, i: nat, w: nat)
    requires i + w < |s|
    requires forall k :: i <= k < i + w ==> IsSpace(s[k])
    requires !IsSpace(s[i + w])
    ensures Run(s, i, Space) == w
  {
    forall k | i <= k < i + w ensures InClass(Space, s[k]) {
      assert IsSpace(s[k]);
    }
    RunIs(s, i, w, Space);
  }

  /** The amount capture at an `r$` is decided by the two runs after it. */
  lemma AmountCaptureOfRuns(s: string, i: nat, w: nat, n: nat, cls: CharClass, sep: char)
    requires DollarSignAt(s, i) && i + 2 + w + n + 3 <= |s|
    requires Run(s, i + 2, Space) == w && Run(s, i + 2 + w, cls) == n && n > 0
    requires s[i + 2 + w + n] == sep && IsDigit(s[i + 2 + w + n + 1]) && IsDigit(s[i + 2 + w + n + 2])
    ensures CaptureAt(s, AmountPat(cls, sep), i) == Some(s[i + 2 + w..i + 2 + w + n + 3])
  {
  }

  /** `parseFloat` reads `digits.d1d2` as the number it denotes. */
  lemma ParseTwoDecimals(digits: string, d1: char, d2: char)
    requires AllDigits(digits) && IsDigit(d1) && IsDigit(d2)
    ensures ParseDecimal(digits + ['.', d1, d2])
            == Some(DigitsValue(digits) as real + (10 * DigitValue(d1) + DigitValue(d2)) as real / 100.0)
  {
    DotThenPair(digits, d1, d2);
    TwoDigitsValue(d1, d2);
    ParseDecimalOf(digits, [d1, d2]);
    DecimalTwo(digits, d1, d2);
  }

  lemma DotThenPair(digits: string, d1: char, d2: char)
    ensures digits + ['.', d1, d2] == digits + ['.'] + [d1, d2]
  {
  }

  /** `parseFloat` reads `whole.frac` as the number it denotes. */
  lemma ParseDecimalOf(whole: string, frac: string)
    requires AllDigits(whole) && AllDigits(frac) && frac != []
    ensures ParseDecimal(whole + ['.'] + frac) == Some(DecimalValue(whole, frac))
  {
    var t := whole + ['.'] + frac;
    var a := |whole|;
    var b := |frac|;
    assert Run(t, 0, Digits) == a by {
      forall k | 0 <= k < a ensures InClass(Digits, t[k]) {
        assert t[k] == whole[k];
      }
      RunIs(t, 0, a, Digits);
    }
    assert Run(t, a + 1, Digits) == b by {
      forall k | a + 1 <= k < a + 1 + b ensures InClass(Digits, t[k]) {
        assert t[k] == frac[k - a - 1];
      }
      RunIs(t, a + 1, b, Digits);
    }
    assert t[a] == '.';
    ParseDecimalLayout(t, a, b);
    assert t[..a] == whole;
    assert t[a + 1..a + 1 + b] == frac;
    assert DecimalSplit(t) == Some((whole, frac));
  }

  lemma DecimalTwo(digits: string, d1: char, d2: char)
    requires AllDigits(digits) && IsDigit(d1) && IsDigit(d2)
    ensures AllDigits([d1, d2])
    ensures DecimalValue(digits, [d1, d2])
            == DigitsValue(digits) as real + (10 * DigitValue(d1) + DigitValue(d2)) as real / 100.0
  {
    TwoDigitsValue(d1, d2);
    assert Pow10(|[d1, d2]|) == 100;
  }

  lemma ParseDecimalLayout(t: string, a: nat, b: nat)
    requires a < |t| && Run(t, 0, Digits) == a && t[a] == '.'
    requires Run(t, a + 1, Digits) == b && b > 0
    ensures DecimalSplit(t) == Some((t[..a], t[a + 1..a + 1 + b]))
  {
  }

  lemma TwoDigitsValue(d1: char, d2: char)
    requires IsDigit(d1) && IsDigit(d2)
    ensures AllDigits([d1, d2]) && DigitsValue([d1, d2]) == 10 * DigitValue(d1) + DigitValue(d2)
  {
    var one, two := [d1], [d1, d2];
    assert one[..0] == [] && two[..1] == one;
    assert DigitsValue(one) == 10 * DigitsValue(one[..0]) + DigitValue(one[0]);
    assert DigitsValue(two) == 10 * DigitsValue(two[..1]) + DigitValue(two[1]);
  }

  /** No position before `p` starts `r$` when no `$` occurs in `s[1..p+1]`. */
  lemma NoDollarSignBefore(s: string, p: nat)
    requires p < |s|
    requires forall k :: 0 < k <= p ==> s[k] != '$'
    ensures forall j :: 0 <= j < p ==> !DollarSignAt(s, j)
  {
  }

  /** The first pattern, from `k` on, whose leftmost capture reads as a
      positive number decides the amount. */
  lemma TryAmountsHit(s: string, k: nat, cap: string, v: real)
    requires k < |AmountPatterns|
    requires Exec(s, AmountPatterns[k]) == Some(cap)
    requires ParseDecimal(Normalize(cap)) == Some(v) && v > 0.0
    ensures TryAmounts(s, k) == Some(v)
  {
  }

  /** `digits.digits,d1d2` normalises to `digits.d1d2` with the thousands
      separators removed. */
  lemma CommaNormalize(intPart: string, d1: char, d2: char)
    requires forall k :: 0 <= k < |intPart| ==> IsDigit(intPart[k]) || intPart[k] == '.'
    requires IsDigit(d1) && IsDigit(d2)
    ensures AllDigits(RemoveDots(intPart))
    ensures Normalize(intPart + [',', d1, d2]) == RemoveDots(intPart) + ['.', d1, d2]
  {
    var cap := intPart + [',', d1, d2];
    var D := RemoveDots(intPart);
    RemoveDotsTail(intPart, d1, d2);
    DotlessComma(D, d1, d2);
    assert cap[|intPart|] == ',';
  }

  /** `intPart,d1d2` reads as the number it denotes. */
  lemma CommaParse(intPart: string, d1: char, d2: char)
    requires forall k :: 0 <= k < |intPart| ==> IsDigit(intPart[k]) || intPart[k] == '.'
    requires IsDigit(d1) && IsDigit(d2)
    ensures ParseDecimal(Normalize(intPart + [',', d1, d2]))
            == Some(GroupedValue(intPart) as real + (10 * DigitValue(d1) + DigitValue(d2)) as real / 100.0)
  {
    var cap := intPart + [',', d1, d2];
    var D := RemoveDots(intPart);
    GroupedValueIs(intPart);
    CommaNormalize(intPart, d1, d2);
    ParseTwoDecimals(D, d1, d2);
    ParseOfNormalized(cap, D + ['.', d1, d2], GroupedValue(intPart) as real, DigitsValue(D) as real,
                      (10 * DigitValue(d1) + DigitValue(d2)) as real / 100.0);
  }

  /** A capture reads as what its normalised text reads as. */
  lemma ParseOfNormalized(cap: string, n: string, a: real, b: real, cents: real)
    requires Normalize(cap) == n && ParseDecimal(n) == Some(b + cents) && a == b
    ensures ParseDecimal(Normalize(cap)) == Some(a + cents)
  {
  }

  lemma GroupedValueIs(s: string)
    requires forall k :: 0 <= k < |s| ==> IsDigit(s[k]) || s[k] == '.'
    ensures AllDigits(RemoveDots(s)) && GroupedValue(s) as real == DigitsValue(RemoveDots(s)) as real
  {
    RemoveDotsDigits(s);
  }

  lemma RemoveDotsTail(intPart: string, d1: char, d2: char)
    requires forall k :: 0 <= k < |intPart| ==> IsDigit(intPart[k]) || intPart[k] == '.'
    requires IsDigit(d1) && IsDigit(d2)
    ensures AllDigits(RemoveDots(intPart))
    ensures RemoveDots(intPart + [',', d1, d2]) == RemoveDots(intPart) + [',', d1, d2]
  {
    RemoveDotsDigits(intPart);
    RemoveDotsNoDot([',', d1, d2]);
    RemoveDotsAppend(intPart, [',', d1, d2]);
  }

  lemma DotlessComma(D: string, d1: char, d2: char)
    requires AllDigits(D)
    ensures ReplaceFirstComma(D + [',', d1, d2]) == D + ['.', d1, d2]
  {
    assert ',' !in D;
    ReplaceFirstCommaAppend(D, [',', d1, d2]);
  }

  /** The leftmost capture of an amount pattern whose first `r$` is at
      `i`, followed by `w` spaces, `n` class characters, the separator and
      two digits. */
  lemma AmountExecLayout(s: string, i: nat, w: nat, n: nat, cls: CharClass, sep: char)
    requires forall j :: 0 <= j < i ==> !DollarSignAt(s, j)
    requires DollarSignAt(s, i)
    requires i + 2 + w + n + 3 <= |s|
    requires forall k :: i + 2 <= k < i + 2 + w ==> IsSpace(s[k])
    requires n > 0 && !IsSpace(s[i + 2 + w])
    requires forall k :: i + 2 + w <= k < i + 2 + w + n ==> InClass(cls, s[k])
    requires !InClass(cls, s[i + 2 + w + n])
    requires s[i + 2 + w + n] == sep && IsDigit(s[i + 2 + w + n + 1]) && IsDigit(s[i + 2 + w + n + 2])
    ensures Exec(s, AmountPat(cls, sep)) == Some(s[i + 2 + w..i + 2 + w + n + 3])
  {
    AmountCaptureLayout(s, i, w, n, cls, sep);
    ExecFirstDollar(s, AmountPat(cls, sep), i);
  }

  /** The layout the comma pattern reads: the first `r$` at `P`, then `w`
      spaces, `n` digits or dots, a comma and two digits. */
  predicate CommaLayout(s: string, P: nat, w: nat, n: nat) {
    && P + 2 + w + n + 3 <= |s|
    && (forall k :: 0 < k <= P ==> s[k] != '$')
    && s[P] == 'r' && s[P + 1] == '$'
    && (forall k :: P + 2 <= k < P + 2 + w ==> IsSpace(s[k]))
    && n > 0 && (forall k :: P + 2 + w <= k < P + 2 + w + n ==> IsDigit(s[k]) || s[k] == '.')
    && s[P + 2 + w + n] == ',' && IsDigit(s[P + 2 + w + n + 1]) && IsDigit(s[P + 2 + w + n + 2])
  }

  lemma CommaExecAt(s: string, P: nat, w: nat, n: nat)
    requires CommaLayout(s, P, w, n)
    ensures Exec(s, AmountPatterns[0]) == Some(s[P + 2 + w..P + 2 + w + n + 3])
  {
    NoDollarSignBefore(s, P);
    AmountExecLayout(s, P, w, n, DigitsDots, ',');
  }

  /** The amount read from a text with the comma layout, given the number
      its capture denotes. */
  lemma CommaAmountAt(s: string, P: nat, w: nat, intPart: string, d1: char, d2: char)
    requires CommaLayout(s, P, w, |intPart|)
    requires s[P + 2 + w..P + 2 + w + |intPart| + 3] == intPart + [',', d1, d2]
    requires forall k :: 0 <= k < |intPart| ==> IsDigit(intPart[k]) || intPart[k] == '.'
    requires IsDigit(d1) && IsDigit(d2)
    requires GroupedValue(intPart) > 0 || DigitValue(d1) > 0 || DigitValue(d2) > 0
    ensures ExtractAmount(s)
            == Some(GroupedValue(intPart) as real + (10 * DigitValue(d1) + DigitValue(d2)) as real / 100.0)
  {
    var cap := intPart + [',', d1, d2];
    var v := GroupedValue(intPart) as real + (10 * DigitValue(d1) + DigitValue(d2)) as real / 100.0;
    CommaParse(intPart, d1, d2);
    assert v > 0.0;
    CommaExecAt(s, P, w, |intPart|);
    TryAmountsHit(s, 0, cap, v);
  }

  /** `prefix r$ ws intPart,d1d2 rest` with no `$` in `prefix` has the
      comma layout, and the capture it delimits is `intPart,d1d2`. */
  lemma CommaLayoutOf(prefix: string, ws: string, intPart: string, d1: char, d2: char, rest: string)
    requires '$' !in prefix
    requires forall k :: 0 <= k < |ws| ==> IsSpace(ws[k])
    requires intPart != [] && forall k :: 0 <= k < |intPart| ==> IsDigit(intPart[k]) || intPart[k] == '.'
    requires IsDigit(d1) && IsDigit(d2)
    ensures var s := prefix + "r$" + ws + intPart + [',', d1, d2] + rest;
            var q := |prefix| + 2 + |ws|;
            && CommaLayout(s, |prefix|, |ws|, |intPart|)
            && s[q..q + |intPart| + 3] == intPart + [',', d1, d2]
  {
    var s := prefix + "r$" + ws + intPart + [',', d1, d2] + rest;
    var P := |prefix|;
    var w := |ws|;
    var n := |intPart|;
    var q := P + 2 + w;
    assert forall k :: 0 < k <= P ==> s[k] != '$' by {
      forall k | 0 < k <= P ensures s[k] != '$' {
        if k < P { assert s[k] == prefix[k]; }
      }
    }
    assert forall k :: P + 2 <= k < q ==> IsSpace(s[k]) by {
      forall k | P + 2 <= k < q ensures IsSpace(s[k]) {
        assert s[k] == ws[k - P - 2];
      }
    }
    assert forall k :: q <= k < q + n ==> IsDigit(s[k]) || s[k] == '.' by {
      forall k | q <= k < q + n ensures IsDigit(s[k]) || s[k] == '.' {
        assert s[k] == intPart[k - q];
      }
    }
    assert s[P] == 'r' && s[P + 1] == '$';
    assert s[q + n] == ',' && s[q + n + 1] == d1 && s[q + n + 2] == d2;
    assert s[q..q + n + 3] == intPart + [',', d1, d2];
  }

  /** Round trip for the Brazilian format: after a text with no `$`, the
      amount written as `r$`, white space, digits with optional `.`
      thousands separators, a comma and two decimals is read back as the
      number it denotes, whatever follows. */
  lemma {:induction false} AmountCommaRoundTrip(prefix: string, ws: string, intPart: string, d1: char, d2: char, rest: string)
    requires '$' !in prefix
    requires forall k :: 0 <= k < |ws| ==> IsSpace(ws[k])
    requires intPart != [] && forall k :: 0 <= k < |intPart| ==> IsDigit(intPart[k]) || intPart[k] == '.'
    requires IsDigit(d1) && IsDigit(d2)
    requires GroupedValue(intPart) > 0 || DigitValue(d1) > 0 || DigitValue(d2) > 0
    ensures ExtractAmount(prefix + "r$" + ws + intPart + [',', d1, d2] + rest)
            == Some(GroupedValue(intPart) as real + (10 * DigitValue(d1) + DigitValue(d2)) as real / 100.0)
  {
    var s := prefix + "r$" + ws + intPart + [',', d1, d2] + rest;
    CommaLayoutOf(prefix, ws, intPart, d1, d2, rest);
    CommaAmountAt(s, |prefix|, |ws|, intPart, d1, d2);
  }

  /** The layout the dot format is read from: `r$` at `P` and nowhere
      else, then `w` spaces, `n` digits, a dot, two digits, and no further
      digit, dot or comma. */
  predicate DotLayout(s: string, P: nat, w: nat, n: nat) {
    && P + 2 + w + n + 3 <= |s|
    && (forall k :: 0 < k < |s| && k != P + 1 ==> s[k] != '$')
    && s[P] == 'r' && s[P + 1] == '$'
    && (forall k :: P + 2 <= k < P + 2 + w ==> IsSpace(s[k]))
    && n > 0 && (forall k :: P + 2 + w <= k < P + 2 + w + n ==> IsDigit(s[k]))
    && s[P + 2 + w + n] == '.' && IsDigit(s[P + 2 + w + n + 1]) && IsDigit(s[P + 2 + w + n + 2])
    && (P + 2 + w + n + 3 == |s| || !InClass(AmountChars, s[P + 2 + w + n + 3]))
  }

  /** In the dot layout the `[\d.]+,` pattern finds nothing: at the only
      `r$` its run swallows the decimals and no comma follows. */
  lemma DotLayoutNoComma(s: string, P: nat, w: nat, n: nat)
    requires DotLayout(s, P, w, n)
    ensures Exec(s, AmountPatterns[0]) == None
  {
    var pat := AmountPatterns[0];
    var f := (i: nat) => CaptureAt(s, pat, i);
    forall i: nat ensures f(i).None? {
      if i == P {
        DotCommaAtSign(s, P, w, n);
      } else {
        assert !DollarSignAt(s, i) by {
          if i + 2 <= |s| { assert s[i + 1] != '$'; }
        }
        NoSignNoCapture(s, pat, i);
      }
    }
    LeftmostSpec(f, 0, |s|);
  }

  /** An amount pattern captures nothing where no `r$` starts. */
  lemma NoSignNoCapture(s: string, pat: Pattern, i: nat)
    requires pat.AmountPat? && !DollarSignAt(s, i)
    ensures CaptureAt(s, pat, i) == None
  {
  }

  /** At the `r$` of the dot layout the `[\d.]+` run ends where no comma
      follows. */
  lemma DotCommaAtSign(s: string, P: nat, w: nat, n: nat)
    requires DotLayout(s, P, w, n)
    ensures CaptureAt(s, AmountPatterns[0], P) == None
  {
    var q := P + 2 + w;
    var k := q + n + 3;
    assert AmountPatterns[0] == AmountPat(DigitsDots, ',');
    SpaceRun(s, P + 2, w);
    DigitsDotsRun(s, q, n);
    assert k + 2 >= |s| || s[k] != ',' by {
      if k < |s| {
        assert !InClass(AmountChars, s[k]);
      }
    }
    NoSeparatorNoCapture(s, P, w, n + 3, DigitsDots, ',');
  }

  /** An amount pattern captures nothing at an `r$` whose class run is not
      followed by the separator and two more characters. */
  lemma NoSeparatorNoCapture(s: string, i: nat, w: nat, m: nat, cls: CharClass, sep: char)
    requires i + 2 <= |s|
    requires Run(s, i + 2, Space) == w && Run(s, i + 2 + w, cls) == m
    requires i + 2 + w + m + 2 >= |s| || s[i + 2 + w + m] != sep
    ensures CaptureAt(s, AmountPat(cls, sep), i) == None
  {
  }

  /** In the dot layout the `[\d.]` run swallows the digits, the dot and
      the decimals. */
  lemma DigitsDotsRun(s: string, q: nat, n: nat)
    requires q + n + 3 <= |s|
    requires forall k :: q <= k < q + n ==> IsDigit(s[k])
    requires s[q + n] == '.' && IsDigit(s[q + n + 1]) && IsDigit(s[q + n + 2])
    requires q + n + 3 == |s| || !InClass(AmountChars, s[q + n + 3])
    ensures Run(s, q, DigitsDots) == n + 3
  {
    forall k | q <= k < q + n + 3 ensures InClass(DigitsDots, s[k]) {
      if k < q + n { assert IsDigit(s[k]); }
    }
    RunIs(s, q, n + 3, DigitsDots);
  }

  /** `digits.d1d2` needs no normalisation and reads as the number it
      denotes. */
  lemma DotParse(digits: string, d1: char, d2: char)
    requires AllDigits(digits) && IsDigit(d1) && IsDigit(d2)
    ensures ParseDecimal(Normalize(digits + ['.', d1, d2]))
            == Some(DigitsValue(digits) as real + (10 * DigitValue(d1) + DigitValue(d2)) as real / 100.0)
  {
    assert ',' !in digits + ['.', d1, d2];
    ParseTwoDecimals(digits, d1, d2);
  }

  /** In the dot layout the `[\d,]+\.` pattern captures the amount. */
  lemma DotExecAt(s: string, P: nat, w: nat, n: nat)
    requires DotLayout(s, P, w, n)
    ensures Exec(s, AmountPatterns[1]) == Some(s[P + 2 + w..P + 2 + w + n + 3])
  {
    assert AmountPatterns[1] == AmountPat(DigitsCommas, '.');
    NoDollarSignBefore(s, P);
    AmountExecLayout(s, P, w, n, DigitsCommas, '.');
  }

  /** A pattern with no capture passes the text on to the next one. */
  lemma TryAmountsSkip(s: string, k: nat)
    requires k < |AmountPatterns| && Exec(s, AmountPatterns[k]) == None
    ensures TryAmounts(s, k) == TryAmounts(s, k + 1)
  {
  }

  /** `prefix r$ ws digits.d1d2 rest`, with no `$` in `prefix` or `rest`
      and `rest` not continuing the number, has the dot layout. */
  lemma DotLayoutOf(prefix: string, ws: string, digits: string, d1: char, d2: char, rest: string)
    requires '$' !in prefix && '$' !in rest
    requires forall k :: 0 <= k < |ws| ==> IsSpace(ws[k])
    requires digits != [] && AllDigits(digits)
    requires IsDigit(d1) && IsDigit(d2)
    requires rest == [] || !InClass(AmountChars, rest[0])
    ensures var s := prefix + "r$" + ws + digits + ['.', d1, d2] + rest;
            var q := |prefix| + 2 + |ws|;
            && DotLayout(s, |prefix|, |ws|, |digits|)
            && s[q..q + |digits| + 3] == digits + ['.', d1, d2]
  {
    var s := prefix + "r$" + ws + digits + ['.', d1, d2] + rest;
    var P := |prefix|;
    var w := |ws|;
    var n := |digits|;
    var q := P + 2 + w;
    var tail := q + n + 3;
    DotTextDollars(prefix, ws, digits, d1, d2, rest);
    DotTextRuns(prefix, ws, digits, d1, d2, rest);
    assert s[P] == 'r' && s[P + 1] == '$';
    assert s[q + n] == '.' && s[q + n + 1] == d1 && s[q + n + 2] == d2;
    assert tail < |s| ==> s[tail] == rest[0];
    assert s[q..q + n + 3] == digits + ['.', d1, d2];
  }

  /** The only `$` of the dot text is the one of its `r$`. */
  lemma DotTextDollars(prefix: string, ws: string, digits: string, d1: char, d2: char, rest: string)
    requires '$' !in prefix && '$' !in rest
    requires forall k :: 0 <= k < |ws| ==> IsSpace(ws[k])
    requires AllDigits(digits) && IsDigit(d1) && IsDigit(d2)
    ensures var s := prefix + "r$" + ws + digits + ['.', d1, d2] + rest;
            forall k :: 0 < k < |s| && k != |prefix| + 1 ==> s[k] != '$'
  {
    var s := prefix + "r$" + ws + digits + ['.', d1, d2] + rest;
    var P, q := |prefix|, |prefix| + 2 + |ws|;
    var tail := q + |digits| + 3;
    forall k | 0 < k < |s| && k != P + 1 ensures s[k] != '$' {
      if k < P { assert s[k] == prefix[k]; }
      else if k == P { }
      else if k >= tail { assert s[k] == rest[k - tail]; }
      else if k < q { assert s[k] == ws[k - P - 2]; }
      else if k < q + |digits| { assert s[k] == digits[k - q]; }
    }
  }

  /** The dot text has its spaces and digits where the layout wants them. */
  lemma DotTextRuns(prefix: string, ws: string, digits: string, d1: char, d2: char, rest: string)
    requires forall k :: 0 <= k < |ws| ==> IsSpace(ws[k])
    requires AllDigits(digits)
    ensures var s := prefix + "r$" + ws + digits + ['.', d1, d2] + rest;
            var P, q := |prefix|, |prefix| + 2 + |ws|;
            && (forall k :: P + 2 <= k < q ==> IsSpace(s[k]))
            && (forall k :: q <= k < q + |digits| ==> IsDigit(s[k]))
  {
    var s := prefix + "r$" + ws + digits + ['.', d1, d2] + rest;
    var P, q := |prefix|, |prefix| + 2 + |ws|;
    forall k | P + 2 <= k < q ensures IsSpace(s[k]) {
      assert s[k] == ws[k - P - 2];
    }
    forall k | q <= k < q + |digits| ensures IsDigit(s[k]) {
      assert s[k] == digits[k - q];
    }
  }

  /** Round trip for the dot format: `r$`, white space, digits, a dot and
      two decimals, in a text with no other `$` and not followed by another
      digit, dot or comma, is read back as the number it denotes. */
  lemma AmountDotRoundTrip(prefix: string, ws: string, digits: string, d1: char, d2: char, rest: string)
    requires '$' !in prefix && '$' !in rest
    requires forall k :: 0 <= k < |ws| ==> IsSpace(ws[k])
    requires digits != [] && AllDigits(digits)
    requires IsDigit(d1) && IsDigit(d2)
    requires rest == [] || !InClass(AmountChars, rest[0])
    requires DigitsValue(digits) > 0 || DigitValue(d1) > 0 || DigitValue(d2) > 0
    ensures ExtractAmount(prefix + "r$" + ws + digits + ['.', d1, d2] + rest)
            == Some(DigitsValue(digits) as real + (10 * DigitValue(d1) + DigitValue(d2)) as real / 100.0)
  {
    var s := prefix + "r$" + ws + digits + ['.', d1, d2] + rest;
    DotLayoutOf(prefix, ws, digits, d1, d2, rest);
    DotAmountAt(s, |prefix|, |ws|, digits, d1, d2);
  }

  /** The amount read from a text with the dot layout, given the number
      its capture denotes. */
  lemma DotAmountAt(s: string, P: nat, w: nat, digits: string, d1: char, d2: char)
    requires DotLayout(s, P, w, |digits|)
    requires s[P + 2 + w..P + 2 + w + |digits| + 3] == digits + ['.', d1, d2]
    requires AllDigits(digits) && IsDigit(d1) && IsDigit(d2)
    requires DigitsValue(digits) > 0 || DigitValue(d1) > 0 || DigitValue(d2) > 0
    ensures ExtractAmount(s)
            == Some(DigitsValue(digits) as real + (10 * DigitValue(d1) + DigitValue(d2)) as real / 100.0)
  {
    DotSecondReads(s, P, w, digits, d1, d2);
    DotLayoutNoComma(s, P, w, |digits|);
    TryAmountsSkip(s, 0);
  }

  /** In the dot layout the second pattern's reading is the number the
      capture denotes. */
  lemma DotSecondReads(s: string, P: nat, w: nat, digits: string, d1: char, d2: char)
    requires DotLayout(s, P, w, |digits|)
    requires s[P + 2 + w..P + 2 + w + |digits| + 3] == digits + ['.', d1, d2]
    requires AllDigits(digits) && IsDigit(d1) && IsDigit(d2)
    requires DigitsValue(digits) > 0 || DigitValue(d1) > 0 || DigitValue(d2) > 0
    ensures TryAmounts(s, 1)
            == Some(DigitsValue(digits) as real + (10 * DigitValue(d1) + DigitValue(d2)) as real / 100.0)
  {
    var cap := digits + ['.', d1, d2];
    var v := DigitsValue(digits) as real + (10 * DigitValue(d1) + DigitValue(d2)) as real / 100.0;
    DotParse(digits, d1, d2);
    assert v > 0.0;
    DotExecAt(s, P, w, |digits|);
    TryAmountsHit(s, 1, cap, v);
  }

  /** The US format with a thousands comma, `r$a,bcd.ef`, is taken by the
      `[\d.]+,\d{2}` pattern as `a,bc`: the amount read is `a.bc`, not
      the thousands the text denotes. */
  lemma AmountUsFormatMisread(prefix: string, a: char, b: char, c: char, d: char, e: char, f: char, rest: string)
    requires '$' !in prefix
    requires IsDigit(a) && IsDigit(b) && IsDigit(c) && IsDigit(d) && IsDigit(e) && IsDigit(f)
    requires a != '0'
    ensures ExtractAmount(prefix + "r$" + [a, ',', b, c, d, '.', e, f] + rest)
            == Some(DigitValue(a) as real + (10 * DigitValue(b) + DigitValue(c)) as real / 100.0)
  {
    assert prefix + "r$" + [a, ',', b, c, d, '.', e, f] + rest
        == prefix + "r$" + [] + [a] + [',', b, c] + ([d, '.', e, f] + rest);
    GroupedOneDigit(a);
    AmountCommaRoundTrip(prefix, [], [a], b, c, [d, '.', e, f] + rest);
  }

  lemma GroupedOneDigit(a: char)
    requires IsDigit(a)
    ensures GroupedValue([a]) == DigitValue(a)
  {
    RemoveDotsNoDot([a]);
    assert [a][..0] == [];
    assert DigitsValue([a]) == 10 * DigitsValue([]) + DigitValue(a);
  }
}
