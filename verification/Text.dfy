/** The JavaScript string primitives the application relies on: the `\s` and
    line-terminator character sets of regular expressions, `toLowerCase`,
    `includes`, `trim`, `join`, `split`, the UTF-16 `length` and decimal
    rendering of integers. */
module Text {

  import opened Wrappers

  /** JavaScript's WhiteSpace and LineTerminator code points: what `\s`
      matches and what `String.prototype.trim` strips. */
  predicate IsSpace(c: char) {
    || c == ' ' || c == '\t' || c == '\n' || c == '\U{B}' || c == '\U{C}' || c == '\r'
    || c == '\U{A0}' || c == '\U{1680}' || ('\U{2000}' <= c <= '\U{200A}')
    || c == '\U{2028}' || c == '\U{2029}' || c == '\U{202F}' || c == '\U{205F}'
    || c == '\U{3000}' || c == '\U{FEFF}'
  }

  /** The characters a regular-expression `.` does not match. */
  predicate IsLineTerminator(c: char) {
    c == '\n' || c == '\r' || c == '\U{2028}' || c == '\U{2029}'
  }

  predicate IsDigit(c: char) { '0' <= c <= '9' }

  predicate AllDigits(s: string) {
    forall i | 0 <= i < |s| :: IsDigit(s[i])
  }

  predicate IsAsciiLetter(c: char) { 'a' <= c <= 'z' || 'A' <= c <= 'Z' }

  /** `toLowerCase` on one character, for ASCII and Latin-1 letters. */
  function LowerChar(c: char): char {
    if 'A' <= c <= 'Z' || ('\U{C0}' <= c <= '\U{DE}' && c != '\U{D7}') then
      (c as int + 32) as char
    else
      c
  }

  /** `String.prototype.toLowerCase` (character by character). */
  function ToLower(s: string): (r: string)
    ensures |r| == |s|
    ensures forall i :: 0 <= i < |s| ==> r[i] == LowerChar(s[i])
  {
    seq(|s|, i requires 0 <= i < |s| => LowerChar(s[i]))
  }

  /** Lower-casing a lower-cased string changes nothing. */
  lemma LowerTwice(s: string)
    ensures ToLower(ToLower(s)) == ToLower(s)
  {
  }

  /** A string without capitals is its own lower case. */
  lemma LowerOfLowerCase(s: string)
    requires forall i :: 0 <= i < |s| ==> !('A' <= s[i] <= 'Z') && !('\U{C0}' <= s[i] <= '\U{DE}')
    ensures ToLower(s) == s
  {
  }

  /** How a case-insensitive regular expression compares an ASCII letter of
      its pattern with a character of the subject. */
  function FoldAscii(c: char): char {
    if 'A' <= c <= 'Z' then (c as int + 32) as char else c
  }

  /** The UTF-16 code units of a string, which `length` counts and
      `charCodeAt` walks through: one per character
      of the Basic Multilingual Plane, a surrogate pair for the others. */
  function CodeUnits(s: string): (r: seq<int>)
    ensures forall i :: 0 <= i < |r| ==> 0 <= r[i] < 0x10000
    ensures |r| >= |s|
  {
    if s == [] then []
    else
      var c := s[|s| - 1] as int;
      CodeUnits(s[..|s| - 1])
      + (if c < 0x10000 then [c] else [0xD800 + (c - 0x10000) / 0x400, 0xDC00 + (c - 0x10000) % 0x400])
  }

  /** Number of characters outside the Basic Multilingual Plane. */
  function AstralCount(s: string): nat {
    if s == [] then 0
    else AstralCount(s[..|s| - 1]) + (if s[|s| - 1] as int < 0x10000 then 0 else 1)
  }

  /** `length` counts every character once and those outside the Basic
      Multilingual Plane twice. */
  lemma {:induction false} CodeUnitsLength(s: string)
    ensures |CodeUnits(s)| == |s| + AstralCount(s)
  {
    if s != [] {
      CodeUnitsLength(s[..|s| - 1]);
    }
  }

  /** `s.includes(sub)`. */
  predicate Contains(s: string, sub: string) {
    exists i | 0 <= i <= |s| - |sub| :: OccursAt(s, sub, i)
  }

  /** `sub` occurs in `s` starting at position `i`. */
  predicate OccursAt(s: string, sub: string, i: int) {
    0 <= i && i + |sub| <= |s| && s[i..i + |sub|] == sub
  }

  /** JavaScript truthiness of an optional string: present and non-empty. */
  predicate Truthy(s: Option<string>) {
    s.Some? && s.value != ""
  }

  /** Number of white-space characters that open `s`. */
  function LeadingSpaces(s: string): (n: nat)
    ensures n <= |s|
  {
    if s != [] && IsSpace(s[0]) then 1 + LeadingSpaces(s[1..]) else 0
  }

  function TrimStart(s: string): (r: string)
    ensures |r| <= |s| && r == s[|s| - |r|..] && |s| - |r| == LeadingSpaces(s)
    ensures r == [] || !IsSpace(r[0])
    ensures forall i :: 0 <= i < |s| - |r| ==> IsSpace(s[i])
  {
    if s != [] && IsSpace(s[0]) then TrimStart(s[1..]) else s
  }

  function TrimEnd(s: string): (r: string)
    ensures |r| <= |s| && r == s[..|r|]
    ensures r == [] || !IsSpace(r[|r| - 1])
    ensures forall i :: |r| <= i < |s| ==> IsSpace(s[i])
  {
    if s != [] && IsSpace(s[|s| - 1]) then TrimEnd(s[..|s| - 1]) else s
  }

  /** `String.prototype.trim`: the longest slice of `s` that neither starts
      nor ends with white space; everything cut away is white space. */
  function Trim(s: string): (r: string)
    ensures LeadingSpaces(s) + |r| <= |s| && r == s[LeadingSpaces(s)..LeadingSpaces(s) + |r|]
    ensures r == [] || (!IsSpace(r[0]) && !IsSpace(r[|r| - 1]))
    ensures (forall i :: 0 <= i < |s| ==> !IsSpace(s[i])) ==> r == s
  {
    var t := TrimStart(s);
    var r := TrimEnd(t);
    assert r == s[|s| - |t|..][..|r|];
    assert r == s[|s| - |t|..|s| - |t| + |r|];
    r
  }

  /** `parts.join(sep)`. */
  function Join(parts: seq<string>, sep: string): (r: string)
    ensures parts == [] ==> r == ""
  {
    if parts == [] then ""
    else if |parts| == 1 then parts[0]
    else parts[0] + sep + Join(parts[1..], sep)
  }

  /** `s.split(c)` for a one-character separator. */
  function Split(s: string, c: char): (r: seq<string>)
    ensures |r| >= 1
    ensures forall i :: 0 <= i < |r| ==> c !in r[i]
  {
    if c !in s then [s]
    else
      var k := IndexOf(s, c);
      [s[..k]] + Split(s[k + 1..], c)
  }

  /** Position of the first `c` in `s`. */
  function IndexOf(s: string, c: char): (k: nat)
    requires c in s
    ensures k < |s| && s[k] == c && c !in s[..k]
  {
    if s[0] == c then 0 else 1 + IndexOf(s[1..], c)
  }

  /** Splitting a join recovers the parts exactly when no part contains the
      separator: `join` and `split` are inverse on such lists. */
  lemma {:induction false} SplitJoin(parts: seq<string>, c: char)
    requires parts != []
    requires forall i :: 0 <= i < |parts| ==> c !in parts[i]
    ensures Split(Join(parts, [c]), c) == parts
  {
    if |parts| == 1 {
    } else {
      var rest := Join(parts[1..], [c]);
      var s := parts[0] + [c] + rest;
      assert Join(parts, [c]) == s;
      assert s[|parts[0]|] == c;
      assert c in s;
      var k := IndexOf(s, c);
      assert s[..|parts[0]|] == parts[0];
      assert k == |parts[0]|;
      assert s[k + 1..] == rest;
      SplitJoin(parts[1..], c);
    }
  }

  /** If some part contains the separator, splitting the join yields more
      fields than there were parts, so the parts are not recovered. */
  lemma SplitJoinOnlyIf(parts: seq<string>, c: char, j: nat)
    requires j < |parts| && c in parts[j]
    ensures |Split(Join(parts, [c]), c)| > |parts|
  {
    SplitCount(Join(parts, [c]), c);
    JoinCountWith(parts, c, j);
  }

  /** Number of occurrences of `c` in `s`. */
  function CountChar(s: string, c: char): (n: nat)
    ensures n <= |s|
    ensures n == 0 <==> c !in s
  {
    if s == [] then 0 else (if s[0] == c then 1 else 0) + CountChar(s[1..], c)
  }

  lemma {:induction false} CountAppend(a: string, b: string, c: char)
    ensures CountChar(a + b, c) == CountChar(a, c) + CountChar(b, c)
  {
    if a == [] {
      assert a + b == b;
    } else {
      assert (a + b)[1..] == a[1..] + b;
      CountAppend(a[1..], b, c);
    }
  }

  /** `split` returns one more field than there are separators. */
  lemma {:induction false} SplitCount(s: string, c: char)
    ensures |Split(s, c)| == CountChar(s, c) + 1
    decreases |s|
  {
    if c in s {
      var k := IndexOf(s, c);
      assert s == s[..k] + [c] + s[k + 1..];
      CountAppend(s[..k] + [c], s[k + 1..], c);
      CountAppend(s[..k], [c], c);
      SplitCount(s[k + 1..], c);
    }
  }

  /** A join holds at least one separator per gap, and one more when a part
      itself contains the separator. */
  lemma {:induction false} JoinCountWith(parts: seq<string>, c: char, j: nat)
    requires j < |parts| && c in parts[j]
    ensures CountChar(Join(parts, [c]), c) >= |parts|
  {
    if |parts| == 1 {
    } else {
      CountAppend(parts[0] + [c], Join(parts[1..], [c]), c);
      CountAppend(parts[0], [c], c);
      if j == 0 {
        JoinCount(parts[1..], c);
      } else {
        JoinCountWith(parts[1..], c, j - 1);
      }
    }
  }

  lemma {:induction false} JoinCount(parts: seq<string>, c: char)
    requires parts != []
    ensures CountChar(Join(parts, [c]), c) >= |parts| - 1
  {
    if |parts| > 1 {
      JoinCount(parts[1..], c);
      CountAppend(parts[0] + [c], Join(parts[1..], [c]), c);
      CountAppend(parts[0], [c], c);
    }
  }

  /** Decimal rendering of a natural number, without leading zeros. */
  function NatToString(n: nat): (r: string)
    ensures |r| >= 1
    ensures forall i :: 0 <= i < |r| ==> IsDigit(r[i])
    ensures |r| > 1 ==> r[0] != '0'
  {
    if n < 10 then [DigitChar(n)] else NatToString(n / 10) + [DigitChar(n % 10)]
  }

  /** Template-literal rendering of an integer (`${n}`). */
  function IntToString(n: int): (r: string)
    ensures |r| >= 1
    ensures n < 0 <==> r[0] == '-'
  {
    if n < 0 then "-" + NatToString(-n) else NatToString(n)
  }

  function DigitChar(d: nat): (c: char)
    requires d < 10
    ensures IsDigit(c) && c as int - '0' as int == d
  {
    ('0' as int + d) as char
  }

  /** The number a string of decimal digits denotes. */
  function DigitsValue(s: string): nat
    requires AllDigits(s)
  {
    if s == [] then 0 else 10 * DigitsValue(s[..|s| - 1]) + DigitValue(s[|s| - 1])
  }

  function DigitValue(c: char): (d: nat)
    requires IsDigit(c)
    ensures d < 10 && DigitChar(d) == c
  {
    c as int - '0' as int
  }

  /** Reading back a rendered number gives the number. */
  lemma {:induction false} DigitsValueOfNatToString(n: nat)
    ensures DigitsValue(NatToString(n)) == n
  {
    if n >= 10 {
      var r := NatToString(n);
      assert r[..|r| - 1] == NatToString(n / 10);
      DigitsValueOfNatToString(n / 10);
    }
  }

  lemma {:induction false} DigitsValueAppend(a: string, b: string)
    requires AllDigits(a) && AllDigits(b)
    ensures AllDigits(a + b)
    ensures DigitsValue(a + b) == DigitsValue(a) * Pow10(|b|) + DigitsValue(b)
    decreases |b|
  {
    var ab := a + b;
    assert AllDigits(ab) by {
      forall i | 0 <= i < |ab| ensures IsDigit(ab[i]) {
        if i < |a| { assert ab[i] == a[i]; } else { assert ab[i] == b[i - |a|]; }
      }
    }
    if b != [] {
      var b' := b[..|b| - 1];
      assert ab[..|ab| - 1] == a + b';
      DigitsValueAppend(a, b');
      var x, p, y, d := DigitsValue(a), Pow10(|b'|), DigitsValue(b'), DigitValue(b[|b| - 1]);
      assert ab[|ab| - 1] == b[|b| - 1];
      assert DigitsValue(ab) == 10 * (x * p + y) + d;
      assert DigitsValue(b) == 10 * y + d;
      assert Pow10(|b|) == 10 * p;
      Regroup(x, p, y, d);
    } else {
      assert ab == a;
    }
  }

  lemma Regroup(x: int, p: int, y: int, d: int)
    ensures 10 * (x * p + y) + d == x * (10 * p) + (10 * y + d)
  {
  }

  function Pow10(k: nat): (p: nat)
    ensures p >= 1
  {
    if k == 0 then 1 else 10 * Pow10(k - 1)
  }
}
