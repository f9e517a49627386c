/** The string handling the Felo file format relies on: Python's `strip`,
    `find`, `expandtabs`, `splitlines`, `join`, decimal `str` and `int`,
    and the two helpers `clean_up_line` and `fill_with_tabs`. */
module Text {
  import opened Outcomes

  /** The characters Python 2's unicode `strip()` and `int()` treat as
      whitespace, by the Unicode 5.2 database it carries (in which U+180E
      is still a space separator). */
  predicate IsSpace(c: char) {
    || c == ' '
    || ('\t' <= c <= '\r')
    || ('\U{1c}' <= c <= '\U{1f}')
    || c == '\U{85}' || c == '\U{a0}' || c == '\U{1680}' || c == '\U{180e}'
    || ('\U{2000}' <= c <= '\U{200a}')
    || c == '\U{2028}' || c == '\U{2029}' || c == '\U{202f}' || c == '\U{205f}' || c == '\U{3000}'
  }

  /** The whitespace class `\s` of Python 2's `re` without the UNICODE
      flag, which the Felo file patterns use. */
  predicate IsRegexSpace(c: char) {
    c == ' ' || ('\t' <= c <= '\r')
  }

  predicate AllRegexSpace(s: string) {
    forall i :: 0 <= i < |s| ==> IsRegexSpace(s[i])
  }

  /** The length of the longest prefix of `s` that `\s*` matches. */
  function RegexSpaceRun(s: string): (k: nat)
    ensures k <= |s| && AllRegexSpace(s[..k])
    ensures k < |s| ==> !IsRegexSpace(s[k])
  {
    if s == [] || !IsRegexSpace(s[0]) then 0
    else
      var k := RegexSpaceRun(s[1..]) + 1;
      assert s[..k] == [s[0]] + s[1..][..k - 1];
      k
  }

  /** No leading and no trailing whitespace. */
  predicate Trimmed(s: string) {
    s == [] || (!IsSpace(s[0]) && !IsSpace(s[|s| - 1]))
  }

  /** `s.lstrip()`: the suffix of `s` left after removing leading whitespace. */
  function LStrip(s: string): (r: string)
    ensures |r| <= |s| && r == s[|s| - |r|..]
    ensures r == [] || !IsSpace(r[0])
    ensures forall i :: 0 <= i < |s| - |r| ==> IsSpace(s[i])
  {
    if |s| > 0 && IsSpace(s[0]) then LStrip(s[1..]) else s
  }

  /** `s.rstrip()`: the prefix of `s` left after removing trailing whitespace. */
  function RStrip(s: string): (r: string)
    ensures |r| <= |s| && r == s[..|r|]
    ensures r == [] || !IsSpace(r[|r| - 1])
    ensures forall i :: |r| <= i < |s| ==> IsSpace(s[i])
  {
    if |s| > 0 && IsSpace(s[|s| - 1]) then RStrip(s[..|s| - 1]) else s
  }

  /** `s.strip()` */
  function Strip(s: string): (r: string)
    ensures Trimmed(r)
  {
    RStrip(LStrip(s))
  }

  lemma {:induction false} StripTrimmed(s: string)
    requires Trimmed(s)
    ensures Strip(s) == s
  {
  }

  /** `s.find(c)`: the first position of `c` in `s`, or -1. */
  function Find(s: string, c: char): (r: int)
    ensures -1 <= r < |s|
    ensures r == -1 <==> c !in s
    ensures r >= 0 ==> s[r] == c && c !in s[..r]
  {
    if |s| == 0 then -1
    else if s[0] == c then 0
    else
      var k := Find(s[1..], c);
      assert s[1..][..if k >= 0 then k else 0] == s[1..if k >= 0 then k + 1 else 1];
      if k == -1 then -1 else k + 1
  }

  /** `clean_up_line` (felo_rating.py:90-106): drop everything from the first
      `#` on, then strip the surrounding whitespace. */
  function CleanUpLine(line: string): (r: string)
    ensures '#' !in r && Trimmed(r)
    ensures '#' !in line ==> r == Strip(line)
    ensures '#' in line ==> r == Strip(line[..Find(line, '#')])
  {
    var hash := Find(line, '#');
    var s := if hash != -1 then line[..hash] else line;
    StripKeepsOut(s, '#');
    Strip(s)
  }

  lemma {:induction false} StripKeepsOut(s: string, c: char)
    requires c !in s
    ensures c !in Strip(s)
  {
  }

  /** Cleaning an already cleaned line changes nothing. */
  lemma {:induction false} CleanUpLineIdempotent(line: string)
    ensures CleanUpLine(CleanUpLine(line)) == CleanUpLine(line)
  {
    var r := CleanUpLine(line);
    StripTrimmed(r);
  }

  /** A line with no `#` and no surrounding whitespace is its own cleaned form. */
  lemma {:induction false} CleanUpLineOfTrimmed(line: string)
    requires '#' !in line && Trimmed(line)
    ensures CleanUpLine(line) == line
  {
    StripTrimmed(line);
  }

  // ---------------------------------------------------------------------
  // Decimal numbers

  predicate IsDigit(c: char) { '0' <= c <= '9' }

  predicate AllDigits(s: string) {
    forall i :: 0 <= i < |s| ==> IsDigit(s[i])
  }

  function DigitValue(c: char): nat
    requires IsDigit(c)
  {
    (c as int - '0' as int) as nat
  }

  function DigitChar(d: nat): (c: char)
    requires d < 10
    ensures IsDigit(c) && DigitValue(c) == d
  {
    ('0' as int + d) as char
  }

  /** The value of a string of decimal digits (the empty string is 0). */
  function DigitsValue(s: string): nat
    requires AllDigits(s)
  {
    if s == [] then 0 else 10 * DigitsValue(s[..|s| - 1]) + DigitValue(s[|s| - 1])
  }

  function Power10(n: nat): (r: nat)
    ensures r >= 1
  {
    if n == 0 then 1 else 10 * Power10(n - 1)
  }

  lemma {:induction false} DigitsValueAppend(a: string, b: string)
    requires AllDigits(a) && AllDigits(b)
    ensures AllDigits(a + b)
    ensures DigitsValue(a + b) == DigitsValue(a) * Power10(|b|) + DigitsValue(b)
  {
    if b == [] {
      assert a + b == a;
    } else {
      var b' := b[..|b| - 1];
      var d := DigitValue(b[|b| - 1]);
      DigitsValueAppend(a, b');
      assert (a + b)[..|a + b| - 1] == a + b';
      assert (a + b)[|a + b| - 1] == b[|b| - 1];
      var x, p, y := DigitsValue(a), Power10(|b'|), DigitsValue(b');
      assert DigitsValue(a + b) == 10 * (x * p + y) + d;
      assert DigitsValue(b) == 10 * y + d && Power10(|b|) == 10 * p;
      ShiftDigit(x, p, y, d);
    }
  }

  /** Appending one digit d shifts a value x * p + y by one place. */
  lemma ShiftDigit(x: int, p: int, y: int, d: int)
    ensures 10 * (x * p + y) + d == x * (10 * p) + (10 * y + d)
  {
    assert x * (10 * p) == 10 * (x * p) by {
      assert x * (10 * p) == x * p + x * (9 * p);
      assert x * (9 * p) == 9 * (x * p);
    }
  }

  /** `str(n)` for a non-negative integer. */
  function NatToString(n: nat): (r: string)
    ensures |r| >= 1 && AllDigits(r) && DigitsValue(r) == n
    ensures r[0] == '0' ==> n == 0
  {
    if n < 10 then [DigitChar(n)]
    else
      var r := NatToString(n / 10) + [DigitChar(n % 10)];
      assert r[..|r| - 1] == NatToString(n / 10);
      r
  }

  /** `str(i)` for any integer. */
  function IntToString(i: int): (r: string)
    ensures |r| >= 1
  {
    if i < 0 then "-" + NatToString(-i) else NatToString(i)
  }

  /** Distinct numbers have distinct decimal forms. */
  lemma NatToStringInjective(a: nat, b: nat)
    requires NatToString(a) == NatToString(b)
    ensures a == b
  {
  }

  /** A number below 10^k has at most k digits. */
  lemma {:induction false} NatToStringLength(n: nat, k: nat)
    requires 1 <= k && n < Power10(k)
    ensures |NatToString(n)| <= k
  {
    if n >= 10 {
      assert k >= 2;
      NatToStringLength(n / 10, k - 1);
    }
  }

  /** The length of the longest prefix of `s` made of digits. */
  function DigitRun(s: string): (k: nat)
    ensures k <= |s| && AllDigits(s[..k])
    ensures k < |s| ==> !IsDigit(s[k])
  {
    if s == [] || !IsDigit(s[0]) then 0
    else
      var k := DigitRun(s[1..]) + 1;
      assert s[..k] == [s[0]] + s[1..][..k - 1];
      k
  }

  lemma {:induction false} DigitRunOf(digits: string, rest: string)
    requires AllDigits(digits)
    requires rest == [] || !IsDigit(rest[0])
    ensures DigitRun(digits + rest) == |digits|
  {
    if digits == [] {
      assert digits + rest == rest;
    } else {
      assert (digits + rest)[1..] == digits[1..] + rest;
      DigitRunOf(digits[1..], rest);
    }
  }

  function Repeat(c: char, n: nat): (r: string)
    ensures |r| == n && forall i :: 0 <= i < n ==> r[i] == c
  {
    if n == 0 then [] else [c] + Repeat(c, n - 1)
  }

  /** `n` written with at least `width` digits, padded with leading zeros
      (Python's `%0<width>d`). */
  function ZeroPad(n: nat, width: nat): (r: string)
    ensures AllDigits(r) && DigitsValue(r) == n
    ensures |r| == if |NatToString(n)| < width then width else |NatToString(n)|
  {
    var digits := NatToString(n);
    var zeros := Repeat('0', if |digits| < width then width - |digits| else 0);
    ZerosValue(|zeros|);
    DigitsValueAppend(zeros, digits);
    zeros + digits
  }

  lemma {:induction false} ZerosValue(n: nat)
    ensures AllDigits(Repeat('0', n)) && DigitsValue(Repeat('0', n)) == 0
  {
    if n > 0 {
      ZerosValue(n - 1);
      DigitsValueAppend(Repeat('0', n - 1), "0");
      assert Repeat('0', n) == Repeat('0', n - 1) + "0";
    }
  }

  /** Python's `int(s)` on a decimal literal: surrounding whitespace, an
      optional sign and at least one digit. */
  function ParseInt(s: string): Option<int> {
    ParseIntAfter(s, |s| + 2)
  }

  /** The reading, behind a few recursive steps so that the verifier does
      not unfold it where only its outcome matters. */
  function ParseIntAfter(s: string, steps: nat): Option<int>
    requires |s| <= steps
    decreases steps - |s|
  {
    if steps > |s| then ParseIntAfter(s, steps - 1) else ReadInt(s)
  }

  function ReadInt(s: string): (r: Option<int>)
  {
    var t := Strip(s);
    if |t| > 0 && (t[0] == '-' || t[0] == '+') then
      if |t| > 1 && AllDigits(t[1..]) then
        var v: int := DigitsValue(t[1..]);
        Some(if t[0] == '-' then -v else v)
      else None
    else if |t| > 0 && AllDigits(t) then Some(DigitsValue(t))
    else None
  }

  lemma ParseIntIsReadInt(s: string)
    ensures ParseInt(s) == ReadInt(s)
  {
    assert ParseIntAfter(s, |s| + 1) == ParseIntAfter(s, |s|);
  }

  /** `str(i)` is a sign for a negative number followed by digits, and
      has no surrounding whitespace. */
  lemma IntToStringShape(i: int)
    ensures var s := IntToString(i);
      Trimmed(s) && |s| >= 1 && (s[0] == '-' <==> i < 0) && s[0] != '+'
      && (i < 0 ==> |s| > 1 && AllDigits(s[1..]) && DigitsValue(s[1..]) == -i)
      && (i >= 0 ==> AllDigits(s) && DigitsValue(s) == i)
  {
    var s := IntToString(i);
    if i < 0 {
      assert s[1..] == NatToString(-i);
      assert IsDigit(s[|s| - 1]);
    } else {
      assert IsDigit(s[0]) && IsDigit(s[|s| - 1]);
    }
  }

  /** `int(str(i)) == i` */
  lemma {:induction false} ParseIntOfIntToString(i: int)
    ensures ParseInt(IntToString(i)) == Some(i)
  {
    var s := IntToString(i);
    ParseIntIsReadInt(s);
    IntToStringShape(i);
    StripTrimmed(s);
  }

  // ---------------------------------------------------------------------
  // Tabs

  /** The number of characters `expandtabs(8)` produces for `s` when `s`
      starts at column `col`; a tab moves to the next multiple of eight,
      a newline or carriage return starts column 0 again. */
  function ExpandedWidth(s: string, col: nat): nat
  {
    if s == [] then 0
    else if s[0] == '\t' then (8 - col % 8) + ExpandedWidth(s[1..], col + (8 - col % 8))
    else if s[0] == '\n' || s[0] == '\r' then 1 + ExpandedWidth(s[1..], 0)
    else 1 + ExpandedWidth(s[1..], col + 1)
  }

  /** `len(s.expandtabs())` */
  function ExpandedLength(s: string): nat {
    ExpandedWidth(s, 0)
  }

  predicate PlainText(s: string) {
    '\t' !in s && '\n' !in s && '\r' !in s
  }

  /** `fill_with_tabs` (felo_rating.py:691-692), with Python 2's integer
      division: `text` followed by enough tabs to reach tab column `tabCol`,
      and by one tab at least. */
  function FillWithTabs(text: string, tabCol: int): (r: string)
    ensures |r| > |text| && r[..|text|] == text
    ensures forall i :: |text| <= i < |r| ==> r[i] == '\t'
  {
    var tabs := tabCol - ExpandedLength(text) / 8;
    text + Repeat('\t', if tabs > 1 then tabs else 1)
  }

  lemma {:induction false} PlainWidth(s: string, col: nat)
    requires PlainText(s)
    ensures ExpandedWidth(s, col) == |s|
  {
    if s != [] {
      assert s[0] in s;
      assert forall c :: c in s[1..] ==> c in s;
      PlainWidth(s[1..], col + 1);
    }
  }

  lemma {:induction false} WidthAppend(a: string, b: string, col: nat)
    requires PlainText(a)
    ensures ExpandedWidth(a + b, col) == |a| + ExpandedWidth(b, col + |a|)
  {
    if a == [] {
      assert a + b == b;
    } else {
      assert a[0] in a;
      assert forall c :: c in a[1..] ==> c in a;
      assert (a + b)[1..] == a[1..] + b;
      assert (a + b)[0] == a[0];
      assert a[0] != '\t' && a[0] != '\n' && a[0] != '\r';
      WidthAppend(a[1..], b, col + 1);
      assert ExpandedWidth(a + b, col) == 1 + ExpandedWidth(a[1..] + b, col + 1);
    }
  }

  lemma {:induction false} TabsWidth(n: nat, col: nat)
    requires col % 8 == 0
    ensures ExpandedWidth(Repeat('\t', n), col) == 8 * n
  {
    if n > 0 {
      assert Repeat('\t', n)[1..] == Repeat('\t', n - 1);
      TabsWidth(n - 1, col + 8);
    }
  }

  lemma {:induction false} FirstTabWidth(n: nat, col: nat)
    requires n >= 1
    ensures ExpandedWidth(Repeat('\t', n), col) == (8 - col % 8) + 8 * (n - 1)
  {
    assert Repeat('\t', n)[1..] == Repeat('\t', n - 1);
    TabsWidth(n - 1, col + (8 - col % 8));
  }

  /** For text without tabs or line breaks, the filled string ends exactly
      at tab column `tabCol`, or one tab stop after the text when the text
      already reaches that column. */
  lemma {:induction false} FillWithTabsReachesColumn(text: string, tabCol: int)
    requires PlainText(text)
    ensures ExpandedLength(FillWithTabs(text, tabCol))
         == 8 * (if tabCol > |text| / 8 + 1 then tabCol else |text| / 8 + 1)
  {
    PlainWidth(text, 0);
    var tabs := tabCol - |text| / 8;
    var n := if tabs > 1 then tabs else 1;
    WidthAppend(text, Repeat('\t', n), 0);
    FirstTabWidth(n, |text|);
  }

  // ---------------------------------------------------------------------
  // Lines

  /** The line boundaries of Python 2's unicode `splitlines()`. */
  predicate IsLineBreak(c: char) {
    || c == '\n' || c == '\r' || c == '\U{0b}' || c == '\U{0c}'
    || ('\U{1c}' <= c <= '\U{1e}')
    || c == '\U{85}' || c == '\U{2028}' || c == '\U{2029}'
  }

  predicate NoBreak(line: string) {
    forall i :: 0 <= i < |line| ==> !IsLineBreak(line[i])
  }

  /** The length of the first line of `s`. */
  function LineEnd(s: string): (k: nat)
    ensures k <= |s| && NoBreak(s[..k])
    ensures k < |s| ==> IsLineBreak(s[k])
  {
    if s == [] || IsLineBreak(s[0]) then 0
    else
      var k := LineEnd(s[1..]) + 1;
      assert s[..k] == [s[0]] + s[1..][..k - 1];
      k
  }

  /** `s.splitlines()`: a line break ends a line ("\r\n" counts as one), and
      a break at the very end does not start another line. */
  function SplitLines(s: string): (r: seq<string>)
    ensures forall i :: 0 <= i < |r| ==> NoBreak(r[i])
    decreases |s|
  {
    if s == [] then []
    else
      var k := LineEnd(s);
      if k == |s| then [s]
      else
        var next := if s[k] == '\r' && k + 1 < |s| && s[k + 1] == '\n' then k + 2 else k + 1;
        [s[..k]] + SplitLines(s[next..])
  }

  /** `sep.join(lines)` */
  function Join(lines: seq<string>, sep: string): string {
    if |lines| == 0 then ""
    else if |lines| == 1 then lines[0]
    else lines[0] + sep + Join(lines[1..], sep)
  }

  /** Lines written with "\n" after each of them are read back unchanged. */
  lemma {:induction false} SplitLinesOfJoin(lines: seq<string>)
    requires lines != []
    requires forall i :: 0 <= i < |lines| ==> NoBreak(lines[i])
    ensures SplitLines(Join(lines, "\n") + "\n") == lines
  {
    var l := lines[0];
    var rest := lines[1..];
    var s := Join(lines, "\n") + "\n";
    var tail := if rest == [] then "" else Join(rest, "\n") + "\n";
    assert s == l + "\n" + tail;
    LineEndAt(l, tail);
    assert s[|l|] == '\n';
    assert s[..|l|] == l;
    assert s[|l| + 1..] == tail;
    assert SplitLines(s) == [l] + SplitLines(tail);
    if rest != [] {
      SplitLinesOfJoin(rest);
    }
  }

  lemma {:induction false} LineEndAt(l: string, tail: string)
    requires NoBreak(l)
    ensures LineEnd(l + "\n" + tail) == |l|
  {
    if l != [] {
      assert (l + "\n" + tail)[1..] == l[1..] + "\n" + tail;
      LineEndAt(l[1..], tail);
    }
  }

  predicate StartsWith(s: string, prefix: string) {
    |prefix| <= |s| && s[..|prefix|] == prefix
  }
}
