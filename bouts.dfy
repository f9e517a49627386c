/** Bouts (felo_rating.py:150-221): their dates, the `date_string` that
    keys a batch of bouts, the comparator used to sort them, and the score
    column of a bout line in a Felo file. */
module Bouts {
  import opened Outcomes
  import opened Text

  datatype Date = Date(year: nat, month: nat, day: nat)

  predicate IsLeapYear(y: nat) {
    y % 4 == 0 && (y % 100 != 0 || y % 400 == 0)
  }

  function DaysInMonth(y: nat, m: nat): nat
    requires 1 <= m <= 12
  {
    if m == 2 then (if IsLeapYear(y) then 29 else 28)
    else if m == 4 || m == 6 || m == 9 || m == 11 then 30
    else 31
  }

  /** The dates `datetime.date` accepts. */
  predicate ValidDate(d: Date) {
    1 <= d.year <= 9999 && 1 <= d.month <= 12 && 1 <= d.day <= DaysInMonth(d.year, d.month)
  }

  /** A bout; `fencedTo == 0` marks a single bout of a relay team competition. */
  datatype Bout = Bout(
    date: Date,
    index: nat,
    first: string,
    second: string,
    pointsFirst: nat,
    pointsSecond: nat,
    fencedTo: nat)

  /** `Bout.__init__` (felo_rating.py:162-194): `datetime.date` raises
      `ValueError` for a day that does not exist. */
  function NewBout(year: nat, month: nat, day: nat, index: nat, first: string, second: string,
                   pointsFirst: nat, pointsSecond: nat, fencedTo: nat): (r: Result<Bout>)
    ensures r.Ok? <==> ValidDate(Date(year, month, day))
    ensures r.Ok? ==> ValidDate(r.value.date) && r.value.index == index
    ensures r.Ok? ==> r.value.pointsFirst == pointsFirst && r.value.pointsSecond == pointsSecond
    ensures r.Ok? ==> r.value.fencedTo == fencedTo
    ensures r.Ok? ==> r.value.first == first && r.value.second == second
  {
    var date := Date(year, month, day);
    if ValidDate(date) then Ok(Bout(date, index, first, second, pointsFirst, pointsSecond, fencedTo))
    else Err(InvalidDate)
  }

  /** The `date_string` getter (felo_rating.py:203-207): the ISO date
      YYYY-MM-DD, followed by ".index" unless the index is 0. */
  function DateString(b: Bout): string {
    ZeroPad(b.date.year, 4) + "-" + ZeroPad(b.date.month, 2) + "-" + ZeroPad(b.date.day, 2)
      + (if b.index != 0 then "." + NatToString(b.index) else "")
  }

  lemma {:induction false} PaddedWidth(n: nat, width: nat)
    requires 1 <= width && n < Power10(width)
    ensures |ZeroPad(n, width)| == width
  {
    NatToStringLength(n, width);
  }

  lemma {:induction false} FieldsOfDateString(y: string, m: string, d: string, t: string,
                                              y': string, m': string, d': string, t': string)
    requires |y| == |y'| == 4 && |m| == |m'| == 2 && |d| == |d'| == 2
    requires y + "-" + m + "-" + d + t == y' + "-" + m' + "-" + d' + t'
    ensures y == y' && m == m' && d == d' && t == t'
  {
    var s := y + "-" + m + "-" + d + t;
    var s' := y' + "-" + m' + "-" + d' + t';
    assert s[..4] == y && s'[..4] == y';
    assert s[5..7] == m && s'[5..7] == m';
    assert s[8..10] == d && s'[8..10] == d';
    assert s[10..] == t && s'[10..] == t';
  }

  /** Two bouts share a `date_string`, and so a batch, exactly when they
      share both the day and the index. */
  lemma {:induction false} DateStringInjective(a: Bout, b: Bout)
    requires ValidDate(a.date) && ValidDate(b.date)
    ensures DateString(a) == DateString(b) <==> a.date == b.date && a.index == b.index
  {
    if DateString(a) == DateString(b) {
      PaddedWidth(a.date.year, 4);
      PaddedWidth(b.date.year, 4);
      PaddedWidth(a.date.month, 2);
      PaddedWidth(b.date.month, 2);
      PaddedWidth(a.date.day, 2);
      PaddedWidth(b.date.day, 2);
      var ta := if a.index != 0 then "." + NatToString(a.index) else "";
      var tb := if b.index != 0 then "." + NatToString(b.index) else "";
      FieldsOfDateString(ZeroPad(a.date.year, 4), ZeroPad(a.date.month, 2), ZeroPad(a.date.day, 2), ta,
                         ZeroPad(b.date.year, 4), ZeroPad(b.date.month, 2), ZeroPad(b.date.day, 2), tb);
      if a.index != 0 || b.index != 0 {
        assert ta[1..] == NatToString(a.index) && tb[1..] == NatToString(b.index);
        NatToStringInjective(a.index, b.index);
      }
    }
  }

  /** `Bout.__cmp__` (felo_rating.py:195-202) as written: bouts of one day
      compare equal, bouts of different days compare by index only. */
  function CompareAsWritten(a: Bout, b: Bout): (r: int)
    ensures a.date == b.date ==> r == 0
  {
    if a.date == b.date then 0 else a.index - b.index
  }

  /** Calendar order of two days. */
  predicate Before(d: Date, e: Date) {
    d.year < e.year || (d.year == e.year && (d.month < e.month || (d.month == e.month && d.day < e.day)))
  }

  /** The comparator does not sort by date: a bout on an earlier day can
      compare as later than one on a later day. */
  lemma CompareAsWrittenIgnoresDate()
    ensures exists a: Bout, b: Bout :: Before(a.date, b.date) && ValidDate(a.date) && ValidDate(b.date)
                                         && CompareAsWritten(a, b) > 0
  {
    var a := Bout(Date(2006, 1, 1), 1, "A", "B", 5, 3, 5);
    var b := Bout(Date(2006, 1, 2), 0, "A", "B", 5, 3, 5);
    assert Before(a.date, b.date) && ValidDate(a.date) && ValidDate(b.date) && CompareAsWritten(a, b) > 0;
  }

  // ---------------------------------------------------------------------
  // The score column of a bout line

  /** What follows the points in a bout line: nothing, "*" or "/N". */
  datatype FencedToToken = NoFencedTo | Relay | WinningPoints(n: nat)

  /** The winning points `parse_bouts` derives from the token
      (felo_rating.py:541-546): no token means the larger score, "*" means 0. */
  function ResolveFencedTo(t: FencedToToken, pointsFirst: nat, pointsSecond: nat): (r: nat)
    ensures t == NoFencedTo ==> r >= pointsFirst && r >= pointsSecond && (r == pointsFirst || r == pointsSecond)
    ensures t == Relay ==> r == 0
    ensures t.WinningPoints? ==> r == t.n
  {
    match t
    case NoFencedTo => if pointsFirst >= pointsSecond then pointsFirst else pointsSecond
    case Relay => 0
    case WinningPoints(n) => n
  }

  /** The token `write_felo_file` writes after the points
      (felo_rating.py:743-746): "*" for a relay bout, nothing when one
      fencer reached the winning points, "/N" otherwise. */
  function FencedToTokenOf(b: Bout): FencedToToken {
    if b.fencedTo == 0 then Relay
    else if b.pointsFirst != b.fencedTo && b.pointsSecond != b.fencedTo then WinningPoints(b.fencedTo)
    else NoFencedTo
  }

  function FencedToText(t: FencedToToken): string {
    match t
    case NoFencedTo => ""
    case Relay => " *"
    case WinningPoints(n) => "/" + NatToString(n)
  }

  /** "%d:%d" % (points) followed by the fenced-to token. */
  function ScoreText(b: Bout): string {
    NatToString(b.pointsFirst) + ":" + NatToString(b.pointsSecond) + FencedToText(FencedToTokenOf(b))
  }

  /** A bout line as `write_felo_file` writes it (felo_rating.py:740-746). */
  function BoutLine(b: Bout): string {
    FillWithTabs(FillWithTabs(DateString(b), 2) + b.first + " -- " + b.second, 5) + ScoreText(b)
  }

  /** The tail `\s*((?:/\d+)|\*)?\s*\Z` of the bout pattern (felo_rating.py:526-527). */
  function ParseFencedTo(s: string): Option<FencedToToken> {
    var t := s[RegexSpaceRun(s)..];
    if t == [] then Some(NoFencedTo)
    else if t[0] == '*' && AllRegexSpace(t[1..]) then Some(Relay)
    else if t[0] == '/' then
      var k := DigitRun(t[1..]);
      if k > 0 && AllRegexSpace(t[1 + k..]) then Some(WinningPoints(DigitsValue(t[1..][..k]))) else None
    else None
  }

  /** The score column `(\d+):(\d+)` and its tail, as the bout pattern reads it. */
  function ParseScore(s: string): Option<(nat, nat, FencedToToken)> {
    var k1 := DigitRun(s);
    if k1 == 0 || k1 == |s| || s[k1] != ':' then None
    else
      var rest := s[k1 + 1..];
      var k2 := DigitRun(rest);
      if k2 == 0 then None
      else
        match ParseFencedTo(rest[k2..])
        case None => None
        case Some(t) => Some((DigitsValue(s[..k1]), DigitsValue(rest[..k2]), t))
  }

  /** The text after the last tab of a line. */
  function AfterLastTab(s: string): (r: string)
    ensures '\t' !in r
  {
    if s == [] then []
    else if s[|s| - 1] == '\t' then []
    else AfterLastTab(s[..|s| - 1]) + [s[|s| - 1]]
  }

  lemma {:induction false} AfterLastTabOf(prefix: string, tail: string)
    requires prefix != [] && prefix[|prefix| - 1] == '\t' && '\t' !in tail
    ensures AfterLastTab(prefix + tail) == tail
  {
    if tail == [] {
      assert prefix + tail == prefix;
    } else {
      var t' := tail[..|tail| - 1];
      assert (prefix + tail)[..|prefix + tail| - 1] == prefix + t';
      assert tail == t' + [tail[|tail| - 1]];
      AfterLastTabOf(prefix, t');
    }
  }

  lemma {:induction false} ParseFencedToOfText(t: FencedToToken)
    ensures ParseFencedTo(FencedToText(t)) == Some(t)
  {
    match t
    case NoFencedTo =>
    case Relay =>
      assert FencedToText(t)[RegexSpaceRun(FencedToText(t))..] == "*";
    case WinningPoints(n) =>
      var s := FencedToText(t);
      var digits := NatToString(n);
      assert RegexSpaceRun(s) == 0;
      assert s[1..] == digits + "";
      DigitRunOf(digits, "");
      assert s[1..][..|digits|] == digits;
  }

  lemma {:induction false} ScoreTextHasNoTab(b: Bout)
    ensures '\t' !in ScoreText(b)
  {
    var pf := NatToString(b.pointsFirst);
    var ps := NatToString(b.pointsSecond);
    var tail := FencedToText(FencedToTokenOf(b));
    assert forall i :: 0 <= i < |pf| ==> IsDigit(pf[i]);
    assert forall i :: 0 <= i < |ps| ==> IsDigit(ps[i]);
    if FencedToTokenOf(b).WinningPoints? {
      var n := NatToString(FencedToTokenOf(b).n);
      assert forall i :: 0 <= i < |n| ==> IsDigit(n[i]);
    }
    assert ScoreText(b) == pf + ":" + ps + tail;
  }

  /** The last tab-separated column of a written bout line is its score. */
  lemma {:induction false} BoutLineScoreColumn(b: Bout)
    ensures AfterLastTab(BoutLine(b)) == ScoreText(b)
  {
    ScoreTextHasNoTab(b);
    var head := FillWithTabs(FillWithTabs(DateString(b), 2) + b.first + " -- " + b.second, 5);
    AfterLastTabOf(head, ScoreText(b));
  }

  lemma {:induction false} ParseScoreOfParts(pf: string, ps: string, tail: string, t: FencedToToken)
    requires |pf| > 0 && AllDigits(pf) && |ps| > 0 && AllDigits(ps)
    requires tail == [] || !IsDigit(tail[0])
    requires ParseFencedTo(tail) == Some(t)
    ensures ParseScore(pf + ":" + ps + tail) == Some((DigitsValue(pf), DigitsValue(ps), t))
  {
    var s := pf + ":" + ps + tail;
    assert s == pf + (":" + ps + tail);
    DigitRunOf(pf, ":" + ps + tail);
    assert s[|pf|] == ':';
    var rest := s[|pf| + 1..];
    assert rest == ps + tail;
    DigitRunOf(ps, tail);
    assert rest[|ps|..] == tail;
    assert s[..|pf|] == pf;
    assert rest[..|ps|] == ps;
  }

  /** The score column reads back as the points and the token it was written from. */
  lemma {:induction false} ParseScoreOfScoreText(b: Bout)
    ensures ParseScore(ScoreText(b)) == Some((b.pointsFirst, b.pointsSecond, FencedToTokenOf(b)))
  {
    var t := FencedToTokenOf(b);
    var tail := FencedToText(t);
    assert tail == [] || !IsDigit(tail[0]);
    ParseFencedToOfText(t);
    ParseScoreOfParts(NatToString(b.pointsFirst), NatToString(b.pointsSecond), tail, t);
  }

  /** Reading back a written bout line yields its points, and `parse_bouts`
      derives the bout's winning points from them, whenever no fencer has
      more points than the winning points. */
  lemma {:induction false} BoutLineRoundTrip(b: Bout)
    requires b.fencedTo == 0 || (b.pointsFirst <= b.fencedTo && b.pointsSecond <= b.fencedTo)
    ensures AfterLastTab(BoutLine(b)) == ScoreText(b)
    ensures ParseScore(ScoreText(b)) == Some((b.pointsFirst, b.pointsSecond, FencedToTokenOf(b)))
    ensures ResolveFencedTo(FencedToTokenOf(b), b.pointsFirst, b.pointsSecond) == b.fencedTo
  {
    BoutLineScoreColumn(b);
    ParseScoreOfScoreText(b);
  }
}
