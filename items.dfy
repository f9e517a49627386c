/** The item sections of a Felo file (felo_rating.py:107-148 and
    656-668): "name <TAB> value" lines read up to a boundary line, the
    coercion of their values to int, float or text, and the fencers built
    from the section of initial Felo ratings. */
module Items {
  import opened Outcomes
  import opened Text
  import opened Fencers

  /** An item value as `parse_items` stores it. */
  datatype Value = IntValue(i: int) | FloatValue(x: real) | StrValue(s: string)

  /** Python's `float(s)` is a parameter of the model; all the model needs
      of it is that it reads every decimal integer literal as its value. */
  ghost predicate FloatAcceptsIntegers(parseFloat: string -> Option<real>) {
    forall s :: ParseInt(s).Some? ==> parseFloat(s) == Some(ParseInt(s).value as real)
  }

  /** The value coercion of `parse_items` (felo_rating.py:142-147): the text
      is kept unless `float` reads it, the float is kept unless `int` reads
      it too. */
  function Coerce(s: string, parseFloat: string -> Option<real>): Value {
    match parseFloat(s)
    case None => StrValue(s)
    case Some(x) =>
      match ParseInt(s)
      case Some(i) => IntValue(i)
      case None => FloatValue(x)
  }

  /** What each kind of coerced value says about the text: text stays text
      exactly when `float` refuses it, an int is what `int` reads, and a
      float is what `float` reads where `int` fails. */
  lemma CoerceMeans(s: string, parseFloat: string -> Option<real>)
    ensures var v := Coerce(s, parseFloat);
      && (v.StrValue? <==> parseFloat(s).None?)
      && (v.StrValue? ==> v.s == s)
      && (v.IntValue? ==> ParseInt(s) == Some(v.i))
      && (v.FloatValue? ==> parseFloat(s) == Some(v.x) && ParseInt(s).None?)
      && (FloatAcceptsIntegers(parseFloat) ==> (v.IntValue? <==> ParseInt(s).Some?))
  {
  }

  /** A written integer is read back as that integer. */
  lemma {:induction false} CoerceOfIntToString(i: int, parseFloat: string -> Option<real>)
    requires FloatAcceptsIntegers(parseFloat)
    ensures Coerce(IntToString(i), parseFloat) == IntValue(i)
  {
    ParseIntOfIntToString(i);
  }

  // ---------------------------------------------------------------------
  // Lines of an item section

  /** The characters that open a boundary line (felo_rating.py:138, 778). */
  predicate IsBoundaryChar(c: char) {
    || c == '-' || c == '=' || c == '.' || c == '_' || c == ':' || c == ';' || c == ','
    || c == '+' || c == '*' || c == '\'' || c == '~' || c == '"' || c == '`' || c == '\U{b4}'
    || c == '/' || c == '\\' || c == '%' || c == '$' || c == '!'
  }

  /** `clean_up_line`, behind a few recursive steps so that the verifier
      does not unfold it where only the cleaned line matters. */
  function Cleaned(line: string): (r: string)
    ensures Trimmed(r) && '#' !in r
  {
    CleanAfterIs(line);
    CleanAfter(line, |line| + 2)
  }

  function CleanAfter(line: string, steps: nat): string
    requires |line| <= steps
    decreases steps - |line|
  {
    if steps > |line| then CleanAfter(line, steps - 1) else CleanUpLine(line)
  }

  lemma CleanAfterIs(line: string)
    ensures CleanAfter(line, |line| + 2) == CleanUpLine(line)
  {
    assert CleanAfter(line, |line|) == CleanUpLine(line);
    assert CleanAfter(line, |line| + 1) == CleanAfter(line, |line|);
  }

  lemma CleanedIsCleanUpLine(line: string)
    ensures Cleaned(line) == CleanUpLine(line)
  {
    CleanAfterIs(line);
  }

  /** A line whose cleaned form starts with a boundary character. */
  predicate IsBoundary(line: string) {
    var c := Cleaned(line);
    c != [] && IsBoundaryChar(c[0])
  }

  /** `s` without the trailing run that `\s*` matches. */
  function TrimRegexSpaceEnd(s: string): (r: string)
    ensures |r| <= |s| && r == s[..|r|]
    ensures r == [] || !IsRegexSpace(r[|r| - 1])
    ensures AllRegexSpace(s[|r|..])
  {
    if s == [] || !IsRegexSpace(s[|s| - 1]) then s
    else
      var r := TrimRegexSpaceEnd(s[..|s| - 1]);
      assert s[|r|..] == s[..|s| - 1][|r|..] + [s[|s| - 1]];
      r
  }

  /** The item pattern `\s*(?P<name>[^\t]+?)\s*\t+\s*(?P<value>.+?)\s*\Z`
      (felo_rating.py:132) on a cleaned line: the name is the text before
      the first tab without its trailing whitespace, the value is what
      follows the run of whitespace that starts at that tab; `.` does not
      match a newline. */
  function SplitItem(line: string): (r: Option<(string, string)>)
    requires Trimmed(line)
    ensures r.Some? ==> r.value.0 != [] && '\t' !in r.value.0 && r.value.1 != []
  {
    SplitItemAfterIs(line);
    SplitItemAfter(line, |line| + 2)
  }

  /** The split, behind a few recursive steps so that the verifier does not
      unfold it where only its outcome matters. */
  function SplitItemAfter(line: string, steps: nat): Option<(string, string)>
    requires |line| <= steps && Trimmed(line)
    decreases steps - |line|
  {
    if steps > |line| then SplitItemAfter(line, steps - 1) else Split(line)
  }

  lemma SplitItemAfterIs(line: string)
    requires Trimmed(line)
    ensures SplitItemAfter(line, |line| + 2) == Split(line)
  {
    assert SplitItemAfter(line, |line|) == Split(line);
    assert SplitItemAfter(line, |line| + 1) == SplitItemAfter(line, |line|);
  }

  lemma SplitItemIsSplit(line: string)
    requires Trimmed(line)
    ensures SplitItem(line) == Split(line)
  {
    SplitItemAfterIs(line);
  }

  function Split(line: string): (r: Option<(string, string)>)
    requires Trimmed(line)
    ensures r.Some? ==> r.value.0 != [] && '\t' !in r.value.0 && r.value.1 != []
  {
    var k := Find(line, '\t');
    if k <= 0 then None
    else
      var name := TrimRegexSpaceEnd(line[..k]);
      var rest := line[k..];
      var value := rest[RegexSpaceRun(rest)..];
      assert forall c :: c in name ==> c in line[..k];
      if name == [] || value == [] || '\n' in value then None else Some((name, value))
  }

  lemma {:induction false} RegexSpaceRunOf(spaces: string, rest: string)
    requires AllRegexSpace(spaces)
    requires rest == [] || !IsRegexSpace(rest[0])
    ensures RegexSpaceRun(spaces + rest) == |spaces|
  {
    if spaces == [] {
      assert spaces + rest == rest;
    } else {
      assert (spaces + rest)[1..] == spaces[1..] + rest;
      RegexSpaceRunOf(spaces[1..], rest);
    }
  }

  /** The line `fill_with_tabs(name, col) + value` is its own cleaned form,
      and the item pattern splits it back into `name` and `value`. */
  lemma {:induction false} SplitItemOfFilled(name: string, col: int, value: string)
    requires name != [] && PlainText(name) && Trimmed(name) && '#' !in name
    requires value != [] && Trimmed(value) && '#' !in value && '\n' !in value
    ensures Trimmed(FillWithTabs(name, col) + value)
    ensures Cleaned(FillWithTabs(name, col) + value) == FillWithTabs(name, col) + value
    ensures SplitItem(FillWithTabs(name, col) + value) == Some((name, value))
  {
    var filled := FillWithTabs(name, col);
    var tabs := filled[|name|..];
    assert filled == name + tabs;
    var line := filled + value;
    assert line == name + tabs + value;
    TabbedLineClean(name, tabs, value);
    SplitOfTabbed(name, tabs, value);
    SplitItemIsSplit(line);
  }

  lemma TabbedLineClean(name: string, tabs: string, value: string)
    requires name != [] && Trimmed(name) && '#' !in name
    requires forall i :: 0 <= i < |tabs| ==> tabs[i] == '\t'
    requires value != [] && Trimmed(value) && '#' !in value
    ensures Trimmed(name + tabs + value)
    ensures Cleaned(name + tabs + value) == name + tabs + value
  {
    var line := name + tabs + value;
    assert line[0] == name[0];
    assert line[|line| - 1] == value[|value| - 1];
    assert '#' !in line by {
      assert forall c :: c in line ==> c in name || c in tabs || c in value;
    }
    CleanUpLineOfTrimmed(line);
    CleanedIsCleanUpLine(line);
  }

  lemma SplitOfTabbed(name: string, tabs: string, value: string)
    requires name != [] && '\t' !in name && !IsRegexSpace(name[|name| - 1])
    requires tabs != [] && forall i :: 0 <= i < |tabs| ==> tabs[i] == '\t'
    requires value != [] && !IsRegexSpace(value[0]) && '\n' !in value
    requires Trimmed(name + tabs + value)
    ensures Split(name + tabs + value) == Some((name, value))
  {
    var line := name + tabs + value;
    assert line[..|name|] == name;
    assert line[|name|] == '\t';
    assert Find(line, '\t') == |name|;
    assert TrimRegexSpaceEnd(name) == name;
    assert line[|name|..] == tabs + value;
    RegexSpaceRunOf(tabs, value);
    assert (tabs + value)[|tabs|..] == value;
  }

  /** Lines `i` to `n - 1` hold no boundary line but the last, and the
      last is one unless it ends the file. */
  predicate SectionEnd(lines: seq<string>, i: nat, n: nat)
    requires i <= n <= |lines|
  {
    && (n == |lines| || (i < n && IsBoundary(lines[n - 1])))
    && forall j :: i <= j < n - 1 ==> !IsBoundary(lines[j])
  }

  /** Line `n` (1-based) is the first line from line `i + 1` on that is
      neither blank nor a boundary nor an item. */
  predicate NotAnItemAt(lines: seq<string>, i: nat, n: nat)
    requires i < n <= |lines|
  {
    && (var line := Cleaned(lines[n - 1]);
        line != [] && !IsBoundaryChar(line[0]) && SplitItem(line).None?)
    && forall j :: i <= j < n - 1 ==> !IsBoundary(lines[j])
  }

  /** What `parse_items` returns when it has already read `i` lines of
      `lines` and collected `items` (felo_rating.py:133-148): blank lines
      are skipped, a boundary line ends the section and counts as read, a
      line the item pattern does not split is a `LineError` with its
      1-based number, and a later item of the same name replaces an
      earlier one. */
  function ParseItemsFrom(lines: seq<string>, i: nat, items: map<string, Value>,
                          parseFloat: string -> Option<real>): (r: Result<(map<string, Value>, nat)>)
    requires i <= |lines|
    ensures r.Ok? ==> items.Keys <= r.value.0.Keys && i <= r.value.1 <= |lines|
    ensures r.Err? ==> r.error.LineError? && r.error.problem == NotAnItem && i < r.error.line <= |lines|
    decreases |lines| - i
  {
    if i == |lines| then Ok((items, i))
    else
      var line := Cleaned(lines[i]);
      if line == [] then ParseItemsFrom(lines, i + 1, items, parseFloat)
      else if IsBoundaryChar(line[0]) then Ok((items, i + 1))
      else
        match SplitItem(line)
        case None => Err(LineError(NotAnItem, i + 1))
        case Some(item) => ParseItemsFrom(lines, i + 1, items[item.0 := Coerce(item.1, parseFloat)], parseFloat)
  }

  /** The section read ends at the first boundary line, or at the end of
      the file when there is none. */
  lemma {:induction false} ParseItemsStopsAtBoundary(lines: seq<string>, i: nat, items: map<string, Value>,
                                                     parseFloat: string -> Option<real>)
    requires i <= |lines|
    ensures var r := ParseItemsFrom(lines, i, items, parseFloat);
            r.Ok? ==> SectionEnd(lines, i, r.value.1)
    decreases |lines| - i
  {
    if i < |lines| {
      var line := Cleaned(lines[i]);
      if line == [] || !IsBoundaryChar(line[0]) {
        assert !IsBoundary(lines[i]);
        var next := items;
        if line != [] && SplitItem(line).Some? {
          var item := SplitItem(line).value;
          next := items[item.0 := Coerce(item.1, parseFloat)];
        }
        var r := ParseItemsFrom(lines, i + 1, next, parseFloat);
        if line == [] || SplitItem(line).Some? {
          assert ParseItemsFrom(lines, i, items, parseFloat) == r;
          ParseItemsStopsAtBoundary(lines, i + 1, next, parseFloat);
          if r.Ok? {
            NoBoundaryBefore(lines, i, r.value.1);
          }
        }
      }
    }
  }

  lemma NoBoundaryBefore(lines: seq<string>, i: nat, n: nat)
    requires i < n <= |lines|
    requires !IsBoundary(lines[i]) && SectionEnd(lines, i + 1, n)
    ensures SectionEnd(lines, i, n)
  {
  }

  /** A `LineError` names the first line before any boundary line that is
      neither blank nor an item. */
  lemma {:induction false} ParseItemsErrorLine(lines: seq<string>, i: nat, items: map<string, Value>,
                                               parseFloat: string -> Option<real>)
    requires i <= |lines|
    ensures var r := ParseItemsFrom(lines, i, items, parseFloat);
            r.Err? ==> NotAnItemAt(lines, i, r.error.line)
    decreases |lines| - i
  {
    if i < |lines| {
      var line := Cleaned(lines[i]);
      if line == [] || !IsBoundaryChar(line[0]) {
        assert !IsBoundary(lines[i]);
        if line == [] {
          ParseItemsErrorLine(lines, i + 1, items, parseFloat);
        } else if SplitItem(line).Some? {
          var item := SplitItem(line).value;
          ParseItemsErrorLine(lines, i + 1, items[item.0 := Coerce(item.1, parseFloat)], parseFloat);
        }
      }
    }
  }

  /** `parse_items` (felo_rating.py:107-148) on the lines of a file of which
      `start` lines are already read. */
  method ParseItems(lines: seq<string>, start: nat, parseFloat: string -> Option<real>)
    returns (r: Result<(map<string, Value>, nat)>)
    requires start <= |lines|
    ensures r == ParseItemsFrom(lines, start, map[], parseFloat)
  {
    var items: map<string, Value> := map[];
    var i := start;
    while i < |lines|
      invariant start <= i <= |lines|
      invariant ParseItemsFrom(lines, i, items, parseFloat) == ParseItemsFrom(lines, start, map[], parseFloat)
    {
      var line := Cleaned(lines[i]);
      if line != [] {
        if IsBoundaryChar(line[0]) {
          return Ok((items, i + 1));
        }
        var item := SplitItem(line);
        if item.None? {
          return Err(LineError(NotAnItem, i + 1));
        }
        items := items[item.value.0 := Coerce(item.value.1, parseFloat)];
      }
      i := i + 1;
    }
    return Ok((items, i));
  }

  /** The line `write_back_fencers` and `write_felo_file` write for an item. */
  function ItemLine(name: string, col: int, value: string): string {
    FillWithTabs(name, col) + value
  }

  /** A name and a value that an item line can carry: the name is not blank,
      does not open a boundary line and holds no tab, line break or
      comment; the value is not blank and holds no comment or newline. */
  predicate WritableItem(name: string, value: string) {
    && name != [] && PlainText(name) && Trimmed(name) && '#' !in name && !IsBoundaryChar(name[0])
    && value != [] && Trimmed(value) && '#' !in value && '\n' !in value
  }

  /** Lines `i` on are the item lines of `pairs`, in order. */
  predicate WrittenRun(lines: seq<string>, i: nat, col: int, pairs: seq<(string, string)>) {
    WrittenRunAfter(lines, i, col, pairs, |pairs| + 2)
  }

  predicate WrittenRunAfter(lines: seq<string>, i: nat, col: int, pairs: seq<(string, string)>, steps: nat)
    requires |pairs| <= steps
    decreases steps - |pairs|
  {
    if steps > |pairs| then WrittenRunAfter(lines, i, col, pairs, steps - 1)
    else
      && i + |pairs| <= |lines|
      && (forall j :: 0 <= j < |pairs| ==> WritableItem(pairs[j].0, pairs[j].1))
      && (forall j :: 0 <= j < |pairs| ==> lines[i + j] == ItemLine(pairs[j].0, col, pairs[j].1))
  }

  lemma WrittenRunMeans(lines: seq<string>, i: nat, col: int, pairs: seq<(string, string)>)
    ensures WrittenRun(lines, i, col, pairs) <==> WrittenRunAfter(lines, i, col, pairs, |pairs|)
  {
    assert WrittenRunAfter(lines, i, col, pairs, |pairs| + 1) == WrittenRunAfter(lines, i, col, pairs, |pairs|);
  }

  lemma WrittenRunBound(lines: seq<string>, i: nat, col: int, pairs: seq<(string, string)>)
    requires WrittenRun(lines, i, col, pairs)
    ensures i + |pairs| <= |lines|
  {
    WrittenRunMeans(lines, i, col, pairs);
  }

  /** `items` after reading the given (name, value) pairs in order. */
  function Collect(items: map<string, Value>, pairs: seq<(string, string)>,
                   parseFloat: string -> Option<real>): map<string, Value>
    decreases |pairs|
  {
    if pairs == [] then items
    else
      var last := pairs[|pairs| - 1];
      Collect(items, pairs[..|pairs| - 1], parseFloat)[last.0 := Coerce(last.1, parseFloat)]
  }

  /** A run of written item lines is read back into the items it was
      written from: reading across it is the same as collecting its pairs. */
  lemma ParseItemsOfWritten(lines: seq<string>, i: nat, col: int, pairs: seq<(string, string)>,
                             items: map<string, Value>, parseFloat: string -> Option<real>)
    requires WrittenRun(lines, i, col, pairs)
    ensures i + |pairs| <= |lines|
    ensures ParseItemsFrom(lines, i, items, parseFloat)
         == ParseItemsFrom(lines, i + |pairs|, Collect(items, pairs, parseFloat), parseFloat)
  {
    WrittenRunBound(lines, i, col, pairs);
    for k := 0 to |pairs|
      invariant ParseItemsFrom(lines, i, items, parseFloat)
             == ParseItemsFrom(lines, i + k, Collect(items, pairs[..k], parseFloat), parseFloat)
    {
      ReadWrittenAt(lines, i, k, col, pairs, items, parseFloat);
    }
    assert pairs[..|pairs|] == pairs;
  }

  /** Reading item line `k` of a written run adds pair `k` to the items
      collected from the pairs before it. */
  lemma ReadWrittenAt(lines: seq<string>, i: nat, k: nat, col: int, pairs: seq<(string, string)>,
                      items: map<string, Value>, parseFloat: string -> Option<real>)
    requires WrittenRun(lines, i, col, pairs) && k < |pairs|
    ensures i + k < |lines|
    ensures ParseItemsFrom(lines, i + k, Collect(items, pairs[..k], parseFloat), parseFloat)
         == ParseItemsFrom(lines, i + (k + 1), Collect(items, pairs[..k + 1], parseFloat), parseFloat)
  {
    WrittenRunMeans(lines, i, col, pairs);
    var upTo := pairs[..k + 1];
    assert upTo[..k] == pairs[..k] && upTo[k] == pairs[k];
    ReadWrittenPair(lines, i + k, col, upTo, items, parseFloat);
  }

  /** Reading the item line of the last pair of `pairs` adds that pair to
      the items collected from the pairs before it. */
  lemma ReadWrittenPair(lines: seq<string>, j: nat, col: int, pairs: seq<(string, string)>,
                        items: map<string, Value>, parseFloat: string -> Option<real>)
    requires pairs != [] && j < |lines|
    requires WritableItem(pairs[|pairs| - 1].0, pairs[|pairs| - 1].1)
    requires lines[j] == ItemLine(pairs[|pairs| - 1].0, col, pairs[|pairs| - 1].1)
    ensures ParseItemsFrom(lines, j, Collect(items, pairs[..|pairs| - 1], parseFloat), parseFloat)
         == ParseItemsFrom(lines, j + 1, Collect(items, pairs, parseFloat), parseFloat)
  {
    var n := |pairs| - 1;
    ReadWrittenItem(lines, j, col, pairs[n].0, pairs[n].1, Collect(items, pairs[..n], parseFloat), parseFloat);
    CollectLast(items, pairs, parseFloat);
  }

  lemma ChainItems<T>(a: T, b: T, c: T)
    requires a == b && b == c
    ensures a == c
  {
  }

  lemma CollectLast(items: map<string, Value>, pairs: seq<(string, string)>, parseFloat: string -> Option<real>)
    requires pairs != []
    ensures var n := |pairs| - 1;
      Collect(items, pairs, parseFloat) == Collect(items, pairs[..n], parseFloat)[pairs[n].0 := Coerce(pairs[n].1, parseFloat)]
  {
  }

  lemma ReadWrittenItem(lines: seq<string>, i: nat, col: int, name: string, value: string,
                        items: map<string, Value>, parseFloat: string -> Option<real>)
    requires i < |lines| && WritableItem(name, value) && lines[i] == ItemLine(name, col, value)
    ensures ParseItemsFrom(lines, i, items, parseFloat)
         == ParseItemsFrom(lines, i + 1, items[name := Coerce(value, parseFloat)], parseFloat)
  {
    SplitItemOfFilled(name, col, value);
    assert Cleaned(lines[i])[0] == name[0];
  }

  // ---------------------------------------------------------------------
  // Fencers

  /** The fencer an item of the initial-ratings section describes
      (felo_rating.py:657-668): a number is the initial rating; text must
      read "R (w)", an integer rating followed by the initial total
      weighting in parentheses; the character before the end is not
      checked to be ")". */
  function FencerOfItem(name: string, v: Value, params: Parameters,
                        parseFloat: string -> Option<real>): (r: Result<FencerState>)
    ensures v.IntValue? ==> r == NewFencer(name, IntNum(v.i), params, 0.0)
    ensures v.FloatValue? ==> r == NewFencer(name, FloatNum(v.x), params, 0.0)
    ensures v.StrValue? && '(' !in v.s ==> r == Err(InvalidFeloRating(name))
    ensures r.Err? ==> r.error == InvalidFeloRating(name) || r.error == InvalidForeignRating(name)
  {
    match v
    case IntValue(i) => NewFencer(name, IntNum(i), params, 0.0)
    case FloatValue(x) => NewFencer(name, FloatNum(x), params, 0.0)
    case StrValue(s) =>
      var p := Find(s, '(');
      if p == -1 then Err(InvalidFeloRating(name))
      else
        var inner := if p + 1 <= |s| - 1 then s[p + 1..|s| - 1] else "";
        match parseFloat(inner)
        case None => Err(InvalidFeloRating(name))
        case Some(w) =>
          match ParseInt(s[..p])
          case None => Err(InvalidFeloRating(name))
          case Some(rating) => NewFencer(name, IntNum(rating), params, w)
  }

  lemma {:induction false} StripSpaceAfter(t: string)
    requires t != [] && Trimmed(t)
    ensures Strip(t + " ") == t
  {
    var s := t + " ";
    assert LStrip(s) == s;
    assert s[..|s| - 1] == t;
    assert RStrip(s) == RStrip(t);
    StripTrimmed(t);
  }

  /** The rating text "R (w)" gives the fencer initial rating R and initial
      total weighting w. */
  lemma {:induction false} FencerOfRatingWithWeighting(name: string, rating: int, wText: string, w: real,
                                                      params: Parameters, parseFloat: string -> Option<real>)
    requires parseFloat(wText) == Some(w)
    ensures FencerOfItem(name, StrValue(IntToString(rating) + " (" + wText + ")"), params, parseFloat)
         == NewFencer(name, IntNum(rating), params, w)
  {
    var r := IntToString(rating);
    var s := r + " (" + wText + ")";
    RatingTextParts(rating, wText);
    StripSpaceAfter(r);
    ParseIntOfIntToString(rating);
    ParseIntIsReadInt(r);
    ParseIntIsReadInt(r + " ");
  }

  /** Where "R (w)" splits: the parenthesis follows the written rating and
      one space. */
  lemma RatingTextParts(rating: int, wText: string)
    ensures var r := IntToString(rating);
      var s := r + " (" + wText + ")";
      r != [] && Trimmed(r) && Find(s, '(') == |r| + 1 && s[..|r| + 1] == r + " "
      && s[|r| + 2..|s| - 1] == wText
  {
    var r := IntToString(rating);
    var s := r + " (" + wText + ")";
    IntToStringShape(rating);
    assert '(' !in r by {
      forall k | 0 <= k < |r|
        ensures r[k] != '('
      {
        if k > 0 || rating >= 0 {
          assert r[k] == (if rating < 0 then r[1..][k - 1] else r[k]);
        }
      }
    }
    assert s[..|r| + 1] == r + " ";
    assert s[|r| + 1] == '(';
    assert s[|r| + 2..|s| - 1] == wText;
  }

  /** `fencers` is a dictionary the loop over the initial ratings can
      leave behind: every item gives a fencer filed under its own name, and
      every entry is one of those fencers. */
  ghost predicate FencersFrom(items: map<string, Value>, params: Parameters, parseFloat: string -> Option<real>,
                              fencers: map<string, FencerState>)
  {
    && (forall n :: n in items ==>
          FencerOfItem(n, items[n], params, parseFloat).Ok? && FencerOfItem(n, items[n], params, parseFloat).value.name in fencers)
    && (forall k :: k in fencers ==>
          (fencers[k].name == k && exists n :: n in items && FencerOfItem(n, items[n], params, parseFloat) == Ok(fencers[k])))
  }

  /** `parse_felo_file`'s loop over the initial ratings
      (felo_rating.py:657-670): every item must give a fencer, and the
      fencers are filed under their own names, so a hidden fencer loses
      its parentheses; of two items for the same name one wins. */
  method FencersOfItems(items: map<string, Value>, params: Parameters, parseFloat: string -> Option<real>)
    returns (r: Result<map<string, FencerState>>)
    ensures r.Ok? <==> forall n :: n in items ==> FencerOfItem(n, items[n], params, parseFloat).Ok?
    ensures r.Err? ==> exists n :: n in items && FencerOfItem(n, items[n], params, parseFloat) == Err(r.error)
    ensures r.Ok? ==> forall n :: n in items ==> FencerOfItem(n, items[n], params, parseFloat).value.name in r.value
    ensures r.Ok? ==> forall k :: k in r.value ==>
      (r.value[k].name == k && exists n :: n in items && FencerOfItem(n, items[n], params, parseFloat) == Ok(r.value[k]))
  {
    var fencers: map<string, FencerState> := map[];
    var todo := items.Keys;
    while todo != {}
      invariant todo <= items.Keys
      invariant forall n :: n in items.Keys - todo ==> FencerOfItem(n, items[n], params, parseFloat).Ok?
      invariant forall n :: n in items.Keys - todo ==> FencerOfItem(n, items[n], params, parseFloat).value.name in fencers
      invariant forall k :: k in fencers ==>
        (fencers[k].name == k && exists n :: n in items && FencerOfItem(n, items[n], params, parseFloat) == Ok(fencers[k]))
      decreases |todo|
    {
      var name :| name in todo;
      var f := FencerOfItem(name, items[name], params, parseFloat);
      if f.Err? {
        return Err(f.error);
      }
      fencers := fencers[f.value.name := f.value];
      todo := todo - {name};
    }
    return Ok(fencers);
  }
}
