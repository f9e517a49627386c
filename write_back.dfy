/** `write_back_fencers` (felo_rating.py:750-796): the fencers section of a
    Felo file, between its two boundary lines, is rewritten from the
    fencers, while the lines before it (with the comments and blank lines
    that open the section) and the lines from the second boundary on stay
    as they were. */
module WriteBack {
  import opened Outcomes
  import opened Text
  import opened Fencers
  import opened Items

  // ---------------------------------------------------------------------
  // The order of `sort()` on the fencers' names

  /** Python's order on strings: character by character, a proper prefix
      first. */
  predicate Less(a: string, b: string)
    decreases |a|
  {
    if a == [] then b != []
    else if b == [] then false
    else if a[0] != b[0] then a[0] < b[0]
    else Less(a[1..], b[1..])
  }

  lemma {:induction false} LessIrreflexive(a: string)
    ensures !Less(a, a)
    decreases |a|
  {
    if a != [] {
      LessIrreflexive(a[1..]);
    }
  }

  lemma {:induction false} LessAsymmetric(a: string, b: string)
    requires Less(a, b)
    ensures !Less(b, a)
    decreases |a|
  {
    if a != [] && b != [] && a[0] == b[0] {
      LessAsymmetric(a[1..], b[1..]);
    }
  }

  lemma {:induction false} LessTransitive(a: string, b: string, c: string)
    requires Less(a, b) && Less(b, c)
    ensures Less(a, c)
    decreases |a|
  {
    if a != [] && a[0] == b[0] && b[0] == c[0] {
      LessTransitive(a[1..], b[1..], c[1..]);
    }
  }

  lemma {:induction false} LessTotal(a: string, b: string)
    requires a != b
    ensures Less(a, b) || Less(b, a)
    decreases |a|
  {
    if a != [] && b != [] && a[0] == b[0] {
      assert a == [a[0]] + a[1..] && b == [b[0]] + b[1..];
      LessTotal(a[1..], b[1..]);
    }
  }

  /** `m` is the first of `keys` in that order. */
  predicate IsLeast(m: string, keys: set<string>) {
    m in keys && forall x :: x in keys && x != m ==> Less(m, x)
  }

  lemma {:induction false} LeastExists(keys: set<string>)
    requires keys != {}
    ensures exists m :: IsLeast(m, keys)
    decreases |keys|
  {
    var x :| x in keys;
    if keys != {x} {
      var rest := keys - {x};
      LeastExists(rest);
      var m :| IsLeast(m, rest);
      if Less(x, m) {
        forall y | y in keys && y != x
          ensures Less(x, y)
        {
          if y != m {
            LessTransitive(x, m, y);
          }
        }
        assert IsLeast(x, keys);
      } else {
        LessTotal(x, m);
        assert IsLeast(m, keys);
      }
    } else {
      assert IsLeast(x, keys);
    }
  }

  lemma LeastUnique(m: string, n: string, keys: set<string>)
    requires IsLeast(m, keys) && IsLeast(n, keys)
    ensures m == n
  {
    if m != n {
      LessAsymmetric(m, n);
    }
  }

  ghost function Least(keys: set<string>): (m: string)
    requires keys != {}
    ensures IsLeast(m, keys)
  {
    LeastExists(keys);
    var m :| IsLeast(m, keys);
    m
  }

  /** The names in strictly increasing order. */
  predicate InNameOrder(names: seq<string>) {
    forall i, j :: 0 <= i < j < |names| ==> Less(names[i], names[j])
  }

  /** The keys in the order `sort()` puts them. */
  ghost function NameOrder(keys: set<string>): (r: seq<string>)
    ensures InNameOrder(r)
    ensures forall x :: x in r <==> x in keys
    decreases |keys|
  {
    if keys == {} then []
    else
      var m := Least(keys);
      var rest := NameOrder(keys - {m});
      var r := [m] + rest;
      assert forall j :: 0 < j < |r| ==> Less(m, r[j]) by {
        forall j | 0 < j < |r|
          ensures Less(m, r[j])
        {
          assert r[j] in rest;
        }
      }
      r
  }

  lemma FirstIsIn(a: seq<string>)
    requires a != []
    ensures a[0] in a
  {
  }

  /** There is one increasing order of a set of names, so the section is
      written the same way whatever order the dictionary yields. */
  lemma {:induction false} NameOrderUnique(a: seq<string>, b: seq<string>)
    requires InNameOrder(a) && InNameOrder(b)
    requires forall x :: x in a <==> x in b
    ensures a == b
    decreases |a|
  {
    if a != [] && b != [] {
      if a[0] != b[0] {
        assert b[0] in a;
        var i :| 0 <= i < |a| && a[i] == b[0];
        assert a[0] in b;
        var j :| 0 <= j < |b| && b[j] == a[0];
        assert Less(a[0], b[0]) && Less(b[0], a[0]);
        LessAsymmetric(a[0], b[0]);
      }
      forall x
        ensures x in a[1..] <==> x in b[1..]
      {
        if x in a[1..] {
          var i :| 1 <= i < |a| && a[i] == x;
          assert Less(a[0], x);
          LessIrreflexive(x);
          assert x in a && x in b;
          var j :| 0 <= j < |b| && b[j] == x;
          assert b[1..][j - 1] == x;
        }
        if x in b[1..] {
          var j :| 1 <= j < |b| && b[j] == x;
          assert Less(b[0], x);
          LessIrreflexive(x);
          assert x in b && x in a;
          var i :| 0 <= i < |a| && a[i] == x;
          assert a[1..][i - 1] == x;
        }
      }
      NameOrderUnique(a[1..], b[1..]);
    } else if a != [] {
      FirstIsIn(a);
      assert false;
    } else if b != [] {
      FirstIsIn(b);
      assert false;
    }
  }

  // ---------------------------------------------------------------------
  // Finding the fencers section

  /** The numbers of the boundary lines among the first `n` lines, in
      increasing order. */
  function BoundariesBelow(lines: seq<string>, n: nat): seq<nat>
    requires n <= |lines|
  {
    if n == 0 then []
    else BoundariesBelow(lines, n - 1) + (if IsBoundary(lines[n - 1]) then [n - 1] else [])
  }

  /** Every number listed is that of a boundary line below `n`. */
  lemma {:induction false} BoundariesBelowAreBoundaries(lines: seq<string>, n: nat)
    requires n <= |lines|
    ensures forall k :: 0 <= k < |BoundariesBelow(lines, n)| ==>
      BoundariesBelow(lines, n)[k] < n && IsBoundary(lines[BoundariesBelow(lines, n)[k]])
  {
    if n > 0 {
      BoundariesBelowAreBoundaries(lines, n - 1);
      var prev := BoundariesBelow(lines, n - 1);
      var b := BoundariesBelow(lines, n);
      forall k | 0 <= k < |b|
        ensures b[k] < n && IsBoundary(lines[b[k]])
      {
        if k < |prev| {
          assert b[k] == prev[k];
        }
      }
    }
  }

  /** The numbers are listed in increasing order. */
  lemma {:induction false} BoundariesBelowIncrease(lines: seq<string>, n: nat)
    requires n <= |lines|
    ensures forall k, k' :: 0 <= k < k' < |BoundariesBelow(lines, n)| ==>
      BoundariesBelow(lines, n)[k] < BoundariesBelow(lines, n)[k']
  {
    if n > 0 {
      BoundariesBelowIncrease(lines, n - 1);
      BoundariesBelowAreBoundaries(lines, n - 1);
      var prev := BoundariesBelow(lines, n - 1);
      var b := BoundariesBelow(lines, n);
      forall k, k' | 0 <= k < k' < |b|
        ensures b[k] < b[k']
      {
        assert b[k] == prev[k];
        if k' < |prev| {
          assert b[k'] == prev[k'];
        }
      }
    }
  }

  /** No boundary line below `n` is missing. */
  lemma {:induction false} BoundariesBelowComplete(lines: seq<string>, n: nat)
    requires n <= |lines|
    ensures forall j :: 0 <= j < n && IsBoundary(lines[j]) ==> j in BoundariesBelow(lines, n)
  {
    if n > 0 {
      BoundariesBelowComplete(lines, n - 1);
      var prev := BoundariesBelow(lines, n - 1);
      var b := BoundariesBelow(lines, n);
      forall j | 0 <= j < n && IsBoundary(lines[j])
        ensures j in b
      {
        if j < n - 1 {
          var k :| 0 <= k < |prev| && prev[k] == j;
          assert b[k] == j;
        } else {
          assert b[|b| - 1] == j;
        }
      }
    }
  }

  /** With exactly two boundary lines, the first comes before the second,
      and no other line is one. */
  lemma TwoBoundaries(lines: seq<string>)
    requires |BoundariesBelow(lines, |lines|)| == 2
    ensures var b := BoundariesBelow(lines, |lines|);
      && b[0] < b[1] < |lines| && IsBoundary(lines[b[0]]) && IsBoundary(lines[b[1]])
      && forall j :: 0 <= j < |lines| && j != b[0] && j != b[1] ==> !IsBoundary(lines[j])
  {
    BoundariesBelowAreBoundaries(lines, |lines|);
    BoundariesBelowIncrease(lines, |lines|);
    BoundariesBelowComplete(lines, |lines|);
  }

  /** A line whose first non-blank character opens a comment, or a blank
      line: one of the lines that open the fencers section. */
  predicate IsIntroLine(line: string) {
    IntroAfter(line, |line|, |line| + 2)
  }

  /** The test for an opening line, behind a few recursive steps so that
      proofs about positions of lines do not unfold it; IntroLineIs gives
      it back. */
  predicate IntroAfter(line: string, i: nat, steps: nat)
    requires i <= steps
    decreases steps - i
  {
    if steps > i then IntroAfter(line, i, steps - 1)
    else var t := LStrip(line); t == [] || t[0] == '#'
  }

  lemma IntroLineIs(line: string)
    ensures IsIntroLine(line) == (var t := LStrip(line); t == [] || t[0] == '#')
  {
    assert IntroAfter(line, |line|, |line| + 2) == IntroAfter(line, |line|, |line| + 1);
    assert IntroAfter(line, |line|, |line| + 1) == IntroAfter(line, |line|, |line|);
  }

  lemma AllSpaceStrip(s: string)
    requires forall i :: 0 <= i < |s| ==> IsSpace(s[i])
    ensures Strip(s) == []
  {
    assert LStrip(s) == [];
  }

  /** A boundary line never opens the section: its cleaned form starts
      with a boundary character, while an opening line cleans to nothing. */
  lemma BoundaryIsNotIntro(line: string)
    requires IsBoundary(line)
    ensures !IsIntroLine(line)
  {
    if IsIntroLine(line) {
      IntroIsBlank(line);
    }
  }

  /** An opening line is blank once cleaned, so reading items skips it. */
  lemma IntroIsBlank(line: string)
    requires IsIntroLine(line)
    ensures Cleaned(line) == []
  {
    IntroLineIs(line);
    CleanedIsCleanUpLine(line);
    if '#' in line {
      AllSpaceStrip(line[..Find(line, '#')]);
    } else {
      AllSpaceStrip(line);
    }
  }

  /** The line before the first fencer line: the first boundary and the
      opening lines after it are kept (felo_rating.py:781-782). */
  function AfterIntro(lines: seq<string>, l0: nat, l1: nat): (r: nat)
    requires l0 < l1 < |lines| && IsBoundary(lines[l1])
    ensures l0 <= r < l1 && !IsIntroLine(lines[r + 1])
    ensures forall k :: l0 < k <= r ==> IsIntroLine(lines[k])
    decreases l1 - l0
  {
    if IsIntroLine(lines[l0 + 1]) then
      BoundaryIsNotIntro(lines[l1]);
      AfterIntro(lines, l0 + 1, l1)
    else l0
  }

  // ---------------------------------------------------------------------
  // Fencer lines

  /** The name written for a fencer: in parentheses when hidden. */
  function ShownName(f: FencerState): string {
    if f.hidden then "(" + f.name + ")" else f.name
  }

  /** `str` of an initial rating; `str` of a float is a parameter. */
  function NumText(n: Num, floatText: real -> string): string {
    match n
    case IntNum(i) => IntToString(i)
    case FloatNum(x) => floatText(x)
  }

  /** The text after the tabs: the initial rating, and "(w)" with the
      initial total weighting formatted by `%g` when it is not 0. */
  function RatingText(f: FencerState, floatText: real -> string, formatG: real -> string): string {
    NumText(f.initialRating, floatText)
      + (if f.initialTotalWeighting != 0.0 then " (" + formatG(f.initialTotalWeighting) + ")" else "")
  }

  /** One line of the fencers section (felo_rating.py:786-794).  The line
      is reached through `FencerLineAfter` so that proofs about lists of
      lines do not unfold it; `FencerLineIsItemLine` opens it. */
  function FencerLine(f: FencerState, floatText: real -> string, formatG: real -> string): string {
    FencerLineAfter(f, floatText, formatG, |f.name| + 2)
  }

  function FencerLineAfter(f: FencerState, floatText: real -> string, formatG: real -> string, steps: nat): string
    requires |f.name| <= steps
    decreases steps - |f.name|
  {
    if steps > |f.name| then FencerLineAfter(f, floatText, formatG, steps - 1)
    else ItemLine(ShownName(f), 3, RatingText(f, floatText, formatG))
  }

  lemma FencerLineIsItemLine(f: FencerState, floatText: real -> string, formatG: real -> string)
    ensures FencerLine(f, floatText, formatG) == ItemLine(ShownName(f), 3, RatingText(f, floatText, formatG))
  {
    assert FencerLineAfter(f, floatText, formatG, |f.name| + 1) == FencerLineAfter(f, floatText, formatG, |f.name|);
  }

  /** The lines of the named fencers, in the order of `names`. */
  function FencerLines(fencers: map<string, FencerState>, names: seq<string>,
                       floatText: real -> string, formatG: real -> string): seq<string>
    requires forall n :: n in names ==> n in fencers
  {
    if names == [] then []
    else
      var n := |names| - 1;
      FencerLines(fencers, names[..n], floatText, formatG) + [FencerLine(fencers[names[n]], floatText, formatG)]
  }

  /** Line `k` is the line of the `k`-th name. */
  lemma {:induction false} FencerLinesAt(fencers: map<string, FencerState>, names: seq<string>,
                                         floatText: real -> string, formatG: real -> string)
    requires forall n :: n in names ==> n in fencers
    ensures |FencerLines(fencers, names, floatText, formatG)| == |names|
    ensures forall k :: 0 <= k < |names| ==>
      FencerLines(fencers, names, floatText, formatG)[k] == FencerLine(fencers[names[k]], floatText, formatG)
  {
    if names != [] {
      var n := |names| - 1;
      FencerLinesAt(fencers, names[..n], floatText, formatG);
    }
  }

  /** The lines of the new file: everything up to the line before the
      first fencer line, the fencer lines and a blank line, then
      everything from the second boundary on. */
  function NewLines(lines: seq<string>, l0: nat, l1: nat, fencerLines: seq<string>): (r: seq<string>)
    requires l0 < l1 <= |lines|
    ensures |r| == l0 + |fencerLines| + 2 + |lines| - l1
  {
    lines[..l0 + 1] + fencerLines + [""] + lines[l1..]
  }

  /** The new file: its lines, each ended by a newline. */
  function Rewritten(lines: seq<string>, l0: nat, l1: nat, fencerLines: seq<string>): string
    requires l0 < l1 <= |lines|
  {
    Join(NewLines(lines, l0, l1, fencerLines), "\n") + "\n"
  }

  /** Taking the least name left continues the order. */
  lemma NameOrderStep(keys: set<string>, done: seq<string>, todo: set<string>, name: string)
    requires NameOrder(keys) == done + NameOrder(todo) && IsLeast(name, todo)
    ensures NameOrder(keys) == (done + [name]) + NameOrder(todo - {name})
  {
    LeastUnique(name, Least(todo), todo);
    assert NameOrder(todo) == [name] + NameOrder(todo - {name});
  }

  lemma FencerLinesAppend(fencers: map<string, FencerState>, names: seq<string>, name: string,
                          floatText: real -> string, formatG: real -> string)
    requires forall n :: n in names ==> n in fencers
    requires name in fencers
    ensures FencerLines(fencers, names + [name], floatText, formatG)
         == FencerLines(fencers, names, floatText, formatG) + [FencerLine(fencers[name], floatText, formatG)]
  {
    assert (names + [name])[..|names|] == names;
  }

  /** The loop of `write_back_fencers` that collects the numbers of the
      boundary lines (felo_rating.py:774-778). */
  method FindBoundaries(lines: seq<string>) returns (limits: seq<nat>)
    ensures limits == BoundariesBelow(lines, |lines|)
  {
    limits := [];
    for i := 0 to |lines|
      invariant limits == BoundariesBelow(lines, i)
    {
      if IsBoundary(lines[i]) {
        limits := limits + [i];
      }
    }
  }

  /** The loop that moves the start of the section past its opening
      comments and blank lines (felo_rating.py:781-782). */
  method SkipIntro(lines: seq<string>, l0: nat, l1: nat) returns (r: nat)
    requires l0 < l1 < |lines| && IsBoundary(lines[l1])
    ensures r == AfterIntro(lines, l0, l1)
  {
    r := l0;
    while IsIntroLine(lines[r + 1])
      invariant l0 <= r < l1
      invariant AfterIntro(lines, r, l1) == AfterIntro(lines, l0, l1)
      decreases l1 - r
    {
      BoundaryIsNotIntro(lines[l1]);
      r := r + 1;
    }
  }

  /** The loop over the sorted fencers (felo_rating.py:784-794): taking
      the least name left each time is `sort()` followed by the loop. */
  method WriteFencerLines(fencers: map<string, FencerState>, floatText: real -> string, formatG: real -> string)
    returns (fencerLines: seq<string>)
    ensures fencerLines == FencerLines(fencers, NameOrder(fencers.Keys), floatText, formatG)
  {
    fencerLines := [];
    var todo := fencers.Keys;
    ghost var done: seq<string> := [];
    while todo != {}
      invariant todo <= fencers.Keys
      invariant forall n :: n in done ==> n in fencers
      invariant NameOrder(fencers.Keys) == done + NameOrder(todo)
      invariant fencerLines == FencerLines(fencers, done, floatText, formatG)
      decreases |todo|
    {
      LeastExists(todo);
      var name :| IsLeast(name, todo);
      WriteStep(fencers, done, todo, name, floatText, formatG);
      fencerLines := fencerLines + [FencerLine(fencers[name], floatText, formatG)];
      done := done + [name];
      todo := todo - {name};
    }
    assert NameOrder(todo) == [];
    assert done + [] == done;
  }

  /** One turn of the loop of `WriteFencerLines`: the least name left is
      the next in the order, and its line follows the lines written. */
  lemma WriteStep(fencers: map<string, FencerState>, done: seq<string>, todo: set<string>, name: string,
                  floatText: real -> string, formatG: real -> string)
    requires todo <= fencers.Keys && forall n :: n in done ==> n in fencers
    requires NameOrder(fencers.Keys) == done + NameOrder(todo) && IsLeast(name, todo)
    ensures name in fencers && todo - {name} <= fencers.Keys && |todo - {name}| < |todo|
    ensures forall n :: n in done + [name] ==> n in fencers
    ensures NameOrder(fencers.Keys) == (done + [name]) + NameOrder(todo - {name})
    ensures FencerLines(fencers, done + [name], floatText, formatG)
         == FencerLines(fencers, done, floatText, formatG) + [FencerLine(fencers[name], floatText, formatG)]
  {
    NameOrderStep(fencers.Keys, done, todo, name);
    FencerLinesAppend(fencers, done, name, floatText, formatG);
  }

  /** `write_back_fencers`: an error unless the file has exactly two
      boundary lines; otherwise the fencers section is replaced by the
      lines of all fencers in the order of their names. */
  method WriteBackFencers(contents: string, fencers: map<string, FencerState>,
                          floatText: real -> string, formatG: real -> string) returns (r: Result<string>)
    ensures var lines := SplitLines(contents);
      var limits := BoundariesBelow(lines, |lines|);
      && (r.Err? <==> |limits| != 2)
      && (r.Err? ==> r.error == NotTwoBoundaries)
      && (r.Ok? ==> (limits[0] < limits[1] < |lines| && IsBoundary(lines[limits[1]])
            && r.value == Rewritten(lines, AfterIntro(lines, limits[0], limits[1]), limits[1],
                                    FencerLines(fencers, NameOrder(fencers.Keys), floatText, formatG))))
  {
    var lines := SplitLines(contents);
    var limits := FindBoundaries(lines);
    if |limits| != 2 {
      return Err(NotTwoBoundaries);
    }
    TwoBoundaries(lines);
    var l0 := SkipIntro(lines, limits[0], limits[1]);
    var fencerLines := WriteFencerLines(fencers, floatText, formatG);
    return Ok(Rewritten(lines, l0, limits[1], fencerLines));
  }

  // ---------------------------------------------------------------------
  // Reading the written section back

  /** A fencer whose line can be written and read again: its shown name
      and its rating text make an item, and neither holds a line break. */
  predicate Writable(f: FencerState, floatText: real -> string, formatG: real -> string) {
    WritableAfter(f, floatText, formatG, |f.name|, |f.name| + 2)
  }

  /** The test for a writable fencer, behind a few recursive steps so that
      proofs that only pass it on do not unfold it; WritableIs gives it
      back. */
  predicate WritableAfter(f: FencerState, floatText: real -> string, formatG: real -> string, i: nat, steps: nat)
    requires i <= steps
    decreases steps - i
  {
    if steps > i then WritableAfter(f, floatText, formatG, i, steps - 1)
    else
      var name := ShownName(f);
      var value := RatingText(f, floatText, formatG);
      WritableItem(name, value) && NoBreak(name) && NoBreak(value)
  }

  lemma WritableIs(f: FencerState, floatText: real -> string, formatG: real -> string)
    ensures Writable(f, floatText, formatG)
        == (WritableItem(ShownName(f), RatingText(f, floatText, formatG))
            && NoBreak(ShownName(f)) && NoBreak(RatingText(f, floatText, formatG)))
  {
    var i := |f.name|;
    assert WritableAfter(f, floatText, formatG, i, i + 2) == WritableAfter(f, floatText, formatG, i, i + 1);
    assert WritableAfter(f, floatText, formatG, i, i + 1) == WritableAfter(f, floatText, formatG, i, i);
  }

  /** The (name, value) pairs the lines of the named fencers are written from. */
  function FencerItems(fencers: map<string, FencerState>, names: seq<string>,
                       floatText: real -> string, formatG: real -> string): (r: seq<(string, string)>)
    requires forall n :: n in names ==> n in fencers
    ensures |r| == |names|
  {
    FencerItemsAfter(fencers, names, floatText, formatG, |names|, |names| + 2)
  }

  /** The pairs, behind a few recursive steps so that proofs that only
      pass them on do not unfold them; FencerItemsAt gives them back. */
  function FencerItemsAfter(fencers: map<string, FencerState>, names: seq<string>,
                            floatText: real -> string, formatG: real -> string, i: nat, steps: nat)
    : (r: seq<(string, string)>)
    requires forall n :: n in names ==> n in fencers
    requires i <= steps
    ensures |r| == |names|
    decreases steps - i
  {
    if steps > i then FencerItemsAfter(fencers, names, floatText, formatG, i, steps - 1)
    else
      seq(|names|, k requires 0 <= k < |names| =>
        (ShownName(fencers[names[k]]), RatingText(fencers[names[k]], floatText, formatG)))
  }

  /** Pair `k` is the shown name and the rating text of the `k`-th name. */
  lemma FencerItemsAt(fencers: map<string, FencerState>, names: seq<string>,
                      floatText: real -> string, formatG: real -> string)
    requires forall n :: n in names ==> n in fencers
    ensures forall k :: 0 <= k < |names| ==>
      FencerItems(fencers, names, floatText, formatG)[k]
        == (ShownName(fencers[names[k]]), RatingText(fencers[names[k]], floatText, formatG))
  {
    var i := |names|;
    assert FencerItemsAfter(fencers, names, floatText, formatG, i, i + 2)
        == FencerItemsAfter(fencers, names, floatText, formatG, i, i + 1);
    assert FencerItemsAfter(fencers, names, floatText, formatG, i, i + 1)
        == FencerItemsAfter(fencers, names, floatText, formatG, i, i);
  }

  /** The line of a writable fencer holds no line break. */
  lemma FencerLineNoBreak(f: FencerState, floatText: real -> string, formatG: real -> string)
    requires Writable(f, floatText, formatG)
    ensures NoBreak(FencerLine(f, floatText, formatG))
  {
    WritableIs(f, floatText, formatG);
    var name := ShownName(f);
    var value := RatingText(f, floatText, formatG);
    var filled := FillWithTabs(name, 3);
    FencerLineIsItemLine(f, floatText, formatG);
    var line := filled + value;
    forall i | 0 <= i < |line|
      ensures !IsLineBreak(line[i])
    {
      if i < |name| {
        assert line[i] == name[i];
      } else if i >= |filled| {
        assert line[i] == value[i - |filled|];
      }
    }
  }

  /** The file written with "\n" after every line splits into its lines
      again: the kept lines around the new fencer lines and the blank line
      after them. */
  lemma RewrittenLines(lines: seq<string>, l0: nat, l1: nat, fencerLines: seq<string>)
    requires l0 < l1 <= |lines|
    requires forall k :: 0 <= k < |lines| ==> NoBreak(lines[k])
    requires forall k :: 0 <= k < |fencerLines| ==> NoBreak(fencerLines[k])
    ensures SplitLines(Rewritten(lines, l0, l1, fencerLines)) == NewLines(lines, l0, l1, fencerLines)
  {
    var all := NewLines(lines, l0, l1, fencerLines);
    forall k | 0 <= k < |all|
      ensures NoBreak(all[k])
    {
      if k <= l0 {
        assert all[k] == lines[k];
      } else if k <= l0 + |fencerLines| {
        assert all[k] == fencerLines[k - l0 - 1];
      } else if k > l0 + |fencerLines| + 1 {
        assert all[k] == lines[l1 + k - l0 - |fencerLines| - 2];
      }
    }
    SplitLinesOfJoin(all);
  }

  /** The lines of writable fencers are the item lines of their pairs. */
  lemma FencerLinesWritten(lines: seq<string>, i: nat, fencers: map<string, FencerState>, names: seq<string>,
                           floatText: real -> string, formatG: real -> string)
    requires forall n :: n in names ==> n in fencers && Writable(fencers[n], floatText, formatG)
    requires i + |names| <= |lines| && lines[i..i + |names|] == FencerLines(fencers, names, floatText, formatG)
    ensures WrittenRun(lines, i, 3, FencerItems(fencers, names, floatText, formatG))
  {
    var pairs := FencerItems(fencers, names, floatText, formatG);
    forall j | 0 <= j < |pairs|
      ensures WritableItem(pairs[j].0, pairs[j].1) && lines[i + j] == ItemLine(pairs[j].0, 3, pairs[j].1)
    {
      FencerLineWrittenAt(lines, i, fencers, names, floatText, formatG, j);
    }
    WrittenRunMeans(lines, i, 3, pairs);
  }

  /** Line `i + j` is the item line of pair `j`. */
  lemma FencerLineWrittenAt(lines: seq<string>, i: nat, fencers: map<string, FencerState>, names: seq<string>,
                            floatText: real -> string, formatG: real -> string, j: nat)
    requires forall n :: n in names ==> n in fencers && Writable(fencers[n], floatText, formatG)
    requires i + |names| <= |lines| && lines[i..i + |names|] == FencerLines(fencers, names, floatText, formatG)
    requires j < |names|
    ensures var pair := FencerItems(fencers, names, floatText, formatG)[j];
      WritableItem(pair.0, pair.1) && lines[i + j] == ItemLine(pair.0, 3, pair.1)
  {
    FencerLinesAt(fencers, names, floatText, formatG);
    FencerItemsAt(fencers, names, floatText, formatG);
    assert lines[i + j] == lines[i..i + |names|][j];
    assert names[j] in names;
    FencerLineWritten(fencers[names[j]], floatText, formatG,
                      FencerItems(fencers, names, floatText, formatG)[j], FencerLines(fencers, names, floatText, formatG)[j]);
  }

  /** The line of a writable fencer is the item line of its pair. */
  lemma FencerLineWritten(f: FencerState, floatText: real -> string, formatG: real -> string,
                          pair: (string, string), line: string)
    requires Writable(f, floatText, formatG)
    requires pair == (ShownName(f), RatingText(f, floatText, formatG)) && line == FencerLine(f, floatText, formatG)
    ensures WritableItem(pair.0, pair.1) && line == ItemLine(pair.0, 3, pair.1)
  {
    WritableIs(f, floatText, formatG);
    FencerLineIsItemLine(f, floatText, formatG);
  }

  /** Reading items across lines that clean to nothing changes nothing. */
  lemma {:induction false} SkipBlankLines(lines: seq<string>, i: nat, j: nat, items: map<string, Value>,
                                          parseFloat: string -> Option<real>)
    requires i <= j <= |lines|
    requires forall k :: i <= k < j ==> Cleaned(lines[k]) == []
    ensures ParseItemsFrom(lines, i, items, parseFloat) == ParseItemsFrom(lines, j, items, parseFloat)
    decreases j - i
  {
    if i < j {
      SkipBlankLines(lines, i + 1, j, items, parseFloat);
    }
  }

  /** Reading the fencers section of the new lines from the line after
      the first boundary on (as `parse_felo_file` does) skips the opening
      lines kept before the fencer lines (those up to `AfterIntro`),
      collects the pairs of the fencer lines in their order, skips the
      blank line and stops at the second boundary. */
  lemma ReadBackSection(lines: seq<string>, b0: nat, l0: nat, b1: nat,
                        fencers: map<string, FencerState>, names: seq<string>,
                        floatText: real -> string, formatG: real -> string,
                        items: map<string, Value>, parseFloat: string -> Option<real>)
    requires b0 <= l0 < b1 < |lines| && IsBoundary(lines[b1])
    requires forall k :: b0 < k <= l0 ==> IsIntroLine(lines[k])
    requires forall n :: n in names ==> n in fencers && Writable(fencers[n], floatText, formatG)
    ensures ParseItemsFrom(NewLines(lines, l0, b1, FencerLines(fencers, names, floatText, formatG)), b0 + 1, items, parseFloat)
         == Ok((Collect(items, FencerItems(fencers, names, floatText, formatG), parseFloat), l0 + |names| + 3))
  {
    FencerLinesInNew(lines, l0, b1, fencers, names, floatText, formatG);
    ReadNewLines(lines, b0, l0, b1, FencerLines(fencers, names, floatText, formatG),
                 FencerItems(fencers, names, floatText, formatG), items, parseFloat, l0 + |names| + 3);
  }

  /** The fencer lines among the new lines are written items. */
  lemma FencerLinesInNew(lines: seq<string>, l0: nat, b1: nat, fencers: map<string, FencerState>, names: seq<string>,
                         floatText: real -> string, formatG: real -> string)
    requires l0 < b1 < |lines|
    requires forall n :: n in names ==> n in fencers && Writable(fencers[n], floatText, formatG)
    ensures |FencerItems(fencers, names, floatText, formatG)| == |FencerLines(fencers, names, floatText, formatG)| == |names|
    ensures WrittenRun(NewLines(lines, l0, b1, FencerLines(fencers, names, floatText, formatG)), l0 + 1, 3,
                       FencerItems(fencers, names, floatText, formatG))
  {
    var fencerLines := FencerLines(fencers, names, floatText, formatG);
    FencerLinesAt(fencers, names, floatText, formatG);
    var r := NewLines(lines, l0, b1, fencerLines);
    assert r[l0 + 1..l0 + 1 + |names|] == fencerLines;
    FencerLinesWritten(r, l0 + 1, fencers, names, floatText, formatG);
  }

  /** Reading the new lines from the line after the first boundary on,
      when the new lines in between are item lines of `pairs`. */
  lemma ReadNewLines(lines: seq<string>, b0: nat, l0: nat, b1: nat, fencerLines: seq<string>,
                     pairs: seq<(string, string)>, items: map<string, Value>, parseFloat: string -> Option<real>,
                     end: nat)
    requires b0 <= l0 < b1 < |lines| && IsBoundary(lines[b1])
    requires forall k :: b0 < k <= l0 ==> IsIntroLine(lines[k])
    requires |pairs| == |fencerLines| && WrittenRun(NewLines(lines, l0, b1, fencerLines), l0 + 1, 3, pairs)
    requires end == l0 + |pairs| + 3
    ensures ParseItemsFrom(NewLines(lines, l0, b1, fencerLines), b0 + 1, items, parseFloat)
         == Ok((Collect(items, pairs, parseFloat), end))
  {
    NewLinesParts(lines, l0, b1, fencerLines);
    ReadWrittenSection(NewLines(lines, l0, b1, fencerLines), b0, l0, pairs, items, parseFloat);
  }

  /** Reading from the line after a boundary across opening lines, a run
      of written items, a blank line and a boundary collects the items. */
  lemma ReadWrittenSection(lines: seq<string>, b0: nat, l0: nat, pairs: seq<(string, string)>,
                           items: map<string, Value>, parseFloat: string -> Option<real>)
    requires b0 <= l0 && l0 + |pairs| + 2 < |lines|
    requires forall k :: b0 < k <= l0 ==> IsIntroLine(lines[k])
    requires WrittenRun(lines, l0 + 1, 3, pairs)
    requires lines[l0 + 1 + |pairs|] == "" && IsBoundary(lines[l0 + |pairs| + 2])
    ensures ParseItemsFrom(lines, b0 + 1, items, parseFloat) == Ok((Collect(items, pairs, parseFloat), l0 + |pairs| + 3))
  {
    ReadIntroAndRun(lines, b0, l0, pairs, items, parseFloat);
    BlankThenBoundary(lines, l0 + 1 + |pairs|, Collect(items, pairs, parseFloat), parseFloat);
  }

  /** Reading across the opening lines and a run of written items
      collects the items of the run. */
  lemma ReadIntroAndRun(lines: seq<string>, b0: nat, l0: nat, pairs: seq<(string, string)>,
                        items: map<string, Value>, parseFloat: string -> Option<real>)
    requires b0 <= l0 < |lines|
    requires forall k :: b0 < k <= l0 ==> IsIntroLine(lines[k])
    requires WrittenRun(lines, l0 + 1, 3, pairs)
    ensures l0 + 1 + |pairs| <= |lines|
    ensures ParseItemsFrom(lines, b0 + 1, items, parseFloat)
         == ParseItemsFrom(lines, l0 + 1 + |pairs|, Collect(items, pairs, parseFloat), parseFloat)
  {
    SkipIntroLines(lines, b0, l0, items, parseFloat);
    ParseItemsOfWritten(lines, l0 + 1, 3, pairs, items, parseFloat);
    ChainItems(ParseItemsFrom(lines, b0 + 1, items, parseFloat), ParseItemsFrom(lines, l0 + 1, items, parseFloat),
               ParseItemsFrom(lines, l0 + 1 + |pairs|, Collect(items, pairs, parseFloat), parseFloat));
  }

  /** Where the kept lines, the fencer lines and the blank line lie among
      the new lines. */
  lemma NewLinesParts(lines: seq<string>, l0: nat, l1: nat, fencerLines: seq<string>)
    requires l0 < l1 < |lines|
    ensures var r := NewLines(lines, l0, l1, fencerLines);
      var m := l0 + 1 + |fencerLines|;
      && (forall k :: 0 <= k <= l0 ==> r[k] == lines[k])
      && r[l0 + 1..m] == fencerLines && r[m] == "" && r[m + 1] == lines[l1]
  {
    var r := NewLines(lines, l0, l1, fencerLines);
    var m := l0 + 1 + |fencerLines|;
    assert r[l0 + 1..m] == fencerLines;
  }

  /** Reading items skips the opening lines after a boundary. */
  lemma SkipIntroLines(lines: seq<string>, b0: nat, l0: nat, items: map<string, Value>,
                       parseFloat: string -> Option<real>)
    requires b0 <= l0 < |lines|
    requires forall k :: b0 < k <= l0 ==> IsIntroLine(lines[k])
    ensures ParseItemsFrom(lines, b0 + 1, items, parseFloat) == ParseItemsFrom(lines, l0 + 1, items, parseFloat)
  {
    forall k | b0 + 1 <= k < l0 + 1
      ensures Cleaned(lines[k]) == []
    {
      IntroIsBlank(lines[k]);
    }
    SkipBlankLines(lines, b0 + 1, l0 + 1, items, parseFloat);
  }

  /** A blank line and a boundary end the section read, with the boundary
      counted as read. */
  lemma BlankThenBoundary(lines: seq<string>, m: nat, items: map<string, Value>, parseFloat: string -> Option<real>)
    requires m + 1 < |lines| && lines[m] == "" && IsBoundary(lines[m + 1])
    ensures ParseItemsFrom(lines, m, items, parseFloat) == Ok((items, m + 2))
  {
    CleanedIsCleanUpLine("");
  }

  /** The written file splits into the new lines when the old lines and
      the fencer lines hold no line break. */
  lemma RewrittenSplits(lines: seq<string>, l0: nat, l1: nat, fencers: map<string, FencerState>, names: seq<string>,
                        floatText: real -> string, formatG: real -> string)
    requires l0 < l1 <= |lines|
    requires forall k :: 0 <= k < |lines| ==> NoBreak(lines[k])
    requires forall n :: n in names ==> n in fencers && Writable(fencers[n], floatText, formatG)
    ensures var fencerLines := FencerLines(fencers, names, floatText, formatG);
      SplitLines(Rewritten(lines, l0, l1, fencerLines)) == NewLines(lines, l0, l1, fencerLines)
  {
    var fencerLines := FencerLines(fencers, names, floatText, formatG);
    FencerLinesAt(fencers, names, floatText, formatG);
    forall k | 0 <= k < |fencerLines|
      ensures NoBreak(fencerLines[k])
    {
      assert names[k] in names;
      FencerLineNoBreak(fencers[names[k]], floatText, formatG);
    }
    RewrittenLines(lines, l0, l1, fencerLines);
  }

  /** A written fencer line, read as an item of the initial ratings, gives
      the fencer created from the fencer's shown name, initial rating and
      initial total weighting, when `float` reads back the numbers that
      `str` and `%g` wrote and refuses the text "R (w)". */
  lemma ReadBackFencer(f: FencerState, params: Parameters, floatText: real -> string, formatG: real -> string,
                       parseFloat: string -> Option<real>)
    requires f.initialRating.IntNum? && f.initialTotalWeighting == 0.0 ==> FloatAcceptsIntegers(parseFloat)
    requires f.initialRating.FloatNum? ==>
      && f.initialTotalWeighting == 0.0
      && parseFloat(floatText(f.initialRating.x)) == Some(f.initialRating.x)
      && ParseInt(floatText(f.initialRating.x)).None?
    requires f.initialTotalWeighting != 0.0 ==>
      && parseFloat(formatG(f.initialTotalWeighting)) == Some(f.initialTotalWeighting)
      && parseFloat(RatingText(f, floatText, formatG)).None?
    ensures FencerOfItem(ShownName(f), Coerce(RatingText(f, floatText, formatG), parseFloat), params, parseFloat)
         == NewFencer(ShownName(f), f.initialRating, params, f.initialTotalWeighting)
  {
    var w := f.initialTotalWeighting;
    var text := RatingText(f, floatText, formatG);
    match f.initialRating
    case IntNum(i) =>
      if w == 0.0 {
        assert text == IntToString(i);
        CoerceOfIntToString(i, parseFloat);
      } else {
        assert text == IntToString(i) + " (" + formatG(w) + ")";
        CoerceMeans(text, parseFloat);
        FencerOfRatingWithWeighting(ShownName(f), i, formatG(w), w, params, parseFloat);
      }
    case FloatNum(x) =>
      assert text == floatText(x);
      CoerceMeans(text, parseFloat);
  }

  /** A fencer created from a name, written back and created again is the
      same fencer: the shown name is the name it came from (a hidden name
      keeps its closing parenthesis), and the initial rating and weighting
      it keeps make the same fencer. */
  lemma NewFencerAgain(name: string, initial: Num, params: Parameters, w: real)
    requires NewFencer(name, initial, params, w).Ok?
    requires |name| > 0 && name[0] == '(' ==> |name| >= 2 && name[|name| - 1] == ')'
    ensures var f := NewFencer(name, initial, params, w).value;
      ShownName(f) == name && NewFencer(ShownName(f), f.initialRating, params, f.initialTotalWeighting) == Ok(f)
  {
    var f := NewFencer(name, initial, params, w).value;
    if f.hidden {
      assert name == [name[0]] + f.name + [name[|name| - 1]];
    }
  }
}
