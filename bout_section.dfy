/** The bout section of a Felo file as `parse_bouts` reads it
    (felo_rating.py:499-570): every non-blank line must match the bout
    pattern; its groups are then checked and turned into a `Bout`, unknown
    foreign fencers are added on the way, and a line without a date takes
    the date of the last line that had one. */
module BoutSection {
  import opened Outcomes
  import opened Text
  import opened Bouts
  import opened Fencers
  import opened Items
  import Rating

  /** The groups of a line the bout pattern matched
      (felo_rating.py:522-527): the optional date and index, both names,
      both scores and the optional fenced-to token. The pattern itself is
      a parameter of the model. */
  datatype BoutFields = BoutFields(
    date: Option<Date>,
    index: Option<nat>,
    first: string,
    second: string,
    pointsFirst: nat,
    pointsSecond: nat,
    fencedTo: FencedToToken)

  /** What has been read so far: the bouts, the fencers (with the foreign
      fencers added on the way) and the date of the last line that had
      one. */
  datatype Section = Section(bouts: seq<Bout>, fencers: map<string, FencerState>, lastDate: Option<Date>)

  /** No fencer has more points than the winning points, unless the bout is
      a relay bout. */
  predicate ScoreFits(b: Bout) {
    b.fencedTo == 0 || (b.pointsFirst <= b.fencedTo && b.pointsSecond <= b.fencedTo)
  }

  /** Looking a fencer up (felo_rating.py:549-558): a name that is not
      known yet is an error unless it holds a `<`, in which case it is a
      new foreign fencer. */
  function Register(fencers: map<string, FencerState>, name: string, params: Parameters, lineNo: nat)
    : (r: Result<map<string, FencerState>>)
    ensures name in fencers ==> r == Ok(fencers)
    ensures name !in fencers && '<' !in name ==> r == Err(LineError(UnknownFencer(name), lineNo))
    ensures r.Ok? ==> r.value.Keys == fencers.Keys + {name}
    ensures r.Ok? ==> forall k :: k in fencers ==> r.value[k] == fencers[k]
    ensures r.Ok? && name !in fencers ==> '<' in name && r.value[name].foreign
    ensures r.Err? ==> r.error == LineError(UnknownFencer(name), lineNo) || r.error == InvalidForeignRating(name)
  {
    if name in fencers then Ok(fencers)
    else if Find(name, '<') == -1 then Err(LineError(UnknownFencer(name), lineNo))
    else
      match NewFencer(name, IntNum(-1), params, 0.0)
      case Err(e) => Err(e)
      case Ok(f) => Ok(fencers[name := f])
  }

  /** A fencer has more points than the winning points of a bout that is
      not a relay bout (felo_rating.py:547-548). */
  predicate PointsAbove(f: BoutFields) {
    var fencedTo := ResolveFencedTo(f.fencedTo, f.pointsFirst, f.pointsSecond);
    fencedTo > 0 && (f.pointsFirst > fencedTo || f.pointsSecond > fencedTo)
  }

  /** The checks and the conversion `parse_bouts` applies to the groups of
      line `lineNo` (felo_rating.py:538-569), in the source's order: the
      winning points, the first fencer, the second fencer, the date, and
      last the date's validity. */
  function ReadBout(f: BoutFields, s: Section, params: Parameters, lineNo: nat): Result<Section> {
    ReadBoutAfter(f, s, params, lineNo, |f.first| + 2)
  }

  /** The reading, behind a few recursive steps so that the verifier does
      not unfold it where only its outcome matters. */
  function ReadBoutAfter(f: BoutFields, s: Section, params: Parameters, lineNo: nat, steps: nat): Result<Section>
    requires |f.first| <= steps
    decreases steps - |f.first|
  {
    if steps > |f.first| then ReadBoutAfter(f, s, params, lineNo, steps - 1) else CheckBout(f, s, params, lineNo)
  }

  lemma ReadBoutIsCheckBout(f: BoutFields, s: Section, params: Parameters, lineNo: nat)
    ensures ReadBout(f, s, params, lineNo) == CheckBout(f, s, params, lineNo)
  {
    assert ReadBoutAfter(f, s, params, lineNo, |f.first| + 1) == ReadBoutAfter(f, s, params, lineNo, |f.first|);
  }

  function CheckBout(f: BoutFields, s: Section, params: Parameters, lineNo: nat): Result<Section>
  {
    var fencedTo := ResolveFencedTo(f.fencedTo, f.pointsFirst, f.pointsSecond);
    if PointsAbove(f) then Err(LineError(PointsAboveWinning, lineNo))
    else
      match Register(s.fencers, f.first, params, lineNo)
      case Err(e) => Err(e)
      case Ok(fencers1) =>
        match Register(fencers1, f.second, params, lineNo)
        case Err(e) => Err(e)
        case Ok(fencers2) =>
          var date := if f.date.Some? then f.date else s.lastDate;
          if date.None? then Err(LineError(NoDate, lineNo))
          else
            var index := if f.index.Some? then f.index.value else 0;
            var d := date.value;
            match NewBout(d.year, d.month, d.day, index, f.first, f.second, f.pointsFirst, f.pointsSecond, fencedTo)
            case Err(e) => Err(e)
            case Ok(b) => Ok(Section(s.bouts + [b], fencers2, date))
  }

  /** What one line adds: a bout with the line's names and points, the
      winning points `parse_bouts` derives, the line's date or else the
      last one, and index 0 when none is written. */
  lemma ReadBoutOk(f: BoutFields, s: Section, params: Parameters, lineNo: nat)
    requires ReadBout(f, s, params, lineNo).Ok?
    ensures var s' := ReadBout(f, s, params, lineNo).value;
      |s'.bouts| == |s.bouts| + 1 && s'.bouts[..|s.bouts|] == s.bouts
    ensures var s' := ReadBout(f, s, params, lineNo).value;
      var b := s'.bouts[|s.bouts|];
      && b.first == f.first && b.second == f.second
      && b.pointsFirst == f.pointsFirst && b.pointsSecond == f.pointsSecond
      && b.fencedTo == ResolveFencedTo(f.fencedTo, f.pointsFirst, f.pointsSecond)
      && b.index == (if f.index.Some? then f.index.value else 0)
      && Some(b.date) == (if f.date.Some? then f.date else s.lastDate)
      && s'.lastDate == Some(b.date) && ValidDate(b.date) && ScoreFits(b)
  {
    ReadBoutIsCheckBout(f, s, params, lineNo);
    var s' := ReadBout(f, s, params, lineNo).value;
    assert s'.bouts[..|s.bouts|] == s.bouts;
  }

  /** The fencers after one line: both names are known, the fencers known
      before keep their states, and a new one is a foreign fencer. */
  lemma ReadBoutFencers(f: BoutFields, s: Section, params: Parameters, lineNo: nat)
    requires ReadBout(f, s, params, lineNo).Ok?
    ensures var s' := ReadBout(f, s, params, lineNo).value;
      && s'.fencers.Keys == s.fencers.Keys + {f.first, f.second}
      && (forall k :: k in s.fencers ==> s'.fencers[k] == s.fencers[k])
      && (forall k :: k in s'.fencers && k !in s.fencers ==> '<' in k && s'.fencers[k].foreign)
  {
    ReadBoutIsCheckBout(f, s, params, lineNo);
    var fencers1 := Register(s.fencers, f.first, params, lineNo).value;
    var fencers2 := Register(fencers1, f.second, params, lineNo).value;
    assert ReadBout(f, s, params, lineNo).value.fencers == fencers2;
  }

  /** The points are checked first (felo_rating.py:547-548). */
  lemma ReadBoutPointsAbove(f: BoutFields, s: Section, params: Parameters, lineNo: nat)
    ensures PointsAbove(f) <==> ReadBout(f, s, params, lineNo) == Err(LineError(PointsAboveWinning, lineNo))
  {
    ReadBoutIsCheckBout(f, s, params, lineNo);
  }

  /** Then an unknown first fencer, then an unknown second one, each an
      error unless its name holds a `<` (felo_rating.py:549-558). */
  lemma ReadBoutUnknownFencer(f: BoutFields, s: Section, params: Parameters, lineNo: nat)
    ensures !PointsAbove(f) && f.first !in s.fencers && '<' !in f.first ==>
      ReadBout(f, s, params, lineNo) == Err(LineError(UnknownFencer(f.first), lineNo))
    ensures var first := Register(s.fencers, f.first, params, lineNo);
      !PointsAbove(f) && first.Ok? && f.second !in first.value && '<' !in f.second ==>
      ReadBout(f, s, params, lineNo) == Err(LineError(UnknownFencer(f.second), lineNo))
  {
    ReadBoutIsCheckBout(f, s, params, lineNo);
  }

  /** A line without a date is an error exactly when no earlier line had
      one and the line passes the checks before (felo_rating.py:561-567). */
  lemma ReadBoutNoDate(f: BoutFields, s: Section, params: Parameters, lineNo: nat)
    ensures var first := Register(s.fencers, f.first, params, lineNo);
      ReadBout(f, s, params, lineNo) == Err(LineError(NoDate, lineNo)) <==>
        !PointsAbove(f) && first.Ok? && Register(first.value, f.second, params, lineNo).Ok?
        && f.date.None? && s.lastDate.None?
  {
    ReadBoutIsCheckBout(f, s, params, lineNo);
  }

  /** `parse_bouts` once `i` lines have been read (felo_rating.py:529-570):
      blank lines are skipped, a line the pattern does not match is a
      `LineError` with its 1-based number, and the section goes on to the
      end of the file. */
  function ParseBoutsFrom(lines: seq<string>, i: nat, s: Section,
                          matchLine: string -> Option<BoutFields>, params: Parameters): (r: Result<Section>)
    requires i <= |lines|
    decreases |lines| - i
  {
    if i == |lines| then Ok(s)
    else
      var line := Cleaned(lines[i]);
      if line == [] then ParseBoutsFrom(lines, i + 1, s, matchLine, params)
      else
        match matchLine(line)
        case None => Err(LineError(NotABout, i + 1))
        case Some(f) =>
          match ReadBout(f, s, params, i + 1)
          case Err(e) => Err(e)
          case Ok(s') => ParseBoutsFrom(lines, i + 1, s', matchLine, params)
  }

  /** `parse_bouts` as the loop it is: `fencers` is the dictionary the
      source extends in place, returned here with the bouts. */
  method ParseBouts(lines: seq<string>, start: nat, fencers: map<string, FencerState>,
                    matchLine: string -> Option<BoutFields>, params: Parameters)
    returns (r: Result<(seq<Bout>, map<string, FencerState>)>)
    requires start <= |lines|
    ensures var spec := ParseBoutsFrom(lines, start, Section([], fencers, None), matchLine, params);
      && (r.Ok? <==> spec.Ok?)
      && (r.Ok? ==> r.value == (spec.value.bouts, spec.value.fencers))
      && (r.Err? ==> r.error == spec.error)
  {
    var s := Section([], fencers, None);
    var i := start;
    while i < |lines|
      invariant start <= i <= |lines|
      invariant ParseBoutsFrom(lines, i, s, matchLine, params)
             == ParseBoutsFrom(lines, start, Section([], fencers, None), matchLine, params)
      decreases |lines| - i
    {
      var line := Cleaned(lines[i]);
      if line != [] {
        var fields := matchLine(line);
        if fields.None? {
          return Err(LineError(NotABout, i + 1));
        }
        var next := ReadBout(fields.value, s, params, i + 1);
        if next.Err? {
          return Err(next.error);
        }
        s := next.value;
      }
      i := i + 1;
    }
    return Ok((s.bouts, s.fencers));
  }

  /** What holds of everything read so far, given the fencers the section
      started with: those fencers are unchanged, every other fencer is a
      foreign fencer added under a name with a `<`, and every bout is
      between known fencers, on a valid date, with a score that fits. */
  predicate Sound(initial: map<string, FencerState>, s: Section) {
    && (forall k :: k in initial ==> k in s.fencers && s.fencers[k] == initial[k])
    && (forall k :: k in s.fencers && k !in initial ==> '<' in k && s.fencers[k].foreign)
    && (forall j :: 0 <= j < |s.bouts| ==> s.bouts[j].first in s.fencers && s.bouts[j].second in s.fencers)
    && (forall j :: 0 <= j < |s.bouts| ==> ValidDate(s.bouts[j].date) && ScoreFits(s.bouts[j]))
    && (s.bouts != [] ==> s.lastDate == Some(s.bouts[|s.bouts| - 1].date))
  }

  /** One line keeps the section sound. */
  lemma ReadBoutSound(initial: map<string, FencerState>, f: BoutFields, s: Section, params: Parameters, lineNo: nat)
    requires Sound(initial, s) && ReadBout(f, s, params, lineNo).Ok?
    ensures Sound(initial, ReadBout(f, s, params, lineNo).value)
  {
    ReadBoutOk(f, s, params, lineNo);
    ReadBoutFencers(f, s, params, lineNo);
    var s' := ReadBout(f, s, params, lineNo).value;
    forall j | 0 <= j < |s'.bouts|
      ensures s'.bouts[j].first in s'.fencers && s'.bouts[j].second in s'.fencers
      ensures ValidDate(s'.bouts[j].date) && ScoreFits(s'.bouts[j])
    {
      if j < |s.bouts| {
        assert s'.bouts[j] == s.bouts[j];
      }
    }
  }

  /** Reading the rest of the file keeps the section sound and only
      appends bouts. */
  lemma {:induction false} ParseBoutsSound(lines: seq<string>, i: nat, initial: map<string, FencerState>, s: Section,
                                          matchLine: string -> Option<BoutFields>, params: Parameters)
    requires i <= |lines| && Sound(initial, s) && ParseBoutsFrom(lines, i, s, matchLine, params).Ok?
    ensures var s' := ParseBoutsFrom(lines, i, s, matchLine, params).value;
      Sound(initial, s') && |s.bouts| <= |s'.bouts| && s'.bouts[..|s.bouts|] == s.bouts
    decreases |lines| - i
  {
    if i < |lines| {
      var line := Cleaned(lines[i]);
      if line == [] {
        ParseBoutsSound(lines, i + 1, initial, s, matchLine, params);
      } else {
        var f := matchLine(line).value;
        var s1 := ReadBout(f, s, params, i + 1).value;
        ReadBoutSound(initial, f, s, params, i + 1);
        ReadBoutOk(f, s, params, i + 1);
        ParseBoutsSound(lines, i + 1, initial, s1, matchLine, params);
        var s' := ParseBoutsFrom(lines, i, s, matchLine, params).value;
        assert s'.bouts[..|s.bouts|] == s'.bouts[..|s1.bouts|][..|s.bouts|];
      }
    }
  }

  /** An error names a line of the section: one after the `i` lines
      already read. */
  lemma {:induction false} ParseBoutsErrorLine(lines: seq<string>, i: nat, s: Section,
                                              matchLine: string -> Option<BoutFields>, params: Parameters)
    requires i <= |lines|
    ensures var r := ParseBoutsFrom(lines, i, s, matchLine, params);
      r.Err? && r.error.LineError? ==> i < r.error.line <= |lines|
    decreases |lines| - i
  {
    if i < |lines| {
      var line := Cleaned(lines[i]);
      if line == [] {
        ParseBoutsErrorLine(lines, i + 1, s, matchLine, params);
      } else if matchLine(line).Some? {
        var f := matchLine(line).value;
        ReadBoutLineOfError(f, s, params, i + 1);
        if ReadBout(f, s, params, i + 1).Ok? {
          ParseBoutsErrorLine(lines, i + 1, ReadBout(f, s, params, i + 1).value, matchLine, params);
        }
      }
    }
  }

  lemma ReadBoutLineOfError(f: BoutFields, s: Section, params: Parameters, lineNo: nat)
    ensures var r := ReadBout(f, s, params, lineNo);
      r.Err? && r.error.LineError? ==> r.error.line == lineNo
  {
    ReadBoutIsCheckBout(f, s, params, lineNo);
  }

  /** The section `parse_felo_file` gets back: every bout is between
      fencers of the returned dictionary, which is what the rating engine
      needs of its bouts; the fencers of the initial ratings are kept as
      they were, the others are foreign; and every bout line written back
      is read as the
      same score and winning points. */
  lemma ParsedBouts(lines: seq<string>, start: nat, fencers: map<string, FencerState>,
                    matchLine: string -> Option<BoutFields>, params: Parameters, staged: set<string>)
    requires start <= |lines| && ParseBoutsFrom(lines, start, Section([], fencers, None), matchLine, params).Ok?
    ensures var s := ParseBoutsFrom(lines, start, Section([], fencers, None), matchLine, params).value;
      && Rating.KnowsAll(Rating.EngineState(s.fencers, staged), s.bouts)
      && (forall k :: k in fencers ==> k in s.fencers && s.fencers[k] == fencers[k])
      && (forall k :: k in s.fencers && k !in fencers ==> '<' in k && s.fencers[k].foreign)
      && (forall j :: 0 <= j < |s.bouts| ==>
            ParseScore(ScoreText(s.bouts[j])) == Some((s.bouts[j].pointsFirst, s.bouts[j].pointsSecond, FencedToTokenOf(s.bouts[j])))
            && ResolveFencedTo(FencedToTokenOf(s.bouts[j]), s.bouts[j].pointsFirst, s.bouts[j].pointsSecond) == s.bouts[j].fencedTo)
  {
    ParseBoutsSound(lines, start, fencers, Section([], fencers, None), matchLine, params);
    var s := ParseBoutsFrom(lines, start, Section([], fencers, None), matchLine, params).value;
    forall j | 0 <= j < |s.bouts|
      ensures ParseScore(ScoreText(s.bouts[j])) == Some((s.bouts[j].pointsFirst, s.bouts[j].pointsSecond, FencedToTokenOf(s.bouts[j])))
      ensures ResolveFencedTo(FencedToTokenOf(s.bouts[j]), s.bouts[j].pointsFirst, s.bouts[j].pointsSecond) == s.bouts[j].fencedTo
    {
      BoutLineRoundTrip(s.bouts[j]);
    }
  }
}
