/** `parse_felo_file` (felo_rating.py:572-673): the parameter section,
    the initial ratings and the bouts of a Felo file, read one after the
    other from the lines of the file. */
module FeloFile {
  import opened Outcomes
  import opened Fencers
  import opened Bouts
  import opened Items
  import opened ParameterSection
  import opened BoutSection
  import Rating

  /** What `parse_felo_file` returns: every parameter with its value, the
      parameters the file sets itself, and the fencers and bouts; the
      numbers the rating engine reads are taken out as `params`. */
  datatype Contents = Contents(
    settings: map<Parameter, Value>,
    given: set<Parameter>,
    params: Parameters,
    fencers: map<string, FencerState>,
    bouts: seq<Bout>)

  /** The parameter section read from the top of the file into parameters,
      with the parameters the file names. */
  function GivenParameters(items: map<string, Value>): (given: map<Parameter, Value>)
    requires forall n :: n in items ==> ParameterOf(n).Some?
    ensures forall p :: p in given <==> Name(p) in items
    ensures forall p :: p in given ==> given[p] == items[Name(p)]
  {
    map p: Parameter | Name(p) in items :: items[Name(p)]
  }

  /** The file after its parameter section (felo_rating.py:657-673), read
      from line `i` on: the initial ratings, each of which must give a
      fencer, and then the bouts, read with the dictionary of those
      fencers, which they extend by the foreign fencers they name. */
  ghost predicate ReadsRest(lines: seq<string>, i: nat, settings: map<Parameter, Value>, given: set<Parameter>,
                            params: Parameters, parseFloat: string -> Option<real>,
                            matchLine: string -> Option<BoutFields>, r: Result<Contents>)
    requires i <= |lines|
  {
    var second := ParseItemsFrom(lines, i, map[], parseFloat);
    if second.Err? then r == Err(second.error)
    else
      var items := second.value.0;
      if !(forall n :: n in items ==> FencerOfItem(n, items[n], params, parseFloat).Ok?) then
        r.Err? && exists n :: n in items && FencerOfItem(n, items[n], params, parseFloat) == Err(r.error)
      else
        exists fencers :: FencersFrom(items, params, parseFloat, fencers) &&
          var b := ParseBoutsFrom(lines, second.value.1, Section([], fencers, None), matchLine, params);
          && (b.Err? ==> r == Err(b.error))
          && (b.Ok? ==> r == Ok(Contents(settings, given, params, b.value.fencers, b.value.bouts)))
  }

  /** Reads a Felo file given as its lines; `groupname` and `outputFolder`
      are the defaults the source derives from the file name, `parseFloat`
      is Python's `float` and `matchLine` the bout pattern. */
  method ParseFeloFile(lines: seq<string>, groupname: string, outputFolder: string,
                       parseFloat: string -> Option<real>, matchLine: string -> Option<BoutFields>)
    returns (r: Result<Contents>)
    ensures var first := ParseItemsFrom(lines, 0, map[], parseFloat);
      first.Err? ==> r == Err(first.error)
    ensures var first := ParseItemsFrom(lines, 0, map[], parseFloat);
      r.Ok? ==> (first.Ok? && (forall n :: n in first.value.0 ==> ParameterOf(n).Some?)
        && r.value.given == GivenParameters(first.value.0).Keys
        && r.value.settings == Settings(GivenParameters(first.value.0), groupname, outputFolder))
    ensures var first := ParseItemsFrom(lines, 0, map[], parseFloat);
      first.Ok? && (exists n :: n in first.value.0 && ParameterOf(n).None?) ==>
        r.Err? && r.error.UnknownParameter? && r.error.name in first.value.0 && ParameterOf(r.error.name).None?
    ensures var first := ParseItemsFrom(lines, 0, map[], parseFloat);
      first.Ok? && (forall n :: n in first.value.0 ==> ParameterOf(n).Some?) ==>
        var given := GivenParameters(first.value.0);
        var settings := Settings(given, groupname, outputFolder);
        && (EngineParameters(settings).None? ==> r == Err(ParameterNotANumber))
        && (EngineParameters(settings).Some? ==>
              ReadsRest(lines, first.value.1, settings, given.Keys, EngineParameters(settings).value, parseFloat, matchLine, r))
    ensures r.Ok? ==> EngineParameters(r.value.settings) == Some(r.value.params)
    ensures r.Ok? ==> Rating.KnowsAll(Rating.EngineState(r.value.fencers, {}), r.value.bouts)
    ensures r.Ok? ==> forall k :: k in r.value.fencers ==> r.value.fencers[k].name == k || '<' in k
  {
    var first := ParseItems(lines, 0, parseFloat);
    if first.Err? {
      return Err(first.error);
    }
    var named := KnownParameters(first.value.0);
    if named.Err? {
      return Err(named.error);
    }
    var given := GivenParameters(first.value.0);
    assert given == named.value;
    var settings := Settings(given, groupname, outputFolder);
    var params := EngineParameters(settings);
    if params.None? {
      return Err(ParameterNotANumber);
    }
    r := ReadRest(lines, first.value.1, settings, given.Keys, params.value, parseFloat, matchLine);
  }

  /** The initial ratings and the bouts, read from line `i` on once the
      parameters are known (felo_rating.py:657-673). */
  method ReadRest(lines: seq<string>, i: nat, settings: map<Parameter, Value>, given: set<Parameter>,
                  params: Parameters, parseFloat: string -> Option<real>, matchLine: string -> Option<BoutFields>)
    returns (r: Result<Contents>)
    requires i <= |lines|
    ensures ReadsRest(lines, i, settings, given, params, parseFloat, matchLine, r)
    ensures r.Ok? ==> r.value.settings == settings && r.value.given == given && r.value.params == params
    ensures r.Ok? ==> Rating.KnowsAll(Rating.EngineState(r.value.fencers, {}), r.value.bouts)
    ensures r.Ok? ==> forall k :: k in r.value.fencers ==> r.value.fencers[k].name == k || '<' in k
  {
    var second := ParseItems(lines, i, parseFloat);
    if second.Err? {
      return Err(second.error);
    }
    var fencers := FencersOfItems(second.value.0, params, parseFloat);
    if fencers.Err? {
      return Err(fencers.error);
    }
    assert FencersFrom(second.value.0, params, parseFloat, fencers.value);
    var bouts := ParseBouts(lines, second.value.1, fencers.value, matchLine, params);
    if bouts.Err? {
      return Err(bouts.error);
    }
    ParsedBouts(lines, second.value.1, fencers.value, matchLine, params, {});
    return Ok(Contents(settings, given, params, bouts.value.1, bouts.value.0));
  }
}
