/** The parameter section of a Felo file as `parse_felo_file` reads it
    (felo_rating.py:591-655): the seventeen parameter names, the check that
    every item names one of them, the defaults for those not given, and
    the nine numbers the rating engine takes from them. */
module ParameterSection {
  import opened Outcomes
  import opened Fencers
  import opened Items

  /** The parameters a Felo file may set. */
  datatype Parameter =
    | KFactorTop | RatingTop | KFactorOthers | KFactorFreshmen | BoutsFreshmen
    | MinimalRating | BoutsForEstimate | Groupname | OutputFolder | MinTicDistance
    | EarliestDate | MaximalDays | Threshold | TeamWeighting | GnuplotPath
    | ConvertPath | Ps2pdfPath

  /** The English name of a parameter (felo_rating.py:591-607). */
  function Name(p: Parameter): string {
    match p
    case KFactorTop => "k factor top fencers"
    case RatingTop => "felo rating top fencers"
    case KFactorOthers => "k factor others"
    case KFactorFreshmen => "k factor freshmen"
    case BoutsFreshmen => "5 point bouts freshmen"
    case MinimalRating => "minimal felo rating"
    case BoutsForEstimate => "5 point bouts for estimate"
    case Groupname => "groupname"
    case OutputFolder => "output folder"
    case MinTicDistance => "min distance of plot tics"
    case EarliestDate => "earliest date in plot"
    case MaximalDays => "maximal days in plot"
    case Threshold => "threshold bootstrapping"
    case TeamWeighting => "weighting team bout"
    case GnuplotPath => "path of gnuplot"
    case ConvertPath => "path of convert"
    case Ps2pdfPath => "path of ps2pdf"
  }

  /** Two parameters never share a name, so the names are keys. */
  lemma NameInjective(p: Parameter, q: Parameter)
    requires Name(p) == Name(q)
    ensures p == q
  {
  }

  const AllParameters: seq<Parameter> := [
    KFactorTop, RatingTop, KFactorOthers, KFactorFreshmen, BoutsFreshmen,
    MinimalRating, BoutsForEstimate, Groupname, OutputFolder, MinTicDistance,
    EarliestDate, MaximalDays, Threshold, TeamWeighting, GnuplotPath,
    ConvertPath, Ps2pdfPath]

  lemma AllParametersListed(p: Parameter)
    ensures p in AllParameters
  {
  }

  /** The first parameter of `ps` called `name`. */
  function ParameterIn(name: string, ps: seq<Parameter>): (r: Option<Parameter>)
    ensures r.Some? ==> Name(r.value) == name && r.value in ps
    ensures r.None? ==> forall p :: p in ps ==> Name(p) != name
  {
    if ps == [] then None
    else if Name(ps[0]) == name then Some(ps[0])
    else ParameterIn(name, ps[1..])
  }

  /** The parameter a name in the file stands for, if any. */
  function ParameterOf(name: string): (r: Option<Parameter>)
    ensures r.Some? ==> Name(r.value) == name
    ensures r.None? ==> forall p :: Name(p) != name
  {
    var r := ParameterIn(name, AllParameters);
    assert r.None? ==> forall p :: Name(p) != name by {
      forall p | r.None?
        ensures Name(p) != name
      {
        AllParametersListed(p);
      }
    }
    r
  }

  /** Reading a parameter's name gives that parameter back. */
  lemma ParameterOfName(p: Parameter)
    ensures ParameterOf(Name(p)) == Some(p)
  {
    var r := ParameterOf(Name(p));
    NameInjective(r.value, p);
  }

  /** The loop of `parse_felo_file` over the parameter section
      (felo_rating.py:609-617): every item must name a parameter, and the
      value is filed under that parameter. */
  method KnownParameters(items: map<string, Value>) returns (r: Result<map<Parameter, Value>>)
    ensures r.Ok? <==> forall n :: n in items ==> ParameterOf(n).Some?
    ensures r.Ok? ==> forall p :: p in r.value <==> Name(p) in items
    ensures r.Ok? ==> forall p :: p in r.value ==> r.value[p] == items[Name(p)]
    ensures r.Err? ==> r.error.UnknownParameter? && r.error.name in items
                       && ParameterOf(r.error.name).None?
  {
    var parameters: map<Parameter, Value> := map[];
    var todo := items.Keys;
    while todo != {}
      invariant todo <= items.Keys
      invariant forall n :: n in items.Keys - todo ==> ParameterOf(n).Some?
      invariant forall p :: p in parameters <==> Name(p) in items.Keys - todo
      invariant forall p :: p in parameters ==> parameters[p] == items[Name(p)]
      decreases |todo|
    {
      var name :| name in todo;
      match ParameterOf(name)
      case None =>
        return Err(UnknownParameter(name));
      case Some(p) =>
        parameters := parameters[p := items[name]];
        todo := todo - {name};
        forall q | q in parameters
          ensures Name(q) in items.Keys - todo
        {
          if q == p {
          }
        }
        forall q | Name(q) in items.Keys - todo
          ensures q in parameters
        {
          if Name(q) == name {
            NameInjective(q, p);
          }
        }
    }
    return Ok(parameters);
  }

  /** The value `parse_felo_file` gives a parameter the file does not set
      (felo_rating.py:619-655), given the group name and the output folder
      it derives from the file name; the program paths are those of a
      system other than Windows. */
  function Default(p: Parameter, groupname: string, outputFolder: string): Value {
    match p
    case KFactorTop => IntValue(25)
    case RatingTop => IntValue(2400)
    case KFactorOthers => IntValue(32)
    case KFactorFreshmen => IntValue(40)
    case BoutsFreshmen => IntValue(15)
    case MinimalRating => IntValue(1200)
    case BoutsForEstimate => IntValue(10)
    case Threshold => FloatValue(0.001)
    case TeamWeighting => FloatValue(1.0)
    case Groupname => StrValue(groupname)
    case OutputFolder => StrValue(outputFolder)
    case MinTicDistance => IntValue(7)
    case EarliestDate => StrValue("1980-01-01")
    case MaximalDays => StrValue("366")
    case GnuplotPath => StrValue("gnuplot")
    case ConvertPath => StrValue("convert")
    case Ps2pdfPath => StrValue("ps2pdf")
  }

  /** The parameters after the defaults are filled in: every parameter has
      a value, the given one where there is one. */
  function Settings(given: map<Parameter, Value>, groupname: string, outputFolder: string): (m: map<Parameter, Value>)
    ensures forall p :: p in m
    ensures forall p :: p in given ==> m[p] == given[p]
    ensures forall p :: p !in given ==> m[p] == Default(p, groupname, outputFolder)
  {
    var m := map p | p in AllParameters :: if p in given then given[p] else Default(p, groupname, outputFolder);
    assert forall p :: p in m by {
      forall p
        ensures p in m
      {
        AllParametersListed(p);
      }
    }
    m
  }

  /** The parameters the rating engine reads. */
  predicate ForEngine(p: Parameter) {
    match p
    case Groupname | OutputFolder | MinTicDistance | EarliestDate | MaximalDays
      | GnuplotPath | ConvertPath | Ps2pdfPath => false
    case _ => true
  }

  /** The field of the engine's parameters a parameter fills. */
  function Field(params: Parameters, p: Parameter): real
    requires ForEngine(p)
  {
    match p
    case KFactorTop => params.kFactorTop
    case RatingTop => params.ratingTop
    case KFactorOthers => params.kFactorOthers
    case KFactorFreshmen => params.kFactorFreshmen
    case BoutsFreshmen => params.boutsFreshmen
    case MinimalRating => params.minimalRating
    case BoutsForEstimate => params.boutsForEstimate
    case Threshold => params.thresholdBootstrapping
    case TeamWeighting => params.weightingTeamBout
  }

  function NumberOf(v: Value): Option<real> {
    match v
    case IntValue(i) => Some(i as real)
    case FloatValue(x) => Some(x)
    case StrValue(_) => None
  }

  /** The engine's parameters, when every one of them is a number: each
      field holds the setting of its parameter. */
  function EngineParameters(settings: map<Parameter, Value>): (r: Option<Parameters>)
    ensures r.Some? <==> forall p :: ForEngine(p) ==> p in settings && NumberOf(settings[p]).Some?
    ensures r.Some? ==> forall p :: ForEngine(p) ==> Field(r.value, p) == NumberOf(settings[p]).value
  {
    if forall p :: ForEngine(p) ==> p in settings && NumberOf(settings[p]).Some? then
      Some(Parameters(
        NumberOf(settings[KFactorTop]).value,
        NumberOf(settings[RatingTop]).value,
        NumberOf(settings[KFactorOthers]).value,
        NumberOf(settings[KFactorFreshmen]).value,
        NumberOf(settings[BoutsFreshmen]).value,
        NumberOf(settings[MinimalRating]).value,
        NumberOf(settings[BoutsForEstimate]).value,
        NumberOf(settings[Threshold]).value,
        NumberOf(settings[TeamWeighting]).value))
    else None
  }

  /** Settings whose engine parameters are numbers give exactly those
      numbers to the engine. */
  lemma EngineParametersOf(settings: map<Parameter, Value>, params: Parameters)
    requires forall p :: ForEngine(p) ==> p in settings && NumberOf(settings[p]) == Some(Field(params, p))
    ensures EngineParameters(settings) == Some(params)
  {
    var r := EngineParameters(settings);
    assert Field(r.value, KFactorTop) == params.kFactorTop;
    assert Field(r.value, RatingTop) == params.ratingTop;
    assert Field(r.value, KFactorOthers) == params.kFactorOthers;
    assert Field(r.value, KFactorFreshmen) == params.kFactorFreshmen;
    assert Field(r.value, BoutsFreshmen) == params.boutsFreshmen;
    assert Field(r.value, MinimalRating) == params.minimalRating;
    assert Field(r.value, BoutsForEstimate) == params.boutsForEstimate;
    assert Field(r.value, Threshold) == params.thresholdBootstrapping;
    assert Field(r.value, TeamWeighting) == params.weightingTeamBout;
  }

  /** A Felo file that sets no parameter rates with the default numbers. */
  lemma DefaultEngineParameters(groupname: string, outputFolder: string)
    ensures EngineParameters(Settings(map[], groupname, outputFolder))
         == Some(Parameters(25.0, 2400.0, 32.0, 40.0, 15.0, 1200.0, 10.0, 0.001, 1.0))
  {
    var m := Settings(map[], groupname, outputFolder);
    var params := Parameters(25.0, 2400.0, 32.0, 40.0, 15.0, 1200.0, 10.0, 0.001, 1.0);
    forall p | ForEngine(p)
      ensures p in m && NumberOf(m[p]) == Some(Field(params, p))
    {
      assert m[p] == Default(p, groupname, outputFolder);
    }
    EngineParametersOf(m, params);
  }
}
