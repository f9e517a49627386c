/** Fencers (felo_rating.py:924-1016): how a fencer is created from a
    name and an initial rating, the rating setter that clamps and switches
    the k factor, the k-factor getter, the "Austrian" estimate that serves
    as the exact rating of a freshman, and the Elo expectation
    (felo_rating.py:1226-1245). */
module Fencers {
  import opened Outcomes
  import opened Text

  /** A number read from a Felo file; Python keeps `int` and `float`
      apart, and `str` prints them differently. */
  datatype Num = IntNum(i: int) | FloatNum(x: real)

  function NumValue(n: Num): real {
    match n
    case IntNum(i) => i as real
    case FloatNum(x) => x
  }

  /** The numeric Felo parameters the engine reads. */
  datatype Parameters = Parameters(
    kFactorTop: real,
    ratingTop: real,
    kFactorOthers: real,
    kFactorFreshmen: real,
    boutsFreshmen: real,
    minimalRating: real,
    boutsForEstimate: real,
    thresholdBootstrapping: real,
    weightingTeamBout: real)

  /** The state of one `Fencer` object. `rating` and `kFactor` are the
      private `__felo_rating` and `__k_factor`; attributes the source leaves
      unset for some fencers (the preliminary rating of a freshman, the
      accumulators of a rated fencer) are 0 here and never read. */
  datatype FencerState = FencerState(
    name: string,
    hidden: bool,
    foreign: bool,
    freshman: bool,
    initialRating: Num,
    initialTotalWeighting: real,
    rating: real,
    kFactor: real,
    ratingPreliminary: real,
    totalWeighting: real,
    totalWeightingPreliminary: real,
    totalResult: real,
    totalOpponentRating: real)

  function Max(a: real, b: real): real {
    if a >= b then a else b
  }

  // ---------------------------------------------------------------------
  // Construction

  /** The number in the first `<digits>` of a name, as `re.search(r"<(\d+)>")`
      finds it, or None when there is none. */
  function ForeignRating(s: string): (r: Option<nat>)
    ensures r.Some? ==> '<' in s
  {
    if s == [] then None
    else
      var k := DigitRun(s[1..]);
      if s[0] == '<' && k > 0 && 1 + k < |s| && s[1 + k] == '>' then Some(DigitsValue(s[1..][..k]))
      else
        var r := ForeignRating(s[1..]);
        assert r.Some? ==> s[1..][Find(s[1..], '<')] in s;
        r
  }

  /** The rating written in the first `<N>` of a name is the one read. */
  lemma {:induction false} ForeignRatingOf(prefix: string, n: nat, suffix: string)
    requires '<' !in prefix
    ensures ForeignRating(prefix + "<" + NatToString(n) + ">" + suffix) == Some(n)
  {
    var digits := NatToString(n);
    var s := prefix + "<" + digits + ">" + suffix;
    if prefix == [] {
      assert s == "<" + (digits + (">" + suffix));
      assert s[1..] == digits + (">" + suffix);
      DigitRunOf(digits, ">" + suffix);
      assert s[1..][..|digits|] == digits;
    } else {
      assert s[1..] == prefix[1..] + "<" + digits + ">" + suffix;
      assert s[0] == prefix[0] && s[0] != '<';
      ForeignRatingOf(prefix[1..], n, suffix);
    }
  }

  /** The rating setter (felo_rating.py:993-997): ignored for freshmen and
      foreign fencers; otherwise the rating is clamped to the minimal
      rating, and reaching the top rating switches the k factor for good. */
  function SetRating(f: FencerState, v: real, params: Parameters): (r: FencerState)
    ensures f.freshman || f.foreign ==> r == f
    ensures !f.freshman && !f.foreign ==> r.rating == Max(v, params.minimalRating) && r.rating >= params.minimalRating
    ensures f.kFactor == params.kFactorTop ==> r.kFactor == params.kFactorTop
    ensures r.kFactor == f.kFactor || (r.kFactor == params.kFactorTop && r.rating >= params.ratingTop)
    ensures !f.freshman && !f.foreign && r.rating >= params.ratingTop ==> r.kFactor == params.kFactorTop
    ensures r == f.(rating := r.rating, kFactor := r.kFactor)
  {
    if f.freshman || f.foreign then f
    else
      var rating := Max(v, params.minimalRating);
      f.(rating := rating, kFactor := if rating >= params.ratingTop then params.kFactorTop else f.kFactor)
  }

  /** Writing the same rating twice is writing it once. */
  lemma SetRatingIdempotent(f: FencerState, v: real, params: Parameters)
    ensures SetRating(SetRating(f, v, params), v, params) == SetRating(f, v, params)
  {
  }

  /** `Fencer.__init__` (felo_rating.py:948-973). A name in parentheses is
      hidden and loses its outer characters; a name with a `<` is a foreign
      fencer whose rating is the positive number in its first `<N>`; an
      initial rating of 0 makes a freshman. The initial rating of a rated
      fencer goes through the setter, while the initial and the
      preliminary rating keep the value as given. */
  function NewFencer(name: string, initial: Num, params: Parameters, initialTotalWeighting: real): (r: Result<FencerState>)
    ensures r.Err? <==> '<' in name && (ForeignRating(name).None? || ForeignRating(name).value == 0)
    ensures r.Err? ==> r.error == InvalidForeignRating(name)
    ensures r.Ok? ==> r.value.hidden == (|name| > 0 && name[0] == '(')
    ensures r.Ok? && !r.value.hidden ==> r.value.name == name
    ensures r.Ok? && r.value.hidden && |name| >= 2 ==> name == [name[0]] + r.value.name + [name[|name| - 1]]
    ensures r.Ok? ==> r.value.foreign == ('<' in name) && r.value.freshman == (NumValue(initial) == 0.0)
    ensures r.Ok? && r.value.foreign ==> r.value.rating == ForeignRating(name).value as real > 0.0
    ensures r.Ok? && !r.value.foreign && !r.value.freshman ==>
      r.value.rating == Max(NumValue(initial), params.minimalRating)
    ensures r.Ok? ==> (r.value.kFactor ==
      if !r.value.foreign && !r.value.freshman && r.value.rating >= params.ratingTop
      then params.kFactorTop else params.kFactorOthers)
    ensures r.Ok? ==> (r.value.totalWeighting == r.value.initialTotalWeighting == initialTotalWeighting
      && r.value.totalWeightingPreliminary == initialTotalWeighting)
    ensures r.Ok? && !r.value.freshman ==> r.value.initialRating == initial && r.value.ratingPreliminary == NumValue(initial)
    ensures r.Ok? && r.value.freshman ==>
      r.value.initialRating == IntNum(0) && r.value.totalResult == 0.0 && r.value.totalOpponentRating == 0.0
  {
    var hidden := |name| > 0 && name[0] == '(';
    var shown := if !hidden then name else if |name| >= 2 then name[1..|name| - 1] else [];
    assert hidden && |name| >= 2 ==> name == [name[0]] + shown + [name[|name| - 1]];
    var foreign := Find(name, '<') != -1;
    var foreignRating := ForeignRating(name);
    if foreign && (foreignRating.None? || foreignRating.value == 0) then Err(InvalidForeignRating(name))
    else
      var freshman := NumValue(initial) == 0.0;
      var blank := FencerState(
        shown, hidden, foreign, freshman, IntNum(0), initialTotalWeighting,
        if foreign then foreignRating.value as real else 0.0, params.kFactorOthers, 0.0,
        initialTotalWeighting, initialTotalWeighting, 0.0, 0.0);
      if freshman then Ok(blank)
      else Ok(SetRating(blank, NumValue(initial), params).(initialRating := initial, ratingPreliminary := NumValue(initial)))
  }

  // ---------------------------------------------------------------------
  // Getters

  /** The `k_factor` getter (felo_rating.py:1006-1009): the freshman k
      while fewer than "5 point bouts freshmen" bouts are on record. */
  function KFactor(f: FencerState, params: Parameters): (k: real)
    ensures f.totalWeighting < params.boutsFreshmen ==> k == params.kFactorFreshmen
    ensures f.totalWeighting >= params.boutsFreshmen ==> k == f.kFactor
  {
    if f.totalWeighting < params.boutsFreshmen then params.kFactorFreshmen else f.kFactor
  }

  /** The `felo_rating_exact` getter (felo_rating.py:975-988). A rated
      fencer has its stored rating. A freshman has the estimate of the
      Austrian method: 0 until enough bouts are on record, then the average
      opponent rating plus A*B*700 with A = result / weighting and
      B = weighting / (weighting + 2). Python raises ZeroDivisionError when
      the weighting is -2, which only a negative weighting can reach. */
  function RatingExact(f: FencerState, params: Parameters): (r: Result<real>)
    ensures !f.freshman ==> r == Ok(f.rating)
    ensures f.freshman && (f.totalWeighting < params.boutsForEstimate || f.totalWeighting == 0.0) ==> r == Ok(0.0)
    ensures r.Err? <==> f.freshman && !(f.totalWeighting < params.boutsForEstimate) && f.totalWeighting == -2.0
  {
    if !f.freshman then Ok(f.rating)
    else if f.totalWeighting < params.boutsForEstimate || f.totalWeighting == 0.0 then Ok(0.0)
    else if f.totalWeighting + 2.0 == 0.0 then Err(ZeroDivision)
    else
      var a := f.totalResult / f.totalWeighting;
      var b := f.totalWeighting / (f.totalWeighting + 2.0);
      Ok(f.totalOpponentRating / f.totalWeighting + a * b * 700.0)
  }

  /** The factor B of the estimate lies in [0, 1) for a non-negative weighting. */
  lemma {:induction false} DampingBounds(w: real)
    requires w >= 0.0
    ensures 0.0 <= w / (w + 2.0) < 1.0
  {
    assert w / (w + 2.0) * (w + 2.0) == w;
  }

  /** With a positive weighting and a result no larger in size than half
      the weighting (which the accumulation of bouts keeps), a freshman's
      estimate differs from the average opponent rating by less than 350,
      and lies above it exactly when the freshman won more points than they
      lost. */
  lemma {:induction false} EstimateBounds(f: FencerState, params: Parameters)
    requires f.freshman && f.totalWeighting > 0.0 && f.totalWeighting >= params.boutsForEstimate
    requires -0.5 * f.totalWeighting <= f.totalResult <= 0.5 * f.totalWeighting
    ensures RatingExact(f, params).Ok?
    ensures var average := f.totalOpponentRating / f.totalWeighting;
      var r := RatingExact(f, params).value;
      average - 350.0 < r < average + 350.0
      && (r > average <==> f.totalResult > 0.0)
      && (r == average <==> f.totalResult == 0.0)
  {
    var w := f.totalWeighting;
    var a := f.totalResult / w;
    var b := w / (w + 2.0);
    DampingBounds(w);
    assert a * w == f.totalResult;
    QuotientAtMost(f.totalResult, w, 0.5);
    QuotientAtLeast(f.totalResult, w, -0.5);
    assert b > 0.0 by { assert b * (w + 2.0) == w; }
    var c := a * b * 700.0;
    if a >= 0.0 {
      assert a * b <= 0.5 * b < 0.5;
    } else {
      assert (-a) * b <= 0.5 * b < 0.5;
    }
    assert c > 0.0 <==> a > 0.0;
    assert c == 0.0 <==> a == 0.0;
    assert a > 0.0 <==> f.totalResult > 0.0;
  }

  lemma QuotientAtMost(n: real, w: real, c: real)
    requires w > 0.0 && n <= c * w
    ensures n / w <= c
  {
  }

  lemma QuotientAtLeast(n: real, w: real, c: real)
    requires w > 0.0 && n >= c * w
    ensures n / w >= c
  {
  }

  // ---------------------------------------------------------------------
  // Expectation

  lemma ReciprocalDecreasing(p: real, p': real)
    requires 0.0 < p' < p
    ensures 1.0 / (1.0 + p) < 1.0 / (1.0 + p')
  {
  }

  /** What the model needs of `10**x`: positive, 1 at 0, reciprocal under
      negation and strictly increasing. */
  ghost predicate IsPow10(pow10: real -> real) {
    pow10(0.0) == 1.0
    && (forall x :: pow10(x) > 0.0)
    && (forall x, y :: x + y == 0.0 ==> pow10(x) * pow10(y) == 1.0)
    && (forall x, y :: x < y ==> pow10(x) < pow10(y))
  }

  /** The Elo expectation of a fencer rated `first` against one rated
      `second` (felo_rating.py:1245, and the same formula at
      felo_rating.py:475): the expected fraction of points won. */
  function Expectation(pow10: real -> real, first: real, second: real): (e: real)
    requires IsPow10(pow10)
    ensures 0.0 < e < 1.0
  {
    var p := pow10((second - first) / 400.0);
    assert p > 0.0;
    assert 1.0 / (1.0 + p) * (1.0 + p) == 1.0;
    1.0 / (1.0 + p)
  }

  /** Equal ratings expect an even bout. */
  lemma ExpectationOfEqualRatings(pow10: real -> real, r: real)
    requires IsPow10(pow10)
    ensures Expectation(pow10, r, r) == 0.5
  {
    assert (r - r) / 400.0 == 0.0;
  }

  /** The two fencers' expectations add up to 1. */
  lemma {:induction false} ExpectationComplement(pow10: real -> real, a: real, b: real)
    requires IsPow10(pow10)
    ensures Expectation(pow10, a, b) + Expectation(pow10, b, a) == 1.0
  {
    var x := (b - a) / 400.0;
    assert (a - b) / 400.0 == -x;
    var p := pow10(x);
    var q := pow10(-x);
    assert p * q == 1.0;
    assert p > 0.0 && q > 0.0;
    calc {
      1.0 / (1.0 + p) + 1.0 / (1.0 + q);
      { assert 1.0 / (1.0 + q) == p / (p + p * q); }
      1.0 / (1.0 + p) + p / (p + 1.0);
      (1.0 + p) / (1.0 + p);
      1.0;
    }
  }

  /** A higher rating expects more against the same opponent. */
  lemma {:induction false} ExpectationIncreasing(pow10: real -> real, a: real, a': real, b: real)
    requires IsPow10(pow10) && a < a'
    ensures Expectation(pow10, a, b) < Expectation(pow10, a', b)
  {
    var x := (b - a) / 400.0;
    var x' := (b - a') / 400.0;
    assert x' < x;
    var p := pow10(x);
    var p' := pow10(x');
    assert 0.0 < p' < p;
    ReciprocalDecreasing(p, p');
  }
}
