/** The rating computation of felo_rating.py as functions on the state of
    all fencers: staging one bout (`set_preliminary_felo_ratings`,
    felo_rating.py:424-497), committing a batch
    (`adopt_preliminary_felo_ratings`, felo_rating.py:907-921), one
    chronological pass (felo_rating.py:1103-1108) and the bootstrapping
    loop (felo_rating.py:1168-1181). The class in engine.dfy performs the
    same steps in place and is proved to agree with these functions. */
module Rating {
  import opened Outcomes
  import opened Bouts
  import opened Fencers
  import opened Table

  /** All fencers by name, and the names in the staging set
      `fencers_with_preliminary_felo_rating`. */
  datatype EngineState = EngineState(fencers: map<string, FencerState>, staged: set<string>)

  predicate Knows(s: EngineState, b: Bout) {
    b.first in s.fencers && b.second in s.fencers
  }

  predicate KnowsAll(s: EngineState, bs: seq<Bout>) {
    forall i :: 0 <= i < |bs| ==> Knows(s, bs[i])
  }

  function MaxPoints(b: Bout): nat {
    if b.pointsFirst >= b.pointsSecond then b.pointsFirst else b.pointsSecond
  }

  /** The weight of a bout (felo_rating.py:447-451): the "weighting team
      bout" parameter for a single relay bout, else the points fenced in
      units of a bout to 5 points. */
  function Weighting(b: Bout, params: Parameters): (w: real)
    ensures b.fencedTo != 0 ==> w >= 0.0
    ensures b.fencedTo == 0 ==> w == params.weightingTeamBout
  {
    if b.fencedTo == 0 then params.weightingTeamBout
    else (b.pointsFirst + b.pointsSecond) as real / 6.76
  }

  /** The share of points the first fencer won, 0.5 for a 0:0 bout
      (felo_rating.py:452-455). */
  function ResultFirst(b: Bout): (r: real)
    ensures 0.0 <= r <= 1.0
    ensures r == 0.5 <==> b.pointsFirst == b.pointsSecond
    ensures r > 0.5 <==> b.pointsFirst > b.pointsSecond
  {
    ResultFirstAfter(b, b.pointsFirst + 2)
  }

  /** The share, behind a few recursive steps so that the verifier does not
      expand the division wherever a result is used. */
  function ResultFirstAfter(b: Bout, steps: nat): (r: real)
    requires b.pointsFirst <= steps
    ensures 0.0 <= r <= 1.0
    ensures r == 0.5 <==> b.pointsFirst == b.pointsSecond
    ensures r > 0.5 <==> b.pointsFirst > b.pointsSecond
    decreases steps - b.pointsFirst
  {
    if steps > b.pointsFirst then ResultFirstAfter(b, steps - 1)
    else if b.pointsFirst + b.pointsSecond == 0 then 0.5
    else
      ShareBounds(b.pointsFirst as real, b.pointsSecond as real);
      b.pointsFirst as real / (b.pointsFirst + b.pointsSecond) as real
  }

  lemma ShareBounds(p: real, q: real)
    requires 0.0 <= p && 0.0 <= q && p + q > 0.0
    ensures var r := p / (p + q);
      0.0 <= r <= 1.0 && (r == 0.5 <==> p == q) && (r > 0.5 <==> p > q)
  {
    var t := p + q;
    var r := p / t;
    QuotientAtLeast(p, t, 0.0);
    QuotientAtMost(p, t, 1.0);
    if p > q {
      QuotientAbove(p, t, 0.5);
    } else if p < q {
      QuotientBelow(p, t, 0.5);
    } else {
      QuotientAtLeast(p, t, 0.5);
      QuotientAtMost(p, t, 0.5);
    }
  }

  lemma QuotientAbove(n: real, w: real, c: real)
    requires w > 0.0 && n > c * w
    ensures n / w > c
  {
  }

  lemma QuotientBelow(n: real, w: real, c: real)
    requires w > 0.0 && n < c * w
    ensures n / w < c
  {
  }

  /** The expectation used for a bout (felo_rating.py:474-489): Elo's
      formula on the committed ratings, corrected from the table for a
      single relay bout to at most 15 points. */
  function BoutExpectation(pow10: real -> real, b: Bout, first: real, second: real): (e: real)
    requires IsPow10(pow10)
    ensures 0.0 <= e <= 1.0
    ensures b.fencedTo != 0 || MaxPoints(b) > 15 ==> e == Expectation(pow10, first, second)
  {
    ExpectationAfter(pow10, b, first, second, MaxPoints(b) + 2)
  }

  function ExpectationAfter(pow10: real -> real, b: Bout, first: real, second: real, steps: nat): (e: real)
    requires IsPow10(pow10) && MaxPoints(b) <= steps
    ensures 0.0 <= e <= 1.0
    ensures b.fencedTo != 0 || MaxPoints(b) > 15 ==> e == Expectation(pow10, first, second)
    decreases steps - MaxPoints(b)
  {
    if steps > MaxPoints(b) then ExpectationAfter(pow10, b, first, second, steps - 1)
    else
      var e := Expectation(pow10, first, second);
      if b.fencedTo == 0 && MaxPoints(b) <= 15 && e < 1.0 then CorrectedExpectation(e, MaxPoints(b)) else e
  }

  /** `set_preliminary_felo_ratings` (felo_rating.py:424-497), statement by
      statement. Two freshmen: nothing. One freshman: only the freshman's
      accumulators grow. Two rated fencers: the preliminary ratings move by
      k * improvement in opposite directions, both preliminary weightings
      grow and both names join the staging set. The ratings read are the
      committed ones. Each update reads the map as the previous one left
      it, so a bout of a fencer against itself behaves as in the source. */
  function StageBout(s: EngineState, b: Bout, params: Parameters, pow10: real -> real): (r: EngineState)
    requires IsPow10(pow10) && Knows(s, b)
    ensures r.fencers.Keys == s.fencers.Keys
    ensures r.staged == s.staged + (if s.fencers[b.first].freshman || s.fencers[b.second].freshman then {}
                                    else {b.first, b.second})
  {
    StageBoutAfter(s, b, params, pow10, MaxPoints(b) + 2)
  }

  /** The staging, behind a few recursive steps so that the verifier does
      not unfold it where only the state it leaves matters. */
  function StageBoutAfter(s: EngineState, b: Bout, params: Parameters, pow10: real -> real, steps: nat): (r: EngineState)
    requires IsPow10(pow10) && Knows(s, b) && MaxPoints(b) <= steps
    ensures r.fencers.Keys == s.fencers.Keys
    ensures r.staged == s.staged + (if s.fencers[b.first].freshman || s.fencers[b.second].freshman then {}
                                    else {b.first, b.second})
    decreases steps - MaxPoints(b)
  {
    if steps > MaxPoints(b) then StageBoutAfter(s, b, params, pow10, steps - 1)
    else
      var first := s.fencers[b.first];
      var second := s.fencers[b.second];
      var w := Weighting(b, params);
      var result := ResultFirst(b);
      if first.freshman && second.freshman then s
      else if first.freshman then StageFreshman(s, b.first, true, w, result, second.rating)
      else if second.freshman then StageFreshman(s, b.second, false, w, result, first.rating)
      else StageRated(s, b, Improvement(s, b, params, pow10), w, params)
  }

  /** A freshman's side of a bout against a rated fencer
      (felo_rating.py:459-470), on the whole state: only the freshman's
      record changes, as FreshmanBout says, and nobody is staged. */
  function StageFreshman(s: EngineState, key: string, freshmanFirst: bool, w: real, result: real, opponentRating: real): (r: EngineState)
    requires key in s.fencers
    ensures r.fencers.Keys == s.fencers.Keys && r.staged == s.staged
    ensures forall k :: k in s.fencers && k != key ==> r.fencers[k] == s.fencers[k]
  {
    s.(fencers := s.fencers[key := FreshmanBout(s.fencers[key], freshmanFirst, w, result, opponentRating)])
  }

  /** The freshman's record after one bout: the weighting grows by w, the
      result by (result - 0.5) * w when the freshman fenced first and by
      (0.5 - result) * w when they fenced second (result is the first
      fencer's share), and the opponents' total by the opponent's committed
      rating times w. For a share in [0, 1] the result moves by at most
      half of w. */
  function FreshmanBout(f: FencerState, freshmanFirst: bool, w: real, result: real, opponentRating: real): (g: FencerState)
    ensures g == f.(totalWeighting := f.totalWeighting + w, totalResult := g.totalResult,
                    totalOpponentRating := g.totalOpponentRating)
    ensures 0.0 <= w && 0.0 <= result <= 1.0 ==> -0.5 * w <= g.totalResult - f.totalResult <= 0.5 * w
  {
    FreshmanBoutAfter(f, freshmanFirst, w, result, opponentRating, |f.name| + 2)
  }

  function FreshmanBoutAfter(f: FencerState, freshmanFirst: bool, w: real, result: real, opponentRating: real,
                             steps: nat): (g: FencerState)
    requires |f.name| <= steps
    ensures g == f.(totalWeighting := f.totalWeighting + w, totalResult := g.totalResult,
                    totalOpponentRating := g.totalOpponentRating)
    ensures 0.0 <= w && 0.0 <= result <= 1.0 ==> -0.5 * w <= g.totalResult - f.totalResult <= 0.5 * w
    decreases steps - |f.name|
  {
    if steps > |f.name| then FreshmanBoutAfter(f, freshmanFirst, w, result, opponentRating, steps - 1)
    else
      var gain := if freshmanFirst then (result - 0.5) * w else (0.5 - result) * w;
      GainBounded(result, w);
      f.(totalWeighting := f.totalWeighting + w,
         totalResult := f.totalResult + gain,
         totalOpponentRating := f.totalOpponentRating + opponentRating * w)
  }

  /** (result - 0.5) * w and (0.5 - result) * w are at most half of w in
      size for a result between 0 and 1. */
  lemma {:induction false} GainBounded(result: real, w: real)
    ensures 0.0 <= w && 0.0 <= result <= 1.0 ==>
      -0.5 * w <= (result - 0.5) * w <= 0.5 * w && -0.5 * w <= (0.5 - result) * w <= 0.5 * w
  {
    if 0.0 <= w && 0.0 <= result <= 1.0 {
      assert 0.0 <= result * w <= w by {
        assert (1.0 - result) * w >= 0.0;
      }
    }
  }

  /** The improvement of the first fencer in a bout of two rated fencers
      (felo_rating.py:474-490): the result minus the expectation from the
      committed ratings, times the weight of the bout. */
  function Improvement(s: EngineState, b: Bout, params: Parameters, pow10: real -> real): real
    requires IsPow10(pow10) && Knows(s, b)
  {
    ImprovementAfter(s, b, params, pow10, MaxPoints(b) + 2)
  }

  function ImprovementAfter(s: EngineState, b: Bout, params: Parameters, pow10: real -> real, steps: nat): real
    requires IsPow10(pow10) && Knows(s, b) && MaxPoints(b) <= steps
    decreases steps - MaxPoints(b)
  {
    if steps > MaxPoints(b) then ImprovementAfter(s, b, params, pow10, steps - 1)
    else (ResultFirst(b) - BoutExpectation(pow10, b, s.fencers[b.first].rating, s.fencers[b.second].rating)) * Weighting(b, params)
  }

  /** The rated branch of `set_preliminary_felo_ratings`
      (felo_rating.py:490-497) for a given improvement and weighting. Each
      update reads the map as the previous one left it, so a bout of a
      fencer against itself behaves as in the source. */
  function StageRated(s: EngineState, b: Bout, improvement: real, w: real, params: Parameters): (r: EngineState)
    requires Knows(s, b)
    ensures r.fencers.Keys == s.fencers.Keys
    ensures r.staged == s.staged + {b.first, b.second}
    ensures forall k :: k in s.fencers && k != b.first && k != b.second ==> r.fencers[k] == s.fencers[k]
  {
    var m1 := s.fencers[b.first := s.fencers[b.first].(
      ratingPreliminary := s.fencers[b.first].ratingPreliminary + RatingChange(s.fencers[b.first], improvement, params))];
    var m2 := m1[b.second := m1[b.second].(
      ratingPreliminary := m1[b.second].ratingPreliminary - RatingChange(m1[b.second], improvement, params))];
    var m3 := m2[b.first := m2[b.first].(totalWeightingPreliminary := m2[b.first].totalWeightingPreliminary + w)];
    var m4 := m3[b.second := m3[b.second].(totalWeightingPreliminary := m3[b.second].totalWeightingPreliminary + w)];
    EngineState(m4, s.staged + {b.first, b.second})
  }

  /** What a bout moves a rated fencer's preliminary rating by: the
      fencer's k factor times the improvement (felo_rating.py:491-492). */
  function RatingChange(f: FencerState, improvement: real, params: Parameters): (r: real)
    ensures f.totalWeighting < params.boutsFreshmen ==> r == params.kFactorFreshmen * improvement
    ensures f.totalWeighting >= params.boutsFreshmen ==> r == f.kFactor * improvement
  {
    KFactor(f, params) * improvement
  }

  // ---------------------------------------------------------------------
  // Commit

  /** What `adopt_preliminary_felo_ratings` does to one staged fencer: the
      preliminary rating goes through the rating setter and the preliminary
      weighting becomes the weighting. The preliminary values stay. */
  function Adopted(f: FencerState, params: Parameters): (r: FencerState)
    ensures r == f.(rating := r.rating, kFactor := r.kFactor, totalWeighting := f.totalWeightingPreliminary)
    ensures f.freshman || f.foreign ==> r.rating == f.rating && r.kFactor == f.kFactor
    ensures !f.freshman && !f.foreign ==> r.rating == Max(f.ratingPreliminary, params.minimalRating)
    ensures !f.freshman && !f.foreign ==>
      r.kFactor == (if r.rating >= params.ratingTop then params.kFactorTop else f.kFactor)
  {
    SetRating(f, f.ratingPreliminary, params).(totalWeighting := f.totalWeightingPreliminary)
  }

  /** `adopt_preliminary_felo_ratings` (felo_rating.py:907-921): every
      staged fencer adopts its preliminary values, the others stay, and the
      staging set is cleared. */
  function Commit(s: EngineState, params: Parameters): (r: EngineState)
    ensures r.staged == {} && r.fencers.Keys == s.fencers.Keys
    ensures forall k :: k in s.fencers && k !in s.staged ==> r.fencers[k] == s.fencers[k]
    ensures forall k :: k in s.fencers && k in s.staged ==> r.fencers[k] == Adopted(s.fencers[k], params)
  {
    EngineState(map k | k in s.fencers :: if k in s.staged then Adopted(s.fencers[k], params) else s.fencers[k], {})
  }

  // ---------------------------------------------------------------------
  // One chronological pass

  /** A batch ends at the last bout and wherever the next bout has another
      `date_string` (felo_rating.py:1105). */
  predicate BatchEndsAt(bs: seq<Bout>, i: nat)
    requires i < |bs|
  {
    i == |bs| - 1 || DateString(bs[i]) != DateString(bs[i + 1])
  }

  /** One step of `calculate_felo_ratings_core`: stage bout i, and commit
      when its batch ends there. */
  function Step(s: EngineState, bs: seq<Bout>, i: nat, params: Parameters, pow10: real -> real): (r: EngineState)
    requires IsPow10(pow10) && i < |bs| && Knows(s, bs[i])
    ensures r.fencers.Keys == s.fencers.Keys && (KnowsAll(s, bs) ==> KnowsAll(r, bs))
    ensures BatchEndsAt(bs, i) ==> r.staged == {}
  {
    StepAfter(s, bs, i, params, pow10, i + 2)
  }

  /** The step, behind a few recursive steps so that the verifier does not
      unfold it where only the steps of a pass as a whole matter; StepIs
      gives it back. */
  function StepAfter(s: EngineState, bs: seq<Bout>, i: nat, params: Parameters, pow10: real -> real, steps: nat)
    : (r: EngineState)
    requires IsPow10(pow10) && i < |bs| && Knows(s, bs[i]) && i <= steps
    ensures r.fencers.Keys == s.fencers.Keys
    ensures BatchEndsAt(bs, i) ==> r.staged == {}
    decreases steps - i
  {
    if steps > i then StepAfter(s, bs, i, params, pow10, steps - 1)
    else
      var t := StageBout(s, bs[i], params, pow10);
      if BatchEndsAt(bs, i) then Commit(t, params) else t
  }

  /** A step stages bout i and commits when its batch ends there. */
  lemma StepIs(s: EngineState, bs: seq<Bout>, i: nat, params: Parameters, pow10: real -> real)
    requires IsPow10(pow10) && i < |bs| && Knows(s, bs[i])
    ensures Step(s, bs, i, params, pow10)
            == var t := StageBout(s, bs[i], params, pow10); if BatchEndsAt(bs, i) then Commit(t, params) else t
  {
    assert StepAfter(s, bs, i, params, pow10, i + 2) == StepAfter(s, bs, i, params, pow10, i + 1);
    assert StepAfter(s, bs, i, params, pow10, i + 1) == StepAfter(s, bs, i, params, pow10, i);
  }

  /** The loop of `calculate_felo_ratings_core` (felo_rating.py:1103-1108)
      from bout i on. */
  function PassFrom(s: EngineState, bs: seq<Bout>, i: nat, params: Parameters, pow10: real -> real): (r: EngineState)
    requires IsPow10(pow10) && i <= |bs| && KnowsAll(s, bs)
    ensures r.fencers.Keys == s.fencers.Keys && KnowsAll(r, bs)
    decreases |bs| - i
  {
    if i == |bs| then s
    else PassFrom(Step(s, bs, i, params, pow10), bs, i + 1, params, pow10)
  }

  function Pass(s: EngineState, bs: seq<Bout>, params: Parameters, pow10: real -> real): (r: EngineState)
    requires IsPow10(pow10) && KnowsAll(s, bs)
    ensures r.fencers.Keys == s.fencers.Keys
  {
    PassAfter(s, bs, |bs| + 2, params, pow10)
  }

  /** The pass, behind a few recursive steps so that the verifier does not
      unfold every bout of it where only the pass as a whole matters. */
  function PassAfter(s: EngineState, bs: seq<Bout>, steps: nat, params: Parameters, pow10: real -> real): (r: EngineState)
    requires IsPow10(pow10) && KnowsAll(s, bs) && |bs| <= steps
    ensures r.fencers.Keys == s.fencers.Keys
    decreases steps - |bs|
  {
    if steps > |bs| then PassAfter(s, bs, steps - 1, params, pow10) else PassFrom(s, bs, 0, params, pow10)
  }

  // ---------------------------------------------------------------------
  // Bootstrapping

  /** The `felo_rating_exact` of every fencer, as `old_felo_rating` records
      it before a cycle (felo_rating.py:1172-1173), freshmen included. */
  function Snapshot(s: EngineState, params: Parameters): (m: map<string, Result<real>>)
    ensures m.Keys == s.fencers.Keys
  {
    map k | k in s.fencers :: RatingExact(s.fencers[k], params)
  }

  /** Every fencer's `felo_rating_exact` can be computed. */
  predicate Estimable(s: EngineState, params: Parameters) {
    EstimableAfter(s, params, |s.fencers| + 2)
  }

  /** The test, behind a few recursive steps so that the verifier does not
      unfold it where only its outcome matters. */
  predicate EstimableAfter(s: EngineState, params: Parameters, steps: nat)
    requires |s.fencers| <= steps
    decreases steps - |s.fencers|
  {
    if steps > |s.fencers| then EstimableAfter(s, params, steps - 1)
    else forall k :: k in s.fencers ==> RatingExact(s.fencers[k], params).Ok?
  }

  /** A fencer's estimate stayed put over a cycle: it can be computed
      before and after, and it moved by less than `threshold
      bootstrapping`. */
  predicate Stayed(before: EngineState, after: EngineState, k: string, params: Parameters)
    requires k in before.fencers && k in after.fencers
  {
    var x := RatingExact(before.fencers[k], params);
    var y := RatingExact(after.fencers[k], params);
    x.Ok? && y.Ok? && -params.thresholdBootstrapping < x.value - y.value < params.thresholdBootstrapping
  }

  /** Every fencer's estimate stayed put. */
  predicate Converged(before: EngineState, after: EngineState, params: Parameters)
    requires before.fencers.Keys == after.fencers.Keys
  {
    ConvergedAfter(before, after, params, |before.fencers| + 2)
  }

  predicate ConvergedAfter(before: EngineState, after: EngineState, params: Parameters, steps: nat)
    requires before.fencers.Keys == after.fencers.Keys && |before.fencers| <= steps
    decreases steps - |before.fencers|
  {
    if steps > |before.fencers| then ConvergedAfter(before, after, params, steps - 1)
    else
      forall k :: k in before.fencers ==> Stayed(before, after, k, params)
  }

  /** `order` lists the names in `keys`, as iterating over the `fencers`
      dictionary does. */
  predicate Lists(order: seq<string>, keys: set<string>) {
    && (forall j :: 0 <= j < |order| ==> order[j] in keys)
    && (forall k :: k in keys ==> k in order)
  }

  /** How the for/else test of felo_rating.py:1175-1179 ends. */
  datatype Verdict = Settled | Moved | Undefined

  /** The for/else test, walking the fencers in the dictionary's order
      `order`: the first fencer whose estimate did not stay put ends the
      walk, with Undefined when one of its estimates divides by zero and
      Moved otherwise; the fencers after it are never looked at. When every
      fencer stayed put the test is Settled. A name of `order` that is
      not a fencer of both states is passed over; Lists rules it out. */
  function Check(before: EngineState, after: EngineState, order: seq<string>, params: Parameters): Verdict
  {
    if order == [] then Settled
    else if order[0] !in before.fencers || order[0] !in after.fencers then Check(before, after, order[1..], params)
    else if Stayed(before, after, order[0], params) then Check(before, after, order[1..], params)
    else if RatingExact(before.fencers[order[0]], params).Err? || RatingExact(after.fencers[order[0]], params).Err? then Undefined
    else Moved
  }

  /** The state after n passes. */
  function Iterate(s: EngineState, bs: seq<Bout>, n: nat, params: Parameters, pow10: real -> real): (r: EngineState)
    requires IsPow10(pow10) && KnowsAll(s, bs)
    ensures r.fencers.Keys == s.fencers.Keys && KnowsAll(r, bs)
  {
    if n == 0 then s
    else
      var t := Iterate(s, bs, n - 1, params, pow10);
      var r := Pass(t, bs, params, pow10);
      assert KnowsAll(r, bs);
      r
  }

  predicate EstimableAt(s: EngineState, bs: seq<Bout>, i: nat, params: Parameters, pow10: real -> real)
    requires IsPow10(pow10) && KnowsAll(s, bs)
  {
    Estimable(Iterate(s, bs, i, params, pow10), params)
  }

  /** Cycle i converges: the pass after i passes moves nobody by the
      threshold. */
  predicate ConvergedAt(s: EngineState, bs: seq<Bout>, i: nat, params: Parameters, pow10: real -> real)
    requires IsPow10(pow10) && KnowsAll(s, bs)
  {
    EstimableAt(s, bs, i, params, pow10) && EstimableAt(s, bs, i + 1, params, pow10)
    && Converged(Iterate(s, bs, i, params, pow10), Iterate(s, bs, i + 1, params, pow10), params)
  }

  /** Where the bootstrapping loop stops: the state, the loop index, and
      whether a `felo_rating_exact` divided by zero. */
  datatype CycleEnd = CycleEnd(state: EngineState, last: nat, failed: bool)

  /** The cycles of the bootstrapping loop from cycle i on, from the state
      t the earlier cycles left, with the dictionary yielding the fencers
      in the order `order`. A cycle fails when an estimate before the pass
      divides by zero, or when the test after it reaches a fencer whose
      estimate does; a cycle whose test finds a fencer that moved goes on
      to the next one unless it is the final one allowed. */
  function Cycles(t: EngineState, bs: seq<Bout>, order: seq<string>, maxcycles: nat, i: nat,
                  params: Parameters, pow10: real -> real): (r: CycleEnd)
    requires IsPow10(pow10) && KnowsAll(t, bs) && Lists(order, t.fencers.Keys) && i < maxcycles
    ensures i <= r.last < maxcycles && r.state.fencers.Keys == t.fencers.Keys
    decreases maxcycles - i, 2, 0
  {
    CyclesAfter(t, bs, order, maxcycles, i, params, pow10, i + 2)
  }

  /** The cycles, behind a few recursive steps so that the verifier does
      not unfold them where only their end matters; CyclesUnfold gives
      them back. */
  function CyclesAfter(t: EngineState, bs: seq<Bout>, order: seq<string>, maxcycles: nat, i: nat,
                       params: Parameters, pow10: real -> real, steps: nat): (r: CycleEnd)
    requires IsPow10(pow10) && KnowsAll(t, bs) && Lists(order, t.fencers.Keys) && i < maxcycles && i <= steps
    ensures i <= r.last < maxcycles && r.state.fencers.Keys == t.fencers.Keys
    decreases maxcycles - i, 1, steps - i
  {
    if steps > i then CyclesAfter(t, bs, order, maxcycles, i, params, pow10, steps - 1)
    else if !Estimable(t, params) then CycleEnd(t, i, true)
    else
      var u := Pass(t, bs, params, pow10);
      assert KnowsAll(u, bs);
      match Check(t, u, order, params)
      case Undefined => CycleEnd(u, i, true)
      case Settled => CycleEnd(u, i, false)
      case Moved =>
        if i == maxcycles - 1 then CycleEnd(u, i, false)
        else Cycles(u, bs, order, maxcycles, i + 1, params, pow10)
  }

  lemma CyclesUnfold(t: EngineState, bs: seq<Bout>, order: seq<string>, maxcycles: nat, i: nat,
                     params: Parameters, pow10: real -> real)
    requires IsPow10(pow10) && KnowsAll(t, bs) && Lists(order, t.fencers.Keys) && i < maxcycles
    ensures Cycles(t, bs, order, maxcycles, i, params, pow10) == CyclesAfter(t, bs, order, maxcycles, i, params, pow10, i)
  {
    assert CyclesAfter(t, bs, order, maxcycles, i, params, pow10, i + 2)
        == CyclesAfter(t, bs, order, maxcycles, i, params, pow10, i + 1);
    assert CyclesAfter(t, bs, order, maxcycles, i, params, pow10, i + 1)
        == CyclesAfter(t, bs, order, maxcycles, i, params, pow10, i);
  }

  /** The bootstrapping loop (felo_rating.py:1168-1181). `maxcycles` below
      1 leaves the loop index unbound; with a progress callback and one
      cycle the first progress value divides by zero; an estimate with
      weighting -2 that the loop reaches divides by zero; otherwise the loop fails with
      `BootstrappingError` whenever its index ends at `maxcycles - 1`, even
      when that last cycle converged. */
  function Bootstrap(s: EngineState, bs: seq<Bout>, order: seq<string>, maxcycles: int, withCallback: bool,
                     params: Parameters, pow10: real -> real): (r: Result<EngineState>)
    requires IsPow10(pow10) && KnowsAll(s, bs) && Lists(order, s.fencers.Keys)
    ensures r.Ok? ==> r.value.fencers.Keys == s.fencers.Keys
  {
    if maxcycles <= 0 then Err(UnboundCycleIndex)
    else if withCallback && maxcycles == 1 then Err(ZeroDivision)
    else
      var c := Cycles(s, bs, order, maxcycles, 0, params, pow10);
      if c.failed then Err(ZeroDivision)
      else if c.last == maxcycles - 1 then Err(BootstrappingError)
      else Ok(c.state)
  }

  /** The state the bootstrapping leaves behind, also when it fails: the
      passes already made are not undone. */
  function BootstrapState(s: EngineState, bs: seq<Bout>, order: seq<string>, maxcycles: int, withCallback: bool,
                          params: Parameters, pow10: real -> real): (r: EngineState)
    requires IsPow10(pow10) && KnowsAll(s, bs) && Lists(order, s.fencers.Keys)
    ensures r.fencers.Keys == s.fencers.Keys
    ensures var b := Bootstrap(s, bs, order, maxcycles, withCallback, params, pow10); b.Ok? ==> r == b.value
    ensures maxcycles <= 0 || (withCallback && maxcycles == 1) ==> r == s
  {
    if maxcycles <= 0 || (withCallback && maxcycles == 1) then s
    else Cycles(s, bs, order, maxcycles, 0, params, pow10).state
  }

  /** The state `calculate_felo_ratings` leaves (felo_rating.py:1167-1182):
      the bootstrapping when it is asked for, then one more pass. */
  function Calculation(s: EngineState, bs: seq<Bout>, order: seq<string>, bootstrapping: bool, maxcycles: int,
                       withCallback: bool, params: Parameters, pow10: real -> real): (r: Result<EngineState>)
    requires IsPow10(pow10) && KnowsAll(s, bs) && Lists(order, s.fencers.Keys)
    ensures r.Ok? ==> r.value.fencers.Keys == s.fencers.Keys
  {
    if !bootstrapping then Ok(Pass(s, bs, params, pow10))
    else
      match Bootstrap(s, bs, order, maxcycles, withCallback, params, pow10)
      case Err(e) => Err(e)
      case Ok(t) =>
        assert KnowsAll(t, bs);
        Ok(Pass(t, bs, params, pow10))
  }

  /** The values handed to the progress callback: i / (maxcycles - 1) for
      every tenth cycle i up to the last one run, each between 0 and 1. */
  function Progress(maxcycles: nat, last: nat): (r: seq<real>)
    requires 2 <= maxcycles && last < maxcycles
    ensures |r| == last / 10 + 1
    ensures forall j :: 0 <= j < |r| ==> 0.0 <= r[j] <= 1.0 && r[j] * (maxcycles - 1) as real == (10 * j) as real
    decreases last
  {
    if last < 10 then [0.0]
    else
      var tenth := last - last % 10;
      var v := tenth as real / (maxcycles - 1) as real;
      ProgressValue(tenth, maxcycles - 1);
      var r := Progress(maxcycles, tenth - 1) + [v];
      assert |r| == last / 10 + 1 && tenth == 10 * (|r| - 1);
      r
  }

  lemma ProgressValue(n: nat, m: nat)
    requires 0 < m && n <= m
    ensures 0.0 <= n as real / m as real <= 1.0 && (n as real / m as real) * m as real == n as real
  {
    QuotientAtMost(n as real, m as real, 1.0);
  }

  /** The fencers `calculate_felo_ratings` reports (felo_rating.py:1161-1162,
      1221-1223): the freshmen, or the visible fencers, i.e. those neither
      hidden, freshman nor foreign. */
  function Reported(s: EngineState, estimateFreshmen: bool): (names: set<string>)
    ensures names <= s.fencers.Keys
    ensures forall k :: k in s.fencers ==>
      (k in names <==> if estimateFreshmen then s.fencers[k].freshman
                       else !(s.fencers[k].hidden || s.fencers[k].freshman || s.fencers[k].foreign))
  {
    set k | k in s.fencers && (if estimateFreshmen then s.fencers[k].freshman
                               else !(s.fencers[k].hidden || s.fencers[k].freshman || s.fencers[k].foreign))
  }
}
