/** What the rating computation promises: how one bout changes the
    fencers, what a commit establishes, the invariants a chronological pass
    keeps, and how the bootstrapping loop ends. */
module RatingProperties {
  import opened Outcomes
  import opened Bouts
  import opened Fencers
  import opened Rating

  /** The staging is its statement-by-statement definition. */
  lemma {:induction false} StageBoutAfterBase(s: EngineState, b: Bout, params: Parameters, pow10: real -> real, steps: nat)
    requires IsPow10(pow10) && Knows(s, b) && MaxPoints(b) <= steps
    ensures StageBoutAfter(s, b, params, pow10, steps) == StageBoutAfter(s, b, params, pow10, MaxPoints(b))
    decreases steps - MaxPoints(b)
  {
    if steps > MaxPoints(b) {
      StageBoutAfterBase(s, b, params, pow10, steps - 1);
    }
  }

  lemma StageBoutRated(s: EngineState, b: Bout, params: Parameters, pow10: real -> real)
    requires IsPow10(pow10) && Knows(s, b)
    requires !s.fencers[b.first].freshman && !s.fencers[b.second].freshman
    ensures StageBout(s, b, params, pow10) == StageRated(s, b, Improvement(s, b, params, pow10), Weighting(b, params), params)
  {
    StageBoutAfterBase(s, b, params, pow10, MaxPoints(b) + 2);
  }

  /** For two different fencers the rated branch moves the first one's
      preliminary rating by k1 * improvement, the second one's by
      -k2 * improvement, grows both preliminary weightings by w and leaves
      everything else as it was. */
  lemma StageRatedDistinct(s: EngineState, b: Bout, improvement: real, w: real, params: Parameters)
    requires Knows(s, b) && b.first != b.second
    ensures var r := StageRated(s, b, improvement, w, params);
      var f1 := s.fencers[b.first];
      var f2 := s.fencers[b.second];
      r.fencers[b.first] == f1.(ratingPreliminary := f1.ratingPreliminary + KFactor(f1, params) * improvement,
                                totalWeightingPreliminary := f1.totalWeightingPreliminary + w)
      && r.fencers[b.second] == f2.(ratingPreliminary := f2.ratingPreliminary - KFactor(f2, params) * improvement,
                                    totalWeightingPreliminary := f2.totalWeightingPreliminary + w)
      && (forall k :: k in s.fencers && k != b.first && k != b.second ==> r.fencers[k] == s.fencers[k])
  {
  }

  /** The rated branch as the four updates the source makes, one after
      the other. */
  lemma StageRatedSteps(s: EngineState, b: Bout, improvement: real, w: real, params: Parameters,
                        m1: map<string, FencerState>, m2: map<string, FencerState>,
                        m3: map<string, FencerState>, m4: map<string, FencerState>)
    requires Knows(s, b)
    requires m1 == s.fencers[b.first := s.fencers[b.first].(
      ratingPreliminary := s.fencers[b.first].ratingPreliminary + RatingChange(s.fencers[b.first], improvement, params))]
    requires m2 == m1[b.second := m1[b.second].(
      ratingPreliminary := m1[b.second].ratingPreliminary - RatingChange(m1[b.second], improvement, params))]
    requires m3 == m2[b.first := m2[b.first].(totalWeightingPreliminary := m2[b.first].totalWeightingPreliminary + w)]
    requires m4 == m3[b.second := m3[b.second].(totalWeightingPreliminary := m3[b.second].totalWeightingPreliminary + w)]
    ensures StageRated(s, b, improvement, w, params) == EngineState(m4, s.staged + {b.first, b.second})
  {
  }

  /** A bout of two freshmen changes nothing. */
  lemma StageFreshmenPair(s: EngineState, b: Bout, params: Parameters, pow10: real -> real)
    requires IsPow10(pow10) && Knows(s, b)
    requires s.fencers[b.first].freshman && s.fencers[b.second].freshman
    ensures StageBout(s, b, params, pow10) == s
  {
    StageBoutAfterBase(s, b, params, pow10, MaxPoints(b) + 2);
  }

  /** A freshman against a rated fencer: only the freshman's accumulators
      change, by the weighting, (result - 0.5) * w from the freshman's side
      and the opponent's committed rating times w; nobody is staged. */
  lemma StageFirstFreshman(s: EngineState, b: Bout, params: Parameters, pow10: real -> real)
    requires IsPow10(pow10) && Knows(s, b)
    requires s.fencers[b.first].freshman && !s.fencers[b.second].freshman
    ensures StageBout(s, b, params, pow10)
      == StageFreshman(s, b.first, true, Weighting(b, params), ResultFirst(b), s.fencers[b.second].rating)
  {
    StageBoutAfterBase(s, b, params, pow10, MaxPoints(b) + 2);
  }

  lemma StageSecondFreshman(s: EngineState, b: Bout, params: Parameters, pow10: real -> real)
    requires IsPow10(pow10) && Knows(s, b)
    requires !s.fencers[b.first].freshman && s.fencers[b.second].freshman
    ensures StageBout(s, b, params, pow10)
      == StageFreshman(s, b.second, false, Weighting(b, params), ResultFirst(b), s.fencers[b.first].rating)
  {
    StageBoutAfterBase(s, b, params, pow10, MaxPoints(b) + 2);
  }

  /** Two different rated fencers: the first one's preliminary rating rises
      by k1 * improvement and the second one's falls by k2 * improvement,
      with the improvement above; both preliminary
      weightings grow by w; both join the staging set; committed ratings,
      weightings and k factors, and every other fencer, stay as they are. */
  lemma StageRatedPair(s: EngineState, b: Bout, params: Parameters, pow10: real -> real)
    requires IsPow10(pow10) && Knows(s, b) && b.first != b.second
    requires !s.fencers[b.first].freshman && !s.fencers[b.second].freshman
    ensures StageBout(s, b, params, pow10).staged == s.staged + {b.first, b.second}
    ensures StageBout(s, b, params, pow10).fencers[b.first].ratingPreliminary
      == s.fencers[b.first].ratingPreliminary + KFactor(s.fencers[b.first], params) * Improvement(s, b, params, pow10)
    ensures StageBout(s, b, params, pow10).fencers[b.second].ratingPreliminary
      == s.fencers[b.second].ratingPreliminary - KFactor(s.fencers[b.second], params) * Improvement(s, b, params, pow10)
    ensures StageBout(s, b, params, pow10).fencers[b.first].totalWeightingPreliminary
      == s.fencers[b.first].totalWeightingPreliminary + Weighting(b, params)
    ensures StageBout(s, b, params, pow10).fencers[b.second].totalWeightingPreliminary
      == s.fencers[b.second].totalWeightingPreliminary + Weighting(b, params)
    ensures var g1 := StageBout(s, b, params, pow10).fencers[b.first];
      g1 == s.fencers[b.first].(ratingPreliminary := g1.ratingPreliminary, totalWeightingPreliminary := g1.totalWeightingPreliminary)
    ensures var g2 := StageBout(s, b, params, pow10).fencers[b.second];
      g2 == s.fencers[b.second].(ratingPreliminary := g2.ratingPreliminary, totalWeightingPreliminary := g2.totalWeightingPreliminary)
    ensures forall k :: k in s.fencers && k != b.first && k != b.second ==>
      StageBout(s, b, params, pow10).fencers[k] == s.fencers[k]
  {
    StageBoutRated(s, b, params, pow10);
    StageRatedDistinct(s, b, Improvement(s, b, params, pow10), Weighting(b, params), params);
  }

  /** The first fencer's improvement is positive exactly when they scored
      a larger share than expected in a bout of positive weight, and zero
      in a bout of weight zero. */
  lemma ImprovementSign(s: EngineState, b: Bout, params: Parameters, pow10: real -> real)
    requires IsPow10(pow10) && Knows(s, b)
    ensures var e := BoutExpectation(pow10, b, s.fencers[b.first].rating, s.fencers[b.second].rating);
      Weighting(b, params) > 0.0 ==> (Improvement(s, b, params, pow10) > 0.0 <==> ResultFirst(b) > e)
    ensures Weighting(b, params) == 0.0 ==> Improvement(s, b, params, pow10) == 0.0
  {
    ImprovementAfterBase(s, b, params, pow10, MaxPoints(b) + 2);
    var e := BoutExpectation(pow10, b, s.fencers[b.first].rating, s.fencers[b.second].rating);
    ProductSign(ResultFirst(b) - e, Weighting(b, params));
  }

  lemma {:induction false} ImprovementAfterBase(s: EngineState, b: Bout, params: Parameters, pow10: real -> real, steps: nat)
    requires IsPow10(pow10) && Knows(s, b) && MaxPoints(b) <= steps
    ensures ImprovementAfter(s, b, params, pow10, steps) == ImprovementAfter(s, b, params, pow10, MaxPoints(b))
    decreases steps - MaxPoints(b)
  {
    if steps > MaxPoints(b) {
      ImprovementAfterBase(s, b, params, pow10, steps - 1);
    }
  }

  lemma ProductSign(x: real, w: real)
    ensures w > 0.0 ==> (x * w > 0.0 <==> x > 0.0)
    ensures w == 0.0 ==> x * w == 0.0
  {
    if w > 0.0 && x <= 0.0 {
      assert x * w <= 0.0 * w;
    }
  }

  /** With equal k factors a bout moves rating points from one fencer to
      the other: the sum of the two preliminary ratings is unchanged. */
  lemma {:induction false} StageConservesRatingSum(s: EngineState, b: Bout, params: Parameters, pow10: real -> real)
    requires IsPow10(pow10) && Knows(s, b) && b.first != b.second
    requires !s.fencers[b.first].freshman && !s.fencers[b.second].freshman
    requires KFactor(s.fencers[b.first], params) == KFactor(s.fencers[b.second], params)
    ensures var r := StageBout(s, b, params, pow10);
      r.fencers[b.first].ratingPreliminary + r.fencers[b.second].ratingPreliminary
        == s.fencers[b.first].ratingPreliminary + s.fencers[b.second].ratingPreliminary
  {
    StageRatedPair(s, b, params, pow10);
  }

  /** After a commit, a staged rated fencer that is not foreign has the
      rating max(preliminary, minimal rating) and the preliminary weighting;
      a staged foreign fencer keeps its fixed rating but takes the
      preliminary weighting; the k factor of the top fencers, once reached,
      stays; the preliminary values are kept. */
  lemma CommitStaged(s: EngineState, params: Parameters, k: string)
    requires k in s.fencers && k in s.staged && !s.fencers[k].freshman
    ensures var f := s.fencers[k];
      var g := Commit(s, params).fencers[k];
      g.totalWeighting == f.totalWeightingPreliminary
      && g.ratingPreliminary == f.ratingPreliminary
      && g.totalWeightingPreliminary == f.totalWeightingPreliminary
      && (!f.foreign ==> g.rating == Max(f.ratingPreliminary, params.minimalRating) >= params.minimalRating)
      && (f.foreign ==> g.rating == f.rating)
      && (f.kFactor == params.kFactorTop ==> g.kFactor == params.kFactorTop)
      && (!f.foreign && g.rating >= params.ratingTop ==> g.kFactor == params.kFactorTop)
      && (g.totalWeighting < params.boutsFreshmen ==> KFactor(g, params) == params.kFactorFreshmen)
  {
  }

  /** Committing twice is committing once. */
  lemma CommitIdempotent(s: EngineState, params: Parameters)
    ensures Commit(Commit(s, params), params) == Commit(s, params)
  {
  }

  /** A pass over at least one bout leaves nothing staged: the last bout
      always ends a batch. */
  lemma {:induction false} PassFromCommits(s: EngineState, bs: seq<Bout>, i: nat, params: Parameters, pow10: real -> real)
    requires IsPow10(pow10) && i < |bs| && KnowsAll(s, bs)
    ensures PassFrom(s, bs, i, params, pow10).staged == {}
    decreases |bs| - i
  {
    var t := Step(s, bs, i, params, pow10);
    assert KnowsAll(t, bs);
    if i + 1 < |bs| {
      PassFromCommits(t, bs, i + 1, params, pow10);
    }
  }

  /** Every rated fencer that is not foreign is rated at least the minimal
      rating; the constructor establishes it through the setter. */
  predicate AboveMinimum(s: EngineState, params: Parameters) {
    forall k :: k in s.fencers && !s.fencers[k].freshman && !s.fencers[k].foreign ==>
      s.fencers[k].rating >= params.minimalRating
  }

  /** Staging reads but never writes committed ratings, weightings of rated
      fencers, k factors or the freshman and foreign flags. */
  predicate SameCommitted(f: FencerState, g: FencerState) {
    f.freshman == g.freshman && f.foreign == g.foreign && f.rating == g.rating && f.kFactor == g.kFactor
    && f.name == g.name && f.hidden == g.hidden && f.initialRating == g.initialRating
    && f.initialTotalWeighting == g.initialTotalWeighting
    && (!f.freshman ==> f.totalWeighting == g.totalWeighting)
  }

  lemma StageKeepsCommitted(s: EngineState, b: Bout, params: Parameters, pow10: real -> real, k: string)
    requires IsPow10(pow10) && Knows(s, b) && k in s.fencers
    ensures SameCommitted(s.fencers[k], StageBout(s, b, params, pow10).fencers[k])
  {
    var f1 := s.fencers[b.first];
    var f2 := s.fencers[b.second];
    if f1.freshman && f2.freshman {
      StageFreshmenPair(s, b, params, pow10);
    } else if f1.freshman {
      StageFirstFreshman(s, b, params, pow10);
    } else if f2.freshman {
      StageSecondFreshman(s, b, params, pow10);
    } else {
      StageBoutRated(s, b, params, pow10);
    }
  }

  /** The minimum rating holds after every step of a pass. */
  lemma {:induction false} PassFromAboveMinimum(s: EngineState, bs: seq<Bout>, i: nat, params: Parameters, pow10: real -> real)
    requires IsPow10(pow10) && i <= |bs| && KnowsAll(s, bs)
    requires AboveMinimum(s, params)
    ensures AboveMinimum(PassFrom(s, bs, i, params, pow10), params)
    decreases |bs| - i
  {
    if i < |bs| {
      var t := StageBout(s, bs[i], params, pow10);
      forall k | k in t.fencers
        ensures SameCommitted(s.fencers[k], t.fencers[k])
      {
        StageKeepsCommitted(s, bs[i], params, pow10, k);
      }
      assert AboveMinimum(t, params);
      var u := Step(s, bs, i, params, pow10);
      StepIs(s, bs, i, params, pow10);
      assert AboveMinimum(u, params);
      assert KnowsAll(u, bs);
      PassFromAboveMinimum(u, bs, i + 1, params, pow10);
    }
  }

  /** A freshman's accumulated result never exceeds half its weighting in
      size: each bout adds (result - 0.5) * w with a result between 0 and
      1. It holds from the start for a non-negative initial weighting, and
      is what makes the estimate stay within 350 of the opponents'
      average. */
  predicate FreshmenBounded(s: EngineState) {
    forall k :: k in s.fencers && s.fencers[k].freshman ==>
      0.0 <= s.fencers[k].totalWeighting
      && -0.5 * s.fencers[k].totalWeighting <= s.fencers[k].totalResult <= 0.5 * s.fencers[k].totalWeighting
  }

  /** A freshman's side of a bout keeps every freshman bounded: the gain is
      at most half of the weight in either direction. */
  lemma StageFreshmanBounded(s: EngineState, key: string, freshmanFirst: bool, w: real, result: real, opponentRating: real)
    requires key in s.fencers && FreshmenBounded(s)
    requires 0.0 <= w && 0.0 <= result <= 1.0
    ensures FreshmenBounded(StageFreshman(s, key, freshmanFirst, w, result, opponentRating))
  {
  }

  /** The exact accumulation of FreshmanBout (felo_rating.py:459-470). */
  lemma FreshmanBoutSums(f: FencerState, freshmanFirst: bool, w: real, result: real, opponentRating: real)
    ensures var g := FreshmanBout(f, freshmanFirst, w, result, opponentRating);
      g.totalResult == f.totalResult + (if freshmanFirst then (result - 0.5) * w else (0.5 - result) * w)
      && g.totalOpponentRating == f.totalOpponentRating + opponentRating * w
  {
    FreshmanBoutAfterBase(f, freshmanFirst, w, result, opponentRating, |f.name| + 2);
  }

  lemma {:induction false} FreshmanBoutAfterBase(f: FencerState, freshmanFirst: bool, w: real, result: real,
                                                 opponentRating: real, steps: nat)
    requires |f.name| <= steps
    ensures FreshmanBoutAfter(f, freshmanFirst, w, result, opponentRating, steps)
         == FreshmanBoutAfter(f, freshmanFirst, w, result, opponentRating, |f.name|)
    decreases steps - |f.name|
  {
    if steps > |f.name| {
      FreshmanBoutAfterBase(f, freshmanFirst, w, result, opponentRating, steps - 1);
    }
  }

  lemma {:induction false} StageFreshmenBounded(s: EngineState, b: Bout, params: Parameters, pow10: real -> real)
    requires IsPow10(pow10) && Knows(s, b) && params.weightingTeamBout >= 0.0
    requires FreshmenBounded(s)
    ensures FreshmenBounded(StageBout(s, b, params, pow10))
  {
    var f1 := s.fencers[b.first];
    var f2 := s.fencers[b.second];
    if f1.freshman && f2.freshman {
      StageFreshmenPair(s, b, params, pow10);
    } else if f1.freshman || f2.freshman {
      StageOneFreshmanBounded(s, b, params, pow10);
    } else {
      StageRatedKeepsFreshmen(s, b, params, pow10);
      forall k | k in s.fencers
        ensures SameCommitted(s.fencers[k], StageBout(s, b, params, pow10).fencers[k])
      {
        StageKeepsCommitted(s, b, params, pow10, k);
      }
    }
  }

  lemma {:induction false} StageOneFreshmanBounded(s: EngineState, b: Bout, params: Parameters, pow10: real -> real)
    requires IsPow10(pow10) && Knows(s, b) && params.weightingTeamBout >= 0.0
    requires FreshmenBounded(s) && s.fencers[b.first].freshman != s.fencers[b.second].freshman
    ensures FreshmenBounded(StageBout(s, b, params, pow10))
  {
    var w := Weighting(b, params);
    if s.fencers[b.first].freshman {
      StageFirstFreshman(s, b, params, pow10);
      StageFreshmanBounded(s, b.first, true, w, ResultFirst(b), s.fencers[b.second].rating);
    } else {
      StageSecondFreshman(s, b, params, pow10);
      StageFreshmanBounded(s, b.second, false, w, ResultFirst(b), s.fencers[b.first].rating);
    }
  }

  /** A bout of two rated fencers leaves every freshman as it was. */
  lemma StageRatedKeepsFreshmen(s: EngineState, b: Bout, params: Parameters, pow10: real -> real)
    requires IsPow10(pow10) && Knows(s, b)
    requires !s.fencers[b.first].freshman && !s.fencers[b.second].freshman
    ensures forall k :: k in s.fencers && s.fencers[k].freshman ==> StageBout(s, b, params, pow10).fencers[k] == s.fencers[k]
  {
    StageBoutRated(s, b, params, pow10);
  }

  /** Only rated fencers are ever staged. */
  predicate StagedAreRated(s: EngineState) {
    forall k :: k in s.staged ==> k in s.fencers && !s.fencers[k].freshman
  }

  lemma StageKeepsStagedRated(s: EngineState, b: Bout, params: Parameters, pow10: real -> real)
    requires IsPow10(pow10) && Knows(s, b) && StagedAreRated(s)
    ensures StagedAreRated(StageBout(s, b, params, pow10))
  {
    var r := StageBout(s, b, params, pow10);
    forall k | k in r.fencers
      ensures SameCommitted(s.fencers[k], r.fencers[k])
    {
      StageKeepsCommitted(s, b, params, pow10, k);
    }
  }

  /** A commit leaves freshmen alone when only rated fencers are staged. */
  lemma CommitKeepsFreshmen(s: EngineState, params: Parameters)
    requires StagedAreRated(s)
    ensures forall k :: k in s.fencers ==> Commit(s, params).fencers[k].freshman == s.fencers[k].freshman
    ensures forall k :: k in s.fencers && s.fencers[k].freshman ==> Commit(s, params).fencers[k] == s.fencers[k]
  {
  }

  /** With a non-negative team-bout weighting, a pass keeps every
      freshman's result within half its weighting. */
  lemma {:induction false} PassFromFreshmenBounded(s: EngineState, bs: seq<Bout>, i: nat, params: Parameters, pow10: real -> real)
    requires IsPow10(pow10) && i <= |bs| && KnowsAll(s, bs) && params.weightingTeamBout >= 0.0
    requires FreshmenBounded(s) && StagedAreRated(s)
    ensures FreshmenBounded(PassFrom(s, bs, i, params, pow10)) && StagedAreRated(PassFrom(s, bs, i, params, pow10))
    decreases |bs| - i
  {
    if i < |bs| {
      var t := StageBout(s, bs[i], params, pow10);
      StageFreshmenBounded(s, bs[i], params, pow10);
      StageKeepsStagedRated(s, bs[i], params, pow10);
      CommitKeepsFreshmen(t, params);
      var u := Step(s, bs, i, params, pow10);
      StepIs(s, bs, i, params, pow10);
      assert FreshmenBounded(u) && StagedAreRated(u);
      assert KnowsAll(u, bs);
      PassFromFreshmenBounded(u, bs, i + 1, params, pow10);
    }
  }

  /** A pass is the loop of `calculate_felo_ratings_core` over all bouts. */
  lemma PassIsPassFrom(s: EngineState, bs: seq<Bout>, params: Parameters, pow10: real -> real)
    requires IsPow10(pow10) && KnowsAll(s, bs)
    ensures Pass(s, bs, params, pow10) == PassFrom(s, bs, 0, params, pow10)
  {
    assert PassAfter(s, bs, |bs| + 2, params, pow10) == PassAfter(s, bs, |bs| + 1, params, pow10);
    assert PassAfter(s, bs, |bs| + 1, params, pow10) == PassAfter(s, bs, |bs|, params, pow10);
  }

  /** The state after i + 1 passes is one pass after the state after i. */
  lemma IterateStep(s: EngineState, bs: seq<Bout>, i: nat, params: Parameters, pow10: real -> real)
    requires IsPow10(pow10) && KnowsAll(s, bs)
    ensures Iterate(s, bs, i + 1, params, pow10) == Pass(Iterate(s, bs, i, params, pow10), bs, params, pow10)
  {
  }

  /** A cycle the loop does not stop at computed every estimate before its
      pass, found a fencer that moved, and was not the final one allowed;
      the cycles go on from the state after the pass. */
  lemma CyclesContinue(t: EngineState, bs: seq<Bout>, order: seq<string>, maxcycles: nat, i: nat,
                       params: Parameters, pow10: real -> real)
    requires IsPow10(pow10) && KnowsAll(t, bs) && Lists(order, t.fencers.Keys) && i < maxcycles
    requires Cycles(t, bs, order, maxcycles, i, params, pow10).last > i
    ensures Estimable(t, params) && Check(t, Pass(t, bs, params, pow10), order, params) == Moved && i + 1 < maxcycles
    ensures Cycles(t, bs, order, maxcycles, i, params, pow10)
         == Cycles(Pass(t, bs, params, pow10), bs, order, maxcycles, i + 1, params, pow10)
  {
    CyclesUnfold(t, bs, order, maxcycles, i, params, pow10);
  }

  /** At the cycle the loop stops at, it fails exactly when an estimate
      before the pass divides by zero or the test after it reaches an
      estimate that does; otherwise it ends with the state after the pass,
      and the test settled unless the cycle is the final one allowed. */
  lemma CyclesStop(t: EngineState, bs: seq<Bout>, order: seq<string>, maxcycles: nat, i: nat,
                   params: Parameters, pow10: real -> real)
    requires IsPow10(pow10) && KnowsAll(t, bs) && Lists(order, t.fencers.Keys) && i < maxcycles
    requires Cycles(t, bs, order, maxcycles, i, params, pow10).last == i
    ensures var r := Cycles(t, bs, order, maxcycles, i, params, pow10);
      r.failed <==> !Estimable(t, params) || Check(t, Pass(t, bs, params, pow10), order, params) == Undefined
    ensures var r := Cycles(t, bs, order, maxcycles, i, params, pow10);
      !r.failed ==>
        r.state == Pass(t, bs, params, pow10)
        && (i < maxcycles - 1 ==> Check(t, Pass(t, bs, params, pow10), order, params) == Settled)
  {
    CyclesUnfold(t, bs, order, maxcycles, i, params, pow10);
  }

  /** One cycle from state t, as the loop body makes it and reports it:
      a failure ends the cycles with the state reached, so does a settled
      or final cycle, and any other cycle hands on to the next. */
  lemma CycleStep(t: EngineState, bs: seq<Bout>, order: seq<string>, maxcycles: nat, i: nat, u: EngineState,
                  failed: bool, settled: bool, params: Parameters, pow10: real -> real)
    requires IsPow10(pow10) && KnowsAll(t, bs) && Lists(order, t.fencers.Keys) && i < maxcycles
    requires u == if Estimable(t, params) then Pass(t, bs, params, pow10) else t
    requires failed <==> !Estimable(t, params) || Check(t, u, order, params) == Undefined
    requires !failed ==> (settled <==> Check(t, u, order, params) == Settled)
    ensures failed ==> Cycles(t, bs, order, maxcycles, i, params, pow10) == CycleEnd(u, i, true)
    ensures !failed && (settled || i == maxcycles - 1) ==>
      Cycles(t, bs, order, maxcycles, i, params, pow10) == CycleEnd(u, i, false)
    ensures !failed && !settled && i < maxcycles - 1 ==>
      KnowsAll(u, bs) && Lists(order, u.fencers.Keys)
      && Cycles(t, bs, order, maxcycles, i, params, pow10) == Cycles(u, bs, order, maxcycles, i + 1, params, pow10)
  {
    CyclesUnfold(t, bs, order, maxcycles, i, params, pow10);
  }

  /** Every cycle before the one the loop stops at computed all estimates
      before its pass and did not converge. */
  lemma {:induction false} CyclesPrefix(t: EngineState, s: EngineState, bs: seq<Bout>, order: seq<string>,
                                        maxcycles: nat, i: nat, j: nat, params: Parameters, pow10: real -> real)
    requires IsPow10(pow10) && KnowsAll(s, bs) && Lists(order, s.fencers.Keys) && i < maxcycles
    requires t == Iterate(s, bs, i, params, pow10)
    requires i <= j < Cycles(t, bs, order, maxcycles, i, params, pow10).last
    ensures EstimableAt(s, bs, j, params, pow10) && !ConvergedAt(s, bs, j, params, pow10)
    decreases maxcycles - i
  {
    CyclesContinue(t, bs, order, maxcycles, i, params, pow10);
    CheckConverged(t, Pass(t, bs, params, pow10), order, params);
    IterateStep(s, bs, i, params, pow10);
    if i < j {
      CyclesPrefix(Pass(t, bs, params, pow10), s, bs, order, maxcycles, i + 1, j, params, pow10);
    }
  }

  /** When the loop stops without a division by zero, the state is that
      after last + 1 passes and the estimates before the last cycle can be
      computed; unless the last cycle is the final one allowed, the
      estimates after it can be computed too and it converged. */
  lemma {:induction false} CyclesSuccess(t: EngineState, s: EngineState, bs: seq<Bout>, order: seq<string>,
                                         maxcycles: nat, i: nat, params: Parameters, pow10: real -> real)
    requires IsPow10(pow10) && KnowsAll(s, bs) && Lists(order, s.fencers.Keys) && i < maxcycles
    requires t == Iterate(s, bs, i, params, pow10)
    requires !Cycles(t, bs, order, maxcycles, i, params, pow10).failed
    ensures Cycles(t, bs, order, maxcycles, i, params, pow10).state
      == Iterate(s, bs, Cycles(t, bs, order, maxcycles, i, params, pow10).last + 1, params, pow10)
    ensures EstimableAt(s, bs, Cycles(t, bs, order, maxcycles, i, params, pow10).last, params, pow10)
    ensures Cycles(t, bs, order, maxcycles, i, params, pow10).last < maxcycles - 1 ==>
      && EstimableAt(s, bs, Cycles(t, bs, order, maxcycles, i, params, pow10).last + 1, params, pow10)
      && ConvergedAt(s, bs, Cycles(t, bs, order, maxcycles, i, params, pow10).last, params, pow10)
    decreases maxcycles - i
  {
    var r := Cycles(t, bs, order, maxcycles, i, params, pow10);
    var u := Pass(t, bs, params, pow10);
    IterateStep(s, bs, i, params, pow10);
    assert u == Iterate(s, bs, i + 1, params, pow10);
    if r.last > i {
      CyclesContinue(t, bs, order, maxcycles, i, params, pow10);
      CyclesSuccess(u, s, bs, order, maxcycles, i + 1, params, pow10);
    } else {
      CyclesStop(t, bs, order, maxcycles, i, params, pow10);
      assert Check(t, u, order, params) == Settled ==> Estimable(u, params) && Converged(t, u, params) by {
        CheckConverged(t, u, order, params);
      }
    }
  }

  /** When the loop stops on a division by zero, an estimate before or
      after its last cycle could not be computed. */
  lemma {:induction false} CyclesFailure(t: EngineState, s: EngineState, bs: seq<Bout>, order: seq<string>,
                                         maxcycles: nat, i: nat, params: Parameters, pow10: real -> real)
    requires IsPow10(pow10) && KnowsAll(s, bs) && Lists(order, s.fencers.Keys) && i < maxcycles
    requires t == Iterate(s, bs, i, params, pow10)
    requires Cycles(t, bs, order, maxcycles, i, params, pow10).failed
    ensures var r := Cycles(t, bs, order, maxcycles, i, params, pow10);
      !(EstimableAt(s, bs, r.last, params, pow10) && EstimableAt(s, bs, r.last + 1, params, pow10))
    decreases maxcycles - i
  {
    IterateStep(s, bs, i, params, pow10);
    var u := Pass(t, bs, params, pow10);
    if Cycles(t, bs, order, maxcycles, i, params, pow10).last > i {
      CyclesContinue(t, bs, order, maxcycles, i, params, pow10);
      CyclesFailure(u, s, bs, order, maxcycles, i + 1, params, pow10);
    } else {
      CyclesStop(t, bs, order, maxcycles, i, params, pow10);
      assert !(Estimable(t, params) && Estimable(u, params)) by {
        CheckConverged(t, u, order, params);
      }
    }
  }

  /** If cycle i is the first that converges, it is not the last one
      allowed, and every estimate up to then can be computed, the
      bootstrapping succeeds after exactly i + 1 passes, in whatever order
      the dictionary yields the fencers. */
  lemma {:induction false} BootstrapStopsAtFirstConvergence(s: EngineState, bs: seq<Bout>, order: seq<string>,
      maxcycles: int, withCallback: bool, i: nat, params: Parameters, pow10: real -> real)
    requires IsPow10(pow10) && KnowsAll(s, bs) && Lists(order, s.fencers.Keys) && i < maxcycles - 1
    requires forall j :: 0 <= j <= i + 1 ==> EstimableAt(s, bs, j, params, pow10)
    requires forall j :: 0 <= j < i ==> !ConvergedAt(s, bs, j, params, pow10)
    requires ConvergedAt(s, bs, i, params, pow10)
    ensures Bootstrap(s, bs, order, maxcycles, withCallback, params, pow10) == Ok(Iterate(s, bs, i + 1, params, pow10))
  {
    var c := Cycles(s, bs, order, maxcycles, 0, params, pow10);
    if i < c.last {
      CyclesPrefix(s, s, bs, order, maxcycles, 0, i, params, pow10);
      assert false;
    }
    if c.failed {
      CyclesFailure(s, s, bs, order, maxcycles, 0, params, pow10);
      assert false;
    }
    CyclesSuccess(s, s, bs, order, maxcycles, 0, params, pow10);
    if c.last < i {
      assert false;
    }
    BootstrapEndsWithCycles(s, bs, order, maxcycles, withCallback, params, pow10);
  }

  /** With at least two cycles the bootstrapping returns what its cycles
      end with: a division by zero, the error when the index reached the
      final cycle, and the state otherwise. */
  lemma BootstrapEndsWithCycles(s: EngineState, bs: seq<Bout>, order: seq<string>, maxcycles: int, withCallback: bool,
                                params: Parameters, pow10: real -> real)
    requires IsPow10(pow10) && KnowsAll(s, bs) && Lists(order, s.fencers.Keys) && 2 <= maxcycles
    ensures var c := Cycles(s, bs, order, maxcycles, 0, params, pow10);
      Bootstrap(s, bs, order, maxcycles, withCallback, params, pow10)
        == if c.failed then Err(ZeroDivision) else if c.last == maxcycles - 1 then Err(BootstrappingError) else Ok(c.state)
  {
  }

  /** If every estimate can be computed and no cycle before the last one
      converges, the bootstrapping fails, even when the last cycle does
      converge. */
  lemma {:induction false} BootstrapFailsWithoutEarlyConvergence(s: EngineState, bs: seq<Bout>, order: seq<string>,
      maxcycles: int, withCallback: bool, params: Parameters, pow10: real -> real)
    requires IsPow10(pow10) && KnowsAll(s, bs) && Lists(order, s.fencers.Keys) && 2 <= maxcycles
    requires forall j :: 0 <= j <= maxcycles ==> EstimableAt(s, bs, j, params, pow10)
    requires forall j :: 0 <= j < maxcycles - 1 ==> !ConvergedAt(s, bs, j, params, pow10)
    ensures Bootstrap(s, bs, order, maxcycles, withCallback, params, pow10) == Err(BootstrappingError)
  {
    var c := Cycles(s, bs, order, maxcycles, 0, params, pow10);
    if c.failed {
      CyclesFailure(s, s, bs, order, maxcycles, 0, params, pow10);
      assert false;
    }
    CyclesSuccess(s, s, bs, order, maxcycles, 0, params, pow10);
  }

  /** The state is estimable exactly when every fencer's
      `felo_rating_exact` can be computed. */
  lemma EstimableMeans(s: EngineState, params: Parameters)
    ensures Estimable(s, params) <==> forall k :: k in s.fencers ==> RatingExact(s.fencers[k], params).Ok?
  {
    EstimableAfterBase(s, params, |s.fencers| + 2);
  }

  lemma {:induction false} EstimableAfterBase(s: EngineState, params: Parameters, steps: nat)
    requires |s.fencers| <= steps
    ensures EstimableAfter(s, params, steps) == EstimableAfter(s, params, |s.fencers|)
    decreases steps - |s.fencers|
  {
    if steps > |s.fencers| {
      EstimableAfterBase(s, params, steps - 1);
    }
  }

  /** Two states are converged exactly when every fencer's estimate can be
      computed in both and moved by less than the threshold. */
  lemma ConvergedMeans(before: EngineState, after: EngineState, params: Parameters)
    requires before.fencers.Keys == after.fencers.Keys
    ensures Converged(before, after, params) <==>
      forall k :: k in before.fencers ==>
        RatingExact(before.fencers[k], params).Ok? && RatingExact(after.fencers[k], params).Ok?
        && -params.thresholdBootstrapping
           < RatingExact(before.fencers[k], params).value - RatingExact(after.fencers[k], params).value
           < params.thresholdBootstrapping
  {
    ConvergedAfterBase(before, after, params, |before.fencers| + 2);
  }

  lemma {:induction false} ConvergedAfterBase(before: EngineState, after: EngineState, params: Parameters, steps: nat)
    requires before.fencers.Keys == after.fencers.Keys && |before.fencers| <= steps
    ensures ConvergedAfter(before, after, params, steps) == ConvergedAfter(before, after, params, |before.fencers|)
    decreases steps - |before.fencers|
  {
    if steps > |before.fencers| {
      ConvergedAfterBase(before, after, params, steps - 1);
    }
  }

  /** The fencer at index j of `order` is the first whose estimate did not
      stay put. */
  predicate FirstMover(before: EngineState, after: EngineState, order: seq<string>, j: nat, params: Parameters)
    requires before.fencers.Keys == after.fencers.Keys
    requires forall i :: 0 <= i < |order| ==> order[i] in before.fencers
    requires j < |order|
  {
    !Stayed(before, after, order[j], params) && forall i :: 0 <= i < j ==> Stayed(before, after, order[i], params)
  }

  /** The for/else test settles exactly when every fencer in `order`
      stayed put; otherwise the first fencer that did not decides it, and
      the test is Undefined exactly when one of that fencer's estimates
      divides by zero. */
  lemma {:induction false} CheckMeans(before: EngineState, after: EngineState, order: seq<string>, params: Parameters)
    requires before.fencers.Keys == after.fencers.Keys
    requires forall i :: 0 <= i < |order| ==> order[i] in before.fencers
    ensures Check(before, after, order, params) == Settled <==>
      forall i :: 0 <= i < |order| ==> Stayed(before, after, order[i], params)
    ensures Check(before, after, order, params) != Settled ==>
      exists j: nat :: j < |order| && FirstMover(before, after, order, j, params)
        && (Check(before, after, order, params) == Undefined <==>
              RatingExact(before.fencers[order[j]], params).Err? || RatingExact(after.fencers[order[j]], params).Err?)
    decreases |order|
  {
    if order != [] {
      var rest := order[1..];
      CheckMeans(before, after, rest, params);
      if Stayed(before, after, order[0], params) {
        assert forall i :: 0 < i < |order| ==> order[i] == rest[i - 1];
        if Check(before, after, order, params) != Settled {
          var j: nat :| j < |rest| && FirstMover(before, after, rest, j, params)
            && (Check(before, after, rest, params) == Undefined <==>
                  RatingExact(before.fencers[rest[j]], params).Err? || RatingExact(after.fencers[rest[j]], params).Err?);
          assert FirstMover(before, after, order, j + 1, params);
        }
      } else {
        assert FirstMover(before, after, order, 0, params);
      }
    }
  }

  /** Walking every fencer, the test settles exactly when the cycle
      converged, a settled test saw every estimate after the pass, and the
      test meets no division by zero when every estimate before and after
      the pass can be computed. */
  lemma CheckConverged(before: EngineState, after: EngineState, order: seq<string>, params: Parameters)
    requires before.fencers.Keys == after.fencers.Keys && Lists(order, before.fencers.Keys)
    ensures Check(before, after, order, params) == Settled <==> Converged(before, after, params)
    ensures Check(before, after, order, params) == Settled ==> Estimable(after, params)
    ensures Estimable(before, params) && Estimable(after, params) ==> Check(before, after, order, params) != Undefined
  {
    CheckMeans(before, after, order, params);
    ConvergedMeans(before, after, params);
    EstimableMeans(before, params);
    EstimableMeans(after, params);
    if Check(before, after, order, params) == Settled {
      forall k | k in before.fencers
        ensures Stayed(before, after, k, params)
      {
        var j :| 0 <= j < |order| && order[j] == k;
      }
    }
  }

  /** Freshmen whose result stays within half their weighting have a
      weighting of at least 0, so no estimate divides by zero. */
  lemma BoundedIsEstimable(s: EngineState, params: Parameters)
    requires FreshmenBounded(s)
    ensures Estimable(s, params)
  {
    EstimableMeans(s, params);
  }

  /** With a non-negative team-bout weighting, the freshman bound holds
      after any number of passes. */
  lemma {:induction false} IterateFreshmenBounded(s: EngineState, bs: seq<Bout>, n: nat, params: Parameters, pow10: real -> real)
    requires IsPow10(pow10) && KnowsAll(s, bs) && params.weightingTeamBout >= 0.0
    requires FreshmenBounded(s) && StagedAreRated(s)
    ensures FreshmenBounded(Iterate(s, bs, n, params, pow10)) && StagedAreRated(Iterate(s, bs, n, params, pow10))
  {
    if n > 0 {
      var t := Iterate(s, bs, n - 1, params, pow10);
      IterateFreshmenBounded(s, bs, n - 1, params, pow10);
      PassIsPassFrom(t, bs, params, pow10);
      PassFromFreshmenBounded(t, bs, 0, params, pow10);
    }
  }

  /** With a non-negative team-bout weighting and freshmen that start
      within the bound, bootstrapping with at least two cycles never
      divides by zero: it either converges or fails with
      `BootstrappingError`. */
  lemma BootstrapNeverDividesByZero(s: EngineState, bs: seq<Bout>, order: seq<string>, maxcycles: int,
                                    withCallback: bool, params: Parameters, pow10: real -> real)
    requires IsPow10(pow10) && KnowsAll(s, bs) && Lists(order, s.fencers.Keys) && params.weightingTeamBout >= 0.0
    requires FreshmenBounded(s) && StagedAreRated(s) && 2 <= maxcycles
    ensures Bootstrap(s, bs, order, maxcycles, withCallback, params, pow10).Ok?
         || Bootstrap(s, bs, order, maxcycles, withCallback, params, pow10) == Err(BootstrappingError)
  {
    var c := Cycles(s, bs, order, maxcycles, 0, params, pow10);
    if c.failed {
      CyclesFailure(s, s, bs, order, maxcycles, 0, params, pow10);
    }
    IterateFreshmenBounded(s, bs, c.last, params, pow10);
    IterateFreshmenBounded(s, bs, c.last + 1, params, pow10);
    BoundedIsEstimable(Iterate(s, bs, c.last, params, pow10), params);
    BoundedIsEstimable(Iterate(s, bs, c.last + 1, params, pow10), params);
  }

  /** The callback values grow one cycle at a time: cycle 0 hands over 0,
      and a later cycle i adds i / (maxcycles - 1) exactly when i is a
      multiple of 10. */
  lemma ProgressStep(maxcycles: nat, i: nat)
    requires 2 <= maxcycles && i < maxcycles
    ensures i == 0 ==> Progress(maxcycles, i) == [0.0]
    ensures i > 0 && i % 10 == 0 ==>
      Progress(maxcycles, i) == Progress(maxcycles, i - 1) + [i as real / (maxcycles - 1) as real]
    ensures i > 0 && i % 10 != 0 ==> Progress(maxcycles, i) == Progress(maxcycles, i - 1)
  {
  }
}
