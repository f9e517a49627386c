/** Why the order of the bouts within a batch does not matter: staging a
    bout reads only committed values (felo_rating.py:471-474), which no
    staging writes, so every bout adds to each fencer's record an amount
    fixed before the batch starts, and sums do not depend on the order of
    their terms. A commit comes only where the `date_string` changes
    (felo_rating.py:1103-1108), so any reordering of bouts that share one
    `date_string` leaves the pass, and every fencer's state after it,
    unchanged. Ratings are reals here; floating-point rounding, which does
    depend on the order of additions, is not modelled. */
module Batches {
  import opened Outcomes
  import opened Bouts
  import opened Fencers
  import opened Rating
  import opened RatingProperties

  /** What staging adds to one fencer's record: the preliminary rating and
      preliminary weighting of a rated fencer, the weighting, result and
      opponents' total of a freshman. */
  datatype Delta = Delta(ratingPreliminary: real, totalWeightingPreliminary: real,
                         totalWeighting: real, totalResult: real, totalOpponentRating: real)

  const Zero: Delta := Delta(0.0, 0.0, 0.0, 0.0, 0.0)

  function Plus(d: Delta, e: Delta): Delta {
    Delta(d.ratingPreliminary + e.ratingPreliminary,
          d.totalWeightingPreliminary + e.totalWeightingPreliminary,
          d.totalWeighting + e.totalWeighting,
          d.totalResult + e.totalResult,
          d.totalOpponentRating + e.totalOpponentRating)
  }

  function Shifted(f: FencerState, d: Delta): FencerState {
    f.(ratingPreliminary := f.ratingPreliminary + d.ratingPreliminary,
       totalWeightingPreliminary := f.totalWeightingPreliminary + d.totalWeightingPreliminary,
       totalWeighting := f.totalWeighting + d.totalWeighting,
       totalResult := f.totalResult + d.totalResult,
       totalOpponentRating := f.totalOpponentRating + d.totalOpponentRating)
  }

  lemma ShiftedPlus(f: FencerState, d: Delta, e: Delta)
    ensures Shifted(Shifted(f, d), e) == Shifted(f, Plus(d, e))
  {
  }

  /** Two states agree on everything staging reads. */
  predicate Agree(s: EngineState, t: EngineState) {
    s.fencers.Keys == t.fencers.Keys
    && forall k :: k in s.fencers ==> SameCommitted(s.fencers[k], t.fencers[k])
  }

  /** What bout `b` adds to fencer `k`, computed from the committed values
      of `s` alone. */
  function BoutDelta(s: EngineState, b: Bout, params: Parameters, pow10: real -> real, k: string): Delta
    requires IsPow10(pow10)
  {
    if !Knows(s, b) then Zero
    else
      var f1 := s.fencers[b.first];
      var f2 := s.fencers[b.second];
      var w := Weighting(b, params);
      var result := ResultFirst(b);
      if f1.freshman && f2.freshman then Zero
      else if f1.freshman then
        if k == b.first then Delta(0.0, 0.0, w, (result - 0.5) * w, f2.rating * w) else Zero
      else if f2.freshman then
        if k == b.second then Delta(0.0, 0.0, w, (0.5 - result) * w, f1.rating * w) else Zero
      else
        var improvement := Improvement(s, b, params, pow10);
        Delta((if k == b.first then KFactor(f1, params) * improvement else 0.0)
                - (if k == b.second then KFactor(f2, params) * improvement else 0.0),
              (if k == b.first then w else 0.0) + (if k == b.second then w else 0.0),
              0.0, 0.0, 0.0)
  }

  /** The names bout `b` puts into the staging set. */
  function StagedBy(s: EngineState, b: Bout): set<string> {
    if !Knows(s, b) || s.fencers[b.first].freshman || s.fencers[b.second].freshman then {}
    else {b.first, b.second}
  }

  /** The improvement reads only the two committed ratings. */
  lemma ImprovementReadsRatings(s: EngineState, t: EngineState, b: Bout, params: Parameters, pow10: real -> real)
    requires IsPow10(pow10) && Knows(s, b) && Knows(t, b)
    requires s.fencers[b.first].rating == t.fencers[b.first].rating
    requires s.fencers[b.second].rating == t.fencers[b.second].rating
    ensures Improvement(s, b, params, pow10) == Improvement(t, b, params, pow10)
  {
    ImprovementAfterBase(s, b, params, pow10, MaxPoints(b) + 2);
    ImprovementAfterBase(t, b, params, pow10, MaxPoints(b) + 2);
  }

  /** States that agree on the committed values give every bout the same
      increments and the same staged names. */
  lemma AgreeBoutDelta(s: EngineState, t: EngineState, b: Bout, params: Parameters, pow10: real -> real, k: string)
    requires IsPow10(pow10) && Agree(s, t)
    ensures BoutDelta(s, b, params, pow10, k) == BoutDelta(t, b, params, pow10, k)
    ensures StagedBy(s, b) == StagedBy(t, b)
  {
    if Knows(s, b) {
      assert Knows(t, b);
      ImprovementReadsRatings(s, t, b, params, pow10);
    } else {
      assert !Knows(t, b);
    }
  }

  /** Staging a bout shifts every fencer by its increment, and stages the
      names StagedBy gives. */
  lemma StageBoutDelta(s: EngineState, b: Bout, params: Parameters, pow10: real -> real, k: string)
    requires IsPow10(pow10) && Knows(s, b) && k in s.fencers
    ensures StageBout(s, b, params, pow10).fencers[k] == Shifted(s.fencers[k], BoutDelta(s, b, params, pow10, k))
    ensures StageBout(s, b, params, pow10).staged == s.staged + StagedBy(s, b)
  {
    var f1 := s.fencers[b.first];
    var f2 := s.fencers[b.second];
    if f1.freshman && f2.freshman {
      StageFreshmenPair(s, b, params, pow10);
    } else if f1.freshman || f2.freshman {
      StageOneFreshmanDelta(s, b, params, pow10, k);
    } else {
      var improvement := Improvement(s, b, params, pow10);
      var w := Weighting(b, params);
      assert BoutDelta(s, b, params, pow10, k)
          == Delta((if k == b.first then KFactor(f1, params) * improvement else 0.0)
                     - (if k == b.second then KFactor(f2, params) * improvement else 0.0),
                   (if k == b.first then w else 0.0) + (if k == b.second then w else 0.0),
                   0.0, 0.0, 0.0);
      StageBoutRated(s, b, params, pow10);
      StageRatedDelta(s, b, improvement, w, params, k);
    }
  }

  /** A freshman against a rated fencer: only the freshman's accumulators
      grow. */
  lemma StageOneFreshmanDelta(s: EngineState, b: Bout, params: Parameters, pow10: real -> real, k: string)
    requires IsPow10(pow10) && Knows(s, b) && k in s.fencers
    requires s.fencers[b.first].freshman != s.fencers[b.second].freshman
    ensures StageBout(s, b, params, pow10).fencers[k] == Shifted(s.fencers[k], BoutDelta(s, b, params, pow10, k))
  {
    if s.fencers[b.first].freshman {
      StageFirstFreshmanDelta(s, b, params, pow10, k);
    } else {
      StageSecondFreshmanDelta(s, b, params, pow10, k);
    }
  }

  lemma StageFirstFreshmanDelta(s: EngineState, b: Bout, params: Parameters, pow10: real -> real, k: string)
    requires IsPow10(pow10) && Knows(s, b) && k in s.fencers
    requires s.fencers[b.first].freshman && !s.fencers[b.second].freshman
    ensures StageBout(s, b, params, pow10).fencers[k] == Shifted(s.fencers[k], BoutDelta(s, b, params, pow10, k))
  {
    var f := s.fencers[b.first];
    var w := Weighting(b, params);
    var result := ResultFirst(b);
    var opponent := s.fencers[b.second].rating;
    assert BoutDelta(s, b, params, pow10, k)
        == if k == b.first then Delta(0.0, 0.0, w, (result - 0.5) * w, opponent * w) else Zero;
    StageFirstFreshman(s, b, params, pow10);
    FreshmanBoutSums(f, true, w, result, opponent);
  }

  lemma StageSecondFreshmanDelta(s: EngineState, b: Bout, params: Parameters, pow10: real -> real, k: string)
    requires IsPow10(pow10) && Knows(s, b) && k in s.fencers
    requires !s.fencers[b.first].freshman && s.fencers[b.second].freshman
    ensures StageBout(s, b, params, pow10).fencers[k] == Shifted(s.fencers[k], BoutDelta(s, b, params, pow10, k))
  {
    var f := s.fencers[b.second];
    var w := Weighting(b, params);
    var result := ResultFirst(b);
    var opponent := s.fencers[b.first].rating;
    assert BoutDelta(s, b, params, pow10, k)
        == if k == b.second then Delta(0.0, 0.0, w, (0.5 - result) * w, opponent * w) else Zero;
    StageSecondFreshman(s, b, params, pow10);
    FreshmanBoutSums(f, false, w, result, opponent);
  }

  /** The rated branch, fencer by fencer, a bout of a fencer against itself
      included. */
  lemma StageRatedDelta(s: EngineState, b: Bout, improvement: real, w: real, params: Parameters, k: string)
    requires Knows(s, b) && k in s.fencers
    ensures var f1 := s.fencers[b.first];
      var f2 := s.fencers[b.second];
      StageRated(s, b, improvement, w, params).fencers[k]
      == Shifted(s.fencers[k],
                 Delta((if k == b.first then KFactor(f1, params) * improvement else 0.0)
                         - (if k == b.second then KFactor(f2, params) * improvement else 0.0),
                       (if k == b.first then w else 0.0) + (if k == b.second then w else 0.0),
                       0.0, 0.0, 0.0))
  {
    if b.first != b.second {
      StageRatedDistinct(s, b, improvement, w, params);
    } else {
      StageRatedSelf(s, b, improvement, w, params);
    }
  }

  /** A bout of a fencer against itself moves the preliminary rating up
      and down by the same amount and adds the weighting twice. */
  lemma StageRatedSelf(s: EngineState, b: Bout, improvement: real, w: real, params: Parameters)
    requires Knows(s, b) && b.first == b.second
    ensures var f := s.fencers[b.first];
      StageRated(s, b, improvement, w, params).fencers[b.first]
      == f.(totalWeightingPreliminary := f.totalWeightingPreliminary + w + w)
  {
    var f := s.fencers[b.first];
    var g := f.(ratingPreliminary := f.ratingPreliminary + RatingChange(f, improvement, params));
    assert KFactor(g, params) == KFactor(f, params);
  }

  /** Staging keeps everything staging reads. */
  lemma StageBoutAgrees(s: EngineState, b: Bout, params: Parameters, pow10: real -> real)
    requires IsPow10(pow10) && Knows(s, b)
    ensures Agree(s, StageBout(s, b, params, pow10))
  {
    forall k | k in s.fencers
      ensures SameCommitted(s.fencers[k], StageBout(s, b, params, pow10).fencers[k])
    {
      StageKeepsCommitted(s, b, params, pow10, k);
    }
  }

  lemma AgreeTransitive(s: EngineState, t: EngineState, u: EngineState)
    requires Agree(s, t) && Agree(t, u)
    ensures Agree(s, u)
  {
  }

  // ---------------------------------------------------------------------
  // A batch staged bout by bout

  /** The bouts of a batch staged one after the other, without a commit. */
  function StageAll(s: EngineState, bs: seq<Bout>, params: Parameters, pow10: real -> real): (r: EngineState)
    requires IsPow10(pow10) && KnowsAll(s, bs)
    ensures r.fencers.Keys == s.fencers.Keys
    decreases |bs|
  {
    if bs == [] then s
    else
      var t := StageBout(s, bs[0], params, pow10);
      assert KnowsAll(t, bs[1..]);
      StageAll(t, bs[1..], params, pow10)
  }

  /** What a batch adds to fencer `k`: the sum of the increments of its bouts. */
  function SumDelta(s: EngineState, bs: seq<Bout>, params: Parameters, pow10: real -> real, k: string): Delta
    requires IsPow10(pow10)
  {
    if bs == [] then Zero
    else Plus(BoutDelta(s, bs[0], params, pow10, k), SumDelta(s, bs[1..], params, pow10, k))
  }

  /** The names a batch stages. */
  function StagedByAll(s: EngineState, bs: seq<Bout>): set<string> {
    if bs == [] then {} else StagedBy(s, bs[0]) + StagedByAll(s, bs[1..])
  }

  lemma {:induction false} AgreeSums(s: EngineState, t: EngineState, bs: seq<Bout>, params: Parameters,
                                     pow10: real -> real, k: string)
    requires IsPow10(pow10) && Agree(s, t)
    ensures SumDelta(s, bs, params, pow10, k) == SumDelta(t, bs, params, pow10, k)
    ensures StagedByAll(s, bs) == StagedByAll(t, bs)
    decreases |bs|
  {
    if bs != [] {
      AgreeBoutDelta(s, t, bs[0], params, pow10, k);
      AgreeSums(s, t, bs[1..], params, pow10, k);
    }
  }

  /** A staged batch is the state before it with every fencer shifted by
      the sum of the batch's increments, all computed from the state
      before the batch, and with the batch's names staged. */
  lemma {:induction false} StageAllDelta(s: EngineState, bs: seq<Bout>, params: Parameters, pow10: real -> real)
    requires IsPow10(pow10) && KnowsAll(s, bs)
    ensures Agree(s, StageAll(s, bs, params, pow10))
    ensures forall k :: k in s.fencers ==>
      StageAll(s, bs, params, pow10).fencers[k] == Shifted(s.fencers[k], SumDelta(s, bs, params, pow10, k))
    ensures StageAll(s, bs, params, pow10).staged == s.staged + StagedByAll(s, bs)
    decreases |bs|
  {
    if bs != [] {
      var t := StageBout(s, bs[0], params, pow10);
      assert KnowsAll(t, bs[1..]);
      var rest := bs[1..];
      var r := StageAll(t, rest, params, pow10);
      StageBoutAgrees(s, bs[0], params, pow10);
      StageAllDelta(t, rest, params, pow10);
      AgreeTransitive(s, t, r);
      forall k | k in s.fencers
        ensures r.fencers[k] == Shifted(s.fencers[k], SumDelta(s, bs, params, pow10, k))
      {
        StageBoutDelta(s, bs[0], params, pow10, k);
        AgreeSums(s, t, rest, params, pow10, k);
        ShiftedPlus(s.fencers[k], BoutDelta(s, bs[0], params, pow10, k), SumDelta(s, rest, params, pow10, k));
      }
      StageBoutDelta(s, bs[0], params, pow10, bs[0].first);
      AgreeSums(s, t, rest, params, pow10, bs[0].first);
    }
  }

  // ---------------------------------------------------------------------
  // The order of a batch does not matter

  /** Taking the bout at position j out of a batch takes exactly its
      increment out of the sum. */
  lemma {:induction false} SumDeltaRemove(s: EngineState, bs: seq<Bout>, j: nat, params: Parameters,
                                          pow10: real -> real, k: string)
    requires IsPow10(pow10) && j < |bs|
    ensures SumDelta(s, bs, params, pow10, k)
         == Plus(BoutDelta(s, bs[j], params, pow10, k), SumDelta(s, bs[..j] + bs[j + 1..], params, pow10, k))
    decreases j
  {
    if j == 0 {
      assert bs[..0] + bs[1..] == bs[1..];
    } else {
      SumDeltaRemove(s, bs[1..], j - 1, params, pow10, k);
      var rest := bs[..j] + bs[j + 1..];
      assert rest[0] == bs[0];
      assert rest[1..] == bs[1..][..j - 1] + bs[1..][j..];
    }
  }

  /** The increments of a batch sum to the same in any order. */
  lemma {:induction false} SumDeltaPermutation(s: EngineState, bs: seq<Bout>, bs': seq<Bout>, params: Parameters,
                                               pow10: real -> real, k: string)
    requires IsPow10(pow10) && multiset(bs) == multiset(bs')
    ensures SumDelta(s, bs, params, pow10, k) == SumDelta(s, bs', params, pow10, k)
    decreases |bs|
  {
    if bs == [] {
      assert |bs'| == |multiset(bs')| == 0;
    } else {
      var x := bs[0];
      assert bs == [x] + bs[1..];
      assert x in multiset(bs');
      var j :| 0 <= j < |bs'| && bs'[j] == x;
      var rest := bs'[..j] + bs'[j + 1..];
      assert bs' == bs'[..j] + [x] + bs'[j + 1..];
      assert multiset(bs) == multiset{x} + multiset(bs[1..]);
      assert multiset(bs') == multiset(bs'[..j]) + multiset{x} + multiset(bs'[j + 1..]);
      assert multiset(rest) == multiset(bs'[..j]) + multiset(bs'[j + 1..]);
      forall y
        ensures multiset(bs[1..])[y] == multiset(rest)[y]
      {
        assert multiset(bs)[y] == multiset(bs')[y];
      }
      assert multiset(bs[1..]) == multiset(rest);
      SumDeltaPermutation(s, bs[1..], rest, params, pow10, k);
      SumDeltaRemove(s, bs', j, params, pow10, k);
    }
  }

  lemma {:induction false} StagedByAllMeans(s: EngineState, bs: seq<Bout>, n: string)
    ensures n in StagedByAll(s, bs) <==> exists b :: b in bs && n in StagedBy(s, b)
    decreases |bs|
  {
    if bs != [] {
      StagedByAllMeans(s, bs[1..], n);
      assert forall b :: b in bs <==> b == bs[0] || b in bs[1..];
    }
  }

  /** A batch stages the same names in any order. */
  lemma StagedByAllPermutation(s: EngineState, bs: seq<Bout>, bs': seq<Bout>)
    requires multiset(bs) == multiset(bs')
    ensures StagedByAll(s, bs) == StagedByAll(s, bs')
  {
    forall n
      ensures n in StagedByAll(s, bs) <==> n in StagedByAll(s, bs')
    {
      StagedByAllMeans(s, bs, n);
      StagedByAllMeans(s, bs', n);
      assert forall b :: b in bs <==> b in multiset(bs');
    }
  }

  /** A batch leaves the same state whatever the order of its bouts. */
  lemma StageAllPermutation(s: EngineState, bs: seq<Bout>, bs': seq<Bout>, params: Parameters, pow10: real -> real)
    requires IsPow10(pow10) && KnowsAll(s, bs) && multiset(bs) == multiset(bs')
    ensures KnowsAll(s, bs')
    ensures StageAll(s, bs, params, pow10) == StageAll(s, bs', params, pow10)
  {
    forall i | 0 <= i < |bs'|
      ensures Knows(s, bs'[i])
    {
      assert bs'[i] in multiset(bs);
    }
    var r := StageAll(s, bs, params, pow10);
    var r' := StageAll(s, bs', params, pow10);
    StageAllDelta(s, bs, params, pow10);
    StageAllDelta(s, bs', params, pow10);
    forall k | k in s.fencers
      ensures r.fencers[k] == r'.fencers[k]
    {
      SumDeltaPermutation(s, bs, bs', params, pow10, k);
    }
    StagedByAllPermutation(s, bs, bs');
  }

  // ---------------------------------------------------------------------
  // The pass

  /** Within a batch the pass only stages; where the batch ends it commits. */
  lemma {:induction false} PassFromBatch(s: EngineState, bs: seq<Bout>, i: nat, j: nat, params: Parameters,
                                         pow10: real -> real)
    requires IsPow10(pow10) && KnowsAll(s, bs) && i < j <= |bs|
    requires forall m :: i <= m < j - 1 ==> !BatchEndsAt(bs, m)
    ensures KnowsAll(s, bs[i..j])
    ensures var t := StageAll(s, bs[i..j], params, pow10);
      var u := if BatchEndsAt(bs, j - 1) then Commit(t, params) else t;
      KnowsAll(u, bs) && PassFrom(s, bs, i, params, pow10) == PassFrom(u, bs, j, params, pow10)
    decreases j - i
  {
    assert KnowsAll(s, bs[i..j]);
    var t := StageBout(s, bs[i], params, pow10);
    assert KnowsAll(t, bs);
    StepIs(s, bs, i, params, pow10);
    assert bs[i..j][0] == bs[i] && bs[i..j][1..] == bs[i + 1..j];
    if i < j - 1 {
      PassFromBatch(t, bs, i + 1, j, params, pow10);
    }
  }

  /** One step of the pass. */
  lemma PassFromUnfold(s: EngineState, bs: seq<Bout>, m: nat, params: Parameters, pow10: real -> real)
    requires IsPow10(pow10) && KnowsAll(s, bs) && m < |bs|
    ensures KnowsAll(Step(s, bs, m, params, pow10), bs)
    ensures PassFrom(s, bs, m, params, pow10) == PassFrom(Step(s, bs, m, params, pow10), bs, m + 1, params, pow10)
  {
  }

  lemma PassFromEnd(s: EngineState, bs: seq<Bout>, params: Parameters, pow10: real -> real)
    requires IsPow10(pow10) && KnowsAll(s, bs)
    ensures PassFrom(s, bs, |bs|, params, pow10) == s
  {
  }

  /** Two bout lists with the same bout at m and the same batch end there
      take the same step at m. */
  lemma SameStep(s: EngineState, bs: seq<Bout>, bs': seq<Bout>, m: nat, params: Parameters, pow10: real -> real)
    requires IsPow10(pow10) && m < |bs| && m < |bs'| && Knows(s, bs[m]) && bs[m] == bs'[m]
    requires BatchEndsAt(bs, m) == BatchEndsAt(bs', m)
    ensures Step(s, bs, m, params, pow10) == Step(s, bs', m, params, pow10)
  {
    StepIs(s, bs, m, params, pow10);
    StepIs(s, bs', m, params, pow10);
  }

  /** A state with the same fencers knows the same bouts. */
  lemma KnowsAllSameKeys(s: EngineState, t: EngineState, bs: seq<Bout>)
    requires s.fencers.Keys == t.fencers.Keys && KnowsAll(s, bs)
    ensures KnowsAll(t, bs)
  {
  }

  /** One step of the induction of PassFromSuffix: equal passes after the
      step at m give equal passes from m. */
  lemma SuffixStep(s: EngineState, bs: seq<Bout>, bs': seq<Bout>, m: nat, params: Parameters, pow10: real -> real)
    requires IsPow10(pow10) && KnowsAll(s, bs) && KnowsAll(s, bs') && m < |bs| == |bs'|
    requires bs[m] == bs'[m] && BatchEndsAt(bs, m) == BatchEndsAt(bs', m)
    requires KnowsAll(Step(s, bs, m, params, pow10), bs')
    ensures PassFrom(Step(s, bs, m, params, pow10), bs, m + 1, params, pow10)
            == PassFrom(Step(s, bs, m, params, pow10), bs', m + 1, params, pow10)
            ==> PassFrom(s, bs, m, params, pow10) == PassFrom(s, bs', m, params, pow10)
  {
    SameStep(s, bs, bs', m, params, pow10);
    PassFromUnfold(s, bs, m, params, pow10);
    PassFromUnfold(s, bs', m, params, pow10);
  }

  /** Where two bout lists agree from position m on, the pass does the same
      from m on. */
  lemma {:induction false} PassFromSuffix(s: EngineState, bs: seq<Bout>, bs': seq<Bout>, m: nat, params: Parameters,
                                          pow10: real -> real)
    requires IsPow10(pow10) && KnowsAll(s, bs) && KnowsAll(s, bs') && |bs| == |bs'| && m <= |bs|
    requires bs[m..] == bs'[m..]
    ensures PassFrom(s, bs, m, params, pow10) == PassFrom(s, bs', m, params, pow10)
    decreases |bs| - m
  {
    if m < |bs| {
      var t := Step(s, bs, m, params, pow10);
      assert bs[m] == bs[m..][0] && bs'[m] == bs'[m..][0];
      assert bs[m + 1..] == bs[m..][1..] && bs'[m + 1..] == bs'[m..][1..];
      if m + 1 < |bs| {
        assert bs[m + 1] == bs[m..][1] && bs'[m + 1] == bs'[m..][1];
      }
      KnowsAllSameKeys(s, t, bs');
      PassFromSuffix(t, bs, bs', m + 1, params, pow10);
      SuffixStep(s, bs, bs', m, params, pow10);
    } else {
      PassFromEnd(s, bs, params, pow10);
      PassFromEnd(s, bs', params, pow10);
    }
  }

  /** Reordering the bouts of positions i to j - 1, which share one
      `date_string`, leaves the pass from position i unchanged. */
  lemma PassFromPermutedBatchAt(s: EngineState, bs: seq<Bout>, bs': seq<Bout>, i: nat, j: nat,
                                params: Parameters, pow10: real -> real)
    requires IsPow10(pow10) && KnowsAll(s, bs) && KnowsAll(s, bs')
    requires i < j <= |bs| == |bs'|
    requires bs[j..] == bs'[j..]
    requires multiset(bs[i..j]) == multiset(bs'[i..j])
    requires forall n :: i <= n < j ==> DateString(bs[n]) == DateString(bs[i])
    requires forall n :: i <= n < j ==> DateString(bs'[n]) == DateString(bs[i])
    ensures PassFrom(s, bs, i, params, pow10) == PassFrom(s, bs', i, params, pow10)
  {
    PassFromBatch(s, bs, i, j, params, pow10);
    PassFromBatch(s, bs', i, j, params, pow10);
    StageAllPermutation(s, bs[i..j], bs'[i..j], params, pow10);
    if j < |bs| {
      assert bs[j] == bs[j..][0] && bs'[j] == bs'[j..][0];
    }
    assert BatchEndsAt(bs, j - 1) == BatchEndsAt(bs', j - 1);
    var t := StageAll(s, bs[i..j], params, pow10);
    var u := if BatchEndsAt(bs, j - 1) then Commit(t, params) else t;
    PassFromSuffix(u, bs, bs', j, params, pow10);
  }

  /** The pass over the first i bouts: the state the loop of
      `calculate_felo_ratings_core` reaches before bout i. */
  function PassUpTo(s: EngineState, bs: seq<Bout>, i: nat, params: Parameters, pow10: real -> real): (r: EngineState)
    requires IsPow10(pow10) && KnowsAll(s, bs) && i <= |bs|
    ensures r.fencers.Keys == s.fencers.Keys && KnowsAll(r, bs)
  {
    if i == 0 then s else Step(PassUpTo(s, bs, i - 1, params, pow10), bs, i - 1, params, pow10)
  }

  /** One more bout of the pass over the first bouts. */
  lemma PassUpToUnfold(s: EngineState, bs: seq<Bout>, i: nat, params: Parameters, pow10: real -> real)
    requires IsPow10(pow10) && KnowsAll(s, bs) && 0 < i <= |bs|
    ensures PassUpTo(s, bs, i, params, pow10) == Step(PassUpTo(s, bs, i - 1, params, pow10), bs, i - 1, params, pow10)
  {
  }

  /** The pass is the pass over the first i bouts followed by the pass
      from bout i on. */
  lemma PassFromSplit(s: EngineState, bs: seq<Bout>, i: nat, params: Parameters, pow10: real -> real)
    requires IsPow10(pow10) && KnowsAll(s, bs) && i <= |bs|
    ensures PassFrom(s, bs, 0, params, pow10) == PassFrom(PassUpTo(s, bs, i, params, pow10), bs, i, params, pow10)
  {
    for k := 0 to i
      invariant PassFrom(s, bs, 0, params, pow10) == PassFrom(PassUpTo(s, bs, k, params, pow10), bs, k, params, pow10)
    {
      SplitStep(s, bs, k + 1, params, pow10);
    }
  }

  /** One step of the induction of PassFromSplit. */
  lemma SplitStep(s: EngineState, bs: seq<Bout>, i: nat, params: Parameters, pow10: real -> real)
    requires IsPow10(pow10) && KnowsAll(s, bs) && 0 < i <= |bs|
    requires PassFrom(s, bs, 0, params, pow10)
             == PassFrom(PassUpTo(s, bs, i - 1, params, pow10), bs, i - 1, params, pow10)
    ensures PassFrom(s, bs, 0, params, pow10) == PassFrom(PassUpTo(s, bs, i, params, pow10), bs, i, params, pow10)
  {
    PassUpToUnfold(s, bs, i, params, pow10);
    PassFromUnfold(PassUpTo(s, bs, i - 1, params, pow10), bs, i - 1, params, pow10);
  }

  /** Two bout lists with the same first i bouts, where the bout at i (if
      any) has the same `date_string`, reach the same state at i. */
  lemma {:induction false} PassUpToSame(s: EngineState, bs: seq<Bout>, bs': seq<Bout>, i: nat,
                                        params: Parameters, pow10: real -> real)
    requires IsPow10(pow10) && KnowsAll(s, bs) && KnowsAll(s, bs') && i <= |bs| == |bs'|
    requires bs[..i] == bs'[..i] && (i < |bs| ==> DateString(bs[i]) == DateString(bs'[i]))
    ensures PassUpTo(s, bs, i, params, pow10) == PassUpTo(s, bs', i, params, pow10)
  {
    if i > 0 {
      assert bs[i - 1] == bs[..i][i - 1] && bs'[i - 1] == bs'[..i][i - 1];
      assert bs[..i - 1] == bs[..i][..i - 1] && bs'[..i - 1] == bs'[..i][..i - 1];
      PassUpToSame(s, bs, bs', i - 1, params, pow10);
      assert BatchEndsAt(bs, i - 1) == BatchEndsAt(bs', i - 1);
      SameStep(PassUpTo(s, bs, i - 1, params, pow10), bs, bs', i - 1, params, pow10);
    }
  }

  /** A reordering of a run of bouts, with the same bouts around it,
      mentions the same fencers, and its bouts share the run's
      `date_string`. */
  lemma PermutedRunKnown(s: EngineState, bs: seq<Bout>, bs': seq<Bout>, i: nat, j: nat)
    requires KnowsAll(s, bs) && i < j <= |bs| == |bs'|
    requires bs[..i] == bs'[..i] && bs[j..] == bs'[j..]
    requires multiset(bs[i..j]) == multiset(bs'[i..j])
    requires forall n :: i <= n < j ==> DateString(bs[n]) == DateString(bs[i])
    ensures KnowsAll(s, bs')
    ensures forall n :: i <= n < j ==> DateString(bs'[n]) == DateString(bs[i])
  {
    forall n | 0 <= n < |bs'|
      ensures Knows(s, bs'[n]) && (i <= n < j ==> DateString(bs'[n]) == DateString(bs[i]))
    {
      if n < i {
        assert bs'[n] == bs'[..i][n] && bs[n] == bs[..i][n];
      } else if n >= j {
        assert bs'[n] == bs'[j..][n - j] && bs[n] == bs[j..][n - j];
      } else {
        var m := PermutedFrom(bs, bs', i, j, n);
      }
    }
  }

  /** A bout in a reordered run is one of the run's bouts before. */
  lemma PermutedFrom(bs: seq<Bout>, bs': seq<Bout>, i: nat, j: nat, n: nat) returns (m: nat)
    requires i <= n < j <= |bs| == |bs'|
    requires multiset(bs[i..j]) == multiset(bs'[i..j])
    ensures i <= m < j && bs[m] == bs'[n]
  {
    assert bs'[n] == bs'[i..j][n - i];
    assert bs'[n] in multiset(bs[i..j]);
    var k :| 0 <= k < j - i && bs[i..j][k] == bs'[n];
    m := i + k;
  }

  /** The order of the bouts that share one `date_string` does not matter:
      a reordering of such a run leaves every fencer's state and the
      staging set after a pass exactly as they were. */
  lemma BatchOrderIrrelevant(s: EngineState, bs: seq<Bout>, bs': seq<Bout>, i: nat, j: nat,
                             params: Parameters, pow10: real -> real)
    requires IsPow10(pow10) && KnowsAll(s, bs)
    requires i < j <= |bs| == |bs'|
    requires bs[..i] == bs'[..i] && bs[j..] == bs'[j..]
    requires multiset(bs[i..j]) == multiset(bs'[i..j])
    requires forall n :: i <= n < j ==> DateString(bs[n]) == DateString(bs[i])
    ensures KnowsAll(s, bs')
    ensures Pass(s, bs, params, pow10) == Pass(s, bs', params, pow10)
  {
    PermutedRunKnown(s, bs, bs', i, j);
    PassIsPassFrom(s, bs, params, pow10);
    PassIsPassFrom(s, bs', params, pow10);
    PassFromSplit(s, bs, i, params, pow10);
    PassFromSplit(s, bs', i, params, pow10);
    PassUpToSame(s, bs, bs', i, params, pow10);
    var u := PassUpTo(s, bs, i, params, pow10);
    KnowsAllSameKeys(s, u, bs');
    PassFromPermutedBatchAt(u, bs, bs', i, j, params, pow10);
  }
}
