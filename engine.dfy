/** The rating engine as the source runs it: the fencers live in one
    dictionary and the staging set `fencers_with_preliminary_felo_rating`
    (felo_rating.py:934) is shared state, and every operation updates them
    in place. Each method is proved to leave exactly the state the matching
    function of the Rating module describes, so that everything proved
    about those functions holds for the engine. */
module Engine {
  import opened Outcomes
  import opened Bouts
  import opened Fencers
  import opened Rating
  import opened RatingProperties

  class FeloEngine {
    /** All fencers by name (the `fencers` dictionary). */
    var fencers: map<string, FencerState>
    /** The names of the fencers in the class-level staging set. */
    var staged: set<string>
    const params: Parameters
    /** `10 ** x`, see Fencers.IsPow10. */
    const pow10: real -> real

    function State(): EngineState
      reads this
    {
      EngineState(fencers, staged)
    }

    /** Only fencers of the dictionary are ever staged. */
    predicate Valid()
      reads this
    {
      staged <= fencers.Keys
    }

    constructor (fencers0: map<string, FencerState>, params0: Parameters, pow10': real -> real)
      ensures fencers == fencers0 && staged == {} && params == params0 && pow10 == pow10'
      ensures Valid()
    {
      fencers := fencers0;
      staged := {};
      params := params0;
      pow10 := pow10';
    }

    /** `set_preliminary_felo_ratings` (felo_rating.py:424-497) on the
        engine's fencers: the weighting and result of the bout, then the
        branch for two freshmen, one freshman or two rated fencers. */
    method SetPreliminaryFeloRatings(b: Bout)
      requires IsPow10(pow10) && Valid() && Knows(State(), b)
      modifies this
      ensures Valid()
      ensures State() == StageBout(old(State()), b, params, pow10)
    {
      ghost var s := State();
      var first := fencers[b.first];
      var second := fencers[b.second];
      var w := Weighting(b, params);
      var result := ResultFirst(b);
      if first.freshman && second.freshman {
        StageFreshmenPair(s, b, params, pow10);
        return;
      }
      if first.freshman {
        AddFreshmanBout(b.first, true, w, result, second.rating);
        StageFirstFreshman(s, b, params, pow10);
        return;
      } else if second.freshman {
        AddFreshmanBout(b.second, false, w, result, first.rating);
        StageSecondFreshman(s, b, params, pow10);
        return;
      }
      var expectation := BoutExpectation(pow10, b, first.rating, second.rating);
      var improvement := (result - expectation) * w;
      ImprovementAfterBase(s, b, params, pow10, MaxPoints(b) + 2);
      assert improvement == Improvement(s, b, params, pow10);
      StageRatedBout(b, improvement, w);
      StageBoutRated(s, b, params, pow10);
    }

    /** The freshman branches of felo_rating.py:459-470: the freshman's
        three accumulators grow, one statement each. `result` is the first
        fencer's share and `opponentRating` the committed rating of the
        other fencer. */
    method AddFreshmanBout(key: string, freshmanFirst: bool, w: real, result: real, opponentRating: real)
      requires Valid() && key in fencers
      modifies this
      ensures Valid()
      ensures State() == StageFreshman(old(State()), key, freshmanFirst, w, result, opponentRating)
    {
      ghost var f := fencers[key];
      fencers := fencers[key := fencers[key].(totalWeighting := fencers[key].totalWeighting + w)];
      if freshmanFirst {
        fencers := fencers[key := fencers[key].(totalResult := fencers[key].totalResult + (result - 0.5) * w)];
      } else {
        fencers := fencers[key := fencers[key].(totalResult := fencers[key].totalResult + (0.5 - result) * w)];
      }
      fencers := fencers[key := fencers[key].(totalOpponentRating := fencers[key].totalOpponentRating + opponentRating * w)];
      FreshmanBoutSums(f, freshmanFirst, w, result, opponentRating);
      ghost var g := FreshmanBout(f, freshmanFirst, w, result, opponentRating);
      assert fencers[key] == g;
      assert fencers == old(fencers)[key := g];
    }

    /** The rated branch of felo_rating.py:490-497: the two preliminary
        ratings move by k times the improvement, both fencers join the
        staging set, and both preliminary weightings grow. */
    method StageRatedBout(b: Bout, improvement: real, w: real)
      requires Valid() && Knows(State(), b)
      modifies this
      ensures Valid()
      ensures State() == StageRated(old(State()), b, improvement, w, params)
    {
      ghost var s := State();
      fencers := fencers[b.first := fencers[b.first].(
        ratingPreliminary := fencers[b.first].ratingPreliminary + RatingChange(fencers[b.first], improvement, params))];
      ghost var m1 := fencers;
      fencers := fencers[b.second := fencers[b.second].(
        ratingPreliminary := fencers[b.second].ratingPreliminary - RatingChange(fencers[b.second], improvement, params))];
      ghost var m2 := fencers;
      staged := staged + {b.first, b.second};
      fencers := fencers[b.first := fencers[b.first].(
        totalWeightingPreliminary := fencers[b.first].totalWeightingPreliminary + w)];
      ghost var m3 := fencers;
      fencers := fencers[b.second := fencers[b.second].(
        totalWeightingPreliminary := fencers[b.second].totalWeightingPreliminary + w)];
      StageRatedSteps(s, b, improvement, w, params, m1, m2, m3, fencers);
    }

    /** `adopt_preliminary_felo_ratings` (felo_rating.py:907-921): every
        staged fencer, in whatever order the set yields them, takes its
        preliminary rating through the rating setter and its preliminary
        weighting; then the set is cleared. */
    method AdoptPreliminaryFeloRatings()
      requires Valid()
      modifies this
      ensures Valid()
      ensures State() == Commit(old(State()), params)
    {
      ghost var s := State();
      var todo := staged;
      while todo != {}
        invariant todo <= staged == s.staged && fencers.Keys == s.fencers.Keys
        invariant forall k :: k in s.fencers ==>
          fencers[k] == if k in s.staged && k !in todo then Adopted(s.fencers[k], params) else s.fencers[k]
        decreases todo
      {
        var k :| k in todo;
        var f := fencers[k];
        fencers := fencers[k := SetRating(f, f.ratingPreliminary, params)];
        fencers := fencers[k := fencers[k].(totalWeighting := f.totalWeightingPreliminary)];
        todo := todo - {k};
      }
      staged := {};
      assert fencers == Commit(s, params).fencers;
    }

    /** `calculate_felo_ratings_core` (felo_rating.py:1103-1108) without the
        plot: stage every bout, and commit where a batch ends. */
    method CalculateCore(bs: seq<Bout>)
      requires IsPow10(pow10) && Valid() && KnowsAll(State(), bs)
      modifies this
      ensures Valid() && KnowsAll(State(), bs)
      ensures State() == Pass(old(State()), bs, params, pow10)
    {
      ghost var s := State();
      for i := 0 to |bs|
        invariant Valid() && KnowsAll(State(), bs)
        invariant PassFrom(State(), bs, i, params, pow10) == PassFrom(s, bs, 0, params, pow10)
      {
        StepIs(State(), bs, i, params, pow10);
        SetPreliminaryFeloRatings(bs[i]);
        if i == |bs| - 1 || DateString(bs[i]) != DateString(bs[i + 1]) {
          AdoptPreliminaryFeloRatings();
        }
      }
      PassIsPassFrom(s, bs, params, pow10);
    }

    /** Every fencer's `felo_rating_exact`, as the loops of
        felo_rating.py:1172-1173 and 1175-1176 read them, or the division
        by zero one of them raises. */
    method ExactRatings() returns (r: Result<map<string, real>>)
      ensures r.Ok? <==> Estimable(State(), params)
      ensures r.Err? ==> r.error == ZeroDivision
      ensures r.Ok? ==> r.value.Keys == fencers.Keys
      ensures r.Ok? ==> forall k :: k in fencers ==> RatingExact(fencers[k], params) == Ok(r.value[k])
    {
      EstimableMeans(State(), params);
      var todo := fencers.Keys;
      var m: map<string, real> := map[];
      while todo != {}
        invariant todo <= fencers.Keys && m.Keys == fencers.Keys - todo
        invariant forall k :: k in m ==> RatingExact(fencers[k], params) == Ok(m[k])
        decreases todo
      {
        var k :| k in todo;
        var x := RatingExact(fencers[k], params);
        if x.Err? {
          return Err(ZeroDivision);
        }
        m := m[k := x.value];
        todo := todo - {k};
      }
      r := Ok(m);
    }

    /** The for/else test of felo_rating.py:1175-1179, walking the fencers
        in the dictionary's order `order`: each fencer's new estimate is
        computed and compared with the one `before` recorded for it, and
        the walk ends at the first fencer that moved by `threshold
        bootstrapping` or more, or at a division by zero. */
    method CompareEstimates(ghost t: EngineState, before: map<string, real>, order: seq<string>) returns (v: Verdict)
      requires t.fencers.Keys == fencers.Keys && before.Keys == fencers.Keys
      requires forall k :: k in t.fencers ==> RatingExact(t.fencers[k], params) == Ok(before[k])
      requires forall j :: 0 <= j < |order| ==> order[j] in fencers
      ensures v == Check(t, State(), order, params)
    {
      var j := 0;
      while j < |order|
        invariant j <= |order|
        invariant Check(t, State(), order[j..], params) == Check(t, State(), order, params)
        decreases |order| - j
      {
        var k := order[j];
        var after := RatingExact(fencers[k], params);
        if after.Err? {
          return Undefined;
        }
        var d := before[k] - after.value;
        if (if d < 0.0 then -d else d) >= params.thresholdBootstrapping {
          return Moved;
        }
        assert order[j..][1..] == order[j + 1..];
        j := j + 1;
      }
      assert order[j..] == [];
      return Settled;
    }

    /** The body of the bootstrapping loop after the callback
        (felo_rating.py:1172-1179): every estimate is recorded, one pass
        is made, and the estimates are compared in the dictionary's order
        `order`. It fails when an estimate before the pass divides by zero
        or the comparison reaches one after it that does, and it settles
        when the comparison finds nobody that moved. */
    method BootstrapCycle(bs: seq<Bout>, order: seq<string>) returns (failed: bool, settled: bool)
      requires IsPow10(pow10) && Valid() && KnowsAll(State(), bs) && Lists(order, fencers.Keys)
      modifies this
      ensures Valid() && KnowsAll(State(), bs) && fencers.Keys == old(fencers.Keys)
      ensures State() == if Estimable(old(State()), params) then Pass(old(State()), bs, params, pow10) else old(State())
      ensures failed <==> !Estimable(old(State()), params) || Check(old(State()), State(), order, params) == Undefined
      ensures !failed ==> (settled <==> Check(old(State()), State(), order, params) == Settled)
    {
      ghost var t := State();
      var before := ExactRatings();
      if before.Err? {
        return true, false;
      }
      CalculateCore(bs);
      var verdict := CompareEstimates(t, before.value, order);
      failed := verdict == Undefined;
      settled := verdict == Settled;
    }

    /** One turn of the bootstrapping loop at index i, stated as what it
        does to the cycles the loop still has ahead: it ends them with
        the state reached, or hands them on to index i + 1. */
    method LoopCycle(bs: seq<Bout>, order: seq<string>, maxcycles: nat, i: nat, ghost c: CycleEnd)
      returns (failed: bool, settled: bool)
      requires IsPow10(pow10) && Valid() && KnowsAll(State(), bs) && Lists(order, fencers.Keys) && i < maxcycles
      requires Cycles(State(), bs, order, maxcycles, i, params, pow10) == c
      modifies this
      ensures Valid() && KnowsAll(State(), bs) && fencers.Keys == old(fencers.Keys)
      ensures failed ==> c == CycleEnd(State(), i, true)
      ensures !failed && (settled || i == maxcycles - 1) ==> c == CycleEnd(State(), i, false)
      ensures !failed && !settled && i < maxcycles - 1 ==> Cycles(State(), bs, order, maxcycles, i + 1, params, pow10) == c
    {
      ghost var t := State();
      failed, settled := BootstrapCycle(bs, order);
      CycleStep(t, bs, order, maxcycles, i, State(), failed, settled, params, pow10);
    }

    /** The bootstrapping loop of felo_rating.py:1168-1181, with the
        dictionary yielding the fencers in the order `order`. It ends in the
        state Bootstrap describes, fails exactly when Bootstrap does, and
        hands the callback the values Progress lists. */
    method Bootstrapping(bs: seq<Bout>, order: seq<string>, maxcycles: int, withCallback: bool)
      returns (err: Option<Error>, progress: seq<real>)
      requires IsPow10(pow10) && Valid() && KnowsAll(State(), bs) && Lists(order, fencers.Keys)
      modifies this
      ensures Valid()
      ensures State() == BootstrapState(old(State()), bs, order, maxcycles, withCallback, params, pow10)
      ensures err.None? <==> Bootstrap(old(State()), bs, order, maxcycles, withCallback, params, pow10).Ok?
      ensures err.Some? ==> Bootstrap(old(State()), bs, order, maxcycles, withCallback, params, pow10) == Err(err.value)
      ensures withCallback && 2 <= maxcycles ==>
        progress == Progress(maxcycles, Cycles(old(State()), bs, order, maxcycles, 0, params, pow10).last)
    {
      progress := [];
      if maxcycles <= 0 {
        return Some(UnboundCycleIndex), progress;
      }
      if withCallback && maxcycles == 1 {
        return Some(ZeroDivision), progress;
      }
      var last, failed;
      last, failed, progress := RunCycles(bs, order, maxcycles, withCallback);
      if failed {
        return Some(ZeroDivision), progress;
      }
      if last == maxcycles - 1 {
        err := Some(BootstrappingError);
      } else {
        err := None;
      }
    }

    /** The for loop of felo_rating.py:1169-1179 itself: it hands the
        callback i / (maxcycles - 1) at every tenth cycle and runs the
        cycles until one fails, settles or is the final one allowed. */
    method RunCycles(bs: seq<Bout>, order: seq<string>, maxcycles: nat, withCallback: bool)
      returns (last: nat, failed: bool, progress: seq<real>)
      requires IsPow10(pow10) && Valid() && KnowsAll(State(), bs) && Lists(order, fencers.Keys)
      requires 1 <= maxcycles && (withCallback ==> 2 <= maxcycles)
      modifies this
      ensures Valid()
      ensures var c := Cycles(old(State()), bs, order, maxcycles, 0, params, pow10);
        State() == c.state && last == c.last && failed == c.failed
      ensures withCallback ==> progress == Progress(maxcycles, last)
    {
      progress := [];
      ghost var s := State();
      ghost var c := Cycles(s, bs, order, maxcycles, 0, params, pow10);
      var i: nat := 0;
      while true
        invariant i < maxcycles && Valid() && KnowsAll(State(), bs) && fencers.Keys == s.fencers.Keys
        invariant Cycles(State(), bs, order, maxcycles, i, params, pow10) == c
        invariant withCallback ==> progress == if i == 0 then [] else Progress(maxcycles, i - 1)
        decreases maxcycles - i
      {
        if withCallback && i % 10 == 0 {
          progress := progress + [i as real / (maxcycles - 1) as real];
        }
        if withCallback {
          ProgressStep(maxcycles, i);
        }
        var settled;
        failed, settled := LoopCycle(bs, order, maxcycles, i, c);
        if failed || settled || i == maxcycles - 1 {
          return i, failed, progress;
        }
        i := i + 1;
      }
    }

    /** `calculate_felo_ratings` (felo_rating.py:1027-1223) without the
        plots and the sorting of the bouts: the optional bootstrapping, one
        more pass, and the names of the fencers reported. `order` is the
        order in which the `fencers` dictionary yields its fencers. */
    method CalculateFeloRatings(bs: seq<Bout>, order: seq<string>, bootstrapping: bool, maxcycles: int,
                                withCallback: bool, estimateFreshmen: bool)
      returns (r: Result<set<string>>, progress: seq<real>)
      requires IsPow10(pow10) && Valid() && KnowsAll(State(), bs) && Lists(order, fencers.Keys)
      modifies this
      ensures Valid()
      ensures var expected := Calculation(old(State()), bs, order, bootstrapping, maxcycles, withCallback, params, pow10);
        (r.Ok? <==> expected.Ok?)
        && (r.Ok? ==> State() == expected.value && r.value == Reported(State(), estimateFreshmen))
        && (r.Err? ==> r.error == expected.error
                       && State() == BootstrapState(old(State()), bs, order, maxcycles, withCallback, params, pow10))
    {
      progress := [];
      if bootstrapping {
        var err;
        err, progress := Bootstrapping(bs, order, maxcycles, withCallback);
        if err.Some? {
          return Err(err.value), progress;
        }
      }
      CalculateCore(bs);
      r := Ok(Reported(State(), estimateFreshmen));
    }
  }
}
