# Felo ratings in Dafny

This project models the core of `felo_rating.py`, the engine behind the Felo
rating of fencers. The Felo rating is an Elo-style rating. The engine reads a
Felo file in three sections:

- a parameter section of "name <TAB> value" items;
- a section of fencers with their initial ratings;
- a list of bouts.

It then computes everyone's rating bout by bout. Bouts that share a
`date_string` form one batch, and a batch is rated against the ratings
committed before it. Optionally, a bootstrapping loop repeats the whole pass
until no estimate moves by more than a threshold. Finally the engine can
write the fencers section back into the file, leaving the rest untouched.

The model follows Python 2 semantics, the version the program is written
for (`felo.py` uses `except ..., e` and `print>>`). This covers byte and
unicode strings, floor division of integers, and the Unicode 5.2 whitespace
and line-break sets.

The modules follow the program:

| module | file | what it holds |
|---|---|---|
| `Outcomes` | outcomes.dfy | `Option`, `Result` and the errors the source raises |
| `Text` | text.dfy | `clean_up_line`, Python's `strip`, `find`, `str`/`int` of integers, `fill_with_tabs`, `splitlines` |
| `Bouts` | bouts.dfy | the `Bout` record, its constructor, `date_string`, `__cmp__`, the score column of a bout line |
| `Fencers` | fencers.dfy | the `Fencer` record, its constructor, the rating setter, the `k_factor` and `felo_rating_exact` getters, `expectation_value` |
| `Table` | table.dfy | `apparent_expectation_values` and the winning-hit interpolation |
| `Rating` | rating.dfy | staging one bout, committing a batch, one pass and the bootstrapping, as functions of the state of all fencers |
| `RatingProperties` | rating_properties.dfy | what a bout, a commit, a pass and the bootstrapping guarantee |
| `Batches` | batches.dfy | why the order of the bouts inside a batch does not matter |
| `Engine` | engine.dfy | the engine as a class that updates its fencers and staging set in place, proved to agree with `Rating` |
| `Items` | items.dfy | `parse_items`, its value coercion, and the fencers built from the initial-ratings items |
| `ParameterSection` | parameters.dfy | parameter names, their defaults, and the numbers the engine reads |
| `BoutSection` | bout_section.dfy | the checks `parse_bouts` makes after its pattern matched a line |
| `FeloFile` | felo_file.dfy | `parse_felo_file` on the lines of a file |
| `WriteBack` | write_back.dfy | `write_back_fencers`, and reading the written section back |

The source changes state in several places, and the model does so too:

- `set_preliminary_felo_ratings` writes fencer fields and adds to the
  class-level set `fencers_with_preliminary_felo_rating`.
- `adopt_preliminary_felo_ratings` empties that set.
- The pass and the bootstrapping loop rewrite every fencer again and again.

In the model these become methods of the class `Engine.FeloEngine`. Each
method's postcondition says its new state is the one a function of `Rating`
describes. The properties are proved about those functions in
`RatingProperties` and `Batches`, so they hold for the engine as well. The
loops of `parse_items`, `parse_bouts`, `parse_felo_file` and
`write_back_fencers` are methods with loop invariants. Each is proved equal to
a recursive function that the lemmas are about.

Ratings are `real`s. Python's `10 ** x` is a parameter `pow10` of the
model. The predicate `Fencers.IsPow10` requires only three things of it:

- it is positive;
- `pow10(x) * pow10(-x) == 1`;
- it is increasing.

The following are also parameters:

- `float(s)` (`parseFloat`);
- `str` of a float (`floatText`);
- `"%g"` (`formatG`);
- the bout pattern's match of a line (`matchLine`).

## Model

| member | source | states |
|---|---|---|
| Text.CleanUpLine | felo_rating.py:90-106 | the cleaned line has no `#` and no surrounding whitespace; it is the stripped text before the first `#`, or the whole line stripped when there is none |
| Text.CleanUpLineIdempotent | felo_rating.py:90-106 | cleaning a cleaned line changes nothing |
| Text.CleanUpLineOfTrimmed | felo_rating.py:90-106 | a line without `#` and without surrounding whitespace is its own cleaned form |
| Text.Strip | felo_rating.py:106 | `strip()` leaves no whitespace at either end |
| Text.StripTrimmed | felo_rating.py:106 | stripping text that has no surrounding whitespace returns it unchanged |
| Text.LStrip | felo_rating.py:782 | `lstrip()` is the suffix left after the leading whitespace: everything removed is whitespace, and what is left does not start with whitespace |
| Text.RStrip | felo_rating.py:106 | `rstrip()` is the prefix left before the trailing whitespace, and everything removed is whitespace |
| Text.Find | felo_rating.py:102 | `find` gives -1 exactly when the character is absent, and otherwise its first position |
| Text.RegexSpaceRun | felo_rating.py:132 | the run `\s*` matches is made of whitespace and is followed by a character that is not whitespace, or by the end |
| Text.NatToString | felo_rating.py:791 | `str(n)` is a non-empty string of digits whose value is `n`, with no leading zero unless `n` is 0 |
| Text.NatToStringInjective | felo_rating.py:791 | different numbers are written differently |
| Text.NatToStringLength | felo_rating.py:791 | a number below 10^k is written with at most k digits |
| Text.IntToStringShape | felo_rating.py:791 | `str(i)` is `-` and the digits of `-i` for a negative `i`, and the digits of `i` otherwise |
| Text.IntToString | felo_rating.py:791 | `str` of an integer is never empty; IntToStringShape gives its form, a `-` for a negative number followed by the digits of its magnitude |
| Text.ParseInt | felo_rating.py:147 | `int(s)` on text: surrounding whitespace, an optional sign, then at least one digit, and nothing else; ParseIntOfIntToString proves it reads back every integer that `str` writes |
| Text.ParseIntOfIntToString | felo_rating.py:666 | `int(str(i)) == i` for every integer |
| Text.ZeroPad | felo_rating.py:204 | the zero-padded number that `isoformat` writes: digits whose value is the number, as wide as asked or as the number needs |
| Text.FillWithTabs | felo_rating.py:691-692 | `fill_with_tabs` keeps the text and appends one or more tabs |
| Text.FillWithTabsReachesColumn | felo_rating.py:675-692 | for text without tabs or line breaks, the filled text expands to exactly 8 times the tab column asked for, or to the next tab stop when the text already reaches it (Python 2 integer division) |
| Text.SplitLines | felo_rating.py:773 | no line `splitlines` returns contains a line break |
| Text.SplitLinesOfJoin | felo_rating.py:796 | lines without line breaks, joined with `"\n"` and ended by one, split back into the same lines |
| Text.Join | felo_rating.py:796 | `sep.join(lines)`: the lines with `sep` between each two of them, and no separator for zero or one line; SplitLinesOfJoin proves that `splitlines` undoes a join with newlines when no line holds a line break |
| Bouts.NewBout | felo_rating.py:162-194 | the constructor fails exactly when `datetime.date` refuses the date; otherwise the bout keeps the date, index, names, points and winning points it was given |
| Bouts.DateString | felo_rating.py:203-207 | the `date_string` getter: YYYY-MM-DD, then `.` and the index unless the index is 0; DateStringInjective proves that two bouts share it exactly when they share date and index |
| Bouts.DateStringInjective | felo_rating.py:203-207 | two bouts with valid dates have the same `date_string` exactly when they have the same date and the same index |
| Bouts.CompareAsWritten | felo_rating.py:195-202 | `__cmp__` as written returns 0 for any two bouts of the same day |
| Bouts.CompareAsWrittenIgnoresDate | felo_rating.py:195-202 | there are bouts on an earlier day that `__cmp__` places after a later one, so sorting with it does not give date order |
| Bouts.ResolveFencedTo | felo_rating.py:541-546 | no token gives the larger of the two scores, `*` gives 0, and `/N` gives N |
| Bouts.ParseFencedTo | felo_rating.py:527 | the tail of the bout pattern: whitespace, then nothing, `*` (a relay bout), or `/` and digits (the winning points), then whitespace to the end; ParseFencedToOfText proves it reads back the token a bout line writes |
| Bouts.ParseScore | felo_rating.py:526-527 | the score column `points1:points2` of the bout pattern, two digit runs around a colon, then the fenced-to tail; ParseScoreOfScoreText proves it reads back the score column of every bout |
| Bouts.ScoreText | felo_rating.py:742-746 | the score column `write_felo_file` writes: `%d:%d`, then ` *` for a relay bout, `/N` when neither fencer reached the winning points N, and nothing otherwise; ScoreTextHasNoTab and ParseScoreOfScoreText state what it holds |
| Bouts.BoutLine | felo_rating.py:740-746 | a bout line: the date string padded to the second tab stop, the two names with ` -- ` between them padded to the fifth, then the score column; BoutLineRoundTrip proves that the text after its last tab is the score column, which the score pattern reads back as the points and the token that resolves to the bout's winning points |
| Bouts.ParseFencedToOfText | felo_rating.py:743-746 | the token written after the points is read back as the same token |
| Bouts.BoutLineScoreColumn | felo_rating.py:740-742 | the text after the last tab of a written bout line is its score column |
| Bouts.ParseScoreOfScoreText | felo_rating.py:742-746 | the score column reads back as the two points and the token it was written from |
| Bouts.BoutLineRoundTrip | felo_rating.py:740-746 | when neither score exceeds the winning points of a bout that is not a relay bout, the written line reads back as its points, and the rules of `parse_bouts` (felo_rating.py:541-546) give back its winning points |
| Fencers.ForeignRating | felo_rating.py:962 | a rating is found only in a name that contains `<` |
| Fencers.ForeignRatingOf | felo_rating.py:959-966 | the number in the first `<N>` of a name is the rating read |
| Fencers.NewFencer | felo_rating.py:948-973 | the constructor fails exactly for a name with `<` and no positive `<N>` rating; a leading `(` makes the fencer hidden and strips the outer characters; `<` makes a foreign fencer with the `<N>` rating; an initial rating of 0 makes a freshman; a rated fencer's rating is the initial rating raised to `minimal felo rating`, because it goes through the setter; the k factor is `k factor top fencers` for a rated, non-foreign fencer whose rating reaches `felo rating top fencers`, and `k factor others` otherwise; every weighting is the initial total weighting; a rated fencer keeps the given value as initial and preliminary rating, and a freshman starts with initial rating 0 and no results |
| Fencers.SetRating | felo_rating.py:993-997 | the setter ignores freshmen and foreign fencers; otherwise the rating becomes `max(value, minimal felo rating)`, and the k factor becomes `k factor top fencers` whenever the new rating reaches `felo rating top fencers`, changes at no other time, and never switches back; nothing else changes |
| Fencers.SetRatingIdempotent | felo_rating.py:993-997 | writing the same rating twice is writing it once |
| Fencers.KFactor | felo_rating.py:1006-1009 | the k factor is `k factor freshmen` while the total weighting is below `5 point bouts freshmen`, and the stored k factor otherwise |
| Fencers.RatingExact | felo_rating.py:975-988 | a rated fencer's exact rating is its rating; a freshman's is 0.0 below `5 point bouts for estimate` or at weighting 0; the Austrian estimate divides by zero exactly at weighting -2 |
| Fencers.DampingBounds | felo_rating.py:986 | the factor B = w/(w+2) of the estimate lies in [0, 1) for a non-negative weighting |
| Fencers.EstimateBounds | felo_rating.py:982-988 | with a positive weighting and a result of at most half the weighting in size, the estimate exists, differs from the average opponent rating by less than 350, and lies above, at or below it as the result is positive, zero or negative |
| Fencers.Expectation | felo_rating.py:1226-1245 | the Elo expectation lies strictly between 0 and 1 |
| Fencers.ExpectationOfEqualRatings | felo_rating.py:1226-1245 | equal ratings expect 0.5 |
| Fencers.ExpectationComplement | felo_rating.py:1226-1245 | the expectations of the two fencers of a bout add up to 1 |
| Fencers.ExpectationIncreasing | felo_rating.py:1226-1245 | against the same opponent, a higher rating expects strictly more |
| Table.Row | felo_rating.py:223-422 | row p of `apparent_expectation_values` starts with p/100, and all fifteen entries lie in [0, 1] |
| Table.EntryInUnitRange | felo_rating.py:223-422 | every entry of the table lies in [0, 1] |
| Table.ConstantRows | felo_rating.py:223-422 | rows 0, 50 and 100 are constantly 0, 0.5 and 1, whatever the winning points |
| Table.PyIndex | felo_rating.py:486-489 | Python's reading of a list index: a negative index counts from the end, and the position is inside the list |
| Table.Column | felo_rating.py:486-489 | the column `max_points - 1` of a bout with at most 15 points lies in the table |
| Table.ColumnOfScoreless | felo_rating.py:486-489 | a 0:0 bout reads column -1, which is Python's last column |
| Table.CorrectedExpectation | felo_rating.py:476-489 | for an expectation in [0, 1), the rows `int(e*100)` and `int(e*100)+1` lie in the table; the corrected value lies between the two interpolated entries and in [0, 1]; at a multiple of 0.01 it is the entry itself |
| Table.CorrectedExpectationAtGrid | felo_rating.py:486-489 | at an expectation of exactly p/100 the correction is the table entry of row p |
| Table.EvenBoutUncorrected | felo_rating.py:476-489 | an expectation of 0.5 is not changed by the correction |
| Rating.Weighting | felo_rating.py:447-451 | a relay bout weighs `weighting team bout`, and any other bout weighs a non-negative amount |
| Rating.ResultFirst | felo_rating.py:452-455 | the first fencer's result lies in [0, 1], is 0.5 exactly for a draw, and is above 0.5 exactly when the first fencer scored more |
| Rating.BoutExpectation | felo_rating.py:473-489 | the expectation used lies in [0, 1], and is Elo's formula unless the bout is a relay bout of at most 15 points |
| Rating.StageBout | felo_rating.py:424-497 | staging keeps the set of fencers, and adds both fencers to the staging set exactly when neither is a freshman |
| Rating.StageFreshman | felo_rating.py:459-470 | a freshman's side of a bout changes only that freshman and not the staging set |
| Rating.FreshmanBout | felo_rating.py:459-470 | only the freshman's three accumulators change; the weighting grows by w; for a non-negative w and a result in [0, 1] the result sum moves by at most w/2 |
| Rating.StageRated | felo_rating.py:490-497 | the rated branch stages both fencers and changes no other fencer |
| Rating.Improvement | felo_rating.py:473-490 | `improvement_first`: the first fencer's result minus the expectation from the committed ratings, times the bout's weighting; ImprovementSign proves it is positive exactly when the first fencer scored more than expected in a bout of positive weight, and 0 in a bout of weight 0 |
| Rating.RatingChange | felo_rating.py:491-492 | a bout moves a rated fencer's preliminary rating by the k factor times the improvement: `k factor freshmen` times it while the fencer's total weighting is below `5 point bouts freshmen`, the fencer's own k factor times it after |
| Rating.Commit | felo_rating.py:907-921 | after a commit the staging set is empty, every staged fencer is adopted (rating written through the setter, total weighting from the preliminary one), and every other fencer is unchanged |
| Rating.Adopted | felo_rating.py:918-920 | adopting changes only rating, k factor and weighting: the weighting becomes the preliminary weighting; a freshman or foreign fencer keeps rating and k factor; a rated fencer gets the preliminary rating raised to `minimal felo rating`, and the top k factor once that reaches `felo rating top fencers` |
| Rating.BatchEndsAt | felo_rating.py:1105 | a batch ends at the last bout and wherever the next bout has another `date_string`; Step's contract leaves nothing staged after a bout where a batch ends |
| Rating.Step | felo_rating.py:1103-1108 | a step keeps the set of fencers, and leaves nothing staged where a batch ends |
| Rating.StepIs | felo_rating.py:1103-1108 | a step stages the bout and commits exactly when it is the last bout or the next bout has another `date_string` |
| Rating.PassFrom | felo_rating.py:1103-1108 | the pass from bout i on keeps the set of fencers, so every bout's fencers stay known |
| Rating.Pass | felo_rating.py:1103-1108 | one pass of `calculate_felo_ratings_core` over all bouts keeps the set of fencers; PassIsPassFrom, PassFromCommits and BatchOrderIrrelevant state what it does |
| Rating.Snapshot | felo_rating.py:1172-1173 | the exact ratings the loop records, one per fencer |
| Rating.Estimable | felo_rating.py:1172-1173 | every fencer's `felo_rating_exact` can be computed, which EstimableMeans proves |
| Rating.Stayed | felo_rating.py:1177 | a fencer's estimate stayed put over a cycle: it can be computed before and after, and it moved by less than `threshold bootstrapping` |
| Rating.Converged | felo_rating.py:1175-1179 | every fencer's estimate stayed put; ConvergedMeans proves the unfolded form |
| Rating.Check | felo_rating.py:1175-1179 | the for/else test in dictionary order; CheckMeans proves it settles exactly when every fencer stayed put, and otherwise the first fencer that moved decides it, with a division by zero exactly when one of that fencer's estimates cannot be computed; CheckConverged ties it to Converged |
| Rating.Iterate | felo_rating.py:1169-1174 | n passes keep the set of fencers |
| Rating.Cycles | felo_rating.py:1169-1179 | the cycle the loop stops at lies between the current cycle and `maxcycles - 1`, and the fencers stay the same |
| Rating.Bootstrap | felo_rating.py:1168-1181 | a successful bootstrapping keeps the set of fencers |
| Rating.BootstrapState | felo_rating.py:1168-1181 | the fencers after the bootstrapping, also when it fails: the same set of fencers; the result of the bootstrapping when it succeeds; the state before it when the loop never runs a cycle |
| Rating.Calculation | felo_rating.py:1167-1182 | a successful calculation keeps the set of fencers |
| Rating.Progress | felo_rating.py:1170-1171 | the callback receives one value for every tenth cycle up to the last one run, the j-th being 10j/(maxcycles-1), each in [0, 1] |
| Rating.Reported | felo_rating.py:1221-1223 | the freshmen when freshmen are estimated, otherwise exactly the fencers that are neither hidden, freshman nor foreign |
| Rating.GainBounded | felo_rating.py:461 | `(result - 0.5) * w` and `(0.5 - result) * w` are at most w/2 in size |
| RatingProperties.StageFreshmenPair | felo_rating.py:456-458 | a bout of two freshmen changes nothing |
| RatingProperties.StageFirstFreshman | felo_rating.py:459-464 | a first fencer who is a freshman against a rated one: only the freshman's accumulators grow, by the weighting, `(result-0.5)*w` and the opponent's rating times w |
| RatingProperties.StageSecondFreshman | felo_rating.py:465-470 | the same for a second fencer who is a freshman, with `(0.5-result)*w` |
| RatingProperties.FreshmanBoutSums | felo_rating.py:459-470 | the exact sums the freshman's accumulators grow by |
| RatingProperties.StageBoutRated | felo_rating.py:471-497 | two rated fencers take the rated branch with the bout's improvement and weighting |
| RatingProperties.StageRatedDistinct | felo_rating.py:490-497 | for two different fencers, the first one's preliminary rating rises by its k factor times the improvement, the second one's falls by its own, both preliminary weightings grow by w, and nobody else changes |
| RatingProperties.StageRatedSteps | felo_rating.py:491-497 | the rated branch is the four updates of the source made one after another, also when a fencer fences against itself |
| RatingProperties.StageRatedPair | felo_rating.py:471-497 | for a bout of two rated fencers: both join the staging set; the preliminary ratings move by `+k1*improvement` and `-k2*improvement`; both preliminary weightings grow by the weighting; committed values and every other fencer are untouched |
| RatingProperties.ImprovementSign | felo_rating.py:490 | the improvement is positive exactly when the result beats the expectation (for a positive weighting), and zero at weighting 0 |
| RatingProperties.StageConservesRatingSum | felo_rating.py:490-492 | with equal k factors, a bout leaves the sum of the two preliminary ratings unchanged |
| RatingProperties.StageKeepsCommitted | felo_rating.py:471-474 | staging never writes what the next bout reads: the committed ratings, k factors and names, and the weightings of rated fencers |
| RatingProperties.StageRatedKeepsFreshmen | felo_rating.py:471-497 | a bout of two rated fencers leaves every freshman as it was |
| RatingProperties.StageKeepsStagedRated | felo_rating.py:493-494 | only rated fencers are ever staged |
| RatingProperties.CommitStaged | felo_rating.py:918-920 | a committed rated fencer that is not foreign gets `max(preliminary, minimal felo rating)`, at least the minimum; a foreign one keeps its `<N>` rating; the total weighting becomes the preliminary one; the preliminary values stay; the top k factor is reached at the top rating and never lost; the freshman k factor still applies below `5 point bouts freshmen` |
| RatingProperties.CommitIdempotent | felo_rating.py:907-921 | committing twice is committing once |
| RatingProperties.CommitKeepsFreshmen | felo_rating.py:918-921 | when only rated fencers are staged, a commit leaves every freshman as it was |
| RatingProperties.PassFromCommits | felo_rating.py:1103-1108 | a pass over at least one bout leaves nothing staged |
| RatingProperties.PassFromAboveMinimum | felo_rating.py:993-995 | if every rated fencer that is not foreign is at least at the minimal rating, a pass keeps it so |
| RatingProperties.StageFreshmanBounded | felo_rating.py:459-470 | a freshman's side of a bout keeps every freshman's result within half its weighting |
| RatingProperties.StageFreshmenBounded | felo_rating.py:456-470 | with a non-negative team-bout weighting, staging any bout keeps every freshman's result within half its weighting |
| RatingProperties.StageOneFreshmanBounded | felo_rating.py:459-470 | the same for a bout of one freshman against a rated fencer |
| RatingProperties.PassFromFreshmenBounded | felo_rating.py:1103-1108 | a pass keeps the freshman bound, and keeps only rated fencers staged |
| RatingProperties.IterateFreshmenBounded | felo_rating.py:1169-1174 | the freshman bound holds after any number of passes |
| RatingProperties.BoundedIsEstimable | felo_rating.py:982-988 | under the freshman bound every exact rating can be computed |
| RatingProperties.EstimableMeans | felo_rating.py:1172-1173 | the loop can record the ratings exactly when every fencer's exact rating exists |
| RatingProperties.ConvergedMeans | felo_rating.py:1175-1179 | the for/else finds convergence exactly when every fencer's estimate moved by less than `threshold bootstrapping` |
| RatingProperties.CheckMeans | felo_rating.py:1175-1179 | walking the fencers in dictionary order, the for/else settles exactly when every fencer stayed within the threshold; otherwise the first fencer that did not decides, and the walk divides by zero exactly when one of that fencer's estimates does |
| RatingProperties.CheckConverged | felo_rating.py:1175-1179 | walking all the fencers, the test settles exactly on convergence, and it meets no division by zero when every estimate before and after the pass can be computed |
| RatingProperties.PassIsPassFrom | felo_rating.py:1103-1108 | a pass is the loop over all bouts from the first |
| RatingProperties.IterateStep | felo_rating.py:1169-1174 | i + 1 passes are one pass after i passes |
| RatingProperties.CyclesContinue | felo_rating.py:1172-1179 | a cycle the loop goes on from computed every estimate before its pass, found a fencer that moved, was not the last, and hands on the state after one pass |
| RatingProperties.CyclesStop | felo_rating.py:1172-1181 | at the cycle the loop stops at, it fails exactly when an estimate before the pass divides by zero or the test, in dictionary order, reaches one after the pass that does; otherwise the state is that after the pass, and the test settled unless the cycle was the last |
| RatingProperties.CycleStep | felo_rating.py:1172-1179 | one cycle as the loop body makes it: a division by zero ends the loop; a settled test or the last cycle ends it normally; otherwise the loop goes on from the new state with the next cycle |
| RatingProperties.CyclesPrefix | felo_rating.py:1169-1179 | every cycle before the one the loop stops at computed its estimates and did not converge |
| RatingProperties.CyclesSuccess | felo_rating.py:1169-1181 | without a division by zero, the loop ends after exactly last+1 passes and the estimates before its last cycle can be computed; unless that cycle was the final one allowed, the estimates after it can be computed too and it converged |
| RatingProperties.CyclesFailure | felo_rating.py:1172-1176 | when the loop stops on a division by zero, the estimate before or after its last cycle cannot be computed |
| RatingProperties.BootstrapStopsAtFirstConvergence | felo_rating.py:1168-1181 | if cycle i < maxcycles-1 is the first that converges, the bootstrapping succeeds after i+1 passes |
| RatingProperties.BootstrapEndsWithCycles | felo_rating.py:1168-1181 | with at least two cycles: a failed cycle raises the division by zero; a stop at index `maxcycles - 1` raises `BootstrappingError`, even when that cycle converged; any other stop returns the state |
| RatingProperties.BootstrapFailsWithoutEarlyConvergence | felo_rating.py:1180-1181 | if no cycle before the last converges, the bootstrapping raises `BootstrappingError` |
| RatingProperties.BootstrapNeverDividesByZero | felo_rating.py:1168-1181 | with a non-negative team-bout weighting and bounded freshmen, the bootstrapping either succeeds or raises `BootstrappingError` |
| RatingProperties.ProgressStep | felo_rating.py:1170-1171 | cycle 0 hands over 0; each later tenth cycle appends i/(maxcycles-1); the other cycles hand over nothing |
| Batches.ImprovementReadsRatings | felo_rating.py:473-475 | the improvement depends only on the two committed ratings |
| Batches.AgreeBoutDelta | felo_rating.py:471-474 | states that agree on the committed values give a bout the same increments and the same staged names |
| Batches.StageBoutDelta | felo_rating.py:424-497 | staging a bout adds to every fencer an increment computed from committed values only, and stages its names |
| Batches.StageOneFreshmanDelta | felo_rating.py:459-470 | the same for a bout of a freshman against a rated fencer |
| Batches.StageFirstFreshmanDelta | felo_rating.py:459-464 | the same when the first fencer is the freshman |
| Batches.StageSecondFreshmanDelta | felo_rating.py:465-470 | the same when the second fencer is the freshman |
| Batches.StageRatedDelta | felo_rating.py:490-497 | the rated branch, fencer by fencer, is an increment, also for a fencer against itself |
| Batches.StageRatedSelf | felo_rating.py:490-497 | a bout of a rated fencer against itself leaves its preliminary rating where it was and adds the weighting twice |
| Batches.StageBoutAgrees | felo_rating.py:471-474 | staging keeps everything staging reads |
| Batches.StageAll | felo_rating.py:1103-1104 | staging a batch keeps the set of fencers |
| Batches.StageAllDelta | felo_rating.py:1103-1104 | a staged batch is the state before it with every fencer shifted by the sum of its bouts' increments |
| Batches.SumDeltaPermutation | felo_rating.py:1103-1108 | the increments of a batch sum to the same in any order |
| Batches.StagedByAllPermutation | felo_rating.py:493-494 | a batch stages the same names in any order |
| Batches.StageAllPermutation | felo_rating.py:1103-1108 | a batch staged in any order leaves the same state |
| Batches.PassFromBatch | felo_rating.py:1103-1108 | inside a batch the pass only stages, and it commits where the batch ends |
| Batches.PassFromSuffix | felo_rating.py:1103-1108 | two bout lists that agree from position m on give the same pass from m |
| Batches.PassFromPermutedBatchAt | felo_rating.py:1103-1108 | reordering the bouts of one batch that starts at position i gives the same pass from i |
| Batches.PassUpTo | felo_rating.py:1103-1108 | the pass over the first i bouts keeps the set of fencers |
| Batches.PassFromSplit | felo_rating.py:1103-1108 | the pass is the pass over the first i bouts followed by the pass from bout i |
| Batches.PassUpToSame | felo_rating.py:1105 | bout lists with the same first i bouts, and the same `date_string` at position i, give the same state after i bouts |
| Batches.BatchOrderIrrelevant | felo_rating.py:1103-1108 | permuting a run of bouts that share one `date_string` leaves every fencer's state after the pass unchanged |
| Engine.FeloEngine.constructor | felo_rating.py:934 | the engine starts with the given fencers and an empty staging set |
| Engine.FeloEngine.SetPreliminaryFeloRatings | felo_rating.py:424-497 | updating the fencers in place leaves exactly the state `StageBout` describes |
| Engine.FeloEngine.AddFreshmanBout | felo_rating.py:459-470 | the in-place update of the freshman's accumulators is `StageFreshman` |
| Engine.FeloEngine.StageRatedBout | felo_rating.py:490-497 | the four in-place updates and the two additions to the staging set are `StageRated` |
| Engine.FeloEngine.AdoptPreliminaryFeloRatings | felo_rating.py:907-921 | the loop over the staging set and its clearing leave exactly `Commit` |
| Engine.FeloEngine.CalculateCore | felo_rating.py:1103-1108 | the loop over the bouts leaves exactly the state of one `Pass` |
| Engine.FeloEngine.ExactRatings | felo_rating.py:1172-1173 | the exact ratings of all fencers, or the division by zero, exactly when one of them cannot be computed |
| Engine.FeloEngine.CompareEstimates | felo_rating.py:1175-1179 | the for/else, walking the fencers in dictionary order and computing each new estimate as it goes, ends exactly as `Check` says |
| Engine.FeloEngine.BootstrapCycle | felo_rating.py:1172-1179 | one cycle makes one pass when the estimates before it can be computed; it fails exactly when one of those divides by zero or the comparison in dictionary order reaches an estimate after the pass that does, and it settles exactly when the comparison finds nobody that moved |
| Engine.FeloEngine.LoopCycle | felo_rating.py:1169-1179 | one turn of the loop ends the cycles with the state reached or hands them on to the next index, as `Cycles` says |
| Engine.FeloEngine.RunCycles | felo_rating.py:1169-1179 | the for loop ends in the state, at the index and with the failure `Cycles` gives, and hands the callback the values of `Progress` |
| Engine.FeloEngine.Bootstrapping | felo_rating.py:1168-1181 | for the dictionary order it is given, the loop ends in the state `Bootstrap` describes, fails exactly when it does and with the same error, and hands the callback the values of `Progress` |
| Engine.FeloEngine.CalculateFeloRatings | felo_rating.py:1027-1223 | the optional bootstrapping and one more pass leave the state `Calculation` describes, with the same error, and report the fencers `Reported` names |
| Items.CoerceMeans | felo_rating.py:142-147 | a value stays text exactly when `float` refuses it; an integer value is what `int` reads; a float value is what `float` reads and `int` refuses; when `float` accepts integers, a value is an integer exactly when `int` reads it |
| Items.CoerceOfIntToString | felo_rating.py:142-147 | a written integer is read back as that integer |
| Items.Coerce | felo_rating.py:142-147 | the value of an item: text unless `float` reads it, an int when `int` reads it too, a float otherwise; CoerceMeans proves each case |
| Items.SplitItem | felo_rating.py:132 | a matched item has a non-empty name without tabs and a non-empty value |
| Items.Split | felo_rating.py:132 | a split item has a non-empty name without a tab and a non-empty value |
| Items.Cleaned | felo_rating.py:135 | a cleaned line has no comment and no surrounding whitespace |
| Items.IsBoundaryChar | felo_rating.py:138 | the characters that open a boundary line, as `parse_items` and `write_back_fencers` list them |
| Items.IsBoundary | felo_rating.py:135-138 | a line whose cleaned form starts with a boundary character; BoundaryIsNotIntro proves that such a line never opens the fencers section |
| Items.SplitItemOfFilled | felo_rating.py:132-147 | the line `fill_with_tabs(name, col) + value` is its own cleaned form and splits into exactly that name and value |
| Items.SplitOfTabbed | felo_rating.py:132 | a name, tabs and a value split back into that name and that value |
| Items.TabbedLineClean | felo_rating.py:135 | a name, tabs and a value without `#` is its own cleaned form |
| Items.ParseItemsFrom | felo_rating.py:108-148 | reading items only adds keys, ends no earlier than it started, and fails only with a "name <TAB> value" error on a line it has read |
| Items.ParseItemsStopsAtBoundary | felo_rating.py:133-138 | the section read ends just after the first boundary line, or at the end of the file |
| Items.ParseItemsErrorLine | felo_rating.py:139-141 | an error names the first line, before any boundary line, that is neither blank once cleaned nor an item |
| Items.ParseItems | felo_rating.py:108-148 | the loop of `parse_items` returns what `ParseItemsFrom` describes |
| Items.ParseItemsOfWritten | felo_rating.py:130-147 | a run of written item lines is read back as exactly the pairs it was written from, in order |
| Items.ReadWrittenItem | felo_rating.py:130-147 | reading one written item line adds its name with the coerced value |
| Items.FencerOfItem | felo_rating.py:657-670 | an integer or float item is the initial rating; text without `(` is an invalid rating; the only errors are an invalid rating and an invalid foreign rating |
| Items.FencerOfRatingWithWeighting | felo_rating.py:661-669 | the text "R (w)" gives the fencer with initial rating R and initial total weighting w |
| Items.FencersOfItems | felo_rating.py:657-670 | the loop succeeds exactly when every item gives a fencer, fails with one of the items' errors otherwise, and files each fencer under its own name |
| ParameterSection.NameInjective | felo_rating.py:591-607 | no two parameters share a name |
| ParameterSection.Name | felo_rating.py:591-607 | the English name of each of the 17 parameters; NameInjective proves that no two parameters share one |
| ParameterSection.ParameterOf | felo_rating.py:610-617 | a name stands for the parameter of that name, or for none |
| ParameterSection.ParameterOfName | felo_rating.py:610-617 | reading a parameter's name gives that parameter back |
| ParameterSection.KnownParameters | felo_rating.py:608-617 | the loop succeeds exactly when every name is a parameter name, keeps every value under its parameter, and otherwise reports an unknown name from the section |
| ParameterSection.Settings | felo_rating.py:619-655 | every parameter has a value: the given one, or its default |
| ParameterSection.Default | felo_rating.py:619-655 | the default of each parameter, on a system other than Windows; DefaultEngineParameters proves the numbers the engine then reads: 25, 2400, 32, 40, 15, 1200, 10, 0.001 and 1.0 |
| ParameterSection.EngineParameters | felo_rating.py:619-627 | the engine's parameters exist exactly when each one it reads is a number, and then each field is that number |
| ParameterSection.EngineParametersOf | felo_rating.py:619-627 | settings that hold the numbers of some parameters give exactly those parameters |
| ParameterSection.DefaultEngineParameters | felo_rating.py:619-627 | a file that sets no parameter rates with 25, 2400, 32, 40, 15, 1200, 10, 0.001 and 1.0 |
| BoutSection.Register | felo_rating.py:549-558 | a known fencer is kept; an unknown name without `<` is a line error; an unknown name with `<` becomes a new foreign fencer; no other fencer changes |
| BoutSection.ReadBout | felo_rating.py:538-569 | the checks and the conversion of one matched bout line, in the source's order; ReadBoutOk, ReadBoutFencers, ReadBoutPointsAbove, ReadBoutUnknownFencer and ReadBoutNoDate state each outcome |
| BoutSection.CheckBout | felo_rating.py:538-569 | the body that ReadBout delays: too many points, then an unknown first or second fencer, then a missing date, then an invalid date; otherwise the bout is appended with the line's date or the last one |
| BoutSection.ParseBoutsFrom | felo_rating.py:529-570 | `parse_bouts` from line `i` on: blank lines are skipped, an unmatched line is an error at its 1-based number, and the section runs to the end of the file; ParseBoutsSound and ParseBoutsErrorLine state what it returns |
| BoutSection.ReadBoutOk | felo_rating.py:538-569 | an accepted line appends one bout with the line's names and points; its winning points follow the token; a missing index is 0; the date is the line's, or else the last one read; the points fit |
| BoutSection.ReadBoutFencers | felo_rating.py:549-558 | after one line both names are known, earlier fencers are unchanged, and any new fencer is foreign |
| BoutSection.ReadBoutPointsAbove | felo_rating.py:547-548 | points above the winning points of a bout that is not a relay bout are checked first, and are an error exactly then |
| BoutSection.ReadBoutUnknownFencer | felo_rating.py:549-558 | then an unknown first fencer, then an unknown second one, is an error |
| BoutSection.ReadBoutNoDate | felo_rating.py:561-567 | a line without a date is an error exactly when no earlier line had one |
| BoutSection.ParseBouts | felo_rating.py:499-570 | the loop of `parse_bouts` returns the bouts and fencers `ParseBoutsFrom` describes, or its error |
| BoutSection.ReadBoutSound | felo_rating.py:538-569 | one line keeps what has been read sound |
| BoutSection.ParseBoutsSound | felo_rating.py:529-570 | reading the section keeps the initial fencers, adds only foreign fencers, and gives bouts between known fencers with valid dates and fitting points |
| BoutSection.ParseBoutsErrorLine | felo_rating.py:529-570 | an error names a line of the section |
| BoutSection.ParsedBouts | felo_rating.py:499-570 | the section read is ready for the engine: every bout's fencers are known, and every bout's winning points follow from its score column |
| FeloFile.GivenParameters | felo_rating.py:609-618 | the parameters the file gives are exactly those whose names appear, with their values |
| FeloFile.ParseFeloFile | felo_rating.py:572-673 | an error in the parameter section or an unknown parameter name is reported as such; otherwise the parameters get their defaults and the engine's numbers are read from them, and the rest of the file is read as `ReadsRest` describes |
| FeloFile.ReadRest | felo_rating.py:657-673 | an error in the initial ratings is reported; an item that gives no fencer makes the result an error that one of them raises; otherwise the fencers come from their items under their own names, and the bouts and the extended dictionary are what `ParseBoutsFrom` reads with them, or its error |
| WriteBack.LessIrreflexive | felo_rating.py:785 | no name sorts before itself |
| WriteBack.LessAsymmetric | felo_rating.py:785 | two names never sort before each other |
| WriteBack.LessTransitive | felo_rating.py:785 | the order of names is transitive |
| WriteBack.LessTotal | felo_rating.py:785 | of two different names one sorts first |
| WriteBack.Less | felo_rating.py:785 | Python's order on strings, character by character with a proper prefix first; LessIrreflexive, LessAsymmetric, LessTransitive and LessTotal prove it a strict total order |
| WriteBack.NameOrder | felo_rating.py:784-785 | the sorted names are strictly increasing and are exactly the keys |
| WriteBack.NameOrderUnique | felo_rating.py:784-785 | there is only one increasing order of a set of names |
| WriteBack.BoundariesBelowAreBoundaries | felo_rating.py:774-778 | every line number collected is that of a boundary line |
| WriteBack.BoundariesBelowIncrease | felo_rating.py:774-778 | the numbers are collected in increasing order |
| WriteBack.BoundariesBelowComplete | felo_rating.py:774-778 | no boundary line is missed |
| WriteBack.TwoBoundaries | felo_rating.py:779-780 | with exactly two boundary lines, they are the only ones, the first before the second |
| WriteBack.BoundaryIsNotIntro | felo_rating.py:782 | a boundary line never counts as a comment or blank line opening the section |
| WriteBack.IntroIsBlank | felo_rating.py:782 | an opening line is blank once cleaned |
| WriteBack.IsIntroLine | felo_rating.py:782 | a line that is blank or whose first non-blank character is `#` opens the fencers section; IntroIsBlank proves it cleans to nothing |
| WriteBack.AfterIntro | felo_rating.py:781-783 | the section starts after the first boundary and the comment and blank lines that follow it, before the second boundary |
| WriteBack.FindBoundaries | felo_rating.py:774-778 | the loop collects exactly the boundary lines |
| WriteBack.SkipIntro | felo_rating.py:782-783 | the while loop stops where `AfterIntro` says |
| WriteBack.FencerLineIsItemLine | felo_rating.py:786-794 | a fencer line is the item line of the shown name and the rating text |
| WriteBack.ShownName | felo_rating.py:787-790 | the written name: in parentheses for a hidden fencer, as it is otherwise |
| WriteBack.RatingText | felo_rating.py:791-793 | the text after the tabs: `str` of the initial rating, then ` (w)` with the initial total weighting by `%g` unless it is 0 |
| WriteBack.FencerLine | felo_rating.py:786-794 | one fencer line: the shown name padded to the third tab stop, then the rating text; FencerLineIsItemLine and FencerLineNoBreak state its form, and ReadBackFencer proves that its name and rating text, read back as an item, give the fencer the constructor builds from the shown name, initial rating and initial total weighting |
| WriteBack.FencerLines | felo_rating.py:784-795 | the fencer lines in the order of the names; FencerLinesAt proves that line k is the line of the k-th name |
| WriteBack.FencerLinesAt | felo_rating.py:786-794 | line k is the line of the k-th name |
| WriteBack.WriteFencerLines | felo_rating.py:784-795 | the loop writes one line per fencer in name order |
| WriteBack.NewLines | felo_rating.py:796 | the new file has the kept lines, the fencer lines, a blank line, and the lines from the second boundary on |
| WriteBack.WriteBackFencers | felo_rating.py:750-796 | an error exactly when there are not two boundary lines; otherwise the section between the opening lines and the second boundary is replaced by the fencers in name order, and the file ends with a newline |
| WriteBack.FencerLineNoBreak | felo_rating.py:786-794 | a writable fencer's line holds no line break |
| WriteBack.RewrittenLines | felo_rating.py:796 | the written file splits back into the new lines |
| WriteBack.Rewritten | felo_rating.py:796 | the new file: the lines up to the last opening line after the first boundary, the fencer lines and a blank line, then everything from the second boundary on, each ended by a newline; RewrittenLines and RewrittenSplits state how its lines split back |
| WriteBack.RewrittenSplits | felo_rating.py:796 | the same, for the lines of writable fencers |
| WriteBack.FencerLinesWritten | felo_rating.py:786-794 | the lines of writable fencers are the item lines of their names and rating texts |
| WriteBack.SkipBlankLines | felo_rating.py:131-133 | reading items across lines that clean to nothing changes nothing |
| WriteBack.SkipIntroLines | felo_rating.py:782 | reading items skips the opening lines that are kept |
| WriteBack.BlankThenBoundary | felo_rating.py:795-796 | the blank line and the second boundary end the section read |
| WriteBack.ReadWrittenSection | felo_rating.py:781-796 | reading from the first boundary on returns exactly the written pairs and stops after the second boundary |
| WriteBack.ReadBackSection | felo_rating.py:773-796 | reading the rewritten section with `parse_items` returns exactly the written fencers' names and rating texts, and stops after the second boundary |
| WriteBack.ReadBackFencer | felo_rating.py:786-794 | a written fencer line, read as an initial-ratings item, gives the fencer created from the shown name, initial rating and initial total weighting |
| WriteBack.NewFencerAgain | felo_rating.py:948-952 | a fencer written back under its shown name and created again is the same fencer |

## Left out

- The wxPython program felo.py and GoogleSheetsManager.py: a GUI and network calls.
- The plots of `calculate_felo_ratings` (felo_rating.py:1098-1132, 1153-1220): temporary files, the clock and external programs.
- `write_felo_file` and `write_back_fencers_to_file` (felo_rating.py:694-748, 798-824): they are file I/O. Only the bout line of `write_felo_file` (felo_rating.py:740-746) is modelled. Its parameter sort at felo_rating.py:714 uses a comparator that returns a boolean.
- `prognosticate_bout` (felo_rating.py:1248-1285): it reads auf*.dat files from disk.
- The command-line program at the end of felo_rating.py (felo_rating.py:1289-1363).
- gettext: translated parameter names are taken to be the English names.
- Bouts.CompareAsWritten: the comparator is modelled, but `bouts.sort()` (felo_rating.py:735, 1167) is not. The engine rates the bouts in the order it is given. With the comparator as written, that order is whatever the sort happens to produce.
- Rating.Reported: the result is a set of names. The descending sort of the visible fencers (felo_rating.py:1183, 1014-1016) is not modelled.
- The setter of `date_string` (felo_rating.py:208-217): it calls a pattern object and cannot run.
- Floating point: ratings and weightings are real numbers, and rounding is not modelled.
- `felo_rating` (`int(round(...))`, felo_rating.py:990-991) is not modelled. Only `felo_rating_exact` is read by the engine.
- Python's `10 ** x`, `float(s)`, `str` of a float and `"%g"` are parameters. Only the properties listed above are required of them.
- The regular expressions of `parse_items` and `parse_bouts` (felo_rating.py:132, 523-527):
  - The item pattern is written out as a function on a cleaned line.
  - The bout pattern's groups are a parameter `matchLine`.
  - Only the score column of the bout pattern is modelled as text.
- `str` and `int` work on ASCII digits only. Python would also accept other Unicode digits.
- Items.FencerOfItem: the "R (w)" branch (felo_rating.py:661-668) is taken for every text value. This is what Python 2 does for a byte string. For a unicode string, `isinstance(..., str)` is false and the text would reach the `Fencer` constructor.
- FeloFile.ParseFeloFile: the engine's parameters must be numbers, and one given as text is refused with `ParameterNotANumber`. The source accepts such a file and computes with it. Under Python 2 every number orders below every string, so the parameters that are only compared never raise: `threshold bootstrapping` (felo_rating.py:1176), `5 point bouts for estimate` (982), `felo rating top fencers` (996) and `5 point bouts freshmen` (1007). The others fail only once arithmetic reaches a text value: the k factors (491-492), `weighting team bout` (448) and `minimal felo rating` (995, then 474). Modelling values that are sometimes numbers and sometimes text, and Python 2's ordering between them, would put a mixed type into every rating formula for inputs the file format does not intend.
- ParameterSection.KnownParameters: a file with several unknown parameter names reports one of them, and the model does not say which. The source reports the first in dictionary order.
- Dictionary order: the source iterates over dictionaries in an unspecified order. Where the order can change the outcome, the model takes it as a parameter. This is the case for the convergence test of the bootstrapping loop (felo_rating.py:1175-1179), which stops at the first fencer that moved and so may never compute a later fencer's estimate: `Rating.Check`, `Rating.Cycles` and the engine methods take the order `order` in which the `fencers` dictionary yields its fencers. Elsewhere the model picks an arbitrary element at each step, and its contracts hold for every order. Of two initial-ratings items that give the same fencer name, either may win, and a file with several bad initial ratings reports one of their errors.
- `os.name == 'nt'` path defaults (felo_rating.py:636-651): the defaults of the other branch (felo_rating.py:653-655) are used. `groupname` and `output folder` are parameters of the model, because they come from the file name.
- WriteBack.ReadBackFencer: a fencer with a non-integer initial rating and a non-zero initial total weighting is excluded. Its line "R (w)" with a float R cannot be read back, because `int()` refuses the float text. Names that hold a tab, a `#` or a line break, or that start with a boundary character, are excluded through `Writable`: such lines do not read back as the same item.
- WriteBack.Less: Python 2 compares unicode strings by code unit. The model compares by character, which is the same for characters in the Basic Multilingual Plane.
