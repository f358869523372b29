# Number pairing: a verified model

The program looks for two non-negative numbers that add up to a given sum
(8 by default) and maximise the score |first − second| · first · second. It
searches coarse-to-fine. The first round scans [0, sum/2] at step sum/4. While
a round beats the best pairing found so far, the next round scans a narrower
interval around that round's best at a finer step. There are at most 40
rounds. The search also keeps every pairing equal under `==` to the best: the
same split, possibly with its two numbers swapped. A different split that only
has the same score is not kept with the best. When asked to, the search also
collects the "other" near-best pairings, which it reports sorted by descending
score and deduplicated.

Two Dafny modules, one per source file:

- `number_pairing.dfy` (module `Pairing`) models `NumberPairing`: the clamped
  value type, its derived quantities, and its three comparisons. These are
  exact and symmetric equality (`Equals`), the total order by score (`Cmp`),
  and near-equality within 1e-10 (`IsEquivalentTo`). The setters
  `set_first`/`set_second` change the stored number in place, so they are
  methods of the class `MutablePairing`. Each method's new state is stated
  through the pure `WithFirst`/`WithSecond`.
- `number_pairing_problem.dfy` (module `Problem`) models
  `NumberPairingProblem`. This covers `solve_with`, `solve_default`, `solve`,
  and the nested recursive `get_highest_result_of_seq` over the `SolveGlobals`
  record.
  - One round's `for` loop is the method `ScanRound`. It is proved equal to
    `RoundOf`, a fold of `RoundStep` over the indices the round visits.
  - The recursion is the method `GetHighestResultOfSeq`. It is proved equal to
    the function `Rounds`.
  - `Solve` is proved to store `AssembleResults(Solved(...))`.
  - The properties of the search are lemmas about these functions.

Every `f64` is an exact `real`. The fixed-point conversion of a round's
interval into scan indices is modelled on reals as the code writes it:
- `conversion = (1/precision) · 10^8`;
- `(x · conversion).round() as usize`: round half away from zero, with
  negatives saturating to 0;
- the scan indices are stepped by 10^8.

A zero step arises only for a zero sum. There the conversion is +∞, as in
IEEE arithmetic. A bound value of 0 times +∞ gives NaN, which casts to index
0. A positive bound value gives `usize::MAX`. Every index converted back to a
number gives 0.

Behaviour of note:
- The best list is empty whenever the first round's best is not greater
  than the zero pairing's score 0, or is within 1e-10 of it. The search then
  stops at once and never fills the best list. This happens for sum 0
  (`Problem.SolvedZeroSum`). It also happens for a positive sum whose every
  first-round score is below 1e-10, such as sum 0.001, where the best score
  3 · sum³ / 32 is about 9.4e-11. This is why `Problem.SolvedPositiveSum`
  assumes sum ≥ 1.
- The other list is non-increasing by score with no two equal neighbours.
  `dedup` drops an entry only when it equals the entry before it
  (`Problem.DedupKeepsFirstOfRuns`). Equal pairings that are not neighbours
  therefore both stay.
- The code writes the round count only in the round that stops the search:
  the one that fails to improve (src/defs/number_pairing_problem.rs:155-157,
  the stop branch of `Problem.Rounds`). When the 40-round cap is reached
  first, nothing writes it and `runs_to_solve` keeps its previous value.
  `Problem.SolvedValid` proves the resulting alternative: either
  `runs_to_solve` equals the final run count, or the run count is 40 and
  `runs_to_solve` is unchanged. It does not state which round stopped the
  search.
- Constants are not listed in the table below. `DefaultSum` models
  `default_sum()` (src/defs/number_pairing.rs:69) and `MinimumPrecision`
  models `minimum_precision()` (src/defs/number_pairing.rs:72). `MaxRuns`,
  `Multiplier` and `OtherPrecision` are the literals 40, 100_000_000 and 0.01
  of src/defs/number_pairing_problem.rs:94, 117 and 113.
- Every operation is total, for any sum. The properties that need it assume
  `sum >= 0` or `sum >= 1`.

## Model

| member | source | states |
|---|---|---|
| Pairing.Abs | src/defs/number_pairing.rs:64 | `abs` is non-negative and is the argument or its negation |
| Pairing.ValidateAndCorrectInput | src/defs/number_pairing.rs:63-66 | the corrected number is min(abs(x), sum): it is abs(x) or sum, is at most both, and is non-negative when sum ≥ 0 |
| Pairing.NumberPairing.First | src/defs/number_pairing.rs:18 | the stored number; `Valid` keeps it in [0, sum], and `New`, `WithFirst` and `WithSecond` state what it becomes |
| Pairing.NumberPairing.Second | src/defs/number_pairing.rs:23 | first + second == sum always |
| Pairing.NumberPairing.Difference | src/defs/number_pairing.rs:29 | the difference is non-negative and is first − second or second − first |
| Pairing.NumberPairing.Product | src/defs/number_pairing.rs:28 | first · second; non-negative for a clamped pairing (`ValidScoreNonNegative`) |
| Pairing.NumberPairing.Result | src/defs/number_pairing.rs:30 | the score, product · difference; non-negative when clamped (`ValidScoreNonNegative`), 0 for the zero pairing (`ZeroPairingScoresZero`), and what `Cmp` orders by |
| Pairing.NumberPairing.WithFirst | src/defs/number_pairing.rs:19-21 | setting the first number keeps the sum, stores the corrected request, and gives a valid pairing when sum ≥ 0 |
| Pairing.NumberPairing.WithSecond | src/defs/number_pairing.rs:24-26 | setting the second number keeps the sum, makes second() the corrected request, and gives a valid pairing when sum ≥ 0 |
| Pairing.NumberPairing.DifferenceFrom | src/defs/number_pairing.rs:46 | the value is the absolute difference of the two scores: non-negative, one score minus the other, and 0 exactly when the scores agree |
| Pairing.NumberPairing.IsEquivalentTo | src/defs/number_pairing.rs:50 | the scores differ by less than 1e-10; reflexive and symmetric (`EquivalentReflexiveSymmetric`), implied by `==` (`EqualsSameResult`), weaker than it (`EquivalentNotEquals`) |
| Pairing.NumberPairing.Equals | src/defs/number_pairing.rs:89-94 | same sum and the same split, directly or swapped; an equivalence (`EqualsReflexive`, `EqualsSymmetric`, `EqualsTransitive`) that keeps the score (`EqualsSameResult`) |
| Pairing.NumberPairing.Cmp | src/defs/number_pairing.rs:106-116 | Greater, Less and Equal each hold exactly when the score is greater, smaller or equal |
| Pairing.New | src/defs/number_pairing.rs:34-36 | `new` keeps the sum, stores the corrected request, and is valid when sum ≥ 0 |
| Pairing.Default | src/defs/number_pairing.rs:38-41 | `default` has sum 8, is valid, and stores the corrected request: a request in [0, 8] as it is, a negative one within 8 reflected, anything beyond 8 in absolute value capped at 8 |
| Pairing.ValidateAndCorrectIdempotent | src/defs/number_pairing.rs:63-66 | correcting twice is correcting once, so rebuilding a pairing from its own first number changes nothing |
| Pairing.NewKeepsValidFirst | src/defs/number_pairing.rs:34-36 | `new` of a valid pairing's own first number and sum rebuilds the same pairing |
| Pairing.ValidScoreNonNegative | src/defs/number_pairing.rs:28-30 | a clamped pairing has product, difference and score all ≥ 0 |
| Pairing.ZeroPairingScoresZero | src/defs/number_pairing.rs:28-30 | the pairing built from 0 scores 0 for every sum |
| Pairing.SwapSymmetric | src/defs/number_pairing.rs:89-94 | new(a, a+b) equals new(b, a+b), and each one's second number is the other's first |
| Pairing.EqualsReflexive | src/defs/number_pairing.rs:89-94 | every pairing equals itself |
| Pairing.EqualsSymmetric | src/defs/number_pairing.rs:89-94 | p == q exactly when q == p |
| Pairing.EqualsTransitive | src/defs/number_pairing.rs:89-94 | p == q and q == r give p == r |
| Pairing.EqualsSameResult | src/defs/number_pairing.rs:89-94 | equal pairings have the same score, so `cmp` gives Equal and they are equivalent; they are valid together |
| Pairing.CmpAntisymmetric | src/defs/number_pairing.rs:106-116 | swapping the operands of `cmp` reverses its answer |
| Pairing.CmpTransitive | src/defs/number_pairing.rs:106-116 | "not greater" is transitive |
| Pairing.EquivalentReflexiveSymmetric | src/defs/number_pairing.rs:46-50 | `is_equivalent_to` is reflexive and symmetric |
| Pairing.EquivalentNotEquals | src/defs/number_pairing.rs:48-50 | for every positive sum, the zero pairing and the even split are equivalent but not equal |
| Pairing.MutablePairing.constructor | src/defs/number_pairing.rs:34-36 | the new object holds `new(requested, sum)` |
| Pairing.MutablePairing.SetFirst | src/defs/number_pairing.rs:19-21 | `set_first` keeps the sum, makes first() the corrected request, and changes no other field |
| Pairing.MutablePairing.SetSecond | src/defs/number_pairing.rs:24-26 | `set_second` keeps the sum, makes second() the corrected request, and changes no other field |
| Problem.Conversion | src/defs/number_pairing_problem.rs:118 | the conversion has the sign of the step, and conversion · step == 10^8 |
| Problem.RoundToUsize | src/defs/number_pairing_problem.rs:119-120 | `round() as usize` is 0 for negatives and otherwise the nearest integer, halves rounded up |
| Problem.ToIndex | src/defs/number_pairing_problem.rs:119-120 | `(value · conversion).round() as usize`; for a zero step, 0 or `usize::MAX` by the sign of the value; round trips in `IndexRoundTrip` and `NumberRoundTrip` |
| Problem.FromIndex | src/defs/number_pairing_problem.rs:122 | `i as f64 / conversion`, and 0 for an infinite conversion; round trips in `IndexRoundTrip` and `NumberRoundTrip` |
| Problem.IndexRoundTrip | src/defs/number_pairing_problem.rs:119-122 | for a positive step, an index converted to a number and back is the same index |
| Problem.NumberRoundTrip | src/defs/number_pairing_problem.rs:119-122 | for a positive step, a non-negative number converted to an index and back moves by at most step / (2 · 10^8) |
| Problem.ScanIndices | src/defs/number_pairing_problem.rs:121 | `(lo..=hi).step_by(10^8)` stays within [lo, hi], and is empty exactly when lo > hi |
| Problem.ScanIndicesSpaced | src/defs/number_pairing_problem.rs:119-121 | the scan visits exactly lo + k · 10^8 for every k before the first such index that exceeds hi |
| Problem.RoundIndices | src/defs/number_pairing_problem.rs:119-121 | the inclusive range from `low_bound` to `high_bound` (each bound `ToIndex` of the interval end) stepped by 10^8; for the first round it is exactly three indices (`FirstRoundPoints`) |
| Problem.Candidate | src/defs/number_pairing_problem.rs:122-125 | each scanned pairing belongs to the problem's sum and is valid when sum ≥ 0 |
| Problem.FirstRoundPoints | src/defs/number_pairing_problem.rs:203 | for a positive sum, the first round visits exactly the numbers 0, sum/4 and sum/2 |
| Problem.QuarterScore | src/defs/number_pairing.rs:28-30 | the quarter split `new(sum/4, sum)` scores 3 · sum³ / 32 |
| Problem.CanBeAddedToOther | src/defs/number_pairing_problem.rs:112-114 | not equal to the zero pairing, step ≥ 0.01, and collecting; false for every pairing in a finer round (`NothingEligibleWhenFine`) |
| Problem.Eligible | src/defs/number_pairing_problem.rs:132-138 | a pairing is in the filtered list exactly when it is in the list and `can_be_added_to_other` admits it; order and multiplicity in `EligibleAppend`, `EligibleSingle` and `EligibleCounts` |
| Problem.EligibleCounts | src/defs/number_pairing_problem.rs:132-138 | every admitted pairing is kept as many times as it occurs, and no other pairing is kept |
| Problem.EligibleAppend | src/defs/number_pairing_problem.rs:132-138 | filtering a concatenation is concatenating the filtered parts, so the kept pairings stay in their order |
| Problem.EligibleSingle | src/defs/number_pairing_problem.rs:133-137 | a single pairing is kept exactly when `can_be_added_to_other` admits it |
| Problem.NothingEligibleWhenFine | src/defs/number_pairing_problem.rs:113 | a round finer than 0.01 admits nothing to the other list |
| Problem.PushEligible | src/defs/number_pairing_problem.rs:132-138 | every admitted pairing of the list is appended in order to the other list if there is one; an absent list stays absent |
| Problem.StepKept | src/defs/number_pairing_problem.rs:127-150 | one candidate keeps the round invariant, never lowers the round best, leaves it at least the candidate's score, and leaves it either the old best or the candidate |
| Problem.ScanKept | src/defs/number_pairing_problem.rs:121-151 | a whole scan keeps the round invariant and never lowers the round best |
| Problem.ScanBound | src/defs/number_pairing_problem.rs:121-151 | after a scan, no scanned pairing scores more than the round best |
| Problem.ScanAttained | src/defs/number_pairing_problem.rs:121-151 | after a scan, the round best is the starting best or one of the scanned pairings |
| Problem.StartState | src/defs/number_pairing_problem.rs:107-109 | a round's three locals at the start: the zero pairing as best, an empty tied list, and an empty other list exactly when collecting; it keeps the round invariant (`StartKept`) |
| Problem.StartKept | src/defs/number_pairing_problem.rs:107-109 | the start state of a round of a problem with sum ≥ 0 satisfies the round invariant |
| Problem.RoundStep | src/defs/number_pairing_problem.rs:127-150 | one pass of the loop body: a greater pairing takes over and the displaced tied pairings go to the other list when admitted, an equal one joins the tied list, any other admitted one goes to the other list; its properties are `StepKept` |
| Problem.ScanFrom | src/defs/number_pairing_problem.rs:121-151 | `RoundStep` over the indices in order; its properties are `ScanKept`, `ScanBound` and `ScanAttained` |
| Problem.RoundOf | src/defs/number_pairing_problem.rs:106-151 | the state one round ends in; its properties are `RoundKeptAtEnd`, `RoundBound` and `RoundAttained`, and `ScanRound` computes it |
| Problem.ScanRound | src/defs/number_pairing_problem.rs:106-151 | the loop's best, tied list and other list are exactly the fold of the round's steps over the visited indices |
| Problem.RoundKeptAtEnd | src/defs/number_pairing_problem.rs:106-151 | after a round: the best is at least the zero pairing; every tied entry equals it and has its score; a best above zero heads the tied list; the other list holds only admitted pairings scoring at most the best, and is present exactly when collecting |
| Problem.RoundBound | src/defs/number_pairing_problem.rs:127-151 | no pairing a round scans beats the round best |
| Problem.RoundAttained | src/defs/number_pairing_problem.rs:107-151 | the round best is the zero pairing or a pairing the round scanned |
| Problem.Refine | src/defs/number_pairing_problem.rs:179-195 | the next interval lies inside the current one and within ±step/2 of the target, each end being the old end or target ∓ step/2; the new step is step / (run_count · 4), strictly smaller with the same sign |
| Problem.InitialGlobals | src/defs/number_pairing_problem.rs:84-95 | the search starts at round 0 on [0, sum/2] from the zero pairing (score 0) with empty lists, the other list present exactly when collecting, and the whole state valid for sum ≥ 0 |
| Problem.Promote | src/defs/number_pairing_problem.rs:160-177 | the round best and its tied list take over, the displaced overall tied pairings join the round's other list when admitted, and that list is appended to the overall one; it keeps `Valid` (`PromoteValid`) |
| Problem.PromoteValid | src/defs/number_pairing_problem.rs:160-177 | taking over a round that beat the overall best keeps the state valid and the problem unchanged |
| Problem.EndsRecursion | src/defs/number_pairing_problem.rs:154 | the round best is not greater than the overall best, or is equivalent to it; while it fails, the best rises by at least 1e-10 (`RoundsImprove`) |
| Problem.Rounds | src/defs/number_pairing_problem.rs:100-199 | the state once the rounds stop or reach the cap; its properties are `RoundsValid`, `RoundsImprove`, `RoundsOther` and `RoundsBound`, and `GetHighestResultOfSeq` computes it |
| Problem.GetHighestResultOfSeq | src/defs/number_pairing_problem.rs:100-199 | the recursion returns exactly the state the rounds specify (`Rounds`) |
| Problem.RoundsValid | src/defs/number_pairing_problem.rs:103-157 | the rounds keep the state valid (run count ≤ 40) and the problem unchanged; the run count never decreases; either `runs_to_solve` equals the final run count, which is above the starting one, or the run count reached the cap of 40 and `runs_to_solve` is untouched |
| Problem.RoundsImprove | src/defs/number_pairing_problem.rs:154-163 | the overall best and its tied list stay as they are, or the overall best ends at least 1e-10 higher: it is only replaced by a greater, non-equivalent round best |
| Problem.RoundsOther | src/defs/number_pairing_problem.rs:164-177 | the overall other list is only appended to, and from a step below 0.01 on it no longer changes |
| Problem.RoundsBound | src/defs/number_pairing_problem.rs:127-163 | nothing the first of the rounds scans beats the final overall best by 1e-10 or more |
| Problem.InsertDescending | src/defs/number_pairing_problem.rs:214 | inserting into a list sorted by descending score keeps it sorted and adds exactly that pairing |
| Problem.SortDescending | src/defs/number_pairing_problem.rs:214 | `sort_unstable_by` with `b.cmp(a)` gives a permutation ordered by non-increasing score |
| Problem.DedupAfter | src/defs/number_pairing_problem.rs:215 | `dedup` after a kept entry keeps only entries of the list, none equal to its neighbour and the first not equal to the kept entry; exactly which entries it keeps is `DedupAfterMatchesPredecessor` |
| Problem.DedupAfterSorted | src/defs/number_pairing_problem.rs:215 | dropping duplicates keeps the order by descending score |
| Problem.DedupAfterComplete | src/defs/number_pairing_problem.rs:215 | every dropped entry equals the kept predecessor or a kept entry |
| Problem.Dedup | src/defs/number_pairing_problem.rs:215 | `dedup` keeps only entries of the list with no two equal neighbours, keeps a sorted list sorted, and keeps an equal of every entry; exactly which entries it keeps is `DedupKeepsFirstOfRuns` |
| Problem.KeepUnlikePredecessor | src/defs/number_pairing_problem.rs:215 | reference reading of `dedup`: an entry is dropped exactly when it equals the entry just before it in the input |
| Problem.DedupAfterCongruent | src/defs/number_pairing_problem.rs:215 | `dedup` after two equal kept entries gives the same list |
| Problem.DedupAfterMatchesPredecessor | src/defs/number_pairing_problem.rs:215 | comparing each entry with the last kept one, as `dedup` does, drops exactly the entries equal to their immediate predecessor |
| Problem.DedupKeepsFirstOfRuns | src/defs/number_pairing_problem.rs:215 | `dedup` keeps the first entry and each later entry exactly when it is not equal to the one before it; a list with no equal neighbours comes back unchanged, so only adjacent duplicates are removed |
| Problem.KeepDistinctNeighbours | src/defs/number_pairing_problem.rs:215 | with no two equal neighbours, nothing is dropped |
| Problem.SortAndDedup | src/defs/number_pairing_problem.rs:214-215 | the other list comes out non-increasing by score, with no equal neighbours, holding only collected pairings and an equal of each |
| Problem.AssembleResults | src/defs/number_pairing_problem.rs:205-226 | best is the overall best's score, the best list is the overall tied list, and the other list is present exactly when collected, sorted, deduplicated and covering every collected pairing |
| Problem.AssembledWellFormed | src/defs/number_pairing_problem.rs:205-226 | from a valid state: every reported best pairing has the reported score; every other pairing scores at most the best and is not the zero pairing; all pairings belong to the sum |
| Problem.SolvedValid | src/defs/number_pairing_problem.rs:84-226 | for sum ≥ 0 the search ends valid after 1 to 40 rounds; either `runs_to_solve` is the run count, or the run count is 40 and `runs_to_solve` keeps its previous value; the reported results are well formed |
| Problem.Solved | src/defs/number_pairing_problem.rs:84-203 | the state after the rounds that start from [0, sum/2] at step sum/4; its properties are the `Solved…` lemmas, and `Solve` stores its assembled results |
| Problem.SolvedBestOrNothing | src/defs/number_pairing_problem.rs:153-163 | the reported best is 0 or at least 1e-10, and the best list is empty exactly when the best is 0 |
| Problem.SolvedZeroSum | src/defs/number_pairing_problem.rs:153-157 | for sum 0 the best is 0 and no best pairing is reported |
| Problem.OnlyPairingOfZero | src/defs/number_pairing_problem.rs:52-54 | the only valid pairing of sum 0 is the zero pairing, which scores 0 |
| Problem.SolvedBeatsFirstRound | src/defs/number_pairing_problem.rs:203 | nothing the first round scans beats the reported best by 1e-10 or more |
| Problem.SolvedPositiveSum | src/defs/number_pairing_problem.rs:221 | for sum ≥ 1 the reported best is positive and at least one best pairing is reported |
| Problem.NumberPairingProblem.SolveWith | src/defs/number_pairing_problem.rs:30-38 | `solve_with` stores the sum, and the solved round count and results of a search started with `runs_to_solve` 0 |
| Problem.NumberPairingProblem.SolveDefault | src/defs/number_pairing_problem.rs:40-42 | `solve_default` is `solve_with(8, true)` |
| Problem.NumberPairingProblem.Solve | src/defs/number_pairing_problem.rs:51-227 | `solve` keeps the sum and stores the round count and the assembled results of the search from [0, sum/2] at step sum/4 |

## Left out

- IEEE-754 rounding: every `f64` is an exact real, so round-off in products, divisions and comparisons is not modelled, nor are NaN and infinities other than the infinite conversion of a zero step.
- Problem.RoundToUsize: an `as usize` cast of a finite value above `usize::MAX` saturates in the code; the model does not cap the index from above.
- Convergence to the analytic optimum (about 34.07 for sum 8) is a numerical claim about floating point and is not stated.
- The order `sort_unstable_by` leaves among pairings with equal scores is unspecified. `Problem.SortDescending` is one such order, and only "a permutation, non-increasing by score" is claimed about it. `dedup` runs after the sort, so which duplicates it removes also depends on that order. When two different splits have the same score, the exact other list `Solve` stores can therefore differ from the program's. Only the properties of `Problem.SortAndDedup` hold for every order.
- `run_count` and `runs_to_solve` are `u32` in the code; they are `nat` here, which makes no difference because the run count never exceeds 40.
- The problem's mutable reference inside `SolveGlobals` is replaced by the fields it reads and writes (`sum`, `runsToSolve`), and the record is passed and returned by value.
- `Display` for both types, `Hash` and `util::split_float_64` in src/defs/number_pairing.rs, src/util.rs (float formatting) and src/main.rs (the command line and printing): these are formatting, hashing and I/O.
- `Copy`/`Clone`: a Dafny datatype is a value already.
