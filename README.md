# Adaptive quiz engine: selection and scoring core

A Dafny model of the adaptive question-selection and scoring engine of a
calculus practice quiz (`app.js`). A chapter holds five pools of questions,
one per difficulty level 1..5. The engine serves questions one at a time.
Questions 1 to 3 aim at the preset difficulties 2, 3 and 4. From question 4
on, it aims at the rounded mean of `difficulty ± 1` over all answers so far.
When the aimed-at level is empty, it falls back to the nearest non-empty
level, lower first. It keeps a per-level tally of right and wrong answers and
a running score that counts only from question 4 on.

Modules, one per component:

- `Pool` (`pool.dfy`): question records, the five per-level queues, their
  total size and the one-shot draw (`Shift`).
- `Scoring` (`scoring.dfy`): answer entries, the per-level tally, the scored
  subset (positions 4 and later) and the average as an exact quotient.
- `Selector` (`selector.dfy`): `clamp`, level resolution (the
  `nearestAvailableLevel` loop, proved against the declarative "nearest
  non-empty level, lower wins ties"), the adaptive score loop, `Math.round`
  and the target difficulty.
- `Session` (`session.dfy`): the global `state` object as the class
  `QuizSession`, with the question-count settlement of `startQuiz` and the
  handlers `getNextQuestion`, `onChoose`, `forceWrongIfSkipped`, `nextStep`
  and the Next button as methods.

The object invariant `QuizSession.Valid()` states that the tally is exactly
the tally of the answer log. It also states that `scoreCounted` and
`scoreSum` are the count and the points of the entries recorded at position
4 or later. Entries are recorded at strictly increasing positions, so each
position records at most once. A ghost field `positions` holds the position
of each entry. `Supplied()` states that the pools hold enough questions for
every remaining position. `StartQuiz` establishes it, because the total is
cut to the available count. `NextStep` keeps it. So a started session never
runs dry before `totalQuestions` questions have been served.

`Math.round(sum / n)` is modelled exactly as `(2 * sum + n) / (2 * n)`.
Dafny's `/` with a positive divisor rounds down, and `Math.round(x)` is
`floor(x + 0.5)`, so this holds for every sign of `sum`.

Behaviour of the code that the model keeps as written:

- `loadPools` keeps each level file's question order; no pool is shuffled.
- With zero available questions, `startQuiz` ends in `renderQuestion(null)`,
  which throws. The session does not end cleanly. The model makes this a
  precondition of `StartQuiz` (`Size(loaded) > 0`).
- After the result screen is shown, nothing in the handlers refuses further
  events; only the hidden quiz screen does. The model's `complete` flag
  records that the result was shown and does not guard the handlers.
- Completion is tested as `currentIndex >= totalQuestions`, not `==`.

## Model

| member | source | states |
|---|---|---|
| `Selector.Clamp` | app.js:58 | the result is `n` inside `[lo, hi]`, `lo` below it and `hi` above it, and `lo` whenever `hi < lo` |
| `Selector.SearchFrom` | app.js:63-68 | when no level closer than `step` is available, the outward search finds the nearest available level (lower wins ties), and returns None exactly when every level is empty |
| `Selector.NearestLevel` | app.js:60-69 | level resolution returns None exactly when all five pools are empty; otherwise a non-empty level at minimal distance from the clamped target, the lower of two equally close ones; the clamped target itself when its pool is non-empty |
| `Selector.NearestLevelUnique` | app.js:60-69 | at most one level is nearest with the lower tie-break, so the property fixes the result |
| `Selector.NearestFallbackExample` | app.js:63-67 | with only level 3 non-empty and target 1, resolution yields level 3 |
| `Selector.NearestAvailableLevel` | app.js:60-69 | the radius loop with early returns computes exactly `NearestLevel` |
| `Selector.Term` | app.js:75 | the contribution of one answer: above its level exactly when correct (level + 1, else level - 1), and in 0..6 for a level in 1..5 |
| `Selector.AdaptiveSum` | app.js:73-76 | the sum of the terms over the log in log order; bounded by `AdaptiveSumBounds` |
| `Selector.MeanScore` | app.js:71-78 | the value `computeAdaptiveScore` returns, as a quotient with a positive denominator: the sum over the log length, or 3 for an empty log; it lies in 0..6 when every level is in 1..5 |
| `Selector.ComputeAdaptiveScore` | app.js:71-78 | the accumulation loop returns the exact mean of `difficulty ± 1` over the log, and 3 for an empty log |
| `Selector.AdaptiveSumBounds` | app.js:74-76 | with every level in 1..5, each term is in 0..6, so the sum is in `0..6 * n` |
| `Selector.RoundHalfUp` | app.js:178 | `Math.round` of the exact quotient, `(2 * num + den) div (2 * den)`; characterised by `RoundHalfUpNearest` |
| `Selector.RoundHalfUpNearest` | app.js:178 | `RoundHalfUp` gives the integer nearest to `num / den`, with halves rounded up (`Math.round`) |
| `Selector.RoundHalfUpMonotone` | app.js:178 | rounding is monotone in the numerator |
| `Selector.RoundHalfUpUnique` | app.js:178 | only one integer meets the rounding bounds |
| `Selector.RoundedScoreBounds` | app.js:177-179 | with every recorded level in 1..5, the rounded adaptive score lies in 0..6, so clamping only lifts 0 and lowers 6 |
| `Selector.TargetDifficulty` | app.js:172-180 | the target is in 1..5; at positions 1..3 it is 2, 3, 4; later it is 3 for an empty log |
| `Selector.TargetIsRoundedMean` | app.js:176-180 | from position 4 on, an inner target is the level nearest to the mean term (halves up); target 1 means the mean is below 1.5, target 5 means it is at least 4.5 |
| `Pool.Size` | app.js:314 | the `available` count: the total number of questions over the five queues; characterised by `SizeZero` and `SizeUpdate` |
| `Pool.SizeUpdate` | app.js:314 | replacing one level's queue changes the available count by the difference in length |
| `Pool.SizeZero` | app.js:314 | the available count is zero exactly when every queue is empty |
| `Pool.SizePositiveNotExhausted` | app.js:181-182 | a positive available count means some level can be drawn from, and the converse |
| `Pool.Shift` | app.js:184-185 | a draw removes the front question of exactly one level, leaves the others unchanged, and lowers the available count by one |
| `Scoring.TallyOf` | app.js:18-24 | the tally of a log has one count pair per level |
| `Scoring.Bumped` | app.js:206-209 | a bumped tally still has one count pair per level |
| `Scoring.TallyOfEmpty` | app.js:323 | an empty log has the all-zero tally that `startQuiz` installs |
| `Scoring.TallyOfAppend` | app.js:204-210 | appending an entry bumps exactly the counter of its level and outcome |
| `Scoring.TallySumBumped` | app.js:206-209 | a bump adds exactly one to the sum of the tally |
| `Scoring.TallyMatchesLog` | app.js:204-210 | the tally's counts add up to the length of the log |
| `Scoring.ScoredSumBounds` | app.js:212-215 | the score sum lies between 0 and 5 times the number of counted questions |
| `Scoring.ScoringExample` | app.js:212-215 | entries (2, right), (3, wrong), (4, right) at positions 4..6 give sum 6 over 3 counted questions |
| `Scoring.AverageScore` | app.js:80-82 | the average is `scoreSum / scoreCounted` as a quotient, 0 when nothing is counted, and lies in 0..5 when the sum is within bounds |
| `Scoring.ConsistentEmpty` | app.js:321-324 | the reset accumulators agree with the empty log |
| `Scoring.RecordKeepsConsistent` | app.js:203-215 | recording one entry, with its tally bump and scoring update, keeps the accumulators in agreement with the log |
| `Session.StartTotal` | app.js:309-315 | the total is the smaller of the available count and the request clamped to 15..100 (20 when not a number): never above either, equal to one of them |
| `Session.StartTotalExamples` | app.js:309-315 | 20 available: request 15 gives 15, request 50 gives 20; other clamping cases |
| `Session.QuizSession.constructor` | app.js:8-25 | the initial state: 20 questions, index 0, difficulty 2, empty log, zero tally and score |
| `Session.QuizSession.TallyTotal` | app.js:18-24 | the tally counts add up to the number of answered or skipped questions |
| `Session.QuizSession.ScoredEntries` | app.js:212-215 | `scoreCounted` is the number of entries recorded at position 4 or later, and bounds `scoreSum / 5` |
| `Session.QuizSession.Average` | app.js:80-82 | the live average is `scoreSum / scoreCounted` (0 when nothing counts) and lies in 0..5 |
| `Session.QuizSession.GetNextQuestion` | app.js:172-187 | draws from the level that `NearestLevel` gives for the position's target and sets `currentDifficulty` to it, or changes nothing when every pool is empty |
| `Session.QuizSession.Record` | app.js:203-215 | appends one entry at the current level, bumps one tally counter, and updates the score only from position 4 |
| `Session.QuizSession.OnChoose` | app.js:198-216 | ignored without a current question or once resolved; otherwise records the choice as right exactly when it equals the correct index |
| `Session.QuizSession.ForceWrongIfSkipped` | app.js:218-230 | ignored when already resolved or without a current question; otherwise records one wrong entry that counts without adding points |
| `Session.QuizSession.NextStep` | app.js:232-246 | completes at the last position; otherwise advances the index and draws, completing early only when every pool is empty; in a supplied session it always draws |
| `Session.QuizSession.Advance` | app.js:237-246 | before the last position: moves to the next position and draws there exactly as `NearestLevel` prescribes for its target, completing only when every pool is empty; keeps a supplied session supplied and showing a question |
| `Session.QuizSession.ShowNext` | app.js:239-245 | at an unanswered position: shows the question `NearestLevel` selects for the position's target and leaves it unresolved, or shows the result with no current question when every pool is empty; the log and tally are unchanged |
| `Session.QuizSession.Next` | app.js:334 | the Next button: an unresolved question is recorded once as wrong (counted from position 4, no points), then the session completes at the last position or moves on and draws the question `NearestLevel` selects for the new position's target over the updated log; total and chapter unchanged, the tally still matches the log |
| `Session.QuizSession.Reset` | app.js:317-324 | the reset of `startQuiz`, from any state whose current difficulty is a level: loaded pools, settled total, index 1, zeroed accumulators, and the object invariant holds again |
| `Session.QuizSession.StartQuiz` | app.js:307-331 | settles the total, resets the state and draws the first question at the preset target 2, leaving a supplied session |
| `Session.RecordOncePerPosition` | app.js:219-220 | recording at an unresolved position keeps positions strictly increasing |
| `Session.AdvanceOncePerPosition` | app.js:237 | moving to the next position leaves it unresolved with no entry yet |
| `Session.IncreasingDistinct` | app.js:219-220 | strictly increasing positions are pairwise distinct: no position is recorded twice |
| `Session.ScoredCountIsCardinality` | app.js:212-215 | the counted number equals the number of log entries at position 4 or later |

## Left out

- DOM access, screen switching, KaTeX rendering, the confetti, shake and pulse animations and the Chart.js plot: presentation only. The disabled answer buttons and the coloured-button test of `forceWrongIfSkipped` are the explicit `resolved` flag.
- `loadChapters` and `loadPools`: asynchronous fetches of JSON files. The loaded pools are a parameter of `StartQuiz`.
- Reading the chapter select and the count input: the chapter key is a parameter, and `parseInt` of the input is an `Option<int>` where None stands for NaN.
- The `localStorage` history, `Date` and `toLocaleString`: persistence and formatting.
- `toFixed(2)` and the float division of `averageScoreText`: the average is the exact quotient `Ratio(scoreSum, scoreCounted)`.
- `Math.random` in the confetti: not part of the engine.
- `state.answer = []` in `startQuiz`: it writes a field nothing reads.
- `Session.QuizSession.StartQuiz`: requires at least one available question, because the code throws in `renderQuestion(null)` otherwise.
- The QuestionRecord shape (four choices, correct index in 0..3) is a property of the data files, which the code does not check. The model does not assume it. The one place it matters is the skip test: `forceWrongIfSkipped` (app.js:219) detects an answered question by a coloured button, and `markChoiceButtons` (app.js:192) colours the button at `correctIndex`, so a question whose `correctIndex` names no rendered choice would count as skipped again after a skip. The model's `resolved` flag is set by every recording, so it stands for well-formed records. No user can see the difference, because the Next button always re-renders the quiz or leaves the quiz screen right after the skip.
