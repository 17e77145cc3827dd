/** The answer log, the per-level tally and the scored subset (app.js, `onChoose`,
    `forceWrongIfSkipped`, `averageScoreText`). */
module Scoring {
  import opened Pool

  /** First 1-based position whose answer counts towards the score. */
  const ScoreFrom: int := 4

  /** One answered or skipped question: the level it was drawn from and the outcome. */
  datatype Entry = Entry(difficulty: int, correct: bool)

  /** Correct and wrong counts of one level. */
  datatype Count = Count(correct: nat, wrong: nat)

  /** An exact quotient `num / den`, `den > 0`, for the engine's float divisions. */
  datatype Ratio = Ratio(num: int, den: int)

  /** Every entry was drawn from a level in 1..MaxLevel. */
  predicate LevelsInRange(answered: seq<Entry>)
  {
    forall i :: 0 <= i < |answered| ==> 1 <= answered[i].difficulty <= MaxLevel
  }

  /** Number of entries at `level` with outcome `correct`. */
  function Occurrences(answered: seq<Entry>, level: int, correct: bool): nat
  {
    if answered == [] then 0
    else
      var last := answered[|answered| - 1];
      Occurrences(answered[..|answered| - 1], level, correct)
        + (if last.difficulty == level && last.correct == correct then 1 else 0)
  }

  /** The tally a log determines: `t[l - 1]` counts the entries of level `l`. */
  function TallyOf(answered: seq<Entry>): (t: seq<Count>)
    ensures |t| == MaxLevel
  {
    seq(MaxLevel, i => Count(Occurrences(answered, i + 1, true), Occurrences(answered, i + 1, false)))
  }

  /** The tally of a fresh session (`startQuiz`). */
  const EmptyTally: seq<Count> := [Count(0, 0), Count(0, 0), Count(0, 0), Count(0, 0), Count(0, 0)]

  /** `tally[diff].correct++` or `tally[diff].wrong++`. */
  function Bumped(tally: seq<Count>, level: int, correct: bool): (t: seq<Count>)
    requires |tally| == MaxLevel && 1 <= level <= MaxLevel
    ensures |t| == MaxLevel
  {
    var c := tally[level - 1];
    tally[level - 1 := if correct then Count(c.correct + 1, c.wrong) else Count(c.correct, c.wrong + 1)]
  }

  function Total(c: Count): nat
  {
    c.correct + c.wrong
  }

  /** Sum of all counts of a tally. */
  function TallySum(tally: seq<Count>): nat
    requires |tally| == MaxLevel
  {
    Total(tally[0]) + Total(tally[1]) + Total(tally[2]) + Total(tally[3]) + Total(tally[4])
  }

  lemma TallyOfEmpty()
    ensures TallyOf([]) == EmptyTally
  {
  }

  /** Appending one entry bumps exactly the counter of its level and outcome. */
  lemma TallyOfAppend(answered: seq<Entry>, e: Entry)
    requires 1 <= e.difficulty <= MaxLevel
    ensures TallyOf(answered + [e]) == Bumped(TallyOf(answered), e.difficulty, e.correct)
  {
    var s := answered + [e];
    assert s[..|s| - 1] == answered;
  }

  /** A bump adds exactly one to the sum of the tally. */
  lemma TallySumBumped(tally: seq<Count>, level: int, correct: bool)
    requires |tally| == MaxLevel && 1 <= level <= MaxLevel
    ensures TallySum(Bumped(tally, level, correct)) == TallySum(tally) + 1
  {
  }

  /** The tally of a log accounts for every entry: its counts add up to the log's length. */
  lemma {:induction false} TallyMatchesLog(answered: seq<Entry>)
    requires LevelsInRange(answered)
    ensures TallySum(TallyOf(answered)) == |answered|
  {
    if answered == [] {
      TallyOfEmpty();
    } else {
      var init, last := answered[..|answered| - 1], answered[|answered| - 1];
      assert answered == init + [last];
      TallyMatchesLog(init);
      TallyOfAppend(init, last);
      TallySumBumped(TallyOf(init), last.difficulty, last.correct);
    }
  }

  /** Number of entries recorded at a position of ScoreFrom or later (`scoreCounted`). */
  function ScoredCount(positions: seq<int>): nat
  {
    if positions == [] then 0
    else ScoredCount(positions[..|positions| - 1]) + (if positions[|positions| - 1] >= ScoreFrom then 1 else 0)
  }

  /** Points of the scored entries: the difficulty of each correct one (`scoreSum`). */
  function ScoredSum(answered: seq<Entry>, positions: seq<int>): int
    requires |answered| == |positions|
  {
    if answered == [] then 0
    else
      var n := |answered| - 1;
      ScoredSum(answered[..n], positions[..n])
        + (if positions[n] >= ScoreFrom && answered[n].correct then answered[n].difficulty else 0)
  }

  /** Each scored entry earns between 0 and MaxLevel points. */
  lemma {:induction false} ScoredSumBounds(answered: seq<Entry>, positions: seq<int>)
    requires |answered| == |positions| && LevelsInRange(answered)
    ensures 0 <= ScoredSum(answered, positions) <= MaxLevel * ScoredCount(positions)
  {
    if answered != [] {
      var n := |answered| - 1;
      assert LevelsInRange(answered[..n]);
      ScoredSumBounds(answered[..n], positions[..n]);
      assert positions[..n] == positions[..|positions| - 1];
    }
  }

  /** The average score `scoreSum / scoreCounted`, 0 while nothing is counted. */
  function AverageScore(scoreSum: int, scoreCounted: int): (avg: Ratio)
    ensures avg.den > 0
    ensures scoreCounted <= 0 ==> avg.num == 0
    ensures scoreCounted > 0 ==> avg.num * scoreCounted == scoreSum * avg.den
    ensures 0 <= scoreSum <= MaxLevel * scoreCounted ==> 0 <= avg.num <= MaxLevel * avg.den
  {
    if scoreCounted > 0 then Ratio(scoreSum, scoreCounted) else Ratio(0, 1)
  }

  /** Entries (2, correct), (3, wrong), (4, correct) at positions 4, 5, 6 score 2 + 0 + 4 = 6
      points over 3 counted questions: an average of 2. */
  lemma ScoringExample()
    ensures var answered := [Entry(2, true), Entry(3, false), Entry(4, true)];
      var positions := [4, 5, 6];
      ScoredSum(answered, positions) == 6 && ScoredCount(positions) == 3 &&
      AverageScore(6, 3) == Ratio(6, 3)
  {
    var answered := [Entry(2, true), Entry(3, false), Entry(4, true)];
    var positions := [4, 5, 6];
    assert answered[..2] == [Entry(2, true), Entry(3, false)] && answered[..2][..1] == [Entry(2, true)];
    assert positions[..2] == [4, 5] && positions[..2][..1] == [4];
    assert ScoredSum([Entry(2, true)], [4]) == 2 && ScoredCount([4]) == 1;
    assert ScoredSum(answered[..2], positions[..2]) == 2 && ScoredCount(positions[..2]) == 2;
  }

  /** The accumulators agree with the log: `tally` counts it, `scoreCounted` and `scoreSum`
      cover the entries recorded at positions ScoreFrom and later. */
  ghost predicate Consistent(answered: seq<Entry>, positions: seq<int>, tally: seq<Count>,
                             scoreSum: int, scoreCounted: int)
  {
    |positions| == |answered| &&
    LevelsInRange(answered) &&
    tally == TallyOf(answered) &&
    scoreCounted == ScoredCount(positions) &&
    scoreSum == ScoredSum(answered, positions)
  }

  /** A fresh session's accumulators agree with its empty log. */
  lemma ConsistentEmpty()
    ensures Consistent([], [], EmptyTally, 0, 0)
  {
    TallyOfEmpty();
  }

  /** Recording entry `e` at position `pos` the way `onChoose` does keeps the accumulators
      consistent with the log. */
  lemma RecordKeepsConsistent(answered: seq<Entry>, positions: seq<int>, tally: seq<Count>,
                              scoreSum: int, scoreCounted: int, e: Entry, pos: int)
    requires Consistent(answered, positions, tally, scoreSum, scoreCounted)
    requires 1 <= e.difficulty <= MaxLevel
    ensures Consistent(answered + [e], positions + [pos], Bumped(tally, e.difficulty, e.correct),
                       scoreSum + (if pos >= ScoreFrom && e.correct then e.difficulty else 0),
                       scoreCounted + (if pos >= ScoreFrom then 1 else 0))
  {
    TallyOfAppend(answered, e);
    var n := |answered|;
    assert (answered + [e])[..n] == answered;
    assert (positions + [pos])[..n] == positions;
  }
}
