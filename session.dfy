/** The session controller and tracker: the global `state` object of app.js and the
    handlers that update it (`startQuiz`, `getNextQuestion`, `onChoose`,
    `forceWrongIfSkipped`, `nextStep` and the Next button). */
module Session {
  import opened Pool
  import opened Scoring
  import opened Selector

  /** Question count used when the requested count is not a number. */
  const DefaultCount: int := 20
  /** Bounds the requested question count is clamped to. */
  const MinCount: int := 15
  const MaxCount: int := 100

  /** The question count `startQuiz` settles on: the request (DefaultCount when it is not
      a number) clamped to MinCount..MaxCount, then cut down to what the pools hold. */
  function StartTotal(requested: Option<int>, available: int): (total: int)
    ensures var asked := Clamp(if requested.Some? then requested.value else DefaultCount, MinCount, MaxCount);
      total <= available && total <= asked && (total == available || total == asked)
    ensures total <= MaxCount
    ensures available >= MinCount ==> total >= MinCount
  {
    var asked := Clamp(if requested.Some? then requested.value else DefaultCount, MinCount, MaxCount);
    if asked > available then available else asked
  }

  /** 20 questions available: a request for 15 gives 15, one for 50 is cut to 20, and a
      request that is not a number asks for DefaultCount. */
  lemma StartTotalExamples()
    ensures StartTotal(Some(15), 20) == 15 && StartTotal(Some(50), 20) == 20
    ensures StartTotal(Some(3), 100) == MinCount && StartTotal(Some(500), 200) == MaxCount
    ensures StartTotal(None, 100) == DefaultCount
  {
  }

  class QuizSession {
    var chapterKey: Option<string>
    var totalQuestions: int
    var pools: Pools
    /** 1-based position of the current question; 0 before the first start. */
    var currentIndex: int
    var currentQuestion: Option<Question>
    var currentDifficulty: int
    var answered: seq<Entry>
    var scoreSum: int
    var scoreCounted: int
    var tally: seq<Count>
    /** The current question has been answered or skipped (its buttons are coloured and disabled). */
    var resolved: bool
    /** The result screen has been shown. */
    var complete: bool
    /** The position each entry of `answered` was recorded at. */
    ghost var positions: seq<int>

    ghost predicate Valid()
      reads this
    {
      WellFormed(pools) &&
      1 <= currentDifficulty <= MaxLevel &&
      0 <= currentIndex <= totalQuestions &&
      (currentQuestion.Some? ==> 1 <= currentIndex) &&
      OncePerPosition(positions, currentIndex, resolved) &&
      Consistent(answered, positions, tally, scoreSum, scoreCounted)
    }

    /** The pools still hold a question for every position up to totalQuestions. */
    ghost predicate Supplied()
      reads this
      requires WellFormed(pools)
    {
      1 <= currentIndex && Size(pools) >= totalQuestions - currentIndex
    }

    /** The initial `state` object. */
    constructor ()
      ensures Valid()
      ensures chapterKey == None && totalQuestions == DefaultCount && currentIndex == 0
      ensures pools == [[], [], [], [], []] && currentQuestion == None && currentDifficulty == 2
      ensures answered == [] && scoreSum == 0 && scoreCounted == 0 && tally == EmptyTally
      ensures !resolved && !complete
    {
      chapterKey := None;
      totalQuestions := DefaultCount;
      pools := [[], [], [], [], []];
      currentIndex := 0;
      currentQuestion := None;
      currentDifficulty := 2;
      answered := [];
      scoreSum := 0;
      scoreCounted := 0;
      tally := EmptyTally;
      resolved := false;
      complete := false;
      positions := [];
      ConsistentEmpty();
    }

    /** Sum of the tally's counts, the number of answered or skipped questions. */
    function TallyTotal(): (n: nat)
      reads this
      requires Valid()
      ensures n == |answered|
    {
      TallyMatchesLog(answered);
      TallySum(tally)
    }

    /** Number of entries with a position at or past ScoreFrom. */
    function ScoredEntries(): (n: nat)
      reads this
      requires Valid()
      ensures n == |set i | 0 <= i < |answered| && positions[i] >= ScoreFrom|
      ensures scoreSum <= MaxLevel * n
    {
      ScoredSumBounds(answered, positions);
      ScoredCountIsCardinality(positions);
      scoreCounted
    }

    /** `averageScoreText` without the formatting: the live average as a quotient. */
    function Average(): (avg: Ratio)
      reads this
      requires Valid()
      ensures avg.den > 0 && 0 <= avg.num <= MaxLevel * avg.den
      ensures scoreCounted == 0 ==> avg.num == 0
      ensures scoreCounted > 0 ==> avg == Ratio(scoreSum, scoreCounted)
    {
      ScoredSumBounds(answered, positions);
      AverageScore(scoreSum, scoreCounted)
    }

    /** `getNextQuestion`: aim at the preset or adaptive target, resolve the level,
        and draw that level's front question. */
    method GetNextQuestion() returns (q: Option<Question>)
      requires WellFormed(pools) && 1 <= currentIndex
      modifies this`pools, this`currentDifficulty
      ensures WellFormed(pools)
      ensures q.None? ==> currentDifficulty == old(currentDifficulty)
      ensures q.Some? ==> 1 <= currentDifficulty <= MaxLevel
      ensures var level := NearestLevel(old(pools), TargetDifficulty(currentIndex, answered));
        (level.None? ==> q == None && pools == old(pools) && currentDifficulty == old(currentDifficulty)) &&
        (level.Some? ==> q == Some(old(pools)[level.value - 1][0]) && pools == Shift(old(pools), level.value)
                         && currentDifficulty == level.value)
      ensures q.Some? <==> !Exhausted(old(pools))
      ensures q.Some? ==> Size(pools) == Size(old(pools)) - 1
    {
      var difficulty: int;
      if currentIndex <= |PresetFirst| {
        difficulty := PresetFirst[currentIndex - 1];
      } else {
        var adaptive := ComputeAdaptiveScore(answered);
        difficulty := RoundHalfUp(adaptive.num, adaptive.den);
        difficulty := Clamp(difficulty, 1, MaxLevel);
      }
      var level := NearestAvailableLevel(pools, difficulty);
      if level.None? {
        return None;
      }
      currentDifficulty := level.value;
      q := Some(pools[level.value - 1][0]);
      pools := Shift(pools, level.value);
    }

    /** Marks the current question resolved and records its outcome: the shared part of
        `onChoose` and `forceWrongIfSkipped`. */
    method Record(correct: bool)
      requires Valid() && !resolved && 1 <= currentIndex
      modifies this
      ensures Valid() && resolved
      ensures answered == old(answered) + [Entry(currentDifficulty, correct)]
      ensures tally == Bumped(old(tally), currentDifficulty, correct)
      ensures scoreCounted == old(scoreCounted) + (if currentIndex >= ScoreFrom then 1 else 0)
      ensures scoreSum == old(scoreSum) + (if currentIndex >= ScoreFrom && correct then currentDifficulty else 0)
      ensures positions == old(positions) + [currentIndex]
      ensures chapterKey == old(chapterKey) && totalQuestions == old(totalQuestions) && pools == old(pools)
      ensures currentIndex == old(currentIndex) && currentQuestion == old(currentQuestion)
      ensures currentDifficulty == old(currentDifficulty) && complete == old(complete)
    {
      var e := Entry(currentDifficulty, correct);
      RecordKeepsConsistent(answered, positions, tally, scoreSum, scoreCounted, e, currentIndex);
      RecordOncePerPosition(positions, currentIndex);
      resolved := true;
      answered := answered + [e];
      positions := positions + [currentIndex];
      tally := Bumped(tally, currentDifficulty, correct);
      if currentIndex >= ScoreFrom {
        if correct {
          scoreSum := scoreSum + currentDifficulty;
        }
        scoreCounted := scoreCounted + 1;
      }
    }

    /** `onChoose`: answering the current question with choice `choice`. Ignored when there
        is no current question or it is already resolved (its buttons are disabled). */
    method OnChoose(choice: int)
      requires Valid()
      modifies this
      ensures Valid()
      ensures old(currentQuestion.None? || resolved) ==> unchanged(this)
      ensures old(currentQuestion.Some? && !resolved) ==>
        var correct := choice == old(currentQuestion).value.correctIndex;
        resolved &&
        answered == old(answered) + [Entry(currentDifficulty, correct)] &&
        tally == Bumped(old(tally), currentDifficulty, correct) &&
        scoreCounted == old(scoreCounted) + (if currentIndex >= ScoreFrom then 1 else 0) &&
        scoreSum == old(scoreSum) + (if currentIndex >= ScoreFrom && correct then currentDifficulty else 0) &&
        pools == old(pools) && currentIndex == old(currentIndex) && currentDifficulty == old(currentDifficulty) &&
        totalQuestions == old(totalQuestions) && currentQuestion == old(currentQuestion) && complete == old(complete) &&
        chapterKey == old(chapterKey)
    {
      if currentQuestion.None? || resolved {
        return;
      }
      var correct := choice == currentQuestion.value.correctIndex;
      Record(correct);
    }

    /** `forceWrongIfSkipped`: a question left unanswered is recorded once, as wrong. */
    method ForceWrongIfSkipped()
      requires Valid()
      modifies this
      ensures Valid()
      ensures old(currentQuestion.None? || resolved) ==> unchanged(this)
      ensures old(currentQuestion.Some? && !resolved) ==>
        resolved &&
        answered == old(answered) + [Entry(currentDifficulty, false)] &&
        tally == Bumped(old(tally), currentDifficulty, false) &&
        scoreCounted == old(scoreCounted) + (if currentIndex >= ScoreFrom then 1 else 0) &&
        scoreSum == old(scoreSum) &&
        pools == old(pools) && currentIndex == old(currentIndex) && currentDifficulty == old(currentDifficulty) &&
        totalQuestions == old(totalQuestions) && currentQuestion == old(currentQuestion) && complete == old(complete) &&
        chapterKey == old(chapterKey)
    {
      if !resolved && currentQuestion.Some? {
        Record(false);
      }
    }

    /** `nextStep`: show the result once the last position is reached, otherwise move to
        the next position and draw; show the result early if nothing can be drawn. */
    method NextStep()
      requires Valid()
      modifies this
      ensures Valid()
      ensures answered == old(answered) && tally == old(tally)
      ensures scoreSum == old(scoreSum) && scoreCounted == old(scoreCounted)
      ensures totalQuestions == old(totalQuestions) && chapterKey == old(chapterKey)
      ensures old(currentIndex) >= old(totalQuestions) ==>
        complete && currentIndex == old(currentIndex) && pools == old(pools) &&
        currentQuestion == old(currentQuestion) && currentDifficulty == old(currentDifficulty) &&
        resolved == old(resolved)
      ensures old(currentIndex) < old(totalQuestions) ==>
        currentIndex == old(currentIndex) + 1 &&
        var level := NearestLevel(old(pools), TargetDifficulty(currentIndex, answered));
        (level.None? ==> complete && currentQuestion == None && pools == old(pools) &&
                         currentDifficulty == old(currentDifficulty) && resolved == old(resolved)) &&
        (level.Some? ==> !resolved && complete == old(complete) && currentDifficulty == level.value &&
                         currentQuestion == Some(old(pools)[level.value - 1][0]) &&
                         pools == Shift(old(pools), level.value))
      ensures old(Supplied()) && old(currentIndex) < old(totalQuestions) ==>
        Supplied() && currentQuestion.Some? && complete == old(complete)
    {
      if currentIndex >= totalQuestions {
        complete := true;
      } else {
        Advance();
      }
    }

    /** The rest of `nextStep` before the last position: move on one position and draw. */
    method Advance()
      requires Valid() && currentIndex < totalQuestions
      modifies this
      ensures Valid()
      ensures answered == old(answered) && tally == old(tally)
      ensures scoreSum == old(scoreSum) && scoreCounted == old(scoreCounted)
      ensures totalQuestions == old(totalQuestions) && chapterKey == old(chapterKey)
      ensures currentIndex == old(currentIndex) + 1
      ensures var level := NearestLevel(old(pools), TargetDifficulty(currentIndex, answered));
        (level.None? ==> complete && currentQuestion == None && pools == old(pools) &&
                         currentDifficulty == old(currentDifficulty) && resolved == old(resolved)) &&
        (level.Some? ==> !resolved && complete == old(complete) && currentDifficulty == level.value &&
                         currentQuestion == Some(old(pools)[level.value - 1][0]) &&
                         pools == Shift(old(pools), level.value))
      ensures old(Supplied()) ==> Supplied() && currentQuestion.Some? && complete == old(complete)
    {
      AdvanceOncePerPosition(positions, currentIndex, resolved);
      currentIndex := currentIndex + 1;
      ShowNext();
    }

    /** Draws the question of the current, still unanswered position and shows it, or shows
        the result when nothing can be drawn. */
    method ShowNext()
      requires Valid() && 1 <= currentIndex && OncePerPosition(positions, currentIndex, false)
      modifies this
      ensures Valid()
      ensures answered == old(answered) && tally == old(tally) && positions == old(positions)
      ensures scoreSum == old(scoreSum) && scoreCounted == old(scoreCounted)
      ensures totalQuestions == old(totalQuestions) && chapterKey == old(chapterKey)
      ensures currentIndex == old(currentIndex)
      ensures var level := NearestLevel(old(pools), TargetDifficulty(currentIndex, answered));
        (level.None? ==> complete && currentQuestion == None && pools == old(pools) &&
                         currentDifficulty == old(currentDifficulty) && resolved == old(resolved)) &&
        (level.Some? ==> !resolved && complete == old(complete) && currentDifficulty == level.value &&
                         currentQuestion == Some(old(pools)[level.value - 1][0]) &&
                         pools == Shift(old(pools), level.value))
      ensures Size(old(pools)) >= totalQuestions - currentIndex + 1 ==>
        Supplied() && currentQuestion.Some? && complete == old(complete)
    {
      if Size(pools) > 0 {
        SizePositiveNotExhausted(pools);
      }
      var q := GetNextQuestion();
      currentQuestion := q;
      if q.None? {
        complete := true;
      } else {
        resolved := false;
      }
    }

    /** The Next button: force-record a skipped question, then `nextStep`. */
    method Next()
      requires Valid()
      modifies this
      ensures Valid()
      ensures var skipped := old(currentQuestion.Some? && !resolved);
        answered == old(answered) + (if skipped then [Entry(old(currentDifficulty), false)] else []) &&
        tally == (if skipped then Bumped(old(tally), old(currentDifficulty), false) else old(tally)) &&
        scoreCounted == old(scoreCounted) + (if skipped && old(currentIndex) >= ScoreFrom then 1 else 0) &&
        scoreSum == old(scoreSum)
      ensures TallySum(tally) == |answered|
      ensures totalQuestions == old(totalQuestions) && chapterKey == old(chapterKey)
      ensures old(currentIndex) >= old(totalQuestions) ==>
        complete && currentIndex == old(currentIndex) && pools == old(pools) &&
        currentQuestion == old(currentQuestion) && currentDifficulty == old(currentDifficulty) &&
        resolved == old(resolved || currentQuestion.Some?)
      ensures old(currentIndex) < old(totalQuestions) ==>
        currentIndex == old(currentIndex) + 1 &&
        var level := NearestLevel(old(pools), TargetDifficulty(currentIndex, answered));
        (level.None? ==> complete && currentQuestion == None && pools == old(pools) &&
                         currentDifficulty == old(currentDifficulty) && resolved == old(resolved || currentQuestion.Some?)) &&
        (level.Some? ==> !resolved && complete == old(complete) && currentDifficulty == level.value &&
                         currentQuestion == Some(old(pools)[level.value - 1][0]) &&
                         pools == Shift(old(pools), level.value))
      ensures old(Supplied()) && old(currentIndex) < old(totalQuestions) ==>
        Supplied() && currentQuestion.Some? && !resolved && complete == old(complete)
    {
      ForceWrongIfSkipped();
      NextStep();
      TallyMatchesLog(answered);
    }

    /** The reset part of `startQuiz`: the loaded pools and settled count in place, every
        accumulator back to zero, position 1 not yet resolved. */
    method Reset(key: string, loaded: Pools, total: int)
      requires 1 <= currentDifficulty <= MaxLevel && WellFormed(loaded) && 1 <= total
      modifies this
      ensures Valid()
      ensures chapterKey == Some(key) && totalQuestions == total && pools == loaded
      ensures currentIndex == 1 && answered == [] && tally == EmptyTally
      ensures scoreSum == 0 && scoreCounted == 0 && !resolved && !complete
      ensures currentDifficulty == old(currentDifficulty) && currentQuestion == old(currentQuestion)
    {
      ConsistentEmpty();
      pools := loaded;
      chapterKey := Some(key);
      totalQuestions := total;
      currentIndex := 1;
      scoreSum := 0;
      scoreCounted := 0;
      tally := EmptyTally;
      answered := [];
      positions := [];
      resolved := false;
      complete := false;
    }

    /** `startQuiz` once the pools of the chosen chapter are loaded: settle the question
        count, reset every accumulator and draw the first question (preset target). */
    method StartQuiz(key: string, loaded: Pools, requested: Option<int>)
      requires Valid()
      requires WellFormed(loaded) && Size(loaded) > 0
      modifies this
      ensures Valid() && Supplied()
      ensures chapterKey == Some(key) && totalQuestions == StartTotal(requested, Size(loaded))
      ensures currentIndex == 1 && answered == [] && tally == EmptyTally
      ensures scoreSum == 0 && scoreCounted == 0 && !resolved && !complete
      ensures var level := NearestLevel(loaded, PresetFirst[0]);
        level.Some? && currentDifficulty == level.value &&
        currentQuestion == Some(loaded[level.value - 1][0]) && pools == Shift(loaded, level.value)
    {
      var total := StartTotal(requested, Size(loaded));
      Reset(key, loaded, total);
      SizePositiveNotExhausted(loaded);
      currentQuestion := GetNextQuestion();
    }
  }

  /** Entries are recorded at strictly increasing positions in 1..index, so at most one per
      position; while the current question is unresolved none has been recorded at `index`. */
  ghost predicate OncePerPosition(positions: seq<int>, index: int, resolved: bool)
  {
    Increasing(positions) &&
    (positions != [] ==>
      1 <= positions[0] && positions[|positions| - 1] <= index &&
      (!resolved ==> positions[|positions| - 1] < index))
  }

  ghost predicate Increasing(s: seq<int>)
  {
    |s| <= 1 || (Increasing(s[..|s| - 1]) && s[|s| - 2] < s[|s| - 1])
  }

  /** Recording at an unresolved position `index` keeps one entry per position. */
  lemma RecordOncePerPosition(positions: seq<int>, index: int)
    requires 1 <= index && OncePerPosition(positions, index, false)
    ensures OncePerPosition(positions + [index], index, true)
  {
    assert (positions + [index])[..|positions|] == positions;
  }

  /** Moving on to a fresh position keeps one entry per position. */
  lemma AdvanceOncePerPosition(positions: seq<int>, index: int, resolved: bool)
    requires OncePerPosition(positions, index, resolved)
    ensures OncePerPosition(positions, index + 1, false)
  {
  }

  /** Positions strictly increase, so no two entries share a position. */
  lemma {:induction false} IncreasingDistinct(s: seq<int>, i: int, j: int)
    requires Increasing(s) && 0 <= i < j < |s|
    ensures s[i] < s[j]
  {
    var init := s[..|s| - 1];
    if j < |s| - 1 {
      IncreasingDistinct(init, i, j);
    } else if i < j - 1 {
      IncreasingDistinct(init, i, j - 1);
    }
  }

  /** ScoredCount counts exactly the positions at or past ScoreFrom. */
  lemma {:induction false} ScoredCountIsCardinality(positions: seq<int>)
    ensures ScoredCount(positions) == |set i | 0 <= i < |positions| && positions[i] >= ScoreFrom|
  {
    if positions != [] {
      var n := |positions| - 1;
      ScoredCountIsCardinality(positions[..n]);
      var before := set i | 0 <= i < n && positions[..n][i] >= ScoreFrom;
      var after := set i | 0 <= i < |positions| && positions[i] >= ScoreFrom;
      assert before == set i | 0 <= i < n && positions[i] >= ScoreFrom;
      if positions[n] >= ScoreFrom {
        assert after == before + {n};
      } else {
        assert after == before;
      }
    }
  }
}
