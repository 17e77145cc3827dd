/** The adaptive selector (app.js: `clamp`, `nearestAvailableLevel`,
    `computeAdaptiveScore` and the target computation of `getNextQuestion`). */
module Selector {
  import opened Pool
  import opened Scoring

  /** Target difficulties of questions 1, 2 and 3 (`PRESET_FIRST`). */
  const PresetFirst: seq<int> := [2, 3, 4]

  /** Adaptive score used while nothing has been answered yet. */
  const DefaultScore: int := 3

  /** `Math.max(lo, Math.min(hi, n))`. */
  function Clamp(n: int, lo: int, hi: int): (r: int)
    ensures lo <= r
    ensures lo <= hi ==> r <= hi
    ensures lo <= n <= hi ==> r == n
    ensures n < lo ==> r == lo
    ensures lo <= hi < n ==> r == hi
    ensures hi < lo ==> r == lo
  {
    var m := if hi < n then hi else n;
    if m < lo then lo else m
  }

  function Dist(a: int, b: int): nat
  {
    if a <= b then b - a else a - b
  }

  /** `level` can be drawn from and no other such level is closer to `target`;
      of two equally close levels the lower one is meant. */
  predicate IsNearestLevel(pools: Pools, target: int, level: int)
    requires WellFormed(pools)
  {
    Available(pools, level) &&
    forall m :: 1 <= m <= MaxLevel && Available(pools, m) ==>
      Dist(level, target) < Dist(m, target) || (Dist(level, target) == Dist(m, target) && level <= m)
  }

  /** The outward search at radius `step`, `step + 1`, ... of `nearestAvailableLevel`,
      lower neighbour before higher one. */
  function SearchFrom(pools: Pools, target: int, step: int): (r: Option<int>)
    requires WellFormed(pools) && 1 <= target <= MaxLevel && 1 <= step
    requires forall m :: Available(pools, m) ==> Dist(m, target) >= step
    ensures r.None? <==> Exhausted(pools)
    ensures r.Some? ==> IsNearestLevel(pools, target, r.value)
    decreases MaxLevel + 1 - step
  {
    if step > MaxLevel then
      assert forall m :: 1 <= m <= MaxLevel ==> Dist(m, target) < step;
      None
    else if target - step >= 1 && Available(pools, target - step) then Some(target - step)
    else if target + step <= MaxLevel && Available(pools, target + step) then Some(target + step)
    else SearchFrom(pools, target, step + 1)
  }

  /** Level resolution: the clamped target itself if it has questions, otherwise the
      nearest non-empty level (lower wins ties); None only when every level is empty. */
  function NearestLevel(pools: Pools, target: int): (r: Option<int>)
    requires WellFormed(pools)
    ensures r.None? <==> Exhausted(pools)
    ensures r.Some? ==> IsNearestLevel(pools, Clamp(target, 1, MaxLevel), r.value)
    ensures Available(pools, Clamp(target, 1, MaxLevel)) ==> r == Some(Clamp(target, 1, MaxLevel))
  {
    var t := Clamp(target, 1, MaxLevel);
    if Available(pools, t) then Some(t) else SearchFrom(pools, t, 1)
  }

  /** At most one level satisfies IsNearestLevel, so NearestLevel is pinned down by it. */
  lemma NearestLevelUnique(pools: Pools, target: int, a: int, b: int)
    requires WellFormed(pools)
    requires IsNearestLevel(pools, target, a) && IsNearestLevel(pools, target, b)
    ensures a == b
  {
  }

  /** Target 1 while only level 3 holds a question: level 2 is empty and level 0 is out of
      bounds, so the search reaches level 3 at radius 2. */
  lemma NearestFallbackExample(q: Question)
    ensures NearestLevel([[], [], [q], [], []], 1) == Some(3)
  {
    var pools: Pools := [[], [], [q], [], []];
    var r := NearestLevel(pools, 1);
    assert Available(pools, 3);
    assert forall l :: 1 <= l <= MaxLevel && l != 3 ==> !Available(pools, l);
  }

  /** `nearestAvailableLevel`: the bounded `for step` loop. */
  method NearestAvailableLevel(pools: Pools, target: int) returns (r: Option<int>)
    requires WellFormed(pools)
    ensures r == NearestLevel(pools, target)
  {
    var t := Clamp(target, 1, MaxLevel);
    if Available(pools, t) {
      return Some(t);
    }
    var step := 1;
    while step <= MaxLevel
      invariant 1 <= step <= MaxLevel + 1
      invariant forall m :: Available(pools, m) ==> Dist(m, t) >= step
      invariant SearchFrom(pools, t, step) == NearestLevel(pools, target)
    {
      var lo, hi := t - step, t + step;
      if lo >= 1 && Available(pools, lo) {
        return Some(lo);
      }
      if hi <= MaxLevel && Available(pools, hi) {
        return Some(hi);
      }
      step := step + 1;
    }
    return None;
  }

  /** Contribution of one entry to the adaptive score: difficulty + 1 if correct, - 1 if not. */
  function Term(e: Entry): (t: int)
    ensures 1 <= e.difficulty <= MaxLevel ==> 0 <= t <= MaxLevel + 1
    ensures e.correct <==> t > e.difficulty
  {
    e.difficulty + (if e.correct then 1 else -1)
  }

  /** Sum of the terms of all entries, in log order. */
  function AdaptiveSum(answered: seq<Entry>): int
  {
    if answered == [] then 0
    else AdaptiveSum(answered[..|answered| - 1]) + Term(answered[|answered| - 1])
  }

  /** The adaptive score as an exact quotient: the mean term, or DefaultScore for an empty log. */
  function MeanScore(answered: seq<Entry>): (m: Ratio)
    ensures m.den > 0
    ensures LevelsInRange(answered) ==> 0 <= m.num <= (MaxLevel + 1) * m.den
  {
    if answered == [] then Ratio(DefaultScore, 1)
    else
      AdaptiveSumBounds(answered);
      Ratio(AdaptiveSum(answered), |answered|)
  }

  /** `computeAdaptiveScore`: the loop accumulating `sum` over `answered`. */
  method ComputeAdaptiveScore(answered: seq<Entry>) returns (score: Ratio)
    ensures score.den > 0
    ensures score == MeanScore(answered)
  {
    if |answered| == 0 {
      return Ratio(DefaultScore, 1);
    }
    var sum := 0;
    for i := 0 to |answered|
      invariant sum == AdaptiveSum(answered[..i])
    {
      assert answered[..i + 1][..i] == answered[..i];
      sum := sum + Term(answered[i]);
    }
    assert answered[..|answered|] == answered;
    return Ratio(sum, |answered|);
  }

  /** Every term lies in 0..MaxLevel + 1 when every level does, and so does the mean. */
  lemma {:induction false} AdaptiveSumBounds(answered: seq<Entry>)
    ensures LevelsInRange(answered) ==> 0 <= AdaptiveSum(answered) <= (MaxLevel + 1) * |answered|
  {
    if answered != [] && LevelsInRange(answered) {
      var n := |answered| - 1;
      assert LevelsInRange(answered[..n]);
      AdaptiveSumBounds(answered[..n]);
    }
  }

  /** `Math.round(num / den)`, that is `floor(num / den + 1/2)`. */
  function RoundHalfUp(num: int, den: int): int
    requires den > 0
  {
    (2 * num + den) / (2 * den)
  }

  /** RoundHalfUp gives the integer nearest to `num / den`, halves rounded up. */
  lemma RoundHalfUpNearest(num: int, den: int)
    requires den > 0
    ensures var r := RoundHalfUp(num, den); 2 * den * r <= 2 * num + den < 2 * den * (r + 1)
  {
  }

  /** Rounding is monotone in the numerator. */
  lemma RoundHalfUpMonotone(a: int, b: int, den: int)
    requires den > 0 && a <= b
    ensures RoundHalfUp(a, den) <= RoundHalfUp(b, den)
  {
    var ra, rb := RoundHalfUp(a, den), RoundHalfUp(b, den);
    RoundHalfUpNearest(a, den);
    RoundHalfUpNearest(b, den);
    if ra > rb {
      MulLe(2 * den, rb + 1, ra);
    }
  }

  lemma MulLe(c: int, x: int, y: int)
    requires c > 0 && x <= y
    ensures c * x <= c * y
  {
  }

  /** The rounded adaptive score of a log of in-range levels lies in 0..MaxLevel + 1,
      so clamping only ever moves 0 up to 1 and MaxLevel + 1 down to MaxLevel. */
  lemma RoundedScoreBounds(answered: seq<Entry>)
    requires LevelsInRange(answered)
    ensures 0 <= RoundHalfUp(MeanScore(answered).num, MeanScore(answered).den) <= MaxLevel + 1
  {
    if answered != [] {
      var n := |answered|;
      AdaptiveSumBounds(answered);
      RoundHalfUpMonotone(0, AdaptiveSum(answered), n);
      RoundHalfUpMonotone(AdaptiveSum(answered), (MaxLevel + 1) * n, n);
      assert RoundHalfUp((MaxLevel + 1) * n, n) == MaxLevel + 1 by {
        assert 2 * n * (MaxLevel + 1) <= 2 * ((MaxLevel + 1) * n) + n < 2 * n * (MaxLevel + 2);
        RoundHalfUpUnique((MaxLevel + 1) * n, n, MaxLevel + 1);
      }
    }
  }

  /** Only one integer satisfies the rounding bounds. */
  lemma RoundHalfUpUnique(num: int, den: int, k: int)
    requires den > 0
    requires 2 * den * k <= 2 * num + den < 2 * den * (k + 1)
    ensures RoundHalfUp(num, den) == k
  {
    var r := RoundHalfUp(num, den);
    RoundHalfUpNearest(num, den);
    if r < k {
      MulLe(2 * den, r + 1, k);
    } else if r > k {
      MulLe(2 * den, k + 1, r);
    }
  }

  /** The difficulty `getNextQuestion` aims at for the question at 1-based `index`. */
  function TargetDifficulty(index: int, answered: seq<Entry>): (d: int)
    requires 1 <= index
    ensures 1 <= d <= MaxLevel
    ensures index <= |PresetFirst| ==> d == PresetFirst[index - 1]
    ensures index > |PresetFirst| && answered == [] ==> d == DefaultScore
  {
    if index <= |PresetFirst| then PresetFirst[index - 1]
    else
      var score := MeanScore(answered);
      Clamp(RoundHalfUp(score.num, score.den), 1, MaxLevel)
  }

  /** From position |PresetFirst| + 1 on, the target is the level nearest to the mean
      term s / n of the log (halves rounded up), clamped to 1..MaxLevel. */
  lemma TargetIsRoundedMean(index: int, answered: seq<Entry>)
    requires |PresetFirst| < index && answered != []
    ensures var d, s, n := TargetDifficulty(index, answered), AdaptiveSum(answered), |answered|;
      (1 < d < MaxLevel ==> 2 * n * d <= 2 * s + n < 2 * n * (d + 1)) &&
      (d == 1 ==> 2 * s + n < 2 * n * 2) &&
      (d == MaxLevel ==> 2 * n * MaxLevel <= 2 * s + n)
  {
    var s, n := AdaptiveSum(answered), |answered|;
    var r := RoundHalfUp(s, n);
    RoundHalfUpNearest(s, n);
    if r < 1 {
      MulLe(2 * n, r + 1, 1);
    } else if r > MaxLevel {
      MulLe(2 * n, MaxLevel, r);
    }
  }
}
