/** Question records and the per-level question pools (app.js, `state.pools`).
    A pool is a one-shot queue: a draw removes its front question. */
module Pool {

  /** Highest difficulty level; levels are 1..MaxLevel. */
  const MaxLevel: int := 5

  datatype Option<T> = None | Some(value: T)

  /** One multiple-choice problem as loaded from a level file. */
  datatype Question = Question(question: string, choices: seq<string>, correctIndex: int)

  /** `pools[l - 1]` is the queue of remaining questions of level `l`. */
  type Pools = seq<seq<Question>>

  predicate WellFormed(pools: Pools)
  {
    |pools| == MaxLevel
  }

  /** Level `level` exists and still has a question to draw. */
  predicate Available(pools: Pools, level: int)
    requires WellFormed(pools)
  {
    1 <= level <= MaxLevel && |pools[level - 1]| > 0
  }

  /** No level has a question left. */
  predicate Exhausted(pools: Pools)
    requires WellFormed(pools)
  {
    forall l :: 1 <= l <= MaxLevel ==> !Available(pools, l)
  }

  /** Number of questions left over all levels (the `available` count of `startQuiz`). */
  function Size(pools: Pools): nat
  {
    if pools == [] then 0 else |pools[0]| + Size(pools[1..])
  }

  /** Replacing one level's queue changes the total by the difference in length. */
  lemma {:induction false} SizeUpdate(pools: Pools, i: int, q: seq<Question>)
    requires 0 <= i < |pools|
    ensures Size(pools[i := q]) == Size(pools) - |pools[i]| + |q|
  {
    if i > 0 {
      assert pools[i := q][1..] == pools[1..][i - 1 := q];
      SizeUpdate(pools[1..], i - 1, q);
    } else {
      assert pools[i := q][1..] == pools[1..];
    }
  }

  /** A positive total means some level can still be drawn from. */
  lemma {:induction false} SizePositiveNotExhausted(pools: Pools)
    requires WellFormed(pools)
    ensures Size(pools) > 0 <==> !Exhausted(pools)
  {
    SizeZero(pools);
    if Size(pools) > 0 {
      var i :| 0 <= i < |pools| && |pools[i]| != 0;
      assert Available(pools, i + 1);
    } else {
      forall l | 1 <= l <= MaxLevel ensures !Available(pools, l) {
        assert |pools[l - 1]| == 0;
      }
    }
  }

  /** A sequence of queues has total size zero exactly when every queue is empty. */
  lemma {:induction false} SizeZero(pools: Pools)
    ensures Size(pools) == 0 <==> forall i :: 0 <= i < |pools| ==> |pools[i]| == 0
  {
    if pools != [] {
      SizeZero(pools[1..]);
      assert forall i :: 1 <= i < |pools| ==> pools[i] == pools[1..][i - 1];
    }
  }

  /** The draw of `getNextQuestion`: the front question of `level` is removed
      (`shift()`), every other level is left as it was. */
  function Shift(pools: Pools, level: int): (rest: Pools)
    requires WellFormed(pools) && Available(pools, level)
    ensures WellFormed(rest)
    ensures rest[level - 1] == pools[level - 1][1..]
    ensures forall i :: 0 <= i < MaxLevel && i != level - 1 ==> rest[i] == pools[i]
    ensures Size(rest) == Size(pools) - 1
  {
    SizeUpdate(pools, level - 1, pools[level - 1][1..]);
    pools[level - 1 := pools[level - 1][1..]]
  }
}
