/**
 * How many apps one cycle adds and removes.
 *
 * The worker caps each count by the batch size the way Go code usually
 * does, by starting from `BatchSize` and lowering it when the other bound is
 * smaller. Neither count is clamped at zero: a pool that is already over its
 * target gives a negative addition count, and it is the `for j := 0; j < n`
 * loop that turns that into no deploy at all.
 */
module Capacity {

  /** `n` of the add phase: `BatchSize`, lowered to `PoolSize - len(current)`. */
  function AddCount(batchSize: int, poolSize: int, currentCount: nat): (n: int)
    ensures n <= batchSize && n <= poolSize - currentCount
    ensures n == batchSize || n == poolSize - currentCount
  {
    var deficit := poolSize - currentCount;
    if batchSize > deficit then deficit else batchSize
  }

  /** `n` of the remove phase: `BatchSize`, lowered to `len(other)`. */
  function RemoveCount(batchSize: int, otherCount: nat): (n: int)
    ensures n <= batchSize && n <= otherCount
    ensures n == batchSize || n == otherCount
    ensures batchSize >= 0 ==> 0 <= n
  {
    if batchSize > otherCount then otherCount else batchSize
  }

  /** How many times `for j := 0; j < n; j++` runs its body. */
  function Iterations(n: int): nat {
    if n > 0 then n else 0
  }

  /**
   * The planner's formula for additions, saturating at zero:
   * `min(batchSize, max(0, poolSize - currentCount))`.
   */
  function AdditionsNeeded(batchSize: int, poolSize: int, currentCount: nat): int {
    var deficit := if poolSize > currentCount then poolSize - currentCount else 0;
    if batchSize < deficit then batchSize else deficit
  }

  /**
   * The number of deploys one add phase launches is
   * `max(0, min(BatchSize, PoolSize - len(current)))`.
   */
  lemma DeploysLaunched(batchSize: int, poolSize: int, currentCount: nat)
    ensures var k := Iterations(AddCount(batchSize, poolSize, currentCount));
      && (k == 0 <==> batchSize <= 0 || currentCount >= poolSize)
      && (k > 0 ==> k == batchSize || k == poolSize - currentCount)
  {
  }

  /**
   * A full pool gets no deploy; otherwise no more deploys than the batch
   * size and never more than the deficit.
   */
  lemma DeploysBounded(batchSize: int, poolSize: int, currentCount: nat)
    ensures var k := Iterations(AddCount(batchSize, poolSize, currentCount));
      && (currentCount >= poolSize ==> k == 0)
      && (currentCount < poolSize ==> k <= poolSize - currentCount)
      && (batchSize >= 0 ==> k <= batchSize)
      && (batchSize < 0 ==> k == 0)
  {
  }

  /**
   * For a non-negative batch size, the deploys launched are exactly the
   * planner's saturating formula; a negative batch size launches none where
   * the formula would go negative.
   */
  lemma DeploysMatchPlanner(batchSize: int, poolSize: int, currentCount: nat)
    ensures batchSize >= 0 ==>
      Iterations(AddCount(batchSize, poolSize, currentCount)) == AdditionsNeeded(batchSize, poolSize, currentCount)
    ensures batchSize < 0 ==>
      Iterations(AddCount(batchSize, poolSize, currentCount)) == 0 &&
      AdditionsNeeded(batchSize, poolSize, currentCount) == batchSize
  {
  }

  /**
   * The removal count is `min(BatchSize, len(other))`; for a non-negative
   * batch size it is a valid slice bound of the outdated apps.
   */
  lemma RemovalsBounded(batchSize: int, otherCount: nat)
    requires batchSize >= 0
    ensures var n := RemoveCount(batchSize, otherCount);
      && 0 <= n <= otherCount && n <= batchSize
      && (otherCount == 0 ==> n == 0)
      && (n < batchSize ==> n == otherCount)
  {
  }
}
