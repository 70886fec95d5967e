/** How the three strategies cut the target list into batches. */
module DeploymentPlan {
  import opened HubTypes

  datatype Timing = Timing(
    timeout: nat,          // whole deployment
    instanceTimeout: nat,  // one instance
    leaseTimeout: nat,     // silence tolerated from an agent
    batchDelay: nat,       // pause between batches
    canaryDelay: nat       // canary validation period
  )

  const DEFAULT_TIMING := Timing(600 * SECOND, 300 * SECOND, 60 * SECOND, 30 * SECOND, 60 * SECOND)
  const POLL_INTERVAL: nat := 2 * SECOND

  datatype Config = Config(
    targets: seq<Id>,
    batchSize: int,
    strategy: Strategy,
    version: int,
    timing: Timing
  )

  /** The ranges of Go's `len` and `int`. */
  predicate WellTyped(c: Config) {
    |c.targets| <= MAX_INT && MIN_INT <= c.batchSize <= MAX_INT
  }

  /** One batch: positions [lo, hi) of the target list, and what surrounds it. */
  datatype Stage = Stage(
    lo: nat,
    hi: nat,
    position: int,          // batch position its events are announced with
    total: int,             // batch total they are announced with
    checksContext: bool,    // polls the context before it begins
    rollsBack: bool,        // its failure starts a rollback
    writesProgress: bool,   // its success writes progress to the row
    pause: Option<nat>,     // wait after it
    checksHealth: bool      // its members must still be completed after the wait
  )

  function EffectiveSize(batchSize: int): (b: int)
    ensures b >= 1
  {
    if batchSize <= 0 then 1 else batchSize
  }

  /** `(n + b - 1) / b` in 64-bit arithmetic. */
  function TotalBatches(n: nat, b: int): int
    requires b >= 1
  {
    TruncDiv(Wrap(n + b - 1), b)
  }

  /** The sum in `TotalBatches` stays within a 64-bit integer. */
  predicate Fits(n: nat, b: int) {
    n + b - 1 <= MAX_INT
  }

  function Min(a: int, b: int): int {
    if a < b then a else b
  }

  function CanarySize(n: nat): nat {
    if n / 10 < 1 then 1 else n / 10
  }

  /** Batch `k` of the positions [from, n), `shift` batches having gone before. */
  function RollingStage(c: Config, from: nat, k: nat, batches: nat, shift: nat, progress: bool): Stage
    requires from <= |c.targets|
    requires k * EffectiveSize(c.batchSize) <= |c.targets| - from
  {
    var n := |c.targets| - from;
    var b := EffectiveSize(c.batchSize);
    var end := Min(k * b + b, n);
    Stage(from + k * b, from + end, k + 1 + shift, batches + shift, true, true, progress,
          if k + 1 < batches then Some(c.timing.batchDelay) else None, false)
  }

  function RollingStages(c: Config, from: nat, shift: nat, progress: bool): seq<Stage>
    requires WellTyped(c) && from <= |c.targets|
  {
    var n := |c.targets| - from;
    var b := EffectiveSize(c.batchSize);
    BatchCount(n, b);
    var batches := if TotalBatches(n, b) < 0 then 0 else TotalBatches(n, b);
    seq(batches, k requires 0 <= k < batches =>
      BatchStart(n, b, k);
      RollingStage(c, from, k, batches, shift, progress))
  }

  function AllAtOnceStages(c: Config): seq<Stage> {
    [Stage(0, |c.targets|, 1, 1, false, false, false, None, false)]
  }

  function CanaryStage(c: Config): Stage {
    Stage(0, CanarySize(|c.targets|), 1, 2, false, true, false, Some(c.timing.canaryDelay), true)
  }

  /** The batches of a deployment, in the order they are deployed. */
  function Plan(c: Config): seq<Stage>
    requires WellTyped(c)
  {
    match c.strategy
    case AllAtOnce => AllAtOnceStages(c)
    case Rolling => RollingStages(c, 0, 0, true)
    case Unrecognised(_) => RollingStages(c, 0, 0, true)
    case Canary =>
      if |c.targets| < 2 then AllAtOnceStages(c)
      else [CanaryStage(c)] + RollingStages(c, CanarySize(|c.targets|), 1, false)
  }

  // ----- arithmetic of batches

  lemma DivBounds(a: int, b: int)
    requires a >= 0 && b > 0
    ensures a / b * b <= a < a / b * b + b
  {
  }

  lemma MulMonotone(x: int, y: int, b: int)
    requires x <= y && b >= 0
    ensures x * b <= y * b
  {
  }

  /** The batch count is the ceiling of n / b exactly when the sum fits; when it does not,
      no batch is run at all. */
  lemma BatchCount(n: nat, b: int)
    requires n <= MAX_INT && 1 <= b <= MAX_INT
    ensures var t := TotalBatches(n, b);
            if Fits(n, b) then t >= 0 && (t - 1) * b < n <= t * b else t <= 0
  {
    if Fits(n, b) {
      DivBounds(n + b - 1, b);
      var t := TotalBatches(n, b);
      assert t == (n + b - 1) / b;
      assert (t - 1) * b == t * b - b;
    } else {
      var w := Wrap(n + b - 1);
      assert w < 0;
      DivBounds(-w, b);
    }
  }

  lemma BatchStart(n: nat, b: int, k: nat)
    requires n <= MAX_INT && 1 <= b <= MAX_INT && k < TotalBatches(n, b)
    ensures Fits(n, b) && k * b < n
    ensures k + 1 == TotalBatches(n, b) <==> n <= k * b + b
  {
    BatchCount(n, b);
    var t := TotalBatches(n, b);
    MulMonotone(k, t - 1, b);
    assert k * b + b == (k + 1) * b;
    if k + 1 < t {
      MulMonotone(k + 1, t - 1, b);
    }
  }

  // ----- shape of a plan

  /** First position not covered by the stages before `k`. */
  function Frontier(plan: seq<Stage>, k: nat): nat
    requires k <= |plan|
  {
    if k == 0 then 0 else plan[k - 1].hi
  }

  /** Stage `k` is a slice of the targets that starts where the previous one ended; only a
      deployment without targets has an empty one. */
  predicate Tile(plan: seq<Stage>, k: nat, n: nat)
    requires k < |plan|
  {
    && plan[k].lo == Frontier(plan, k)
    && plan[k].lo <= plan[k].hi <= n
    && (n > 0 ==> plan[k].lo < plan[k].hi)
  }

  predicate Tiles(plan: seq<Stage>, n: nat) {
    forall k :: 0 <= k < |plan| ==> Tile(plan, k, n)
  }

  /** The widest batch a strategy may deploy at once. */
  function Width(c: Config): nat {
    match c.strategy
    case AllAtOnce => |c.targets|
    case Rolling => EffectiveSize(c.batchSize)
    case Unrecognised(_) => EffectiveSize(c.batchSize)
    case Canary =>
      if |c.targets| < 2 then |c.targets|
      else if CanarySize(|c.targets|) < EffectiveSize(c.batchSize) then EffectiveSize(c.batchSize)
      else CanarySize(|c.targets|)
  }

  /** The batch count of the strategy is computed without overflow. */
  predicate BatchesFit(c: Config) {
    match c.strategy
    case AllAtOnce => true
    case Rolling => Fits(|c.targets|, EffectiveSize(c.batchSize))
    case Unrecognised(_) => Fits(|c.targets|, EffectiveSize(c.batchSize))
    case Canary =>
      |c.targets| < 2 || Fits(|c.targets| - CanarySize(|c.targets|), EffectiveSize(c.batchSize))
  }

  lemma RollingStageBounds(c: Config, from: nat, shift: nat, progress: bool, k: nat)
    requires WellTyped(c) && from <= |c.targets|
    requires k < |RollingStages(c, from, shift, progress)|
    ensures Fits(|c.targets| - from, EffectiveSize(c.batchSize))
    ensures k * EffectiveSize(c.batchSize) < |c.targets| - from
    ensures var b := EffectiveSize(c.batchSize);
            var stages := RollingStages(c, from, shift, progress);
            && stages[k] == RollingStage(c, from, k, |stages|, shift, progress)
            && (k + 1 < |stages| ==> stages[k].hi == from + (k + 1) * b)
            && (k + 1 == |stages| ==> stages[k].hi == |c.targets|)
  {
    var n := |c.targets| - from;
    var b := EffectiveSize(c.batchSize);
    BatchCount(n, b);
    BatchStart(n, b, k);
    var stages := RollingStages(c, from, shift, progress);
    assert |stages| == TotalBatches(n, b);
    assert stages[k] == RollingStage(c, from, k, |stages|, shift, progress);
    assert (k + 1) * b == k * b + b;
  }

  /** Consecutive batches touch, and none is wider than the batch size. */
  lemma RollingTiles(c: Config, from: nat, shift: nat, progress: bool, k: nat)
    requires WellTyped(c) && from <= |c.targets|
    requires k < |RollingStages(c, from, shift, progress)|
    ensures var stages := RollingStages(c, from, shift, progress);
            && stages[k].lo == (if k == 0 then from else stages[k - 1].hi)
            && stages[k].lo < stages[k].hi <= |c.targets|
            && stages[k].hi - stages[k].lo <= EffectiveSize(c.batchSize)
  {
    RollingStageBounds(c, from, shift, progress, k);
    if k > 0 {
      RollingStageBounds(c, from, shift, progress, k - 1);
    }
  }

  lemma PlanTile(c: Config, k: nat)
    requires WellTyped(c) && k < |Plan(c)|
    ensures Tile(Plan(c), k, |c.targets|)
    ensures Plan(c)[k].hi - Plan(c)[k].lo <= Width(c)
  {
    if c.strategy.Rolling? || c.strategy.Unrecognised? {
      RollingTiles(c, 0, 0, true, k);
    } else if c.strategy.Canary? && |c.targets| >= 2 && k > 0 {
      var from := CanarySize(|c.targets|);
      var rest := RollingStages(c, from, 1, false);
      assert Plan(c) == [CanaryStage(c)] + rest;
      RollingTiles(c, from, 1, false, k - 1);
    }
  }

  lemma PlanTiles(c: Config)
    requires WellTyped(c)
    ensures Tiles(Plan(c), |c.targets|)
    ensures forall k :: 0 <= k < |Plan(c)| ==> Plan(c)[k].hi - Plan(c)[k].lo <= Width(c)
  {
    forall k | 0 <= k < |Plan(c)|
      ensures Tile(Plan(c), k, |c.targets|)
      ensures Plan(c)[k].hi - Plan(c)[k].lo <= Width(c)
    {
      PlanTile(c, k);
    }
  }

  /** The batches reach every target exactly when the batch count did not overflow. */
  lemma PlanCovers(c: Config)
    requires WellTyped(c)
    ensures Frontier(Plan(c), |Plan(c)|) == |c.targets| <==> BatchesFit(c)
  {
    var plan := Plan(c);
    var n := |c.targets|;
    var b := EffectiveSize(c.batchSize);
    match c.strategy
    case AllAtOnce =>
    case Canary =>
      if n >= 2 {
        var from := CanarySize(n);
        BatchCount(n - from, b);
        var rest := RollingStages(c, from, 1, false);
        if rest != [] {
          assert plan[|plan| - 1] == rest[|rest| - 1];
          RollingStageBounds(c, from, 1, false, |rest| - 1);
        } else {
          assert plan == [CanaryStage(c)];
        }
      }
    case _ =>
      BatchCount(n, b);
      if plan != [] { RollingStageBounds(c, 0, 0, true, |plan| - 1); }
      else if Fits(n, b) { assert n <= 0 * b; }
  }

  /** The targets of the first `k` batches, in order. */
  function Deployed(targets: seq<Id>, plan: seq<Stage>, k: nat): seq<Id>
    requires k <= |plan|
    requires Tiles(plan, |targets|)
  {
    assert k > 0 ==> Tile(plan, k - 1, |targets|);
    if k == 0 then [] else Deployed(targets, plan, k - 1) + targets[plan[k - 1].lo..plan[k - 1].hi]
  }

  lemma {:induction false} DeployedIsPrefix(targets: seq<Id>, plan: seq<Stage>, k: nat)
    requires k <= |plan|
    requires Tiles(plan, |targets|)
    ensures Frontier(plan, k) <= |targets|
    ensures Deployed(targets, plan, k) == targets[..Frontier(plan, k)]
  {
    if k > 0 {
      DeployedIsPrefix(targets, plan, k - 1);
      assert Tile(plan, k - 1, |targets|);
      assert targets[..plan[k - 1].lo] + targets[plan[k - 1].lo..plan[k - 1].hi] == targets[..plan[k - 1].hi];
    }
  }

  /** Batch by batch, the deployment visits the target list itself: nothing is skipped,
      repeated or reordered, and nothing is left over unless the batch count overflowed. */
  lemma BatchesConcatenateToTargets(c: Config)
    requires WellTyped(c)
    ensures Tiles(Plan(c), |c.targets|)
    ensures Deployed(c.targets, Plan(c), |Plan(c)|) <= c.targets
    ensures Deployed(c.targets, Plan(c), |Plan(c)|) == c.targets <==> BatchesFit(c)
  {
    PlanTiles(c);
    PlanCovers(c);
    var plan := Plan(c);
    DeployedIsPrefix(c.targets, plan, |plan|);
    assert c.targets == c.targets[..|c.targets|];
  }

  /** The numbers a batch is announced with: within 1..total, increasing by one per batch. */
  lemma BatchPositions(c: Config, k: nat)
    requires WellTyped(c) && k < |Plan(c)|
    ensures Plan(c)[k].position == k + 1
    ensures 1 <= Plan(c)[k].position <= Plan(c)[k].total
    ensures k > 0 ==> Plan(c)[k].total == |Plan(c)|
  {
    if c.strategy.Rolling? || c.strategy.Unrecognised? {
      RollingStageBounds(c, 0, 0, true, k);
    } else if c.strategy.Canary? && |c.targets| >= 2 && k > 0 {
      assert Plan(c)[k] == RollingStages(c, CanarySize(|c.targets|), 1, false)[k - 1];
      RollingStageBounds(c, CanarySize(|c.targets|), 1, false, k - 1);
    }
  }

  /** What every batch is: all at once and small canaries are one bare batch; a canary is announced as 1 of 2
      and validated; the other batches look at the context first, roll back, are followed by the batch
      delay except for the last, and write progress if the strategy is rolling. */
  lemma BatchesAre(c: Config, k: nat)
    requires WellTyped(c) && k < |Plan(c)|
    ensures var n, stage := |c.targets|, Plan(c)[k];
            var b := if c.batchSize <= 0 then 1 else c.batchSize;
            var delay := if k + 1 < |Plan(c)| then Some(c.timing.batchDelay) else None;
            if c.strategy.AllAtOnce? || (c.strategy.Canary? && n < 2) then
              |Plan(c)| == 1 && stage == Stage(0, n, 1, 1, false, false, false, None, false)
            else if !c.strategy.Canary? then
              && stage.lo == k * b && stage.hi == (if n < stage.lo + b then n else stage.lo + b)
              && stage == Stage(stage.lo, stage.hi, k + 1, |Plan(c)|, true, true, true, delay, false)
            else
              var canary := if n < 20 then 1 else n / 10;
              if k == 0 then stage == Stage(0, canary, 1, 2, false, true, false, Some(c.timing.canaryDelay), true)
              else
                && stage.lo == canary + (k - 1) * b && stage.hi == (if n < stage.lo + b then n else stage.lo + b)
                && stage == Stage(stage.lo, stage.hi, k + 1, |Plan(c)|, true, true, false, delay, false)
  {
    if c.strategy.Rolling? || c.strategy.Unrecognised? {
      RollingBatchesAre(c, 0, 0, true, k);
      hide RollingStages;
    } else if c.strategy.Canary? && |c.targets| >= 2 && k > 0 {
      var rest := RollingStages(c, CanarySize(|c.targets|), 1, false);
      RollingBatchesAre(c, CanarySize(|c.targets|), 1, false, k - 1);
      hide RollingStages;
      assert Plan(c)[k] == rest[k - 1] && |Plan(c)| == |rest| + 1;
    }
  }

  lemma RollingBatchesAre(c: Config, from: nat, shift: nat, progress: bool, k: nat)
    requires WellTyped(c) && from <= |c.targets| && k < |RollingStages(c, from, shift, progress)|
    ensures var n, stages := |c.targets|, RollingStages(c, from, shift, progress);
            var b := if c.batchSize <= 0 then 1 else c.batchSize;
            var delay := if k + 1 < |stages| then Some(c.timing.batchDelay) else None;
            var stage := stages[k];
            && stage.lo == from + k * b && stage.hi == (if n < stage.lo + b then n else stage.lo + b)
            && stage == Stage(stage.lo, stage.hi, k + 1 + shift, |stages| + shift, true, true, progress, delay, false)
  {
    RollingStageBounds(c, from, shift, progress, k);
    hide RollingStages;
  }

  /** On the wire both numbers are narrowed to 32 bits: there they stay within 1..total for every batch
      exactly if the number of batches fits. */
  lemma WirePositionsIff(c: Config)
    requires WellTyped(c)
    ensures (forall k :: 0 <= k < |Plan(c)| ==> 1 <= Int32(Plan(c)[k].position) <= Int32(Plan(c)[k].total)) <==>
            |Plan(c)| <= 2147483647
  {
    var plan := Plan(c);
    forall k | 0 <= k < |plan|
      ensures plan[k].position == k + 1 && 1 <= plan[k].position <= plan[k].total && (k > 0 ==> plan[k].total == |plan|)
      ensures plan[k].total <= |plan| || (k == 0 && plan[k].total <= 2)
    {
      BatchPositions(c, k);
      if k == 0 {
        FirstTotal(c);
      }
    }
    hide Plan;
    if |plan| > MAX_INT32 {
      assert Int32(plan[MAX_INT32].position) < 1;
    }
  }

  lemma FirstTotal(c: Config)
    requires WellTyped(c) && Plan(c) != []
    ensures Plan(c)[0].total <= |Plan(c)| || Plan(c)[0].total <= 2
  {
    if c.strategy.Rolling? || c.strategy.Unrecognised? {
      RollingStageBounds(c, 0, 0, true, 0);
    }
  }

  /** A canary deployment of at least two targets has a proper, non-empty first stage. */
  lemma CanaryIsProper(c: Config)
    requires WellTyped(c) && c.strategy.Canary? && |c.targets| >= 2
    ensures Plan(c)[0].lo == 0
    ensures Plan(c)[0].hi == (if |c.targets| < 20 then 1 else |c.targets| / 10)
    ensures 0 < Plan(c)[0].hi < |c.targets|
    ensures BatchesFit(c) ==> |Plan(c)| > 1 && Plan(c)[|Plan(c)| - 1].hi == |c.targets|
  {
    PlanCovers(c);
  }
}
