/**
 * What the engine computes, said without its padding: which values the callbacks are
 * given and what the owner returns.
 */
module VaeMeaning {
  import opened Wrappers
  import opened VaePlan
  import opened VaeSchedule
  import opened VaeTensor
  import opened VaeEngine
  import opened VaeSync
  import opened VaeSuccess
  import opened VaeTheorems

  // ---- Padding and cropping -------------------------------------------------------------

  /** `t` at the origin of zeros. */
  ghost predicate PaddedTo(padded: Tensor, t: Tensor, shape: seq<int>) {
    && padded.shape == shape
    && forall index | InBox(index, shape) ::
         padded.cells[index] == if InBox(index, t.shape) then t.cells[index] else 0.0
  }

  /** Padding keeps every cell and adds zeros. */
  lemma {:induction false} PadKeepsCells(t: Tensor, target: seq<int>, maximum: seq<int>)
    requires Pad(t, target, maximum).Some?
    ensures PaddedTo(Pad(t, target, maximum).value, t, target)
  {}

  /** Cropping keeps the cells from the origin on. */
  lemma {:induction false} CropKeepsCells(t: Tensor, shape: seq<int>)
    requires |shape| == |t.shape|
    ensures forall d | 0 <= d < |shape| :: Crop(t, shape).shape[d] == if t.shape[d] <= shape[d] then t.shape[d] else shape[d]
    ensures forall index | InBox(index, shape) && InBox(index, t.shape) ::
              InBox(index, Crop(t, shape).shape) && Crop(t, shape).cells[index] == t.cells[index]
  {}

  lemma {:induction false} SameCells(a: Tensor, b: Tensor)
    requires a.shape == b.shape && forall index | InBox(index, a.shape) :: a.cells[index] == b.cells[index]
    ensures a == b
  {
    assert a.cells == b.cells;
  }

  /** A tensor is determined by what it pads. */
  lemma {:induction false} OnePadding(a: Tensor, b: Tensor, t: Tensor, shape: seq<int>)
    requires PaddedTo(a, t, shape) && PaddedTo(b, t, shape)
    ensures a == b
  {
    SameCells(a, b);
  }

  /** A tensor that has its padded shape already is left as it is. */
  lemma {:induction false} PadToOwnShape(t: Tensor, padded: Tensor)
    ensures Pad(t, t.shape, t.shape) == Some(t)
    ensures PaddedTo(padded, t, t.shape) ==> padded == t
  {
    SameCells(Pad(t, t.shape, t.shape).value, t);
    if PaddedTo(padded, t, t.shape) { SameCells(padded, t); }
  }

  /** Cropping a padded tensor back gives the tensor. */
  lemma {:induction false} CropUndoesPad(t: Tensor, target: seq<int>)
    requires FitsInside(t.shape, target)
    ensures Pad(t, target, t.shape).Some? && Crop(Pad(t, target, t.shape).value, t.shape) == t
  {
    CropOfPad(t, target, t.shape);
    PadToOwnShape(t, t);
  }

  // ---- One task ---------------------------------------------------------------------------

  /**
   * The task's input is materialized and padded to its own shape, executed on its own
   * rank, padded to its own output shape, and merged.
   */
  ghost predicate Merges(cfg: Config, full: Tensor, task: TaskSpec, before: Option<Tensor>, after: Option<Tensor>) {
    exists input: Tensor, view: Tensor, output: Tensor, tile: Tensor ::
      MergesVia(cfg, full, task, before, after, input, view, output, tile)
  }

  ghost predicate MergesVia(cfg: Config, full: Tensor, task: TaskSpec, before: Option<Tensor>, after: Option<Tensor>,
                            input: Tensor, view: Tensor, output: Tensor, tile: Tensor)
  {
    && cfg.materialize(full, task) == Some(input)
    && FitsInside(input.shape, task.paddedInputShape) && PaddedTo(view, input, task.paddedInputShape)
    && cfg.execute(task.assignedRank, view, task) == Some(output)
    && FitsInside(output.shape, task.paddedOutputShape) && PaddedTo(tile, output, task.paddedOutputShape)
    && cfg.merge(before, task, tile) == after && after.Some?
  }

  lemma {:induction false} TileMerges(cfg: Config, full: Tensor, task: TaskSpec, before: Option<Tensor>)
    ensures var merged := MergeTile(cfg, Ok(before), task, DirectTile(cfg, full, task));
            merged.Ok? ==> Merges(cfg, full, task, before, merged.value)
  {
    var merged := MergeTile(cfg, Ok(before), task, DirectTile(cfg, full, task));
    if merged.Ok? {
      var input := cfg.materialize(full, task).value;
      PadKeepsCells(input, task.paddedInputShape, task.paddedInputShape);
      var view := Pad(input, task.paddedInputShape, task.paddedInputShape).value;
      var output := cfg.execute(task.assignedRank, view, task).value;
      PadKeepsCells(output, task.paddedOutputShape, task.paddedOutputShape);
      var tile := Pad(output, task.paddedOutputShape, task.paddedOutputShape).value;
      assert MergesVia(cfg, full, task, before, merged.value, input, view, output, tile);
    }
  }

  lemma {:induction false} MergedTile(cfg: Config, full: Tensor, task: TaskSpec, before: Option<Tensor>, after: Option<Tensor>)
    requires Merges(cfg, full, task, before, after)
    ensures MergeTile(cfg, Ok(before), task, DirectTile(cfg, full, task)) == Ok(after)
  {
    var input: Tensor, view: Tensor, output: Tensor, tile: Tensor :|
      MergesVia(cfg, full, task, before, after, input, view, output, tile);
    PadKeepsCells(input, task.paddedInputShape, task.paddedInputShape);
    OnePadding(view, Pad(input, task.paddedInputShape, task.paddedInputShape).value, input, task.paddedInputShape);
    PadKeepsCells(output, task.paddedOutputShape, task.paddedOutputShape);
    OnePadding(tile, Pad(output, task.paddedOutputShape, task.paddedOutputShape).value, output, task.paddedOutputShape);
  }

  // ---- All tasks --------------------------------------------------------------------------

  ghost predicate MergesAt(cfg: Config, full: Tensor, tasks: seq<TaskSpec>, results: seq<Option<Tensor>>, i: nat)
    requires i < |tasks| < |results|
  {
    Merges(cfg, full, tasks[i], results[i], results[i + 1])
  }

  /** The merge results one after the other, from nothing to the last. */
  ghost predicate MergedInOrder(cfg: Config, full: Tensor, tasks: seq<TaskSpec>, results: seq<Option<Tensor>>) {
    && |results| == |tasks| + 1 && results[0] == None
    && forall i: nat | i < |tasks| :: MergesAt(cfg, full, tasks, results, i)
  }

  lemma {:induction false} MergedBeforeLast(cfg: Config, full: Tensor, tasks: seq<TaskSpec>, results: seq<Option<Tensor>>)
    requires tasks != [] && MergedInOrder(cfg, full, tasks, results)
    ensures MergedInOrder(cfg, full, tasks[..|tasks| - 1], results[..|tasks|])
    ensures Merges(cfg, full, tasks[|tasks| - 1], results[|tasks| - 1], results[|tasks|])
  {
    var last := |tasks| - 1;
    forall i: nat | i < last ensures MergesAt(cfg, full, tasks[..last], results[..|tasks|], i) {
      assert MergesAt(cfg, full, tasks, results, i);
    }
    assert MergesAt(cfg, full, tasks, results, last);
  }

  lemma {:induction false} OneMoreMerged(cfg: Config, full: Tensor, tasks: seq<TaskSpec>, results: seq<Option<Tensor>>,
                                         task: TaskSpec, after: Option<Tensor>)
    requires MergedInOrder(cfg, full, tasks, results) && Merges(cfg, full, task, results[|tasks|], after)
    ensures MergedInOrder(cfg, full, tasks + [task], results + [after])
  {
    var (all, more) := (tasks + [task], results + [after]);
    forall i: nat | i < |all| ensures MergesAt(cfg, full, all, more, i) {
      if i < |tasks| {
        assert MergesAt(cfg, full, tasks, results, i);
        assert all[i] == tasks[i] && more[i] == results[i] && more[i + 1] == results[i + 1];
      } else {
        assert all[i] == task && more[i] == results[i] && more[i + 1] == after;
      }
    }
  }

  /** A serial fold that succeeds is such a list of merges. */
  lemma {:induction false} FoldIsInOrder(cfg: Config, full: Tensor, tasks: seq<TaskSpec>) returns (results: seq<Option<Tensor>>)
    requires SerialFold(cfg, full, tasks).Ok?
    ensures MergedInOrder(cfg, full, tasks, results) && results[|tasks|] == SerialFold(cfg, full, tasks).value
  {
    if tasks == [] {
      results := [None];
    } else {
      var (front, task, after) := (tasks[..|tasks| - 1], tasks[|tasks| - 1], SerialFold(cfg, full, tasks).value);
      var before := FoldIsInOrder(cfg, full, front);
      TileMerges(cfg, full, task, before[|front|]);
      results := AppendMerge(cfg, full, tasks, front, task, before, after);
    }
  }

  lemma {:induction false} AppendMerge(cfg: Config, full: Tensor, tasks: seq<TaskSpec>, front: seq<TaskSpec>, task: TaskSpec,
                                       before: seq<Option<Tensor>>, after: Option<Tensor>)
    returns (results: seq<Option<Tensor>>)
    requires tasks == front + [task] && MergedInOrder(cfg, full, front, before) && Merges(cfg, full, task, before[|front|], after)
    ensures MergedInOrder(cfg, full, tasks, results) && results[|tasks|] == after
  {
    OneMoreMerged(cfg, full, front, before, task, after);
    results := before + [after];
  }

  /** And such a list is the serial fold. */
  lemma {:induction false} InOrderIsFold(cfg: Config, full: Tensor, tasks: seq<TaskSpec>, results: seq<Option<Tensor>>)
    requires MergedInOrder(cfg, full, tasks, results)
    ensures SerialFold(cfg, full, tasks) == Ok(results[|tasks|])
    decreases |tasks|
  {
    if tasks != [] {
      var last := |tasks| - 1;
      MergedBeforeLast(cfg, full, tasks, results);
      InOrderIsFold(cfg, full, tasks[..last], results[..|tasks|]);
      MergedTile(cfg, full, tasks[last], results[last], results[|tasks|]);
    }
  }

  // ---- When a run succeeds --------------------------------------------------------------------

  /** What rank `k` has to be given so that the group can start on `plan`. */
  ghost predicate RightArguments(cfg: Config, plan: TaskPlan, k: nat)
    requires ValidConfig(cfg) && k < |cfg.ranks|
  {
    var size := MetadataSize(|plan.globalInputShape|, |plan.globalOutputShape|, |plan.tasks|);
    && cfg.argumentsOk[k]
    && (cfg.plans[k].Some? ==> cfg.plans[k].value == plan && (cfg.metadataSizes[k].None? || cfg.metadataSizes[k].value == size))
    && (cfg.plans[k].None? ==> cfg.metadataSizes[k] == Some(size))
    && if cfg.ranks[k] == cfg.ownerRank
       then cfg.plans[k].Some? && cfg.inputs[k].Some? && cfg.inputs[k].value.shape == plan.globalInputShape
       else cfg.inputs[k].None?
  }

  ghost predicate RightPlan(cfg: Config, plan: TaskPlan) {
    && ValidPlan(plan) && plan.ownerRank == cfg.ownerRank
    && (forall i | 0 <= i < |plan.tasks| :: plan.tasks[i].assignedRank in cfg.ranks)
    && forall i | 0 <= i < |PlanValues(plan)| :: INT64_MIN <= PlanValues(plan)[i] <= INT64_MAX
  }

  lemma {:induction false} PositiveSize(plan: TaskPlan)
    requires ValidPlan(plan)
    ensures |PlanValues(plan)| == MetadataSize(|plan.globalInputShape|, |plan.globalOutputShape|, |plan.tasks|) > 0
  {
    DecodeOfEncode(plan);
  }

  lemma {:induction false} OwnerHasRank(cfg: Config)
    requires ValidConfig(cfg)
    ensures cfg.ranks[OwnerSlot(cfg)] == cfg.ownerRank
  {}

  lemma {:induction false} RightOfFitting(cfg: Config, plan: TaskPlan, k: nat)
    requires ValidConfig(cfg) && cfg.plans[OwnerSlot(cfg)] == Some(plan) && ArgumentsFit(cfg, plan) && k < |cfg.ranks|
    ensures RightPlan(cfg, plan) && RightArguments(cfg, plan, k)
  {
    OwnerHasRank(cfg);
    assert !PrepareFails(cfg, OwnerSlot(cfg)) && !PrepareFails(cfg, k);
    PositiveSize(plan);
  }

  lemma {:induction false} FittingOfRight(cfg: Config, plan: TaskPlan, k: nat)
    requires ValidConfig(cfg) && cfg.plans[OwnerSlot(cfg)] == Some(plan) && k < |cfg.ranks|
    requires RightPlan(cfg, plan) && RightArguments(cfg, plan, k)
    ensures !PrepareFails(cfg, k)
    ensures (cfg.plans[k].Some? ==> cfg.plans[k].value == plan) && |PreparedMetadata(cfg, k)| == |PlanValues(plan)|
  {
    PositiveSize(plan);
  }

  /** The arguments fit the owner's plan exactly when each rank has been given what it needs. */
  lemma {:induction false} FittingArguments(cfg: Config, plan: TaskPlan)
    requires ValidConfig(cfg) && cfg.plans[OwnerSlot(cfg)] == Some(plan)
    ensures ArgumentsFit(cfg, plan) <==>
              RightPlan(cfg, plan) && forall k: nat | k < |cfg.ranks| :: RightArguments(cfg, plan, k)
  {
    if ArgumentsFit(cfg, plan) {
      forall k: nat | k < |cfg.ranks| ensures RightPlan(cfg, plan) && RightArguments(cfg, plan, k) {
        RightOfFitting(cfg, plan, k);
      }
      RightOfFitting(cfg, plan, OwnerSlot(cfg));
    }
    if RightPlan(cfg, plan) && forall k: nat | k < |cfg.ranks| :: RightArguments(cfg, plan, k) {
      forall k: nat | k < |cfg.ranks|
        ensures !PrepareFails(cfg, k)
        ensures (cfg.plans[k].Some? ==> cfg.plans[k].value == plan) && |PreparedMetadata(cfg, k)| == |PlanValues(plan)|
      {
        FittingOfRight(cfg, plan, k);
      }
    }
  }

  /**
   * A run whose ranks have all stopped has returned everywhere if and only if every rank was
   * given the right arguments, all tasks can be materialized, executed and merged in
   * schedule order, and every rank drains.
   */
  lemma {:induction false} SuccessIsMerging(cfg: Config, run: seq<World>, m: nat)
    requires ValidConfig(cfg) && IsRun(cfg, run) && m < |run|
    requires forall k | 0 <= k < |cfg.ranks| :: !run[m][k].outcome.Running?
    ensures (forall k | 0 <= k < |cfg.ranks| :: run[m][k].outcome.Returned?) <==> Achievable(cfg)
  {
    FinishedRuns(cfg, run, m);
    AchievableIsSuccess(cfg);
    assert Succeeds(cfg) || !run[m][0].outcome.Returned?;
  }

  ghost predicate Achievable(cfg: Config)
    requires ValidConfig(cfg)
  {
    var (plan, full) := (cfg.plans[OwnerSlot(cfg)], cfg.inputs[OwnerSlot(cfg)]);
    && plan.Some? && full.Some?
    && RightPlan(cfg, plan.value) && (forall k: nat | k < |cfg.ranks| :: RightArguments(cfg, plan.value, k))
    && plan.value.rounds >= 0
    && (exists results :: MergedInOrder(cfg, full.value, Schedule(plan.value.tasks, plan.value.rounds), results))
    && forall k | 0 <= k < |cfg.drainOk| :: cfg.drainOk[k]
  }

  lemma {:induction false} AchievableIsSuccess(cfg: Config)
    requires ValidConfig(cfg)
    ensures Achievable(cfg) <==> Succeeds(cfg)
  {
    var (plan, full) := (cfg.plans[OwnerSlot(cfg)], cfg.inputs[OwnerSlot(cfg)]);
    if plan.Some? { FittingArguments(cfg, plan.value); }
    if Succeeds(cfg) {
      var results := FoldIsInOrder(cfg, full.value, Schedule(plan.value.tasks, plan.value.rounds));
    }
    if Achievable(cfg) {
      var results :| MergedInOrder(cfg, full.value, Schedule(plan.value.tasks, plan.value.rounds), results);
      InOrderIsFold(cfg, full.value, Schedule(plan.value.tasks, plan.value.rounds), results);
    }
  }

  // ---- Finished runs ------------------------------------------------------------------------

  /**
   * A group that has returned has merged all tasks of the owner's plan in schedule order:
   * each task's own input went to its own rank, and each output came back, cell by cell.
   */
  lemma {:induction false} OwnerReturnsTheMerges(cfg: Config, run: seq<World>, m: nat) returns (results: seq<Option<Tensor>>)
    requires ValidConfig(cfg) && IsRun(cfg, run) && m < |run|
    requires forall k | 0 <= k < |cfg.ranks| :: run[m][k].outcome.Returned?
    ensures var (plan, full) := (cfg.plans[OwnerSlot(cfg)], cfg.inputs[OwnerSlot(cfg)]);
            && plan.Some? && full.Some? && plan.value.rounds >= 0
            && var tasks := Schedule(plan.value.tasks, plan.value.rounds);
            && MergedInOrder(cfg, full.value, tasks, results)
            && run[m][OwnerSlot(cfg)].merged == results[|tasks|]
  {
    FinishedRuns(cfg, run, m);
    assert run[m][0].outcome.Returned?;
    var (plan, full) := (cfg.plans[OwnerSlot(cfg)].value, cfg.inputs[OwnerSlot(cfg)].value);
    results := FoldIsInOrder(cfg, full, Schedule(plan.tasks, plan.rounds));
  }

  /** Both callbacks give tensors of the task's padded shapes. */
  ghost predicate Exact(cfg: Config, full: Tensor, task: TaskSpec) {
    && cfg.materialize(full, task).Some? && cfg.materialize(full, task).value.shape == task.paddedInputShape
    && var output := cfg.execute(task.assignedRank, cfg.materialize(full, task).value, task);
       output.Some? && output.value.shape == task.paddedOutputShape
  }

  /** Then each tile goes from `materialize` to `execute` to `merge` as it is. */
  lemma {:induction false} ExactTilesPass(cfg: Config, full: Tensor, task: TaskSpec, before: Option<Tensor>, after: Option<Tensor>)
    requires Exact(cfg, full, task)
    ensures Merges(cfg, full, task, before, after)
            <==> after.Some? && after == cfg.merge(before, task,
                   cfg.execute(task.assignedRank, cfg.materialize(full, task).value, task).value)
  {
    var input := cfg.materialize(full, task).value;
    var output := cfg.execute(task.assignedRank, input, task).value;
    PadToOwnShape(input, input);
    PadToOwnShape(output, output);
    if Merges(cfg, full, task, before, after) {
      var i: Tensor, view: Tensor, o: Tensor, tile: Tensor :| MergesVia(cfg, full, task, before, after, i, view, o, tile);
      PadToOwnShape(input, view);
      PadToOwnShape(output, tile);
    }
    if after.Some? && after == cfg.merge(before, task, output) {
      assert MergesVia(cfg, full, task, before, after, input, input, output, output);
    }
  }

  /**
   * Of exact tiles the owner returns the plain fold: merging, in schedule order, what each
   * task's rank computes from what the owner cut out for it.
   */
  lemma {:induction false} ExactRunsArePlain(cfg: Config, run: seq<World>, m: nat) returns (results: seq<Option<Tensor>>)
    requires ValidConfig(cfg) && IsRun(cfg, run) && m < |run|
    requires forall k | 0 <= k < |cfg.ranks| :: run[m][k].outcome.Returned?
    requires cfg.plans[OwnerSlot(cfg)].Some? && cfg.inputs[OwnerSlot(cfg)].Some?
    requires forall task | task in cfg.plans[OwnerSlot(cfg)].value.tasks :: Exact(cfg, cfg.inputs[OwnerSlot(cfg)].value, task)
    ensures var (plan, full) := (cfg.plans[OwnerSlot(cfg)].value, cfg.inputs[OwnerSlot(cfg)].value);
            && plan.rounds >= 0
            && var tasks := Schedule(plan.tasks, plan.rounds);
            && |results| == |tasks| + 1 && results[0] == None && run[m][OwnerSlot(cfg)].merged == results[|tasks|]
            && forall i: nat | i < |tasks| ::
                 var task := tasks[i];
                 && cfg.materialize(full, task).Some?
                 && var output := cfg.execute(task.assignedRank, cfg.materialize(full, task).value, task);
                 && output.Some? && results[i + 1] == cfg.merge(results[i], task, output.value)
  {
    results := OwnerReturnsTheMerges(cfg, run, m);
    var (plan, full) := (cfg.plans[OwnerSlot(cfg)].value, cfg.inputs[OwnerSlot(cfg)].value);
    var tasks := Schedule(plan.tasks, plan.rounds);
    ScheduledAreTasks(cfg, run, m, plan);
    forall i: nat | i < |tasks|
      ensures Exact(cfg, full, tasks[i])
      ensures results[i + 1] == cfg.merge(results[i], tasks[i],
                cfg.execute(tasks[i].assignedRank, cfg.materialize(full, tasks[i]).value, tasks[i]).value)
    {
      assert tasks[i] in tasks;
      assert MergesAt(cfg, full, tasks, results, i);
      ExactTilesPass(cfg, full, tasks[i], results[i], results[i + 1]);
    }
  }

  lemma {:induction false} ScheduledAreTasks(cfg: Config, run: seq<World>, m: nat, plan: TaskPlan)
    requires ValidConfig(cfg) && IsRun(cfg, run) && m < |run|
    requires forall k | 0 <= k < |cfg.ranks| :: run[m][k].outcome.Returned?
    requires cfg.plans[OwnerSlot(cfg)] == Some(plan)
    ensures plan.rounds >= 0 && forall task | task in Schedule(plan.tasks, plan.rounds) :: task in plan.tasks
  {
    FinishedRuns(cfg, run, m);
    assert run[m][0].outcome.Returned?;
    assert ArgumentsFit(cfg, plan);
    assert !PrepareFails(cfg, OwnerSlot(cfg));
    ScheduleIsAPermutation(plan);
    forall task | task in Schedule(plan.tasks, plan.rounds) ensures task in plan.tasks {
      assert task in multiset(plan.tasks);
    }
  }
}
