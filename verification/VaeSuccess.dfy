/**
 * When a group succeeds: every rank's arguments fit the owner's plan, the serial
 * fold over the schedule meets no error, and every device drains. Then no
 * synchronised state of the run sees a set error flag.
 */
module VaeSuccess {
  import opened Wrappers
  import opened VaePlan
  import opened VaeSchedule
  import opened VaeTensor
  import opened VaeEngine
  import opened VaeProgress
  import opened VaeSync
  import opened VaeWindows
  import opened VaeRuns

  /** Everything that can be said about success without looking at ranks or rounds. */
  ghost predicate Succeeds(cfg: Config)
    requires ValidConfig(cfg)
  {
    var (plan, full) := (cfg.plans[OwnerSlot(cfg)], cfg.inputs[OwnerSlot(cfg)]);
    && plan.Some? && full.Some?
    && ArgumentsFit(cfg, plan.value)
    && plan.value.rounds >= 0
    && SerialFold(cfg, full.value, Schedule(plan.value.tasks, plan.value.rounds)).Ok?
    && forall k | 0 <= k < |cfg.drainOk| :: cfg.drainOk[k]
  }

  // ---- Parts of a successful fold ---------------------------------------------

  lemma {:induction false} FoldOfPrefix(cfg: Config, full: Tensor, tasks: seq<TaskSpec>, n: nat)
    requires n <= |tasks| && SerialFold(cfg, full, tasks).Ok?
    ensures SerialFold(cfg, full, tasks[..n]).Ok?
    decreases |tasks|
  {
    var last := |tasks| - 1;
    if n == |tasks| {
      assert tasks[..n] == tasks;
    } else {
      FoldOfPrefix(cfg, full, tasks[..last], n);
      assert tasks[..last][..n] == tasks[..n];
    }
  }

  /** A fold that meets no error has produced every task's tile. */
  lemma {:induction false} FoldHasTiles(cfg: Config, full: Tensor, tasks: seq<TaskSpec>, task: TaskSpec)
    requires task in tasks && SerialFold(cfg, full, tasks).Ok?
    ensures DirectTile(cfg, full, task).Some?
  {
    var last := |tasks| - 1;
    if task != tasks[last] {
      assert tasks == tasks[..last] + [tasks[last]];
      FoldHasTiles(cfg, full, tasks[..last], task);
    }
  }

  lemma {:induction false} ScheduleGrows(tasks: seq<TaskSpec>, n: nat, m: nat)
    requires n <= m
    ensures Schedule(tasks, n) <= Schedule(tasks, m)
  {
    if n < m { ScheduleGrows(tasks, n, m - 1); }
  }

  /** Every occupied slot's task is in the schedule. */
  lemma {:induction false} SlotIsScheduled(plan: TaskPlan, ranks: seq<int>, round: nat, i: nat)
    requires Agreed(plan, ranks) && round < plan.rounds && i < |ranks| && Slots(plan, ranks, round)[i].Some?
    ensures Slots(plan, ranks, round)[i].value in Schedule(plan.tasks, plan.rounds)
  {
    var task := Slots(plan, ranks, round)[i].value;
    var k := SlotHoldsATask(plan.tasks, ranks[i], round);
    ScheduleIsAPermutation(plan);
    assert task in multiset(plan.tasks);
  }

  /** What the owner has merged by any position is the start of the schedule. */
  lemma {:induction false} OutputsArePrefix(plan: TaskPlan, ranks: seq<int>, r: nat, j: nat)
    requires Agreed(plan, ranks) && PcInPlan(plan, ranks, AtMerge(r, j))
    ensures OutputsSoFar(plan, ranks, AtMerge(r, j)) <= Schedule(plan.tasks, plan.rounds)
  {
    WholeRound(plan, ranks, r);
    ScheduleGrows(plan.tasks, r + 1, plan.rounds);
    var m := RoundMerges(plan, ranks, r);
    MergedPrefix(plan, ranks, r, j + 1);
    PrefixOfAppend(Schedule(plan.tasks, r), MergedItems(plan, ranks, r, j + 1), MergedItems(plan, ranks, r, |m|));
  }

  lemma {:induction false} PrefixOfAppend(a: seq<TaskSpec>, b: seq<TaskSpec>, c: seq<TaskSpec>)
    requires b <= c
    ensures a + b <= a + c
  {}

  lemma {:induction false} MergedPrefix(plan: TaskPlan, ranks: seq<int>, r: nat, j: nat)
    requires j <= |RoundMerges(plan, ranks, r)|
    ensures MergedItems(plan, ranks, r, j) <= MergedItems(plan, ranks, r, |RoundMerges(plan, ranks, r)|)
  {
    var m := RoundMerges(plan, ranks, r);
    assert m[..|m|] == m;
    forall k | 0 <= k < j ensures TasksOf(m[..j])[k] == TasksOf(m[..|m|])[k] {}
  }

  // ---- Nobody fails -----------------------------------------------------------

  lemma {:induction false} NobodyFlagged(cfg: Config, acted: World)
    requires |acted| <= |cfg.ranks| && forall k | 0 <= k < |acted| :: acted[k].waiting != Some(true)
    ensures FailedRanks(cfg, acted) == []
  {
    FailedRanksAreTheFlagged(cfg, acted);
  }

  lemma {:induction false} PlanIsQuiet(cfg: Config, s: World)
    requires ValidConfig(cfg) && PlanPhase(cfg, s) && Placed(cfg, s) && Succeeds(cfg) && s[0].pc.AtPlan?
    ensures QuietAt(cfg, s)
  {
    var acted := Acted(cfg, s);
    forall k | 0 <= k < |s| ensures acted[k].waiting != Some(true) {
      assert acted[k] == LocalAct(cfg, s[k], k);
    }
    NobodyFlagged(cfg, acted);
  }

  lemma {:induction false} SignatureIsQuiet(cfg: Config, s: World)
    requires ValidConfig(cfg) && PlanPhase(cfg, s) && Placed(cfg, s) && Succeeds(cfg) && s[0].pc.AtSignature?
    ensures QuietAt(cfg, s)
  {
    var acted := Acted(cfg, s);
    forall k | 0 <= k < |s| ensures acted[k].waiting != Some(true) {}
    forall k | 0 <= k < |s| ensures s[k].metadata == PreparedMetadata(cfg, k) {}
    NobodyFlagged(cfg, acted);
  }

  lemma {:induction false} BroadcastIsQuiet(cfg: Config, s: World)
    requires ValidConfig(cfg) && PlanPhase(cfg, s) && Placed(cfg, s) && Succeeds(cfg) && s[0].pc.AtBroadcast?
    ensures QuietAt(cfg, s)
  {
    var (acted, plan) := (Acted(cfg, s), cfg.plans[OwnerSlot(cfg)].value);
    OwnerPlanDecodes(cfg);
    assert s[OwnerSlot(cfg)].metadata == PreparedMetadata(cfg, OwnerSlot(cfg));
    BroadcastActs(cfg, s, plan);
    forall k | 0 <= k < |s| ensures acted[k].waiting != Some(true) {
      assert cfg.plans[k].Some? ==> cfg.plans[k].value == plan;
    }
    NobodyFlagged(cfg, acted);
  }

  lemma {:induction false} PlanPhaseIsQuiet(cfg: Config, s: World)
    requires ValidConfig(cfg) && PlanPhase(cfg, s) && Placed(cfg, s) && Succeeds(cfg)
    ensures QuietAt(cfg, s)
  {
    match s[0].pc {
      case AtPlan => PlanIsQuiet(cfg, s);
      case AtSignature => SignatureIsQuiet(cfg, s);
      case AtBroadcast => BroadcastIsQuiet(cfg, s);
    }
  }

  lemma {:induction false} TilesExist(cfg: Config, plan: TaskPlan, full: Tensor, round: nat, i: nat)
    requires Agreed(plan, cfg.ranks) && round < plan.rounds && i < |cfg.ranks|
    requires Slots(plan, cfg.ranks, round)[i].Some?
    requires SerialFold(cfg, full, Schedule(plan.tasks, plan.rounds)).Ok?
    ensures Materialized(cfg, full, Slots(plan, cfg.ranks, round)[i].value, Envelope(plan, cfg.ranks, round, false)).Some?
    ensures TileIn(cfg, full, Slots(plan, cfg.ranks, round)[i].value, Envelope(plan, cfg.ranks, round, true)).Some?
  {
    var task := Slots(plan, cfg.ranks, round)[i].value;
    SlotIsScheduled(plan, cfg.ranks, round, i);
    FoldHasTiles(cfg, full, Schedule(plan.tasks, plan.rounds), task);
    RoundEnvelopesCover(plan, cfg.ranks, round);
    ViewOfMaterialized(cfg, full, task, Envelope(plan, cfg.ranks, round, false));
    ViewOfTile(cfg, full, task, Envelope(plan, cfg.ranks, round, true));
  }

  lemma {:induction false} MaterializeIsQuiet(cfg: Config, plan: TaskPlan, full: Tensor, s: World)
    requires Working(cfg, plan, full, s) && Placed(cfg, s) && s[0].pc.AtMaterialize?
    requires SerialFold(cfg, full, Schedule(plan.tasks, plan.rounds)).Ok?
    ensures FailedRanks(cfg, Acted(cfg, s)) == []
  {
    MaterializeActs(cfg, plan, full, s);
    TilesExist(cfg, plan, full, s[0].pc.round, s[0].pc.slot);
    FailedRanksAreTheFlagged(cfg, Acted(cfg, s));
  }

  lemma {:induction false} ExecuteIsQuiet(cfg: Config, plan: TaskPlan, full: Tensor, s: World)
    requires Working(cfg, plan, full, s) && Placed(cfg, s) && s[0].pc.AtExecute?
    requires SerialFold(cfg, full, Schedule(plan.tasks, plan.rounds)).Ok?
    ensures FailedRanks(cfg, Acted(cfg, s)) == []
  {
    ExecuteActs(cfg, plan, full, s);
    FailedRanksAreTheFlagged(cfg, Acted(cfg, s));
    forall k | 0 <= k < |s| ensures RoundTile(cfg, plan, full, s[0].pc.round, k).Some? {
      if Slots(plan, cfg.ranks, s[0].pc.round)[k].Some? {
        TilesExist(cfg, plan, full, s[0].pc.round, k);
      }
    }
  }

  lemma {:induction false} FoldSoFar(cfg: Config, plan: TaskPlan, full: Tensor, r: nat, j: nat)
    requires Agreed(plan, cfg.ranks) && PcInPlan(plan, cfg.ranks, AtMerge(r, j))
    requires SerialFold(cfg, full, Schedule(plan.tasks, plan.rounds)).Ok?
    ensures SerialFold(cfg, full, OutputsSoFar(plan, cfg.ranks, AtMerge(r, j))).Ok?
  {
    var outputs := OutputsSoFar(plan, cfg.ranks, AtMerge(r, j));
    OutputsArePrefix(plan, cfg.ranks, r, j);
    FoldOfPrefix(cfg, full, Schedule(plan.tasks, plan.rounds), |outputs|);
    assert Schedule(plan.tasks, plan.rounds)[..|outputs|] == outputs;
  }

  lemma {:induction false} MergedIsQuiet(cfg: Config, s: World, acted: World, merged: Result<Option<Tensor>>)
    requires ValidConfig(cfg) && OwnerMerged(cfg, s, acted, merged) && merged.Ok?
    ensures FailedRanks(cfg, acted) == []
  {
    FailedRanksAreTheFlagged(cfg, acted);
  }

  lemma {:induction false} MergeIsQuiet(cfg: Config, plan: TaskPlan, full: Tensor, s: World)
    requires Working(cfg, plan, full, s) && Placed(cfg, s) && s[0].pc.AtMerge?
    requires SerialFold(cfg, full, Schedule(plan.tasks, plan.rounds)).Ok?
    ensures FailedRanks(cfg, Acted(cfg, s)) == []
  {
    FoldSoFar(cfg, plan, full, s[0].pc.round, s[0].pc.item);
    MergeActs(cfg, plan, full, s);
    MergedIsQuiet(cfg, s, Acted(cfg, s), SerialFold(cfg, full, OutputsSoFar(plan, cfg.ranks, s[0].pc)));
  }

  lemma {:induction false} ScatterIsQuiet(cfg: Config, plan: TaskPlan, full: Tensor, s: World)
    requires Working(cfg, plan, full, s) && Placed(cfg, s) && s[0].pc.AtScatter?
    ensures FailedRanks(cfg, Acted(cfg, s)) == []
  {
    ScatterActs(cfg, plan, full, s);
    ScatterQuiet(cfg, plan, full, s, Acted(cfg, s));
  }

  lemma {:induction false} GatherIsQuiet(cfg: Config, plan: TaskPlan, full: Tensor, s: World)
    requires Working(cfg, plan, full, s) && Placed(cfg, s) && s[0].pc.AtGather?
    ensures FailedRanks(cfg, Acted(cfg, s)) == []
  {
    GatherActs(cfg, plan, full, s);
    GatherQuiet(cfg, plan, full, s, Acted(cfg, s));
  }

  lemma {:induction false} DrainIsQuiet(cfg: Config, plan: TaskPlan, full: Tensor, s: World)
    requires Working(cfg, plan, full, s) && Placed(cfg, s) && s[0].pc.AtDrain?
    requires forall k | 0 <= k < |cfg.drainOk| :: cfg.drainOk[k]
    ensures FailedRanks(cfg, Acted(cfg, s)) == []
  {
    var acted := Acted(cfg, s);
    FailedRanksAreTheFlagged(cfg, acted);
    forall k | 0 <= k < |s| ensures acted[k].waiting == Some(false) {
      assert acted[k] == LocalAct(cfg, s[k], k);
    }
  }

  lemma {:induction false} WorkingIsQuiet(cfg: Config, plan: TaskPlan, full: Tensor, s: World)
    requires Working(cfg, plan, full, s) && Placed(cfg, s) && !s[0].pc.AtEnd?
    requires SerialFold(cfg, full, Schedule(plan.tasks, plan.rounds)).Ok?
    requires forall k | 0 <= k < |cfg.drainOk| :: cfg.drainOk[k]
    ensures FailedRanks(cfg, Acted(cfg, s)) == []
  {
    match s[0].pc {
      case AtMaterialize(_, _) => MaterializeIsQuiet(cfg, plan, full, s);
      case AtScatter(_, _) => ScatterIsQuiet(cfg, plan, full, s);
      case AtExecute(_) => ExecuteIsQuiet(cfg, plan, full, s);
      case AtGather(_, _) => GatherIsQuiet(cfg, plan, full, s);
      case AtMerge(_, _) => MergeIsQuiet(cfg, plan, full, s);
      case AtDrain => DrainIsQuiet(cfg, plan, full, s);
    }
  }

  lemma {:induction false} SuccessIsQuiet(cfg: Config, s: World)
    requires ValidConfig(cfg) && Synced(cfg, s) && s[0].outcome.Running? && Placed(cfg, s) && Succeeds(cfg)
    ensures QuietAt(cfg, s)
  {
    if PlanPhase(cfg, s) {
      PlanPhaseIsQuiet(cfg, s);
    } else {
      var plan: TaskPlan, full: Tensor :| Working(cfg, plan, full, s);
      WorkingIsQuiet(cfg, plan, full, s);
    }
  }

  /** A successful configuration never reaches a synchronised state that has raised. */
  lemma {:induction false} SuccessNeverRaises(cfg: Config, s: World)
    requires ValidConfig(cfg) && Synced(cfg, s) && s[0].outcome.Running? && Placed(cfg, s) && Succeeds(cfg)
    ensures !AllRaised(cfg, Window(cfg, s))
  {
    SuccessIsQuiet(cfg, s);
    QuietWindowIsSynced(cfg, s);
  }
}
