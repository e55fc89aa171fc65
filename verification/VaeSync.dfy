/**
 * The engine window by window. A window is what happens between two control
 * gathers; the states in which every rank has just left the same gather are the
 * synchronised states. This module shows what they all have in common.
 */
module VaeSync {
  import opened Wrappers
  import opened VaePlan
  import opened VaeSchedule
  import opened VaeTensor
  import opened VaeEngine
  import opened VaeProgress

  // ---- One window -----------------------------------------------------------

  ghost predicate Placed(cfg: Config, s: World) {
    |s| == |cfg.ranks| && forall k | 0 <= k < |s| :: WellPlaced(cfg, s[k])
  }

  /** Rank `k` after its action in the window that starts at `s`. */
  ghost function ActResult(cfg: Config, s: World, k: nat): RankState
    requires ValidConfig(cfg) && Placed(cfg, s) && k < |s|
  {
    match CommOf(cfg, s[k], k)
    case NoComm => LocalAct(cfg, s[k], k)
    case Broadcast => AfterBroadcast(cfg, s[k], k, s[OwnerSlot(cfg)].metadata)
    case Send(_, _, _) => AfterSend(s[k])
    case Receive(peer, _, _) =>
      if peer in cfg.ranks && CommOf(cfg, s[IndexOf(cfg.ranks, peer)], IndexOf(cfg.ranks, peer)).Send?
      then AfterReceive(s[k], CommOf(cfg, s[IndexOf(cfg.ranks, peer)], IndexOf(cfg.ranks, peer)).payload)
      else s[k]
  }

  ghost function Acted(cfg: Config, s: World): World
    requires ValidConfig(cfg) && Placed(cfg, s)
  {
    seq(|s|, k requires 0 <= k < |s| => ActResult(cfg, s, k))
  }

  /** Every rank after the control gather. */
  ghost function Moved(cfg: Config, acted: World): World
    requires ValidConfig(cfg) && |acted| == |cfg.ranks|
  {
    seq(|acted|, k requires 0 <= k < |acted| => AfterGather(cfg, acted, k))
  }

  ghost function Window(cfg: Config, s: World): World
    requires ValidConfig(cfg) && Placed(cfg, s)
  {
    Moved(cfg, Acted(cfg, s))
  }

  // ---- Tiles ----------------------------------------------------------------

  /** A task's finished tile inside some output envelope. */
  ghost function TileIn(cfg: Config, full: Tensor, task: TaskSpec, envelope: seq<int>): Option<Tensor> {
    match Materialized(cfg, full, task, task.paddedInputShape)
    case None => None
    case Some(view) => Executed(cfg, task.assignedRank, view, task, envelope)
  }

  lemma {:induction false} ViewOfMaterialized(cfg: Config, full: Tensor, task: TaskSpec, envelope: seq<int>)
    requires FitsInside(task.paddedInputShape, envelope)
    ensures var tile := Materialized(cfg, full, task, envelope);
            && (tile.Some? <==> Materialized(cfg, full, task, task.paddedInputShape).Some?)
            && (tile.Some? ==> View(tile.value, task.paddedInputShape)
                               == Materialized(cfg, full, task, task.paddedInputShape))
  {
    if cfg.materialize(full, task).Some? {
      CropOfPad(cfg.materialize(full, task).value, envelope, task.paddedInputShape);
    }
  }

  lemma {:induction false} ViewOfTile(cfg: Config, full: Tensor, task: TaskSpec, envelope: seq<int>)
    requires FitsInside(task.paddedOutputShape, envelope)
    ensures var tile := TileIn(cfg, full, task, envelope);
            && (tile.Some? <==> DirectTile(cfg, full, task).Some?)
            && (tile.Some? ==> View(tile.value, task.paddedOutputShape) == DirectTile(cfg, full, task))
  {
    var view := Materialized(cfg, full, task, task.paddedInputShape);
    if view.Some? && cfg.execute(task.assignedRank, view.value, task).Some? {
      CropOfPad(cfg.execute(task.assignedRank, view.value, task).value, envelope, task.paddedOutputShape);
    }
  }

  /** Both envelopes of a round of an agreed plan are defined and cover its tasks. */
  lemma {:induction false} RoundEnvelopesCover(plan: TaskPlan, ranks: seq<int>, round: nat)
    requires Agreed(plan, ranks) && round < plan.rounds
    ensures RoundEnvelope(Slots(plan, ranks, round), false).Some?
    ensures RoundEnvelope(Slots(plan, ranks, round), true).Some?
    ensures forall s | 0 <= s < |ranks| && Slots(plan, ranks, round)[s].Some? ::
              var task := Slots(plan, ranks, round)[s].value;
              && FitsInside(task.paddedInputShape, Envelope(plan, ranks, round, false))
              && FitsInside(task.paddedOutputShape, Envelope(plan, ranks, round, true))
              && task.assignedRank == ranks[s]
  {
    var slots := Slots(plan, ranks, round);
    RoundsAreNonEmpty(plan, ranks, round);
    forall s | 0 <= s < |slots| && slots[s].Some?
      ensures |slots[s].value.paddedInputShape| == |plan.globalInputShape|
      ensures |slots[s].value.paddedOutputShape| == |plan.globalOutputShape|
      ensures slots[s].value.assignedRank == ranks[s]
    {
      var k := SlotHoldsATask(plan.tasks, ranks[s], round);
      assert ValidTask(plan.tasks[k], plan.globalInputShape, plan.globalOutputShape);
    }
    EnvelopeCoversSlots(slots, false, |plan.globalInputShape|);
    EnvelopeCoversSlots(slots, true, |plan.globalOutputShape|);
  }

  /** The merge items of a round are its occupied slots. */
  lemma {:induction false} ItemIsASlot(plan: TaskPlan, ranks: seq<int>, round: nat, j: nat)
    requires Agreed(plan, ranks) && j < |RoundMerges(plan, ranks, round)|
    ensures var item := RoundMerges(plan, ranks, round)[j];
            && item.slot < |ranks| && Slots(plan, ranks, round)[item.slot] == Some(item.task)
            && item.task.assignedRank == ranks[item.slot]
  {
    ActiveIdsDiffer(plan, ranks, round);
    SortByIdSorts(RoundActive(plan, ranks, round));
    ActiveSlotsAreTheOccupiedOnes(Slots(plan, ranks, round), |ranks|);
    var item := RoundMerges(plan, ranks, round)[j];
    assert item in RoundMerges(plan, ranks, round);
    var k := SlotHoldsATask(plan.tasks, ranks[item.slot], round);
  }

  // ---- What synchronised states have in common --------------------------------

  ghost predicate Uniform(cfg: Config, s: World) {
    && |s| == |cfg.ranks| && |s| > 0
    && forall k | 0 <= k < |s| ::
         s[k].waiting.None? && s[k].pc == s[0].pc && s[k].outcome == s[0].outcome && s[k].log == s[0].log
  }

  /** After the plan phase's first gather: every rank has prepared its metadata. */
  ghost predicate PlansPrepared(cfg: Config, s: World)
    requires ValidConfig(cfg) && |s| == |cfg.ranks|
  {
    forall k | 0 <= k < |s| ::
      && !PrepareFails(cfg, k)
      && s[k] == Start().(pc := s[k].pc, log := s[k].log, metadata := PreparedMetadata(cfg, k))
  }

  /** How many transfers rank `k` takes part in for these tasks. */
  function TransfersOf(cfg: Config, tasks: seq<TaskSpec>, k: nat): int
    requires k < |cfg.ranks|
  {
    if cfg.ranks[k] == cfg.ownerRank then |tasks| - TaskCount(tasks, cfg.ownerRank)
    else TaskCount(tasks, cfg.ranks[k])
  }

  /** A rank with a task in the round holds its materialized tile. */
  ghost predicate InputReady(cfg: Config, plan: TaskPlan, full: Tensor, st: RankState, round: nat, k: nat)
    requires k < |cfg.ranks|
  {
    Slots(plan, cfg.ranks, round)[k].Some? ==>
      var tile := Materialized(cfg, full, Slots(plan, cfg.ranks, round)[k].value,
                               Envelope(plan, cfg.ranks, round, false));
      tile.Some? && st.localInput == tile
  }

  ghost predicate InputsReady(cfg: Config, plan: TaskPlan, full: Tensor, s: World, round: nat, n: nat)
    requires |s| == |cfg.ranks|
  {
    forall k | 0 <= k < n && k < |s| :: InputReady(cfg, plan, full, s[k], round, k)
  }

  /** The rank of a merge item holds its finished tile. */
  ghost predicate OutputReady(cfg: Config, full: Tensor, s: World, item: Active, envelope: seq<int>) {
    var tile := TileIn(cfg, full, item.task, envelope);
    item.slot < |s| && tile.Some? && s[item.slot].localOutput == tile
  }

  /** ... and so do the ranks of all the round's items from `j` on. */
  ghost predicate OutputsReady(cfg: Config, plan: TaskPlan, full: Tensor, s: World, round: nat, j: nat)
    requires |s| == |cfg.ranks|
  {
    var merges := RoundMerges(plan, cfg.ranks, round);
    forall i | j <= i < |merges| ::
      OutputReady(cfg, full, s, merges[i], Envelope(plan, cfg.ranks, round, true))
  }

  ghost predicate BuffersReady(cfg: Config, plan: TaskPlan, full: Tensor, s: World, pc: Pc)
    requires ValidConfig(cfg) && |s| == |cfg.ranks|
  {
    match pc
    case AtMaterialize(r, i) => InputsReady(cfg, plan, full, s, r, i)
    case AtScatter(r, i) =>
      && InputsReady(cfg, plan, full, s, r, i)
      && i < |s| && Slots(plan, cfg.ranks, r)[i].Some?
      && s[OwnerSlot(cfg)].prepared.Some?
      && s[OwnerSlot(cfg)].prepared
         == Materialized(cfg, full, Slots(plan, cfg.ranks, r)[i].value, Envelope(plan, cfg.ranks, r, false))
    case AtExecute(r) => InputsReady(cfg, plan, full, s, r, |s|)
    case AtGather(r, j) => OutputsReady(cfg, plan, full, s, r, j)
    case AtMerge(r, j) =>
      && OutputsReady(cfg, plan, full, s, r, j)
      && j < |RoundMerges(plan, cfg.ranks, r)|
      && s[OwnerSlot(cfg)].received.Some?
      && s[OwnerSlot(cfg)].received
         == TileIn(cfg, full, RoundMerges(plan, cfg.ranks, r)[j].task, Envelope(plan, cfg.ranks, r, true))
    case AtEnd => forall k | 0 <= k < |s| :: cfg.drainOk[k]
    case _ => true
  }

  /** The arguments of all ranks fit the owner's plan. */
  ghost predicate ArgumentsFit(cfg: Config, plan: TaskPlan)
    requires ValidConfig(cfg)
  {
    forall k | 0 <= k < |cfg.ranks| ::
      && !PrepareFails(cfg, k)
      && (cfg.plans[k].Some? ==> cfg.plans[k].value == plan)
      && |PreparedMetadata(cfg, k)| == |PlanValues(plan)|
  }

  ghost predicate Agreement(cfg: Config, plan: TaskPlan, full: Tensor) {
    && ValidConfig(cfg)
    && Agreed(plan, cfg.ranks)
    && cfg.plans[OwnerSlot(cfg)] == Some(plan)
    && cfg.inputs[OwnerSlot(cfg)] == Some(full)
    && ArgumentsFit(cfg, plan)
  }

  /** The log lists one gather for every position before `pc`. */
  predicate Logged(plan: TaskPlan, ranks: seq<int>, log: seq<Pc>, pc: Pc) {
    && |log| == Position(plan, ranks, pc)
    && forall i | 0 <= i < |log| :: Position(plan, ranks, log[i]) == i
  }

  /** Every rank has counted its transfers before `pc`. */
  predicate Counted(cfg: Config, plan: TaskPlan, s: World, pc: Pc)
    requires |s| == |cfg.ranks|
  {
    forall k | 0 <= k < |s| ::
      && s[k].inputTransfers == TransfersOf(cfg, InputsSoFar(plan, cfg.ranks, pc), k)
      && s[k].outputTransfers == TransfersOf(cfg, OutputsSoFar(plan, cfg.ranks, pc), k)
  }

  /** A synchronised state after the ranks have agreed on the owner's plan. */
  ghost predicate Working(cfg: Config, plan: TaskPlan, full: Tensor, s: World) {
    && Agreement(cfg, plan, full)
    && Uniform(cfg, s)
    && var pc := s[0].pc;
    && PcInPlan(plan, cfg.ranks, pc)
    && s[0].outcome == (if pc.AtEnd? then Returned else Running)
    && Logged(plan, cfg.ranks, s[0].log, pc)
    && (forall k | 0 <= k < |s| :: s[k].plan == Some(plan))
    && Counted(cfg, plan, s, pc)
    && SerialFold(cfg, full, MergedSoFar(plan, cfg.ranks, pc)) == Ok(s[OwnerSlot(cfg)].merged)
    && BuffersReady(cfg, plan, full, s, pc)
  }

  ghost predicate PlanPhase(cfg: Config, s: World)
    requires ValidConfig(cfg)
  {
    && Uniform(cfg, s)
    && s[0].outcome.Running?
    && match s[0].pc
       case AtPlan => s == Init(cfg)
       case AtSignature => PlansPrepared(cfg, s) && s[0].log == [AtPlan]
       case AtBroadcast =>
         PlansPrepared(cfg, s) && SignaturesAgree(cfg, s) && s[0].log == [AtPlan, AtSignature]
       case _ => false
  }

  /** Every rank has raised, at the same position, naming the same ranks. */
  ghost predicate AllRaised(cfg: Config, s: World)
    requires ValidConfig(cfg)
  {
    && Uniform(cfg, s)
    && s[0].outcome.Raised?
    && s[0].outcome.phase == PhaseOf(s[0].pc)
    && s[0].outcome.failedRanks != []
  }

  ghost predicate Synced(cfg: Config, s: World)
    requires ValidConfig(cfg)
  {
    || PlanPhase(cfg, s)
    || AllRaised(cfg, s)
    || (exists plan: TaskPlan, full: Tensor :: Working(cfg, plan, full, s))
  }

  lemma {:induction false} SyncedIsUniform(cfg: Config, s: World)
    requires ValidConfig(cfg) && Synced(cfg, s)
    ensures Uniform(cfg, s)
  {}

  // ---- Gathers ----------------------------------------------------------------

  lemma {:induction false} FailedRanksAreTheFlagged(cfg: Config, w: World)
    requires |w| <= |cfg.ranks|
    ensures forall k | 0 <= k < |w| && w[k].waiting == Some(true) :: cfg.ranks[k] in FailedRanks(cfg, w)
    ensures forall r | r in FailedRanks(cfg, w) ::
              exists k | 0 <= k < |w| :: w[k].waiting == Some(true) && cfg.ranks[k] == r
    ensures FailedRanks(cfg, w) == [] <==> forall k | 0 <= k < |w| :: w[k].waiting != Some(true)
  {
    if w != [] {
      var last := |w| - 1;
      FailedRanksAreTheFlagged(cfg, w[..last]);
      forall r | r in FailedRanks(cfg, w)
        ensures exists k | 0 <= k < |w| :: w[k].waiting == Some(true) && cfg.ranks[k] == r
      {
        if r in FailedRanks(cfg, w[..last]) {
          var k :| 0 <= k < last && w[..last][k].waiting == Some(true) && cfg.ranks[k] == r;
          assert w[k].waiting == Some(true);
        } else {
          assert w[last].waiting == Some(true) && cfg.ranks[last] == r;
        }
      }
      forall k | 0 <= k < |w| && w[k].waiting == Some(true)
        ensures cfg.ranks[k] in FailedRanks(cfg, w)
      {
        if k < last { assert w[..last][k] == w[k]; }
      }
      assert w[last].waiting == Some(true) ==> FailedRanks(cfg, w) != [];
      assert forall k | 0 <= k < last :: w[..last][k] == w[k];
    }
  }

  /** Every rank's action ends at the gather, and changes neither position nor log. */
  lemma {:induction false} ActKeepsPlace(cfg: Config, s: World, k: nat)
    requires ValidConfig(cfg) && Placed(cfg, s) && k < |s|
    requires CommOf(cfg, s[k], k).Receive? ==>
               CommOf(cfg, s[k], k).peer in cfg.ranks
               && CommOf(cfg, s[IndexOf(cfg.ranks, CommOf(cfg, s[k], k).peer)],
                         IndexOf(cfg.ranks, CommOf(cfg, s[k], k).peer)).Send?
    ensures var r := ActResult(cfg, s, k);
            r.waiting.Some? && r.pc == s[k].pc && r.log == s[k].log && r.outcome == s[k].outcome
  {}

  /** If some flag is set, everybody raises: same phase, same list of failed ranks. */
  lemma {:induction false} FlaggedWindowRaises(cfg: Config, s: World)
    requires ValidConfig(cfg) && Uniform(cfg, s) && Placed(cfg, s) && !s[0].pc.AtSignature?
    requires forall k | 0 <= k < |s| ::
               var r := ActResult(cfg, s, k);
               r.waiting.Some? && r.pc == s[k].pc && r.log == s[k].log
    requires FailedRanks(cfg, Acted(cfg, s)) != []
    ensures AllRaised(cfg, Window(cfg, s))
    ensures Window(cfg, s)[0].pc == s[0].pc
    ensures Window(cfg, s)[0].outcome.failedRanks == FailedRanks(cfg, Acted(cfg, s))
  {}
}
