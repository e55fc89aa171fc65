/**
 * `VAEParallelEngine.execute` as a network of ranks. Every rank walks through
 * the same nested loops over rounds and slots; at each stop it acts locally or
 * takes part in one blocking transfer, and then waits at a control gather that
 * exchanges error flags. Transfers and the broadcast do not fail; the plan
 * checks and the materialize, execute, merge and drain code may.
 */
module VaeEngine {
  import opened Wrappers
  import opened VaePlan
  import opened VaeSchedule
  import opened VaeTensor

  datatype Phase = PLAN | MATERIALIZE | SCATTER | EXECUTE | GATHER | MERGE | DRAIN

  /**
   * The group and what each of its ranks passes to `execute`. The callbacks
   * return `None` where they raise or return something that is no tensor of the
   * expected dtype and device; a callback runs at most once per task, so a
   * function describes every behaviour it can have in one run.
   */
  datatype Config = Config(
    ranks: seq<int>,
    ownerRank: int,
    plans: seq<Option<TaskPlan>>,
    metadataSizes: seq<Option<int>>,
    inputs: seq<Option<Tensor>>,
    argumentsOk: seq<bool>,
    digest: seq<int> -> int,
    materialize: (Tensor, TaskSpec) -> Option<Tensor>,
    execute: (int, Tensor, TaskSpec) -> Option<Tensor>,
    merge: (Option<Tensor>, TaskSpec, Tensor) -> Option<Tensor>,
    drainOk: seq<bool>)

  ghost predicate ValidConfig(cfg: Config) {
    && ValidGroup(cfg.ranks)
    && cfg.ownerRank in cfg.ranks
    && |cfg.plans| == |cfg.metadataSizes| == |cfg.inputs| == |cfg.argumentsOk| == |cfg.drainOk| == |cfg.ranks|
  }

  function IndexOf(xs: seq<int>, x: int): (i: nat)
    requires x in xs
    ensures i < |xs| && xs[i] == x
  {
    if xs[0] == x then 0 else IndexOf(xs[1..], x) + 1
  }

  ghost function OwnerSlot(cfg: Config): nat
    requires ValidConfig(cfg)
  {
    IndexOf(cfg.ranks, cfg.ownerRank)
  }

  // ---- Where a rank stands ------------------------------------------------

  datatype Pc =
    | AtPlan
    | AtSignature
    | AtBroadcast
    | AtMaterialize(round: nat, slot: nat)
    | AtScatter(round: nat, slot: nat)
    | AtExecute(round: nat)
    | AtGather(round: nat, item: nat)
    | AtMerge(round: nat, item: nat)
    | AtDrain
    | AtEnd

  function PhaseOf(pc: Pc): Phase {
    match pc
    case AtPlan => PLAN
    case AtSignature => PLAN
    case AtBroadcast => PLAN
    case AtMaterialize(_, _) => MATERIALIZE
    case AtScatter(_, _) => SCATTER
    case AtExecute(_) => EXECUTE
    case AtGather(_, _) => GATHER
    case AtMerge(_, _) => MERGE
    case AtDrain => DRAIN
    case AtEnd => DRAIN
  }

  /** `Crashed` is an exception outside the agreed phases, which peers would not see. */
  datatype Outcome = Running | Returned | Raised(phase: Phase, failedRanks: seq<int>) | Crashed

  /**
   * One rank. `waiting` is the error flag it has put into the current control
   * gather; `log` lists the control gathers it has completed.
   */
  datatype RankState = RankState(
    pc: Pc,
    waiting: Option<bool>,
    outcome: Outcome,
    log: seq<Pc>,
    metadata: seq<int>,
    plan: Option<TaskPlan>,
    prepared: Option<Tensor>,
    localInput: Option<Tensor>,
    localOutput: Option<Tensor>,
    received: Option<Tensor>,
    merged: Option<Tensor>,
    inputTransfers: nat,
    outputTransfers: nat)

  type World = seq<RankState>

  function Start(): RankState {
    RankState(AtPlan, None, Running, [], [], None, None, None, None, None, None, 0, 0)
  }

  ghost function Init(cfg: Config): World {
    seq(|cfg.ranks|, _ => Start())
  }

  /** A position that the rank's own plan gives a meaning to. */
  ghost predicate WellPlaced(cfg: Config, st: RankState) {
    match st.pc
    case AtMaterialize(r, i) =>
      st.plan.Some? && i < |cfg.ranks| && Slots(st.plan.value, cfg.ranks, r)[i].Some?
    case AtScatter(r, i) =>
      st.plan.Some? && i < |cfg.ranks| && Slots(st.plan.value, cfg.ranks, r)[i].Some?
    case AtExecute(r) => st.plan.Some?
    case AtGather(r, j) => st.plan.Some? && j < |RoundMerges(st.plan.value, cfg.ranks, r)|
    case AtMerge(r, j) => st.plan.Some? && j < |RoundMerges(st.plan.value, cfg.ranks, r)|
    case _ => true
  }

  ghost function SlotTask(cfg: Config, st: RankState, round: nat, slot: nat): TaskSpec
    requires st.plan.Some? && slot < |cfg.ranks| && Slots(st.plan.value, cfg.ranks, round)[slot].Some?
  {
    Slots(st.plan.value, cfg.ranks, round)[slot].value
  }

  /** The round's envelope; a rank enters a round only when it is defined. */
  function Envelope(plan: TaskPlan, ranks: seq<int>, round: nat, output: bool): seq<int> {
    var envelope := RoundEnvelope(Slots(plan, ranks, round), output);
    if envelope.Some? then envelope.value else []
  }

  /** `_vae_transfer_tag`. */
  function TransferTag(round: nat, slot: nat, groupSize: nat, output: bool): int {
    (round * groupSize * 2) + slot + (if output then groupSize else 0)
  }

  // ---- The plan phase -----------------------------------------------------

  ghost predicate InputFits(cfg: Config, k: nat, plan: TaskPlan)
    requires ValidConfig(cfg) && k < |cfg.ranks|
  {
    if cfg.ranks[k] == cfg.ownerRank
    then cfg.inputs[k].Some? && cfg.inputs[k].value.shape == plan.globalInputShape
    else cfg.inputs[k].None?
  }

  ghost predicate Membership(cfg: Config, plan: TaskPlan) {
    plan.ownerRank == cfg.ownerRank && PlanFitsGroup(plan, cfg.ranks)
  }

  /** Does the first `try` block of `execute` raise on rank `k`? */
  ghost predicate PrepareFails(cfg: Config, k: nat)
    requires ValidConfig(cfg) && k < |cfg.ranks|
  {
    || !cfg.argumentsOk[k]
    || match cfg.plans[k]
       case None =>
         || cfg.ranks[k] == cfg.ownerRank
         || cfg.inputs[k].Some?
         || cfg.metadataSizes[k].None?
         || cfg.metadataSizes[k].value <= 0
       case Some(plan) =>
         || !ValidPlan(plan)
         || !Membership(cfg, plan)
         || !InputFits(cfg, k, plan)
         || !FitsInt64(PlanValues(plan))
         || (cfg.metadataSizes[k].Some?
             && (cfg.metadataSizes[k].value <= 0 || cfg.metadataSizes[k].value != |PlanValues(plan)|))
  }

  /** The metadata vector the rank has afterwards; a rank without a plan only knows its length. */
  ghost function PreparedMetadata(cfg: Config, k: nat): seq<int>
    requires ValidConfig(cfg) && k < |cfg.ranks| && !PrepareFails(cfg, k)
  {
    match cfg.plans[k]
    case None => seq(cfg.metadataSizes[k].value, _ => 0)
    case Some(plan) => PlanValues(plan)
  }

  /** `_synchronize_execution_signature` on the gathered (has plan, length, digest) rows. */
  ghost predicate SignaturesAgree(cfg: Config, w: World)
    requires ValidConfig(cfg) && |w| == |cfg.ranks|
  {
    var owner := OwnerSlot(cfg);
    && cfg.plans[owner].Some?
    && (forall k | 0 <= k < |w| :: |w[k].metadata| == |w[owner].metadata|)
    && (forall k | 0 <= k < |w| && cfg.plans[k].Some? ::
          cfg.digest(w[k].metadata) == cfg.digest(w[owner].metadata))
  }

  /** What a rank does with the broadcast metadata. */
  ghost function AfterBroadcast(cfg: Config, st: RankState, k: nat, metadata: seq<int>): RankState
    requires ValidConfig(cfg) && k < |cfg.ranks|
  {
    var decoded := DecodeValues(metadata);
    var ok := decoded.Ok? && Membership(cfg, decoded.value)
              && (cfg.plans[k].Some? ==> decoded.value == cfg.plans[k].value);
    st.(metadata := metadata, plan := if ok then Some(decoded.value) else None, waiting := Some(!ok))
  }

  // ---- One rank's actions -------------------------------------------------

  datatype Comm =
    | NoComm
    | Broadcast
    | Send(peer: int, tag: int, payload: Tensor)
    | Receive(peer: int, tag: int, shape: seq<int>)

  /** The blocking communication the rank is about to do at its position, if any. */
  ghost function CommOf(cfg: Config, st: RankState, k: nat): Comm
    requires ValidConfig(cfg) && k < |cfg.ranks| && WellPlaced(cfg, st)
  {
    match st.pc
    case AtBroadcast => Broadcast
    case AtScatter(r, i) =>
      var task := SlotTask(cfg, st, r, i);
      var tag := TransferTag(r, i, |cfg.ranks|, false);
      if task.assignedRank == cfg.ownerRank then NoComm
      else if cfg.ranks[k] == cfg.ownerRank then
        if st.prepared.Some? then Send(task.assignedRank, tag, st.prepared.value) else NoComm
      else if cfg.ranks[k] == task.assignedRank then
        Receive(cfg.ownerRank, tag, Envelope(st.plan.value, cfg.ranks, r, false))
      else NoComm
    case AtGather(r, j) =>
      var item := RoundMerges(st.plan.value, cfg.ranks, r)[j];
      var tag := TransferTag(r, item.slot, |cfg.ranks|, true);
      if item.task.assignedRank == cfg.ownerRank then NoComm
      else if cfg.ranks[k] == cfg.ownerRank then
        Receive(item.task.assignedRank, tag, Envelope(st.plan.value, cfg.ranks, r, true))
      else if cfg.ranks[k] == item.task.assignedRank then
        if st.localOutput.Some? then Send(cfg.ownerRank, tag, st.localOutput.value) else NoComm
      else NoComm
    case _ => NoComm
  }

  ghost function AfterSend(st: RankState): RankState {
    if st.pc.AtScatter?
    then st.(waiting := Some(false), inputTransfers := st.inputTransfers + 1)
    else st.(waiting := Some(false), outputTransfers := st.outputTransfers + 1)
  }

  ghost function AfterReceive(st: RankState, payload: Tensor): RankState {
    if st.pc.AtScatter?
    then st.(waiting := Some(false), localInput := Some(payload), inputTransfers := st.inputTransfers + 1)
    else st.(waiting := Some(false), received := Some(payload), outputTransfers := st.outputTransfers + 1)
  }

  /** `materialize_input` and padding, on the owner. */
  ghost function Materialized(cfg: Config, full: Tensor, task: TaskSpec, envelope: seq<int>): Option<Tensor> {
    match cfg.materialize(full, task)
    case None => None
    case Some(tile) => Pad(tile, envelope, task.paddedInputShape)
  }

  /** `execute_local` on the cropped view, and padding, on the assigned rank. */
  ghost function Executed(cfg: Config, rank: int, view: Tensor, task: TaskSpec, envelope: seq<int>): Option<Tensor> {
    match cfg.execute(rank, view, task)
    case None => None
    case Some(tile) => Pad(tile, envelope, task.paddedOutputShape)
  }

  /** `_origin_crop` to the task's own shape; a mismatch in axes raises. */
  ghost function View(t: Tensor, shape: seq<int>): Option<Tensor> {
    if |t.shape| == |shape| then Some(Crop(t, shape)) else None
  }

  ghost function ExecuteStep(cfg: Config, st: RankState, k: nat, round: nat): RankState
    requires ValidConfig(cfg) && k < |cfg.ranks| && st.plan.Some?
  {
    var plan := st.plan.value;
    var localInput := if st.localInput.Some? then st.localInput.value
                      else Zeros(Envelope(plan, cfg.ranks, round, false));
    var outputEnvelope := Envelope(plan, cfg.ranks, round, true);
    match Slots(plan, cfg.ranks, round)[k]
    case None => st.(localOutput := Some(Zeros(outputEnvelope)), waiting := Some(false))
    case Some(task) =>
      var view := View(localInput, task.paddedInputShape);
      var output := if view.None? then None
                    else Executed(cfg, cfg.ranks[k], view.value, task, outputEnvelope);
      if output.None?
      then st.(localOutput := Some(Zeros(outputEnvelope)), waiting := Some(true))
      else st.(localOutput := output, waiting := Some(false))
  }

  ghost function MergeStep(cfg: Config, st: RankState, task: TaskSpec): RankState {
    var cropped := if st.received.Some? then View(st.received.value, task.paddedOutputShape) else None;
    var merged := if cropped.Some? then cfg.merge(st.merged, task, cropped.value) else None;
    if merged.Some? then st.(merged := merged, waiting := Some(false)) else st.(waiting := Some(true))
  }

  /** The rank's own work at its position, when no communication is due. */
  ghost function LocalAct(cfg: Config, st: RankState, k: nat): RankState
    requires ValidConfig(cfg) && k < |cfg.ranks| && WellPlaced(cfg, st)
  {
    var isOwner := cfg.ranks[k] == cfg.ownerRank;
    match st.pc
    case AtPlan =>
      if PrepareFails(cfg, k) then st.(waiting := Some(true))
      else st.(metadata := PreparedMetadata(cfg, k), waiting := Some(false))
    case AtMaterialize(r, i) =>
      if !isOwner then st.(waiting := Some(false))
      else
        var prepared := if cfg.inputs[k].None? then None
                        else Materialized(cfg, cfg.inputs[k].value, SlotTask(cfg, st, r, i),
                                          Envelope(st.plan.value, cfg.ranks, r, false));
        st.(prepared := prepared, waiting := Some(prepared.None?))
    case AtScatter(r, i) =>
      if SlotTask(cfg, st, r, i).assignedRank != cfg.ownerRank then st.(waiting := Some(isOwner))
      else if isOwner then st.(localInput := st.prepared, waiting := Some(false))
      else st.(waiting := Some(false))
    case AtExecute(r) => ExecuteStep(cfg, st, k, r)
    case AtGather(r, j) =>
      var task := RoundMerges(st.plan.value, cfg.ranks, r)[j].task;
      if task.assignedRank != cfg.ownerRank then st.(waiting := Some(cfg.ranks[k] == task.assignedRank))
      else if isOwner then st.(received := st.localOutput, waiting := Some(false))
      else st.(waiting := Some(false))
    case AtMerge(r, j) =>
      if isOwner then MergeStep(cfg, st, RoundMerges(st.plan.value, cfg.ranks, r)[j].task)
      else st.(waiting := Some(false))
    case AtDrain => st.(waiting := Some(!cfg.drainOk[k]))
    case _ => st.(waiting := Some(false))
  }

  // ---- The loops ----------------------------------------------------------

  /** The next occupied slot from `i` on, or the execute step after the last one. */
  function FirstSlot(slots: seq<Option<TaskSpec>>, round: nat, i: nat): Pc
    requires i <= |slots|
    decreases |slots| - i
  {
    if i == |slots| then AtExecute(round)
    else if slots[i].Some? then AtMaterialize(round, i)
    else FirstSlot(slots, round, i + 1)
  }

  function EnterRound(plan: TaskPlan, ranks: seq<int>, round: nat): Pc {
    if round >= plan.rounds then AtDrain else FirstSlot(Slots(plan, ranks, round), round, 0)
  }

  /** The owner merges item `j` of the round next, or the next round starts. */
  function EnterItem(plan: TaskPlan, ranks: seq<int>, round: nat, j: nat): Pc {
    if j < |RoundMerges(plan, ranks, round)| then AtGather(round, j) else EnterRound(plan, ranks, round + 1)
  }

  function NextPc(plan: TaskPlan, ranks: seq<int>, pc: Pc): Pc {
    match pc
    case AtPlan => AtSignature
    case AtSignature => AtBroadcast
    case AtBroadcast => EnterRound(plan, ranks, 0)
    case AtMaterialize(r, i) => AtScatter(r, i)
    case AtScatter(r, i) =>
      if i < |ranks| then FirstSlot(Slots(plan, ranks, r), r, i + 1) else AtExecute(r)
    case AtExecute(r) => EnterItem(plan, ranks, r, 0)
    case AtGather(r, j) => AtMerge(r, j)
    case AtMerge(r, j) => EnterItem(plan, ranks, r, j + 1)
    case AtDrain => AtEnd
    case AtEnd => AtEnd
  }

  /** Entering a round computes both envelopes outside any `try` block. */
  predicate RoundCrashes(plan: TaskPlan, ranks: seq<int>, pc: Pc) {
    match pc
    case AtMaterialize(r, _) =>
      || RoundEnvelope(Slots(plan, ranks, r), false).None?
      || RoundEnvelope(Slots(plan, ranks, r), true).None?
    case AtExecute(r) =>
      || RoundEnvelope(Slots(plan, ranks, r), false).None?
      || RoundEnvelope(Slots(plan, ranks, r), true).None?
    case _ => false
  }

  /** Past a gather that reported no error; buffers of the finished step are dropped. */
  ghost function Advance(cfg: Config, st: RankState): RankState {
    var next := if st.plan.Some? then NextPc(st.plan.value, cfg.ranks, st.pc)
                else if st.pc.AtPlan? then AtSignature else AtBroadcast;
    var moved := st.(pc := next, waiting := None);
    var kept := match st.pc
      case AtScatter(_, _) => moved.(prepared := None)
      case AtExecute(_) => moved.(localInput := None)
      case AtMerge(_, _) => moved.(received := None)
      case _ => moved;
    if next.AtEnd? then kept.(outcome := Returned)
    else if st.plan.Some? && RoundCrashes(st.plan.value, cfg.ranks, next) then kept.(outcome := Crashed)
    else kept
  }

  // ---- The network --------------------------------------------------------

  /** Ranks whose flag is set, in group order. */
  ghost function FailedRanks(cfg: Config, w: World): seq<int>
    requires |w| <= |cfg.ranks|
  {
    if w == [] then []
    else
      var last := |w| - 1;
      FailedRanks(cfg, w[..last]) + if w[last].waiting == Some(true) then [cfg.ranks[last]] else []
  }

  /** What rank `k` does once the control gather has delivered every rank's row. */
  ghost function AfterGather(cfg: Config, w: World, k: nat): RankState
    requires ValidConfig(cfg) && |w| == |cfg.ranks| && k < |w|
  {
    var st := w[k].(log := w[k].log + [w[k].pc]);
    if st.pc.AtSignature? then
      if SignaturesAgree(cfg, w) then Advance(cfg, st)
      else st.(outcome := Raised(PLAN, cfg.ranks), waiting := None)
    else if FailedRanks(cfg, w) != [] then
      st.(outcome := Raised(PhaseOf(st.pc), FailedRanks(cfg, w)), waiting := None)
    else Advance(cfg, st)
  }

  ghost predicate Acting(cfg: Config, w: World, k: nat)
    requires ValidConfig(cfg) && |w| == |cfg.ranks|
  {
    k < |w| && w[k].outcome.Running? && w[k].waiting.None? && WellPlaced(cfg, w[k])
  }

  /** Rank `k` works on its own. */
  ghost predicate LocalStep(cfg: Config, w: World, w': World, k: nat)
    requires ValidConfig(cfg) && |w| == |cfg.ranks|
  {
    && Acting(cfg, w, k)
    && CommOf(cfg, w[k], k).NoComm?
    && w' == w[k := LocalAct(cfg, w[k], k)]
  }

  /** A blocking send meets the blocking receive that names it and carries the same tag. */
  ghost predicate TransferStep(cfg: Config, w: World, w': World, a: nat, b: nat)
    requires ValidConfig(cfg) && |w| == |cfg.ranks|
  {
    && a != b && Acting(cfg, w, a) && Acting(cfg, w, b)
    && var (send, receive) := (CommOf(cfg, w[a], a), CommOf(cfg, w[b], b));
       && send.Send? && receive.Receive?
       && send.peer == cfg.ranks[b] && receive.peer == cfg.ranks[a]
       && send.tag == receive.tag
       && w' == w[a := AfterSend(w[a])][b := AfterReceive(w[b], send.payload)]
  }

  ghost predicate BroadcastStep(cfg: Config, w: World, w': World)
    requires ValidConfig(cfg) && |w| == |cfg.ranks|
  {
    && |w'| == |w|
    && (forall k | 0 <= k < |w| :: Acting(cfg, w, k) && CommOf(cfg, w[k], k).Broadcast?)
    && (forall k | 0 <= k < |w| :: w'[k] == AfterBroadcast(cfg, w[k], k, w[OwnerSlot(cfg)].metadata))
  }

  /** The control gather completes once every rank waits in it. */
  ghost predicate GatherStep(cfg: Config, w: World, w': World)
    requires ValidConfig(cfg) && |w| == |cfg.ranks|
  {
    && |w'| == |w|
    && (forall k | 0 <= k < |w| :: w[k].outcome.Running? && w[k].waiting.Some?)
    && (forall k | 0 <= k < |w| :: w'[k] == AfterGather(cfg, w, k))
  }

  ghost predicate Step(cfg: Config, w: World, w': World)
    requires ValidConfig(cfg) && |w| == |cfg.ranks|
  {
    || (exists k: nat :: LocalStep(cfg, w, w', k))
    || (exists a: nat, b: nat :: TransferStep(cfg, w, w', a, b))
    || BroadcastStep(cfg, w, w')
    || GatherStep(cfg, w, w')
  }

  ghost predicate StepAt(cfg: Config, run: seq<World>, i: nat)
    requires ValidConfig(cfg) && i + 1 < |run| && |run[i]| == |cfg.ranks|
  {
    Step(cfg, run[i], run[i + 1])
  }

  /** A run: any interleaving of the ranks' steps from the start. */
  ghost predicate IsRun(cfg: Config, run: seq<World>)
    requires ValidConfig(cfg)
  {
    && run != []
    && run[0] == Init(cfg)
    && (forall i | 0 <= i < |run| :: |run[i]| == |cfg.ranks|)
    && (forall i | 0 <= i < |run| - 1 :: StepAt(cfg, run, i))
  }

  // ---- The serial meaning -------------------------------------------------

  /** A task's finished tile when it is padded directly to its own shapes. */
  ghost function DirectTile(cfg: Config, full: Tensor, task: TaskSpec): Option<Tensor> {
    match Materialized(cfg, full, task, task.paddedInputShape)
    case None => None
    case Some(view) => Executed(cfg, task.assignedRank, view, task, task.paddedOutputShape)
  }

  /** Merge the tasks' direct tiles one after the other, starting from nothing. */
  ghost function SerialFold(cfg: Config, full: Tensor, tasks: seq<TaskSpec>): Result<Option<Tensor>> {
    if tasks == [] then Ok(None)
    else
      var last := |tasks| - 1;
      MergeTile(cfg, SerialFold(cfg, full, tasks[..last]), tasks[last], DirectTile(cfg, full, tasks[last]))
  }

  ghost function MergeTile(cfg: Config, before: Result<Option<Tensor>>, task: TaskSpec, tile: Option<Tensor>)
    : Result<Option<Tensor>>
  {
    if before.Err? || tile.None? then Err
    else
      var merged := cfg.merge(before.value, task, tile.value);
      if merged.None? then Err else Ok(merged)
  }
}
