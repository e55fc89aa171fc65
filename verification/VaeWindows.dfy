/**
 * What one window does to a synchronised state, position by position: either
 * some rank's flag is set and everybody raises, or everybody moves on together
 * and the buffers, counters and the owner's merged tensor are as they should be.
 */
module VaeWindows {
  import opened Wrappers
  import opened VaePlan
  import opened VaeSchedule
  import opened VaeTensor
  import opened VaeEngine
  import opened VaeProgress
  import opened VaeSync

  /** Past an agreed plan's gather a rank moves to the next position and does not crash. */
  lemma {:induction false} AdvanceMoves(cfg: Config, plan: TaskPlan, st: RankState)
    requires Agreed(plan, cfg.ranks) && st.plan == Some(plan)
    requires PcInPlan(plan, cfg.ranks, NextPc(plan, cfg.ranks, st.pc)) && st.outcome.Running?
    ensures var (next, after) := (NextPc(plan, cfg.ranks, st.pc), Advance(cfg, st));
            && after.pc == next && after.waiting.None? && after.plan == st.plan && after.log == st.log
            && after.outcome == (if next.AtEnd? then Returned else Running)
            && after.merged == st.merged && after.localOutput == st.localOutput
            && after.inputTransfers == st.inputTransfers && after.outputTransfers == st.outputTransfers
            && (!st.pc.AtScatter? ==> after.prepared == st.prepared)
            && (!st.pc.AtExecute? ==> after.localInput == st.localInput)
            && (!st.pc.AtMerge? ==> after.received == st.received)
  {
    var next := NextPc(plan, cfg.ranks, st.pc);
    if next.AtMaterialize? || next.AtExecute? { RoundEnvelopesCover(plan, cfg.ranks, next.round); }
  }

  lemma {:induction false} WorkingIsPlaced(cfg: Config, plan: TaskPlan, full: Tensor, s: World)
    requires Working(cfg, plan, full, s)
    ensures Placed(cfg, s)
  {}

  /** No flag is set in a window, and every rank is where the others are. */
  ghost predicate Quiet(cfg: Config, plan: TaskPlan, s: World, acted: World)
  {
    && ValidConfig(cfg) && Agreed(plan, cfg.ranks)
    && |s| == |cfg.ranks| && s != [] && s[0].outcome.Running?
    && |acted| == |s|
    && forall k | 0 <= k < |s| ::
         && acted[k].waiting == Some(false)
         && acted[k].pc == s[0].pc && acted[k].log == s[0].log && acted[k].outcome.Running?
         && acted[k].plan == Some(plan)
  }

  /** ... in a group that has agreed on its plan and logged its way. */
  ghost predicate QuietOn(cfg: Config, plan: TaskPlan, full: Tensor, s: World, acted: World)
  {
    && Agreement(cfg, plan, full) && Quiet(cfg, plan, s, acted)
    && PcInPlan(plan, cfg.ranks, s[0].pc) && Logged(plan, cfg.ranks, s[0].log, s[0].pc)
  }

  /** A window without a set flag, from a working state, takes every rank to the next position. */
  ghost predicate QuietWindow(cfg: Config, plan: TaskPlan, full: Tensor, s: World, acted: World)
  {
    Working(cfg, plan, full, s) && Quiet(cfg, plan, s, acted)
  }

  lemma {:induction false} QuietWindowMoves(cfg: Config, plan: TaskPlan, s: World, acted: World)
    requires Quiet(cfg, plan, s, acted) && PcInPlan(plan, cfg.ranks, NextPc(plan, cfg.ranks, s[0].pc))
    ensures forall k | 0 <= k < |s| ::
              Moved(cfg, acted)[k] == Advance(cfg, acted[k].(log := s[0].log + [s[0].pc]))
  {
    FailedRanksAreTheFlagged(cfg, acted);
  }

  /** What every rank has after the window, but for its buffers. */
  lemma {:induction false} NextRanks(cfg: Config, plan: TaskPlan, s: World, acted: World, pc: Pc)
    requires Quiet(cfg, plan, s, acted) && pc == NextPc(plan, cfg.ranks, s[0].pc) && PcInPlan(plan, cfg.ranks, pc)
    ensures var n := Moved(cfg, acted);
            && |n| == |s|
            && forall k | 0 <= k < |n| ::
                 && n[k].pc == pc && n[k].waiting.None? && n[k].log == s[0].log + [s[0].pc]
                 && n[k].outcome == (if pc.AtEnd? then Returned else Running)
                 && n[k].plan == Some(plan) && n[k].merged == acted[k].merged
                 && n[k].inputTransfers == acted[k].inputTransfers
                 && n[k].outputTransfers == acted[k].outputTransfers
  {
    var n := Moved(cfg, acted);
    QuietWindowMoves(cfg, plan, s, acted);
    forall k | 0 <= k < |s|
      ensures n[k].pc == pc && n[k].waiting.None? && n[k].log == s[0].log + [s[0].pc]
      ensures n[k].outcome == (if pc.AtEnd? then Returned else Running)
      ensures n[k].plan == Some(plan) && n[k].merged == acted[k].merged
      ensures n[k].inputTransfers == acted[k].inputTransfers
      ensures n[k].outputTransfers == acted[k].outputTransfers
    {
      AdvanceMoves(cfg, plan, acted[k].(log := s[0].log + [s[0].pc]));
    }
  }

  lemma {:induction false} OneMoreLogged(plan: TaskPlan, ranks: seq<int>, log: seq<Pc>, at: Pc, pc: Pc)
    requires Logged(plan, ranks, log, at) && Position(plan, ranks, pc) == Position(plan, ranks, at) + 1
    ensures Logged(plan, ranks, log + [at], pc)
  {
    forall i | 0 <= i < |log + [at]| ensures Position(plan, ranks, (log + [at])[i]) == i {}
  }

  /** What is left to show, position by position, for the next state to be a working one. */
  lemma {:induction false} NextIsWorking(cfg: Config, plan: TaskPlan, full: Tensor, s: World, acted: World, pc: Pc)
    requires QuietOn(cfg, plan, full, s, acted)
    requires pc == NextPc(plan, cfg.ranks, s[0].pc) && PcInPlan(plan, cfg.ranks, pc)
    requires Position(plan, cfg.ranks, pc) == Position(plan, cfg.ranks, s[0].pc) + 1
    requires Counted(cfg, plan, acted, pc)
    requires SerialFold(cfg, full, MergedSoFar(plan, cfg.ranks, pc)) == Ok(acted[OwnerSlot(cfg)].merged)
    requires BuffersReady(cfg, plan, full, Moved(cfg, acted), pc)
    ensures Working(cfg, plan, full, Moved(cfg, acted))
  {
    NextRanks(cfg, plan, s, acted, pc);
    OneMoreLogged(plan, cfg.ranks, s[0].log, s[0].pc, pc);
  }

  /** The buffers that survive the gather after position `pc`. */
  ghost predicate Survive(pc: Pc, acted: World, n: World) {
    && |n| == |acted|
    && forall k | 0 <= k < |n| ::
         && n[k].localOutput == acted[k].localOutput
         && (!pc.AtScatter? ==> n[k].prepared == acted[k].prepared)
         && (!pc.AtExecute? ==> n[k].localInput == acted[k].localInput)
         && (!pc.AtMerge? ==> n[k].received == acted[k].received)
  }

  lemma {:induction false} MovedBuffers(cfg: Config, plan: TaskPlan, s: World, acted: World)
    requires Quiet(cfg, plan, s, acted) && PcInPlan(plan, cfg.ranks, NextPc(plan, cfg.ranks, s[0].pc))
    ensures Survive(s[0].pc, acted, Moved(cfg, acted))
  {
    QuietWindowMoves(cfg, plan, s, acted);
    forall k | 0 <= k < |s|
      ensures var n := Moved(cfg, acted)[k];
              && n.localOutput == acted[k].localOutput
              && (!s[0].pc.AtScatter? ==> n.prepared == acted[k].prepared)
              && (!s[0].pc.AtExecute? ==> n.localInput == acted[k].localInput)
              && (!s[0].pc.AtMerge? ==> n.received == acted[k].received)
    {
      AdvanceMoves(cfg, plan, acted[k].(log := s[0].log + [s[0].pc]));
    }
  }

  // ---- Materialize --------------------------------------------------------

  ghost predicate MaterializeActed(cfg: Config, plan: TaskPlan, full: Tensor, s: World, acted: World)
    requires Working(cfg, plan, full, s) && s[0].pc.AtMaterialize?
  {
    var (r, i) := (s[0].pc.round, s[0].pc.slot);
    var tile := Materialized(cfg, full, Slots(plan, cfg.ranks, r)[i].value, Envelope(plan, cfg.ranks, r, false));
    && |acted| == |s|
    && forall k | 0 <= k < |s| ::
         acted[k] == if k == OwnerSlot(cfg)
           then s[k].(prepared := tile, waiting := Some(tile.None?))
           else s[k].(waiting := Some(false))
  }

  lemma {:induction false} MaterializeActs(cfg: Config, plan: TaskPlan, full: Tensor, s: World)
    requires Working(cfg, plan, full, s) && s[0].pc.AtMaterialize? && Placed(cfg, s)
    ensures MaterializeActed(cfg, plan, full, s, Acted(cfg, s))
  {
    forall k | 0 <= k < |s| && k != OwnerSlot(cfg) ensures cfg.ranks[k] != cfg.ownerRank {}
  }

  lemma {:induction false} InputsStay(cfg: Config, plan: TaskPlan, full: Tensor, s: World, n: World, round: nat, i: nat)
    requires |s| == |n| == |cfg.ranks| && InputsReady(cfg, plan, full, s, round, i)
    requires forall k | 0 <= k < |s| :: n[k].localInput == s[k].localInput
    ensures InputsReady(cfg, plan, full, n, round, i)
  {
    forall k | 0 <= k < i && k < |n| ensures InputReady(cfg, plan, full, n[k], round, k) {
      assert InputReady(cfg, plan, full, s[k], round, k);
    }
  }

  lemma {:induction false} MaterializeQuiet(cfg: Config, plan: TaskPlan, full: Tensor, s: World, acted: World)
    requires Working(cfg, plan, full, s) && s[0].pc.AtMaterialize?
    requires MaterializeActed(cfg, plan, full, s, acted) && FailedRanks(cfg, acted) == []
    ensures QuietWindow(cfg, plan, full, s, acted)
    ensures acted[OwnerSlot(cfg)].prepared.Some?
  {
    FailedRanksAreTheFlagged(cfg, acted);
    assert acted[OwnerSlot(cfg)].waiting != Some(true);
  }

  lemma {:induction false} MaterializeBuffers(cfg: Config, plan: TaskPlan, full: Tensor, s: World, acted: World, n: World)
    requires QuietWindow(cfg, plan, full, s, acted) && s[0].pc.AtMaterialize?
    requires MaterializeActed(cfg, plan, full, s, acted) && Survive(s[0].pc, acted, n)
    requires acted[OwnerSlot(cfg)].prepared.Some?
    ensures BuffersReady(cfg, plan, full, n, AtScatter(s[0].pc.round, s[0].pc.slot))
  {
    InputsStay(cfg, plan, full, s, n, s[0].pc.round, s[0].pc.slot);
  }

  lemma {:induction false} MaterializeMoves(cfg: Config, plan: TaskPlan, full: Tensor, s: World, acted: World)
    requires Working(cfg, plan, full, s) && s[0].pc.AtMaterialize?
    requires MaterializeActed(cfg, plan, full, s, acted) && FailedRanks(cfg, acted) == []
    ensures Working(cfg, plan, full, Moved(cfg, acted))
  {
    MaterializeQuiet(cfg, plan, full, s, acted);
    MovedBuffers(cfg, plan, s, acted);
    MaterializeBuffers(cfg, plan, full, s, acted, Moved(cfg, acted));
    NextIsWorking(cfg, plan, full, s, acted, AtScatter(s[0].pc.round, s[0].pc.slot));
  }

  // ---- Scatter --------------------------------------------------------------

  /** Does the task's tile travel, and is rank `k` one of its two ends? */
  predicate Involved(cfg: Config, task: TaskSpec, k: nat)
    requires k < |cfg.ranks|
  {
    task.assignedRank != cfg.ownerRank && (cfg.ranks[k] == cfg.ownerRank || cfg.ranks[k] == task.assignedRank)
  }

  lemma {:induction false} OneMoreTransfer(cfg: Config, tasks: seq<TaskSpec>, task: TaskSpec, k: nat)
    requires k < |cfg.ranks|
    ensures TransfersOf(cfg, tasks + [task], k)
         == TransfersOf(cfg, tasks, k) + if Involved(cfg, task, k) then 1 else 0
  {
    TaskCountAppend(tasks, [task], cfg.ownerRank);
    TaskCountAppend(tasks, [task], cfg.ranks[k]);
  }

  ghost predicate ScatterActed(cfg: Config, plan: TaskPlan, full: Tensor, s: World, acted: World)
    requires Working(cfg, plan, full, s) && s[0].pc.AtScatter?
  {
    var (a, i) := (OwnerSlot(cfg), s[0].pc.slot);
    var task := Slots(plan, cfg.ranks, s[0].pc.round)[i].value;
    && |acted| == |s|
    && forall k | 0 <= k < |s| ::
         acted[k] == s[k].(
           waiting := Some(false),
           localInput := if k == i then s[a].prepared else s[k].localInput,
           inputTransfers := s[k].inputTransfers + if Involved(cfg, task, k) then 1 else 0)
  }

  /** What rank `k` communicates while slot `i`'s tile is distributed. */
  lemma {:induction false} ScatterComm(cfg: Config, plan: TaskPlan, st: RankState, k: nat)
    requires ValidConfig(cfg) && Agreed(plan, cfg.ranks) && k < |cfg.ranks|
    requires st.plan == Some(plan) && st.pc.AtScatter? && PcInPlan(plan, cfg.ranks, st.pc)
    ensures var (a, r, i) := (OwnerSlot(cfg), st.pc.round, st.pc.slot);
            var tag := TransferTag(r, i, |cfg.ranks|, false);
            var comm := CommOf(cfg, st, k);
            && Slots(plan, cfg.ranks, r)[i].value.assignedRank == cfg.ranks[i]
            && (Involved(cfg, Slots(plan, cfg.ranks, r)[i].value, k) <==> i != a && (k == a || k == i))
            && (i != a && k == a && st.prepared.Some? ==> comm == Send(cfg.ranks[i], tag, st.prepared.value))
            && (i != a && k == i ==> comm == Receive(cfg.ranks[a], tag, Envelope(plan, cfg.ranks, r, false)))
            && (i == a || (k != a && k != i) ==> comm.NoComm?)
  {
    RoundEnvelopesCover(plan, cfg.ranks, st.pc.round);
  }

  lemma {:induction false} IndexOfSlot(cfg: Config, k: nat)
    requires ValidConfig(cfg) && k < |cfg.ranks|
    ensures cfg.ranks[k] in cfg.ranks && IndexOf(cfg.ranks, cfg.ranks[k]) == k
  {}

  lemma {:induction false} ScatterAct(cfg: Config, plan: TaskPlan, s: World, k: nat)
    requires ValidConfig(cfg) && Agreed(plan, cfg.ranks) && Placed(cfg, s) && k < |s|
    requires forall m | 0 <= m < |s| :: s[m].plan == Some(plan) && s[m].pc == s[0].pc
    requires s[0].pc.AtScatter? && PcInPlan(plan, cfg.ranks, s[0].pc) && s[OwnerSlot(cfg)].prepared.Some?
    ensures var (a, i) := (OwnerSlot(cfg), s[0].pc.slot);
            var task := Slots(plan, cfg.ranks, s[0].pc.round)[i].value;
            ActResult(cfg, s, k) == s[k].(
              waiting := Some(false),
              localInput := if k == i then s[a].prepared else s[k].localInput,
              inputTransfers := s[k].inputTransfers + if Involved(cfg, task, k) then 1 else 0)
  {
    var a := OwnerSlot(cfg);
    ScatterComm(cfg, plan, s[k], k);
    ScatterComm(cfg, plan, s[a], a);
    IndexOfSlot(cfg, a);
  }

  lemma {:induction false} ScatterActs(cfg: Config, plan: TaskPlan, full: Tensor, s: World)
    requires Working(cfg, plan, full, s) && s[0].pc.AtScatter? && Placed(cfg, s)
    ensures ScatterActed(cfg, plan, full, s, Acted(cfg, s))
  {
    var acted := Acted(cfg, s);
    forall k | 0 <= k < |s| ensures acted[k] == ActResult(cfg, s, k) {}
    forall k | 0 <= k < |s| { ScatterAct(cfg, plan, s, k); }
  }

  lemma {:induction false} InputsGrow(cfg: Config, plan: TaskPlan, full: Tensor, s: World, n: World, round: nat, i: nat, next: nat)
    requires |s| == |n| == |cfg.ranks| && i < next <= |n| && InputsReady(cfg, plan, full, s, round, i)
    requires forall k | 0 <= k < i :: n[k].localInput == s[k].localInput
    requires InputReady(cfg, plan, full, n[i], round, i)
    requires forall k | i < k < next :: Slots(plan, cfg.ranks, round)[k].None?
    ensures InputsReady(cfg, plan, full, n, round, next)
  {
    forall k | 0 <= k < next && k < |n| ensures InputReady(cfg, plan, full, n[k], round, k) {
      if k < i { assert InputReady(cfg, plan, full, s[k], round, k); }
    }
  }

  lemma {:induction false} ScatterQuiet(cfg: Config, plan: TaskPlan, full: Tensor, s: World, acted: World)
    requires Working(cfg, plan, full, s) && s[0].pc.AtScatter?
    requires ScatterActed(cfg, plan, full, s, acted)
    ensures QuietWindow(cfg, plan, full, s, acted)
    ensures FailedRanks(cfg, acted) == []
  {
    FailedRanksAreTheFlagged(cfg, acted);
  }

  lemma {:induction false} ScatterBuffers(cfg: Config, plan: TaskPlan, full: Tensor, s: World, acted: World, n: World, pc: Pc)
    requires QuietWindow(cfg, plan, full, s, acted) && s[0].pc.AtScatter?
    requires ScatterActed(cfg, plan, full, s, acted) && Survive(s[0].pc, acted, n)
    requires pc == NextPc(plan, cfg.ranks, s[0].pc)
    ensures BuffersReady(cfg, plan, full, n, pc)
  {
    var (r, i) := (s[0].pc.round, s[0].pc.slot);
    NextAfterScatter(plan, cfg.ranks, r, i);
    InputsGrow(cfg, plan, full, s, n, r, i, if pc.AtMaterialize? then pc.slot else |s|);
  }

  lemma {:induction false} ScatterCounts(cfg: Config, plan: TaskPlan, s: World, acted: World, r: nat, i: nat, pc: Pc)
    requires ValidConfig(cfg) && Agreed(plan, cfg.ranks) && |acted| == |s| == |cfg.ranks|
    requires PcInPlan(plan, cfg.ranks, AtScatter(r, i)) && Counted(cfg, plan, s, AtScatter(r, i))
    requires forall k | 0 <= k < |s| ::
               && acted[k].inputTransfers == s[k].inputTransfers
                  + (if Involved(cfg, Slots(plan, cfg.ranks, r)[i].value, k) then 1 else 0)
               && acted[k].outputTransfers == s[k].outputTransfers
    requires pc == NextPc(plan, cfg.ranks, AtScatter(r, i))
    ensures Counted(cfg, plan, acted, pc)
  {
    NextAfterScatter(plan, cfg.ranks, r, i);
    forall k | 0 <= k < |s|
      ensures acted[k].inputTransfers == TransfersOf(cfg, InputsSoFar(plan, cfg.ranks, pc), k)
    {
      OneMoreTransfer(cfg, InputsSoFar(plan, cfg.ranks, AtScatter(r, i)), Slots(plan, cfg.ranks, r)[i].value, k);
    }
  }

  lemma {:induction false} ScatterNext(cfg: Config, plan: TaskPlan, full: Tensor, s: World, acted: World, pc: Pc)
    requires QuietOn(cfg, plan, full, s, acted) && s[0].pc.AtScatter? && pc == NextPc(plan, cfg.ranks, s[0].pc)
    requires Counted(cfg, plan, acted, pc)
    requires SerialFold(cfg, full, MergedSoFar(plan, cfg.ranks, s[0].pc)) == Ok(acted[OwnerSlot(cfg)].merged)
    requires BuffersReady(cfg, plan, full, Moved(cfg, acted), pc)
    ensures Working(cfg, plan, full, Moved(cfg, acted))
  {
    NextAfterScatter(plan, cfg.ranks, s[0].pc.round, s[0].pc.slot);
    NextIsWorking(cfg, plan, full, s, acted, pc);
  }

  lemma {:induction false} ScatterMoves(cfg: Config, plan: TaskPlan, full: Tensor, s: World, acted: World)
    requires Working(cfg, plan, full, s) && s[0].pc.AtScatter?
    requires ScatterActed(cfg, plan, full, s, acted)
    ensures Working(cfg, plan, full, Moved(cfg, acted))
  {
    var pc := NextPc(plan, cfg.ranks, s[0].pc);
    ScatterQuiet(cfg, plan, full, s, acted);
    NextAfterScatter(plan, cfg.ranks, s[0].pc.round, s[0].pc.slot);
    ScatterCounts(cfg, plan, s, acted, s[0].pc.round, s[0].pc.slot, pc);
    MovedBuffers(cfg, plan, s, acted);
    ScatterBuffers(cfg, plan, full, s, acted, Moved(cfg, acted), pc);
    ScatterNext(cfg, plan, full, s, acted, pc);
  }

  // ---- Execute --------------------------------------------------------------

  /** The tile rank `k` produces in the round, if it has a task there. */
  ghost function RoundTile(cfg: Config, plan: TaskPlan, full: Tensor, round: nat, k: nat): Option<Tensor>
    requires k < |cfg.ranks|
  {
    match Slots(plan, cfg.ranks, round)[k]
    case None => Some(Zeros(Envelope(plan, cfg.ranks, round, true)))
    case Some(task) => TileIn(cfg, full, task, Envelope(plan, cfg.ranks, round, true))
  }

  ghost predicate ExecuteActed(cfg: Config, plan: TaskPlan, full: Tensor, s: World, acted: World)
    requires Working(cfg, plan, full, s) && s[0].pc.AtExecute?
  {
    && |acted| == |s|
    && forall k | 0 <= k < |s| ::
         var tile := RoundTile(cfg, plan, full, s[0].pc.round, k);
         acted[k] == if tile.Some? then s[k].(localOutput := tile, waiting := Some(false))
                     else s[k].(localOutput := acted[k].localOutput, waiting := Some(true))
  }

  lemma {:induction false} ExecuteAct(cfg: Config, plan: TaskPlan, full: Tensor, st: RankState, round: nat, k: nat)
    requires ValidConfig(cfg) && Agreed(plan, cfg.ranks) && round < plan.rounds && k < |cfg.ranks|
    requires st.plan == Some(plan) && InputReady(cfg, plan, full, st, round, k)
    ensures var (tile, after) := (RoundTile(cfg, plan, full, round, k), ExecuteStep(cfg, st, k, round));
            after == if tile.Some? then st.(localOutput := tile, waiting := Some(false))
                     else st.(localOutput := after.localOutput, waiting := Some(true))
  {
    RoundEnvelopesCover(plan, cfg.ranks, round);
    if Slots(plan, cfg.ranks, round)[k].Some? {
      var task := Slots(plan, cfg.ranks, round)[k].value;
      ViewOfMaterialized(cfg, full, task, Envelope(plan, cfg.ranks, round, false));
      assert task.assignedRank == cfg.ranks[k];
    }
  }

  lemma {:induction false} ExecuteActs(cfg: Config, plan: TaskPlan, full: Tensor, s: World)
    requires Working(cfg, plan, full, s) && s[0].pc.AtExecute? && Placed(cfg, s)
    ensures ExecuteActed(cfg, plan, full, s, Acted(cfg, s))
  {
    var (acted, r) := (Acted(cfg, s), s[0].pc.round);
    forall k | 0 <= k < |s| ensures acted[k] == ExecuteStep(cfg, s[k], k, r) {}
    forall k | 0 <= k < |s| { ExecuteAct(cfg, plan, full, s[k], r, k); }
  }

  lemma {:induction false} ExecuteQuiet(cfg: Config, plan: TaskPlan, full: Tensor, s: World, acted: World)
    requires Working(cfg, plan, full, s) && s[0].pc.AtExecute?
    requires ExecuteActed(cfg, plan, full, s, acted) && FailedRanks(cfg, acted) == []
    ensures QuietWindow(cfg, plan, full, s, acted)
    ensures forall k | 0 <= k < |s| ::
              RoundTile(cfg, plan, full, s[0].pc.round, k).Some?
              && acted[k].localOutput == RoundTile(cfg, plan, full, s[0].pc.round, k)
  {
    FailedRanksAreTheFlagged(cfg, acted);
    forall k | 0 <= k < |s| ensures RoundTile(cfg, plan, full, s[0].pc.round, k).Some? {
      assert acted[k].waiting != Some(true);
    }
  }

  /** Buffers at the start of a round, where nothing has been distributed yet. */
  lemma {:induction false} FreshRoundBuffers(cfg: Config, plan: TaskPlan, full: Tensor, n: World, round: nat, pc: Pc)
    requires ValidConfig(cfg) && Agreed(plan, cfg.ranks) && |n| == |cfg.ranks|
    requires round <= plan.rounds && pc == EnterRound(plan, cfg.ranks, round)
    ensures BuffersReady(cfg, plan, full, n, pc)
  {
    EnterRoundFacts(plan, cfg.ranks, round);
  }

  lemma {:induction false} AllOutputsReady(cfg: Config, plan: TaskPlan, full: Tensor, n: World, round: nat, j: nat)
    requires ValidConfig(cfg) && Agreed(plan, cfg.ranks) && |n| == |cfg.ranks| && round < plan.rounds
    requires forall k | 0 <= k < |n| ::
               RoundTile(cfg, plan, full, round, k).Some?
               && n[k].localOutput == RoundTile(cfg, plan, full, round, k)
    ensures OutputsReady(cfg, plan, full, n, round, j)
  {
    var merges := RoundMerges(plan, cfg.ranks, round);
    forall i | j <= i < |merges|
      ensures OutputReady(cfg, full, n, merges[i], Envelope(plan, cfg.ranks, round, true))
    {
      ItemIsASlot(plan, cfg.ranks, round, i);
      assert RoundTile(cfg, plan, full, round, merges[i].slot).Some?;
    }
  }

  /** Going on from item `j`, counting transfers: the owner's items and the active slots agree. */
  lemma {:induction false} TransfersAtItem(cfg: Config, plan: TaskPlan, round: nat, j: nat, k: nat)
    requires ValidConfig(cfg) && Agreed(plan, cfg.ranks) && k < |cfg.ranks|
    requires round < plan.rounds && j <= |RoundMerges(plan, cfg.ranks, round)|
    ensures var pc := EnterItem(plan, cfg.ranks, round, j);
            TransfersOf(cfg, InputsSoFar(plan, cfg.ranks, pc), k)
            == TransfersOf(cfg, Schedule(plan.tasks, round) + TasksOf(RoundActive(plan, cfg.ranks, round)), k)
  {
    EnterItemFacts(plan, cfg.ranks, round, j);
    var pc := EnterItem(plan, cfg.ranks, round, j);
    if !pc.AtGather? {
      EnterRoundFacts(plan, cfg.ranks, round + 1);
      WholeRound(plan, cfg.ranks, round);
      SameTasks(plan, cfg.ranks, round);
      var (done, active) := (Schedule(plan.tasks, round), TasksOf(RoundActive(plan, cfg.ranks, round)));
      var now := TasksOfRound(plan.tasks, |plan.tasks|, round);
      TaskCountOfPermutation(done + active, done + now, cfg.ownerRank);
      TaskCountOfPermutation(done + active, done + now, cfg.ranks[k]);
    }
  }

  lemma {:induction false} ExecuteBuffers(cfg: Config, plan: TaskPlan, full: Tensor, n: World, r: nat, pc: Pc)
    requires ValidConfig(cfg) && Agreed(plan, cfg.ranks) && |n| == |cfg.ranks| && r < plan.rounds
    requires forall k | 0 <= k < |n| ::
               RoundTile(cfg, plan, full, r, k).Some? && n[k].localOutput == RoundTile(cfg, plan, full, r, k)
    requires pc == EnterItem(plan, cfg.ranks, r, 0)
    ensures BuffersReady(cfg, plan, full, n, pc)
  {
    EnterItemFacts(plan, cfg.ranks, r, 0);
    if pc.AtGather? {
      AllOutputsReady(cfg, plan, full, n, r, 0);
    } else {
      FreshRoundBuffers(cfg, plan, full, n, r + 1, pc);
    }
  }

  /** The counters at the next position, for windows in which no output travels. */
  lemma {:induction false} ExecuteCounts(cfg: Config, plan: TaskPlan, s: World, acted: World, r: nat, pc: Pc)
    requires ValidConfig(cfg) && Agreed(plan, cfg.ranks) && |acted| == |s| == |cfg.ranks| && r < plan.rounds
    requires Counted(cfg, plan, s, AtExecute(r))
    requires forall k | 0 <= k < |s| ::
               acted[k].inputTransfers == s[k].inputTransfers && acted[k].outputTransfers == s[k].outputTransfers
    requires pc == EnterItem(plan, cfg.ranks, r, 0)
    ensures Counted(cfg, plan, acted, pc)
    ensures MergedSoFar(plan, cfg.ranks, pc) == MergedSoFar(plan, cfg.ranks, AtExecute(r))
  {
    EnterItemFacts(plan, cfg.ranks, r, 0);
    assert MergedItems(plan, cfg.ranks, r, 0) == [];
    assert Schedule(plan.tasks, r) + [] == Schedule(plan.tasks, r);
    forall k | 0 <= k < |s|
      ensures acted[k].inputTransfers == TransfersOf(cfg, InputsSoFar(plan, cfg.ranks, pc), k)
    {
      TransfersAtItem(cfg, plan, r, 0, k);
    }
  }

  /** On from an executed round, whose tiles are ready. */
  lemma {:induction false} ExecuteNext(cfg: Config, plan: TaskPlan, full: Tensor, s: World, acted: World)
    requires QuietOn(cfg, plan, full, s, acted) && s[0].pc.AtExecute? && Counted(cfg, plan, s, s[0].pc)
    requires forall k | 0 <= k < |s| ::
               acted[k].inputTransfers == s[k].inputTransfers && acted[k].outputTransfers == s[k].outputTransfers
    requires forall k | 0 <= k < |s| ::
               RoundTile(cfg, plan, full, s[0].pc.round, k).Some?
               && acted[k].localOutput == RoundTile(cfg, plan, full, s[0].pc.round, k)
    requires SerialFold(cfg, full, MergedSoFar(plan, cfg.ranks, s[0].pc)) == Ok(acted[OwnerSlot(cfg)].merged)
    ensures Working(cfg, plan, full, Moved(cfg, acted))
  {
    var r := s[0].pc.round;
    var pc := EnterItem(plan, cfg.ranks, r, 0);
    EnterItemFacts(plan, cfg.ranks, r, 0);
    ExecuteCounts(cfg, plan, s, acted, r, pc);
    MovedBuffers(cfg, plan, s, acted);
    ExecuteBuffers(cfg, plan, full, Moved(cfg, acted), r, pc);
    NextIsWorking(cfg, plan, full, s, acted, pc);
  }

  lemma {:induction false} ExecuteMoves(cfg: Config, plan: TaskPlan, full: Tensor, s: World, acted: World)
    requires Working(cfg, plan, full, s) && s[0].pc.AtExecute?
    requires ExecuteActed(cfg, plan, full, s, acted) && FailedRanks(cfg, acted) == []
    ensures Working(cfg, plan, full, Moved(cfg, acted))
  {
    ExecuteQuiet(cfg, plan, full, s, acted);
    ExecuteNext(cfg, plan, full, s, acted);
  }

  // ---- Gather ---------------------------------------------------------------

  ghost predicate GatherActed(cfg: Config, plan: TaskPlan, full: Tensor, s: World, acted: World)
    requires Working(cfg, plan, full, s) && s[0].pc.AtGather?
  {
    var item := RoundMerges(plan, cfg.ranks, s[0].pc.round)[s[0].pc.item];
    && |acted| == |s| && item.slot < |s|
    && forall k | 0 <= k < |s| ::
         acted[k] == s[k].(
           waiting := Some(false),
           received := if k == OwnerSlot(cfg) then s[item.slot].localOutput else s[k].received,
           outputTransfers := s[k].outputTransfers + if Involved(cfg, item.task, k) then 1 else 0)
  }

  /** What rank `k` communicates while an item's tile returns to the owner. */
  lemma {:induction false} GatherComm(cfg: Config, plan: TaskPlan, st: RankState, k: nat)
    requires ValidConfig(cfg) && Agreed(plan, cfg.ranks) && k < |cfg.ranks|
    requires st.plan == Some(plan) && st.pc.AtGather? && PcInPlan(plan, cfg.ranks, st.pc)
    ensures var item := RoundMerges(plan, cfg.ranks, st.pc.round)[st.pc.item];
            var (a, b) := (OwnerSlot(cfg), item.slot);
            var tag := TransferTag(st.pc.round, b, |cfg.ranks|, true);
            var comm := CommOf(cfg, st, k);
            && b < |cfg.ranks| && item.task.assignedRank == cfg.ranks[b]
            && (Involved(cfg, item.task, k) <==> b != a && (k == a || k == b))
            && (b != a && k == a ==>
                  comm == Receive(cfg.ranks[b], tag, Envelope(plan, cfg.ranks, st.pc.round, true)))
            && (b != a && k == b && st.localOutput.Some? ==>
                  comm == Send(cfg.ranks[a], tag, st.localOutput.value))
            && (b == a || (k != a && k != b) ==> comm.NoComm?)
  {
    ItemIsASlot(plan, cfg.ranks, st.pc.round, st.pc.item);
  }

  lemma {:induction false} GatherAct(cfg: Config, plan: TaskPlan, s: World, k: nat)
    requires ValidConfig(cfg) && Agreed(plan, cfg.ranks) && Placed(cfg, s) && k < |s|
    requires forall m | 0 <= m < |s| :: s[m].plan == Some(plan) && s[m].pc == s[0].pc
    requires s[0].pc.AtGather? && PcInPlan(plan, cfg.ranks, s[0].pc)
    requires var item := RoundMerges(plan, cfg.ranks, s[0].pc.round)[s[0].pc.item];
             item.slot < |s| && s[item.slot].localOutput.Some?
    ensures var item := RoundMerges(plan, cfg.ranks, s[0].pc.round)[s[0].pc.item];
            ActResult(cfg, s, k) == s[k].(
              waiting := Some(false),
              received := if k == OwnerSlot(cfg) then s[item.slot].localOutput else s[k].received,
              outputTransfers := s[k].outputTransfers + if Involved(cfg, item.task, k) then 1 else 0)
  {
    var b := RoundMerges(plan, cfg.ranks, s[0].pc.round)[s[0].pc.item].slot;
    GatherComm(cfg, plan, s[k], k);
    GatherComm(cfg, plan, s[b], b);
    IndexOfSlot(cfg, b);
  }

  lemma {:induction false} GatherActs(cfg: Config, plan: TaskPlan, full: Tensor, s: World)
    requires Working(cfg, plan, full, s) && s[0].pc.AtGather? && Placed(cfg, s)
    ensures GatherActed(cfg, plan, full, s, Acted(cfg, s))
  {
    var acted := Acted(cfg, s);
    var merges := RoundMerges(plan, cfg.ranks, s[0].pc.round);
    assert OutputReady(cfg, full, s, merges[s[0].pc.item], Envelope(plan, cfg.ranks, s[0].pc.round, true));
    forall k | 0 <= k < |s| ensures acted[k] == ActResult(cfg, s, k) {}
    forall k | 0 <= k < |s| { GatherAct(cfg, plan, s, k); }
  }

  lemma {:induction false} GatherQuiet(cfg: Config, plan: TaskPlan, full: Tensor, s: World, acted: World)
    requires Working(cfg, plan, full, s) && s[0].pc.AtGather?
    requires GatherActed(cfg, plan, full, s, acted)
    ensures QuietWindow(cfg, plan, full, s, acted)
    ensures FailedRanks(cfg, acted) == []
  {
    FailedRanksAreTheFlagged(cfg, acted);
  }

  lemma {:induction false} OutputsStay(cfg: Config, plan: TaskPlan, full: Tensor, s: World, n: World, round: nat, j: nat, j': nat)
    requires |s| == |n| == |cfg.ranks| && j <= j' && OutputsReady(cfg, plan, full, s, round, j)
    requires forall k | 0 <= k < |s| :: n[k].localOutput == s[k].localOutput
    ensures OutputsReady(cfg, plan, full, n, round, j')
  {
    var merges := RoundMerges(plan, cfg.ranks, round);
    forall i | j' <= i < |merges|
      ensures OutputReady(cfg, full, n, merges[i], Envelope(plan, cfg.ranks, round, true))
    {
      assert OutputReady(cfg, full, s, merges[i], Envelope(plan, cfg.ranks, round, true));
    }
  }

  lemma {:induction false} GatherBuffers(cfg: Config, plan: TaskPlan, full: Tensor, s: World, acted: World, n: World)
    requires QuietWindow(cfg, plan, full, s, acted) && s[0].pc.AtGather?
    requires GatherActed(cfg, plan, full, s, acted) && Survive(s[0].pc, acted, n)
    ensures BuffersReady(cfg, plan, full, n, AtMerge(s[0].pc.round, s[0].pc.item))
  {
    var (r, j) := (s[0].pc.round, s[0].pc.item);
    OutputsStay(cfg, plan, full, s, n, r, j, j);
    assert OutputReady(cfg, full, s, RoundMerges(plan, cfg.ranks, r)[j], Envelope(plan, cfg.ranks, r, true));
  }

  lemma {:induction false} GatherCounts(cfg: Config, plan: TaskPlan, s: World, acted: World, r: nat, j: nat)
    requires ValidConfig(cfg) && Agreed(plan, cfg.ranks) && |s| == |acted| == |cfg.ranks|
    requires r < plan.rounds && j < |RoundMerges(plan, cfg.ranks, r)|
    requires Counted(cfg, plan, s, AtGather(r, j))
    requires forall k | 0 <= k < |s| ::
               && acted[k].inputTransfers == s[k].inputTransfers
               && acted[k].outputTransfers == s[k].outputTransfers
                  + if Involved(cfg, RoundMerges(plan, cfg.ranks, r)[j].task, k) then 1 else 0
    ensures Counted(cfg, plan, acted, AtMerge(r, j))
  {
    var task := RoundMerges(plan, cfg.ranks, r)[j].task;
    var before := OutputsSoFar(plan, cfg.ranks, AtGather(r, j));
    MergedItemsGrow(plan, cfg.ranks, r, j);
    assert OutputsSoFar(plan, cfg.ranks, AtMerge(r, j)) == before + [task];
    forall k | 0 <= k < |s|
      ensures acted[k].outputTransfers == TransfersOf(cfg, before + [task], k)
    {
      OneMoreTransfer(cfg, before, task, k);
    }
  }

  lemma {:induction false} GatherNext(cfg: Config, plan: TaskPlan, full: Tensor, s: World, acted: World, r: nat, j: nat)
    requires QuietOn(cfg, plan, full, s, acted) && s[0].pc == AtGather(r, j)
    requires Counted(cfg, plan, acted, AtMerge(r, j))
    requires SerialFold(cfg, full, MergedSoFar(plan, cfg.ranks, s[0].pc)) == Ok(acted[OwnerSlot(cfg)].merged)
    requires BuffersReady(cfg, plan, full, Moved(cfg, acted), AtMerge(r, j))
    ensures Working(cfg, plan, full, Moved(cfg, acted))
  {
    NextIsWorking(cfg, plan, full, s, acted, AtMerge(r, j));
  }

  lemma {:induction false} GatherMoves(cfg: Config, plan: TaskPlan, full: Tensor, s: World, acted: World)
    requires Working(cfg, plan, full, s) && s[0].pc.AtGather?
    requires GatherActed(cfg, plan, full, s, acted)
    ensures Working(cfg, plan, full, Moved(cfg, acted))
  {
    var (r, j) := (s[0].pc.round, s[0].pc.item);
    GatherQuiet(cfg, plan, full, s, acted);
    GatherCounts(cfg, plan, s, acted, r, j);
    MovedBuffers(cfg, plan, s, acted);
    GatherBuffers(cfg, plan, full, s, acted, Moved(cfg, acted));
    GatherNext(cfg, plan, full, s, acted, r, j);
  }

  // ---- Merge ----------------------------------------------------------------

  /** The owner has merged one more tile, or failed to; everybody else has nothing to do. */
  ghost predicate OwnerMerged(cfg: Config, s: World, acted: World, merged: Result<Option<Tensor>>)
    requires ValidConfig(cfg)
  {
    && |acted| == |s| == |cfg.ranks|
    && forall k | 0 <= k < |s| ::
         acted[k] == if k != OwnerSlot(cfg) then s[k].(waiting := Some(false))
                     else if merged.Ok? then s[k].(merged := merged.value, waiting := Some(false))
                     else s[k].(waiting := Some(true))
  }

  ghost predicate MergeActed(cfg: Config, plan: TaskPlan, full: Tensor, s: World, acted: World)
    requires Working(cfg, plan, full, s) && s[0].pc.AtMerge?
  {
    OwnerMerged(cfg, s, acted, SerialFold(cfg, full, OutputsSoFar(plan, cfg.ranks, s[0].pc)))
  }

  lemma {:induction false} OwnerMerges(cfg: Config, full: Tensor, st: RankState, before: seq<TaskSpec>, task: TaskSpec, envelope: seq<int>)
    requires FitsInside(task.paddedOutputShape, envelope)
    requires st.received.Some? && st.received == TileIn(cfg, full, task, envelope)
    requires SerialFold(cfg, full, before) == Ok(st.merged)
    ensures var merged := SerialFold(cfg, full, before + [task]);
            MergeStep(cfg, st, task)
            == if merged.Ok? then st.(merged := merged.value, waiting := Some(false)) else st.(waiting := Some(true))
  {
    ViewOfTile(cfg, full, task, envelope);
    assert (before + [task])[..|before|] == before;
  }

  lemma {:induction false} OneMoreOutput(plan: TaskPlan, ranks: seq<int>, r: nat, j: nat)
    requires Agreed(plan, ranks) && r < plan.rounds && j < |RoundMerges(plan, ranks, r)|
    ensures var task := RoundMerges(plan, ranks, r)[j].task;
            && OutputsSoFar(plan, ranks, AtMerge(r, j)) == MergedSoFar(plan, ranks, AtMerge(r, j)) + [task]
            && FitsInside(task.paddedOutputShape, Envelope(plan, ranks, r, true))
  {
    MergedItemsGrow(plan, ranks, r, j);
    ItemIsASlot(plan, ranks, r, j);
    RoundEnvelopesCover(plan, ranks, r);
    assert Schedule(plan.tasks, r) + (MergedItems(plan, ranks, r, j) + [RoundMerges(plan, ranks, r)[j].task])
        == Schedule(plan.tasks, r) + MergedItems(plan, ranks, r, j) + [RoundMerges(plan, ranks, r)[j].task];
  }

  lemma {:induction false} MergeActs(cfg: Config, plan: TaskPlan, full: Tensor, s: World)
    requires Working(cfg, plan, full, s) && s[0].pc.AtMerge? && Placed(cfg, s)
    ensures MergeActed(cfg, plan, full, s, Acted(cfg, s))
  {
    var acted := Acted(cfg, s);
    var (r, j) := (s[0].pc.round, s[0].pc.item);
    OneMoreOutput(plan, cfg.ranks, r, j);
    OwnerMerges(cfg, full, s[OwnerSlot(cfg)], MergedSoFar(plan, cfg.ranks, s[0].pc),
                RoundMerges(plan, cfg.ranks, r)[j].task, Envelope(plan, cfg.ranks, r, true));
    forall k | 0 <= k < |s| ensures acted[k] == LocalAct(cfg, s[k], k) {}
    forall k | 0 <= k < |s| && k != OwnerSlot(cfg) ensures cfg.ranks[k] != cfg.ownerRank {}
  }

  lemma {:induction false} MergeSucceeds(cfg: Config, s: World, acted: World, merged: Result<Option<Tensor>>)
    requires ValidConfig(cfg) && OwnerMerged(cfg, s, acted, merged) && FailedRanks(cfg, acted) == []
    ensures merged.Ok?
    ensures forall k | 0 <= k < |s| ::
              acted[k] == if k != OwnerSlot(cfg) then s[k].(waiting := Some(false))
                          else s[k].(merged := merged.value, waiting := Some(false))
  {
    FailedRanksAreTheFlagged(cfg, acted);
    assert acted[OwnerSlot(cfg)].waiting != Some(true);
  }

  lemma {:induction false} MergeQuiet(cfg: Config, plan: TaskPlan, full: Tensor, s: World, acted: World)
    requires Working(cfg, plan, full, s) && s[0].pc.AtMerge?
    requires MergeActed(cfg, plan, full, s, acted) && FailedRanks(cfg, acted) == []
    ensures QuietWindow(cfg, plan, full, s, acted)
    ensures SerialFold(cfg, full, OutputsSoFar(plan, cfg.ranks, s[0].pc)) == Ok(acted[OwnerSlot(cfg)].merged)
    ensures forall k | 0 <= k < |s| ::
              acted[k].inputTransfers == s[k].inputTransfers && acted[k].outputTransfers == s[k].outputTransfers
              && acted[k].localOutput == s[k].localOutput
  {
    MergeSucceeds(cfg, s, acted, SerialFold(cfg, full, OutputsSoFar(plan, cfg.ranks, s[0].pc)));
  }

  lemma {:induction false} MergeBuffers(cfg: Config, plan: TaskPlan, full: Tensor, s: World, n: World, r: nat, j: nat, pc: Pc)
    requires ValidConfig(cfg) && Agreed(plan, cfg.ranks) && |n| == |s| == |cfg.ranks|
    requires r < plan.rounds && j < |RoundMerges(plan, cfg.ranks, r)|
    requires OutputsReady(cfg, plan, full, s, r, j)
    requires forall k | 0 <= k < |s| :: n[k].localOutput == s[k].localOutput
    requires pc == EnterItem(plan, cfg.ranks, r, j + 1)
    ensures BuffersReady(cfg, plan, full, n, pc)
  {
    EnterItemFacts(plan, cfg.ranks, r, j + 1);
    if pc.AtGather? {
      OutputsStay(cfg, plan, full, s, n, r, j, j + 1);
    } else {
      FreshRoundBuffers(cfg, plan, full, n, r + 1, pc);
    }
  }

  lemma {:induction false} MergeCounts(cfg: Config, plan: TaskPlan, r: nat, j: nat, k: nat)
    requires ValidConfig(cfg) && Agreed(plan, cfg.ranks) && k < |cfg.ranks|
    requires r < plan.rounds && j < |RoundMerges(plan, cfg.ranks, r)|
    ensures var (at, pc) := (AtMerge(r, j), EnterItem(plan, cfg.ranks, r, j + 1));
            && TransfersOf(cfg, InputsSoFar(plan, cfg.ranks, at), k) == TransfersOf(cfg, InputsSoFar(plan, cfg.ranks, pc), k)
            && OutputsSoFar(plan, cfg.ranks, at) == OutputsSoFar(plan, cfg.ranks, pc)
            && MergedSoFar(plan, cfg.ranks, pc) == OutputsSoFar(plan, cfg.ranks, at)
  {
    EnterItemFacts(plan, cfg.ranks, r, j + 1);
    TransfersAtItem(cfg, plan, r, j + 1, k);
  }

  lemma {:induction false} MergeCountsAll(cfg: Config, plan: TaskPlan, s: World, acted: World, r: nat, j: nat, pc: Pc)
    requires ValidConfig(cfg) && Agreed(plan, cfg.ranks) && |s| == |acted| == |cfg.ranks|
    requires r < plan.rounds && j < |RoundMerges(plan, cfg.ranks, r)|
    requires pc == EnterItem(plan, cfg.ranks, r, j + 1) && Counted(cfg, plan, s, AtMerge(r, j))
    requires forall k | 0 <= k < |s| ::
               acted[k].inputTransfers == s[k].inputTransfers && acted[k].outputTransfers == s[k].outputTransfers
    ensures Counted(cfg, plan, acted, pc)
    ensures MergedSoFar(plan, cfg.ranks, pc) == OutputsSoFar(plan, cfg.ranks, AtMerge(r, j))
  {
    MergeCounts(cfg, plan, r, j, 0);
    forall k | 0 <= k < |s|
      ensures acted[k].inputTransfers == TransfersOf(cfg, InputsSoFar(plan, cfg.ranks, pc), k)
      ensures acted[k].outputTransfers == TransfersOf(cfg, OutputsSoFar(plan, cfg.ranks, pc), k)
    {
      MergeCounts(cfg, plan, r, j, k);
    }
  }

  /** On from a merged item. */
  lemma {:induction false} MergeNext(cfg: Config, plan: TaskPlan, full: Tensor, s: World, acted: World)
    requires QuietOn(cfg, plan, full, s, acted) && s[0].pc.AtMerge? && Counted(cfg, plan, s, s[0].pc)
    requires OutputsReady(cfg, plan, full, s, s[0].pc.round, s[0].pc.item)
    requires SerialFold(cfg, full, OutputsSoFar(plan, cfg.ranks, s[0].pc)) == Ok(acted[OwnerSlot(cfg)].merged)
    requires forall k | 0 <= k < |s| ::
               acted[k].inputTransfers == s[k].inputTransfers && acted[k].outputTransfers == s[k].outputTransfers
               && acted[k].localOutput == s[k].localOutput
    ensures Working(cfg, plan, full, Moved(cfg, acted))
  {
    var (r, j, pc) := (s[0].pc.round, s[0].pc.item, NextPc(plan, cfg.ranks, s[0].pc));
    EnterItemFacts(plan, cfg.ranks, r, j + 1);
    MergeCountsAll(cfg, plan, s, acted, r, j, pc);
    MovedBuffers(cfg, plan, s, acted);
    MergeBuffers(cfg, plan, full, s, Moved(cfg, acted), r, j, pc);
    NextIsWorking(cfg, plan, full, s, acted, pc);
  }

  lemma {:induction false} MergeMoves(cfg: Config, plan: TaskPlan, full: Tensor, s: World, acted: World)
    requires QuietWindow(cfg, plan, full, s, acted) && s[0].pc.AtMerge?
    requires SerialFold(cfg, full, OutputsSoFar(plan, cfg.ranks, s[0].pc)) == Ok(acted[OwnerSlot(cfg)].merged)
    requires forall k | 0 <= k < |s| ::
               acted[k].inputTransfers == s[k].inputTransfers && acted[k].outputTransfers == s[k].outputTransfers
               && acted[k].localOutput == s[k].localOutput
    ensures Working(cfg, plan, full, Moved(cfg, acted))
  {
    MergeNext(cfg, plan, full, s, acted);
  }

  // ---- Drain ----------------------------------------------------------------

  lemma {:induction false} DrainMoves(cfg: Config, plan: TaskPlan, full: Tensor, s: World)
    requires Working(cfg, plan, full, s) && s[0].pc.AtDrain? && Placed(cfg, s)
    requires FailedRanks(cfg, Acted(cfg, s)) == []
    ensures Working(cfg, plan, full, Window(cfg, s))
  {
    var acted := Acted(cfg, s);
    forall k | 0 <= k < |s| ensures acted[k] == s[k].(waiting := Some(!cfg.drainOk[k])) {}
    FailedRanksAreTheFlagged(cfg, acted);
    NextIsWorking(cfg, plan, full, s, acted, AtEnd);
  }

  /** A window in which nobody fails leads from a working state to a working state. */
  lemma {:induction false} WorkingWindow(cfg: Config, plan: TaskPlan, full: Tensor, s: World)
    requires Working(cfg, plan, full, s) && Placed(cfg, s) && !s[0].pc.AtEnd?
    requires FailedRanks(cfg, Acted(cfg, s)) == []
    ensures Working(cfg, plan, full, Window(cfg, s))
  {
    var acted := Acted(cfg, s);
    match s[0].pc {
      case AtMaterialize(_, _) =>
        MaterializeActs(cfg, plan, full, s);
        MaterializeMoves(cfg, plan, full, s, acted);
      case AtScatter(_, _) =>
        ScatterActs(cfg, plan, full, s);
        ScatterMoves(cfg, plan, full, s, acted);
      case AtExecute(_) =>
        ExecuteActs(cfg, plan, full, s);
        ExecuteMoves(cfg, plan, full, s, acted);
      case AtGather(_, _) =>
        GatherActs(cfg, plan, full, s);
        GatherMoves(cfg, plan, full, s, acted);
      case AtMerge(_, _) =>
        MergeActs(cfg, plan, full, s);
        MergeQuiet(cfg, plan, full, s, acted);
        MergeMoves(cfg, plan, full, s, acted);
      case AtDrain => DrainMoves(cfg, plan, full, s);
    }
  }
}
