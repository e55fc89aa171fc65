/**
 * Bookkeeping along the engine's loops: how many control gathers lie before a
 * position, and which tasks have been sent, returned and merged there.
 */
module VaeProgress {
  import opened Wrappers
  import opened VaePlan
  import opened VaeSchedule
  import opened VaeEngine

  /** A plan that the whole group has agreed on. */
  predicate Agreed(plan: TaskPlan, ranks: seq<int>) {
    ValidPlan(plan) && ValidGroup(ranks) && PlanFitsGroup(plan, ranks)
  }

  predicate PcInPlan(plan: TaskPlan, ranks: seq<int>, pc: Pc) {
    match pc
    case AtMaterialize(r, i) => r < plan.rounds && i < |ranks| && Slots(plan, ranks, r)[i].Some?
    case AtScatter(r, i) => r < plan.rounds && i < |ranks| && Slots(plan, ranks, r)[i].Some?
    case AtExecute(r) => r < plan.rounds
    case AtGather(r, j) => r < plan.rounds && j < |RoundMerges(plan, ranks, r)|
    case AtMerge(r, j) => r < plan.rounds && j < |RoundMerges(plan, ranks, r)|
    case AtDrain => true
    case AtEnd => true
    case _ => false
  }

  /** Control gathers before round `round` starts: three for the plan, then each round's. */
  function GathersBefore(plan: TaskPlan, round: nat): nat {
    3 + 4 * |Schedule(plan.tasks, round)| + round
  }

  function Position(plan: TaskPlan, ranks: seq<int>, pc: Pc): nat {
    match pc
    case AtPlan => 0
    case AtSignature => 1
    case AtBroadcast => 2
    case AtMaterialize(r, i) => GathersBefore(plan, r) + 2 * ActiveBefore(plan, ranks, r, i)
    case AtScatter(r, i) => GathersBefore(plan, r) + 2 * ActiveBefore(plan, ranks, r, i) + 1
    case AtExecute(r) => GathersBefore(plan, r) + 2 * |RoundActive(plan, ranks, r)|
    case AtGather(r, j) => GathersBefore(plan, r) + 2 * |RoundActive(plan, ranks, r)| + 1 + 2 * j
    case AtMerge(r, j) => GathersBefore(plan, r) + 2 * |RoundActive(plan, ranks, r)| + 2 + 2 * j
    case AtDrain => if plan.rounds >= 0 then GathersBefore(plan, plan.rounds) else 0
    case AtEnd => if plan.rounds >= 0 then GathersBefore(plan, plan.rounds) + 1 else 0
  }

  function ActiveBefore(plan: TaskPlan, ranks: seq<int>, round: nat, i: nat): nat {
    if i <= |ranks| then |ActiveSlots(Slots(plan, ranks, round), i)| else 0
  }

  /** The tasks whose tiles the owner has distributed before this position. */
  function InputsSoFar(plan: TaskPlan, ranks: seq<int>, pc: Pc): seq<TaskSpec> {
    match pc
    case AtMaterialize(r, i) => Schedule(plan.tasks, r) + ActiveTasks(plan, ranks, r, i)
    case AtScatter(r, i) => Schedule(plan.tasks, r) + ActiveTasks(plan, ranks, r, i)
    case AtExecute(r) => Schedule(plan.tasks, r) + TasksOf(RoundActive(plan, ranks, r))
    case AtGather(r, _) => Schedule(plan.tasks, r) + TasksOf(RoundActive(plan, ranks, r))
    case AtMerge(r, _) => Schedule(plan.tasks, r) + TasksOf(RoundActive(plan, ranks, r))
    case AtDrain => if plan.rounds >= 0 then Schedule(plan.tasks, plan.rounds) else []
    case AtEnd => if plan.rounds >= 0 then Schedule(plan.tasks, plan.rounds) else []
    case _ => []
  }

  function ActiveTasks(plan: TaskPlan, ranks: seq<int>, round: nat, i: nat): seq<TaskSpec> {
    if i <= |ranks| then TasksOf(ActiveSlots(Slots(plan, ranks, round), i)) else []
  }

  /** The tasks whose finished tiles have reached the owner's merge queue. */
  function OutputsSoFar(plan: TaskPlan, ranks: seq<int>, pc: Pc): seq<TaskSpec> {
    match pc
    case AtMaterialize(r, _) => Schedule(plan.tasks, r)
    case AtScatter(r, _) => Schedule(plan.tasks, r)
    case AtExecute(r) => Schedule(plan.tasks, r)
    case AtGather(r, j) => Schedule(plan.tasks, r) + MergedItems(plan, ranks, r, j)
    case AtMerge(r, j) => Schedule(plan.tasks, r) + MergedItems(plan, ranks, r, j + 1)
    case AtDrain => if plan.rounds >= 0 then Schedule(plan.tasks, plan.rounds) else []
    case AtEnd => if plan.rounds >= 0 then Schedule(plan.tasks, plan.rounds) else []
    case _ => []
  }

  function MergedItems(plan: TaskPlan, ranks: seq<int>, round: nat, j: nat): seq<TaskSpec> {
    if j <= |RoundMerges(plan, ranks, round)| then TasksOf(RoundMerges(plan, ranks, round)[..j]) else []
  }

  /** The tasks the owner has merged, in order. */
  function MergedSoFar(plan: TaskPlan, ranks: seq<int>, pc: Pc): seq<TaskSpec> {
    match pc
    case AtMerge(r, j) => Schedule(plan.tasks, r) + MergedItems(plan, ranks, r, j)
    case _ => OutputsSoFar(plan, ranks, pc)
  }

  // ---- Moving to the next position ------------------------------------------

  lemma {:induction false} FirstSlotSkipsEmptyOnes(slots: seq<Option<TaskSpec>>, round: nat, i: nat)
    requires i <= |slots|
    ensures var pc := FirstSlot(slots, round, i);
            || (pc == AtExecute(round) && ActiveSlots(slots, |slots|) == ActiveSlots(slots, i))
            || (pc.AtMaterialize? && pc.round == round && i <= pc.slot < |slots| && slots[pc.slot].Some?
                && ActiveSlots(slots, pc.slot) == ActiveSlots(slots, i))
    ensures var pc := FirstSlot(slots, round, i);
            forall s | i <= s < (if pc.AtMaterialize? then pc.slot else |slots|) :: slots[s].None?
    decreases |slots| - i
  {
    if i < |slots| && slots[i].None? { FirstSlotSkipsEmptyOnes(slots, round, i + 1); }
  }

  lemma {:induction false} ActiveTasksGrow(plan: TaskPlan, ranks: seq<int>, round: nat, i: nat)
    requires i < |ranks| && Slots(plan, ranks, round)[i].Some?
    ensures ActiveTasks(plan, ranks, round, i + 1)
         == ActiveTasks(plan, ranks, round, i) + [Slots(plan, ranks, round)[i].value]
  {
    var before := ActiveSlots(Slots(plan, ranks, round), i);
    var after := ActiveSlots(Slots(plan, ranks, round), i + 1);
    assert after == before + [Active(i, Slots(plan, ranks, round)[i].value)];
  }

  lemma {:induction false} MergedItemsGrow(plan: TaskPlan, ranks: seq<int>, round: nat, j: nat)
    requires j < |RoundMerges(plan, ranks, round)|
    ensures MergedItems(plan, ranks, round, j + 1)
         == MergedItems(plan, ranks, round, j) + [RoundMerges(plan, ranks, round)[j].task]
  {
    var m := RoundMerges(plan, ranks, round);
    assert m[..j + 1] == m[..j] + [m[j]];
  }

  /** A whole round's merges, its active slots and its tasks are the same tasks. */
  lemma {:induction false} WholeRound(plan: TaskPlan, ranks: seq<int>, round: nat)
    requires Agreed(plan, ranks)
    ensures |RoundMerges(plan, ranks, round)| == |RoundActive(plan, ranks, round)|
    ensures MergedItems(plan, ranks, round, |RoundMerges(plan, ranks, round)|)
         == TasksOfRound(plan.tasks, |plan.tasks|, round)
    ensures Schedule(plan.tasks, round + 1)
         == Schedule(plan.tasks, round) + TasksOfRound(plan.tasks, |plan.tasks|, round)
    ensures |TasksOfRound(plan.tasks, |plan.tasks|, round)| == |RoundActive(plan, ranks, round)|
  {
    RoundMergesAreRoundTasks(plan, ranks, round);
    ActiveIdsDiffer(plan, ranks, round);
    SortByIdSorts(RoundActive(plan, ranks, round));
    var m := RoundMerges(plan, ranks, round);
    assert m[..|m|] == m;
  }

  /** The start of a round, or the end of the rounds, continues where the last round stopped. */
  lemma {:induction false} EnterRoundFacts(plan: TaskPlan, ranks: seq<int>, round: nat)
    requires Agreed(plan, ranks) && round <= plan.rounds
    ensures var pc := EnterRound(plan, ranks, round);
            && PcInPlan(plan, ranks, pc)
            && !pc.AtGather? && !pc.AtScatter? && !pc.AtMerge? && !pc.AtEnd?
            && Position(plan, ranks, pc) == GathersBefore(plan, round)
            && InputsSoFar(plan, ranks, pc) == Schedule(plan.tasks, round)
            && OutputsSoFar(plan, ranks, pc) == Schedule(plan.tasks, round)
            && (pc.AtMaterialize? || pc.AtExecute? ==> pc.round == round)
            && (pc.AtMaterialize? ==> forall s | 0 <= s < pc.slot :: Slots(plan, ranks, round)[s].None?)
            && (pc.AtExecute? ==> forall s | 0 <= s < |ranks| :: Slots(plan, ranks, round)[s].None?)
  {
    if round < plan.rounds {
      FirstSlotSkipsEmptyOnes(Slots(plan, ranks, round), round, 0);
    }
  }

  lemma {:induction false} NextAfterScatter(plan: TaskPlan, ranks: seq<int>, round: nat, i: nat)
    requires Agreed(plan, ranks) && PcInPlan(plan, ranks, AtScatter(round, i))
    ensures var pc := NextPc(plan, ranks, AtScatter(round, i));
            && PcInPlan(plan, ranks, pc)
            && (pc == AtExecute(round) || (pc.AtMaterialize? && pc.round == round && pc.slot > i))
            && Position(plan, ranks, pc) == Position(plan, ranks, AtScatter(round, i)) + 1
            && InputsSoFar(plan, ranks, pc)
               == InputsSoFar(plan, ranks, AtScatter(round, i)) + [Slots(plan, ranks, round)[i].value]
            && forall s | i < s < (if pc.AtMaterialize? then pc.slot else |ranks|) ::
                 Slots(plan, ranks, round)[s].None?
  {
    FirstSlotSkipsEmptyOnes(Slots(plan, ranks, round), round, i + 1);
    ActiveTasksGrow(plan, ranks, round, i);
  }

  /** A round that has been executed goes to its first merge, or to the next round. */
  lemma {:induction false} EnterItemFacts(plan: TaskPlan, ranks: seq<int>, round: nat, j: nat)
    requires Agreed(plan, ranks) && round < plan.rounds && j <= |RoundMerges(plan, ranks, round)|
    ensures var pc := EnterItem(plan, ranks, round, j);
            && PcInPlan(plan, ranks, pc)
            && !pc.AtEnd? && !pc.AtScatter? && !pc.AtMerge?
            && (pc.AtGather? ==> pc == AtGather(round, j))
            && Position(plan, ranks, pc) == Position(plan, ranks, AtGather(round, j))
            && OutputsSoFar(plan, ranks, pc) == OutputsSoFar(plan, ranks, AtGather(round, j))
            && (!pc.AtGather? ==> j == |RoundMerges(plan, ranks, round)| && pc == EnterRound(plan, ranks, round + 1))
  {
    WholeRound(plan, ranks, round);
    if j == |RoundMerges(plan, ranks, round)| {
      EnterRoundFacts(plan, ranks, round + 1);
    }
  }
}
