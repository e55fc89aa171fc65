/**
 * How the VAE engine turns a plan into rounds: which task each rank runs in a
 * round, and in which order the owner merges the results.
 */
module VaeSchedule {
  import opened Wrappers
  import opened VaePlan

  /** The group the engine runs on; every assigned rank and the owner belong to it. */
  predicate ValidGroup(ranks: seq<int>) {
    && ranks != []
    && (forall s | 0 <= s < |ranks| :: ranks[s] >= 0)
    && (forall s, t | 0 <= s < t < |ranks| :: ranks[s] != ranks[t])
  }

  /** `set(ranks)`. */
  function Ranks(ranks: seq<int>): set<int> {
    set r | r in ranks
  }

  lemma {:induction false} RanksSnoc(front: seq<int>, last: int)
    ensures Ranks(front + [last]) == Ranks(front) + {last}
  {}

  predicate AllDifferent(ranks: seq<int>) {
    forall s, t | 0 <= s < t < |ranks| :: ranks[s] != ranks[t]
  }

  lemma {:induction false} OneMoreRank(front: seq<int>, last: int)
    ensures AllDifferent(front + [last]) <==> AllDifferent(front) && last !in front
  {
    var all := front + [last];
    assert all[|front|] == last && forall s | 0 <= s < |front| :: all[s] == front[s];
  }

  lemma {:induction false} CountOfRanks(ranks: seq<int>)
    ensures |Ranks(ranks)| <= |ranks| && (|Ranks(ranks)| == |ranks| <==> AllDifferent(ranks))
  {
    if ranks != [] {
      var (front, last) := (ranks[..|ranks| - 1], ranks[|ranks| - 1]);
      CountOfRanks(front);
      OneMoreRank(front, last);
      RanksSnoc(front, last);
      assert front + [last] == ranks;
      if last in front { assert Ranks(ranks) == Ranks(front); }
    }
  }

  /** A group is accepted if it has ranks, none negative, and as many different ones as entries. */
  lemma {:induction false} AcceptedGroups(ranks: seq<int>)
    ensures ValidGroup(ranks) <==> |ranks| >= 1 && |Ranks(ranks)| == |ranks| && forall r | r in ranks :: r >= 0
  {
    CountOfRanks(ranks);
    assert forall s | 0 <= s < |ranks| :: ranks[s] in ranks;
  }

  predicate PlanFitsGroup(plan: TaskPlan, ranks: seq<int>) {
    forall k | 0 <= k < |plan.tasks| :: plan.tasks[k].assignedRank in ranks
  }

  // ---- Slots of a round ---------------------------------------------------

  /** The tasks assigned to `rank`, in plan order. */
  function RankTasks(tasks: seq<TaskSpec>, rank: int): (own: seq<TaskSpec>)
    ensures |own| == TaskCount(tasks, rank)
  {
    if tasks == [] then []
    else
      var last := |tasks| - 1;
      RankTasks(tasks[..last], rank) + if tasks[last].assignedRank == rank then [tasks[last]] else []
  }

  function Slot(plan: TaskPlan, rank: int, round: nat): Option<TaskSpec> {
    var own := RankTasks(plan.tasks, rank);
    if round < |own| then Some(own[round]) else None
  }

  /** One slot per rank of the group, as `tasks_for_round` returns them. */
  function Slots(plan: TaskPlan, ranks: seq<int>, round: nat): (slots: seq<Option<TaskSpec>>)
    ensures |slots| == |ranks|
  {
    seq(|ranks|, s requires 0 <= s < |ranks| => Slot(plan, ranks[s], round))
  }

  method TasksForRound(plan: TaskPlan, ranks: seq<int>, round: int)
    returns (result: Result<seq<Option<TaskSpec>>>)
    ensures result.Ok? <==> ValidPlan(plan) && ValidGroup(ranks) && 0 <= round < plan.rounds
    ensures result.Ok? ==> result.value == Slots(plan, ranks, round)
  {
    var ok := ValidateTaskPlan(plan);
    if !ok || !ValidGroup(ranks) || !(0 <= round < plan.rounds) {
      return Err;
    }
    var slots := [];
    for s := 0 to |ranks|
      invariant |slots| == s
      invariant forall i | 0 <= i < s :: slots[i] == Slot(plan, ranks[i], round)
    {
      var own := [];
      for k := 0 to |plan.tasks|
        invariant own == RankTasks(plan.tasks[..k], ranks[s])
      {
        assert plan.tasks[..k + 1][..k] == plan.tasks[..k];
        if plan.tasks[k].assignedRank == ranks[s] {
          own := own + [plan.tasks[k]];
        }
      }
      assert plan.tasks[..|plan.tasks|] == plan.tasks;
      slots := slots + [if round < |own| then Some(own[round]) else None];
    }
    return Ok(slots);
  }

  /** The round in which task `k` runs: how many earlier tasks its rank has. */
  function RoundOf(tasks: seq<TaskSpec>, k: nat): nat
    requires k < |tasks|
  {
    TaskCount(tasks[..k], tasks[k].assignedRank)
  }

  lemma {:induction false} TaskInItsSlot(tasks: seq<TaskSpec>, k: nat)
    requires k < |tasks|
    ensures RoundOf(tasks, k) < TaskCount(tasks, tasks[k].assignedRank)
    ensures RankTasks(tasks, tasks[k].assignedRank)[RoundOf(tasks, k)] == tasks[k]
  {
    var last := |tasks| - 1;
    if k < last {
      TaskInItsSlot(tasks[..last], k);
      assert tasks[..last][..k] == tasks[..k];
    }
  }

  lemma {:induction false} SlotHoldsATask(tasks: seq<TaskSpec>, rank: int, round: nat) returns (k: nat)
    requires round < TaskCount(tasks, rank)
    ensures k < |tasks| && tasks[k].assignedRank == rank && RoundOf(tasks, k) == round
    ensures RankTasks(tasks, rank)[round] == tasks[k]
  {
    var last := |tasks| - 1;
    if round < TaskCount(tasks[..last], rank) {
      k := SlotHoldsATask(tasks[..last], rank, round);
      assert tasks[..last][..k] == tasks[..k];
    } else {
      k := last;
    }
  }

  /** No round of a valid plan is empty. */
  lemma {:induction false} RoundsAreNonEmpty(plan: TaskPlan, ranks: seq<int>, round: nat)
    requires ValidPlan(plan) && PlanFitsGroup(plan, ranks) && round < plan.rounds
    ensures exists s | 0 <= s < |ranks| :: Slots(plan, ranks, round)[s].Some?
  {
    var k :| 0 <= k < |plan.tasks| && TaskCount(plan.tasks, plan.tasks[k].assignedRank) == plan.rounds;
    var s :| 0 <= s < |ranks| && ranks[s] == plan.tasks[k].assignedRank;
    assert Slots(plan, ranks, round)[s].Some?;
  }

  // ---- Merge order --------------------------------------------------------

  datatype Active = Active(slot: nat, task: TaskSpec)

  /** The occupied ones among the first `n` slots, with their indices. */
  function ActiveSlots(slots: seq<Option<TaskSpec>>, n: nat): seq<Active>
    requires n <= |slots|
  {
    if n == 0 then []
    else ActiveSlots(slots, n - 1) + if slots[n - 1].Some? then [Active(n - 1, slots[n - 1].value)] else []
  }

  /** All the active slots of a round, in slot order. */
  function RoundActive(plan: TaskPlan, ranks: seq<int>, round: nat): seq<Active> {
    ActiveSlots(Slots(plan, ranks, round), |ranks|)
  }

  function InsertById(x: Active, xs: seq<Active>): seq<Active> {
    if xs == [] || x.task.taskId < xs[0].task.taskId then [x] + xs
    else [xs[0]] + InsertById(x, xs[1..])
  }

  function SortById(xs: seq<Active>): seq<Active> {
    if xs == [] then [] else InsertById(xs[0], SortById(xs[1..]))
  }

  /** The owner's merge order within one round: occupied slots sorted by task id. */
  function RoundMerges(plan: TaskPlan, ranks: seq<int>, round: nat): seq<Active> {
    SortById(RoundActive(plan, ranks, round))
  }

  predicate AscendingIds(xs: seq<TaskSpec>) {
    forall i, j | 0 <= i < j < |xs| :: xs[i].taskId < xs[j].taskId
  }

  function TasksOf(xs: seq<Active>): (tasks: seq<TaskSpec>)
    ensures |tasks| == |xs|
  {
    seq(|xs|, i requires 0 <= i < |xs| => xs[i].task)
  }

  lemma {:induction false} ActiveSlotsAreTheOccupiedOnes(slots: seq<Option<TaskSpec>>, n: nat)
    requires n <= |slots|
    ensures forall a :: a in ActiveSlots(slots, n) <==> a.slot < n && slots[a.slot] == Some(a.task)
    ensures forall i, j | 0 <= i < j < |ActiveSlots(slots, n)| ::
              ActiveSlots(slots, n)[i].slot < ActiveSlots(slots, n)[j].slot
  {
    if n > 0 {
      ActiveSlotsAreTheOccupiedOnes(slots, n - 1);
      var before := ActiveSlots(slots, n - 1);
      assert forall i | 0 <= i < |before| :: before[i] in before;
    }
  }

  predicate AscendingActive(xs: seq<Active>) {
    forall i, j | 0 <= i < j < |xs| :: xs[i].task.taskId < xs[j].task.taskId
  }

  lemma {:induction false} InsertKeepsOrder(x: Active, xs: seq<Active>)
    requires AscendingActive(xs)
    requires forall y | y in xs :: y.task.taskId != x.task.taskId
    ensures AscendingActive(InsertById(x, xs))
    ensures forall y :: y in InsertById(x, xs) <==> y == x || y in xs
    ensures |InsertById(x, xs)| == |xs| + 1
  {
    if xs == [] {
    } else if x.task.taskId < xs[0].task.taskId {
    } else {
      assert xs[0] in xs;
      forall y | y in xs[1..] ensures y in xs && xs[0].task.taskId < y.task.taskId {}
      InsertKeepsOrder(x, xs[1..]);
      var rest := InsertById(x, xs[1..]);
      forall i | 0 <= i < |rest| ensures xs[0].task.taskId < rest[i].task.taskId {
        assert rest[i] in rest;
      }
      assert xs == [xs[0]] + xs[1..];
    }
  }

  predicate DistinctIds(xs: seq<Active>) {
    forall i, j | 0 <= i < j < |xs| :: xs[i].task.taskId != xs[j].task.taskId
  }

  lemma {:induction false} SortByIdSorts(xs: seq<Active>)
    requires DistinctIds(xs)
    ensures AscendingActive(SortById(xs))
    ensures forall y :: y in SortById(xs) <==> y in xs
    ensures |SortById(xs)| == |xs|
  {
    if xs != [] {
      SortByIdSorts(xs[1..]);
      forall y | y in SortById(xs[1..]) ensures y.task.taskId != xs[0].task.taskId {
        assert y in xs[1..];
      }
      InsertKeepsOrder(xs[0], SortById(xs[1..]));
      assert xs == [xs[0]] + xs[1..];
    }
  }

  /** Two ascending sequences with the same members are the same sequence. */
  lemma {:induction false} AscendingIsUnique(xs: seq<TaskSpec>, ys: seq<TaskSpec>)
    requires AscendingIds(xs) && AscendingIds(ys)
    requires forall t :: t in xs <==> t in ys
    ensures xs == ys
  {
    assert xs != [] ==> xs[0] in ys;
    assert ys != [] ==> ys[0] in xs;
    if xs != [] && ys != [] {
      assert xs[0] == ys[0];
      forall t | t in xs[1..] ensures t in ys[1..] {
        assert t in ys && t.taskId > xs[0].taskId;
        var i :| 0 <= i < |ys| && ys[i] == t;
        assert ys[1..][i - 1] == t;
      }
      forall t | t in ys[1..] ensures t in xs[1..] {
        assert t in xs && t.taskId > ys[0].taskId;
        var i :| 0 <= i < |xs| && xs[i] == t;
        assert xs[1..][i - 1] == t;
      }
      AscendingIsUnique(xs[1..], ys[1..]);
      assert xs == [xs[0]] + xs[1..] && ys == [ys[0]] + ys[1..];
    }
  }

  /** The tasks among the first `n` that run in `round`, by ascending id. */
  function TasksOfRound(tasks: seq<TaskSpec>, n: nat, round: nat): seq<TaskSpec>
    requires n <= |tasks|
  {
    if n == 0 then []
    else TasksOfRound(tasks, n - 1, round) + if RoundOf(tasks, n - 1) == round then [tasks[n - 1]] else []
  }

  predicate IsRoundTask(tasks: seq<TaskSpec>, n: nat, round: nat, t: TaskSpec)
    requires n <= |tasks|
  {
    0 <= t.taskId < n && t == tasks[t.taskId] && RoundOf(tasks, t.taskId) == round
  }

  lemma {:induction false} TasksOfRoundMembers(tasks: seq<TaskSpec>, n: nat, round: nat)
    requires n <= |tasks| && forall k | 0 <= k < |tasks| :: tasks[k].taskId == k
    ensures forall t :: t in TasksOfRound(tasks, n, round) <==> IsRoundTask(tasks, n, round, t)
    ensures AscendingIds(TasksOfRound(tasks, n, round))
  {
    if n > 0 {
      TasksOfRoundMembers(tasks, n - 1, round);
      var before := TasksOfRound(tasks, n - 1, round);
      forall i | 0 <= i < |before| ensures before[i].taskId < n - 1 {
        assert IsRoundTask(tasks, n - 1, round, before[i]);
      }
      var now := TasksOfRound(tasks, n, round);
      forall t ensures t in now <==> IsRoundTask(tasks, n, round, t) {
        assert t in now <==> t in before || (RoundOf(tasks, n - 1) == round && t == tasks[n - 1]);
        assert t in before <==> IsRoundTask(tasks, n - 1, round, t);
      }
    }
  }

  lemma {:induction false} ActiveTaskRunsInRound(plan: TaskPlan, ranks: seq<int>, round: nat, a: Active)
    requires ValidPlan(plan) && a in RoundActive(plan, ranks, round)
    ensures a.slot < |ranks| && ranks[a.slot] == a.task.assignedRank
    ensures 0 <= a.task.taskId < |plan.tasks| && plan.tasks[a.task.taskId] == a.task
    ensures RoundOf(plan.tasks, a.task.taskId) == round
  {
    ActiveSlotsAreTheOccupiedOnes(Slots(plan, ranks, round), |ranks|);
    var k := SlotHoldsATask(plan.tasks, ranks[a.slot], round);
  }

  lemma {:induction false} RoundTaskIsActive(plan: TaskPlan, ranks: seq<int>, round: nat, k: nat) returns (s: nat)
    requires ValidPlan(plan) && ValidGroup(ranks) && PlanFitsGroup(plan, ranks)
    requires k < |plan.tasks| && RoundOf(plan.tasks, k) == round
    ensures Active(s, plan.tasks[k]) in RoundActive(plan, ranks, round)
  {
    s :| 0 <= s < |ranks| && ranks[s] == plan.tasks[k].assignedRank;
    TaskInItsSlot(plan.tasks, k);
    ActiveSlotsAreTheOccupiedOnes(Slots(plan, ranks, round), |ranks|);
  }

  /** Distinct slots of a round hold tasks with distinct ids. */
  lemma {:induction false} ActiveIdsDiffer(plan: TaskPlan, ranks: seq<int>, round: nat)
    requires ValidPlan(plan) && ValidGroup(ranks)
    ensures DistinctIds(RoundActive(plan, ranks, round))
  {
    var xs := RoundActive(plan, ranks, round);
    ActiveSlotsAreTheOccupiedOnes(Slots(plan, ranks, round), |ranks|);
    forall i, j | 0 <= i < j < |xs|
      ensures xs[i].task.taskId != xs[j].task.taskId
    {
      ActiveTaskRunsInRound(plan, ranks, round, xs[i]);
      ActiveTaskRunsInRound(plan, ranks, round, xs[j]);
    }
  }

  /** Sorting the occupied slots gives the tasks of the round, by ascending id. */
  lemma {:induction false} RoundMergesAreRoundTasks(plan: TaskPlan, ranks: seq<int>, round: nat)
    requires ValidPlan(plan) && ValidGroup(ranks) && PlanFitsGroup(plan, ranks)
    ensures TasksOf(RoundMerges(plan, ranks, round)) == TasksOfRound(plan.tasks, |plan.tasks|, round)
  {
    var xs := RoundActive(plan, ranks, round);
    var merges := RoundMerges(plan, ranks, round);
    var tasks := TasksOfRound(plan.tasks, |plan.tasks|, round);
    ActiveIdsDiffer(plan, ranks, round);
    SortByIdSorts(xs);
    TasksOfRoundMembers(plan.tasks, |plan.tasks|, round);
    forall t | t in TasksOf(merges) ensures t in tasks {
      var i :| 0 <= i < |merges| && merges[i].task == t;
      assert merges[i] in merges;
      ActiveTaskRunsInRound(plan, ranks, round, merges[i]);
    }
    forall t | t in tasks ensures t in TasksOf(merges) {
      var s := RoundTaskIsActive(plan, ranks, round, t.taskId);
      var i :| 0 <= i < |merges| && merges[i] == Active(s, t);
      assert TasksOf(merges)[i] == t;
    }
    AscendingIsUnique(TasksOf(merges), tasks);
  }

  lemma {:induction false} TasksOfAppend(xs: seq<Active>, ys: seq<Active>)
    ensures TasksOf(xs + ys) == TasksOf(xs) + TasksOf(ys)
  {}

  lemma {:induction false} InsertKeepsTasks(x: Active, xs: seq<Active>)
    ensures multiset(TasksOf(InsertById(x, xs))) == multiset(TasksOf(xs)) + multiset{x.task}
  {
    if xs == [] || x.task.taskId < xs[0].task.taskId {
      TasksOfAppend([x], xs);
      assert TasksOf([x]) == [x.task];
    } else {
      InsertKeepsTasks(x, xs[1..]);
      TasksOfAppend([xs[0]], InsertById(x, xs[1..]));
      TasksOfAppend([xs[0]], xs[1..]);
      assert xs == [xs[0]] + xs[1..];
    }
  }

  lemma {:induction false} SortKeepsTasks(xs: seq<Active>)
    ensures multiset(TasksOf(SortById(xs))) == multiset(TasksOf(xs))
  {
    if xs != [] {
      SortKeepsTasks(xs[1..]);
      InsertKeepsTasks(xs[0], SortById(xs[1..]));
      TasksOfAppend([xs[0]], xs[1..]);
      assert TasksOf([xs[0]]) == [xs[0].task];
      assert xs == [xs[0]] + xs[1..];
    }
  }

  /** Slot order and merge order run through the same tasks. */
  lemma {:induction false} SameTasks(plan: TaskPlan, ranks: seq<int>, round: nat)
    requires ValidPlan(plan) && ValidGroup(ranks) && PlanFitsGroup(plan, ranks)
    ensures multiset(TasksOf(RoundActive(plan, ranks, round)))
         == multiset(TasksOfRound(plan.tasks, |plan.tasks|, round))
  {
    SortKeepsTasks(RoundActive(plan, ranks, round));
    RoundMergesAreRoundTasks(plan, ranks, round);
  }

  // ---- The whole schedule -------------------------------------------------

  /** The tasks of rounds 0..rounds, round by round. */
  function Schedule(tasks: seq<TaskSpec>, rounds: nat): seq<TaskSpec> {
    if rounds == 0 then []
    else Schedule(tasks, rounds - 1) + TasksOfRound(tasks, |tasks|, rounds - 1)
  }

  /** The tasks among the first `n` whose round is below `rounds`, in plan order. */
  function TasksBelow(tasks: seq<TaskSpec>, n: nat, rounds: nat): seq<TaskSpec>
    requires n <= |tasks|
  {
    if n == 0 then []
    else TasksBelow(tasks, n - 1, rounds) + if RoundOf(tasks, n - 1) < rounds then [tasks[n - 1]] else []
  }

  lemma {:induction false} BelowSplits(tasks: seq<TaskSpec>, n: nat, round: nat)
    requires n <= |tasks|
    ensures multiset(TasksBelow(tasks, n, round + 1))
         == multiset(TasksBelow(tasks, n, round)) + multiset(TasksOfRound(tasks, n, round))
  {
    if n > 0 { BelowSplits(tasks, n - 1, round); }
  }

  lemma {:induction false} NothingBelowZero(tasks: seq<TaskSpec>, n: nat)
    requires n <= |tasks|
    ensures TasksBelow(tasks, n, 0) == []
  {
    if n > 0 { NothingBelowZero(tasks, n - 1); }
  }

  lemma {:induction false} EverythingBelow(tasks: seq<TaskSpec>, n: nat, rounds: nat)
    requires n <= |tasks| && forall k | 0 <= k < |tasks| :: RoundOf(tasks, k) < rounds
    ensures TasksBelow(tasks, n, rounds) == tasks[..n]
  {
    if n > 0 {
      EverythingBelow(tasks, n - 1, rounds);
      assert tasks[..n] == tasks[..n - 1] + [tasks[n - 1]];
    }
  }

  lemma {:induction false} AppendSameMembers(a: seq<TaskSpec>, b: seq<TaskSpec>, c: seq<TaskSpec>, all: seq<TaskSpec>)
    requires multiset(a) == multiset(b) && multiset(all) == multiset(b) + multiset(c)
    ensures multiset(a + c) == multiset(all)
  {}

  lemma {:induction false} ScheduleIsBelow(tasks: seq<TaskSpec>, rounds: nat)
    ensures multiset(Schedule(tasks, rounds)) == multiset(TasksBelow(tasks, |tasks|, rounds))
  {
    if rounds == 0 {
      NothingBelowZero(tasks, |tasks|);
    } else {
      var round := rounds - 1;
      ScheduleIsBelow(tasks, round);
      BelowSplits(tasks, |tasks|, round);
      AppendSameMembers(Schedule(tasks, round), TasksBelow(tasks, |tasks|, round),
                        TasksOfRound(tasks, |tasks|, round), TasksBelow(tasks, |tasks|, rounds));
      assert Schedule(tasks, rounds) == Schedule(tasks, round) + TasksOfRound(tasks, |tasks|, round);
    }
  }

  lemma {:induction false} RoundsBelowPlanRounds(plan: TaskPlan)
    requires ValidPlan(plan)
    ensures forall k | 0 <= k < |plan.tasks| :: RoundOf(plan.tasks, k) < plan.rounds
  {
    forall k | 0 <= k < |plan.tasks| ensures RoundOf(plan.tasks, k) < plan.rounds {
      TaskInItsSlot(plan.tasks, k);
    }
  }

  /** Every task of a valid plan is scheduled exactly once. */
  lemma {:induction false} ScheduleIsAPermutation(plan: TaskPlan)
    requires ValidPlan(plan)
    ensures multiset(Schedule(plan.tasks, plan.rounds)) == multiset(plan.tasks)
    ensures |Schedule(plan.tasks, plan.rounds)| == |plan.tasks|
  {
    RoundsBelowPlanRounds(plan);
    ScheduleIsBelow(plan.tasks, plan.rounds);
    EverythingBelow(plan.tasks, |plan.tasks|, plan.rounds);
    assert plan.tasks[..|plan.tasks|] == plan.tasks;
    assert |multiset(Schedule(plan.tasks, plan.rounds))| == |multiset(plan.tasks)|;
  }

  /** Is task `a` merged before task `b`: by round first, then by id. */
  predicate MergedBefore(tasks: seq<TaskSpec>, a: TaskSpec, b: TaskSpec)
    requires 0 <= a.taskId < |tasks| && 0 <= b.taskId < |tasks|
  {
    || RoundOf(tasks, a.taskId) < RoundOf(tasks, b.taskId)
    || (RoundOf(tasks, a.taskId) == RoundOf(tasks, b.taskId) && a.taskId < b.taskId)
  }

  predicate InPlanBelow(tasks: seq<TaskSpec>, rounds: nat, t: TaskSpec) {
    0 <= t.taskId < |tasks| && t == tasks[t.taskId] && RoundOf(tasks, t.taskId) < rounds
  }

  predicate Lexicographic(tasks: seq<TaskSpec>, order: seq<TaskSpec>) {
    && (forall i | 0 <= i < |order| :: 0 <= order[i].taskId < |tasks|)
    && (forall i, j | 0 <= i < j < |order| :: MergedBefore(tasks, order[i], order[j]))
  }

  /** The schedule runs through the plan by (round, task id). */
  lemma {:induction false} ScheduleIsLexicographic(tasks: seq<TaskSpec>, rounds: nat)
    requires forall k | 0 <= k < |tasks| :: tasks[k].taskId == k
    ensures forall i | 0 <= i < |Schedule(tasks, rounds)| :: InPlanBelow(tasks, rounds, Schedule(tasks, rounds)[i])
    ensures Lexicographic(tasks, Schedule(tasks, rounds))
  {
    if rounds > 0 {
      var round := rounds - 1;
      ScheduleIsLexicographic(tasks, round);
      TasksOfRoundMembers(tasks, |tasks|, round);
      var (before, now) := (Schedule(tasks, round), TasksOfRound(tasks, |tasks|, round));
      forall i | 0 <= i < |now| ensures IsRoundTask(tasks, |tasks|, round, now[i]) {
        assert now[i] in now;
      }
      LexicographicAppend(tasks, before, now, round);
    }
  }

  lemma {:induction false} LexicographicAppend(tasks: seq<TaskSpec>, before: seq<TaskSpec>, now: seq<TaskSpec>, round: nat)
    requires forall i | 0 <= i < |before| :: InPlanBelow(tasks, round, before[i])
    requires forall i | 0 <= i < |now| :: IsRoundTask(tasks, |tasks|, round, now[i])
    requires Lexicographic(tasks, before) && AscendingIds(now)
    ensures forall i | 0 <= i < |before + now| :: InPlanBelow(tasks, round + 1, (before + now)[i])
    ensures Lexicographic(tasks, before + now)
  {
    var all := before + now;
    forall i | 0 <= i < |all| ensures InPlanBelow(tasks, round + 1, all[i]) {
      assert if i < |before| then InPlanBelow(tasks, round, all[i])
             else IsRoundTask(tasks, |tasks|, round, now[i - |before|]);
    }
    forall i, j | 0 <= i < j < |all| ensures MergedBefore(tasks, all[i], all[j]) {
      if j < |before| {
        assert MergedBefore(tasks, before[i], before[j]);
      } else {
        assert IsRoundTask(tasks, |tasks|, round, now[j - |before|]);
        if i < |before| {
          assert InPlanBelow(tasks, round, before[i]);
        } else {
          assert IsRoundTask(tasks, |tasks|, round, now[i - |before|]);
        }
      }
    }
  }

  /** In plan order, rounds never go down. */
  predicate RoundsAscend(tasks: seq<TaskSpec>) {
    forall i, j | 0 <= i < j < |tasks| :: RoundOf(tasks, i) <= RoundOf(tasks, j)
  }

  lemma {:induction false} NoneOfALaterRound(tasks: seq<TaskSpec>, n: nat, round: nat)
    requires RoundsAscend(tasks) && n < |tasks| && RoundOf(tasks, n) < round
    ensures TasksOfRound(tasks, n, round) == []
  {
    if n > 0 { NoneOfALaterRound(tasks, n - 1, round); }
  }

  lemma {:induction false} BelowAppends(tasks: seq<TaskSpec>, n: nat, round: nat)
    requires RoundsAscend(tasks) && n <= |tasks|
    ensures TasksBelow(tasks, n, round + 1) == TasksBelow(tasks, n, round) + TasksOfRound(tasks, n, round)
  {
    if n > 0 {
      BelowAppends(tasks, n - 1, round);
      if RoundOf(tasks, n - 1) < round { NoneOfALaterRound(tasks, n - 1, round); }
    }
  }

  lemma {:induction false} AscendingScheduleIsBelow(tasks: seq<TaskSpec>, rounds: nat)
    requires RoundsAscend(tasks)
    ensures Schedule(tasks, rounds) == TasksBelow(tasks, |tasks|, rounds)
  {
    if rounds == 0 {
      NothingBelowZero(tasks, |tasks|);
    } else {
      AscendingScheduleIsBelow(tasks, rounds - 1);
      BelowAppends(tasks, |tasks|, rounds - 1);
    }
  }

  /**
   * The metrics report the tasks in plan order as the merge order. The owner
   * really merges in that order exactly when rounds ascend along the plan.
   */
  lemma {:induction false} ReportedOrderIsMergeOrder(plan: TaskPlan)
    requires ValidPlan(plan)
    ensures Schedule(plan.tasks, plan.rounds) == plan.tasks <==> RoundsAscend(plan.tasks)
  {
    if RoundsAscend(plan.tasks) {
      AscendingScheduleIsBelow(plan.tasks, plan.rounds);
      RoundsBelowPlanRounds(plan);
      EverythingBelow(plan.tasks, |plan.tasks|, plan.rounds);
      assert plan.tasks[..|plan.tasks|] == plan.tasks;
    }
    if Schedule(plan.tasks, plan.rounds) == plan.tasks {
      ScheduleIsLexicographic(plan.tasks, plan.rounds);
      forall i, j | 0 <= i < j < |plan.tasks|
        ensures RoundOf(plan.tasks, i) <= RoundOf(plan.tasks, j)
      {
        assert MergedBefore(plan.tasks, plan.tasks[i], plan.tasks[j]);
      }
    }
  }

  /** Two tasks of rank 0 and then one of rank 1, on a single sample. */
  function LatePlan(): TaskPlan {
    var task := (id, rank) => TaskSpec(id, rank, [(0, 1)], [(0, 1)], [1], [1], 1);
    TaskPlan(ENCODE, 0, [1], [1], [task(0, 0), task(1, 0), task(2, 1)], 2)
  }

  lemma {:induction false} LateCounts(a: TaskSpec, b: TaskSpec, c: TaskSpec, rank: int)
    ensures TaskCount([], rank) == 0
    ensures TaskCount([a], rank) == if a.assignedRank == rank then 1 else 0
    ensures TaskCount([a, b], rank) == TaskCount([a], rank) + if b.assignedRank == rank then 1 else 0
    ensures TaskCount([a, b, c], rank) == TaskCount([a, b], rank) + if c.assignedRank == rank then 1 else 0
  {
    assert [a][..0] == [] && [a, b][..1] == [a] && [a, b, c][..2] == [a, b];
  }

  lemma {:induction false} LateRounds()
    ensures var tasks := LatePlan().tasks;
            && |tasks| == 3 && RoundOf(tasks, 0) == 0 && RoundOf(tasks, 1) == 1 && RoundOf(tasks, 2) == 0
            && TaskCount(tasks, 0) == 2 && TaskCount(tasks, 1) == 1
  {
    var tasks := LatePlan().tasks;
    LateCounts(tasks[0], tasks[1], tasks[2], 0);
    LateCounts(tasks[0], tasks[1], tasks[2], 1);
    assert tasks == [tasks[0], tasks[1], tasks[2]];
    assert tasks[..0] == [] && tasks[..1] == [tasks[0]] && tasks[..2] == [tasks[0], tasks[1]];
  }

  lemma {:induction false} LatePlanIsValid()
    ensures ValidPlan(LatePlan()) && PlanFitsGroup(LatePlan(), [0, 1])
  {
    var tasks := LatePlan().tasks;
    LateRounds();
    assert TaskCount(tasks, tasks[0].assignedRank) == 2;
  }

  /** A valid plan whose reported merge order is wrong: task 2 is merged before task 1. */
  lemma {:induction false} ReportedOrderCanBeWrong()
    ensures ValidPlan(LatePlan()) && PlanFitsGroup(LatePlan(), [0, 1])
    ensures var tasks := LatePlan().tasks;
            !RoundsAscend(tasks) && Schedule(tasks, LatePlan().rounds) == [tasks[0], tasks[2], tasks[1]] != tasks
  {
    var tasks := LatePlan().tasks;
    LatePlanIsValid();
    LateRounds();
    assert RoundOf(tasks, 2) < RoundOf(tasks, 1);
    LateMerges(tasks, 0);
    LateMerges(tasks, 1);
    assert Schedule(tasks, 0) == [];
    assert Schedule(tasks, 1) == TasksOfRound(tasks, 3, 0);
  }

  lemma {:induction false} LateMerges(tasks: seq<TaskSpec>, round: nat)
    requires |tasks| == 3
    ensures TasksOfRound(tasks, 3, round)
         == (if RoundOf(tasks, 0) == round then [tasks[0]] else [])
            + (if RoundOf(tasks, 1) == round then [tasks[1]] else [])
            + (if RoundOf(tasks, 2) == round then [tasks[2]] else [])
  {
    assert TasksOfRound(tasks, 0, round) == [];
    assert TasksOfRound(tasks, 1, round) == [] + if RoundOf(tasks, 0) == round then [tasks[0]] else [];
  }

  // ---- Counting -----------------------------------------------------------

  lemma {:induction false} TaskCountAppend(a: seq<TaskSpec>, b: seq<TaskSpec>, rank: int)
    ensures TaskCount(a + b, rank) == TaskCount(a, rank) + TaskCount(b, rank)
  {
    if b == [] {
      assert a + b == a;
    } else {
      var last := |b| - 1;
      TaskCountAppend(a, b[..last], rank);
      assert (a + b)[..|a + b| - 1] == a + b[..last];
    }
  }

  lemma {:induction false} CountWithout(b: seq<TaskSpec>, i: nat, rank: int)
    requires i < |b|
    ensures TaskCount(b, rank) == TaskCount(b[..i] + b[i + 1..], rank) + TaskCount([b[i]], rank)
    ensures multiset(b[..i] + b[i + 1..]) == multiset(b) - multiset{b[i]}
  {
    var (l, x, r) := (b[..i], [b[i]], b[i + 1..]);
    assert b == l + x + r;
    TaskCountAppend(l + x, r, rank);
    TaskCountAppend(l, x, rank);
    TaskCountAppend(l, r, rank);
  }

  lemma {:induction false} TaskCountOfPermutation(a: seq<TaskSpec>, b: seq<TaskSpec>, rank: int)
    requires multiset(a) == multiset(b)
    ensures TaskCount(a, rank) == TaskCount(b, rank)
  {
    if a == [] {
      assert |multiset(b)| == 0;
    } else {
      var last := |a| - 1;
      assert a[last] in multiset(b);
      var i :| 0 <= i < |b| && b[i] == a[last];
      CountWithout(a, last, rank);
      CountWithout(b, i, rank);
      TaskCountOfPermutation(a[..last] + a[last + 1..], b[..i] + b[i + 1..], rank);
    }
  }
}
