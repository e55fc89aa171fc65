/**
 * The history of a run: the synchronised states it has passed, what is known of
 * each, and how each leads to the next.
 */
module VaeHistory {
  import opened Wrappers
  import opened Arithmetic
  import opened VaePlan
  import opened VaeSchedule
  import opened VaeTensor
  import opened VaeEngine
  import opened VaeProgress
  import opened VaeSync
  import opened VaeRuns
  import opened VaeSteps
  import opened VaeSuccess

  // ---- Where a running group stands -------------------------------------------

  /** Control gathers of a run that meets no error. */
  function AllGathers(plan: TaskPlan): int {
    4 + 4 * |plan.tasks| + plan.rounds
  }

  lemma {:induction false} RoundFitsSchedule(plan: TaskPlan, ranks: seq<int>, r: nat)
    requires Agreed(plan, ranks) && r < plan.rounds
    ensures GathersBefore(plan, r) + 4 * |RoundActive(plan, ranks, r)| + 2 <= AllGathers(plan)
    ensures |RoundMerges(plan, ranks, r)| == |RoundActive(plan, ranks, r)|
  {
    WholeRound(plan, ranks, r);
    ScheduleGrows(plan.tasks, r + 1, plan.rounds);
    ScheduleIsAPermutation(plan);
  }

  lemma {:induction false} ActiveGrows(slots: seq<Option<TaskSpec>>, i: nat, n: nat)
    requires i <= n <= |slots|
    ensures |ActiveSlots(slots, i)| <= |ActiveSlots(slots, n)|
    ensures i < n && slots[i].Some? ==> |ActiveSlots(slots, i)| < |ActiveSlots(slots, n)|
  {
    if i < n { ActiveGrows(slots, i, n - 1); }
  }

  lemma {:induction false} PositionBound(plan: TaskPlan, ranks: seq<int>, pc: Pc)
    requires Agreed(plan, ranks) && PcInPlan(plan, ranks, pc) && !pc.AtEnd?
    ensures Position(plan, ranks, pc) < AllGathers(plan)
  {
    ScheduleIsAPermutation(plan);
    match pc {
      case AtMaterialize(r, i) => RoundFitsSchedule(plan, ranks, r); ActiveGrows(Slots(plan, ranks, r), i, |ranks|);
      case AtScatter(r, i) => RoundFitsSchedule(plan, ranks, r); ActiveGrows(Slots(plan, ranks, r), i, |ranks|);
      case AtExecute(r) => RoundFitsSchedule(plan, ranks, r);
      case AtGather(r, _) => RoundFitsSchedule(plan, ranks, r);
      case AtMerge(r, _) => RoundFitsSchedule(plan, ranks, r);
      case _ =>
    }
  }

  /** The most control gathers a run can need; a bad owner's plan fails in the first one. */
  ghost function MostGathers(cfg: Config): nat
    requires ValidConfig(cfg)
  {
    var plan := cfg.plans[OwnerSlot(cfg)];
    if plan.Some? && ValidPlan(plan.value) then AllGathers(plan.value) else 1
  }

  /** While a run goes on, the position tells how many gathers it has completed. */
  ghost predicate Positioned(cfg: Config, s: World)
    requires ValidConfig(cfg)
  {
    var plan := cfg.plans[OwnerSlot(cfg)];
    && s != []
    && |s[0].log| < MostGathers(cfg)
    && if |s[0].log| == 0 then s[0].pc == AtPlan
       else plan.Some? && Position(plan.value, cfg.ranks, s[0].pc) == |s[0].log|
  }

  lemma {:induction false} WorkingPositioned(cfg: Config, plan: TaskPlan, full: Tensor, s: World)
    requires Working(cfg, plan, full, s) && !s[0].pc.AtEnd?
    ensures Positioned(cfg, s)
  {
    PositionBound(plan, cfg.ranks, s[0].pc);
  }

  lemma {:induction false} SyncedPosition(cfg: Config, s: World)
    requires ValidConfig(cfg) && Synced(cfg, s) && s[0].outcome.Running?
    ensures Positioned(cfg, s)
  {
    if PlanPhase(cfg, s) {
      if !s[0].pc.AtPlan? { assert !PrepareFails(cfg, OwnerSlot(cfg)); }
    } else {
      var plan: TaskPlan, full: Tensor :| Working(cfg, plan, full, s);
      WorkingPositioned(cfg, plan, full, s);
    }
  }

  // ---- What a successful group ends up with -----------------------------------

  /** Rank `k`'s transfers in each direction: all but its own tasks on the owner, its own tasks elsewhere. */
  function RankTransfers(cfg: Config, plan: TaskPlan, k: nat): int
    requires k < |cfg.ranks|
  {
    if cfg.ranks[k] == cfg.ownerRank then |plan.tasks| - TaskCount(plan.tasks, cfg.ownerRank)
    else TaskCount(plan.tasks, cfg.ranks[k])
  }

  /** What a successful group ends up with. */
  ghost predicate Delivered(cfg: Config, s: World)
    requires ValidConfig(cfg) && |s| == |cfg.ranks|
  {
    var (plan, full) := (cfg.plans[OwnerSlot(cfg)], cfg.inputs[OwnerSlot(cfg)]);
    && plan.Some? && full.Some? && plan.value.rounds >= 0
    && SerialFold(cfg, full.value, Schedule(plan.value.tasks, plan.value.rounds)) == Ok(s[OwnerSlot(cfg)].merged)
    && forall k | 0 <= k < |s| ::
         && |s[k].log| == AllGathers(plan.value)
         && s[k].inputTransfers == s[k].outputTransfers == RankTransfers(cfg, plan.value, k)
  }

  lemma {:induction false} ScheduledTransfers(cfg: Config, plan: TaskPlan, k: nat)
    requires ValidPlan(plan) && k < |cfg.ranks|
    ensures TransfersOf(cfg, Schedule(plan.tasks, plan.rounds), k) == RankTransfers(cfg, plan, k)
  {
    ScheduleIsAPermutation(plan);
    TaskCountOfPermutation(Schedule(plan.tasks, plan.rounds), plan.tasks, cfg.ranks[k]);
    TaskCountOfPermutation(Schedule(plan.tasks, plan.rounds), plan.tasks, cfg.ownerRank);
  }

  lemma {:induction false} WorkingDelivers(cfg: Config, plan: TaskPlan, full: Tensor, s: World)
    requires Working(cfg, plan, full, s) && s[0].pc.AtEnd?
    ensures Delivered(cfg, s) && Succeeds(cfg)
  {
    ScheduleIsAPermutation(plan);
    forall k | 0 <= k < |s|
      ensures s[k].inputTransfers == s[k].outputTransfers == RankTransfers(cfg, plan, k)
    {
      ScheduledTransfers(cfg, plan, k);
    }
  }

  // ---- Milestones -------------------------------------------------------------

  ghost predicate Milestone(cfg: Config, s: World)
    requires ValidConfig(cfg)
  {
    && Uniform(cfg, s)
    && match s[0].outcome
       case Running => Ready(cfg, s) && Positioned(cfg, s)
       case Returned => Delivered(cfg, s) && Succeeds(cfg)
       case Raised(_, failedRanks) => failedRanks != [] && !Succeeds(cfg)
       case Crashed => false
  }

  lemma {:induction false} ReturnedDelivers(cfg: Config, s: World)
    requires ValidConfig(cfg) && Synced(cfg, s) && s[0].outcome.Returned?
    ensures |s| == |cfg.ranks| && Delivered(cfg, s) && Succeeds(cfg)
  {
    var plan: TaskPlan, full: Tensor :| Working(cfg, plan, full, s);
    WorkingDelivers(cfg, plan, full, s);
  }

  lemma {:induction false} SyncedNeverCrashes(cfg: Config, s: World)
    requires ValidConfig(cfg) && Synced(cfg, s)
    ensures !s[0].outcome.Crashed?
    ensures s[0].outcome.Raised? ==> AllRaised(cfg, s)
  {}

  lemma {:induction false} SyncedIsMilestone(cfg: Config, s: World)
    requires ValidConfig(cfg) && Synced(cfg, s) && (AllRaised(cfg, s) ==> !Succeeds(cfg))
    ensures Milestone(cfg, s)
  {
    SyncedIsUniform(cfg, s);
    SyncedNeverCrashes(cfg, s);
    if s[0].outcome.Running? {
      SyncedIsReady(cfg, s);
      SyncedPosition(cfg, s);
    } else if s[0].outcome.Returned? {
      ReturnedDelivers(cfg, s);
    }
  }

  /** A raised error names the rank that failed. */
  ghost predicate Failing(cfg: Config, w: World, pc: Pc, rank: int) {
    forall j | 0 <= j < |w| ::
      && w[j].pc == pc
      && (w[j].outcome.Running?
          || (w[j].outcome.Raised? && w[j].outcome.phase == PhaseOf(pc) && rank in w[j].outcome.failedRanks))
  }

  /** `n` is where a window from `s` leads. */
  ghost predicate Follows(cfg: Config, s: World, n: World)
    requires ValidConfig(cfg)
  {
    && |s| == |n| == |cfg.ranks|
    && s[0].outcome.Running? && Ready(cfg, s)
    && n == Window(cfg, s)
    && n[0].log == s[0].log + [s[0].pc]
    && forall k | 0 <= k < |s| && ActResult(cfg, s, k).waiting == Some(true) ::
         !n[0].outcome.Running? && Failing(cfg, n, s[0].pc, cfg.ranks[k])
  }

  lemma {:induction false} GatherLog(cfg: Config, w: World, k: nat)
    requires ValidConfig(cfg) && |w| == |cfg.ranks| && k < |w|
    ensures AfterGather(cfg, w, k).log == w[k].log + [w[k].pc]
  {}

  lemma {:induction false} WindowLog(cfg: Config, s: World)
    requires ValidConfig(cfg) && Ready(cfg, s)
    ensures Window(cfg, s)[0].log == s[0].log + [s[0].pc]
  {
    assert Meets(cfg, s, 0);
    ActEndsWaiting(cfg, s, 0);
    GatherLog(cfg, Acted(cfg, s), 0);
  }

  lemma {:induction false} FailureRaises(cfg: Config, s: World, k: nat)
    requires ValidConfig(cfg) && Synced(cfg, s) && s[0].outcome.Running? && Ready(cfg, s) && k < |s|
    requires ActResult(cfg, s, k).waiting == Some(true)
    ensures AllRaised(cfg, Window(cfg, s)) && Failing(cfg, Window(cfg, s), s[0].pc, cfg.ranks[k])
  {
    var acted := Acted(cfg, s);
    assert acted[k] == ActResult(cfg, s, k);
    SyncedIsUniform(cfg, s);
    FailedRanksAreTheFlagged(cfg, acted);
    assert !QuietAt(cfg, s);
    LoudWindowRaises(cfg, s);
  }

  lemma {:induction false} WindowFollows(cfg: Config, s: World)
    requires ValidConfig(cfg) && Synced(cfg, s) && s[0].outcome.Running? && Ready(cfg, s)
    ensures Follows(cfg, s, Window(cfg, s))
  {
    WindowLog(cfg, s);
    forall k | 0 <= k < |s| && ActResult(cfg, s, k).waiting == Some(true)
      ensures !Window(cfg, s)[0].outcome.Running? && Failing(cfg, Window(cfg, s), s[0].pc, cfg.ranks[k])
    {
      FailureRaises(cfg, s, k);
    }
  }

  lemma {:induction false} WindowIsMilestone(cfg: Config, s: World)
    requires ValidConfig(cfg) && Synced(cfg, s) && s[0].outcome.Running? && Ready(cfg, s)
    ensures Synced(cfg, Window(cfg, s)) && Milestone(cfg, Window(cfg, s))
  {
    WindowIsSynced(cfg, s);
    if Succeeds(cfg) { SuccessNeverRaises(cfg, s); }
    SyncedIsMilestone(cfg, Window(cfg, s));
  }

  lemma {:induction false} InitIsMilestone(cfg: Config)
    requires ValidConfig(cfg)
    ensures Synced(cfg, Init(cfg)) && Milestone(cfg, Init(cfg))
  {
    InitIsSynced(cfg);
    SyncedIsMilestone(cfg, Init(cfg));
  }

  // ---- Histories --------------------------------------------------------------

  /** What a history says of its worlds is sealed: it is asked for world by world. */
  ghost predicate Kept(cfg: Config, s: World)
    requires ValidConfig(cfg)
  {
    forall key | Ask(key) :: Milestone(cfg, s)
  }

  ghost predicate Led(cfg: Config, s: World, n: World)
    requires ValidConfig(cfg)
  {
    forall key | Ask(key) :: Follows(cfg, s, n)
  }

  ghost predicate MilestoneAt(cfg: Config, h: seq<World>, i: nat)
    requires ValidConfig(cfg) && i < |h|
  {
    Kept(cfg, h[i])
  }

  ghost predicate FollowsAt(cfg: Config, h: seq<World>, i: nat)
    requires ValidConfig(cfg) && 0 < i < |h|
  {
    Led(cfg, h[i - 1], h[i])
  }

  ghost predicate History(cfg: Config, h: seq<World>)
    requires ValidConfig(cfg)
  {
    && h != [] && h[0] == Init(cfg)
    && (forall i | 0 <= i < |h| :: MilestoneAt(cfg, h, i))
    && (forall i | 0 < i < |h| :: FollowsAt(cfg, h, i))
  }

  lemma {:induction false} MilestonesGrow(cfg: Config, h: seq<World>, n: World)
    requires ValidConfig(cfg) && Kept(cfg, n) && forall i | 0 <= i < |h| :: MilestoneAt(cfg, h, i)
    ensures forall i | 0 <= i < |h| + 1 :: MilestoneAt(cfg, h + [n], i)
  {
    forall i | 0 <= i < |h| + 1 ensures MilestoneAt(cfg, h + [n], i) {
      if i < |h| { assert MilestoneAt(cfg, h, i) && (h + [n])[i] == h[i]; }
    }
  }

  lemma {:induction false} FollowersGrow(cfg: Config, h: seq<World>, n: World)
    requires ValidConfig(cfg) && h != [] && Led(cfg, h[|h| - 1], n) && forall i | 0 < i < |h| :: FollowsAt(cfg, h, i)
    ensures forall i | 0 < i < |h| + 1 :: FollowsAt(cfg, h + [n], i)
  {
    var all := h + [n];
    forall i | 0 < i < |h| + 1 ensures FollowsAt(cfg, all, i) {
      if i < |h| { assert FollowsAt(cfg, h, i) && all[i] == h[i] && all[i - 1] == h[i - 1]; }
    }
  }

  lemma {:induction false} HistoryGrows(cfg: Config, h: seq<World>, n: World)
    requires ValidConfig(cfg) && History(cfg, h) && Kept(cfg, n) && Led(cfg, h[|h| - 1], n)
    ensures History(cfg, h + [n])
  {
    MilestonesGrow(cfg, h, n);
    FollowersGrow(cfg, h, n);
  }

  /** Steps that have certainly been taken by a world after the i-th synchronised state, at most. */
  ghost function StepsUpTo(cfg: Config, i: nat, w: World): nat {
    Budget(|cfg.ranks| + 1, i) + Waiting(w)
  }

  lemma {:induction false} WindowSteps(cfg: Config, i: nat, w: World, w': World)
    requires |w| == |cfg.ranks| && forall k | 0 <= k < |w| :: w[k].waiting.Some?
    ensures StepsUpTo(cfg, i, w) + 1 <= StepsUpTo(cfg, i + 1, w')
  {
    WaitingAtMost(w);
  }

  /** The run's history up to a world that comes `m` steps after the start. */
  ghost predicate Tells(cfg: Config, h: seq<World>, w: World, m: nat)
    requires ValidConfig(cfg)
  {
    && History(cfg, h)
    && After(cfg, h[|h| - 1], w)
    && m <= StepsUpTo(cfg, |h| - 1, w)
  }

  /** One step from a world that belongs to the milestone `s`. */
  lemma {:induction false} StepOfMilestone(cfg: Config, s: World, w: World, w': World)
    requires ValidConfig(cfg) && Kept(cfg, s) && Synced(cfg, s) && After(cfg, s, w) && Step(cfg, w, w')
    ensures GatherStep(cfg, w, w') ==>
              && Synced(cfg, w') && Kept(cfg, w') && Led(cfg, s, w') && After(cfg, w', w')
              && |w| == |cfg.ranks| && forall k | 0 <= k < |w| :: w[k].waiting.Some?
    ensures !GatherStep(cfg, w, w') ==> After(cfg, s, w') && Waiting(w) + 1 <= Waiting(w')
  {
    assert Ask(true);
    StepStays(cfg, s, w, w');
    if GatherStep(cfg, w, w') {
      WindowIsMilestone(cfg, s);
      WindowFollows(cfg, s);
      SyncedIsAfter(cfg, w');
    }
  }

  lemma {:induction false} OneMoreMilestone(cfg: Config, h: seq<World>, w: World, w': World, m: nat)
    requires ValidConfig(cfg) && Tells(cfg, h, w, m)
    requires Kept(cfg, w') && Led(cfg, h[|h| - 1], w') && After(cfg, w', w')
    requires |w| == |cfg.ranks| && forall k | 0 <= k < |w| :: w[k].waiting.Some?
    ensures Tells(cfg, h + [w'], w', m + 1) && h <= h + [w'] && (h + [w'])[|h|] == w'
  {
    HistoryGrows(cfg, h, w');
    WindowSteps(cfg, |h| - 1, w, w');
  }

  lemma {:induction false} HistoryOfStep(cfg: Config, h: seq<World>, w: World, w': World, m: nat)
    returns (h': seq<World>)
    requires ValidConfig(cfg) && Tells(cfg, h, w, m) && Synced(cfg, h[|h| - 1]) && Step(cfg, w, w')
    ensures Tells(cfg, h', w', m + 1) && Synced(cfg, h'[|h'| - 1]) && h <= h'
  {
    assert MilestoneAt(cfg, h, |h| - 1);
    StepOfMilestone(cfg, h[|h| - 1], w, w');
    if GatherStep(cfg, w, w') {
      OneMoreMilestone(cfg, h, w, w', m);
      h' := h + [w'];
    } else {
      h' := h;
    }
  }

  lemma {:induction false} RunSteps(cfg: Config, run: seq<World>, m: nat)
    requires ValidConfig(cfg) && IsRun(cfg, run) && m + 1 < |run|
    ensures |run[m]| == |cfg.ranks| && Step(cfg, run[m], run[m + 1])
  {
    assert StepAt(cfg, run, m);
  }

  lemma {:induction false} HistoryStarts(cfg: Config)
    requires ValidConfig(cfg)
    ensures Tells(cfg, [Init(cfg)], Init(cfg), 0) && Synced(cfg, Init(cfg))
  {
    InitIsMilestone(cfg);
    assert MilestoneAt(cfg, [Init(cfg)], 0);
    SyncedIsAfter(cfg, Init(cfg));
  }

  lemma {:induction false} NextHistory(cfg: Config, run: seq<World>, m: nat, h: seq<World>) returns (h': seq<World>)
    requires ValidConfig(cfg) && IsRun(cfg, run) && m + 1 < |run|
    requires Tells(cfg, h, run[m], m) && Synced(cfg, h[|h| - 1])
    ensures Tells(cfg, h', run[m + 1], m + 1) && Synced(cfg, h'[|h'| - 1]) && h <= h'
  {
    RunSteps(cfg, run, m);
    h' := HistoryOfStep(cfg, h, run[m], run[m + 1], m);
  }

  /** A later world of the same run has a longer history. */
  lemma {:induction false} LaterHistory(cfg: Config, run: seq<World>, m: nat, m': nat, h: seq<World>)
    returns (h': seq<World>)
    requires ValidConfig(cfg) && IsRun(cfg, run) && m <= m' < |run|
    requires Tells(cfg, h, run[m], m) && Synced(cfg, h[|h| - 1])
    ensures Tells(cfg, h', run[m'], m') && Synced(cfg, h'[|h'| - 1]) && h <= h'
    decreases m' - m
  {
    if m == m' {
      h' := h;
    } else {
      var next := NextHistory(cfg, run, m, h);
      h' := LaterHistory(cfg, run, m + 1, m', next);
    }
  }

  lemma {:induction false} HistoryOfRun(cfg: Config, run: seq<World>, m: nat) returns (h: seq<World>)
    requires ValidConfig(cfg) && IsRun(cfg, run) && m < |run|
    ensures Tells(cfg, h, run[m], m) && Synced(cfg, h[|h| - 1])
  {
    HistoryStarts(cfg);
    h := LaterHistory(cfg, run, 0, m, [Init(cfg)]);
  }

  /** Every world of a run lies between two consecutive synchronised states. */
  lemma {:induction false} RunHistory(cfg: Config, run: seq<World>, m: nat) returns (h: seq<World>)
    requires ValidConfig(cfg) && IsRun(cfg, run) && m < |run|
    ensures Tells(cfg, h, run[m], m) && Milestone(cfg, h[|h| - 1])
  {
    h := HistoryOfRun(cfg, run, m);
    assert MilestoneAt(cfg, h, |h| - 1) && Ask(true);
  }

  /** The state that the current window of a world has started from. */
  lemma {:induction false} WindowStart(cfg: Config, run: seq<World>, m: nat) returns (s: World)
    requires ValidConfig(cfg) && IsRun(cfg, run) && m < |run|
    ensures Milestone(cfg, s) && After(cfg, s, run[m])
  {
    var h := RunHistory(cfg, run, m);
    s := h[|h| - 1];
  }

  lemma {:induction false} AfterAgrees(cfg: Config, s: World, w: World)
    requires ValidConfig(cfg) && After(cfg, s, w) && Uniform(cfg, s)
    ensures forall k | 0 <= k < |w| :: w[k].pc == s[0].pc && w[k].log == s[0].log && w[k].outcome == s[0].outcome
  {
    if s[0].outcome.Running? {
      forall k | 0 <= k < |w| ensures w[k].pc == s[0].pc && w[k].log == s[0].log && w[k].outcome == s[0].outcome {
        assert AtOrActed(cfg, s, w, k) && Meets(cfg, s, k);
        ActEndsWaiting(cfg, s, k);
      }
    }
  }

  /** Every state of a history but the last was running. */
  lemma {:induction false} EarlierWereRunning(cfg: Config, h: seq<World>, i: nat)
    requires ValidConfig(cfg) && History(cfg, h) && i + 1 < |h|
    ensures h[i] != [] && h[i][0].outcome.Running?
  {
    assert FollowsAt(cfg, h, i + 1) && Ask(true);
  }

  lemma {:induction false} LogGrows(cfg: Config, h: seq<World>, i: nat)
    requires ValidConfig(cfg) && History(cfg, h) && 0 < i < |h|
    ensures h[i - 1] != [] && h[i] != [] && h[i][0].log == h[i - 1][0].log + [h[i - 1][0].pc]
  {
    assert FollowsAt(cfg, h, i) && Ask(true);
  }

  lemma {:induction false} LogStarts(cfg: Config, h: seq<World>)
    requires ValidConfig(cfg) && History(cfg, h)
    ensures h[0] != [] && h[0][0].log == []
  {}

  /** The log of the i-th synchronised state lists the positions of the earlier ones. */
  lemma {:induction false} HistoryLog(cfg: Config, h: seq<World>, i: nat)
    requires ValidConfig(cfg) && History(cfg, h) && i < |h|
    ensures h[i] != [] && |h[i][0].log| == i
    ensures forall j | 0 <= j < i :: h[j] != [] && h[i][0].log[j] == h[j][0].pc
  {
    if i > 0 {
      HistoryLog(cfg, h, i - 1);
      LogGrows(cfg, h, i);
    } else {
      LogStarts(cfg, h);
    }
  }

  lemma {:induction false} HistoryPosition(cfg: Config, h: seq<World>, i: nat)
    requires ValidConfig(cfg) && History(cfg, h) && i < |h| && h[i] != [] && h[i][0].outcome.Running?
    ensures |h[i][0].log| == i && Positioned(cfg, h[i])
  {
    HistoryLog(cfg, h, i);
    assert MilestoneAt(cfg, h, i) && Ask(true);
  }

  lemma {:induction false} PositionsDiffer(cfg: Config, h: seq<World>, i: nat, j: nat)
    requires ValidConfig(cfg) && History(cfg, h) && i < j < |h| && h[j] != [] && h[j][0].outcome.Running?
    ensures h[i] != [] && h[i][0].pc != h[j][0].pc
  {
    EarlierWereRunning(cfg, h, i);
    HistoryPosition(cfg, h, i);
    HistoryPosition(cfg, h, j);
  }
}
