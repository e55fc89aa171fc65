/**
 * Cache-DiT for one window: what a call does to its branch, what every list of
 * calls keeps, and how the residual predictor runs beside it.
 */
module CacheDit {
  import opened Wrappers
  import opened Tensors
  import opened Arithmetic
  import F = Forecast

  /** `finite` tells which differences the float arithmetic can represent. */
  datatype Params = Params(
    frontBlocks: nat,
    backBlocks: nat,
    totalBlocks: nat,
    warmupSteps: nat,
    threshold: real,
    maxConsecutiveCached: nat,
    endGuardSteps: nat,
    totalSteps: nat,
    finite: real -> bool)

  predicate ValidParams(p: Params) {
    && p.frontBlocks >= 1 && p.frontBlocks + p.backBlocks < p.totalBlocks
    && p.maxConsecutiveCached >= 1 && 0.0 < p.threshold < 1.0 && p.totalSteps > 0
  }

  function MiddleEnd(p: Params): nat
    requires ValidParams(p)
  {
    p.totalBlocks - p.backBlocks
  }

  function MiddleBlocks(p: Params): nat
    requires ValidParams(p)
  {
    MiddleEnd(p) - p.frontBlocks
  }

  datatype Reason =
    | CacheHit
    | Warmup
    | EndGuard
    | FirstBranchStep
    | NonContiguousBranchStep
    | MissingCachedState
    | MaxConsecutiveCachedSteps
    | ThresholdExceeded
    | NonFiniteDiff
    | LayoutChanged

  datatype Decision = Decision(reuse: bool, reason: Reason)

  /** `recorded` says that the pending probe has been promoted to the reference. */
  datatype BranchState = BranchState(
    previousComputedStep: Option<int>,
    previousObservedStep: Option<int>,
    previousFront: Option<Tensor>,
    cachedMiddle: Option<Tensor>,
    previousLayout: Option<Layout>,
    continuousCached: nat,
    computedMiddleSteps: nat,
    cachedMiddleSteps: nat,
    completedSteps: nat,
    frontSteps: nat,
    backSteps: nat,
    forced: multiset<Reason>,
    pending: Option<Decision>,
    pendingFront: Option<Tensor>,
    pendingLayout: Option<Layout>,
    pendingStep: Option<int>,
    recorded: bool)

  function FreshBranch(): BranchState {
    BranchState(None, None, None, None, None, 0, 0, 0, 0, 0, 0, multiset{}, None, None, None, None, false)
  }

  datatype BranchOp =
    | Check(step: int, input: Tensor, front: Tensor, layout: Layout, contextOk: bool)
    | Apply(step: int, front: Tensor)
    | Record(step: int, front: Tensor, middle: Tensor)
    | Complete(step: int)

  datatype Reply = Decided(decision: Decision) | Output(tensor: Tensor) | Done | Raised

  // ---- Calls ------------------------------------------------------------------

  function ForcedReason(p: Params, st: BranchState, step: int, layout: Layout): Option<Reason> {
    if step < p.warmupSteps then Some(Warmup)
    else if step >= p.totalSteps - p.endGuardSteps then Some(EndGuard)
    else if st.previousObservedStep.None? then Some(FirstBranchStep)
    else if st.previousLayout != Some(layout) then Some(LayoutChanged)
    else if st.previousObservedStep.value + 1 != step then Some(NonContiguousBranchStep)
    else if st.previousFront.None? || st.cachedMiddle.None? then Some(MissingCachedState)
    else if st.continuousCached >= p.maxConsecutiveCached then Some(MaxConsecutiveCachedSteps)
    else None
  }

  function AfterForcedReason(st: BranchState, reason: Option<Reason>): BranchState {
    if reason == Some(LayoutChanged) then st.(previousFront := None, cachedMiddle := None, continuousCached := 0) else st
  }

  function Judge(p: Params, diff: real): Decision {
    if !p.finite(diff) then Decision(false, NonFiniteDiff)
    else if diff < p.threshold then Decision(true, CacheHit)
    else Decision(false, ThresholdExceeded)
  }

  function Decide(p: Params, st: BranchState, step: int, probe: Tensor, layout: Layout): Result<Decision> {
    var reason := ForcedReason(p, st, step, layout);
    if reason.Some? then Ok(Decision(false, reason.value))
    else
      var diff := RelativeL1(probe, st.previousFront.value);
      if diff.Err? then Err else Ok(Judge(p, diff.value))
  }

  function CheckStep(p: Params, st: BranchState, op: BranchOp): (BranchState, Reply)
    requires op.Check?
  {
    if |op.input| != |op.front| || !op.contextOk || !(0 <= op.step < p.totalSteps) || st.pending.Some? then (st, Raised)
    else
      var probe := Sub(op.front, op.input);
      var decided := Decide(p, st, op.step, probe, op.layout);
      if decided.Err? then (st, Raised)
      else
        (Pend(AfterForcedReason(st, ForcedReason(p, st, op.step, op.layout)), decided.value, probe, op.step, op.layout),
         Decided(decided.value))
  }

  /** The decision waits for its step to be completed. */
  function Pend(st: BranchState, decision: Decision, probe: Tensor, step: int, layout: Layout): BranchState {
    st.(pending := Some(decision), pendingFront := Some(probe), pendingLayout := Some(layout),
        pendingStep := Some(step), recorded := false,
        forced := if decision.reuse then st.forced else st.forced + multiset{decision.reason})
  }

  predicate HasPending(st: BranchState, step: int, reuse: bool) {
    st.pending.Some? && st.pendingStep == Some(step) && st.pending.value.reuse == reuse
  }

  function ApplyStep(p: Params, st: BranchState, op: BranchOp): (BranchState, Reply)
    requires op.Apply?
  {
    if !HasPending(st, op.step, true) || st.cachedMiddle.None? || |st.cachedMiddle.value| != |op.front| then (st, Raised)
    else (st, Output(Add(op.front, st.cachedMiddle.value)))
  }

  function RecordStep(p: Params, st: BranchState, op: BranchOp): (BranchState, Reply)
    requires op.Record?
  {
    if !HasPending(st, op.step, false) || |op.front| != |op.middle| then (st, Raised)
    else
      (st.(cachedMiddle := Some(Sub(op.middle, op.front)), previousFront := st.pendingFront,
           previousLayout := st.pendingLayout, previousComputedStep := Some(op.step), recorded := true),
       Done)
  }

  function CompleteStep(p: Params, st: BranchState, op: BranchOp): (BranchState, Reply)
    requires op.Complete?
  {
    if st.pending.None? || st.pendingStep != Some(op.step) then (st, Raised)
    else if !st.pending.value.reuse && !st.recorded then (st, Raised)
    else
      var reuse := st.pending.value.reuse;
      (st.(
         frontSteps := st.frontSteps + 1,
         cachedMiddleSteps := st.cachedMiddleSteps + if reuse then 1 else 0,
         computedMiddleSteps := st.computedMiddleSteps + if reuse then 0 else 1,
         continuousCached := if reuse then st.continuousCached + 1 else 0,
         backSteps := st.backSteps + if p.backBlocks > 0 then 1 else 0,
         completedSteps := st.completedSteps + 1,
         previousObservedStep := Some(op.step),
         pending := None, pendingFront := None, pendingLayout := None, pendingStep := None),
       Done)
  }

  function BranchStep(p: Params, st: BranchState, op: BranchOp): (BranchState, Reply) {
    match op
    case Check(_, _, _, _, _) => CheckStep(p, st, op)
    case Apply(_, _) => ApplyStep(p, st, op)
    case Record(_, _, _) => RecordStep(p, st, op)
    case Complete(_) => CompleteStep(p, st, op)
  }

  function BranchRun(p: Params, ops: seq<BranchOp>): BranchState {
    if ops == [] then FreshBranch() else BranchStep(p, BranchRun(p, ops[..|ops| - 1]), ops[|ops| - 1]).0
  }

  // ---- What has been computed ---------------------------------------------------

  function Recorded(p: Params, st: BranchState, op: BranchOp): seq<F.Compute> {
    if op.Record? && BranchStep(p, st, op).1.Done? && st.pendingLayout.Some? && |op.front| == |op.middle|
    then [F.Compute(op.step, st.pendingLayout.value, Sub(op.middle, op.front))] else []
  }

  /** The middle computes of a list of calls, in order. */
  function ComputesOf(p: Params, ops: seq<BranchOp>): seq<F.Compute> {
    if ops == [] then []
    else ComputesOf(p, ops[..|ops| - 1]) + Recorded(p, BranchRun(p, ops[..|ops| - 1]), ops[|ops| - 1])
  }

  // ---- What every list of calls keeps -------------------------------------------

  predicate Computing(st: BranchState) {
    st.pending.Some? && !st.pending.value.reuse
  }

  predicate Counted(p: Params, st: BranchState) {
    && st.frontSteps == st.completedSteps == st.computedMiddleSteps + st.cachedMiddleSteps
    && st.backSteps == (if p.backBlocks > 0 then st.completedSteps else 0)
    && st.continuousCached <= p.maxConsecutiveCached
    && |st.forced| == st.computedMiddleSteps + (if Computing(st) then 1 else 0)
    && (st.completedSteps > 0 ==>
          st.cachedMiddleSteps + (if Computing(st) then 0 else p.maxConsecutiveCached - st.continuousCached)
          <= Budget(p.maxConsecutiveCached, st.computedMiddleSteps))
  }

  /** A kept residual is that of the last middle compute, under its layout. */
  predicate ResidualIsLast(st: BranchState, computes: seq<F.Compute>) {
    && (st.cachedMiddle.Some? ==> computes != [] && computes[|computes| - 1].residual == st.cachedMiddle.value)
    && (if computes == [] then st.previousComputedStep.None? && st.previousLayout.None?
        else st.previousComputedStep == Some(computes[|computes| - 1].step)
             && st.previousLayout == Some(computes[|computes| - 1].layout))
  }

  predicate Observed(st: BranchState) {
    && (st.previousObservedStep.None? <==> st.completedSteps == 0)
    && (st.pending.None? || st.pending.value.reuse ==>
          if st.previousObservedStep.None? then st.previousComputedStep.None?
          else st.previousComputedStep.Some?
               && st.previousObservedStep.value - st.previousComputedStep.value == st.continuousCached)
    && (st.pending.Some? && !st.pending.value.reuse && st.recorded ==>
          st.previousComputedStep == st.pendingStep)
  }

  predicate Pending(p: Params, st: BranchState) {
    && (st.pending.Some? ==> st.pendingStep.Some? && st.pendingLayout.Some? && st.pendingFront.Some?)
    && (st.pending.Some? && st.pending.value.reuse ==>
          && st.previousObservedStep.Some? && st.pendingStep.value == st.previousObservedStep.value + 1
          && st.pendingLayout == st.previousLayout
          && st.cachedMiddle.Some?
          && st.continuousCached < p.maxConsecutiveCached
          && p.warmupSteps <= st.pendingStep.value < p.totalSteps - p.endGuardSteps)
  }

  predicate Inv(p: Params, st: BranchState, computes: seq<F.Compute>) {
    Counted(p, st) && ResidualIsLast(st, computes) && Observed(st) && Pending(p, st)
  }

  /** What a reuse decision has passed. */
  lemma {:induction false} ReuseWasAllowed(p: Params, st: BranchState, step: int, probe: Tensor, layout: Layout)
    requires Decide(p, st, step, probe, layout).Ok? && Decide(p, st, step, probe, layout).value.reuse
    ensures ForcedReason(p, st, step, layout).None?
  {}

  lemma {:induction false} CheckCounts(p: Params, st: BranchState, op: BranchOp)
    requires Counted(p, st) && op.Check?
    ensures Counted(p, CheckStep(p, st, op).0)
  {}

  lemma {:induction false} CheckPends(p: Params, st: BranchState, op: BranchOp)
    requires ValidParams(p) && Pending(p, st) && Observed(st) && op.Check?
    ensures Pending(p, CheckStep(p, st, op).0) && Observed(CheckStep(p, st, op).0)
  {
    if CheckStep(p, st, op).1.Decided? && CheckStep(p, st, op).1.decision.reuse {
      ReuseWasAllowed(p, st, op.step, Sub(op.front, op.input), op.layout);
    }
  }

  lemma {:induction false} CheckKeeps(p: Params, st: BranchState, computes: seq<F.Compute>, op: BranchOp)
    requires ValidParams(p) && Inv(p, st, computes) && op.Check?
    ensures Inv(p, BranchStep(p, st, op).0, computes + Recorded(p, st, op))
  {
    CheckCounts(p, st, op);
    CheckPends(p, st, op);
    assert computes + [] == computes;
  }

  lemma {:induction false} RecordKeeps(p: Params, st: BranchState, computes: seq<F.Compute>, op: BranchOp)
    requires ValidParams(p) && Inv(p, st, computes) && op.Record?
    ensures Inv(p, BranchStep(p, st, op).0, computes + Recorded(p, st, op))
  {
    assert computes + [] == computes;
  }

  lemma {:induction false} CompleteKeeps(p: Params, st: BranchState, computes: seq<F.Compute>, op: BranchOp)
    requires ValidParams(p) && Inv(p, st, computes) && (op.Complete? || op.Apply?)
    ensures Inv(p, BranchStep(p, st, op).0, computes + Recorded(p, st, op))
  {
    assert computes + [] == computes;
  }

  lemma {:induction false} EveryRunKeepsInv(p: Params, ops: seq<BranchOp>)
    requires ValidParams(p)
    ensures Inv(p, BranchRun(p, ops), ComputesOf(p, ops))
  {
    if ops != [] {
      var (before, op) := (ops[..|ops| - 1], ops[|ops| - 1]);
      EveryRunKeepsInv(p, before);
      match op {
        case Check(_, _, _, _, _) => CheckKeeps(p, BranchRun(p, before), ComputesOf(p, before), op);
        case Record(_, _, _) => RecordKeeps(p, BranchRun(p, before), ComputesOf(p, before), op);
        case _ => CompleteKeeps(p, BranchRun(p, before), ComputesOf(p, before), op);
      }
    }
  }

  // ---- Theorems -------------------------------------------------------------------

  /**
   * A reused middle residual is the last computed one, of the same layout, and lies
   * exactly `continuousCached + 1` steps back, which never exceeds the limit.
   */
  lemma {:induction false} ReuseIsSound(p: Params, ops: seq<BranchOp>, op: BranchOp)
    requires ValidParams(p) && op.Apply? && BranchStep(p, BranchRun(p, ops), op).1.Output?
    ensures var (st, computes) := (BranchRun(p, ops), ComputesOf(p, ops));
            && computes != []
            && var last := computes[|computes| - 1];
            && |last.residual| == |op.front|
            && BranchStep(p, st, op).1.tensor == Add(op.front, last.residual)
            && st.pendingLayout == Some(last.layout)
            && op.step - last.step == st.continuousCached + 1 <= p.maxConsecutiveCached
            && p.warmupSteps <= op.step < p.totalSteps - p.endGuardSteps
  {
    EveryRunKeepsInv(p, ops);
  }

  // ---- When a step is reused ------------------------------------------------------------

  /** The front change of the latest check that was answered. */
  function ProbeOf(p: Params, ops: seq<BranchOp>): Option<Tensor> {
    if ops == [] then None
    else
      var (before, op) := (ops[..|ops| - 1], ops[|ops| - 1]);
      if op.Check? && BranchStep(p, BranchRun(p, before), op).1.Decided? && |op.front| == |op.input|
      then Some(Sub(op.front, op.input)) else ProbeOf(p, before)
  }

  /** The front change of the latest computed step. */
  function KeptProbe(p: Params, ops: seq<BranchOp>): Option<Tensor> {
    if ops == [] then None
    else
      var (before, op) := (ops[..|ops| - 1], ops[|ops| - 1]);
      if op.Record? && BranchStep(p, BranchRun(p, before), op).1.Done? then ProbeOf(p, before) else KeptProbe(p, before)
  }

  /** The probes the state holds are those of the calls. */
  predicate HoldsProbes(st: BranchState, probe: Option<Tensor>, kept: Option<Tensor>) {
    && (st.pending.Some? ==> st.pendingFront.Some? && st.pendingFront == probe)
    && (st.previousFront.Some? ==> st.previousFront == kept)
  }

  lemma {:induction false} CheckHoldsProbes(p: Params, st: BranchState, op: BranchOp, probe: Option<Tensor>, kept: Option<Tensor>)
    requires HoldsProbes(st, probe, kept) && op.Check?
    ensures var (after, reply) := BranchStep(p, st, op);
            HoldsProbes(after, if reply.Decided? && |op.front| == |op.input| then Some(Sub(op.front, op.input)) else probe, kept)
  {}

  lemma {:induction false} CallHoldsProbes(p: Params, st: BranchState, op: BranchOp, probe: Option<Tensor>, kept: Option<Tensor>)
    requires HoldsProbes(st, probe, kept) && !op.Check?
    ensures var (after, reply) := BranchStep(p, st, op);
            HoldsProbes(after, probe, if op.Record? && reply.Done? then probe else kept)
  {}

  lemma {:induction false} ProbesAreKept(p: Params, ops: seq<BranchOp>)
    ensures HoldsProbes(BranchRun(p, ops), ProbeOf(p, ops), KeptProbe(p, ops))
  {
    if ops != [] {
      var (before, op) := (ops[..|ops| - 1], ops[|ops| - 1]);
      ProbesAreKept(p, before);
      if op.Check? {
        CheckHoldsProbes(p, BranchRun(p, before), op, ProbeOf(p, before), KeptProbe(p, before));
      } else {
        CallHoldsProbes(p, BranchRun(p, before), op, ProbeOf(p, before), KeptProbe(p, before));
      }
    }
  }

  /** A call of `check` that its guards let through, with no reason to compute anyway. */
  predicate Undecided(p: Params, st: BranchState, op: BranchOp) {
    && op.Check? && op.contextOk && |op.input| == |op.front| && 0 <= op.step < p.totalSteps && st.pending.None?
    && ForcedReason(p, st, op.step, op.layout).None?
  }

  /** A reuse is for a front change nearer than the threshold to the kept one, relative to the latter's size. */
  predicate ByDistance(p: Params, probe: Tensor, kept: Tensor, reply: Reply) {
    if |probe| != |kept| then reply.Raised? else NearEnough(p, Apart(probe, kept, |kept|), Scaled(kept), reply)
  }

  predicate NearEnough(p: Params, apart: real, size: real, reply: Reply)
    requires size > 0.0
  {
    && reply.Decided?
    && (reply.decision.reuse <==> p.finite(apart / size) && apart < p.threshold * size)
    && reply.decision.reason == (if !p.finite(apart / size) then NonFiniteDiff
                                 else if reply.decision.reuse then CacheHit else ThresholdExceeded)
  }

  lemma {:induction false} JudgedByProduct(p: Params, apart: real, size: real)
    requires size > 0.0
    ensures NearEnough(p, apart, size, Decided(Judge(p, apart / size)))
  {
    RatioBelow(apart, size, p.threshold);
  }

  lemma {:induction false} DecisionTaken(p: Params, st: BranchState, op: BranchOp, kept: Tensor)
    requires Undecided(p, st, op) && st.previousFront == Some(kept)
    ensures var (distance, reply) := (RelativeL1(Sub(op.front, op.input), kept), BranchStep(p, st, op).1);
            if distance.Err? then reply.Raised? else reply == Decided(Judge(p, distance.value))
  {}

  lemma {:induction false} DecidedByDistance(p: Params, st: BranchState, op: BranchOp, kept: Tensor)
    requires Undecided(p, st, op) && st.previousFront == Some(kept)
    ensures ByDistance(p, Sub(op.front, op.input), kept, BranchStep(p, st, op).1)
  {
    DecisionTaken(p, st, op, kept);
    JudgedDistance(p, Sub(op.front, op.input), kept);
  }

  lemma {:induction false} JudgedDistance(p: Params, probe: Tensor, kept: Tensor)
    ensures var distance := RelativeL1(probe, kept);
            ByDistance(p, probe, kept, if distance.Err? then Raised else Decided(Judge(p, distance.value)))
  {
    RelativeL1IsQuotient(probe, kept);
    if |probe| == |kept| { JudgedByProduct(p, Apart(probe, kept, |kept|), Scaled(kept)); }
  }

  /**
   * Such a check reuses if and only if the change of the front blocks differs from that of
   * the last computed step by less than the threshold, relative to the latter's size.
   */
  lemma {:induction false} ReuseIsByDistance(p: Params, ops: seq<BranchOp>, op: BranchOp)
    requires Undecided(p, BranchRun(p, ops), op)
    ensures KeptProbe(p, ops).Some?
    ensures ByDistance(p, Sub(op.front, op.input), KeptProbe(p, ops).value, BranchStep(p, BranchRun(p, ops), op).1)
  {
    ProbesAreKept(p, ops);
    DecidedByDistance(p, BranchRun(p, ops), op, KeptProbe(p, ops).value);
  }

  /** The reasons to compute, in the order in which they are looked for. */
  lemma {:induction false} ReasonsToCompute(p: Params, st: BranchState, step: int, layout: Layout)
    ensures var reason := ForcedReason(p, st, step, layout);
            var (free, seen) := (p.warmupSteps <= step < p.totalSteps - p.endGuardSteps, st.previousObservedStep.Some?);
            var same := free && seen && st.previousLayout == Some(layout);
            var next := same && st.previousObservedStep == Some(step - 1);
            var kept := next && st.previousFront.Some? && st.cachedMiddle.Some?;
            && (reason == Some(Warmup) <==> step < p.warmupSteps)
            && (reason == Some(EndGuard) <==> p.warmupSteps <= step && p.totalSteps - p.endGuardSteps <= step)
            && (reason == Some(FirstBranchStep) <==> free && !seen)
            && (reason == Some(LayoutChanged) <==> free && seen && !same)
            && (reason == Some(NonContiguousBranchStep) <==> same && !next)
            && (reason == Some(MissingCachedState) <==> next && !kept)
            && (reason == Some(MaxConsecutiveCachedSteps) <==> kept && st.continuousCached >= p.maxConsecutiveCached)
            && (reason.None? <==> kept && st.continuousCached < p.maxConsecutiveCached)
  {}

  /** A check with a reason to compute computes, for that reason. */
  lemma {:induction false} ForcedComputes(p: Params, st: BranchState, op: BranchOp)
    requires op.Check? && op.contextOk && |op.input| == |op.front| && 0 <= op.step < p.totalSteps && st.pending.None?
    requires ForcedReason(p, st, op.step, op.layout).Some?
    ensures BranchStep(p, st, op).1 == Decided(Decision(false, ForcedReason(p, st, op.step, op.layout).value))
  {}

  /** Other calls of `check` raise and change nothing. */
  lemma {:induction false} RefusedChecks(p: Params, st: BranchState, op: BranchOp)
    requires op.Check?
    requires !op.contextOk || |op.input| != |op.front| || !(0 <= op.step < p.totalSteps) || st.pending.Some?
    ensures BranchStep(p, st, op) == (st, Raised)
  {}

  /** An answered check is carried out: its answer says which call follows, and what that call gives. */
  lemma {:induction false} AnswerIsCarriedOut(p: Params, ops: seq<BranchOp>, op: BranchOp, front: Tensor, middle: Tensor)
    requires ValidParams(p) && op.Check? && BranchStep(p, BranchRun(p, ops), op).1.Decided?
    ensures var (st, reply) := BranchStep(p, BranchRun(p, ops), op);
            var (apply, record) := (BranchStep(p, st, Apply(op.step, front)), BranchStep(p, st, Record(op.step, front, middle)));
            if reply.decision.reuse then
              && ComputesOf(p, ops) != []
              && var residual := ComputesOf(p, ops)[|ComputesOf(p, ops)| - 1].residual;
              && record == (st, Raised)
              && apply == (st, if |front| == |residual| then Output(Add(front, residual)) else Raised)
              && BranchStep(p, st, Complete(op.step)).1.Done?
            else
              && apply == (st, Raised)
              && BranchStep(p, st, Complete(op.step)) == (st, Raised)
              && record.1 == (if |front| == |middle| then Done else Raised)
              && (|front| == |middle| ==> && Recorded(p, st, Record(op.step, front, middle)) ==
                                               [F.Compute(op.step, op.layout, Sub(middle, front))]
                                          && BranchStep(p, record.0, Complete(op.step)).1.Done?)
  {
    EveryRunKeepsInv(p, ops);
    CheckKeeps(p, BranchRun(p, ops), ComputesOf(p, ops), op);
    assert ComputesOf(p, ops) + [] == ComputesOf(p, ops);
  }

  /** `effective_blocks_executed`, as `stats` reports it. */
  function ExecutedBlocks(p: Params, st: BranchState): nat
    requires ValidParams(p)
  {
    st.frontSteps * p.frontBlocks + st.computedMiddleSteps * MiddleBlocks(p) + st.backSteps * p.backBlocks
  }

  lemma {:induction false} BlockSum(front: nat, middle: nat, back: nat, computed: nat, cached: nat)
    ensures (computed + cached) * front + computed * middle + (computed + cached) * back
         == (computed + cached) * (front + middle + back) - cached * middle
  {
    var n := computed + cached;
    assert n * (front + middle + back) == n * front + n * middle + n * back;
    assert n * middle == computed * middle + cached * middle;
  }

  /** Exactly the middle blocks of the cached steps are not executed. */
  lemma {:induction false} SavedBlocks(p: Params, ops: seq<BranchOp>)
    requires ValidParams(p)
    ensures var st := BranchRun(p, ops);
            ExecutedBlocks(p, st) == st.completedSteps * p.totalBlocks - st.cachedMiddleSteps * MiddleBlocks(p)
  {
    EveryRunKeepsInv(p, ops);
    var st := BranchRun(p, ops);
    BlockSum(p.frontBlocks, MiddleBlocks(p), p.backBlocks, st.computedMiddleSteps, st.cachedMiddleSteps);
  }

  /** Cached steps are at most the limit times the computed ones, and every compute has one reason. */
  lemma {:induction false} CachedAreBounded(p: Params, ops: seq<BranchOp>)
    requires ValidParams(p)
    ensures var st := BranchRun(p, ops);
            && st.cachedMiddleSteps <= p.maxConsecutiveCached * st.computedMiddleSteps
            && st.completedSteps == st.computedMiddleSteps + st.cachedMiddleSteps
            && |st.forced| == st.computedMiddleSteps + (if Computing(st) then 1 else 0)
  {
    EveryRunKeepsInv(p, ops);
    BudgetIsProduct(p.maxConsecutiveCached, BranchRun(p, ops).computedMiddleSteps);
  }

  // ---- The predictor --------------------------------------------------------------

  predicate Breaks(reason: Reason) {
    reason == LayoutChanged || reason == NonContiguousBranchStep
  }

  function ForecastStep(p: Params, linear: bool, st: BranchState, f: F.State, op: BranchOp): F.State {
    var reply := BranchStep(p, st, op).1;
    match op
    case Record(step, front, middle) =>
      if !reply.Done? || st.pendingLayout.None? then f
      else F.Learn(f, linear, step, st.cachedMiddle, Sub(middle, front), Breaks(st.pending.value.reason), st.pendingLayout.value)
    case Apply(step, _) =>
      if !reply.Output? || F.Predict(f, step, reply.tensor).Err? then f else F.AfterPredict(f)
    case _ => f
  }

  function ForecastRun(p: Params, linear: bool, ops: seq<BranchOp>): F.State {
    if ops == [] then F.Fresh()
    else
      var (before, op) := (ops[..|ops| - 1], ops[|ops| - 1]);
      ForecastStep(p, linear, BranchRun(p, before), ForecastRun(p, linear, before), op)
  }

  /** The velocity is always the slope between two consecutive middle computes with one layout. */
  lemma {:induction false} VelocityIsASlope(p: Params, linear: bool, ops: seq<BranchOp>)
    requires ValidParams(p)
    ensures F.Learned(ForecastRun(p, linear, ops), ComputesOf(p, ops))
  {
    if ops != [] {
      var (before, op) := (ops[..|ops| - 1], ops[|ops| - 1]);
      VelocityIsASlope(p, linear, before);
      EveryRunKeepsInv(p, before);
      LearnedStep(p, linear, BranchRun(p, before), ForecastRun(p, linear, before), ComputesOf(p, before), op);
    }
  }

  lemma {:induction false} LearnedStep(p: Params, linear: bool, st: BranchState, f: F.State, computes: seq<F.Compute>, op: BranchOp)
    requires Pending(p, st) && ResidualIsLast(st, computes) && F.Learned(f, computes)
    ensures F.Learned(ForecastStep(p, linear, st, f, op), computes + Recorded(p, st, op))
  {
    if Recorded(p, st, op) == [] {
      assert computes + [] == computes;
    } else {
      F.LearnKeeps(f, computes, linear, op.step, st.cachedMiddle, Sub(op.middle, op.front),
                   Breaks(st.pending.value.reason), st.pendingLayout.value);
    }
  }

  lemma {:induction false} ReusesLastCompute(p: Params, linear: bool, ops: seq<BranchOp>, op: BranchOp)
    requires ValidParams(p) && op.Apply? && BranchStep(p, BranchRun(p, ops), op).1.Output?
    ensures F.ReusesLast(ForecastRun(p, linear, ops), ComputesOf(p, ops), op.step, op.front,
                         BranchStep(p, BranchRun(p, ops), op).1.tensor)
  {
    VelocityIsASlope(p, linear, ops);
    ReuseIsSound(p, ops, op);
  }

  /** A forecast stays within the last observed change of the middle residual. */
  lemma {:induction false} ForecastIsBounded(p: Params, linear: bool, ops: seq<BranchOp>, op: BranchOp)
    requires ValidParams(p) && op.Apply? && BranchStep(p, BranchRun(p, ops), op).1.Output?
    ensures var (f, computes) := (ForecastRun(p, linear, ops), ComputesOf(p, ops));
            var plain := BranchStep(p, BranchRun(p, ops), op).1.tensor;
            F.WithinLastChange(f, computes, plain, F.Predict(f, op.step, plain))
  {
    ReusesLastCompute(p, linear, ops, op);
    F.BoundedForecast(ForecastRun(p, linear, ops), ComputesOf(p, ops), op.step, op.front, BranchStep(p, BranchRun(p, ops), op).1.tensor);
  }

  /** A middle residual is kept since the last compute, unless a changed layout has just dropped it. */
  predicate Keeps(st: BranchState, computed: bool) {
    computed ==> st.cachedMiddle.Some? || (st.pending.Some? && !st.recorded && st.pending.value == Decision(false, LayoutChanged))
  }

  lemma {:induction false} CallKeeps(p: Params, st: BranchState, op: BranchOp, computed: bool)
    requires Keeps(st, computed)
    ensures Keeps(BranchStep(p, st, op).0, computed || Recorded(p, st, op) != [])
  {}

  lemma {:induction false} ResidualIsKept(p: Params, ops: seq<BranchOp>)
    ensures Keeps(BranchRun(p, ops), ComputesOf(p, ops) != [])
  {
    if ops != [] {
      var (before, op) := (ops[..|ops| - 1], ops[|ops| - 1]);
      ResidualIsKept(p, before);
      CallKeeps(p, BranchRun(p, before), op, ComputesOf(p, before) != []);
    }
  }

  /**
   * A recorded middle leaves a velocity if and only if the mode is linear, its step
   * followed the last compute without a changed layout or a gap, and shapes agree.
   */
  lemma {:induction false} ComputeLearns(p: Params, linear: bool, ops: seq<BranchOp>, op: BranchOp)
    requires ValidParams(p) && op.Record? && BranchStep(p, BranchRun(p, ops), op).1.Done?
    ensures var (st, computes) := (BranchRun(p, ops), ComputesOf(p, ops));
            && st.pending.Some? && st.pendingLayout.Some?
            && (ForecastStep(p, linear, st, ForecastRun(p, linear, ops), op).velocity.Some? <==>
                  && linear && computes != []
                  && var last := computes[|computes| - 1];
                  && last.step < op.step && last.layout == st.pendingLayout.value && |last.residual| == |op.front|
                  && st.pending.value.reason != LayoutChanged && st.pending.value.reason != NonContiguousBranchStep)
  {
    var st := BranchRun(p, ops);
    EveryRunKeepsInv(p, ops);
    VelocityIsASlope(p, linear, ops);
    ResidualIsKept(p, ops);
    F.VelocityIsLearned(ForecastRun(p, linear, ops), ComputesOf(p, ops), linear, st.cachedMiddle,
                        F.Compute(op.step, st.pendingLayout.value, Sub(op.middle, op.front)), Breaks(st.pending.value.reason));
  }

  /** What a reuse gives: the last residual, and of the last change the part that the gap is of the interval, at most all. */
  lemma {:induction false} ForecastIsPartOfChange(p: Params, linear: bool, ops: seq<BranchOp>, op: BranchOp)
    requires ValidParams(p) && op.Apply? && BranchStep(p, BranchRun(p, ops), op).1.Output?
    ensures F.IsPartOfChange(ForecastRun(p, linear, ops), ComputesOf(p, ops), op.step, op.front,
                             F.Predict(ForecastRun(p, linear, ops), op.step, BranchStep(p, BranchRun(p, ops), op).1.tensor))
  {
    ReusesLastCompute(p, linear, ops, op);
    F.PredictionIsPartOfChange(ForecastRun(p, linear, ops), ComputesOf(p, ops), op.step, op.front,
                               BranchStep(p, BranchRun(p, ops), op).1.tensor);
  }
}
