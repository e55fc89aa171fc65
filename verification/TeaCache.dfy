/**
 * TeaCache for one window. `BranchStep` is what a call does to its branch; the
 * controller class is proved against it, and what every list of calls keeps is
 * proved about it.
 */
module TeaCache {
  import opened Wrappers
  import opened Tensors
  import opened Arithmetic

  datatype Branch = POSITIVE | NEGATIVE

  /** `finite` tells which distances the float arithmetic can represent. */
  datatype Params = Params(
    threshold: real,
    maxConsecutiveSkip: nat,
    minSkipStep: nat,
    endGuardSteps: nat,
    calibrate: bool,
    totalSteps: nat,
    finite: real -> bool)

  predicate ValidParams(p: Params) {
    p.threshold > 0.0 && p.maxConsecutiveSkip >= 1 && p.totalSteps > 0
  }

  datatype Reason =
    | CacheHit
    | BeforeMinSkipStep
    | AfterMaxSkipStep
    | FirstBranchStep
    | NonContiguousBranchStep
    | MissingCachedState
    | MaxConsecutiveSkip
    | ThresholdExceeded
    | NonFiniteDistance
    | Calibrate
    | LayoutChanged

  datatype Decision = Decision(shouldSkip: bool, reason: Reason, estimated: real, accumulated: real)

  datatype BranchState = BranchState(
    previousStep: Option<int>,
    previousInput: Option<Tensor>,
    previousResidual: Option<Tensor>,
    accumulated: real,
    consecutiveSkips: nat,
    calcSteps: nat,
    skipSteps: nat,
    forced: multiset<Reason>,
    pending: Option<Decision>,
    previousLayout: Option<Layout>,
    pendingLayout: Option<Layout>,
    pendingStep: Option<int>)

  function FreshBranch(): BranchState {
    BranchState(None, None, None, 0.0, 0, 0, 0, multiset{}, None, None, None, None)
  }

  /**
   * One call on a branch. A check carries the coefficients its window has selected;
   * `None` is a selection that raised, and `contextOk` says whether the execution
   * context was valid.
   */
  datatype BranchOp =
    | Check(step: int, input: Tensor, layout: Layout, contextOk: bool, coefficients: Option<seq<real>>)
    | Apply(step: int, input: Tensor, hidden: Tensor)
    | Record(step: int, input: Tensor, hidden: Tensor, output: Tensor)

  datatype Reply = Decided(decision: Decision) | Output(tensor: Tensor) | Done | Raised

  // ---- Check ------------------------------------------------------------------

  function ForcedReason(p: Params, st: BranchState, step: int, layout: Layout): Option<Reason> {
    if step < p.minSkipStep then Some(BeforeMinSkipStep)
    else if step >= p.totalSteps - p.endGuardSteps then Some(AfterMaxSkipStep)
    else if st.previousStep.None? then Some(FirstBranchStep)
    else if st.previousLayout != Some(layout) then Some(LayoutChanged)
    else if st.previousStep.value + 1 != step then Some(NonContiguousBranchStep)
    else if st.previousInput.None? || st.previousResidual.None? then Some(MissingCachedState)
    else if st.consecutiveSkips >= p.maxConsecutiveSkip then Some(MaxConsecutiveSkip)
    else None
  }

  /** A changed layout drops the cached tensors. */
  function AfterForcedReason(st: BranchState, reason: Option<Reason>): BranchState {
    if reason == Some(LayoutChanged) then st.(previousInput := None, previousResidual := None) else st
  }

  function Judge(p: Params, st: BranchState, raw: real, coefficients: seq<real>): Decision {
    var value := Polynomial(coefficients, raw);
    if !p.finite(value) then Decision(false, NonFiniteDistance, 0.0, 0.0)
    else
      var estimated := if value < 0.0 then 0.0 else value;
      var accumulated := st.accumulated + estimated;
      if accumulated < p.threshold then Decision(true, CacheHit, estimated, accumulated)
      else Decision(false, ThresholdExceeded, estimated, accumulated)
  }

  /** The decision for a checked step, unless the probe's shape has changed. */
  function Decide(p: Params, st: BranchState, step: int, input: Tensor, layout: Layout, coefficients: seq<real>)
    : Result<Decision>
  {
    var reason := ForcedReason(p, st, step, layout);
    if reason.Some? then Ok(Decision(false, reason.value, 0.0, 0.0))
    else if p.calibrate then Ok(Decision(false, Reason.Calibrate, 0.0, 0.0))
    else
      var raw := RelativeL1(input, st.previousInput.value);
      if raw.Err? then Err else Ok(Judge(p, st, raw.value, coefficients))
  }

  /** The decision waits for its step to be reused or recorded. */
  function Pend(st: BranchState, decision: Decision, step: int, layout: Layout): BranchState {
    st.(pending := Some(decision), pendingStep := Some(step), pendingLayout := Some(layout),
        forced := if decision.shouldSkip then st.forced else st.forced + multiset{decision.reason})
  }

  function CheckStep(p: Params, st: BranchState, op: BranchOp): (BranchState, Reply)
    requires op.Check?
  {
    if !op.contextOk || !(0 <= op.step < p.totalSteps) || st.pending.Some? || op.coefficients.None? then (st, Raised)
    else
      var decided := Decide(p, st, op.step, op.input, op.layout, op.coefficients.value);
      if decided.Err? then (st, Raised)
      else
        (Pend(AfterForcedReason(st, ForcedReason(p, st, op.step, op.layout)), decided.value, op.step, op.layout),
         Decided(decided.value))
  }

  // ---- Reuse and record -------------------------------------------------------

  function ApplyStep(p: Params, st: BranchState, op: BranchOp): (BranchState, Reply)
    requires op.Apply?
  {
    if st.pending.None? || !st.pending.value.shouldSkip || st.pendingStep != Some(op.step) then (st, Raised)
    else if st.previousResidual.None? || |st.previousResidual.value| != |op.hidden| then (st, Raised)
    else
      (st.(
         previousStep := Some(op.step), previousInput := Some(op.input), previousLayout := st.pendingLayout,
         accumulated := st.pending.value.accumulated, consecutiveSkips := st.consecutiveSkips + 1,
         skipSteps := st.skipSteps + 1, pending := None, pendingStep := None),
       Output(Add(op.hidden, st.previousResidual.value)))
  }

  function RecordStep(p: Params, st: BranchState, op: BranchOp): (BranchState, Reply)
    requires op.Record?
  {
    if st.pending.None? || st.pending.value.shouldSkip || st.pendingStep != Some(op.step) then (st, Raised)
    else if |op.output| != |op.hidden| then
      // The difference raises after three fields have been assigned.
      (st.(previousStep := Some(op.step), previousInput := Some(op.input), previousLayout := st.pendingLayout), Raised)
    else
      (st.(
         previousStep := Some(op.step), previousInput := Some(op.input), previousLayout := st.pendingLayout,
         previousResidual := Some(Sub(op.output, op.hidden)), accumulated := 0.0, consecutiveSkips := 0,
         calcSteps := st.calcSteps + 1, pending := None, pendingStep := None),
       Done)
  }

  function BranchStep(p: Params, st: BranchState, op: BranchOp): (BranchState, Reply) {
    match op
    case Check(_, _, _, _, _) => CheckStep(p, st, op)
    case Apply(_, _, _) => ApplyStep(p, st, op)
    case Record(_, _, _, _) => RecordStep(p, st, op)
  }

  function BranchRun(p: Params, ops: seq<BranchOp>): BranchState {
    if ops == [] then FreshBranch() else BranchStep(p, BranchRun(p, ops[..|ops| - 1]), ops[|ops| - 1]).0
  }

  // ---- History ----------------------------------------------------------------

  /** A completed step. */
  datatype Event =
    | Computed(step: int, layout: Layout, residual: Tensor)
    | Skipped(step: int, layout: Layout, estimated: real)

  /** The completed steps of a list of calls, in order. */
  function History(p: Params, ops: seq<BranchOp>): seq<Event> {
    if ops == [] then []
    else
      var (before, op) := (ops[..|ops| - 1], ops[|ops| - 1]);
      History(p, before) + Completed(p, BranchRun(p, before), op)
  }

  /** What a single call completes. */
  function Completed(p: Params, st: BranchState, op: BranchOp): seq<Event> {
    if BranchStep(p, st, op).1.Raised? then []
    else match op
      case Apply(step, _, _) =>
        if st.pending.Some? && st.pendingLayout.Some?
        then [Skipped(step, st.pendingLayout.value, st.pending.value.estimated)] else []
      case Record(step, _, hidden, output) =>
        if st.pendingLayout.Some? && |hidden| == |output|
        then [Computed(step, st.pendingLayout.value, Sub(output, hidden))] else []
      case _ => []
  }

  /** The skipped steps after the last compute. */
  function Tail(h: seq<Event>): seq<Event> {
    if h == [] || h[|h| - 1].Computed? then [] else Tail(h[..|h| - 1]) + [h[|h| - 1]]
  }

  function EstimateSum(events: seq<Event>): real {
    if events == [] then 0.0
    else EstimateSum(events[..|events| - 1])
         + if events[|events| - 1].Skipped? then events[|events| - 1].estimated else 0.0
  }

  function Computes(h: seq<Event>): nat {
    if h == [] then 0 else Computes(h[..|h| - 1]) + if h[|h| - 1].Computed? then 1 else 0
  }

  function LastCompute(h: seq<Event>): Option<Event> {
    if h == [] then None else if h[|h| - 1].Computed? then Some(h[|h| - 1]) else LastCompute(h[..|h| - 1])
  }

  // ---- What every list of calls keeps -------------------------------------------

  /** A skip follows the completed step before it, under the same layout and outside both guards. */
  predicate SkipsFollow(p: Params, h: seq<Event>) {
    forall i | 0 <= i < |h| && h[i].Skipped? ::
      && i > 0 && h[i].step == h[i - 1].step + 1 && h[i].layout == h[i - 1].layout
      && p.minSkipStep <= h[i].step < p.totalSteps - p.endGuardSteps
  }

  predicate Counted(p: Params, st: BranchState, h: seq<Event>) {
    && st.calcSteps == Computes(h)
    && st.calcSteps + st.skipSteps == |h|
    && st.consecutiveSkips == |Tail(h)| <= p.maxConsecutiveSkip
    && (h != [] ==> st.skipSteps + (p.maxConsecutiveSkip - st.consecutiveSkips) <= Budget(p.maxConsecutiveSkip, st.calcSteps))
    && |st.forced| == st.calcSteps + if st.pending.Some? && !st.pending.value.shouldSkip then 1 else 0
  }

  predicate Accumulates(p: Params, st: BranchState, h: seq<Event>) {
    && st.accumulated == EstimateSum(Tail(h)) >= 0.0
    && st.accumulated < p.threshold
  }

  /** A kept residual is that of the last real compute. */
  predicate ResidualIsLast(st: BranchState, h: seq<Event>) {
    st.previousResidual.Some? ==>
      LastCompute(h).Some? && LastCompute(h).value.Computed? && LastCompute(h).value.residual == st.previousResidual.value
  }

  predicate Pending(p: Params, st: BranchState, h: seq<Event>) {
    && (st.pending.Some? ==> st.pendingStep.Some? && st.pendingLayout.Some?)
    && (st.pending.None? || st.pending.value.shouldSkip ==>
          if h == [] then st.previousStep.None?
          else st.previousStep == Some(h[|h| - 1].step) && st.previousLayout == Some(h[|h| - 1].layout))
    && (st.pending.Some? && st.pending.value.shouldSkip ==>
          && h != []
          && st.pendingStep.value == h[|h| - 1].step + 1 && st.pendingLayout == st.previousLayout
          && p.minSkipStep <= st.pendingStep.value < p.totalSteps - p.endGuardSteps
          && st.previousResidual.Some?
          && st.consecutiveSkips < p.maxConsecutiveSkip
          && st.pending.value.estimated >= 0.0
          && st.pending.value.accumulated == st.accumulated + st.pending.value.estimated < p.threshold)
  }

  predicate Inv(p: Params, st: BranchState, h: seq<Event>) {
    SkipsFollow(p, h) && Counted(p, st, h) && Accumulates(p, st, h) && ResidualIsLast(st, h) && Pending(p, st, h)
  }

  lemma {:induction false} CheckKeeps(p: Params, st: BranchState, h: seq<Event>, op: BranchOp)
    requires ValidParams(p) && Inv(p, st, h) && op.Check?
    ensures Inv(p, BranchStep(p, st, op).0, h + Completed(p, st, op))
  {
    assert h + [] == h;
  }

  lemma {:induction false} OneMoreEvent(h: seq<Event>, e: Event)
    ensures Tail(h + [e]) == if e.Computed? then [] else Tail(h) + [e]
    ensures Computes(h + [e]) == Computes(h) + if e.Computed? then 1 else 0
    ensures LastCompute(h + [e]) == if e.Computed? then Some(e) else LastCompute(h)
    ensures e.Skipped? ==> EstimateSum(Tail(h) + [e]) == EstimateSum(Tail(h)) + e.estimated
  {
    assert (h + [e])[..|h|] == h;
    assert (Tail(h) + [e])[..|Tail(h)|] == Tail(h);
  }

  lemma {:induction false} ApplyCounts(p: Params, st: BranchState, h: seq<Event>, op: BranchOp)
    requires ValidParams(p) && Inv(p, st, h) && op.Apply? && BranchStep(p, st, op).1.Output?
    ensures var (after, all) := (BranchStep(p, st, op).0, h + [Skipped(op.step, st.pendingLayout.value, st.pending.value.estimated)]);
            Counted(p, after, all) && Accumulates(p, after, all) && ResidualIsLast(after, all)
  {
    OneMoreEvent(h, Skipped(op.step, st.pendingLayout.value, st.pending.value.estimated));
  }

  lemma {:induction false} ApplyKeeps(p: Params, st: BranchState, h: seq<Event>, op: BranchOp)
    requires ValidParams(p) && Inv(p, st, h) && op.Apply?
    ensures Inv(p, BranchStep(p, st, op).0, h + Completed(p, st, op))
  {
    if BranchStep(p, st, op).1.Raised? {
      assert h + [] == h;
    } else {
      ApplyCounts(p, st, h, op);
      SkipsStillFollow(p, h, Skipped(op.step, st.pendingLayout.value, st.pending.value.estimated));
    }
  }

  lemma {:induction false} SkipsStillFollow(p: Params, h: seq<Event>, e: Event)
    requires SkipsFollow(p, h)
    requires e.Skipped? ==>
               && h != [] && e.step == h[|h| - 1].step + 1 && e.layout == h[|h| - 1].layout
               && p.minSkipStep <= e.step < p.totalSteps - p.endGuardSteps
    ensures SkipsFollow(p, h + [e])
  {
    var all := h + [e];
    forall i | 0 <= i < |all| && all[i].Skipped?
      ensures i > 0 && all[i].step == all[i - 1].step + 1 && all[i].layout == all[i - 1].layout
              && p.minSkipStep <= all[i].step < p.totalSteps - p.endGuardSteps
    {
      if i < |h| { assert h[i].Skipped?; }
    }
  }

  lemma {:induction false} RecordCounts(p: Params, st: BranchState, h: seq<Event>, op: BranchOp)
    requires ValidParams(p) && Inv(p, st, h) && op.Record? && BranchStep(p, st, op).1.Done?
    ensures |op.output| == |op.hidden|
    ensures var (after, all) := (BranchStep(p, st, op).0, h + [Computed(op.step, st.pendingLayout.value, Sub(op.output, op.hidden))]);
            Counted(p, after, all) && Accumulates(p, after, all) && ResidualIsLast(after, all)
  {
    OneMoreEvent(h, Computed(op.step, st.pendingLayout.value, Sub(op.output, op.hidden)));
  }

  lemma {:induction false} RecordKeeps(p: Params, st: BranchState, h: seq<Event>, op: BranchOp)
    requires ValidParams(p) && Inv(p, st, h) && op.Record?
    ensures Inv(p, BranchStep(p, st, op).0, h + Completed(p, st, op))
  {
    if BranchStep(p, st, op).1.Raised? {
      assert h + [] == h;
    } else {
      RecordCounts(p, st, h, op);
      SkipsStillFollow(p, h, Computed(op.step, st.pendingLayout.value, Sub(op.output, op.hidden)));
    }
  }

  lemma {:induction false} EveryRunKeepsInv(p: Params, ops: seq<BranchOp>)
    requires ValidParams(p)
    ensures Inv(p, BranchRun(p, ops), History(p, ops))
  {
    if ops != [] {
      var (before, op) := (ops[..|ops| - 1], ops[|ops| - 1]);
      EveryRunKeepsInv(p, before);
      match op {
        case Check(_, _, _, _, _) => CheckKeeps(p, BranchRun(p, before), History(p, before), op);
        case Apply(_, _, _) => ApplyKeeps(p, BranchRun(p, before), History(p, before), op);
        case Record(_, _, _, _) => RecordKeeps(p, BranchRun(p, before), History(p, before), op);
      }
    }
  }

  // ---- Theorems -------------------------------------------------------------------

  /** The accumulated distance is what was estimated since the last compute, and below the threshold. */
  lemma {:induction false} AccumulatedIsTheSum(p: Params, ops: seq<BranchOp>)
    requires ValidParams(p)
    ensures var (st, h) := (BranchRun(p, ops), History(p, ops));
            && st.accumulated == EstimateSum(Tail(h)) && 0.0 <= st.accumulated < p.threshold
            && st.consecutiveSkips == |Tail(h)| <= p.maxConsecutiveSkip
  {
    EveryRunKeepsInv(p, ops);
  }

  lemma {:induction false} TailIsSuffix(h: seq<Event>)
    ensures |Tail(h)| <= |h| && Tail(h) == h[|h| - |Tail(h)|..]
    ensures forall i | |h| - |Tail(h)| <= i < |h| :: h[i].Skipped?
    ensures |Tail(h)| < |h| ==> h[|h| - |Tail(h)| - 1].Computed? && LastCompute(h) == Some(h[|h| - |Tail(h)| - 1])
  {
    if h != [] && h[|h| - 1].Skipped? {
      TailIsSuffix(h[..|h| - 1]);
    }
  }

  lemma {:induction false} LayoutsSinceCompute(p: Params, h: seq<Event>, i: nat)
    requires SkipsFollow(p, h) && |h| - |Tail(h)| - 1 <= i < |h| && |Tail(h)| < |h|
    ensures h[i].layout == h[|h| - |Tail(h)| - 1].layout
    ensures h[i].step == h[|h| - |Tail(h)| - 1].step + (i - (|h| - |Tail(h)| - 1))
    decreases i
  {
    TailIsSuffix(h);
    if i > |h| - |Tail(h)| - 1 {
      assert h[i].Skipped?;
      LayoutsSinceCompute(p, h, i - 1);
    }
  }

  lemma {:induction false} TailOfSkips(p: Params, h: seq<Event>)
    requires SkipsFollow(p, h) && h != []
    ensures |Tail(h)| < |h| && LastCompute(h) == Some(h[|h| - |Tail(h)| - 1]) && h[|h| - |Tail(h)| - 1].Computed?
    ensures h[|h| - 1].layout == h[|h| - |Tail(h)| - 1].layout
    ensures h[|h| - 1].step == h[|h| - |Tail(h)| - 1].step + |Tail(h)|
  {
    TailIsSuffix(h);
    assert !h[0].Skipped?;
    LayoutsSinceCompute(p, h, |h| - 1);
  }

  /**
   * A reused residual is that of the last computed step, which had the same
   * layout; every step since was skipped, and no skip falls into a guard.
   */
  lemma {:induction false} ReuseIsSound(p: Params, ops: seq<BranchOp>, op: BranchOp)
    requires ValidParams(p) && op.Apply? && BranchStep(p, BranchRun(p, ops), op).1.Output?
    ensures var (st, h) := (BranchRun(p, ops), History(p, ops));
            && LastCompute(h).Some? && LastCompute(h).value.Computed?
            && var last := LastCompute(h).value;
            && |last.residual| == |op.hidden|
            && BranchStep(p, st, op).1.tensor == Add(op.hidden, last.residual)
            && st.pendingLayout == Some(last.layout)
            && op.step == last.step + |Tail(h)| + 1
            && |Tail(h)| < p.maxConsecutiveSkip
            && p.minSkipStep <= op.step < p.totalSteps - p.endGuardSteps
  {
    EveryRunKeepsInv(p, ops);
    TailOfSkips(p, History(p, ops));
  }

  // ---- When a step is skipped -----------------------------------------------------------

  /** The input of the latest completed step, computed or skipped. */
  function KeptInput(p: Params, ops: seq<BranchOp>): Option<Tensor> {
    if ops == [] then None
    else
      var (before, op) := (ops[..|ops| - 1], ops[|ops| - 1]);
      if (op.Apply? || op.Record?) && !BranchStep(p, BranchRun(p, before), op).1.Raised? then Some(op.input)
      else KeptInput(p, before)
  }

  predicate HoldsInput(st: BranchState, kept: Option<Tensor>) {
    (st.pending.None? || st.pending.value.shouldSkip) && st.previousInput.Some? ==> st.previousInput == kept
  }

  lemma {:induction false} CallHoldsInput(p: Params, st: BranchState, op: BranchOp, kept: Option<Tensor>)
    requires HoldsInput(st, kept)
    ensures var (after, reply) := BranchStep(p, st, op);
            HoldsInput(after, if !op.Check? && !reply.Raised? then Some(op.input) else kept)
  {}

  lemma {:induction false} InputsAreKept(p: Params, ops: seq<BranchOp>)
    ensures HoldsInput(BranchRun(p, ops), KeptInput(p, ops))
  {
    if ops != [] {
      var (before, op) := (ops[..|ops| - 1], ops[|ops| - 1]);
      InputsAreKept(p, before);
      CallHoldsInput(p, BranchRun(p, before), op, KeptInput(p, before));
    }
  }

  /** A call of `check` that its guards let through. */
  predicate Admitted(p: Params, st: BranchState, op: BranchOp) {
    op.Check? && op.contextOk && op.coefficients.Some? && 0 <= op.step < p.totalSteps && st.pending.None?
  }

  /** An estimate is what the polynomial makes of the relative distance of two inputs, never negative. */
  function Estimate(coefficients: seq<real>, distance: real): (estimate: real)
    ensures estimate >= 0.0
  {
    var value := Terms(coefficients, distance, |coefficients|, |coefficients|);
    if value > 0.0 then value else 0.0
  }

  predicate LowEnough(p: Params, coefficients: seq<real>, distance: real, sum: real, reply: Reply) {
    && reply.Decided?
    && (if !p.finite(Terms(coefficients, distance, |coefficients|, |coefficients|)) then
          reply.decision == Decision(false, NonFiniteDistance, 0.0, 0.0)
        else
          && reply.decision.estimated == Estimate(coefficients, distance)
          && reply.decision.accumulated == sum + reply.decision.estimated
          && (reply.decision.shouldSkip <==> sum + Estimate(coefficients, distance) < p.threshold)
          && reply.decision.reason == (if reply.decision.shouldSkip then CacheHit else ThresholdExceeded))
  }

  predicate BySum(p: Params, coefficients: seq<real>, input: Tensor, kept: Tensor, sum: real, reply: Reply) {
    if |input| != |kept| then reply.Raised?
    else LowEnough(p, coefficients, Apart(input, kept, |kept|) / Scaled(kept), sum, reply)
  }

  lemma {:induction false} JudgedLow(p: Params, st: BranchState, coefficients: seq<real>, distance: real)
    ensures LowEnough(p, coefficients, distance, st.accumulated, Decided(Judge(p, st, distance, coefficients)))
  {
    PolynomialIsSum(coefficients, distance);
  }

  lemma {:induction false} JudgedSum(p: Params, st: BranchState, coefficients: seq<real>, input: Tensor, kept: Tensor)
    ensures var distance := RelativeL1(input, kept);
            BySum(p, coefficients, input, kept, st.accumulated,
                  if distance.Err? then Raised else Decided(Judge(p, st, distance.value, coefficients)))
  {
    RelativeL1IsQuotient(input, kept);
    if |input| == |kept| { JudgedLow(p, st, coefficients, Apart(input, kept, |kept|) / Scaled(kept)); }
  }

  lemma {:induction false} DecisionTaken(p: Params, st: BranchState, op: BranchOp, kept: Tensor)
    requires Admitted(p, st, op) && ForcedReason(p, st, op.step, op.layout).None? && !p.calibrate
    requires st.previousInput == Some(kept)
    ensures var (distance, reply) := (RelativeL1(op.input, kept), BranchStep(p, st, op).1);
            if distance.Err? then reply.Raised? else reply == Decided(Judge(p, st, distance.value, op.coefficients.value))
  {}

  /**
   * Outside calibration a check without a reason to compute skips if and only if the
   * estimates of the steps skipped since the last compute, with its own, stay below the
   * threshold. Its own is for the distance to the input of the step before.
   */
  lemma {:induction false} SkipIsBySum(p: Params, ops: seq<BranchOp>, op: BranchOp)
    requires ValidParams(p) && !p.calibrate && Admitted(p, BranchRun(p, ops), op)
    requires ForcedReason(p, BranchRun(p, ops), op.step, op.layout).None?
    ensures KeptInput(p, ops).Some?
    ensures BySum(p, op.coefficients.value, op.input, KeptInput(p, ops).value, EstimateSum(Tail(History(p, ops))),
                  BranchStep(p, BranchRun(p, ops), op).1)
  {
    InputsAreKept(p, ops);
    AccumulatedIsTheSum(p, ops);
    var (st, kept) := (BranchRun(p, ops), KeptInput(p, ops).value);
    DecisionTaken(p, st, op, kept);
    JudgedSum(p, st, op.coefficients.value, op.input, kept);
  }

  /** The reasons to compute, in the order in which they are looked for. */
  lemma {:induction false} ReasonsToCompute(p: Params, st: BranchState, step: int, layout: Layout)
    ensures var reason := ForcedReason(p, st, step, layout);
            var (free, seen) := (p.minSkipStep <= step < p.totalSteps - p.endGuardSteps, st.previousStep.Some?);
            var same := free && seen && st.previousLayout == Some(layout);
            var next := same && st.previousStep == Some(step - 1);
            var kept := next && st.previousInput.Some? && st.previousResidual.Some?;
            && (reason == Some(BeforeMinSkipStep) <==> step < p.minSkipStep)
            && (reason == Some(AfterMaxSkipStep) <==> p.minSkipStep <= step && p.totalSteps - p.endGuardSteps <= step)
            && (reason == Some(FirstBranchStep) <==> free && !seen)
            && (reason == Some(LayoutChanged) <==> free && seen && !same)
            && (reason == Some(NonContiguousBranchStep) <==> same && !next)
            && (reason == Some(MissingCachedState) <==> next && !kept)
            && (reason == Some(MaxConsecutiveSkip) <==> kept && st.consecutiveSkips >= p.maxConsecutiveSkip)
            && (reason.None? <==> kept && st.consecutiveSkips < p.maxConsecutiveSkip)
  {}

  /** A check with a reason to compute computes, for that reason; a calibrating one computes always. */
  lemma {:induction false} ForcedComputes(p: Params, st: BranchState, op: BranchOp)
    requires Admitted(p, st, op)
    ensures var (reason, reply) := (ForcedReason(p, st, op.step, op.layout), BranchStep(p, st, op).1);
            && (reason.Some? ==> reply == Decided(Decision(false, reason.value, 0.0, 0.0)))
            && (reason.None? && p.calibrate ==> reply == Decided(Decision(false, Reason.Calibrate, 0.0, 0.0)))
  {}

  /** Other calls of `check` raise and change nothing. */
  lemma {:induction false} RefusedChecks(p: Params, st: BranchState, op: BranchOp)
    requires op.Check? && !Admitted(p, st, op)
    ensures BranchStep(p, st, op) == (st, Raised)
  {}

  /** An answered check is carried out: its answer says which call completes its step, and how. */
  lemma {:induction false} AnswerIsCarriedOut(p: Params, ops: seq<BranchOp>, op: BranchOp, input: Tensor, hidden: Tensor, output: Tensor)
    requires ValidParams(p) && op.Check? && BranchStep(p, BranchRun(p, ops), op).1.Decided?
    ensures var (st, reply) := BranchStep(p, BranchRun(p, ops), op);
            var (apply, record) := (BranchStep(p, st, Apply(op.step, input, hidden)), BranchStep(p, st, Record(op.step, input, hidden, output)));
            if reply.decision.shouldSkip then
              && LastCompute(History(p, ops)).Some? && LastCompute(History(p, ops)).value.Computed?
              && var residual := LastCompute(History(p, ops)).value.residual;
              && record == (st, Raised)
              && (|hidden| != |residual| ==> apply == (st, Raised))
              && (|hidden| == |residual| ==> && apply.1 == Output(Add(hidden, residual))
                                             && apply.0.accumulated == reply.decision.accumulated
                                             && Completed(p, st, Apply(op.step, input, hidden)) ==
                                                  [Skipped(op.step, op.layout, reply.decision.estimated)])
            else
              && apply == (st, Raised)
              && record.1 == (if |output| == |hidden| then Done else Raised)
              && (|output| == |hidden| ==> Completed(p, st, Record(op.step, input, hidden, output)) ==
                                             [Computed(op.step, op.layout, Sub(output, hidden))])
  {
    EveryRunKeepsInv(p, ops);
    CheckKeeps(p, BranchRun(p, ops), History(p, ops), op);
    assert History(p, ops) + [] == History(p, ops);
  }

  lemma {:induction false} StepBudget(m: nat, n: nat, skips: nat)
    requires skips <= Budget(m, n)
    ensures n + skips <= (m + 1) * n
  {
    BudgetIsProduct(m, n);
    assert (m + 1) * n == m * n + n;
  }

  /** A window's steps are at most (M + 1) times its computed ones. */
  lemma {:induction false} SkipsAreBounded(p: Params, ops: seq<BranchOp>)
    requires ValidParams(p)
    ensures |History(p, ops)| <= (p.maxConsecutiveSkip + 1) * BranchRun(p, ops).calcSteps
  {
    EveryRunKeepsInv(p, ops);
    var (st, h) := (BranchRun(p, ops), History(p, ops));
    assert st.calcSteps + st.skipSteps == |h| && (h != [] ==> st.skipSteps <= Budget(p.maxConsecutiveSkip, st.calcSteps));
    StepBudget(p.maxConsecutiveSkip, st.calcSteps, st.skipSteps);
  }

  /** Every computed step was forced by exactly one reason. */
  lemma {:induction false} ReasonsAreCounted(p: Params, ops: seq<BranchOp>)
    requires ValidParams(p)
    ensures var st := BranchRun(p, ops);
            && st.calcSteps + st.skipSteps == |History(p, ops)|
            && |st.forced| == st.calcSteps + if st.pending.Some? && !st.pending.value.shouldSkip then 1 else 0
  {
    EveryRunKeepsInv(p, ops);
  }
}
