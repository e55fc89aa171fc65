/**
 * The EraserDiT TeaCache controller: TeaCache with a residual predictor, as an
 * object whose calls update the states of two branches.
 */
module TeaController {
  import opened Wrappers
  import opened Tensors
  import opened Arithmetic
  import opened TeaCache
  import F = Forecast

  // ---- The predictor beside a branch ------------------------------------------

  predicate Breaks(reason: Reason) {
    reason == LayoutChanged || reason == NonContiguousBranchStep
  }

  function ForecastStep(p: Params, linear: bool, st: BranchState, f: F.State, op: BranchOp): F.State {
    var reply := BranchStep(p, st, op).1;
    match op
    case Record(step, _, hidden, output) =>
      if reply.Raised? || st.pendingLayout.None? then f
      else F.Learn(f, linear, step, st.previousResidual, Sub(output, hidden), Breaks(st.pending.value.reason),
                   st.pendingLayout.value)
    case Apply(step, _, _) =>
      if !reply.Output? || F.Predict(f, step, reply.tensor).Err? then f else F.AfterPredict(f)
    case _ => f
  }

  function ForecastRun(p: Params, linear: bool, ops: seq<BranchOp>): F.State {
    if ops == [] then F.Fresh()
    else
      var (before, op) := (ops[..|ops| - 1], ops[|ops| - 1]);
      ForecastStep(p, linear, BranchRun(p, before), ForecastRun(p, linear, before), op)
  }

  function ComputesOf(h: seq<Event>): seq<F.Compute> {
    if h == [] then []
    else ComputesOf(h[..|h| - 1])
         + if h[|h| - 1].Computed? then [F.Compute(h[|h| - 1].step, h[|h| - 1].layout, h[|h| - 1].residual)] else []
  }

  lemma {:induction false} LastOfComputes(h: seq<Event>)
    ensures LastCompute(h).None? <==> ComputesOf(h) == []
    ensures LastCompute(h).Some? ==>
              && LastCompute(h).value.Computed?
              && var last := LastCompute(h).value;
                 ComputesOf(h)[|ComputesOf(h)| - 1] == F.Compute(last.step, last.layout, last.residual)
  {
    if h != [] && h[|h| - 1].Skipped? { LastOfComputes(h[..|h| - 1]); }
  }

  /** The velocity is always the slope between two consecutive real computes with one layout. */
  lemma {:induction false} VelocityIsASlope(p: Params, linear: bool, ops: seq<BranchOp>)
    requires ValidParams(p)
    ensures F.Learned(ForecastRun(p, linear, ops), ComputesOf(History(p, ops)))
  {
    if ops != [] {
      var (before, op) := (ops[..|ops| - 1], ops[|ops| - 1]);
      VelocityIsASlope(p, linear, before);
      EveryRunKeepsInv(p, before);
      LearnedStep(p, linear, BranchRun(p, before), ForecastRun(p, linear, before), History(p, before), op);
    }
  }

  lemma {:induction false} LearnedStep(p: Params, linear: bool, st: BranchState, f: F.State, h: seq<Event>, op: BranchOp)
    requires Pending(p, st, h) && ResidualIsLast(st, h) && F.Learned(f, ComputesOf(h))
    ensures F.Learned(ForecastStep(p, linear, st, f, op), ComputesOf(h + Completed(p, st, op)))
  {
    LastOfComputes(h);
    var done := Completed(p, st, op);
    if done == [] {
      assert h + done == h;
    } else {
      assert (h + done)[..|h + done| - 1] == h;
      if op.Record? {
        F.LearnKeeps(f, ComputesOf(h), linear, op.step, st.previousResidual, Sub(op.output, op.hidden),
                     Breaks(st.pending.value.reason), st.pendingLayout.value);
      }
    }
  }

  lemma {:induction false} ReusesLastCompute(p: Params, linear: bool, ops: seq<BranchOp>, op: BranchOp)
    requires ValidParams(p) && op.Apply? && BranchStep(p, BranchRun(p, ops), op).1.Output?
    ensures F.ReusesLast(ForecastRun(p, linear, ops), ComputesOf(History(p, ops)), op.step, op.hidden,
                         BranchStep(p, BranchRun(p, ops), op).1.tensor)
  {
    VelocityIsASlope(p, linear, ops);
    ReuseIsSound(p, ops, op);
    LastOfComputes(History(p, ops));
  }

  /**
   * A reuse with a forecast never raises for its shape, and differs from plain reuse
   * by at most the last observed change of the residual, componentwise.
   */
  lemma {:induction false} ForecastIsBounded(p: Params, linear: bool, ops: seq<BranchOp>, op: BranchOp)
    requires ValidParams(p) && op.Apply? && BranchStep(p, BranchRun(p, ops), op).1.Output?
    ensures var (f, computes) := (ForecastRun(p, linear, ops), ComputesOf(History(p, ops)));
            var plain := BranchStep(p, BranchRun(p, ops), op).1.tensor;
            F.WithinLastChange(f, computes, plain, F.Predict(f, op.step, plain))
  {
    ReusesLastCompute(p, linear, ops, op);
    F.BoundedForecast(ForecastRun(p, linear, ops), ComputesOf(History(p, ops)), op.step, op.hidden,
                      BranchStep(p, BranchRun(p, ops), op).1.tensor);
  }

  /** If the residuals move at a constant rate and the gap fits, the forecast is the true output. */
  lemma {:induction false} ForecastIsExact(p: Params, linear: bool, ops: seq<BranchOp>, op: BranchOp,
                                           base: Tensor, rate: Tensor, truth: Tensor)
    requires ValidParams(p) && op.Apply? && BranchStep(p, BranchRun(p, ops), op).1.Output?
    requires var f := ForecastRun(p, linear, ops); f.velocity.Some? && f.step.Some? && op.step - f.step.value <= f.interval
    requires F.OnOneLine(ComputesOf(History(p, ops)), base, rate, op.step, truth)
    ensures |truth| == |op.hidden|
    ensures F.Predict(ForecastRun(p, linear, ops), op.step, BranchStep(p, BranchRun(p, ops), op).1.tensor)
         == Ok(Add(op.hidden, truth))
  {
    ReusesLastCompute(p, linear, ops, op);
    F.ExactForecast(ForecastRun(p, linear, ops), ComputesOf(History(p, ops)), op.step, op.hidden,
                    BranchStep(p, BranchRun(p, ops), op).1.tensor, base, rate, truth);
  }

  /** A residual is kept since the last compute, unless a changed layout has just dropped it. */
  predicate Keeps(st: BranchState, computed: bool) {
    computed ==> st.previousResidual.Some? || (st.pending.Some? && st.pending.value.reason == LayoutChanged)
  }

  lemma {:induction false} CallKeeps(p: Params, st: BranchState, op: BranchOp, computed: bool)
    requires Keeps(st, computed)
    ensures var (after, reply) := BranchStep(p, st, op);
            Keeps(after, computed || (op.Record? && !reply.Raised?))
  {}

  lemma {:induction false} ResidualIsKept(p: Params, ops: seq<BranchOp>)
    ensures Keeps(BranchRun(p, ops), ComputesOf(History(p, ops)) != [])
  {
    if ops != [] {
      var (before, op) := (ops[..|ops| - 1], ops[|ops| - 1]);
      ResidualIsKept(p, before);
      CallKeeps(p, BranchRun(p, before), op, ComputesOf(History(p, before)) != []);
      ComputesGrow(p, BranchRun(p, before), History(p, before), op);
    }
  }

  lemma {:induction false} ComputesGrow(p: Params, st: BranchState, h: seq<Event>, op: BranchOp)
    ensures ComputesOf(h + Completed(p, st, op)) != [] ==> ComputesOf(h) != [] || (op.Record? && !BranchStep(p, st, op).1.Raised?)
  {
    var done := Completed(p, st, op);
    if done == [] {
      assert h + done == h;
    } else {
      assert (h + done)[..|h + done| - 1] == h;
    }
  }

  /**
   * A recorded compute leaves a velocity if and only if the mode is linear, its step
   * followed the last compute without a changed layout or a gap, and shapes agree.
   */
  lemma {:induction false} ComputeLearns(p: Params, linear: bool, ops: seq<BranchOp>, op: BranchOp)
    requires ValidParams(p) && op.Record? && BranchStep(p, BranchRun(p, ops), op).1.Done?
    ensures var (st, computes) := (BranchRun(p, ops), ComputesOf(History(p, ops)));
            && st.pending.Some? && st.pendingLayout.Some?
            && (ForecastRun(p, linear, ops + [op]).velocity.Some? <==>
                  && linear && computes != []
                  && var last := computes[|computes| - 1];
                  && last.step < op.step && last.layout == st.pendingLayout.value && |last.residual| == |op.hidden|
                  && st.pending.value.reason != LayoutChanged && st.pending.value.reason != NonContiguousBranchStep)
  {
    var (st, h) := (BranchRun(p, ops), History(p, ops));
    RunSnoc(p, linear, ops, op);
    EveryRunKeepsInv(p, ops);
    VelocityIsASlope(p, linear, ops);
    ResidualIsKept(p, ops);
    LastOfComputes(h);
    F.VelocityIsLearned(ForecastRun(p, linear, ops), ComputesOf(h), linear, st.previousResidual,
                        F.Compute(op.step, st.pendingLayout.value, Sub(op.output, op.hidden)), Breaks(st.pending.value.reason));
  }

  /** What a reuse gives: the last residual, and of the last change the part that the gap is of the interval, at most all. */
  lemma {:induction false} ForecastIsPartOfChange(p: Params, linear: bool, ops: seq<BranchOp>, op: BranchOp)
    requires ValidParams(p) && op.Apply? && BranchStep(p, BranchRun(p, ops), op).1.Output?
    ensures F.IsPartOfChange(ForecastRun(p, linear, ops), ComputesOf(History(p, ops)), op.step, op.hidden,
                             F.Predict(ForecastRun(p, linear, ops), op.step, BranchStep(p, BranchRun(p, ops), op).1.tensor))
  {
    ReusesLastCompute(p, linear, ops, op);
    F.PredictionIsPartOfChange(ForecastRun(p, linear, ops), ComputesOf(History(p, ops)), op.step, op.hidden,
                               BranchStep(p, BranchRun(p, ops), op).1.tensor);
  }

  /** Does this call get a forecast on top of its residual? */
  predicate Forecasts(p: Params, linear: bool, ops: seq<BranchOp>, op: BranchOp) {
    op.Apply? && BranchStep(p, BranchRun(p, ops), op).1.Output? && ForecastRun(p, linear, ops).velocity.Some?
  }

  function ForecastsGiven(p: Params, linear: bool, ops: seq<BranchOp>): nat {
    if ops == [] then 0
    else ForecastsGiven(p, linear, ops[..|ops| - 1])
         + if Forecasts(p, linear, ops[..|ops| - 1], ops[|ops| - 1]) then 1 else 0
  }

  /** `predicted_steps` counts the reuses that were given a forecast, of which none fails. */
  lemma {:induction false} PredictedAreCounted(p: Params, linear: bool, ops: seq<BranchOp>)
    requires ValidParams(p)
    ensures ForecastRun(p, linear, ops).predictedSteps == ForecastsGiven(p, linear, ops)
  {
    if ops != [] {
      var (before, op) := (ops[..|ops| - 1], ops[|ops| - 1]);
      PredictedAreCounted(p, linear, before);
      if op.Apply? && BranchStep(p, BranchRun(p, before), op).1.Output? { ForecastIsBounded(p, linear, before, op); }
    }
  }

  // ---- The controller ---------------------------------------------------------

  lemma {:induction false} RunSnoc(p: Params, linear: bool, ops: seq<BranchOp>, op: BranchOp)
    ensures BranchRun(p, ops + [op]) == BranchStep(p, BranchRun(p, ops), op).0
    ensures ForecastRun(p, linear, ops + [op]) == ForecastStep(p, linear, BranchRun(p, ops), ForecastRun(p, linear, ops), op)
  {
    assert (ops + [op])[..|ops|] == ops;
  }

  // ---- One branch, in place -----------------------------------------------------

  method CheckBranch(p: Params, before: BranchState, step: int, input: Tensor, layout: Layout, contextOk: bool,
                     coefficients: Option<seq<real>>)
    returns (state: BranchState, reply: Reply)
    ensures (state, reply) == CheckStep(p, before, Check(step, input, layout, contextOk, coefficients))
  {
    state := before;
    if !contextOk || !(0 <= step < p.totalSteps) { return state, Raised; }
    if state.pending.Some? || coefficients.None? { return state, Raised; }
    var reason := ForcedReason(p, state, step, layout);
    var decision;
    if reason.Some? {
      if reason.value == LayoutChanged {
        state := state.(previousInput := None, previousResidual := None);
      }
      decision := Decision(false, reason.value, 0.0, 0.0);
    } else if p.calibrate {
      decision := Decision(false, Reason.Calibrate, 0.0, 0.0);
    } else {
      var raw := RelativeL1(input, state.previousInput.value);
      if raw.Err? { return before, Raised; }
      decision := Judge(p, state, raw.value, coefficients.value);
    }
    if !decision.shouldSkip {
      state := state.(forced := state.forced + multiset{decision.reason});
    }
    state := state.(pending := Some(decision), pendingStep := Some(step), pendingLayout := Some(layout));
    reply := Decided(decision);
  }

  method ApplyBranch(p: Params, before: BranchState, step: int, input: Tensor, hidden: Tensor)
    returns (state: BranchState, reply: Reply)
    ensures (state, reply) == ApplyStep(p, before, Apply(step, input, hidden))
  {
    state := before;
    if state.pending.None? || !state.pending.value.shouldSkip || state.pendingStep != Some(step) {
      return state, Raised;
    }
    if state.previousResidual.None? || |state.previousResidual.value| != |hidden| {
      return state, Raised;
    }
    reply := Output(Add(hidden, state.previousResidual.value));
    state := state.(previousStep := Some(step), previousInput := Some(input), previousLayout := state.pendingLayout);
    state := state.(accumulated := state.pending.value.accumulated);
    state := state.(consecutiveSkips := state.consecutiveSkips + 1, skipSteps := state.skipSteps + 1);
    state := state.(pending := None, pendingStep := None);
  }

  method RecordBranch(p: Params, linear: bool, before: BranchState, f: F.State, step: int, input: Tensor, hidden: Tensor,
                      computed: Tensor)
    returns (state: BranchState, forecast: F.State, reply: Reply)
    requires before.pending.Some? ==> before.pendingLayout.Some?
    ensures var op := Record(step, input, hidden, computed);
            (state, reply) == RecordStep(p, before, op) && forecast == ForecastStep(p, linear, before, f, op)
  {
    state, forecast := before, f;
    if state.pending.None? || state.pending.value.shouldSkip || state.pendingStep != Some(step) {
      return state, forecast, Raised;
    }
    var (previous, reason, layout) := (state.previousResidual, state.pending.value.reason, state.pendingLayout.value);
    state := state.(previousStep := Some(step), previousInput := Some(input), previousLayout := state.pendingLayout);
    if |computed| != |hidden| { return state, forecast, Raised; }
    var residual := Sub(computed, hidden);
    state := state.(previousResidual := Some(residual));
    state := state.(accumulated := 0.0, consecutiveSkips := 0, calcSteps := state.calcSteps + 1);
    state := state.(pending := None, pendingStep := None);
    forecast := F.Learn(forecast, linear, step, previous, residual, Breaks(reason), layout);
    reply := Done;
  }

  /** The calls have led a fresh branch and its predictor here; sealed. */
  ghost predicate LedTo(p: Params, linear: bool, ops: seq<BranchOp>, st: BranchState, f: F.State) {
    forall key | Ask(key) :: st == BranchRun(p, ops) && f == ForecastRun(p, linear, ops)
  }

  lemma {:induction false} LedNowhere(p: Params, linear: bool)
    ensures LedTo(p, linear, [], FreshBranch(), F.Fresh())
  {}

  lemma {:induction false} LedOn(p: Params, linear: bool, ops: seq<BranchOp>, st: BranchState, f: F.State, op: BranchOp)
    requires LedTo(p, linear, ops, st, f)
    ensures LedTo(p, linear, ops + [op], BranchStep(p, st, op).0, ForecastStep(p, linear, st, f, op))
  {
    assert Ask(true);
    RunSnoc(p, linear, ops, op);
  }

  lemma {:induction false} PendingHasLayout(p: Params, linear: bool, ops: seq<BranchOp>, st: BranchState, f: F.State)
    requires ValidParams(p) && LedTo(p, linear, ops, st, f)
    ensures st.pending.Some? ==> st.pendingLayout.Some?
  {
    assert Ask(true);
    EveryRunKeepsInv(p, ops);
  }

  /** The output of a reuse: the kept residual, with the forecast on top. */
  function Applied(p: Params, st: BranchState, f: F.State, op: BranchOp): Result<Tensor>
    requires op.Apply?
  {
    var reply := ApplyStep(p, st, op).1;
    if reply.Output? then F.Predict(f, op.step, reply.tensor) else Err
  }

  /** A reuse that succeeds has a prediction. */
  lemma {:induction false} PredictionExists(p: Params, linear: bool, ops: seq<BranchOp>, st: BranchState, f: F.State, op: BranchOp)
    requires ValidParams(p) && LedTo(p, linear, ops, st, f) && op.Apply?
    ensures Applied(p, st, f, op).Ok? <==> ApplyStep(p, st, op).1.Output?
  {
    assert Ask(true);
    if ApplyStep(p, st, op).1.Output? { ForecastIsBounded(p, linear, ops, op); }
  }

  /** A reuse on a branch and its predictor. */
  method ApplyForecast(p: Params, linear: bool, ghost ops: seq<BranchOp>, before: BranchState, f: F.State, step: int, input: Tensor,
                       hidden: Tensor)
    returns (output: Result<Tensor>, state: BranchState, forecast: F.State)
    requires ValidParams(p) && LedTo(p, linear, ops, before, f)
    ensures var op := Apply(step, input, hidden);
            && output == Applied(p, before, f, op) && (output.Ok? <==> ApplyStep(p, before, op).1.Output?)
            && state == BranchStep(p, before, op).0 && forecast == ForecastStep(p, linear, before, f, op)
  {
    var reply;
    state, reply := ApplyBranch(p, before, step, input, hidden);
    PredictionExists(p, linear, ops, before, f, Apply(step, input, hidden));
    output, forecast := Err, f;
    if reply.Output? {
      output := F.Predict(f, step, reply.tensor);
      forecast := F.AfterPredict(f);
    }
  }

  // ---- Totals -------------------------------------------------------------------

  lemma {:induction false} BudgetOfSum(m: nat, x: nat, y: nat, skips: nat, others: nat)
    requires skips <= Budget(m, x) && others <= Budget(m, y)
    ensures skips + others <= m * (x + y)
  {
    BudgetIsProduct(m, x);
    BudgetIsProduct(m, y);
    assert m * (x + y) == m * x + m * y;
  }

  lemma {:induction false} BranchTotals(p: Params, linear: bool, ops: seq<BranchOp>, st: BranchState, f: F.State)
    requires ValidParams(p) && LedTo(p, linear, ops, st, f)
    ensures st.calcSteps + st.skipSteps == |History(p, ops)| && st.skipSteps <= Budget(p.maxConsecutiveSkip, st.calcSteps)
  {
    assert Ask(true);
    EveryRunKeepsInv(p, ops);
  }

  lemma {:induction false} TotalsOfTwo(p: Params, linear: bool, a: seq<BranchOp>, st: BranchState, f: F.State,
                                       b: seq<BranchOp>, other: BranchState, g: F.State)
    requires ValidParams(p) && LedTo(p, linear, a, st, f) && LedTo(p, linear, b, other, g)
    ensures st.calcSteps + other.calcSteps + (st.skipSteps + other.skipSteps) == |History(p, a)| + |History(p, b)|
    ensures st.skipSteps + other.skipSteps <= p.maxConsecutiveSkip * (st.calcSteps + other.calcSteps)
  {
    BranchTotals(p, linear, a, st, f);
    BranchTotals(p, linear, b, other, g);
    BudgetOfSum(p.maxConsecutiveSkip, st.calcSteps, other.calcSteps, st.skipSteps, other.skipSteps);
  }

  /** The steps of two branches together. */
  method AddUp(p: Params, linear: bool, ghost a: seq<BranchOp>, st: BranchState, ghost f: F.State,
               ghost b: seq<BranchOp>, other: BranchState, ghost g: F.State)
    returns (calcSteps: nat, skipSteps: nat)
    requires ValidParams(p) && LedTo(p, linear, a, st, f) && LedTo(p, linear, b, other, g)
    ensures calcSteps + skipSteps == |History(p, a)| + |History(p, b)|
    ensures skipSteps <= p.maxConsecutiveSkip * calcSteps
  {
    calcSteps, skipSteps := st.calcSteps + other.calcSteps, st.skipSteps + other.skipSteps;
    TotalsOfTwo(p, linear, a, st, f, b, other, g);
  }

  // ---- Reports ------------------------------------------------------------------

  datatype BranchReport = BranchReport(calcSteps: nat, skipSteps: nat, forced: multiset<Reason>, previousStep: Option<int>)

  datatype Report = Report(
    branches: map<Branch, BranchReport>,
    calcSteps: nat,
    skipSteps: nat,
    predictedSteps: nat,
    selection: Option<Selection>,
    closed: bool,
    abortReason: Option<string>)

  function BranchReportOf(st: BranchState): BranchReport {
    BranchReport(st.calcSteps, st.skipSteps, st.forced, st.previousStep)
  }

  /** `clear_tensors` forgets the pending step as well, and keeps what is reported. */
  function Cleared(st: BranchState): (cleared: BranchState)
    ensures BranchReportOf(cleared) == BranchReportOf(st)
    ensures cleared.previousInput.None? && cleared.previousResidual.None? && cleared.pending.None?
  {
    st.(previousInput := None, previousResidual := None, pending := None, pendingLayout := None, pendingStep := None)
  }

  datatype Selection = Selection(length: int, coefficients: seq<real>)

  class TeaCacheController {
    const p: Params
    const linear: bool
    const selector: int -> Option<seq<real>>
    var states: map<Branch, BranchState>
    var forecasts: map<Branch, F.State>
    var selection: Option<Selection>
    var closed: bool
    var abortReason: Option<string>
    var finalReport: Option<Report>
    /** The calls every branch has seen. */
    ghost var trace: map<Branch, seq<BranchOp>>

    /** Until the window is closed, each branch is where its own calls have led it. */
    ghost predicate Valid()
      reads this
    {
      && ValidParams(p) && (closed ==> finalReport.Some?)
      && forall b :: b in states && b in forecasts && b in trace
           && (!closed ==> LedTo(p, linear, trace[b], states[b], forecasts[b]))
    }

    /** `stats`, as the fields stand. */
    function Stats(): Report
      requires forall b :: b in states && b in forecasts
      reads this
    {
      Report(map[POSITIVE := BranchReportOf(states[POSITIVE]), NEGATIVE := BranchReportOf(states[NEGATIVE])],
             states[POSITIVE].calcSteps + states[NEGATIVE].calcSteps,
             states[POSITIVE].skipSteps + states[NEGATIVE].skipSteps,
             forecasts[POSITIVE].predictedSteps + forecasts[NEGATIVE].predictedSteps,
             selection, closed, abortReason)
    }

    constructor (p: Params, linear: bool, selector: int -> Option<seq<real>>)
      requires ValidParams(p)
      ensures Valid() && !closed && trace == map[POSITIVE := [], NEGATIVE := []]
      ensures this.p == p && this.linear == linear && this.selector == selector
    {
      this.p, this.linear, this.selector := p, linear, selector;
      states := map[POSITIVE := FreshBranch(), NEGATIVE := FreshBranch()];
      forecasts := map[POSITIVE := F.Fresh(), NEGATIVE := F.Fresh()];
      trace := map[POSITIVE := [], NEGATIVE := []];
      selection, closed, abortReason, finalReport := None, false, None, None;
      new;
      forall b: Branch ensures b in states && b in forecasts && b in trace {
        if b.POSITIVE? {} else {}
        LedNowhere(p, linear);
      }
    }

    /** The coefficients a check would get: selected once, and only for one sequence length. */
    function Coefficients(globalLength: int): Option<seq<real>>
      reads this
    {
      match selection
      case None => selector(globalLength)
      case Some(chosen) => if chosen.length == globalLength then Some(chosen.coefficients) else None
    }

    /** Take note of a call: the branch has moved, the other one has not. */
    ghost method Follow(branch: Branch, op: BranchOp)
      requires ValidParams(p) && !closed
      requires forall b :: b in states && b in forecasts && b in trace
      requires forall b | b != branch :: LedTo(p, linear, trace[b], states[b], forecasts[b])
      requires LedTo(p, linear, trace[branch] + [op], states[branch], forecasts[branch])
      modifies this`trace
      ensures Valid() && trace == old(trace)[branch := old(trace)[branch] + [op]]
    {
      trace := trace[branch := trace[branch] + [op]];
    }

    /** `_selection_for`: a first length is kept. */
    method Select(globalLength: int)
      modifies this`selection
      ensures selection == if old(selection).None? && old(Coefficients(globalLength)).Some?
                           then Some(Selection(globalLength, old(Coefficients(globalLength)).value)) else old(selection)
    {
      var coefficients := Coefficients(globalLength);
      if selection.None? && coefficients.Some? {
        selection := Some(Selection(globalLength, coefficients.value));
      }
    }

    /** Check a step with its selection made. */
    method CheckSelected(branch: Branch, step: int, input: Tensor, layout: Layout, contextOk: bool, coefficients: Option<seq<real>>)
      returns (reply: Reply)
      requires Valid() && !closed
      modifies this`states, this`trace
      ensures Valid()
      ensures var op := BranchOp.Check(step, input, layout, contextOk, coefficients);
              && reply == CheckStep(p, old(states[branch]), op).1
              && trace == old(trace)[branch := old(trace)[branch] + [op]]
    {
      LedOn(p, linear, trace[branch], states[branch], forecasts[branch], BranchOp.Check(step, input, layout, contextOk, coefficients));
      var state, answer := CheckBranch(p, states[branch], step, input, layout, contextOk, coefficients);
      states, reply := states[branch := state], answer;
      Follow(branch, BranchOp.Check(step, input, layout, contextOk, coefficients));
    }

    method Check(branch: Branch, step: int, input: Tensor, globalLength: int, layout: Layout, contextOk: bool)
      returns (reply: Reply)
      requires Valid()
      modifies this`states, this`selection, this`trace
      ensures Valid()
      ensures closed ==> reply.Raised? && states == old(states) && trace == old(trace) && selection == old(selection)
      ensures var op := BranchOp.Check(step, input, layout, contextOk, old(Coefficients(globalLength)));
              !closed ==>
                && reply == CheckStep(p, old(states[branch]), op).1
                && trace == old(trace)[branch := old(trace)[branch] + [op]]
      ensures selection == old(selection) || (old(selection).None? && selection.Some? && selection.value.length == globalLength)
    {
      if closed { return Raised; }
      var coefficients := Coefficients(globalLength);
      if contextOk && 0 <= step < p.totalSteps && states[branch].pending.None? {
        Select(globalLength);
      }
      reply := CheckSelected(branch, step, input, layout, contextOk, coefficients);
    }

    /** Reuse the residual, with the forecast on top. */
    method ApplyCachedUpdate(branch: Branch, step: int, input: Tensor, hidden: Tensor) returns (output: Result<Tensor>)
      requires Valid()
      modifies this`states, this`forecasts, this`trace
      ensures Valid()
      ensures closed ==> output.Err? && states == old(states) && trace == old(trace)
      ensures !closed ==>
                var op := Apply(step, input, hidden);
                && trace == old(trace)[branch := old(trace)[branch] + [op]]
                && output == Applied(p, old(states[branch]), old(forecasts[branch]), op)
                && (output.Ok? <==> BranchStep(p, old(states[branch]), op).1.Output?)
    {
      if closed { return Err; }
      LedOn(p, linear, trace[branch], states[branch], forecasts[branch], Apply(step, input, hidden));
      var state, forecast;
      output, state, forecast := ApplyForecast(p, linear, trace[branch], states[branch], forecasts[branch], step, input, hidden);
      states, forecasts := states[branch := state], forecasts[branch := forecast];
      Follow(branch, Apply(step, input, hidden));
    }

    method RecordCompute(branch: Branch, step: int, input: Tensor, hidden: Tensor, computed: Tensor) returns (ok: bool)
      requires Valid()
      modifies this`states, this`forecasts, this`trace
      ensures Valid()
      ensures closed ==> !ok && states == old(states) && trace == old(trace)
      ensures !closed ==>
                var op := Record(step, input, hidden, computed);
                && trace == old(trace)[branch := old(trace)[branch] + [op]]
                && (ok <==> BranchStep(p, old(states[branch]), op).1.Done?)
    {
      if closed { return false; }
      ghost var op := Record(step, input, hidden, computed);
      LedOn(p, linear, trace[branch], states[branch], forecasts[branch], op);
      PendingHasLayout(p, linear, trace[branch], states[branch], forecasts[branch]);
      var state, forecast, reply := RecordBranch(p, linear, states[branch], forecasts[branch], step, input, hidden, computed);
      states, forecasts := states[branch := state], forecasts[branch := forecast];
      ok := reply.Done?;
      Follow(branch, op);
    }

    /** Steps of both branches, as `stats` totals them. */
    method Totals() returns (calcSteps: nat, skipSteps: nat)
      requires Valid() && !closed
      ensures calcSteps + skipSteps == |History(p, trace[POSITIVE])| + |History(p, trace[NEGATIVE])|
      ensures skipSteps <= p.maxConsecutiveSkip * calcSteps
    {
      calcSteps, skipSteps := AddUp(p, linear, trace[POSITIVE], states[POSITIVE], forecasts[POSITIVE],
                                    trace[NEGATIVE], states[NEGATIVE], forecasts[NEGATIVE]);
    }

    /**
     * The first close reports the window as it stands, keeps that report and every
     * counter, and drops every tensor. Later closes return the first report and
     * change nothing, whatever their reason.
     */
    method Close(reason: Option<string>) returns (report: Report)
      requires Valid()
      modifies this`states, this`forecasts, this`closed, this`abortReason, this`finalReport
      ensures Valid() && closed && finalReport == Some(report)
      ensures old(closed) ==>
                && old(finalReport) == Some(report)
                && states == old(states) && forecasts == old(forecasts) && abortReason == old(abortReason)
      ensures !old(closed) ==>
                && abortReason == reason && report == old(Stats()).(closed := true, abortReason := reason)
                && forall b :: states[b] == Cleared(old(states[b])) && forecasts[b] == old(forecasts[b]).(velocity := None)
      ensures Stats() == if old(closed) then old(Stats()) else report
    {
      if closed { return finalReport.value; }
      report := Seal(reason);
      ClearAll();
    }

    method Seal(reason: Option<string>) returns (report: Report)
      requires forall b :: b in states && b in forecasts
      modifies this`closed, this`abortReason, this`finalReport
      ensures closed && abortReason == reason && finalReport == Some(report)
      ensures report == old(Stats()).(closed := true, abortReason := reason) == Stats()
    {
      abortReason, closed := reason, true;
      report := Stats();
      finalReport := Some(report);
    }

    method ClearAll()
      requires forall b :: b in states && b in forecasts
      modifies this`states, this`forecasts
      ensures forall b :: b in states && states[b] == Cleared(old(states[b]))
      ensures forall b :: b in forecasts && forecasts[b] == old(forecasts[b]).(velocity := None)
      ensures Stats() == old(Stats())
    {
      states := map b: Branch :: Cleared(states[b]);
      forecasts := map b: Branch :: forecasts[b].(velocity := None);
    }
  }
}
