/**
 * The EraserDiT Cache-DiT controller as an object, and the client that runs a
 * transformer's blocks through it.
 */
module DitController {
  import opened Wrappers
  import opened Tensors
  import opened Blocks
  import opened CacheDit

  datatype Branch = POSITIVE | NEGATIVE

  lemma {:induction false} RunSnoc(p: Params, linear: bool, ops: seq<BranchOp>, op: BranchOp)
    ensures BranchRun(p, ops + [op]) == BranchStep(p, BranchRun(p, ops), op).0
    ensures ForecastRun(p, linear, ops + [op]) == ForecastStep(p, linear, BranchRun(p, ops), ForecastRun(p, linear, ops), op)
  {
    assert (ops + [op])[..|ops|] == ops;
  }

  // ---- One branch, in place -----------------------------------------------------

  method CheckBranch(p: Params, before: BranchState, step: int, input: Tensor, front: Tensor, layout: Layout, contextOk: bool)
    returns (state: BranchState, reply: Reply)
    ensures (state, reply) == CheckStep(p, before, Check(step, input, front, layout, contextOk))
  {
    state := before;
    if |input| != |front| || !contextOk || !(0 <= step < p.totalSteps) || state.pending.Some? { return state, Raised; }
    var probe := Sub(front, input);
    var reason := ForcedReason(p, state, step, layout);
    var decision;
    if reason.Some? {
      if reason.value == LayoutChanged {
        state := state.(previousFront := None, cachedMiddle := None, continuousCached := 0);
      }
      decision := Decision(false, reason.value);
    } else {
      var diff := RelativeL1(probe, state.previousFront.value);
      if diff.Err? { return before, Raised; }
      decision := Judge(p, diff.value);
    }
    if !decision.reuse {
      state := state.(forced := state.forced + multiset{decision.reason});
    }
    state := state.(pending := Some(decision), pendingFront := Some(probe), pendingLayout := Some(layout));
    state := state.(pendingStep := Some(step), recorded := false);
    reply := Decided(decision);
  }

  /** The output of a reuse: the kept residual, with the forecast on top. */
  function Applied(p: Params, state: BranchState, f: F.State, step: int, front: Tensor): Result<Tensor> {
    var reply := ApplyStep(p, state, Apply(step, front)).1;
    if reply.Output? then F.Predict(f, step, reply.tensor) else Err
  }

  /** A reuse that succeeds has a prediction. */
  predicate Foreseen(p: Params, state: BranchState, f: F.State, step: int, front: Tensor) {
    var reply := ApplyStep(p, state, Apply(step, front)).1;
    reply.Output? ==> F.Predict(f, step, reply.tensor).Ok?
  }

  method ApplyBranch(p: Params, linear: bool, state: BranchState, f: F.State, step: int, front: Tensor)
    returns (output: Result<Tensor>, forecast: F.State)
    requires Foreseen(p, state, f, step, front)
    ensures forecast == ForecastStep(p, linear, state, f, Apply(step, front))
    ensures output == Applied(p, state, f, step, front)
  {
    output, forecast := Err, f;
    if HasPending(state, step, true) && state.cachedMiddle.Some? && |state.cachedMiddle.value| == |front| {
      output := F.Predict(f, step, Add(front, state.cachedMiddle.value));
      forecast := F.AfterPredict(f);
    }
  }

  method RecordBranch(p: Params, linear: bool, before: BranchState, f: F.State, step: int, front: Tensor, middle: Tensor)
    returns (state: BranchState, forecast: F.State, reply: Reply)
    requires before.pending.Some? ==> before.pendingLayout.Some?
    ensures var op := Record(step, front, middle);
            (state, reply) == RecordStep(p, before, op) && forecast == ForecastStep(p, linear, before, f, op)
  {
    state, forecast := before, f;
    if !HasPending(state, step, false) || |front| != |middle| { return state, forecast, Raised; }
    var (previous, reason, layout) := (state.cachedMiddle, state.pending.value.reason, state.pendingLayout.value);
    var residual := Sub(middle, front);
    state := state.(cachedMiddle := Some(residual), previousFront := state.pendingFront);
    state := state.(previousLayout := state.pendingLayout, previousComputedStep := Some(step), recorded := true);
    forecast := F.Learn(forecast, linear, step, previous, residual, Breaks(reason), layout);
    reply := Done;
  }

  method CompleteBranch(p: Params, before: BranchState, step: int) returns (state: BranchState, reply: Reply)
    ensures (state, reply) == CompleteStep(p, before, Complete(step))
  {
    state := before;
    if state.pending.None? || state.pendingStep != Some(step) { return state, Raised; }
    if !state.pending.value.reuse && !state.recorded { return state, Raised; }
    state := state.(frontSteps := state.frontSteps + 1);
    if state.pending.value.reuse {
      state := state.(cachedMiddleSteps := state.cachedMiddleSteps + 1, continuousCached := state.continuousCached + 1);
    } else {
      state := state.(computedMiddleSteps := state.computedMiddleSteps + 1, continuousCached := 0);
    }
    if p.backBlocks > 0 { state := state.(backSteps := state.backSteps + 1); }
    state := state.(completedSteps := state.completedSteps + 1, previousObservedStep := Some(step));
    state := state.(pending := None, pendingFront := None, pendingLayout := None, pendingStep := None);
    reply := Done;
  }

  /** The calls have led a fresh branch and its predictor here; sealed. */
  ghost predicate LedTo(p: Params, linear: bool, ops: seq<BranchOp>, st: BranchState, f: F.State) {
    forall key | Ask(key) :: st == BranchRun(p, ops) && f == ForecastRun(p, linear, ops)
  }

  lemma {:induction false} LedNowhere(p: Params, linear: bool)
    ensures LedTo(p, linear, [], FreshBranch(), F.Fresh())
  {}

  lemma {:induction false} LedOn(p: Params, linear: bool, ops: seq<BranchOp>, st: BranchState, f: F.State, op: BranchOp)
    requires LedTo(p, linear, ops, st, f)
    ensures LedTo(p, linear, ops + [op], BranchStep(p, st, op).0, ForecastStep(p, linear, st, f, op))
  {
    assert Ask(true);
    RunSnoc(p, linear, ops, op);
  }

  lemma {:induction false} PendingHasLayout(p: Params, linear: bool, ops: seq<BranchOp>, st: BranchState, f: F.State)
    requires ValidParams(p) && LedTo(p, linear, ops, st, f)
    ensures st.pending.Some? ==> st.pendingLayout.Some?
  {
    assert Ask(true);
    EveryRunKeepsInv(p, ops);
  }

  lemma {:induction false} PredictionExists(p: Params, linear: bool, ops: seq<BranchOp>, st: BranchState, f: F.State, step: int, front: Tensor)
    requires ValidParams(p) && LedTo(p, linear, ops, st, f)
    ensures Foreseen(p, st, f, step, front)
  {
    assert Ask(true);
    var op := Apply(step, front);
    if BranchStep(p, st, op).1.Output? { ForecastIsBounded(p, linear, ops, op); }
  }

  class CacheDitController {
    const p: Params
    const linear: bool
    var states: map<Branch, BranchState>
    var forecasts: map<Branch, F.State>
    var closed: bool
    /** The calls every branch has seen. */
    ghost var trace: map<Branch, seq<BranchOp>>

    /** Until the window is closed, each branch is where its own calls have led it. */
    ghost predicate Valid()
      reads this
    {
      && ValidParams(p)
      && forall b :: b in states && b in forecasts && b in trace
           && (!closed ==> LedTo(p, linear, trace[b], states[b], forecasts[b]))
    }

    constructor (p: Params, linear: bool)
      requires ValidParams(p)
      ensures Valid() && !closed && trace == map[POSITIVE := [], NEGATIVE := []]
      ensures this.p == p && this.linear == linear
    {
      this.p, this.linear, closed := p, linear, false;
      states := map[POSITIVE := FreshBranch(), NEGATIVE := FreshBranch()];
      forecasts := map[POSITIVE := F.Fresh(), NEGATIVE := F.Fresh()];
      trace := map[POSITIVE := [], NEGATIVE := []];
      new;
      forall b: Branch ensures b in states && b in forecasts && b in trace {
        if b.POSITIVE? {} else {}
        LedNowhere(p, linear);
      }
    }

    /** Take note of a call: the branch has moved, the other one has not. */
    ghost method Follow(branch: Branch, op: BranchOp)
      requires ValidParams(p) && !closed
      requires forall b :: b in states && b in forecasts && b in trace
      requires forall b | b != branch :: LedTo(p, linear, trace[b], states[b], forecasts[b])
      requires LedTo(p, linear, trace[branch] + [op], states[branch], forecasts[branch])
      modifies this`trace
      ensures Valid() && trace == old(trace)[branch := old(trace)[branch] + [op]]
    {
      trace := trace[branch := trace[branch] + [op]];
    }

    method Check(branch: Branch, step: int, input: Tensor, front: Tensor, layout: Layout, contextOk: bool)
      returns (reply: Reply)
      requires Valid()
      modifies this`states, this`trace
      ensures Valid()
      ensures closed ==> reply.Raised? && trace == old(trace)
      ensures var op := BranchOp.Check(step, input, front, layout, contextOk);
              !closed ==>
                && reply == CheckStep(p, old(states[branch]), op).1
                && trace == old(trace)[branch := old(trace)[branch] + [op]]
    {
      if closed { return Raised; }
      LedOn(p, linear, trace[branch], states[branch], forecasts[branch], BranchOp.Check(step, input, front, layout, contextOk));
      var state, answer := CheckBranch(p, states[branch], step, input, front, layout, contextOk);
      states, reply := states[branch := state], answer;
      Follow(branch, BranchOp.Check(step, input, front, layout, contextOk));
    }

    /** Reuse the middle residual, with the forecast on top. */
    method ApplyCachedMiddle(branch: Branch, step: int, front: Tensor) returns (output: Result<Tensor>)
      requires Valid()
      modifies this`forecasts, this`trace
      ensures Valid()
      ensures closed ==> output.Err? && trace == old(trace)
      ensures !closed ==>
                && trace == old(trace)[branch := old(trace)[branch] + [Apply(step, front)]]
                && output == Applied(p, old(states[branch]), old(forecasts[branch]), step, front)
    {
      if closed { return Err; }
      LedOn(p, linear, trace[branch], states[branch], forecasts[branch], Apply(step, front));
      PredictionExists(p, linear, trace[branch], states[branch], forecasts[branch], step, front);
      var forecast;
      output, forecast := ApplyBranch(p, linear, states[branch], forecasts[branch], step, front);
      forecasts := forecasts[branch := forecast];
      Follow(branch, Apply(step, front));
    }

    method RecordMiddleCompute(branch: Branch, step: int, front: Tensor, middle: Tensor) returns (ok: bool)
      requires Valid()
      modifies this`states, this`forecasts, this`trace
      ensures Valid()
      ensures closed ==> !ok && trace == old(trace)
      ensures !closed ==>
                var op := Record(step, front, middle);
                && trace == old(trace)[branch := old(trace)[branch] + [op]]
                && (ok <==> BranchStep(p, old(states[branch]), op).1.Done?)
    {
      if closed { return false; }
      LedOn(p, linear, trace[branch], states[branch], forecasts[branch], Record(step, front, middle));
      PendingHasLayout(p, linear, trace[branch], states[branch], forecasts[branch]);
      var state, forecast, reply := RecordBranch(p, linear, states[branch], forecasts[branch], step, front, middle);
      states, forecasts := states[branch := state], forecasts[branch := forecast];
      ok := reply.Done?;
      Follow(branch, Record(step, front, middle));
    }

    method CompleteStep(branch: Branch, step: int) returns (ok: bool)
      requires Valid()
      modifies this`states, this`trace
      ensures Valid()
      ensures closed ==> !ok && trace == old(trace)
      ensures !closed ==>
                var op := Complete(step);
                && trace == old(trace)[branch := old(trace)[branch] + [op]]
                && (ok <==> BranchStep(p, old(states[branch]), op).1.Done?)
    {
      if closed { return false; }
      LedOn(p, linear, trace[branch], states[branch], forecasts[branch], Complete(step));
      var state, reply := CompleteBranch(p, states[branch], step);
      states := states[branch := state];
      ok := reply.Done?;
      Follow(branch, Complete(step));
    }

    /** `effective_blocks_executed` and `completed_steps` of one branch. */
    method BranchBlocks(branch: Branch) returns (executed: nat, completed: nat)
      requires Valid() && !closed
      ensures executed == ExecutedBlocks(p, BranchRun(p, trace[branch]))
      ensures completed == BranchRun(p, trace[branch]).completedSteps
    {
      assert LedTo(p, linear, trace[branch], states[branch], forecasts[branch]) && Ask(true);
      executed, completed := ExecutedBlocks(p, states[branch]), states[branch].completedSteps;
    }
  }

  lemma {:induction false} WhereABranchIs(c: CacheDitController, branch: Branch)
    requires c.Valid() && !c.closed
    ensures c.states[branch] == BranchRun(c.p, c.trace[branch])
    ensures c.forecasts[branch] == ForecastRun(c.p, c.linear, c.trace[branch])
  {
    assert LedTo(c.p, c.linear, c.trace[branch], c.states[branch], c.forecasts[branch]) && Ask(true);
  }

  // ---- The client -----------------------------------------------------------------

  /** One step of a branch as the client runs it: the calls made, and what comes out. */
  datatype Ran = Ran(ops: seq<BranchOp>, output: Result<Tensor>, decision: Option<Decision>)

  function MiddleOf(p: Params, linear: bool, ops: seq<BranchOp>, blocks: seq<Block>, step: int, front: Tensor, reuse: bool)
    : (BranchOp, Result<Tensor>)
    requires ValidParams(p) && |blocks| == p.totalBlocks
  {
    if reuse then
      (Apply(step, front), Applied(p, BranchRun(p, ops), ForecastRun(p, linear, ops), step, front))
    else
      var middle := RunBlocks(blocks, front, p.frontBlocks, MiddleEnd(p));
      var op := Record(step, front, middle);
      (op, if BranchStep(p, BranchRun(p, ops), op).1.Done? then Ok(middle) else Err)
  }

  function ClientStep(p: Params, linear: bool, ops: seq<BranchOp>, blocks: seq<Block>, step: int, hidden: Tensor, layout: Layout,
                      contextOk: bool): Ran
    requires ValidParams(p) && |blocks| == p.totalBlocks
  {
    var front := RunBlocks(blocks, hidden, 0, p.frontBlocks);
    var check := Check(step, hidden, front, layout, contextOk);
    var reply := BranchStep(p, BranchRun(p, ops), check).1;
    if !reply.Decided? then Ran(ops + [check], Err, None)
    else ClientRest(p, linear, ops + [check], blocks, step, front, reply.decision)
  }

  /** The step after its decision. */
  function ClientRest(p: Params, linear: bool, ops: seq<BranchOp>, blocks: seq<Block>, step: int, front: Tensor, decision: Decision): Ran
    requires ValidParams(p) && |blocks| == p.totalBlocks
  {
    var (op, middle) := MiddleOf(p, linear, ops, blocks, step, front, decision.reuse);
    if middle.Err? then Ran(ops + [op], Err, Some(decision))
    else
      var done := BranchStep(p, BranchRun(p, ops + [op]), Complete(step)).1.Done?;
      Ran(ops + [op] + [Complete(step)],
          if done then Ok(RunBlocks(blocks, middle.value, MiddleEnd(p), p.totalBlocks)) else Err,
          Some(decision))
  }

  /** One denoising step of a branch through the cache. */
  method RunStep(c: CacheDitController, branch: Branch, step: int, hidden: Tensor, blocks: seq<Block>, layout: Layout, contextOk: bool)
    returns (output: Result<Tensor>, decision: Option<Decision>)
    requires c.Valid() && |blocks| == c.p.totalBlocks
    modifies c`states, c`forecasts, c`trace
    ensures c.Valid()
    ensures c.closed ==> output.Err? && c.trace == old(c.trace)
    ensures !c.closed ==>
              Ran(c.trace[branch], output, decision)
              == ClientStep(c.p, c.linear, old(c.trace[branch]), blocks, step, hidden, layout, contextOk)
  {
    if !c.closed { WhereABranchIs(c, branch); }
    var front := RunBlocks(blocks, hidden, 0, c.p.frontBlocks);
    var reply := c.Check(branch, step, hidden, front, layout, contextOk);
    if !reply.Decided? { return Err, None; }
    decision := Some(reply.decision);
    output := RunRest(c, branch, step, front, blocks, reply.decision);
  }

  method RunRest(c: CacheDitController, branch: Branch, step: int, front: Tensor, blocks: seq<Block>, decision: Decision)
    returns (output: Result<Tensor>)
    requires c.Valid() && !c.closed && |blocks| == c.p.totalBlocks
    modifies c`states, c`forecasts, c`trace
    ensures c.Valid()
    ensures Ran(c.trace[branch], output, Some(decision))
         == ClientRest(c.p, c.linear, old(c.trace[branch]), blocks, step, front, decision)
  {
    var middle := RunMiddle(c, branch, step, front, blocks, decision.reuse);
    if middle.Err? { return Err; }
    var result := RunBlocks(blocks, middle.value, MiddleEnd(c.p), |blocks|);
    WhereABranchIs(c, branch);
    var completed := c.CompleteStep(branch, step);
    output := if completed then Ok(result) else Err;
  }

  method RunMiddle(c: CacheDitController, branch: Branch, step: int, front: Tensor, blocks: seq<Block>, reuse: bool)
    returns (middle: Result<Tensor>)
    requires c.Valid() && !c.closed && |blocks| == c.p.totalBlocks
    modifies c`states, c`forecasts, c`trace
    ensures c.Valid()
    ensures var (op, expected) := MiddleOf(c.p, c.linear, old(c.trace[branch]), blocks, step, front, reuse);
            c.trace[branch] == old(c.trace[branch]) + [op] && middle == expected
  {
    WhereABranchIs(c, branch);
    if reuse {
      middle := c.ApplyCachedMiddle(branch, step, front);
    } else {
      var computed := RunBlocks(blocks, front, c.p.frontBlocks, MiddleEnd(c.p));
      var recorded := c.RecordMiddleCompute(branch, step, front, computed);
      middle := if recorded then Ok(computed) else Err;
    }
  }

  /** A step whose middle was computed gives exactly what the uncached blocks give. */
  lemma {:induction false} ComputedIsUncached(p: Params, linear: bool, ops: seq<BranchOp>, blocks: seq<Block>, step: int,
                                              hidden: Tensor, layout: Layout, contextOk: bool)
    requires ValidParams(p) && |blocks| == p.totalBlocks
    ensures var ran := ClientStep(p, linear, ops, blocks, step, hidden, layout, contextOk);
            ran.output.Ok? && !ran.decision.value.reuse ==> ran.output.value == RunBlocks(blocks, hidden, 0, |blocks|)
  {
    RunInParts(blocks, hidden, 0, p.frontBlocks, MiddleEnd(p));
    RunInParts(blocks, hidden, 0, MiddleEnd(p), |blocks|);
  }

  /** What a reused middle is: the front's output with the last computed residual, and the forecast on top. */
  function ReusedMiddle(p: Params, linear: bool, ops: seq<BranchOp>, step: int, front: Tensor): Result<Tensor> {
    var computes := ComputesOf(p, ops);
    if computes == [] || |computes[|computes| - 1].residual| != |front| then Err
    else F.Predict(ForecastRun(p, linear, ops), step, Add(front, computes[|computes| - 1].residual))
  }

  lemma {:induction false} CheckIsNoCompute(p: Params, linear: bool, ops: seq<BranchOp>, op: BranchOp)
    requires op.Check?
    ensures ComputesOf(p, ops + [op]) == ComputesOf(p, ops) && ForecastRun(p, linear, ops + [op]) == ForecastRun(p, linear, ops)
  {
    RunSnoc(p, linear, ops, op);
    assert (ops + [op])[..|ops|] == ops;
  }

  lemma {:induction false} AppliedIsReused(p: Params, linear: bool, ops: seq<BranchOp>, check: BranchOp, front: Tensor)
    requires ValidParams(p) && check.Check?
    requires BranchStep(p, BranchRun(p, ops), check).1.Decided? && BranchStep(p, BranchRun(p, ops), check).1.decision.reuse
    ensures var after := ops + [check];
            && Applied(p, BranchRun(p, after), ForecastRun(p, linear, after), check.step, front) == ReusedMiddle(p, linear, ops, check.step, front)
            && (ReusedMiddle(p, linear, ops, check.step, front).Ok? <==>
                  ComputesOf(p, ops) != [] && |ComputesOf(p, ops)[|ComputesOf(p, ops)| - 1].residual| == |front|)
            && BranchStep(p, BranchStep(p, BranchRun(p, after), Apply(check.step, front)).0, Complete(check.step)).1.Done?
  {
    var after := ops + [check];
    AnswerIsCarriedOut(p, ops, check, front, front);
    RunSnoc(p, linear, ops, check);
    CheckIsNoCompute(p, linear, ops, check);
    var op := Apply(check.step, front);
    if BranchStep(p, BranchRun(p, after), op).1.Output? { ForecastIsBounded(p, linear, after, op); }
  }

  /** The calls of a step whose middle is reused, and its output. */
  function ReusedRan(p: Params, blocks: seq<Block>, calls: seq<BranchOp>, step: int, front: Tensor, middle: Result<Tensor>, decision: Decision): Ran
    requires ValidParams(p) && |blocks| == p.totalBlocks
  {
    if middle.Err? then Ran(calls + [Apply(step, front)], Err, Some(decision))
    else Ran(calls + [Apply(step, front)] + [Complete(step)], Ok(RunBlocks(blocks, middle.value, MiddleEnd(p), |blocks|)), Some(decision))
  }

  lemma {:induction false} ReusedRest(p: Params, linear: bool, ops: seq<BranchOp>, blocks: seq<Block>, check: BranchOp, front: Tensor)
    requires ValidParams(p) && |blocks| == p.totalBlocks && check.Check?
    requires BranchStep(p, BranchRun(p, ops), check).1.Decided? && BranchStep(p, BranchRun(p, ops), check).1.decision.reuse
    ensures var decision := BranchStep(p, BranchRun(p, ops), check).1.decision;
            ClientRest(p, linear, ops + [check], blocks, check.step, front, decision)
            == ReusedRan(p, blocks, ops + [check], check.step, front, ReusedMiddle(p, linear, ops, check.step, front), decision)
  {
    AppliedIsReused(p, linear, ops, check, front);
    RunSnoc(p, linear, ops + [check], Apply(check.step, front));
  }

  /**
   * A step whose middle is reused runs the front and the back blocks, and between them adds
   * the last computed residual with its forecast; only a residual of another shape stops it.
   */
  lemma {:induction false} ReusedStep(p: Params, linear: bool, ops: seq<BranchOp>, blocks: seq<Block>, step: int, hidden: Tensor,
                                      layout: Layout, contextOk: bool)
    requires ValidParams(p) && |blocks| == p.totalBlocks
    ensures var ran := ClientStep(p, linear, ops, blocks, step, hidden, layout, contextOk);
            ran.decision.Some? && ran.decision.value.reuse ==>
              var front := RunBlocks(blocks, hidden, 0, p.frontBlocks);
              ran == ReusedRan(p, blocks, ops + [Check(step, hidden, front, layout, contextOk)], step, front,
                               ReusedMiddle(p, linear, ops, step, front), ran.decision.value)
  {
    var front := RunBlocks(blocks, hidden, 0, p.frontBlocks);
    var check := Check(step, hidden, front, layout, contextOk);
    var reply := BranchStep(p, BranchRun(p, ops), check).1;
    if reply.Decided? && reply.decision.reuse {
      ReusedRest(p, linear, ops, blocks, check, front);
    }
  }

  /** The rest of a step that computes its middle. */
  lemma {:induction false} ComputedRest(p: Params, linear: bool, ops: seq<BranchOp>, blocks: seq<Block>, check: BranchOp, front: Tensor)
    requires ValidParams(p) && |blocks| == p.totalBlocks && KeepShapes(blocks) && check.Check?
    requires BranchStep(p, BranchRun(p, ops), check).1.Decided? && !BranchStep(p, BranchRun(p, ops), check).1.decision.reuse
    ensures var decision := BranchStep(p, BranchRun(p, ops), check).1.decision;
            var (ran, middle) := (ClientRest(p, linear, ops + [check], blocks, check.step, front, decision),
                                  RunBlocks(blocks, front, p.frontBlocks, MiddleEnd(p)));
            && ran.ops == ops + [check] + [Record(check.step, front, middle)] + [Complete(check.step)]
            && ran.output.Ok? && ran.decision == Some(decision)
  {
    var middle := RunBlocks(blocks, front, p.frontBlocks, MiddleEnd(p));
    ShapeIsKept(blocks, front, p.frontBlocks, MiddleEnd(p));
    AnswerIsCarriedOut(p, ops, check, front, middle);
    RunSnoc(p, linear, ops, check);
    RunSnoc(p, linear, ops + [check], Record(check.step, front, middle));
  }

  /** A step that computes its middle calls `check`, `record` and `complete` once each and succeeds. */
  lemma {:induction false} ComputedStep(p: Params, linear: bool, ops: seq<BranchOp>, blocks: seq<Block>, step: int, hidden: Tensor,
                                        layout: Layout, contextOk: bool)
    requires ValidParams(p) && |blocks| == p.totalBlocks && KeepShapes(blocks)
    ensures var ran := ClientStep(p, linear, ops, blocks, step, hidden, layout, contextOk);
            ran.decision.Some? && !ran.decision.value.reuse ==>
              var front := RunBlocks(blocks, hidden, 0, p.frontBlocks);
              && ran.output == Ok(RunBlocks(blocks, hidden, 0, |blocks|))
              && ran.ops == ops + [Check(step, hidden, front, layout, contextOk)]
                            + [Record(step, front, RunBlocks(blocks, hidden, 0, MiddleEnd(p)))] + [Complete(step)]
  {
    var front := RunBlocks(blocks, hidden, 0, p.frontBlocks);
    var check := Check(step, hidden, front, layout, contextOk);
    var reply := BranchStep(p, BranchRun(p, ops), check).1;
    if reply.Decided? && !reply.decision.reuse {
      ComputedRest(p, linear, ops, blocks, check, front);
      RunInParts(blocks, hidden, 0, p.frontBlocks, MiddleEnd(p));
      ComputedIsUncached(p, linear, ops, blocks, step, hidden, layout, contextOk);
    }
  }

  // ---- Runs of client steps -----------------------------------------------------------

  datatype Call = Call(step: int, hidden: Tensor, layout: Layout, contextOk: bool)

  /** The calls a branch has seen after a list of client steps. */
  function OpsAfter(p: Params, linear: bool, ops: seq<BranchOp>, blocks: seq<Block>, calls: seq<Call>): seq<BranchOp>
    requires ValidParams(p) && |blocks| == p.totalBlocks
  {
    if calls == [] then ops
    else
      var (before, call) := (calls[..|calls| - 1], calls[|calls| - 1]);
      ClientStep(p, linear, OpsAfter(p, linear, ops, blocks, before), blocks, call.step, call.hidden, call.layout, call.contextOk).ops
  }

  /** What client step `i` of the list does. */
  function RanAt(p: Params, linear: bool, ops: seq<BranchOp>, blocks: seq<Block>, calls: seq<Call>, i: nat): Ran
    requires ValidParams(p) && |blocks| == p.totalBlocks && i < |calls|
  {
    ClientStep(p, linear, OpsAfter(p, linear, ops, blocks, calls[..i]), blocks, calls[i].step, calls[i].hidden, calls[i].layout,
               calls[i].contextOk)
  }

  predicate Computed(ran: Ran) {
    ran.output.Ok? && ran.decision.Some? && !ran.decision.value.reuse
  }

  /**
   * In every run of client steps, from any state and with any steps and layouts, each
   * step that succeeds on a computed decision gives exactly what the uncached blocks give.
   */
  lemma {:induction false} ComputedRunIsUncached(p: Params, linear: bool, ops: seq<BranchOp>, blocks: seq<Block>, calls: seq<Call>)
    requires ValidParams(p) && |blocks| == p.totalBlocks
    ensures forall i: nat | i < |calls| && Computed(RanAt(p, linear, ops, blocks, calls, i)) ::
              RanAt(p, linear, ops, blocks, calls, i).output.value == RunBlocks(blocks, calls[i].hidden, 0, |blocks|)
  {
    forall i: nat | i < |calls| && Computed(RanAt(p, linear, ops, blocks, calls, i))
      ensures RanAt(p, linear, ops, blocks, calls, i).output.value == RunBlocks(blocks, calls[i].hidden, 0, |blocks|)
    {
      ComputedIsUncached(p, linear, OpsAfter(p, linear, ops, blocks, calls[..i]), blocks, calls[i].step, calls[i].hidden,
                         calls[i].layout, calls[i].contextOk);
    }
  }

  lemma {:induction false} OneMoreStep(p: Params, linear: bool, ops: seq<BranchOp>, blocks: seq<Block>, calls: seq<Call>, i: nat)
    requires ValidParams(p) && |blocks| == p.totalBlocks && i < |calls|
    ensures OpsAfter(p, linear, ops, blocks, calls[..i + 1]) == RanAt(p, linear, ops, blocks, calls, i).ops
  {
    assert calls[..i + 1][..i] == calls[..i] && calls[..i + 1][i] == calls[i];
  }

  /** The outputs and decisions are those of the first client steps. */
  predicate AsRan(p: Params, linear: bool, ops: seq<BranchOp>, blocks: seq<Block>, calls: seq<Call>,
                  outputs: seq<Result<Tensor>>, decisions: seq<Option<Decision>>)
    requires ValidParams(p) && |blocks| == p.totalBlocks
  {
    && |outputs| == |decisions| <= |calls|
    && forall i: nat | i < |outputs| :: StepAsRan(RanAt(p, linear, ops, blocks, calls, i), outputs[i], decisions[i])
  }

  predicate StepAsRan(ran: Ran, output: Result<Tensor>, decision: Option<Decision>) {
    output == ran.output && decision == ran.decision
  }

  lemma {:induction false} OneMoreAsRan(p: Params, linear: bool, ops: seq<BranchOp>, blocks: seq<Block>, calls: seq<Call>,
                                        outputs: seq<Result<Tensor>>, decisions: seq<Option<Decision>>,
                                        output: Result<Tensor>, decision: Option<Decision>)
    requires ValidParams(p) && |blocks| == p.totalBlocks && AsRan(p, linear, ops, blocks, calls, outputs, decisions)
    requires |outputs| < |calls| && StepAsRan(RanAt(p, linear, ops, blocks, calls, |outputs|), output, decision)
    ensures AsRan(p, linear, ops, blocks, calls, outputs + [output], decisions + [decision])
  {
    var (more, all) := (outputs + [output], decisions + [decision]);
    forall i: nat | i < |more| ensures StepAsRan(RanAt(p, linear, ops, blocks, calls, i), more[i], all[i]) {
      if i < |outputs| { assert StepAsRan(RanAt(p, linear, ops, blocks, calls, i), outputs[i], decisions[i]); }
    }
  }

  /** Step `k` of a list, after those before it. */
  method RunOne(c: CacheDitController, branch: Branch, ghost ops: seq<BranchOp>, calls: seq<Call>, k: nat, blocks: seq<Block>,
                before: seq<Result<Tensor>>, decided: seq<Option<Decision>>)
    returns (outputs: seq<Result<Tensor>>, decisions: seq<Option<Decision>>)
    requires c.Valid() && !c.closed && |blocks| == c.p.totalBlocks && k < |calls|
    requires c.trace[branch] == OpsAfter(c.p, c.linear, ops, blocks, calls[..k])
    requires |before| == k && AsRan(c.p, c.linear, ops, blocks, calls, before, decided)
    modifies c`states, c`forecasts, c`trace
    ensures c.Valid() && c.trace[branch] == OpsAfter(c.p, c.linear, ops, blocks, calls[..k + 1])
    ensures |outputs| == k + 1 && AsRan(c.p, c.linear, ops, blocks, calls, outputs, decisions)
  {
    ghost var ran := RanAt(c.p, c.linear, ops, blocks, calls, k);
    OneMoreStep(c.p, c.linear, ops, blocks, calls, k);
    var output, decision := RunStep(c, branch, calls[k].step, calls[k].hidden, blocks, calls[k].layout, calls[k].contextOk);
    assert Ran(c.trace[branch], output, decision) == ran;
    OneMoreAsRan(c.p, c.linear, ops, blocks, calls, before, decided, output, decision);
    outputs, decisions := before + [output], decided + [decision];
  }

  /** Any list of client steps on one branch. */
  method RunWindow(c: CacheDitController, branch: Branch, calls: seq<Call>, blocks: seq<Block>)
    returns (outputs: seq<Result<Tensor>>, decisions: seq<Option<Decision>>)
    requires c.Valid() && !c.closed && |blocks| == c.p.totalBlocks
    modifies c`states, c`forecasts, c`trace
    ensures c.Valid() && c.trace[branch] == OpsAfter(c.p, c.linear, old(c.trace[branch]), blocks, calls)
    ensures |outputs| == |calls| && AsRan(c.p, c.linear, old(c.trace[branch]), blocks, calls, outputs, decisions)
  {
    ghost var ops := c.trace[branch];
    outputs, decisions := [], [];
    for k := 0 to |calls|
      invariant c.Valid() && c.trace[branch] == OpsAfter(c.p, c.linear, ops, blocks, calls[..k])
      invariant |outputs| == k && AsRan(c.p, c.linear, ops, blocks, calls, outputs, decisions)
    {
      outputs, decisions := RunOne(c, branch, ops, calls, k, blocks, outputs, decisions);
    }
    assert calls[..|calls|] == calls;
  }

  /** What such a run returns on computed steps is what the uncached blocks return. */
  lemma {:induction false} ComputedOutputs(p: Params, linear: bool, ops: seq<BranchOp>, blocks: seq<Block>, calls: seq<Call>,
                                           outputs: seq<Result<Tensor>>, decisions: seq<Option<Decision>>)
    requires ValidParams(p) && |blocks| == p.totalBlocks && AsRan(p, linear, ops, blocks, calls, outputs, decisions)
    ensures forall i: nat | i < |outputs| && outputs[i].Ok? && decisions[i].Some? && !decisions[i].value.reuse ::
              outputs[i].value == RunBlocks(blocks, calls[i].hidden, 0, |blocks|)
  {
    ComputedRunIsUncached(p, linear, ops, blocks, calls);
    forall i: nat | i < |outputs| && outputs[i].Ok? && decisions[i].Some? && !decisions[i].value.reuse
      ensures outputs[i].value == RunBlocks(blocks, calls[i].hidden, 0, |blocks|)
    {
      assert StepAsRan(RanAt(p, linear, ops, blocks, calls, i), outputs[i], decisions[i]);
    }
  }

  /** The step must be computed, and nothing stands in the way of checking it. */
  predicate Forced(p: Params, st: BranchState, step: int, layout: Layout) {
    0 <= step < p.totalSteps && st.pending.None? && ForcedReason(p, st, step, layout).Some?
  }

  lemma {:induction false} WarmupForces(p: Params, st: BranchState, step: int, layout: Layout)
    requires 0 <= step < p.totalSteps <= p.warmupSteps && st.pending.None?
    ensures Forced(p, st, step, layout)
  {}

  predicate Computes(before: BranchState, after: BranchState) {
    && after.pending.None?
    && after.computedMiddleSteps == before.computedMiddleSteps + 1
    && after.cachedMiddleSteps == before.cachedMiddleSteps
  }

  lemma {:induction false} ForcedCalls(p: Params, st: BranchState, step: int, hidden: Tensor, front: Tensor, middle: Tensor, layout: Layout)
    requires Forced(p, st, step, layout) && |hidden| == |front| == |middle|
    ensures var (checked, reply) := BranchStep(p, st, Check(step, hidden, front, layout, true));
            && reply.Decided? && !reply.decision.reuse
            && var (recorded, done) := BranchStep(p, checked, Record(step, front, middle));
            && done.Done?
            && var (completed, end) := BranchStep(p, recorded, Complete(step));
            end.Done? && Computes(st, completed)
  {}

  /** A forced step succeeds, is computed, and counts as such. */
  lemma {:induction false} ForcedIsComputed(p: Params, linear: bool, ops: seq<BranchOp>, blocks: seq<Block>, step: int,
                                            hidden: Tensor, layout: Layout)
    requires ValidParams(p) && |blocks| == p.totalBlocks && KeepShapes(blocks)
    requires Forced(p, BranchRun(p, ops), step, layout)
    ensures var ran := ClientStep(p, linear, ops, blocks, step, hidden, layout, true);
            && ran.output == Ok(RunBlocks(blocks, hidden, 0, |blocks|))
            && Computes(BranchRun(p, ops), BranchRun(p, ran.ops))
  {
    var front := RunBlocks(blocks, hidden, 0, p.frontBlocks);
    var middle := RunBlocks(blocks, front, p.frontBlocks, MiddleEnd(p));
    ShapeIsKept(blocks, hidden, 0, p.frontBlocks);
    ShapeIsKept(blocks, front, p.frontBlocks, MiddleEnd(p));
    ForcedCalls(p, BranchRun(p, ops), step, hidden, front, middle, layout);
    var (check, record) := (Check(step, hidden, front, layout, true), Record(step, front, middle));
    RunSnoc(p, linear, ops, check);
    RunSnoc(p, linear, ops + [check], record);
    RunSnoc(p, linear, ops + [check] + [record], Complete(step));
    ComputedIsUncached(p, linear, ops, blocks, step, hidden, layout, true);
  }

  method RunForcedStep(c: CacheDitController, branch: Branch, step: int, hidden: Tensor, blocks: seq<Block>, layout: Layout)
    returns (output: Tensor)
    requires c.Valid() && !c.closed && |blocks| == c.p.totalBlocks && KeepShapes(blocks)
    requires Forced(c.p, BranchRun(c.p, c.trace[branch]), step, layout)
    modifies c`states, c`forecasts, c`trace
    ensures c.Valid() && output == RunBlocks(blocks, hidden, 0, |blocks|)
    ensures Computes(BranchRun(c.p, old(c.trace[branch])), BranchRun(c.p, c.trace[branch]))
  {
    ForcedIsComputed(c.p, c.linear, c.trace[branch], blocks, step, hidden, layout);
    var result, decision := RunStep(c, branch, step, hidden, blocks, layout, true);
    output := result.value;
  }

  ghost predicate ComputedOnly(c: CacheDitController, branch: Branch, steps: nat)
    reads c
  {
    && c.Valid() && !c.closed
    && var st := BranchRun(c.p, c.trace[branch]);
       st.pending.None? && st.computedMiddleSteps == steps && st.cachedMiddleSteps == 0
  }

  /**
   * A window that must compute every step, as `force_compute` arranges it by a
   * warm-up over all steps, gives exactly what the uncached blocks give.
   */
  method RunForcedWindow(c: CacheDitController, branch: Branch, inputs: seq<Tensor>, layouts: seq<Layout>, blocks: seq<Block>)
    returns (outputs: seq<Tensor>)
    requires ComputedOnly(c, branch, 0)
    requires |blocks| == c.p.totalBlocks && KeepShapes(blocks)
    requires |layouts| == |inputs| == c.p.totalSteps <= c.p.warmupSteps
    modifies c`states, c`forecasts, c`trace
    ensures ComputedOnly(c, branch, |inputs|)
    ensures |outputs| == |inputs| && forall i | 0 <= i < |inputs| :: outputs[i] == RunBlocks(blocks, inputs[i], 0, |blocks|)
  {
    outputs := [];
    for step := 0 to |inputs|
      invariant ComputedOnly(c, branch, step)
      invariant |outputs| == step && forall i | 0 <= i < step :: outputs[i] == RunBlocks(blocks, inputs[i], 0, |blocks|)
    {
      WarmupForces(c.p, BranchRun(c.p, c.trace[branch]), step, layouts[step]);
      var output := RunForcedStep(c, branch, step, inputs[step], blocks, layouts[step]);
      outputs := outputs + [output];
    }
  }
}
