/**
 * The predictors of a group of EraserDiT TeaCache controllers, beside the states that
 * run in lockstep: every rank's predictor is its shard of the one controller's.
 */
module LockstepForecasts {
  import opened Wrappers
  import opened Tensors
  import opened Consensus
  import opened Shards
  import opened TeaCache
  import opened Lockstep
  import opened ForecastShards
  import T = TeaController

  /** The predictors after a call: a check does not touch them. */
  function GroupForecasts(p: Params, linear: bool, states: seq<BranchState>, parts: seq<F.State>, op: GroupOp): (after: seq<F.State>)
    requires Sized(op, |states|) && |parts| == |states|
    ensures |after| == |parts|
  {
    if op.Check? then parts
    else seq(|parts|, k requires 0 <= k < |parts| => T.ForecastStep(p, linear, states[k], parts[k], RankOp(op, k)))
  }

  /** The predictor knows the layout of the branch's last completed step. */
  predicate Tied(whole: BranchState, f: F.State) {
    f.layout.Some? ==> f.layout == whole.previousLayout
  }

  predicate PredictorsInStep(split: Split, whole: BranchState, f: F.State, parts: seq<F.State>) {
    Tied(whole, f) && ForecastsInStep(split, f, parts)
  }

  function Residuals(states: seq<BranchState>): (residuals: seq<Option<Tensor>>)
    ensures |residuals| == |states|
  {
    seq(|states|, k requires 0 <= k < |states| => states[k].previousResidual)
  }

  // ---- One call -------------------------------------------------------------------------

  lemma {:induction false} CheckPredictors(p: Params, linear: bool, split: Split, whole: BranchState, f: F.State,
                                           parts: seq<F.State>, op: GroupOp)
    requires op.Check? && PredictorsInStep(split, whole, f, parts)
    ensures PredictorsInStep(split, CheckStep(p, whole, WholeOp(op)).0, T.ForecastStep(p, linear, whole, f, WholeOp(op)), parts)
  {}

  /** A call that raises on all ranks leaves all predictors. */
  lemma {:induction false} RaisedPredictors(p: Params, linear: bool, states: seq<BranchState>, parts: seq<F.State>, op: GroupOp)
    requires !op.Check? && Sized(op, |states|) && |parts| == |states|
    requires forall k | 0 <= k < |states| :: BranchStep(p, states[k], RankOp(op, k)).1.Raised?
    ensures GroupForecasts(p, linear, states, parts, op) == parts
  {}

  lemma {:induction false} RankRecords(p: Params, linear: bool, split: Split, whole: BranchState, st: BranchState, part: F.State, k: nat,
                                       step: int, input: Tensor, hidden: Tensor, output: Tensor)
    requires SameState(split, whole, st, k) && |hidden| == |output|
    requires whole.pending.Some? && !whole.pending.value.shouldSkip && whole.pendingStep == Some(step) && whole.pendingLayout.Some?
    ensures T.ForecastStep(p, linear, st, part, BranchOp.Record(step, input, hidden, output))
         == F.Learn(part, linear, step, st.previousResidual, Sub(output, hidden), T.Breaks(whole.pending.value.reason),
                    split.rankLayout(k, whole.pendingLayout.value))
  {}

  /** A record that the whole controller accepts. */
  predicate Records(whole: BranchState, op: GroupOp) {
    op.Record? && whole.pending.Some? && !whole.pending.value.shouldSkip && whole.pendingStep == Some(op.step)
  }

  lemma {:induction false} RecordPredictors(p: Params, linear: bool, split: Split, whole: BranchState, states: seq<BranchState>,
                                            f: F.State, parts: seq<F.State>, op: GroupOp)
    requires ValidSplit(split) && InLockstep(split, whole, states) && WellSplit(split, whole, op) && Records(whole, op)
    requires Sized(op, |states|) && whole.pendingLayout.Some? && PredictorsInStep(split, whole, f, parts)
    ensures PredictorsInStep(split, RecordStep(p, whole, WholeOp(op)).0, T.ForecastStep(p, linear, whole, f, WholeOp(op)),
                             GroupForecasts(p, linear, states, parts, op))
  {
    var layout := whole.pendingLayout.value;
    var residuals := RecordedShards(split, layout, op);
    var broken := T.Breaks(whole.pending.value.reason);
    assert Values(Residuals(states)) == PreviousResiduals(states);
    forall k | 0 <= k < |states| ensures Residuals(states)[k].Some? == whole.previousResidual.Some? {
      assert SameState(split, whole, states[k], k);
    }
    LearnInStep(split, f, parts, linear, op.step, whole.previousResidual, Residuals(states), residuals, broken, layout);
    forall k | 0 <= k < |parts|
      ensures GroupForecasts(p, linear, states, parts, op)[k]
           == LearnAll(split, parts, linear, op.step, Residuals(states), residuals, broken, layout)[k]
    {
      assert SameState(split, whole, states[k], k);
      RankRecords(p, linear, split, whole, states[k], parts[k], k, op.step, op.inputs[k], op.hiddens[k], op.outputs[k]);
    }
    assert GroupForecasts(p, linear, states, parts, op)
        == LearnAll(split, parts, linear, op.step, Residuals(states), residuals, broken, layout);
  }

  /** The recorded residuals of the ranks are the shards of the whole one. */
  lemma {:induction false} RecordedShards(split: Split, layout: Layout, op: GroupOp) returns (residuals: seq<Tensor>)
    requires op.Record? && ShardedAs(split, layout, op.hiddens) && ShardedAs(split, layout, op.outputs)
    ensures SameShapes(op.outputs, op.hiddens) && residuals == SubAll(op.outputs, op.hiddens)
    ensures ShardedAs(split, layout, residuals)
    ensures |Concat(op.outputs)| == |Concat(op.hiddens)| && Concat(residuals) == Sub(Concat(op.outputs), Concat(op.hiddens))
  {
    ShardsAlike(split, layout, op.outputs, op.hiddens);
    ConcatSub(op.outputs, op.hiddens);
    residuals := SubAll(op.outputs, op.hiddens);
  }

  predicate Reuses(whole: BranchState, op: GroupOp) {
    && op.Apply? && whole.pending.Some? && whole.pending.value.shouldSkip && whole.pendingStep == Some(op.step)
    && whole.previousResidual.Some? && whole.pendingLayout.Some? && whole.pendingLayout == whole.previousLayout
  }

  /** What the ranks and the one controller give without the forecast. */
  lemma {:induction false} ReusedShards(p: Params, split: Split, whole: BranchState, states: seq<BranchState>, op: GroupOp)
    returns (plain: seq<Tensor>)
    requires InLockstep(split, whole, states) && WellSplit(split, whole, op) && Reuses(whole, op) && Sized(op, |states|)
    ensures ShardedAs(split, whole.pendingLayout.value, plain)
    ensures ApplyStep(p, whole, WholeOp(op)).1 == Output(Concat(plain))
    ensures forall k | 0 <= k < |states| :: BranchStep(p, states[k], RankOp(op, k)).1 == Output(plain[k])
  {
    ShardsAlike(split, whole.pendingLayout.value, op.hiddens, PreviousResiduals(states));
    ConcatAdd(op.hiddens, PreviousResiduals(states));
    plain := AddAll(op.hiddens, PreviousResiduals(states));
    forall k | 0 <= k < |states| ensures BranchStep(p, states[k], RankOp(op, k)).1 == Output(plain[k]) {
      assert SameState(split, whole, states[k], k);
      assert |PreviousResiduals(states)[k]| == |op.hiddens[k]|;
    }
  }

  lemma {:induction false} ApplyPredictors(p: Params, linear: bool, split: Split, whole: BranchState, states: seq<BranchState>,
                                           f: F.State, parts: seq<F.State>, op: GroupOp)
    requires InLockstep(split, whole, states) && WellSplit(split, whole, op) && Reuses(whole, op) && Sized(op, |states|)
    requires PredictorsInStep(split, whole, f, parts)
    ensures PredictorsInStep(split, ApplyStep(p, whole, WholeOp(op)).0, T.ForecastStep(p, linear, whole, f, WholeOp(op)),
                             GroupForecasts(p, linear, states, parts, op))
    ensures ForecastsAsOne(p, whole, states, f, parts, op)
  {
    var plain := ReusedShards(p, split, whole, states, op);
    PredictInStep(split, f, parts, op.step, whole.pendingLayout.value, plain);
    var predicted := PredictAll(parts, op.step, plain);
    forall k | 0 <= k < |parts| ensures GroupForecasts(p, linear, states, parts, op)[k] == AfterPredictAll(parts)[k] {
      assert predicted[k].Ok?;
    }
    assert GroupForecasts(p, linear, states, parts, op) == AfterPredictAll(parts);
    forall k | 0 <= k < |parts| ensures Forecasted(p, states, parts, op)[k] == predicted[k] {}
    assert Forecasted(p, states, parts, op) == predicted;
  }

  /** What the ranks return from a reuse, with the forecast on top. */
  function Forecasted(p: Params, states: seq<BranchState>, parts: seq<F.State>, op: GroupOp): (outputs: seq<Result<Tensor>>)
    requires op.Apply? && Sized(op, |states|) && |parts| == |states|
    ensures |outputs| == |parts|
  {
    seq(|parts|, k requires 0 <= k < |parts| => T.Applied(p, states[k], parts[k], RankOp(op, k)))
  }

  /** They are the shards of what the one controller returns. */
  predicate ForecastsAsOne(p: Params, whole: BranchState, states: seq<BranchState>, f: F.State, parts: seq<F.State>, op: GroupOp)
    requires op.Apply? && Sized(op, |states|) && |parts| == |states|
  {
    var (whole', ranks) := (T.Applied(p, whole, f, WholeOp(op)), Forecasted(p, states, parts, op));
    && whole'.Ok? && AllSucceed(ranks) && Concat(Oks(ranks)) == whole'.value
  }

  /** A reuse or record that the whole controller refuses is refused on every rank. */
  lemma {:induction false} RefusedPredictors(p: Params, linear: bool, split: Split, whole: BranchState, states: seq<BranchState>,
                                             f: F.State, parts: seq<F.State>, op: GroupOp)
    requires split.ranks > 0 && InLockstep(split, whole, states) && Sized(op, |states|) && !op.Check?
    requires !Records(whole, op) && !Reuses(whole, op)
    requires whole.pending.Some? && whole.pending.value.shouldSkip ==>
               whole.pendingLayout.Some? && whole.pendingLayout == whole.previousLayout
    requires PredictorsInStep(split, whole, f, parts)
    ensures PredictorsInStep(split, BranchStep(p, whole, WholeOp(op)).0, T.ForecastStep(p, linear, whole, f, WholeOp(op)),
                             GroupForecasts(p, linear, states, parts, op))
  {
    forall k | 0 <= k < |states| ensures BranchStep(p, states[k], RankOp(op, k)).1.Raised? {
      assert SameState(split, whole, states[k], k);
    }
    RaisedPredictors(p, linear, states, parts, op);
  }

  lemma {:induction false} StepPredictors(p: Params, linear: bool, split: Split, whole: BranchState, h: seq<Event>,
                                          states: seq<BranchState>, f: F.State, parts: seq<F.State>, op: GroupOp)
    requires ValidSplit(split) && InLockstep(split, whole, states) && WellSplit(split, whole, op) && Pending(p, whole, h)
    requires PredictorsInStep(split, whole, f, parts)
    ensures Sized(op, |states|)
    ensures PredictorsInStep(split, BranchStep(p, whole, WholeOp(op)).0, T.ForecastStep(p, linear, whole, f, WholeOp(op)),
                             GroupForecasts(p, linear, states, parts, op))
  {
    if op.Check? {
      CheckPredictors(p, linear, split, whole, f, parts, op);
    } else if Records(whole, op) {
      RecordPredictors(p, linear, split, whole, states, f, parts, op);
    } else if Reuses(whole, op) {
      ApplyPredictors(p, linear, split, whole, states, f, parts, op);
    } else {
      RefusedPredictors(p, linear, split, whole, states, f, parts, op);
    }
  }

  // ---- Whole runs -----------------------------------------------------------------------

  /** The group's predictors after a list of calls. */
  function GroupForecastRun(p: Params, linear: bool, split: Split, ops: seq<GroupOp>): Option<seq<F.State>> {
    if ops == [] then Some(seq(split.ranks, _ => F.Fresh()))
    else
      var (before, op) := (ops[..|ops| - 1], ops[|ops| - 1]);
      var (states, parts) := (GroupRun(p, split, before), GroupForecastRun(p, linear, split, before));
      if states.None? || parts.None? || !Sized(op, |states.value|) || |parts.value| != |states.value| then None
      else Some(GroupForecasts(p, linear, states.value, parts.value, op))
  }

  /** Over any list of calls every rank's predictor is its shard of the one controller's predictor. */
  lemma {:induction false} PredictorsStayInStep(p: Params, linear: bool, split: Split, ops: seq<GroupOp>)
    requires ValidParams(p) && ValidSplit(split) && RunWellSplit(p, split, ops)
    ensures GroupForecastRun(p, linear, split, ops).Some?
    ensures PredictorsInStep(split, BranchRun(p, WholeOps(ops)), T.ForecastRun(p, linear, WholeOps(ops)),
                             GroupForecastRun(p, linear, split, ops).value)
  {
    if ops == [] {
      ForecastsStart(split);
    } else {
      var (before, op) := (ops[..|ops| - 1], ops[|ops| - 1]);
      PredictorsStayInStep(p, linear, split, before);
      GroupsStayInLockstep(p, split, before);
      WholeOpsSnoc(ops);
      EveryRunKeepsInv(p, WholeOps(before));
      StepPredictors(p, linear, split, BranchRun(p, WholeOps(before)), History(p, WholeOps(before)), GroupRun(p, split, before).value,
                     T.ForecastRun(p, linear, WholeOps(before)), GroupForecastRun(p, linear, split, before).value, op);
    }
  }

  /** A reuse returns on every rank its shard of the one controller's output, forecast included. */
  lemma {:induction false} GroupsForecastAsOne(p: Params, linear: bool, split: Split, ops: seq<GroupOp>, op: GroupOp)
    requires ValidParams(p) && ValidSplit(split) && RunWellSplit(p, split, ops) && op.Apply?
    requires WellSplit(split, BranchRun(p, WholeOps(ops)), op)
    requires ApplyStep(p, BranchRun(p, WholeOps(ops)), WholeOp(op)).1.Output?
    ensures var (states, parts) := (GroupRun(p, split, ops), GroupForecastRun(p, linear, split, ops));
            && states.Some? && parts.Some? && Sized(op, |states.value|) && |parts.value| == |states.value|
            && ForecastsAsOne(p, BranchRun(p, WholeOps(ops)), states.value, T.ForecastRun(p, linear, WholeOps(ops)), parts.value, op)
  {
    GroupsStayInLockstep(p, split, ops);
    PredictorsStayInStep(p, linear, split, ops);
    EveryRunKeepsInv(p, WholeOps(ops));
    ApplyPredictors(p, linear, split, BranchRun(p, WholeOps(ops)), GroupRun(p, split, ops).value,
                    T.ForecastRun(p, linear, WholeOps(ops)), GroupForecastRun(p, linear, split, ops).value, op);
  }
}
