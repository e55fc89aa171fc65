/**
 * A group of TeaCache controllers, each on its shard of the sequence, against one
 * controller on the whole sequence. The group decides as the whole would, every
 * rank takes part in the same collectives, and the decision test never fires.
 */
module Lockstep {
  import opened Wrappers
  import opened Tensors
  import opened Consensus
  import opened Shards
  import opened TeaCache

  /** One call made on all ranks, with every rank's shard. */
  datatype GroupOp =
    | Check(step: int, inputs: seq<Tensor>, layout: Layout, contextOk: seq<bool>, coefficients: Option<seq<real>>)
    | Apply(step: int, inputs: seq<Tensor>, hiddens: seq<Tensor>)
    | Record(step: int, inputs: seq<Tensor>, hiddens: seq<Tensor>, outputs: seq<Tensor>)

  function WholeOp(op: GroupOp): BranchOp {
    match op
    case Check(step, inputs, layout, contextOk, coefficients) =>
      BranchOp.Check(step, Concat(inputs), layout, AllOk(contextOk), coefficients)
    case Apply(step, inputs, hiddens) => BranchOp.Apply(step, Concat(inputs), Concat(hiddens))
    case Record(step, inputs, hiddens, outputs) => BranchOp.Record(step, Concat(inputs), Concat(hiddens), Concat(outputs))
  }

  /** The shards of a call fit the layout that the call, or the pending step, has. */
  predicate WellSplit(split: Split, whole: BranchState, op: GroupOp) {
    match op
    case Check(_, inputs, layout, contextOk, _) => ShardedAs(split, layout, inputs) && |contextOk| == split.ranks
    case Apply(_, inputs, hiddens) =>
      && |inputs| == |hiddens| == split.ranks
      && (whole.pendingLayout.Some? ==>
            ShardedAs(split, whole.pendingLayout.value, inputs) && ShardedAs(split, whole.pendingLayout.value, hiddens))
    case Record(_, inputs, hiddens, outputs) =>
      && |inputs| == |hiddens| == |outputs| == split.ranks
      && (whole.pendingLayout.Some? ==>
            && ShardedAs(split, whole.pendingLayout.value, inputs) && ShardedAs(split, whole.pendingLayout.value, hiddens)
            && ShardedAs(split, whole.pendingLayout.value, outputs))
  }

  // ---- The group ----------------------------------------------------------------

  datatype GroupResult =
    | Diverged
    | Agreed(states: seq<BranchState>, replies: seq<Reply>, collectives: seq<Collective>)

  function Code(reason: Reason): int {
    match reason
    case CacheHit => 1
    case BeforeMinSkipStep => 2
    case AfterMaxSkipStep => 3
    case FirstBranchStep => 4
    case NonContiguousBranchStep => 5
    case MissingCachedState => 6
    case MaxConsecutiveSkip => 7
    case ThresholdExceeded => 8
    case NonFiniteDistance => 9
    case Calibrate => 10
    case LayoutChanged => 11
  }

  function AllRaised(n: nat): seq<Reply> {
    seq(n, _ => Raised)
  }

  function RankReason(p: Params, split: Split, st: BranchState, k: nat, op: GroupOp): Option<Reason>
    requires op.Check?
  {
    ForcedReason(p, st, op.step, split.rankLayout(k, op.layout))
  }

  /** Does the rank go on to the distance all-reduce? */
  predicate Measures(p: Params, split: Split, st: BranchState, k: nat, op: GroupOp)
    requires op.Check?
  {
    RankReason(p, split, st, k, op).None? && !p.calibrate
  }

  function RankDecision(p: Params, split: Split, st: BranchState, k: nat, op: GroupOp, raw: real): Decision
    requires op.Check? && op.coefficients.Some?
  {
    var reason := RankReason(p, split, st, k, op);
    if reason.Some? then Decision(false, reason.value, 0.0, 0.0)
    else if p.calibrate then Decision(false, Reason.Calibrate, 0.0, 0.0)
    else Judge(p, st, raw, op.coefficients.value)
  }

  function PreviousInputs(states: seq<BranchState>): (parts: seq<Tensor>)
    ensures |parts| == |states|
  {
    seq(|states|, k requires 0 <= k < |states| =>
      if states[k].previousInput.Some? then states[k].previousInput.value else [])
  }

  function Decisions(p: Params, split: Split, states: seq<BranchState>, op: GroupOp, raw: real): (ds: seq<Decision>)
    requires op.Check? && op.coefficients.Some?
    ensures |ds| == |states|
  {
    seq(|states|, k requires 0 <= k < |states| => RankDecision(p, split, states[k], k, op, raw))
  }

  function Codes(ds: seq<Decision>): (codes: seq<int>)
    ensures |codes| == |ds|
  {
    seq(|ds|, k requires 0 <= k < |ds| => Code(ds[k].reason))
  }

  /** Preparing a check may already drop a rank's cached tensors. */
  function Prepared(p: Params, split: Split, states: seq<BranchState>, op: GroupOp): (prepared: seq<BranchState>)
    requires op.Check?
    ensures |prepared| == |states|
  {
    seq(|states|, k requires 0 <= k < |states| =>
      if states[k].pending.Some? || op.coefficients.None? then states[k]
      else AfterForcedReason(states[k], RankReason(p, split, states[k], k, op)))
  }

  function Decided(p: Params, split: Split, states: seq<BranchState>, op: GroupOp, raw: real, before: seq<Collective>): GroupResult
    requires op.Check? && op.coefficients.Some?
  {
    var ds := Decisions(p, split, states, op, raw);
    if !AllEqual(Codes(ds)) then Agreed(Prepared(p, split, states, op), AllRaised(|states|), before + [Moments])
    else Agreed(
      seq(|states|, k requires 0 <= k < |states| =>
        Pend(AfterForcedReason(states[k], RankReason(p, split, states[k], k, op)), ds[k], op.step,
             split.rankLayout(k, op.layout))),
      seq(|ds|, k requires 0 <= k < |ds| => Reply.Decided(ds[k])),
      before + [Moments])
  }

  lemma {:induction false} CodesTellReasons(a: Reason, b: Reason)
    ensures Code(a) == Code(b) <==> a == b
  {}

  /** The decision test lets the decisions pass if and only if all ranks have the same reason. */
  lemma {:induction false} ReasonsAreCompared(p: Params, split: Split, states: seq<BranchState>, op: GroupOp, raw: real, before: seq<Collective>)
    requires op.Check? && op.coefficients.Some?
    ensures var (ds, result) := (Decisions(p, split, states, op, raw), Decided(p, split, states, op, raw, before));
            && result.Agreed? && |result.replies| == |states|
            && if forall j, k | 0 <= j < k < |ds| :: ds[j].reason == ds[k].reason
               then forall k | 0 <= k < |ds| :: result.replies[k] == Reply.Decided(ds[k])
               else forall k | 0 <= k < |ds| :: result.replies[k].Raised?
  {
    var ds := Decisions(p, split, states, op, raw);
    forall j, k | 0 <= j < k < |ds| ensures Codes(ds)[j] == Codes(ds)[k] <==> ds[j].reason == ds[k].reason {
      CodesTellReasons(ds[j].reason, ds[k].reason);
    }
  }

  /** A check on every rank; ranks that take different paths wait for each other for ever. */
  function GroupCheck(p: Params, split: Split, states: seq<BranchState>, op: GroupOp): GroupResult
    requires op.Check? && |op.inputs| == |states|
  {
    if !AllOk(op.contextOk) || !(0 <= op.step < p.totalSteps) then Agreed(states, AllRaised(|states|), [Flag])
    else if op.coefficients.None? || exists k :: 0 <= k < |states| && states[k].pending.Some? then
      Agreed(Prepared(p, split, states, op), AllRaised(|states|), [Flag, Flag])
    else if forall k | 0 <= k < |states| :: !Measures(p, split, states[k], k, op) then
      Decided(p, split, states, op, 0.0, [Flag, Flag])
    else if exists k :: 0 <= k < |states| && !Measures(p, split, states[k], k, op) then Diverged
    else
      var raw := GroupRelativeL1(op.inputs, PreviousInputs(states));
      if raw.Err? then Agreed(states, AllRaised(|states|), [Flag, Flag, Sums])
      else Decided(p, split, states, op, raw.value, [Flag, Flag, Sums])
  }

  /** One rank with an invalid context makes all ranks raise, and changes nothing. */
  lemma {:induction false} InvalidContextRaises(p: Params, split: Split, states: seq<BranchState>, op: GroupOp, k: nat)
    requires op.Check? && |op.inputs| == |states| && k < |op.contextOk| && !op.contextOk[k]
    ensures GroupCheck(p, split, states, op) == Agreed(states, AllRaised(|states|), [Flag])
  {}

  /** A check hangs exactly when one rank goes on to the distance all-reduce and another does not. */
  lemma {:induction false} DivergesExactly(p: Params, split: Split, states: seq<BranchState>, op: GroupOp)
    requires op.Check? && |op.inputs| == |states|
    requires AllOk(op.contextOk) && 0 <= op.step < p.totalSteps && op.coefficients.Some? && forall k | 0 <= k < |states| :: states[k].pending.None?
    ensures GroupCheck(p, split, states, op).Diverged?
            <==> exists j, k :: 0 <= j < |states| && 0 <= k < |states|
                   && Measures(p, split, states[j], j, op) && !Measures(p, split, states[k], k, op)
  {
    if j, k :| 0 <= j < |states| && 0 <= k < |states| && Measures(p, split, states[j], j, op) && !Measures(p, split, states[k], k, op) {
      assert !forall i | 0 <= i < |states| :: !Measures(p, split, states[i], i, op);
    }
  }

  function RankOp(op: GroupOp, k: nat): BranchOp
    requires !op.Check? && k < |op.inputs| && k < |op.hiddens| && (op.Record? ==> k < |op.outputs|)
  {
    match op
    case Apply(step, inputs, hiddens) => BranchOp.Apply(step, inputs[k], hiddens[k])
    case Record(step, inputs, hiddens, outputs) => BranchOp.Record(step, inputs[k], hiddens[k], outputs[k])
  }

  predicate Sized(op: GroupOp, n: nat) {
    && |op.inputs| == n
    && (op.Apply? ==> |op.hiddens| == n)
    && (op.Record? ==> |op.hiddens| == n && |op.outputs| == n)
  }

  /** Reuse and record need no communication. */
  function GroupStep(p: Params, split: Split, states: seq<BranchState>, op: GroupOp): GroupResult
    requires Sized(op, |states|)
  {
    if op.Check? then GroupCheck(p, split, states, op)
    else Agreed(
      seq(|states|, k requires 0 <= k < |states| => BranchStep(p, states[k], RankOp(op, k)).0),
      seq(|states|, k requires 0 <= k < |states| => BranchStep(p, states[k], RankOp(op, k)).1),
      [])
  }

  // ---- The relation ---------------------------------------------------------------

  /** Rank `k` is in the whole controller's decision state. */
  predicate SameState(split: Split, whole: BranchState, st: BranchState, k: nat) {
    && st.previousStep == whole.previousStep
    && st.accumulated == whole.accumulated
    && st.consecutiveSkips == whole.consecutiveSkips
    && st.calcSteps == whole.calcSteps && st.skipSteps == whole.skipSteps && st.forced == whole.forced
    && st.pending == whole.pending && st.pendingStep == whole.pendingStep
    && SameLayout(split, whole.previousLayout, st.previousLayout, k)
    && SameLayout(split, whole.pendingLayout, st.pendingLayout, k)
    && st.previousInput.Some? == whole.previousInput.Some?
    && st.previousResidual.Some? == whole.previousResidual.Some?
  }

  function PreviousResiduals(states: seq<BranchState>): (parts: seq<Tensor>)
    ensures |parts| == |states|
  {
    seq(|states|, k requires 0 <= k < |states| =>
      if states[k].previousResidual.Some? then states[k].previousResidual.value else [])
  }

  predicate InLockstep(split: Split, whole: BranchState, states: seq<BranchState>) {
    && |states| == split.ranks
    && (forall k | 0 <= k < |states| :: SameState(split, whole, states[k], k))
    && HoldsShards(split, whole.previousLayout, whole.previousInput, PreviousInputs(states))
    && HoldsShards(split, whole.previousLayout, whole.previousResidual, PreviousResiduals(states))
  }

  lemma {:induction false} StartsInLockstep(split: Split)
    ensures InLockstep(split, FreshBranch(), seq(split.ranks, _ => FreshBranch()))
  {}

  lemma {:induction false} SameReason(p: Params, split: Split, whole: BranchState, st: BranchState, k: nat, op: GroupOp)
    requires ValidSplit(split) && op.Check? && SameState(split, whole, st, k)
    ensures RankReason(p, split, st, k, op) == ForcedReason(p, whole, op.step, op.layout)
  {
    if whole.previousLayout.Some? && split.rankLayout(k, whole.previousLayout.value) == split.rankLayout(k, op.layout) {
      assert whole.previousLayout.value == op.layout;
    }
  }

  lemma {:induction false} SameDecision(p: Params, split: Split, whole: BranchState, st: BranchState, k: nat, op: GroupOp, raw: real)
    requires ValidSplit(split) && op.Check? && op.coefficients.Some? && SameState(split, whole, st, k)
    ensures RankDecision(p, split, st, k, op, raw)
         == (var reason := ForcedReason(p, whole, op.step, op.layout);
             if reason.Some? then Decision(false, reason.value, 0.0, 0.0)
             else if p.calibrate then Decision(false, Reason.Calibrate, 0.0, 0.0)
             else Judge(p, whole, raw, op.coefficients.value))
  {
    SameReason(p, split, whole, st, k, op);
  }
  // ---- One call -------------------------------------------------------------------

  /** What the whole controller decides when its distance is `raw`. */
  function WholeDecision(p: Params, whole: BranchState, op: GroupOp, raw: real): Decision
    requires op.Check? && op.coefficients.Some?
  {
    var reason := ForcedReason(p, whole, op.step, op.layout);
    if reason.Some? then Decision(false, reason.value, 0.0, 0.0)
    else if p.calibrate then Decision(false, Reason.Calibrate, 0.0, 0.0)
    else Judge(p, whole, raw, op.coefficients.value)
  }

  /** Ranks in one state decide alike, so the decision test is passed. */
  lemma {:induction false} DecidedAlike(p: Params, split: Split, whole: BranchState, states: seq<BranchState>, op: GroupOp,
                                        raw: real, before: seq<Collective>)
    requires ValidSplit(split) && op.Check? && op.coefficients.Some? && InLockstep(split, whole, states)
    ensures var (result, decision) := (Decided(p, split, states, op, raw, before), WholeDecision(p, whole, op, raw));
            var reason := ForcedReason(p, whole, op.step, op.layout);
            && result.Agreed? && |result.states| == |result.replies| == |states|
            && result.collectives == before + [Moments]
            && forall k | 0 <= k < |states| ::
                 && result.replies[k] == Reply.Decided(decision)
                 && result.states[k] == Pend(AfterForcedReason(states[k], reason), decision, op.step, split.rankLayout(k, op.layout))
  {
    var decision := WholeDecision(p, whole, op, raw);
    forall k | 0 <= k < |states|
      ensures RankReason(p, split, states[k], k, op) == ForcedReason(p, whole, op.step, op.layout)
      ensures RankDecision(p, split, states[k], k, op, raw) == decision
    {
      SameReason(p, split, whole, states[k], k, op);
      SameDecision(p, split, whole, states[k], k, op, raw);
    }
    var ds := Decisions(p, split, states, op, raw);
    assert forall k | 0 <= k < |ds| :: ds[k] == decision;
  }

  /** Pending the same decision keeps the ranks in step. */
  lemma {:induction false} PendKeepsStep(split: Split, whole: BranchState, states: seq<BranchState>, after: seq<BranchState>,
                                         reason: Option<Reason>, decision: Decision, step: int, layout: Layout)
    requires InLockstep(split, whole, states) && |after| == |states|
    requires forall k | 0 <= k < |states| ::
               after[k] == Pend(AfterForcedReason(states[k], reason), decision, step, split.rankLayout(k, layout))
    ensures InLockstep(split, Pend(AfterForcedReason(whole, reason), decision, step, layout), after)
  {
    var w := Pend(AfterForcedReason(whole, reason), decision, step, layout);
    forall k | 0 <= k < |after| ensures SameState(split, w, after[k], k) {
      assert SameState(split, whole, states[k], k);
    }
    if w.previousInput.Some? {
      assert PreviousInputs(after) == PreviousInputs(states);
    }
    if w.previousResidual.Some? {
      assert PreviousResiduals(after) == PreviousResiduals(states);
    }
  }

  lemma {:induction false} SameDistance(p: Params, split: Split, whole: BranchState, states: seq<BranchState>, op: GroupOp)
    requires InLockstep(split, whole, states) && op.Check? && WellSplit(split, whole, op)
    requires ForcedReason(p, whole, op.step, op.layout).None?
    ensures SameShapes(op.inputs, PreviousInputs(states))
    ensures GroupRelativeL1(op.inputs, PreviousInputs(states))
         == RelativeL1(Concat(op.inputs), whole.previousInput.value)
  {
    GroupDistanceIsWhole(op.inputs, PreviousInputs(states));
  }

  lemma {:induction false} MeasureTogether(p: Params, split: Split, whole: BranchState, states: seq<BranchState>, op: GroupOp)
    requires ValidSplit(split) && InLockstep(split, whole, states) && op.Check?
    ensures forall k | 0 <= k < |states| ::
              Measures(p, split, states[k], k, op) <==> ForcedReason(p, whole, op.step, op.layout).None? && !p.calibrate
  {
    forall k | 0 <= k < |states|
      ensures Measures(p, split, states[k], k, op) <==> ForcedReason(p, whole, op.step, op.layout).None? && !p.calibrate
    {
      SameReason(p, split, whole, states[k], k, op);
    }
  }

  /** A group result that mirrors what the whole controller does. */
  predicate Mirrors(split: Split, result: GroupResult, after: BranchState, reply: Reply) {
    && result.Agreed? && InLockstep(split, after, result.states) && |result.replies| == |result.states|
    && (forall k | 0 <= k < |result.replies| :: result.replies[k].Raised? == reply.Raised?)
    && (reply.Decided? ==> forall k | 0 <= k < |result.replies| :: result.replies[k] == reply)
  }

  lemma {:induction false} DecidedMirrors(p: Params, split: Split, whole: BranchState, states: seq<BranchState>, op: GroupOp,
                                          raw: real, before: seq<Collective>)
    requires ValidSplit(split) && op.Check? && op.coefficients.Some? && InLockstep(split, whole, states)
    ensures var (reason, decision) := (ForcedReason(p, whole, op.step, op.layout), WholeDecision(p, whole, op, raw));
            Mirrors(split, Decided(p, split, states, op, raw, before),
                    Pend(AfterForcedReason(whole, reason), decision, op.step, op.layout), Reply.Decided(decision))
  {
    DecidedAlike(p, split, whole, states, op, raw, before);
    PendKeepsStep(split, whole, states, Decided(p, split, states, op, raw, before).states,
                  ForcedReason(p, whole, op.step, op.layout), WholeDecision(p, whole, op, raw), op.step, op.layout);
  }

  predicate Admitted(p: Params, whole: BranchState, op: GroupOp)
    requires op.Check?
  {
    AllOk(op.contextOk) && 0 <= op.step < p.totalSteps && op.coefficients.Some? && whole.pending.None?
  }

  lemma {:induction false} AllStay(split: Split, whole: BranchState, states: seq<BranchState>, collectives: seq<Collective>)
    requires InLockstep(split, whole, states)
    ensures Mirrors(split, Agreed(states, AllRaised(|states|), collectives), whole, Raised)
  {}

  lemma {:induction false} RejectedCheck(p: Params, split: Split, whole: BranchState, states: seq<BranchState>, op: GroupOp)
    requires split.ranks > 0 && InLockstep(split, whole, states) && op.Check? && WellSplit(split, whole, op)
    requires !Admitted(p, whole, op)
    ensures CheckStep(p, whole, WholeOp(op)) == (whole, Raised)
    ensures var result := GroupCheck(p, split, states, op);
            result.Agreed? && result == Agreed(states, AllRaised(|states|), result.collectives)
  {
    forall k | 0 <= k < |states| ensures states[k].pending == whole.pending { assert SameState(split, whole, states[k], k); }
    assert whole.pending.Some? || op.coefficients.None? ==> Prepared(p, split, states, op) == states;
    assert states[0].pending == whole.pending;
  }

  lemma {:induction false} AdmittedCheck(p: Params, whole: BranchState, op: GroupOp, raw: real)
    requires op.Check? && Admitted(p, whole, op)
    requires var reason := ForcedReason(p, whole, op.step, op.layout);
             reason.None? && !p.calibrate ==> RelativeL1(Concat(op.inputs), whole.previousInput.value) == Ok(raw)
    ensures var (reason, decision) := (ForcedReason(p, whole, op.step, op.layout), WholeDecision(p, whole, op, raw));
            CheckStep(p, whole, WholeOp(op))
            == (Pend(AfterForcedReason(whole, reason), decision, op.step, op.layout), Reply.Decided(decision))
  {}

  lemma {:induction false} GroupDecides(p: Params, split: Split, whole: BranchState, states: seq<BranchState>, op: GroupOp)
    returns (raw: real, before: seq<Collective>)
    requires ValidSplit(split) && InLockstep(split, whole, states) && op.Check? && WellSplit(split, whole, op)
    requires Admitted(p, whole, op)
    ensures GroupCheck(p, split, states, op) == Decided(p, split, states, op, raw, before)
    ensures var reason := ForcedReason(p, whole, op.step, op.layout);
            reason.None? && !p.calibrate ==> RelativeL1(Concat(op.inputs), whole.previousInput.value) == Ok(raw)
  {
    MeasureTogether(p, split, whole, states, op);
    forall k | 0 <= k < |states| ensures states[k].pending.None? { assert SameState(split, whole, states[k], k); }
    if ForcedReason(p, whole, op.step, op.layout).None? && !p.calibrate {
      SameDistance(p, split, whole, states, op);
      assert Measures(p, split, states[0], 0, op);
      raw, before := GroupRelativeL1(op.inputs, PreviousInputs(states)).value, [Flag, Flag, Sums];
    } else {
      raw, before := 0.0, [Flag, Flag];
    }
  }

  /** A group check decides what the whole controller decides, over one list of collectives. */
  lemma {:induction false} CheckLockstep(p: Params, split: Split, whole: BranchState, states: seq<BranchState>, op: GroupOp)
    requires ValidSplit(split) && InLockstep(split, whole, states) && op.Check? && WellSplit(split, whole, op)
    ensures var (after, reply) := CheckStep(p, whole, WholeOp(op));
            Mirrors(split, GroupCheck(p, split, states, op), after, reply)
  {
    if Admitted(p, whole, op) {
      var raw, before := GroupDecides(p, split, whole, states, op);
      AdmittedCheck(p, whole, op, raw);
      DecidedMirrors(p, split, whole, states, op, raw, before);
    } else {
      RejectedCheck(p, split, whole, states, op);
      AllStay(split, whole, states, GroupCheck(p, split, states, op).collectives);
    }
  }

  // ---- Reuse and record -------------------------------------------------------------

  function Outputs(replies: seq<Reply>): (parts: seq<Tensor>)
    ensures |parts| == |replies|
  {
    seq(|replies|, k requires 0 <= k < |replies| => if replies[k].Output? then replies[k].tensor else [])
  }

  /** A reuse gives each rank its shard of what the whole controller gives. */
  lemma {:induction false} ApplyLockstep(p: Params, split: Split, whole: BranchState, states: seq<BranchState>, op: GroupOp)
    requires InLockstep(split, whole, states) && op.Apply? && WellSplit(split, whole, op) && Sized(op, |states|)
    requires split.ranks > 0
    requires whole.pending.Some? && whole.pending.value.shouldSkip ==>
               whole.pendingLayout.Some? && whole.pendingLayout == whole.previousLayout
    ensures var (after, reply) := ApplyStep(p, whole, WholeOp(op));
            var result := GroupStep(p, split, states, op);
            && Mirrors(split, result, after, reply)
            && (reply.Output? ==> Concat(Outputs(result.replies)) == reply.tensor)
  {
    var (after, reply) := ApplyStep(p, whole, WholeOp(op));
    var result := GroupStep(p, split, states, op);
    forall k | 0 <= k < |states| ensures SameState(split, whole, states[k], k) {}
    assert SameState(split, whole, states[0], 0);
    if whole.pending.Some? && whole.pending.value.shouldSkip && whole.pendingStep == Some(op.step) && whole.previousResidual.Some? {
      ShardsAlike(split, whole.pendingLayout.value, op.hiddens, PreviousResiduals(states));
      ConcatAdd(op.hiddens, PreviousResiduals(states));
      ApplyRanks(p, split, whole, states, op);
    } else {
      assert forall k | 0 <= k < |states| :: result.states[k] == states[k];
      assert result.states == states;
    }
  }

  lemma {:induction false} ApplyRanks(p: Params, split: Split, whole: BranchState, states: seq<BranchState>, op: GroupOp)
    requires InLockstep(split, whole, states) && op.Apply? && WellSplit(split, whole, op) && Sized(op, |states|)
    requires whole.pending.Some? && whole.pending.value.shouldSkip && whole.pendingStep == Some(op.step)
    requires whole.previousResidual.Some? && whole.pendingLayout.Some? && whole.pendingLayout == whole.previousLayout
    requires SameShapes(op.hiddens, PreviousResiduals(states))
    requires |Concat(op.hiddens)| == |Concat(PreviousResiduals(states))|
    ensures var (after, reply) := ApplyStep(p, whole, WholeOp(op));
            var result := GroupStep(p, split, states, op);
            && reply.Output? && Mirrors(split, result, after, reply)
            && Outputs(result.replies) == AddAll(op.hiddens, PreviousResiduals(states))
  {
    var (after, reply) := ApplyStep(p, whole, WholeOp(op));
    var result := GroupStep(p, split, states, op);
    forall k | 0 <= k < |states|
      ensures result.replies[k] == Output(Add(op.hiddens[k], PreviousResiduals(states)[k]))
      ensures SameState(split, after, result.states[k], k)
      ensures result.states[k].previousInput == Some(op.inputs[k])
      ensures result.states[k].previousResidual == states[k].previousResidual
    {
      assert SameState(split, whole, states[k], k);
      assert |PreviousResiduals(states)[k]| == |op.hiddens[k]|;
    }
    assert PreviousInputs(result.states) == op.inputs;
    assert PreviousResiduals(result.states) == PreviousResiduals(states);
  }

  lemma {:induction false} RecordLockstep(p: Params, split: Split, whole: BranchState, states: seq<BranchState>, op: GroupOp)
    requires InLockstep(split, whole, states) && op.Record? && WellSplit(split, whole, op) && Sized(op, |states|)
    requires split.ranks > 0 && (whole.pending.Some? ==> whole.pendingLayout.Some?)
    ensures var (after, reply) := RecordStep(p, whole, WholeOp(op));
            Mirrors(split, GroupStep(p, split, states, op), after, reply)
  {
    var result := GroupStep(p, split, states, op);
    forall k | 0 <= k < |states| ensures SameState(split, whole, states[k], k) {}
    assert SameState(split, whole, states[0], 0);
    if whole.pending.Some? && !whole.pending.value.shouldSkip && whole.pendingStep == Some(op.step) {
      ShardsAlike(split, whole.pendingLayout.value, op.outputs, op.hiddens);
      ConcatSub(op.outputs, op.hiddens);
      RecordRanks(p, split, whole, states, op);
    } else {
      assert forall k | 0 <= k < |states| :: result.states[k] == states[k];
      assert result.states == states;
    }
  }

  lemma {:induction false} RecordRanks(p: Params, split: Split, whole: BranchState, states: seq<BranchState>, op: GroupOp)
    requires InLockstep(split, whole, states) && op.Record? && WellSplit(split, whole, op) && Sized(op, |states|)
    requires whole.pending.Some? && !whole.pending.value.shouldSkip && whole.pendingStep == Some(op.step)
    requires whole.pendingLayout.Some? && SameShapes(op.outputs, op.hiddens)
    requires |Concat(op.outputs)| == |Concat(op.hiddens)|
    requires Sub(Concat(op.outputs), Concat(op.hiddens)) == Concat(SubAll(op.outputs, op.hiddens))
    ensures var (after, reply) := RecordStep(p, whole, WholeOp(op));
            Mirrors(split, GroupStep(p, split, states, op), after, reply)
  {
    var (after, reply) := RecordStep(p, whole, WholeOp(op));
    var result := GroupStep(p, split, states, op);
    forall k | 0 <= k < |states|
      ensures result.replies[k].Done?
      ensures SameState(split, after, result.states[k], k)
      ensures result.states[k].previousInput == Some(op.inputs[k])
      ensures result.states[k].previousResidual == Some(SubAll(op.outputs, op.hiddens)[k])
    {
      assert SameState(split, whole, states[k], k);
      assert |op.outputs[k]| == |op.hiddens[k]|;
    }
    assert PreviousInputs(result.states) == op.inputs;
    assert PreviousResiduals(result.states) == SubAll(op.outputs, op.hiddens);
  }

  // ---- Whole runs -------------------------------------------------------------------

  /** The group's states after a list of calls; `None` once ranks have diverged. */
  function GroupRun(p: Params, split: Split, ops: seq<GroupOp>): Option<seq<BranchState>> {
    if ops == [] then Some(seq(split.ranks, _ => FreshBranch()))
    else
      var (before, op) := (GroupRun(p, split, ops[..|ops| - 1]), ops[|ops| - 1]);
      if before.None? || !Sized(op, |before.value|) then None
      else
        var result := GroupStep(p, split, before.value, op);
        if result.Diverged? then None else Some(result.states)
  }

  function WholeOps(ops: seq<GroupOp>): (whole: seq<BranchOp>)
    ensures |whole| == |ops|
  {
    seq(|ops|, i requires 0 <= i < |ops| => WholeOp(ops[i]))
  }

  /** Every call's shards fit the layout it has on the whole controller. */
  predicate RunWellSplit(p: Params, split: Split, ops: seq<GroupOp>) {
    ops == []
    || (RunWellSplit(p, split, ops[..|ops| - 1])
        && WellSplit(split, BranchRun(p, WholeOps(ops[..|ops| - 1])), ops[|ops| - 1]))
  }

  lemma {:induction false} WholeOpsSnoc(ops: seq<GroupOp>)
    requires ops != []
    ensures WholeOps(ops)[..|ops| - 1] == WholeOps(ops[..|ops| - 1])
    ensures WholeOps(ops)[|ops| - 1] == WholeOp(ops[|ops| - 1])
  {}

  lemma {:induction false} StepLockstep(p: Params, split: Split, whole: BranchState, h: seq<Event>, states: seq<BranchState>, op: GroupOp)
    requires ValidSplit(split) && InLockstep(split, whole, states) && WellSplit(split, whole, op) && Pending(p, whole, h)
    ensures Sized(op, |states|)
    ensures var (after, reply) := BranchStep(p, whole, WholeOp(op));
            Mirrors(split, GroupStep(p, split, states, op), after, reply)
  {
    match op {
      case Check(_, _, _, _, _) => CheckLockstep(p, split, whole, states, op);
      case Apply(_, _, _) => ApplyLockstep(p, split, whole, states, op);
      case Record(_, _, _, _) => RecordLockstep(p, split, whole, states, op);
    }
  }

  /**
   * Over any list of calls, the ranks never diverge, never see a decision mismatch,
   * and stay in the decision state of one controller on the whole sequence.
   */
  lemma {:induction false} GroupsStayInLockstep(p: Params, split: Split, ops: seq<GroupOp>)
    requires ValidParams(p) && ValidSplit(split) && RunWellSplit(p, split, ops)
    ensures GroupRun(p, split, ops).Some?
    ensures InLockstep(split, BranchRun(p, WholeOps(ops)), GroupRun(p, split, ops).value)
  {
    if ops == [] {
      StartsInLockstep(split);
    } else {
      var (before, op) := (ops[..|ops| - 1], ops[|ops| - 1]);
      GroupsStayInLockstep(p, split, before);
      WholeOpsSnoc(ops);
      EveryRunKeepsInv(p, WholeOps(before));
      StepLockstep(p, split, BranchRun(p, WholeOps(before)), History(p, WholeOps(before)), GroupRun(p, split, before).value, op);
    }
  }

  /** Each next call is answered by every rank as the whole controller answers it. */
  lemma {:induction false} GroupsAnswerAsOne(p: Params, split: Split, ops: seq<GroupOp>, op: GroupOp)
    requires ValidParams(p) && ValidSplit(split) && RunWellSplit(p, split, ops)
    requires WellSplit(split, BranchRun(p, WholeOps(ops)), op)
    ensures var states := GroupRun(p, split, ops);
            && states.Some? && Sized(op, |states.value|)
            && var (result, reply) := (GroupStep(p, split, states.value, op), BranchStep(p, BranchRun(p, WholeOps(ops)), WholeOp(op)).1);
            && result.Agreed? && |result.replies| == split.ranks
            && (forall k | 0 <= k < split.ranks :: result.replies[k].Raised? == reply.Raised?)
            && (reply.Decided? ==> forall k | 0 <= k < split.ranks :: result.replies[k] == reply)
            && (reply.Output? ==> Concat(Outputs(result.replies)) == reply.tensor)
  {
    GroupsStayInLockstep(p, split, ops);
    EveryRunKeepsInv(p, WholeOps(ops));
    var whole := BranchRun(p, WholeOps(ops));
    StepLockstep(p, split, whole, History(p, WholeOps(ops)), GroupRun(p, split, ops).value, op);
    if op.Apply? { ApplyLockstep(p, split, whole, GroupRun(p, split, ops).value, op); }
  }
}
