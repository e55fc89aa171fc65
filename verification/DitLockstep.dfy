/**
 * A group of Cache-DiT controllers, each on its shard of the sequence, against one
 * controller on the whole sequence.
 */
module DitLockstep {
  import opened Wrappers
  import opened Tensors
  import opened Consensus
  import opened Shards
  import opened CacheDit

  /** One call made on all ranks, with every rank's shard. */
  datatype GroupOp =
    | Check(step: int, inputs: seq<Tensor>, fronts: seq<Tensor>, layout: Layout, contextOk: seq<bool>)
    | Apply(step: int, fronts: seq<Tensor>)
    | Record(step: int, fronts: seq<Tensor>, middles: seq<Tensor>)
    | Complete(step: int)

  function WholeOp(op: GroupOp): BranchOp {
    match op
    case Check(step, inputs, fronts, layout, contextOk) =>
      BranchOp.Check(step, Concat(inputs), Concat(fronts), layout, AllOk(contextOk))
    case Apply(step, fronts) => BranchOp.Apply(step, Concat(fronts))
    case Record(step, fronts, middles) => BranchOp.Record(step, Concat(fronts), Concat(middles))
    case Complete(step) => BranchOp.Complete(step)
  }

  /** The shards of a call fit the layout that the call, or the pending step, has. */
  predicate WellSplit(split: Split, whole: BranchState, op: GroupOp) {
    match op
    case Check(_, inputs, fronts, layout, contextOk) =>
      ShardedAs(split, layout, inputs) && ShardedAs(split, layout, fronts) && |contextOk| == split.ranks
    case Apply(_, fronts) =>
      && |fronts| == split.ranks
      && (whole.pendingLayout.Some? ==> ShardedAs(split, whole.pendingLayout.value, fronts))
    case Record(_, fronts, middles) =>
      && |fronts| == |middles| == split.ranks
      && (whole.pendingLayout.Some? ==>
            ShardedAs(split, whole.pendingLayout.value, fronts) && ShardedAs(split, whole.pendingLayout.value, middles))
    case Complete(_) => true
  }

  // ---- The group ----------------------------------------------------------------

  datatype GroupResult =
    | Diverged
    | Agreed(states: seq<BranchState>, replies: seq<Reply>, collectives: seq<Collective>)

  function Code(reason: Reason): int {
    match reason
    case CacheHit => 1
    case Warmup => 2
    case EndGuard => 3
    case FirstBranchStep => 4
    case NonContiguousBranchStep => 5
    case MissingCachedState => 6
    case MaxConsecutiveCachedSteps => 7
    case ThresholdExceeded => 8
    case NonFiniteDiff => 9
    case LayoutChanged => 10
  }

  function AllRaised(n: nat): seq<Reply> {
    seq(n, _ => Raised)
  }

  function RankReason(p: Params, split: Split, st: BranchState, k: nat, op: GroupOp): Option<Reason>
    requires op.Check?
  {
    ForcedReason(p, st, op.step, split.rankLayout(k, op.layout))
  }

  function RankDecision(p: Params, split: Split, st: BranchState, k: nat, op: GroupOp, diff: real): Decision
    requires op.Check?
  {
    var reason := RankReason(p, split, st, k, op);
    if reason.Some? then Decision(false, reason.value) else Judge(p, diff)
  }

  function Fronts(states: seq<BranchState>): (parts: seq<Tensor>)
    ensures |parts| == |states|
  {
    seq(|states|, k requires 0 <= k < |states| => if states[k].previousFront.Some? then states[k].previousFront.value else [])
  }

  function Middles(states: seq<BranchState>): (parts: seq<Tensor>)
    ensures |parts| == |states|
  {
    seq(|states|, k requires 0 <= k < |states| => if states[k].cachedMiddle.Some? then states[k].cachedMiddle.value else [])
  }

  function PendingFronts(states: seq<BranchState>): (parts: seq<Tensor>)
    ensures |parts| == |states|
  {
    seq(|states|, k requires 0 <= k < |states| => if states[k].pendingFront.Some? then states[k].pendingFront.value else [])
  }

  function Codes(p: Params, split: Split, states: seq<BranchState>, op: GroupOp, diff: real): (codes: seq<int>)
    requires op.Check?
    ensures |codes| == |states|
  {
    seq(|states|, k requires 0 <= k < |states| => Code(RankDecision(p, split, states[k], k, op, diff).reason))
  }

  /** Preparing a check may already drop a rank's cached tensors. */
  function Prepared(p: Params, split: Split, states: seq<BranchState>, op: GroupOp): (prepared: seq<BranchState>)
    requires op.Check?
    ensures |prepared| == |states|
  {
    seq(|states|, k requires 0 <= k < |states| =>
      if states[k].pending.Some? then states[k] else AfterForcedReason(states[k], RankReason(p, split, states[k], k, op)))
  }

  function Decided(p: Params, split: Split, states: seq<BranchState>, op: GroupOp, diff: real, before: seq<Collective>): GroupResult
    requires op.Check? && SameShapes(op.fronts, op.inputs) && |op.fronts| == |states|
  {
    if !AllEqual(Codes(p, split, states, op, diff)) then
      Agreed(Prepared(p, split, states, op), AllRaised(|states|), before + [Moments])
    else Agreed(
      seq(|states|, k requires 0 <= k < |states| =>
        Pend(AfterForcedReason(states[k], RankReason(p, split, states[k], k, op)),
             RankDecision(p, split, states[k], k, op, diff), Sub(op.fronts[k], op.inputs[k]), op.step,
             split.rankLayout(k, op.layout))),
      seq(|states|, k requires 0 <= k < |states| => Reply.Decided(RankDecision(p, split, states[k], k, op, diff))),
      before + [Moments])
  }

  lemma {:induction false} CodesTellReasons(a: Reason, b: Reason)
    ensures Code(a) == Code(b) <==> a == b
  {}

  /** The decision test lets the decisions pass if and only if all ranks have the same reason. */
  lemma {:induction false} ReasonsAreCompared(p: Params, split: Split, states: seq<BranchState>, op: GroupOp, diff: real, before: seq<Collective>)
    requires op.Check? && SameShapes(op.fronts, op.inputs) && |op.fronts| == |states|
    ensures var (ds, result) := (seq(|states|, k requires 0 <= k < |states| => RankDecision(p, split, states[k], k, op, diff)),
                                 Decided(p, split, states, op, diff, before));
            && result.Agreed? && |result.replies| == |states|
            && if forall j, k | 0 <= j < k < |ds| :: ds[j].reason == ds[k].reason
               then forall k | 0 <= k < |ds| :: result.replies[k] == Reply.Decided(ds[k])
               else forall k | 0 <= k < |ds| :: result.replies[k].Raised?
  {
    var (ds, codes) := (seq(|states|, k requires 0 <= k < |states| => RankDecision(p, split, states[k], k, op, diff)),
                        Codes(p, split, states, op, diff));
    forall j, k | 0 <= j < k < |ds| ensures codes[j] == codes[k] <==> ds[j].reason == ds[k].reason {
      CodesTellReasons(ds[j].reason, ds[k].reason);
    }
  }

  /** A check on every rank; ranks that take different paths wait for each other for ever. */
  function GroupCheck(p: Params, split: Split, states: seq<BranchState>, op: GroupOp): GroupResult
    requires op.Check? && |op.inputs| == |op.fronts| == |states|
  {
    if !SameShapes(op.fronts, op.inputs) || !AllOk(op.contextOk) || !(0 <= op.step < p.totalSteps) then
      Agreed(states, AllRaised(|states|), [Flag])
    else if exists k :: 0 <= k < |states| && states[k].pending.Some? then
      Agreed(Prepared(p, split, states, op), AllRaised(|states|), [Flag, Flag])
    else if forall k | 0 <= k < |states| :: RankReason(p, split, states[k], k, op).Some? then
      Decided(p, split, states, op, 0.0, [Flag, Flag])
    else if exists k :: 0 <= k < |states| && RankReason(p, split, states[k], k, op).Some? then Diverged
    else
      var diff := GroupRelativeL1(SubAll(op.fronts, op.inputs), Fronts(states));
      if diff.Err? then Agreed(states, AllRaised(|states|), [Flag, Flag, Sums])
      else Decided(p, split, states, op, diff.value, [Flag, Flag, Sums])
  }

  predicate Sized(op: GroupOp, n: nat) {
    match op
    case Check(_, inputs, fronts, _, _) => |inputs| == |fronts| == n
    case Apply(_, fronts) => |fronts| == n
    case Record(_, fronts, middles) => |fronts| == |middles| == n
    case Complete(_) => true
  }

  /** One rank with an invalid context makes all ranks raise, and changes nothing. */
  lemma {:induction false} InvalidContextRaises(p: Params, split: Split, states: seq<BranchState>, op: GroupOp, k: nat)
    requires op.Check? && |op.inputs| == |op.fronts| == |states| && k < |op.contextOk| && !op.contextOk[k]
    ensures GroupCheck(p, split, states, op) == Agreed(states, AllRaised(|states|), [Flag])
  {}

  /** A check hangs exactly when one rank goes on to the distance all-reduce and another does not. */
  lemma {:induction false} DivergesExactly(p: Params, split: Split, states: seq<BranchState>, op: GroupOp)
    requires op.Check? && |op.inputs| == |op.fronts| == |states| && SameShapes(op.fronts, op.inputs)
    requires AllOk(op.contextOk) && 0 <= op.step < p.totalSteps && forall k | 0 <= k < |states| :: states[k].pending.None?
    ensures GroupCheck(p, split, states, op).Diverged?
            <==> exists j, k :: 0 <= j < |states| && 0 <= k < |states|
                   && RankReason(p, split, states[j], j, op).None? && RankReason(p, split, states[k], k, op).Some?
  {
    if j, k :| 0 <= j < |states| && 0 <= k < |states|
               && RankReason(p, split, states[j], j, op).None? && RankReason(p, split, states[k], k, op).Some? {
      assert !forall i | 0 <= i < |states| :: RankReason(p, split, states[i], i, op).Some?;
    }
  }

  function RankOp(op: GroupOp, k: nat, n: nat): BranchOp
    requires !op.Check? && Sized(op, n) && k < n
  {
    match op
    case Apply(step, fronts) => BranchOp.Apply(step, fronts[k])
    case Record(step, fronts, middles) => BranchOp.Record(step, fronts[k], middles[k])
    case Complete(step) => BranchOp.Complete(step)
  }

  /** Only a check communicates. */
  function GroupStep(p: Params, split: Split, states: seq<BranchState>, op: GroupOp): GroupResult
    requires Sized(op, |states|)
  {
    if op.Check? then GroupCheck(p, split, states, op)
    else Agreed(
      seq(|states|, k requires 0 <= k < |states| => BranchStep(p, states[k], RankOp(op, k, |states|)).0),
      seq(|states|, k requires 0 <= k < |states| => BranchStep(p, states[k], RankOp(op, k, |states|)).1),
      [])
  }

  // ---- The relation ---------------------------------------------------------------

  /** Rank `k` is in the whole controller's decision state. */
  predicate SameState(split: Split, whole: BranchState, st: BranchState, k: nat) {
    && st.previousComputedStep == whole.previousComputedStep && st.previousObservedStep == whole.previousObservedStep
    && st.continuousCached == whole.continuousCached
    && st.computedMiddleSteps == whole.computedMiddleSteps && st.cachedMiddleSteps == whole.cachedMiddleSteps
    && st.completedSteps == whole.completedSteps && st.frontSteps == whole.frontSteps && st.backSteps == whole.backSteps
    && st.forced == whole.forced && st.recorded == whole.recorded
    && st.pending == whole.pending && st.pendingStep == whole.pendingStep
    && SameLayout(split, whole.previousLayout, st.previousLayout, k)
    && SameLayout(split, whole.pendingLayout, st.pendingLayout, k)
    && st.previousFront.Some? == whole.previousFront.Some?
    && st.cachedMiddle.Some? == whole.cachedMiddle.Some?
    && st.pendingFront.Some? == whole.pendingFront.Some?
  }

  predicate AllSame(split: Split, whole: BranchState, states: seq<BranchState>) {
    |states| == split.ranks && forall k | 0 <= k < |states| :: SameState(split, whole, states[k], k)
  }

  predicate InLockstep(split: Split, whole: BranchState, states: seq<BranchState>) {
    && AllSame(split, whole, states)
    && HoldsShards(split, whole.previousLayout, whole.previousFront, Fronts(states))
    && HoldsShards(split, whole.previousLayout, whole.cachedMiddle, Middles(states))
    && HoldsShards(split, whole.pendingLayout, whole.pendingFront, PendingFronts(states))
  }

  lemma {:induction false} StartsInLockstep(split: Split)
    ensures InLockstep(split, FreshBranch(), seq(split.ranks, _ => FreshBranch()))
  {}

  /** A group result that mirrors what the whole controller does. */
  predicate Mirrors(split: Split, result: GroupResult, after: BranchState, reply: Reply) {
    && result.Agreed? && InLockstep(split, after, result.states) && |result.replies| == |result.states|
    && (forall k | 0 <= k < |result.replies| :: result.replies[k].Raised? == reply.Raised?)
    && (reply.Decided? ==> forall k | 0 <= k < |result.replies| :: result.replies[k] == reply)
  }

  // ---- Check ------------------------------------------------------------------------

  lemma {:induction false} SameReason(p: Params, split: Split, whole: BranchState, st: BranchState, k: nat, op: GroupOp)
    requires ValidSplit(split) && op.Check? && SameState(split, whole, st, k)
    ensures RankReason(p, split, st, k, op) == ForcedReason(p, whole, op.step, op.layout)
  {
    if whole.previousLayout.Some? && split.rankLayout(k, whole.previousLayout.value) == split.rankLayout(k, op.layout) {
      assert whole.previousLayout.value == op.layout;
    }
  }

  /** What the whole controller decides when its difference is `diff`. */
  function WholeDecision(p: Params, whole: BranchState, op: GroupOp, diff: real): Decision
    requires op.Check?
  {
    var reason := ForcedReason(p, whole, op.step, op.layout);
    if reason.Some? then Decision(false, reason.value) else Judge(p, diff)
  }

  /** Ranks in one state decide alike, so the decision test is passed. */
  lemma {:induction false} DecidedAlike(p: Params, split: Split, whole: BranchState, states: seq<BranchState>, op: GroupOp,
                                        diff: real, before: seq<Collective>)
    requires ValidSplit(split) && op.Check? && AllSame(split, whole, states)
    requires SameShapes(op.fronts, op.inputs) && |op.fronts| == |states|
    ensures var (result, decision) := (Decided(p, split, states, op, diff, before), WholeDecision(p, whole, op, diff));
            var reason := ForcedReason(p, whole, op.step, op.layout);
            && result.Agreed? && |result.states| == |result.replies| == |states|
            && forall k | 0 <= k < |states| ::
                 && result.replies[k] == Reply.Decided(decision)
                 && result.states[k] == Pend(AfterForcedReason(states[k], reason), decision, Sub(op.fronts[k], op.inputs[k]),
                                             op.step, split.rankLayout(k, op.layout))
  {
    var decision := WholeDecision(p, whole, op, diff);
    forall k | 0 <= k < |states|
      ensures RankReason(p, split, states[k], k, op) == ForcedReason(p, whole, op.step, op.layout)
      ensures RankDecision(p, split, states[k], k, op, diff) == decision
    {
      SameReason(p, split, whole, states[k], k, op);
    }
    var codes := Codes(p, split, states, op, diff);
    assert forall k | 0 <= k < |codes| :: codes[k] == Code(decision.reason);
  }

  lemma {:induction false} PendKeepsSame(split: Split, whole: BranchState, st: BranchState, k: nat, reason: Option<Reason>,
                                         decision: Decision, probe: Tensor, part: Tensor, step: int, layout: Layout)
    requires SameState(split, whole, st, k)
    ensures SameState(split, Pend(AfterForcedReason(whole, reason), decision, probe, step, layout),
                      Pend(AfterForcedReason(st, reason), decision, part, step, split.rankLayout(k, layout)), k)
  {}

  /** Pending the same decision keeps the ranks in step. */
  lemma {:induction false} PendKeepsStep(split: Split, whole: BranchState, states: seq<BranchState>, after: seq<BranchState>,
                                         reason: Option<Reason>, decision: Decision, op: GroupOp)
    requires InLockstep(split, whole, states) && |after| == |states|
    requires op.Check? && ShardedAs(split, op.layout, op.inputs) && ShardedAs(split, op.layout, op.fronts)
    requires forall k | 0 <= k < |states| ::
               after[k] == Pend(AfterForcedReason(states[k], reason), decision, Sub(op.fronts[k], op.inputs[k]), op.step,
                                split.rankLayout(k, op.layout))
    ensures |Concat(op.fronts)| == |Concat(op.inputs)|
    ensures InLockstep(split, Pend(AfterForcedReason(whole, reason), decision, Sub(Concat(op.fronts), Concat(op.inputs)),
                                   op.step, op.layout), after)
  {
    ConcatSub(op.fronts, op.inputs);
    var probe := Sub(Concat(op.fronts), Concat(op.inputs));
    var w := Pend(AfterForcedReason(whole, reason), decision, probe, op.step, op.layout);
    assert AllSame(split, w, after) by {
      forall k | 0 <= k < |after| ensures SameState(split, w, after[k], k) {
        PendKeepsSame(split, whole, states[k], k, reason, decision, probe, Sub(op.fronts[k], op.inputs[k]), op.step, op.layout);
      }
    }
    KeepsShards(split, whole, states, after, reason);
    assert PendingFronts(after) == SubAll(op.fronts, op.inputs);
  }

  lemma {:induction false} KeepsShards(split: Split, whole: BranchState, states: seq<BranchState>, after: seq<BranchState>,
                                       reason: Option<Reason>)
    requires InLockstep(split, whole, states) && |after| == |states|
    requires forall k | 0 <= k < |states| ::
               && after[k].previousFront == AfterForcedReason(states[k], reason).previousFront
               && after[k].cachedMiddle == AfterForcedReason(states[k], reason).cachedMiddle
    ensures var w := AfterForcedReason(whole, reason);
            && HoldsShards(split, w.previousLayout, w.previousFront, Fronts(after))
            && HoldsShards(split, w.previousLayout, w.cachedMiddle, Middles(after))
  {
    if reason != Some(LayoutChanged) {
      assert Fronts(after) == Fronts(states) && Middles(after) == Middles(states);
    }
  }

  lemma {:induction false} AnsweredMirrors(split: Split, result: GroupResult, after: BranchState, decision: Decision)
    requires result.Agreed? && InLockstep(split, after, result.states) && |result.replies| == |result.states|
    requires forall k | 0 <= k < |result.replies| :: result.replies[k] == Reply.Decided(decision)
    ensures Mirrors(split, result, after, Reply.Decided(decision))
  {}

  lemma {:induction false} DecidedMirrors(p: Params, split: Split, whole: BranchState, states: seq<BranchState>, op: GroupOp,
                                          diff: real, before: seq<Collective>)
    requires ValidSplit(split) && op.Check? && InLockstep(split, whole, states) && WellSplit(split, whole, op)
    ensures |Concat(op.fronts)| == |Concat(op.inputs)|
    ensures var (reason, decision) := (ForcedReason(p, whole, op.step, op.layout), WholeDecision(p, whole, op, diff));
            Mirrors(split, Decided(p, split, states, op, diff, before),
                    Pend(AfterForcedReason(whole, reason), decision, Sub(Concat(op.fronts), Concat(op.inputs)), op.step, op.layout),
                    Reply.Decided(decision))
  {
    var (result, reason, decision) :=
      (Decided(p, split, states, op, diff, before), ForcedReason(p, whole, op.step, op.layout), WholeDecision(p, whole, op, diff));
    DecidedAlike(p, split, whole, states, op, diff, before);
    PendKeepsStep(split, whole, states, result.states, reason, decision, op);
    AnsweredMirrors(split, result, Pend(AfterForcedReason(whole, reason), decision, Sub(Concat(op.fronts), Concat(op.inputs)),
                                        op.step, op.layout), decision);
  }

  predicate Admitted(p: Params, whole: BranchState, op: GroupOp)
    requires op.Check?
  {
    AllOk(op.contextOk) && 0 <= op.step < p.totalSteps && whole.pending.None?
  }

  lemma {:induction false} AllStay(split: Split, whole: BranchState, states: seq<BranchState>, collectives: seq<Collective>)
    requires InLockstep(split, whole, states)
    ensures Mirrors(split, Agreed(states, AllRaised(|states|), collectives), whole, Raised)
  {}

  lemma {:induction false} RejectedCheck(p: Params, split: Split, whole: BranchState, states: seq<BranchState>, op: GroupOp)
    requires split.ranks > 0 && AllSame(split, whole, states) && op.Check? && WellSplit(split, whole, op)
    requires !Admitted(p, whole, op)
    ensures CheckStep(p, whole, WholeOp(op)) == (whole, Raised)
    ensures var result := GroupCheck(p, split, states, op);
            result.Agreed? && result == Agreed(states, AllRaised(|states|), result.collectives)
  {
    forall k | 0 <= k < |states| ensures states[k].pending == whole.pending { assert SameState(split, whole, states[k], k); }
    assert whole.pending.Some? ==> Prepared(p, split, states, op) == states;
    assert states[0].pending == whole.pending;
  }

  lemma {:induction false} AdmittedCheck(p: Params, whole: BranchState, op: GroupOp, diff: real)
    requires op.Check? && Admitted(p, whole, op) && |Concat(op.fronts)| == |Concat(op.inputs)|
    requires ForcedReason(p, whole, op.step, op.layout).None? ==>
               RelativeL1(Sub(Concat(op.fronts), Concat(op.inputs)), whole.previousFront.value) == Ok(diff)
    ensures var (reason, decision) := (ForcedReason(p, whole, op.step, op.layout), WholeDecision(p, whole, op, diff));
            CheckStep(p, whole, WholeOp(op))
            == (Pend(AfterForcedReason(whole, reason), decision, Sub(Concat(op.fronts), Concat(op.inputs)), op.step, op.layout),
                Reply.Decided(decision))
  {}

  lemma {:induction false} SameDistance(p: Params, split: Split, whole: BranchState, states: seq<BranchState>, op: GroupOp)
    requires InLockstep(split, whole, states) && op.Check? && WellSplit(split, whole, op)
    requires ForcedReason(p, whole, op.step, op.layout).None?
    ensures SameShapes(SubAll(op.fronts, op.inputs), Fronts(states)) && |Concat(op.fronts)| == |Concat(op.inputs)|
    ensures GroupRelativeL1(SubAll(op.fronts, op.inputs), Fronts(states))
         == RelativeL1(Sub(Concat(op.fronts), Concat(op.inputs)), whole.previousFront.value)
  {
    ConcatSub(op.fronts, op.inputs);
    GroupDistanceIsWhole(SubAll(op.fronts, op.inputs), Fronts(states));
  }

  lemma {:induction false} GroupDecides(p: Params, split: Split, whole: BranchState, states: seq<BranchState>, op: GroupOp)
    returns (diff: real, before: seq<Collective>)
    requires ValidSplit(split) && InLockstep(split, whole, states) && op.Check? && WellSplit(split, whole, op)
    requires Admitted(p, whole, op)
    ensures |Concat(op.fronts)| == |Concat(op.inputs)|
    ensures GroupCheck(p, split, states, op) == Decided(p, split, states, op, diff, before)
    ensures ForcedReason(p, whole, op.step, op.layout).None? ==>
              RelativeL1(Sub(Concat(op.fronts), Concat(op.inputs)), whole.previousFront.value) == Ok(diff)
  {
    ConcatSub(op.fronts, op.inputs);
    forall k | 0 <= k < |states|
      ensures states[k].pending.None?
      ensures RankReason(p, split, states[k], k, op) == ForcedReason(p, whole, op.step, op.layout)
    {
      assert SameState(split, whole, states[k], k);
      SameReason(p, split, whole, states[k], k, op);
    }
    if ForcedReason(p, whole, op.step, op.layout).None? {
      SameDistance(p, split, whole, states, op);
      assert RankReason(p, split, states[0], 0, op).None?;
      diff, before := GroupRelativeL1(SubAll(op.fronts, op.inputs), Fronts(states)).value, [Flag, Flag, Sums];
    } else {
      diff, before := 0.0, [Flag, Flag];
    }
  }

  /** A group check decides what the whole controller decides, over one list of collectives. */
  lemma {:induction false} CheckLockstep(p: Params, split: Split, whole: BranchState, states: seq<BranchState>, op: GroupOp)
    requires ValidSplit(split) && InLockstep(split, whole, states) && op.Check? && WellSplit(split, whole, op)
    ensures var (after, reply) := CheckStep(p, whole, WholeOp(op));
            Mirrors(split, GroupCheck(p, split, states, op), after, reply)
  {
    if Admitted(p, whole, op) {
      var diff, before := GroupDecides(p, split, whole, states, op);
      AdmittedCheck(p, whole, op, diff);
      DecidedMirrors(p, split, whole, states, op, diff, before);
    } else {
      RejectedCheck(p, split, whole, states, op);
      AllStay(split, whole, states, GroupCheck(p, split, states, op).collectives);
    }
  }

  // ---- The calls that do not communicate ----------------------------------------------

  function Outputs(replies: seq<Reply>): (parts: seq<Tensor>)
    ensures |parts| == |replies|
  {
    seq(|replies|, k requires 0 <= k < |replies| => if replies[k].Output? then replies[k].tensor else [])
  }

  /** Ranks whose calls all raise stay as they are. */
  lemma {:induction false} AllRaise(p: Params, split: Split, whole: BranchState, states: seq<BranchState>, op: GroupOp)
    requires InLockstep(split, whole, states) && !op.Check? && Sized(op, |states|)
    requires forall k | 0 <= k < |states| :: BranchStep(p, states[k], RankOp(op, k, |states|)) == (states[k], Raised)
    ensures Mirrors(split, GroupStep(p, split, states, op), whole, Raised)
  {
    assert GroupStep(p, split, states, op).states == states;
  }

  lemma {:induction false} ApplyRanks(p: Params, split: Split, whole: BranchState, states: seq<BranchState>, op: GroupOp)
    requires AllSame(split, whole, states) && op.Apply? && Sized(op, |states|)
    requires HasPending(whole, op.step, true) && whole.cachedMiddle.Some? && SameShapes(op.fronts, Middles(states))
    ensures var result := GroupStep(p, split, states, op);
            && result == Agreed(states, result.replies, []) && |result.replies| == |states|
            && (forall k | 0 <= k < |states| :: result.replies[k].Output?)
            && Outputs(result.replies) == AddAll(op.fronts, Middles(states))
  {
    var result := GroupStep(p, split, states, op);
    forall k | 0 <= k < |states|
      ensures result.states[k] == states[k] && result.replies[k] == Output(Add(op.fronts[k], Middles(states)[k]))
    {
      assert SameState(split, whole, states[k], k) && |Middles(states)[k]| == |op.fronts[k]|;
    }
    assert result.states == states;
    assert Outputs(result.replies) == AddAll(op.fronts, Middles(states));
  }

  /** A reuse gives each rank its shard of what the whole controller gives. */
  lemma {:induction false} ApplyLockstep(p: Params, split: Split, whole: BranchState, states: seq<BranchState>, op: GroupOp)
    requires InLockstep(split, whole, states) && op.Apply? && WellSplit(split, whole, op) && Sized(op, |states|)
    requires whole.pending.Some? && whole.pending.value.reuse ==>
               whole.pendingLayout.Some? && whole.pendingLayout == whole.previousLayout
    ensures var (after, reply) := ApplyStep(p, whole, WholeOp(op));
            var result := GroupStep(p, split, states, op);
            && Mirrors(split, result, after, reply)
            && (reply.Output? ==> Concat(Outputs(result.replies)) == reply.tensor)
  {
    var result := GroupStep(p, split, states, op);
    forall k | 0 <= k < |states| ensures SameState(split, whole, states[k], k) {}
    if HasPending(whole, op.step, true) && whole.cachedMiddle.Some? {
      ShardsAlike(split, whole.pendingLayout.value, op.fronts, Middles(states));
      ConcatAdd(op.fronts, Middles(states));
      ApplyRanks(p, split, whole, states, op);
    } else {
      AllRaise(p, split, whole, states, op);
    }
  }

  lemma {:induction false} RecordLockstep(p: Params, split: Split, whole: BranchState, states: seq<BranchState>, op: GroupOp)
    requires InLockstep(split, whole, states) && op.Record? && WellSplit(split, whole, op) && Sized(op, |states|)
    requires whole.pending.Some? ==> whole.pendingLayout.Some? && whole.pendingFront.Some?
    ensures var (after, reply) := RecordStep(p, whole, WholeOp(op));
            Mirrors(split, GroupStep(p, split, states, op), after, reply)
  {
    forall k | 0 <= k < |states| ensures SameState(split, whole, states[k], k) {}
    if HasPending(whole, op.step, false) {
      ShardsAlike(split, whole.pendingLayout.value, op.middles, op.fronts);
      ConcatSub(op.middles, op.fronts);
      RecordRanks(p, split, whole, states, op);
    } else {
      AllRaise(p, split, whole, states, op);
    }
  }

  lemma {:induction false} RecordRanks(p: Params, split: Split, whole: BranchState, states: seq<BranchState>, op: GroupOp)
    requires InLockstep(split, whole, states) && op.Record? && WellSplit(split, whole, op) && Sized(op, |states|)
    requires HasPending(whole, op.step, false) && whole.pendingLayout.Some? && whole.pendingFront.Some?
    requires SameShapes(op.middles, op.fronts) && |Concat(op.middles)| == |Concat(op.fronts)|
    requires Sub(Concat(op.middles), Concat(op.fronts)) == Concat(SubAll(op.middles, op.fronts))
    ensures var (after, reply) := RecordStep(p, whole, WholeOp(op));
            Mirrors(split, GroupStep(p, split, states, op), after, reply)
  {
    var (after, reply) := RecordStep(p, whole, WholeOp(op));
    var result := GroupStep(p, split, states, op);
    forall k | 0 <= k < |states|
      ensures result.replies[k].Done?
      ensures SameState(split, after, result.states[k], k)
      ensures result.states[k].previousFront == states[k].pendingFront == result.states[k].pendingFront
      ensures result.states[k].cachedMiddle == Some(SubAll(op.middles, op.fronts)[k])
    {
      assert SameState(split, whole, states[k], k);
      assert |op.middles[k]| == |op.fronts[k]|;
    }
    assert Fronts(result.states) == PendingFronts(states) == PendingFronts(result.states);
    assert Middles(result.states) == SubAll(op.middles, op.fronts);
  }

  lemma {:induction false} CompleteRank(p: Params, split: Split, whole: BranchState, st: BranchState, k: nat, step: int)
    requires SameState(split, whole, st, k)
    ensures var ((after, reply), (state, answer)) := (CompleteStep(p, whole, BranchOp.Complete(step)), CompleteStep(p, st, BranchOp.Complete(step)));
            && answer.Raised? == reply.Raised? && !reply.Decided? && SameState(split, after, state, k)
            && state.previousFront == st.previousFront && state.cachedMiddle == st.cachedMiddle
            && (after.pendingFront.Some? ==> state.pendingFront == st.pendingFront)
  {}

  lemma {:induction false} CompleteLockstep(p: Params, split: Split, whole: BranchState, states: seq<BranchState>, op: GroupOp)
    requires InLockstep(split, whole, states) && op.Complete?
    ensures var (after, reply) := CompleteStep(p, whole, WholeOp(op));
            Mirrors(split, GroupStep(p, split, states, op), after, reply)
  {
    var (after, reply) := CompleteStep(p, whole, WholeOp(op));
    var result := GroupStep(p, split, states, op);
    forall k | 0 <= k < |states|
      ensures result.replies[k].Raised? == reply.Raised? && !reply.Decided?
      ensures SameState(split, after, result.states[k], k)
      ensures result.states[k].previousFront == states[k].previousFront && result.states[k].cachedMiddle == states[k].cachedMiddle
      ensures after.pendingFront.Some? ==> result.states[k].pendingFront == states[k].pendingFront
    {
      CompleteRank(p, split, whole, states[k], k, op.step);
    }
    assert !reply.Decided?;
    assert Fronts(result.states) == Fronts(states) && Middles(result.states) == Middles(states);
    if after.pendingFront.Some? { assert PendingFronts(result.states) == PendingFronts(states); }
  }

  // ---- Whole runs -------------------------------------------------------------------

  /** The group's states after a list of calls; `None` once ranks have diverged. */
  function GroupRun(p: Params, split: Split, ops: seq<GroupOp>): Option<seq<BranchState>> {
    if ops == [] then Some(seq(split.ranks, _ => FreshBranch()))
    else
      var (before, op) := (GroupRun(p, split, ops[..|ops| - 1]), ops[|ops| - 1]);
      if before.None? || !Sized(op, |before.value|) then None
      else
        var result := GroupStep(p, split, before.value, op);
        if result.Diverged? then None else Some(result.states)
  }

  function WholeOps(ops: seq<GroupOp>): (whole: seq<BranchOp>)
    ensures |whole| == |ops|
  {
    seq(|ops|, i requires 0 <= i < |ops| => WholeOp(ops[i]))
  }

  /** Every call's shards fit the layout it has on the whole controller. */
  predicate RunWellSplit(p: Params, split: Split, ops: seq<GroupOp>) {
    ops == []
    || (RunWellSplit(p, split, ops[..|ops| - 1])
        && WellSplit(split, BranchRun(p, WholeOps(ops[..|ops| - 1])), ops[|ops| - 1]))
  }

  lemma {:induction false} WholeOpsSnoc(ops: seq<GroupOp>)
    requires ops != []
    ensures WholeOps(ops)[..|ops| - 1] == WholeOps(ops[..|ops| - 1])
    ensures WholeOps(ops)[|ops| - 1] == WholeOp(ops[|ops| - 1])
  {}

  lemma {:induction false} StepLockstep(p: Params, split: Split, whole: BranchState, states: seq<BranchState>, op: GroupOp)
    requires ValidSplit(split) && InLockstep(split, whole, states) && WellSplit(split, whole, op) && Pending(p, whole)
    ensures Sized(op, |states|)
    ensures var ((after, reply), result) := (BranchStep(p, whole, WholeOp(op)), GroupStep(p, split, states, op));
            Mirrors(split, result, after, reply) && (reply.Output? ==> Concat(Outputs(result.replies)) == reply.tensor)
  {
    match op {
      case Check(_, _, _, _, _) => CheckLockstep(p, split, whole, states, op);
      case Apply(_, _) => ApplyLockstep(p, split, whole, states, op);
      case Record(_, _, _) => RecordLockstep(p, split, whole, states, op);
      case Complete(_) => CompleteLockstep(p, split, whole, states, op);
    }
  }

  /**
   * Over any list of calls, the ranks never diverge, never see a decision mismatch,
   * and stay in the decision state of one controller on the whole sequence.
   */
  lemma {:induction false} GroupsStayInLockstep(p: Params, split: Split, ops: seq<GroupOp>)
    requires ValidParams(p) && ValidSplit(split) && RunWellSplit(p, split, ops)
    ensures GroupRun(p, split, ops).Some?
    ensures InLockstep(split, BranchRun(p, WholeOps(ops)), GroupRun(p, split, ops).value)
  {
    if ops == [] {
      StartsInLockstep(split);
    } else {
      var (before, op) := (ops[..|ops| - 1], ops[|ops| - 1]);
      GroupsStayInLockstep(p, split, before);
      WholeOpsSnoc(ops);
      EveryRunKeepsInv(p, WholeOps(before));
      StepLockstep(p, split, BranchRun(p, WholeOps(before)), GroupRun(p, split, before).value, op);
    }
  }

  /** Each next call is answered by every rank as the whole controller answers it. */
  lemma {:induction false} GroupsAnswerAsOne(p: Params, split: Split, ops: seq<GroupOp>, op: GroupOp)
    requires ValidParams(p) && ValidSplit(split) && RunWellSplit(p, split, ops)
    requires WellSplit(split, BranchRun(p, WholeOps(ops)), op)
    ensures var states := GroupRun(p, split, ops);
            && states.Some? && Sized(op, |states.value|)
            && var (result, reply) := (GroupStep(p, split, states.value, op), BranchStep(p, BranchRun(p, WholeOps(ops)), WholeOp(op)).1);
            && result.Agreed? && |result.replies| == split.ranks
            && (forall k | 0 <= k < split.ranks :: result.replies[k].Raised? == reply.Raised?)
            && (reply.Decided? ==> forall k | 0 <= k < split.ranks :: result.replies[k] == reply)
            && (reply.Output? ==> Concat(Outputs(result.replies)) == reply.tensor)
  {
    GroupsStayInLockstep(p, split, ops);
    EveryRunKeepsInv(p, WholeOps(ops));
    StepLockstep(p, split, BranchRun(p, WholeOps(ops)), GroupRun(p, split, ops).value, op);
  }
}
