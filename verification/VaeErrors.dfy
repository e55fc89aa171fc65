/**
 * Which error a run raises: the one of the first position, in the order of the loops,
 * at which some rank's work goes wrong, said by the arguments and the callbacks alone.
 */
module VaeErrors {
  import opened Wrappers
  import opened VaePlan
  import opened VaeSchedule
  import opened VaeTensor
  import opened VaeEngine
  import opened VaeProgress
  import opened VaeSync
  import opened VaeWindows
  import opened VaeRuns
  import opened VaeHistory
  import opened VaeTheorems
  import opened VaeMeaning

  // ---- What can go wrong ------------------------------------------------------------------

  /** `materialize` gives a tensor that fits the task's input shape. */
  ghost predicate Suppliable(cfg: Config, full: Tensor, task: TaskSpec) {
    cfg.materialize(full, task).Some? && FitsInside(cfg.materialize(full, task).value.shape, task.paddedInputShape)
  }

  /** On that tensor, with zeros up to the task's shape, `execute` gives one that fits its output shape. */
  ghost predicate Deliverable(cfg: Config, full: Tensor, task: TaskSpec) {
    && Suppliable(cfg, full, task)
    && exists view: Tensor :: PaddedTo(view, cfg.materialize(full, task).value, task.paddedInputShape) && Executes(cfg, view, task)
  }

  ghost predicate Executes(cfg: Config, view: Tensor, task: TaskSpec) {
    var output := cfg.execute(task.assignedRank, view, task);
    output.Some? && FitsInside(output.value.shape, task.paddedOutputShape)
  }

  /** Rank `k` has no right plan or, without a plan, no size; or an input where it should have none, or another one. */
  ghost predicate BadArguments(cfg: Config, k: nat)
    requires ValidConfig(cfg) && k < |cfg.ranks|
  {
    var (isOwner, size) := (cfg.ranks[k] == cfg.ownerRank, cfg.metadataSizes[k]);
    || !cfg.argumentsOk[k]
    || (!isOwner && cfg.inputs[k].Some?)
    || if cfg.plans[k].None? then isOwner || size.None? || size.value <= 0
       else
         var plan := cfg.plans[k].value;
         || !RightPlan(cfg, plan)
         || (size.Some? && size.value != MetadataSize(|plan.globalInputShape|, |plan.globalOutputShape|, |plan.tasks|))
         || (isOwner && (cfg.inputs[k].None? || cfg.inputs[k].value.shape != plan.globalInputShape))
  }

  lemma {:induction false} PreparationMeaning(cfg: Config, k: nat)
    requires ValidConfig(cfg) && k < |cfg.ranks|
    ensures PrepareFails(cfg, k) <==> BadArguments(cfg, k)
  {
    if cfg.plans[k].Some? && ValidPlan(cfg.plans[k].value) { PositiveSize(cfg.plans[k].value); }
  }

  /** The owner has a plan; each rank's own plan has its length and digest, and a rank without one was given its length. */
  ghost predicate SameSignatures(cfg: Config)
    requires ValidConfig(cfg)
  {
    var own := cfg.plans[OwnerSlot(cfg)];
    && own.Some?
    && forall k | 0 <= k < |cfg.ranks| ::
         if cfg.plans[k].Some?
         then && |PlanValues(cfg.plans[k].value)| == |PlanValues(own.value)|
              && cfg.digest(PlanValues(cfg.plans[k].value)) == cfg.digest(PlanValues(own.value))
         else cfg.metadataSizes[k] == Some(|PlanValues(own.value)|)
  }

  /** Does the work of rank `k` at this position go wrong, if all went well before? */
  ghost predicate Wrong(cfg: Config, pc: Pc, k: nat)
    requires ValidConfig(cfg) && k < |cfg.ranks|
  {
    var (own, input) := (cfg.plans[OwnerSlot(cfg)], cfg.inputs[OwnerSlot(cfg)]);
    match pc
    case AtPlan => BadArguments(cfg, k)
    case AtSignature => !SameSignatures(cfg)
    case AtBroadcast => cfg.plans[k].Some? && cfg.plans[k] != own
    case AtMaterialize(r, i) =>
      own.Some? && input.Some? && cfg.ranks[k] == cfg.ownerRank
      && i < |cfg.ranks| && Slots(own.value, cfg.ranks, r)[i].Some?
      && !Suppliable(cfg, input.value, Slots(own.value, cfg.ranks, r)[i].value)
    case AtExecute(r) =>
      own.Some? && input.Some? && Slots(own.value, cfg.ranks, r)[k].Some?
      && !Deliverable(cfg, input.value, Slots(own.value, cfg.ranks, r)[k].value)
    case AtMerge(r, j) =>
      own.Some? && input.Some? && cfg.ranks[k] == cfg.ownerRank
      && !exists results :: MergedInOrder(cfg, input.value, OutputsSoFar(own.value, cfg.ranks, pc), results)
    case AtDrain => !cfg.drainOk[k]
    case _ => false
  }

  /** The ranks whose flag is set, in group order. */
  function Picked(ranks: seq<int>, flags: seq<bool>): seq<int>
    requires |flags| <= |ranks|
  {
    if flags == [] then []
    else
      var last := |flags| - 1;
      Picked(ranks, flags[..last]) + if flags[last] then [ranks[last]] else []
  }

  ghost function WrongFlags(cfg: Config, pc: Pc): (flags: seq<bool>)
    requires ValidConfig(cfg)
    ensures |flags| == |cfg.ranks| && forall k | 0 <= k < |flags| :: flags[k] <==> Wrong(cfg, pc, k)
  {
    seq(|cfg.ranks|, k requires 0 <= k < |cfg.ranks| => Wrong(cfg, pc, k))
  }

  /** The ranks whose work goes wrong at a position, in group order. */
  ghost function WrongRanks(cfg: Config, pc: Pc): seq<int>
    requires ValidConfig(cfg)
  {
    Picked(cfg.ranks, WrongFlags(cfg, pc))
  }

  function Name(pc: Pc): Phase {
    if pc.AtMaterialize? then MATERIALIZE
    else if pc.AtExecute? then EXECUTE
    else if pc.AtMerge? then MERGE
    else if pc.AtDrain? then DRAIN
    else PLAN
  }

  // ---- Flags ------------------------------------------------------------------------------

  lemma {:induction false} ViewIsPadded(cfg: Config, full: Tensor, task: TaskSpec)
    ensures Materialized(cfg, full, task, task.paddedInputShape).Some? <==> Suppliable(cfg, full, task)
    ensures DirectTile(cfg, full, task).Some? <==> Deliverable(cfg, full, task)
  {
    if Suppliable(cfg, full, task) {
      var input := cfg.materialize(full, task).value;
      var view := Pad(input, task.paddedInputShape, task.paddedInputShape).value;
      PadKeepsCells(input, task.paddedInputShape, task.paddedInputShape);
      assert PaddedTo(view, input, task.paddedInputShape);
      if other: Tensor :| PaddedTo(other, input, task.paddedInputShape) && Executes(cfg, other, task) {
        OnePadding(view, other, input, task.paddedInputShape);
      }
    }
  }

  lemma {:induction false} FoldIsMergeable(cfg: Config, full: Tensor, tasks: seq<TaskSpec>)
    ensures SerialFold(cfg, full, tasks).Ok? <==> exists results :: MergedInOrder(cfg, full, tasks, results)
  {
    if SerialFold(cfg, full, tasks).Ok? { var results := FoldIsInOrder(cfg, full, tasks); }
    if results :| MergedInOrder(cfg, full, tasks, results) { InOrderIsFold(cfg, full, tasks, results); }
  }

  /** Exactly the ranks whose work goes wrong have set their flags. */
  ghost predicate Flags(cfg: Config, pc: Pc, acted: World)
    requires ValidConfig(cfg)
  {
    |acted| == |cfg.ranks| && forall k | 0 <= k < |acted| :: acted[k].waiting == Some(true) <==> Wrong(cfg, pc, k)
  }

  ghost function FlagsOf(w: World): (flags: seq<bool>)
    ensures |flags| == |w|
  {
    seq(|w|, k requires 0 <= k < |w| => w[k].waiting == Some(true))
  }

  lemma {:induction false} FailedArePicked(cfg: Config, w: World)
    requires |w| <= |cfg.ranks|
    ensures FailedRanks(cfg, w) == Picked(cfg.ranks, FlagsOf(w))
  {
    if w != [] {
      FailedArePicked(cfg, w[..|w| - 1]);
      assert FlagsOf(w)[..|w| - 1] == FlagsOf(w[..|w| - 1]);
    }
  }

  lemma {:induction false} FlaggedAreWrong(cfg: Config, pc: Pc, acted: World)
    requires ValidConfig(cfg) && Flags(cfg, pc, acted)
    ensures FailedRanks(cfg, acted) == WrongRanks(cfg, pc)
  {
    FailedArePicked(cfg, acted);
    assert FlagsOf(acted) == WrongFlags(cfg, pc);
  }

  lemma {:induction false} PlanFlags(cfg: Config, s: World)
    requires ValidConfig(cfg) && PlanPhase(cfg, s) && Placed(cfg, s) && s[0].pc.AtPlan?
    ensures Flags(cfg, AtPlan, Acted(cfg, s))
  {
    forall k | 0 <= k < |s| ensures Acted(cfg, s)[k].waiting == Some(true) <==> BadArguments(cfg, k) {
      assert Acted(cfg, s)[k] == LocalAct(cfg, s[k], k);
      PreparationMeaning(cfg, k);
    }
  }

  lemma {:induction false} RowMeaning(cfg: Config, k: nat)
    requires ValidConfig(cfg) && k < |cfg.ranks| && !PrepareFails(cfg, k)
    ensures cfg.ranks[k] == cfg.ownerRank ==> cfg.plans[k].Some?
    ensures cfg.plans[k].Some? ==> PreparedMetadata(cfg, k) == PlanValues(cfg.plans[k].value)
    ensures cfg.plans[k].None? ==> cfg.metadataSizes[k] == Some(|PreparedMetadata(cfg, k)|)
  {}

  lemma {:induction false} RowsAgree(cfg: Config, s: World, k: nat, own: TaskPlan)
    requires ValidConfig(cfg) && PlanPhase(cfg, s) && s[0].pc.AtSignature? && k < |s|
    ensures (|s[k].metadata| == |PlanValues(own)| && (cfg.plans[k].Some? ==> cfg.digest(s[k].metadata) == cfg.digest(PlanValues(own))))
            <==> if cfg.plans[k].Some?
                 then && |PlanValues(cfg.plans[k].value)| == |PlanValues(own)|
                      && cfg.digest(PlanValues(cfg.plans[k].value)) == cfg.digest(PlanValues(own))
                 else cfg.metadataSizes[k] == Some(|PlanValues(own)|)
  {
    assert s[k].metadata == PreparedMetadata(cfg, k);
    RowMeaning(cfg, k);
  }

  lemma {:induction false} SignatureMeaning(cfg: Config, s: World)
    requires ValidConfig(cfg) && PlanPhase(cfg, s) && s[0].pc.AtSignature?
    ensures SignaturesAgree(cfg, s) <==> SameSignatures(cfg)
  {
    var owner := OwnerSlot(cfg);
    assert s[owner].metadata == PreparedMetadata(cfg, owner);
    RowMeaning(cfg, owner);
    forall k | 0 <= k < |s| { RowsAgree(cfg, s, k, cfg.plans[owner].value); }
  }

  lemma {:induction false} BroadcastFlags(cfg: Config, s: World)
    requires ValidConfig(cfg) && PlanPhase(cfg, s) && Placed(cfg, s) && s[0].pc.AtBroadcast?
    ensures Flags(cfg, AtBroadcast, Acted(cfg, s))
  {
    var plan, full := BroadcastPlan(cfg, s);
    BroadcastActs(cfg, s, plan);
    BroadcastWrong(cfg, plan, s, Acted(cfg, s));
  }

  lemma {:induction false} BroadcastWrong(cfg: Config, plan: TaskPlan, s: World, acted: World)
    requires ValidConfig(cfg) && cfg.plans[OwnerSlot(cfg)] == Some(plan) && BroadcastActed(cfg, plan, s, acted)
    ensures Flags(cfg, AtBroadcast, acted)
  {}

  lemma {:induction false} MaterializeFlags(cfg: Config, plan: TaskPlan, full: Tensor, s: World)
    requires Working(cfg, plan, full, s) && Placed(cfg, s) && s[0].pc.AtMaterialize?
    ensures Flags(cfg, s[0].pc, Acted(cfg, s))
  {
    var (r, i) := (s[0].pc.round, s[0].pc.slot);
    var task := Slots(plan, cfg.ranks, r)[i].value;
    MaterializeActs(cfg, plan, full, s);
    RoundEnvelopesCover(plan, cfg.ranks, r);
    ViewOfMaterialized(cfg, full, task, Envelope(plan, cfg.ranks, r, false));
    ViewIsPadded(cfg, full, task);
    forall k | 0 <= k < |s| && k != OwnerSlot(cfg) ensures cfg.ranks[k] != cfg.ownerRank {}
  }

  lemma {:induction false} ExecuteFlags(cfg: Config, plan: TaskPlan, full: Tensor, s: World)
    requires Working(cfg, plan, full, s) && Placed(cfg, s) && s[0].pc.AtExecute?
    ensures Flags(cfg, s[0].pc, Acted(cfg, s))
  {
    var r := s[0].pc.round;
    ExecuteActs(cfg, plan, full, s);
    RoundEnvelopesCover(plan, cfg.ranks, r);
    forall k | 0 <= k < |s| ensures Acted(cfg, s)[k].waiting == Some(true) <==> Wrong(cfg, s[0].pc, k) {
      if Slots(plan, cfg.ranks, r)[k].Some? {
        var task := Slots(plan, cfg.ranks, r)[k].value;
        ViewOfTile(cfg, full, task, Envelope(plan, cfg.ranks, r, true));
        ViewIsPadded(cfg, full, task);
      }
    }
  }

  lemma {:induction false} MergeFlags(cfg: Config, plan: TaskPlan, full: Tensor, s: World)
    requires Working(cfg, plan, full, s) && Placed(cfg, s) && s[0].pc.AtMerge?
    ensures Flags(cfg, s[0].pc, Acted(cfg, s))
  {
    MergeActs(cfg, plan, full, s);
    FoldIsMergeable(cfg, full, OutputsSoFar(plan, cfg.ranks, s[0].pc));
    forall k | 0 <= k < |s| && k != OwnerSlot(cfg) ensures cfg.ranks[k] != cfg.ownerRank {}
  }

  lemma {:induction false} WorkingFlags(cfg: Config, plan: TaskPlan, full: Tensor, s: World)
    requires Working(cfg, plan, full, s) && Placed(cfg, s) && s[0].outcome.Running?
    ensures Flags(cfg, s[0].pc, Acted(cfg, s))
  {
    match s[0].pc {
      case AtMaterialize(_, _) => MaterializeFlags(cfg, plan, full, s);
      case AtScatter(_, _) => ScatterActs(cfg, plan, full, s);
      case AtExecute(_) => ExecuteFlags(cfg, plan, full, s);
      case AtGather(_, _) => GatherActs(cfg, plan, full, s);
      case AtMerge(_, _) => MergeFlags(cfg, plan, full, s);
      case AtDrain =>
        forall k | 0 <= k < |s| ensures Acted(cfg, s)[k] == s[k].(waiting := Some(!cfg.drainOk[k])) {}
    }
  }

  // ---- Windows ----------------------------------------------------------------------------

  lemma {:induction false} AllOrNone(ranks: seq<int>, flags: seq<bool>, flag: bool)
    requires |flags| <= |ranks| && forall k | 0 <= k < |flags| :: flags[k] == flag
    ensures Picked(ranks, flags) == if flag then ranks[..|flags|] else []
  {
    if flags != [] {
      var n := |flags| - 1;
      AllOrNone(ranks, flags[..n], flag);
      assert ranks[..n + 1] == ranks[..n] + [ranks[n]];
    }
  }

  lemma {:induction false} SomeIsPicked(ranks: seq<int>, flags: seq<bool>) returns (k: nat)
    requires |flags| <= |ranks| && Picked(ranks, flags) != []
    ensures k < |flags| && flags[k]
  {
    if flags[|flags| - 1] { k := |flags| - 1; } else { k := SomeIsPicked(ranks, flags[..|flags| - 1]); }
  }

  lemma {:induction false} SyncedFlags(cfg: Config, s: World)
    requires ValidConfig(cfg) && Synced(cfg, s) && s[0].outcome.Running? && Placed(cfg, s) && !s[0].pc.AtSignature?
    ensures Flags(cfg, s[0].pc, Acted(cfg, s))
  {
    if PlanPhase(cfg, s) {
      if s[0].pc.AtPlan? { PlanFlags(cfg, s); } else { BroadcastFlags(cfg, s); }
    } else {
      var plan: TaskPlan, full: Tensor :| Working(cfg, plan, full, s);
      WorkingFlags(cfg, plan, full, s);
    }
  }

  lemma {:induction false} SignatureCulprits(cfg: Config, s: World)
    requires ValidConfig(cfg) && PlanPhase(cfg, s) && Placed(cfg, s) && s[0].pc.AtSignature?
    ensures QuietAt(cfg, s) <==> WrongRanks(cfg, AtSignature) == []
    ensures !QuietAt(cfg, s) ==> Culprits(cfg, s) == WrongRanks(cfg, AtSignature)
  {
    AllOrNone(cfg.ranks, WrongFlags(cfg, AtSignature), !SameSignatures(cfg));
    SignatureMeaning(cfg, s);
    SignatureActs(cfg, s);
    assert cfg.ranks[..|cfg.ranks|] == cfg.ranks;
  }

  /** A window is quiet exactly when no rank's work goes wrong, and otherwise these ranks are the culprits. */
  lemma {:induction false} CulpritsAreWrong(cfg: Config, s: World)
    requires ValidConfig(cfg) && Synced(cfg, s) && s[0].outcome.Running? && Placed(cfg, s)
    ensures QuietAt(cfg, s) <==> WrongRanks(cfg, s[0].pc) == []
    ensures !QuietAt(cfg, s) ==> Culprits(cfg, s) == WrongRanks(cfg, s[0].pc)
  {
    if s[0].pc.AtSignature? {
      SignatureCulprits(cfg, s);
    } else {
      SyncedFlags(cfg, s);
      FlaggedAreWrong(cfg, s[0].pc, Acted(cfg, s));
    }
  }

  /** Work that goes wrong gives a raised phase its name. */
  lemma {:induction false} WrongHasName(cfg: Config, pc: Pc)
    requires ValidConfig(cfg) && WrongRanks(cfg, pc) != []
    ensures PhaseOf(pc) == Name(pc)
  {
    var k := SomeIsPicked(cfg.ranks, WrongFlags(cfg, pc));
  }

  /** What a window from a synchronised world leads to. */
  lemma {:induction false} WindowOutcome(cfg: Config, s: World)
    requires ValidConfig(cfg) && Synced(cfg, s) && s[0].outcome.Running?
    ensures Placed(cfg, s) && Synced(cfg, Window(cfg, s))
    ensures var wrong := WrongRanks(cfg, s[0].pc);
            if wrong == [] then !Window(cfg, s)[0].outcome.Raised?
            else Window(cfg, s)[0].outcome == Raised(Name(s[0].pc), wrong)
  {
    SyncedMeets(cfg, s);
    WindowIsSynced(cfg, s);
    CulpritsAreWrong(cfg, s);
    if QuietAt(cfg, s) {
      QuietWindowIsSynced(cfg, s);
      SyncedNeverCrashes(cfg, Window(cfg, s));
    } else {
      LoudWindowRaises(cfg, s);
      WrongHasName(cfg, s[0].pc);
    }
  }

  // ---- Runs -------------------------------------------------------------------------------

  lemma {:induction false} HistoryIsSynced(cfg: Config, h: seq<World>, i: nat)
    requires ValidConfig(cfg) && History(cfg, h) && i < |h|
    ensures Synced(cfg, h[i])
  {
    if i == 0 {
      HistoryStart(cfg, h);
      InitIsSynced(cfg);
    } else {
      HistoryIsSynced(cfg, h, i - 1);
      EarlierWereRunning(cfg, h, i - 1);
      NextInHistory(cfg, h, i);
      WindowOutcome(cfg, h[i - 1]);
    }
  }

  lemma {:induction false} HistoryOutcome(cfg: Config, h: seq<World>, i: nat)
    requires ValidConfig(cfg) && History(cfg, h) && i + 1 < |h|
    ensures h[i] != [] && h[i + 1] != []
    ensures var wrong := WrongRanks(cfg, h[i][0].pc);
            if wrong == [] then !h[i + 1][0].outcome.Raised? else h[i + 1][0].outcome == Raised(Name(h[i][0].pc), wrong)
  {
    HistoryIsSynced(cfg, h, i);
    HistoryIsSynced(cfg, h, i + 1);
    EarlierWereRunning(cfg, h, i);
    NextInHistory(cfg, h, i + 1);
    WindowOutcome(cfg, h[i]);
  }

  /** Nothing goes wrong at these positions. */
  ghost predicate Passed(cfg: Config, positions: seq<Pc>)
    requires ValidConfig(cfg)
  {
    forall i | 0 <= i < |positions| :: WrongRanks(cfg, positions[i]) == []
  }

  /** The first gather, or position `i` in the loops over the owner's plan. */
  ghost predicate AtPosition(cfg: Config, pc: Pc, i: nat)
    requires ValidConfig(cfg)
  {
    var own := cfg.plans[OwnerSlot(cfg)];
    if i == 0 then pc == AtPlan else own.Some? && Position(own.value, cfg.ranks, pc) == i
  }

  ghost predicate InLoopOrder(cfg: Config, positions: seq<Pc>)
    requires ValidConfig(cfg)
  {
    forall i | 0 <= i < |positions| :: AtPosition(cfg, positions[i], i)
  }

  lemma {:induction false} QuietBefore(cfg: Config, h: seq<World>, i: nat)
    requires ValidConfig(cfg) && History(cfg, h) && i + 2 < |h|
    ensures h[i] != [] && WrongRanks(cfg, h[i][0].pc) == []
  {
    HistoryOutcome(cfg, h, i);
    EarlierWereRunning(cfg, h, i + 1);
  }

  lemma {:induction false} InOrderBefore(cfg: Config, h: seq<World>, i: nat)
    requires ValidConfig(cfg) && History(cfg, h) && i + 1 < |h|
    ensures h[i] != [] && AtPosition(cfg, h[i][0].pc, i)
  {
    EarlierWereRunning(cfg, h, i);
    HistoryPosition(cfg, h, i);
  }

  /** The log of a history: it is in order, and nothing goes wrong before its last entry. */
  lemma {:induction false} HistoryPassed(cfg: Config, h: seq<World>) returns (passed: seq<Pc>, pc: Pc)
    requires ValidConfig(cfg) && History(cfg, h) && |h| > 1
    ensures var n := |h| - 1;
            h[n] != [] && h[n - 1] != [] && h[n][0].log == passed + [pc] && pc == h[n - 1][0].pc
    ensures Passed(cfg, passed) && InLoopOrder(cfg, passed + [pc])
  {
    var n := |h| - 1;
    HistoryLog(cfg, h, n);
    var log := h[n][0].log;
    passed, pc := log[..n - 1], log[n - 1];
    forall i | 0 <= i < n - 1 ensures WrongRanks(cfg, passed[i]) == [] { QuietBefore(cfg, h, i); }
    forall i | 0 <= i < n ensures AtPosition(cfg, log[i], i) { InOrderBefore(cfg, h, i); }
    assert log == passed + [pc];
  }

  /**
   * A run that has raised has passed a list of positions in the order of the loops, at which
   * nothing goes wrong, and has stopped at the next: its error has the name of the work there
   * and lists exactly the ranks whose work goes wrong, on every rank.
   */
  lemma {:induction false} ErrorIsTheFirst(cfg: Config, run: seq<World>, m: nat) returns (passed: seq<Pc>, pc: Pc)
    requires ValidConfig(cfg) && IsRun(cfg, run) && m < |run|
    requires forall k | 0 <= k < |cfg.ranks| :: !run[m][k].outcome.Running?
    requires run[m][0].outcome.Raised?
    ensures Passed(cfg, passed) && WrongRanks(cfg, pc) != []
    ensures InLoopOrder(cfg, passed + [pc])
    ensures forall k | 0 <= k < |cfg.ranks| ::
              && run[m][k].outcome == Raised(Name(pc), WrongRanks(cfg, pc))
              && run[m][k].log == passed + [pc]
  {
    var h := FinishedHistory(cfg, run, m);
    var n := |h| - 1;
    HistoryStart(cfg, h);
    passed, pc := HistoryPassed(cfg, h);
    HistoryIsSynced(cfg, h, n);
    SyncedIsUniform(cfg, h[n]);
    HistoryOutcome(cfg, h, n - 1);
  }
}
