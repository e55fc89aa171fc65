/**
 * From one synchronised state to the next: the plan phase, the windows of an
 * agreed plan, and what a window with a set error flag leads to.
 */
module VaeRuns {
  import opened Wrappers
  import opened VaePlan
  import opened VaeSchedule
  import opened VaeTensor
  import opened VaeEngine
  import opened VaeProgress
  import opened VaeSync
  import opened VaeWindows

  // ---- The plan phase -------------------------------------------------------

  lemma {:induction false} InitIsSynced(cfg: Config)
    requires ValidConfig(cfg)
    ensures PlanPhase(cfg, Init(cfg)) && Placed(cfg, Init(cfg))
  {}

  lemma {:induction false} PlanActs(cfg: Config, s: World)
    requires ValidConfig(cfg) && PlanPhase(cfg, s) && s[0].pc.AtPlan? && Placed(cfg, s)
    requires FailedRanks(cfg, Acted(cfg, s)) == []
    ensures forall k | 0 <= k < |s| ::
              !PrepareFails(cfg, k)
              && Acted(cfg, s)[k] == Start().(metadata := PreparedMetadata(cfg, k), waiting := Some(false))
  {
    var acted := Acted(cfg, s);
    FailedRanksAreTheFlagged(cfg, acted);
    forall k | 0 <= k < |s|
      ensures !PrepareFails(cfg, k)
      ensures acted[k] == Start().(metadata := PreparedMetadata(cfg, k), waiting := Some(false))
    {
      assert acted[k].waiting != Some(true);
    }
  }

  lemma {:induction false} PlanMoves(cfg: Config, acted: World)
    requires ValidConfig(cfg) && |acted| == |cfg.ranks| && FailedRanks(cfg, acted) == []
    requires forall k | 0 <= k < |acted| ::
               !PrepareFails(cfg, k)
               && acted[k] == Start().(metadata := PreparedMetadata(cfg, k), waiting := Some(false))
    ensures PlanPhase(cfg, Moved(cfg, acted)) && Moved(cfg, acted)[0].pc == AtSignature
  {}

  lemma {:induction false} PlanWindow(cfg: Config, s: World)
    requires ValidConfig(cfg) && PlanPhase(cfg, s) && s[0].pc.AtPlan? && Placed(cfg, s)
    requires FailedRanks(cfg, Acted(cfg, s)) == []
    ensures PlanPhase(cfg, Window(cfg, s)) && Window(cfg, s)[0].pc == AtSignature
  {
    PlanActs(cfg, s);
    PlanMoves(cfg, Acted(cfg, s));
  }

  lemma {:induction false} SignaturesKept(cfg: Config, s: World, acted: World)
    requires ValidConfig(cfg) && |s| == |acted| == |cfg.ranks|
    requires forall k | 0 <= k < |s| :: acted[k].metadata == s[k].metadata
    ensures SignaturesAgree(cfg, acted) <==> SignaturesAgree(cfg, s)
  {}

  lemma {:induction false} SignatureMove(cfg: Config, acted: World, k: nat)
    requires ValidConfig(cfg) && |acted| == |cfg.ranks| && k < |acted|
    requires acted[k].pc.AtSignature? && acted[k].plan.None? && acted[k].outcome.Running?
    requires acted[k].log == [AtPlan] && acted[k].waiting == Some(false)
    ensures var ok := SignaturesAgree(cfg, acted);
            AfterGather(cfg, acted, k) == acted[k].(
              waiting := None,
              log := [AtPlan, AtSignature],
              pc := if ok then AtBroadcast else AtSignature,
              outcome := if ok then Running else Raised(PLAN, cfg.ranks))
  {}

  lemma {:induction false} SignatureMoves(cfg: Config, s: World, acted: World)
    requires ValidConfig(cfg) && PlanPhase(cfg, s) && s[0].pc.AtSignature?
    requires |acted| == |s| && forall k | 0 <= k < |s| :: acted[k] == s[k].(waiting := Some(false))
    ensures forall k | 0 <= k < |s| ::
              Moved(cfg, acted)[k] == s[k].(
                log := [AtPlan, AtSignature],
                pc := if SignaturesAgree(cfg, s) then AtBroadcast else AtSignature,
                outcome := if SignaturesAgree(cfg, s) then Running else Raised(PLAN, cfg.ranks))
  {
    SignaturesKept(cfg, s, acted);
    forall k | 0 <= k < |s|
      ensures Moved(cfg, acted)[k] == s[k].(
                log := [AtPlan, AtSignature],
                pc := if SignaturesAgree(cfg, s) then AtBroadcast else AtSignature,
                outcome := if SignaturesAgree(cfg, s) then Running else Raised(PLAN, cfg.ranks))
    {
      SignatureMove(cfg, acted, k);
    }
  }

  /** The signatures let all ranks go on, or make all raise and name the whole group. */
  lemma {:induction false} SignatureWindow(cfg: Config, s: World)
    requires ValidConfig(cfg) && PlanPhase(cfg, s) && s[0].pc.AtSignature? && Placed(cfg, s)
    ensures SignaturesAgree(cfg, s) ==> PlanPhase(cfg, Window(cfg, s)) && Window(cfg, s)[0].pc == AtBroadcast
    ensures !SignaturesAgree(cfg, s) ==>
              && AllRaised(cfg, Window(cfg, s)) && Window(cfg, s)[0].outcome.failedRanks == cfg.ranks
              && Window(cfg, s)[0].pc == AtSignature
  {
    var acted := Acted(cfg, s);
    forall k | 0 <= k < |s| ensures acted[k] == s[k].(waiting := Some(false)) {}
    SignatureMoves(cfg, s, acted);
    SignatureOutcome(cfg, s, Window(cfg, s));
  }

  lemma {:induction false} SignatureOutcome(cfg: Config, s: World, n: World)
    requires ValidConfig(cfg) && PlanPhase(cfg, s) && s[0].pc.AtSignature? && |n| == |s|
    requires forall k | 0 <= k < |s| ::
               n[k] == s[k].(
                 log := [AtPlan, AtSignature],
                 pc := if SignaturesAgree(cfg, s) then AtBroadcast else AtSignature,
                 outcome := if SignaturesAgree(cfg, s) then Running else Raised(PLAN, cfg.ranks))
    ensures SignaturesAgree(cfg, s) ==> PlanPhase(cfg, n) && n[0].pc == AtBroadcast
    ensures !SignaturesAgree(cfg, s) ==>
              AllRaised(cfg, n) && n[0].outcome.failedRanks == cfg.ranks && n[0].pc == AtSignature
  {
    if SignaturesAgree(cfg, s) {
      assert PlansPrepared(cfg, n);
      assert SignaturesAgree(cfg, n);
    }
  }

  /** The owner's own plan is valid, fits the group and survives the codec. */
  lemma {:induction false} OwnerPlanDecodes(cfg: Config)
    requires ValidConfig(cfg) && !PrepareFails(cfg, OwnerSlot(cfg))
    ensures var plan := cfg.plans[OwnerSlot(cfg)];
            && plan.Some? && cfg.inputs[OwnerSlot(cfg)].Some?
            && PreparedMetadata(cfg, OwnerSlot(cfg)) == PlanValues(plan.value)
            && DecodeValues(PlanValues(plan.value)) == Ok(plan.value)
            && Membership(cfg, plan.value) && Agreed(plan.value, cfg.ranks)
  {
    DecodeOfEncode(cfg.plans[OwnerSlot(cfg)].value);
  }

  lemma {:induction false} SameLengths(cfg: Config, s: World, plan: TaskPlan)
    requires ValidConfig(cfg) && PlanPhase(cfg, s) && s[0].pc.AtBroadcast?
    requires s[OwnerSlot(cfg)].metadata == PlanValues(plan)
    ensures forall k | 0 <= k < |s| :: !PrepareFails(cfg, k) && |PreparedMetadata(cfg, k)| == |PlanValues(plan)|
  {
    forall k | 0 <= k < |s| ensures |PreparedMetadata(cfg, k)| == |PlanValues(plan)| {
      assert s[k].metadata == PreparedMetadata(cfg, k);
    }
  }

  ghost predicate BroadcastActed(cfg: Config, plan: TaskPlan, s: World, acted: World) {
    && |acted| == |s| == |cfg.ranks| == |cfg.plans|
    && forall k | 0 <= k < |s| ::
         var fits := cfg.plans[k].Some? ==> cfg.plans[k].value == plan;
         acted[k] == s[k].(metadata := PlanValues(plan), plan := if fits then Some(plan) else None, waiting := Some(!fits))
  }

  lemma {:induction false} BroadcastAct(cfg: Config, st: RankState, k: nat, plan: TaskPlan)
    requires ValidConfig(cfg) && k < |cfg.ranks|
    requires DecodeValues(PlanValues(plan)) == Ok(plan) && Membership(cfg, plan)
    ensures var fits := cfg.plans[k].Some? ==> cfg.plans[k].value == plan;
            AfterBroadcast(cfg, st, k, PlanValues(plan))
            == st.(metadata := PlanValues(plan), plan := if fits then Some(plan) else None, waiting := Some(!fits))
  {}

  lemma {:induction false} BroadcastActs(cfg: Config, s: World, plan: TaskPlan)
    requires ValidConfig(cfg) && Placed(cfg, s)
    requires forall k | 0 <= k < |s| :: s[k].pc.AtBroadcast?
    requires DecodeValues(PlanValues(plan)) == Ok(plan) && Membership(cfg, plan)
    requires s[OwnerSlot(cfg)].metadata == PlanValues(plan)
    ensures BroadcastActed(cfg, plan, s, Acted(cfg, s))
  {
    var acted := Acted(cfg, s);
    forall k | 0 <= k < |s|
      ensures var fits := cfg.plans[k].Some? ==> cfg.plans[k].value == plan;
              acted[k] == s[k].(metadata := PlanValues(plan), plan := if fits then Some(plan) else None, waiting := Some(!fits))
    {
      assert acted[k] == AfterBroadcast(cfg, s[k], k, PlanValues(plan));
      BroadcastAct(cfg, s[k], k, plan);
    }
  }

  lemma {:induction false} BroadcastFits(cfg: Config, plan: TaskPlan, s: World, acted: World)
    requires BroadcastActed(cfg, plan, s, acted) && FailedRanks(cfg, acted) == []
    ensures forall k | 0 <= k < |s| ::
              && (cfg.plans[k].Some? ==> cfg.plans[k].value == plan)
              && acted[k] == s[k].(metadata := PlanValues(plan), plan := Some(plan), waiting := Some(false))
  {
    FailedRanksAreTheFlagged(cfg, acted);
    forall k | 0 <= k < |s| ensures cfg.plans[k].Some? ==> cfg.plans[k].value == plan {
      assert acted[k].waiting != Some(true);
    }
  }

  lemma {:induction false} BroadcastMoves(cfg: Config, plan: TaskPlan, s: World, acted: World)
    requires ValidConfig(cfg) && Agreed(plan, cfg.ranks) && |s| == |acted| == |cfg.ranks|
    requires forall k | 0 <= k < |s| ::
               && acted[k] == s[k].(metadata := PlanValues(plan), plan := Some(plan), waiting := Some(false))
               && s[k].pc.AtBroadcast? && s[k].outcome.Running? && s[k].merged.None?
               && s[k].inputTransfers == s[k].outputTransfers == 0
    ensures forall k | 0 <= k < |s| ::
              var n := Moved(cfg, acted)[k];
              && n.pc == EnterRound(plan, cfg.ranks, 0) && n.waiting.None? && n.outcome.Running?
              && n.plan == Some(plan) && n.log == s[k].log + [AtBroadcast]
              && n.merged.None? && n.inputTransfers == 0 && n.outputTransfers == 0
  {
    FailedRanksAreTheFlagged(cfg, acted);
    EnterRoundFacts(plan, cfg.ranks, 0);
    forall k | 0 <= k < |s|
      ensures var n := Moved(cfg, acted)[k];
              && n.pc == EnterRound(plan, cfg.ranks, 0) && n.waiting.None? && n.outcome.Running?
              && n.plan == Some(plan) && n.log == s[k].log + [AtBroadcast]
              && n.merged.None? && n.inputTransfers == 0 && n.outputTransfers == 0
    {
      var st := acted[k].(log := s[k].log + [AtBroadcast]);
      assert Moved(cfg, acted)[k] == Advance(cfg, st);
      AdvanceMoves(cfg, plan, st);
    }
  }

  lemma {:induction false} FirstRoundIsWorking(cfg: Config, plan: TaskPlan, full: Tensor, n: World)
    requires ValidConfig(cfg) && Agreed(plan, cfg.ranks) && ArgumentsFit(cfg, plan)
    requires cfg.plans[OwnerSlot(cfg)] == Some(plan) && cfg.inputs[OwnerSlot(cfg)] == Some(full)
    requires |n| == |cfg.ranks|
    requires forall k | 0 <= k < |n| ::
              && n[k].pc == EnterRound(plan, cfg.ranks, 0) && n[k].waiting.None? && n[k].outcome.Running?
              && n[k].plan == Some(plan) && n[k].log == [AtPlan, AtSignature, AtBroadcast]
              && n[k].merged.None? && n[k].inputTransfers == 0 && n[k].outputTransfers == 0
    ensures Working(cfg, plan, full, n)
  {
    EnterRoundFacts(plan, cfg.ranks, 0);
    FreshRoundBuffers(cfg, plan, full, n, 0, EnterRound(plan, cfg.ranks, 0));
    FirstCounts(cfg, plan, n);
    FirstLog(plan, cfg.ranks);
    assert MergedSoFar(plan, cfg.ranks, EnterRound(plan, cfg.ranks, 0)) == [];
  }

  lemma {:induction false} FirstCounts(cfg: Config, plan: TaskPlan, n: World)
    requires Agreed(plan, cfg.ranks) && |n| == |cfg.ranks|
    requires forall k | 0 <= k < |n| :: n[k].inputTransfers == 0 && n[k].outputTransfers == 0
    ensures plan.rounds >= 0 && Counted(cfg, plan, n, EnterRound(plan, cfg.ranks, 0))
  {
    EnterRoundFacts(plan, cfg.ranks, 0);
    forall k | 0 <= k < |n| ensures TransfersOf(cfg, [], k) == 0 {}
  }

  lemma {:induction false} FirstLog(plan: TaskPlan, ranks: seq<int>)
    requires Agreed(plan, ranks)
    ensures plan.rounds >= 0 && Logged(plan, ranks, [AtPlan, AtSignature, AtBroadcast], EnterRound(plan, ranks, 0))
  {
    EnterRoundFacts(plan, ranks, 0);
    var log := [AtPlan, AtSignature, AtBroadcast];
    assert forall i | 0 <= i < |log| :: Position(plan, ranks, log[i]) == i;
  }

  lemma {:induction false} BroadcastPlan(cfg: Config, s: World) returns (plan: TaskPlan, full: Tensor)
    requires ValidConfig(cfg) && PlanPhase(cfg, s) && s[0].pc.AtBroadcast?
    ensures cfg.plans[OwnerSlot(cfg)] == Some(plan) && cfg.inputs[OwnerSlot(cfg)] == Some(full)
    ensures s[OwnerSlot(cfg)].metadata == PlanValues(plan)
    ensures DecodeValues(PlanValues(plan)) == Ok(plan) && Membership(cfg, plan) && Agreed(plan, cfg.ranks)
    ensures forall k | 0 <= k < |s| :: !PrepareFails(cfg, k) && |PreparedMetadata(cfg, k)| == |PlanValues(plan)|
    ensures forall k | 0 <= k < |s| ::
              && s[k].pc.AtBroadcast? && s[k].outcome.Running? && s[k].merged.None?
              && s[k].inputTransfers == s[k].outputTransfers == 0 && s[k].log == [AtPlan, AtSignature]
  {
    assert !PrepareFails(cfg, OwnerSlot(cfg));
    OwnerPlanDecodes(cfg);
    plan, full := cfg.plans[OwnerSlot(cfg)].value, cfg.inputs[OwnerSlot(cfg)].value;
    SameLengths(cfg, s, plan);
  }

  lemma {:induction false} BroadcastWindow(cfg: Config, s: World) returns (plan: TaskPlan, full: Tensor)
    requires ValidConfig(cfg) && PlanPhase(cfg, s) && s[0].pc.AtBroadcast? && Placed(cfg, s)
    requires FailedRanks(cfg, Acted(cfg, s)) == []
    ensures Working(cfg, plan, full, Window(cfg, s))
  {
    plan, full := BroadcastPlan(cfg, s);
    BroadcastWindowOf(cfg, s, plan, full);
  }

  lemma {:induction false} BroadcastWindowOf(cfg: Config, s: World, plan: TaskPlan, full: Tensor)
    requires ValidConfig(cfg) && Placed(cfg, s)
    requires cfg.plans[OwnerSlot(cfg)] == Some(plan) && cfg.inputs[OwnerSlot(cfg)] == Some(full)
    requires s[OwnerSlot(cfg)].metadata == PlanValues(plan)
    requires DecodeValues(PlanValues(plan)) == Ok(plan) && Membership(cfg, plan) && Agreed(plan, cfg.ranks)
    requires forall k | 0 <= k < |s| :: !PrepareFails(cfg, k) && |PreparedMetadata(cfg, k)| == |PlanValues(plan)|
    requires forall k | 0 <= k < |s| ::
              && s[k].pc.AtBroadcast? && s[k].outcome.Running? && s[k].merged.None?
              && s[k].inputTransfers == s[k].outputTransfers == 0 && s[k].log == [AtPlan, AtSignature]
    requires FailedRanks(cfg, Acted(cfg, s)) == []
    ensures Working(cfg, plan, full, Window(cfg, s))
  {
    var acted := Acted(cfg, s);
    BroadcastActs(cfg, s, plan);
    BroadcastFits(cfg, plan, s, acted);
    BroadcastLeadsOn(cfg, s, plan, full, acted);
  }

  lemma {:induction false} BroadcastLeadsOn(cfg: Config, s: World, plan: TaskPlan, full: Tensor, acted: World)
    requires ValidConfig(cfg) && |s| == |acted| == |cfg.ranks|
    requires cfg.plans[OwnerSlot(cfg)] == Some(plan) && cfg.inputs[OwnerSlot(cfg)] == Some(full)
    requires Agreed(plan, cfg.ranks)
    requires forall k | 0 <= k < |s| :: !PrepareFails(cfg, k) && |PreparedMetadata(cfg, k)| == |PlanValues(plan)|
    requires forall k | 0 <= k < |s| ::
              && s[k].pc.AtBroadcast? && s[k].outcome.Running? && s[k].merged.None?
              && s[k].inputTransfers == s[k].outputTransfers == 0 && s[k].log == [AtPlan, AtSignature]
    requires forall k | 0 <= k < |s| ::
              && (cfg.plans[k].Some? ==> cfg.plans[k].value == plan)
              && acted[k] == s[k].(metadata := PlanValues(plan), plan := Some(plan), waiting := Some(false))
    ensures Working(cfg, plan, full, Moved(cfg, acted))
  {
    BroadcastMoves(cfg, plan, s, acted);
    FirstRoundIsWorking(cfg, plan, full, Moved(cfg, acted));
  }

  // ---- Synchronised states stay synchronised ----------------------------------

  /** Two ranks that are about to communicate name each other, with one tag and one shape. */
  ghost predicate Meets(cfg: Config, s: World, k: nat)
    requires ValidConfig(cfg) && Placed(cfg, s) && k < |s|
  {
    match CommOf(cfg, s[k], k)
    case Send(peer, tag, payload) =>
      && peer in cfg.ranks
      && var b := IndexOf(cfg.ranks, peer);
      && b != k && CommOf(cfg, s[b], b) == Receive(cfg.ranks[k], tag, payload.shape)
    case Receive(peer, tag, shape) =>
      && peer in cfg.ranks
      && var b := IndexOf(cfg.ranks, peer);
      && b != k
      && CommOf(cfg, s[b], b).Send?
      && CommOf(cfg, s[b], b) == Send(cfg.ranks[k], tag, CommOf(cfg, s[b], b).payload)
      && CommOf(cfg, s[b], b).payload.shape == shape
    case Broadcast => forall b | 0 <= b < |s| :: CommOf(cfg, s[b], b).Broadcast?
    case NoComm => true
  }

  lemma {:induction false} ScatterMeets(cfg: Config, plan: TaskPlan, full: Tensor, s: World, k: nat)
    requires Working(cfg, plan, full, s) && s[0].pc.AtScatter? && Placed(cfg, s) && k < |s|
    ensures Meets(cfg, s, k)
  {
    var (a, i) := (OwnerSlot(cfg), s[0].pc.slot);
    ScatterComm(cfg, plan, s[k], k);
    ScatterComm(cfg, plan, s[a], a);
    ScatterComm(cfg, plan, s[i], i);
    IndexOfSlot(cfg, a);
    IndexOfSlot(cfg, i);
  }

  lemma {:induction false} GatherMeets(cfg: Config, plan: TaskPlan, full: Tensor, s: World, k: nat)
    requires Working(cfg, plan, full, s) && s[0].pc.AtGather? && Placed(cfg, s) && k < |s|
    ensures Meets(cfg, s, k)
  {
    var a := OwnerSlot(cfg);
    var merges := RoundMerges(plan, cfg.ranks, s[0].pc.round);
    var b := merges[s[0].pc.item].slot;
    assert OutputReady(cfg, full, s, merges[s[0].pc.item], Envelope(plan, cfg.ranks, s[0].pc.round, true));
    GatherComm(cfg, plan, s[k], k);
    GatherComm(cfg, plan, s[a], a);
    GatherComm(cfg, plan, s[b], b);
    IndexOfSlot(cfg, a);
    IndexOfSlot(cfg, b);
  }

  lemma {:induction false} WorkingMeets(cfg: Config, plan: TaskPlan, full: Tensor, s: World)
    requires Working(cfg, plan, full, s) && Placed(cfg, s)
    ensures forall k | 0 <= k < |s| :: Meets(cfg, s, k)
  {
    forall k | 0 <= k < |s| ensures Meets(cfg, s, k) {
      if s[0].pc.AtScatter? { ScatterMeets(cfg, plan, full, s, k); }
      else if s[0].pc.AtGather? { GatherMeets(cfg, plan, full, s, k); }
    }
  }

  lemma {:induction false} PlanPhaseMeets(cfg: Config, s: World)
    requires ValidConfig(cfg) && PlanPhase(cfg, s)
    ensures Placed(cfg, s) && forall k | 0 <= k < |s| :: Meets(cfg, s, k)
  {}

  lemma {:induction false} SyncedMeets(cfg: Config, s: World)
    requires ValidConfig(cfg) && Synced(cfg, s) && s[0].outcome.Running?
    ensures Placed(cfg, s) && forall k | 0 <= k < |s| :: Meets(cfg, s, k)
  {
    if PlanPhase(cfg, s) {
      PlanPhaseMeets(cfg, s);
    } else {
      var plan: TaskPlan, full: Tensor :| Working(cfg, plan, full, s);
      WorkingIsPlaced(cfg, plan, full, s);
      WorkingMeets(cfg, plan, full, s);
    }
  }

  /** Nobody's flag is set, and in the signature gather the rows agree. */
  ghost predicate QuietAt(cfg: Config, s: World)
    requires ValidConfig(cfg) && Placed(cfg, s)
  {
    FailedRanks(cfg, Acted(cfg, s)) == [] && (s[0].pc.AtSignature? ==> SignaturesAgree(cfg, s))
  }

  /** The ranks a raised error names. */
  ghost function Culprits(cfg: Config, s: World): seq<int>
    requires ValidConfig(cfg) && Placed(cfg, s) && |s| > 0
  {
    if s[0].pc.AtSignature? then cfg.ranks else FailedRanks(cfg, Acted(cfg, s))
  }

  lemma {:induction false} QuietWindowIsSynced(cfg: Config, s: World)
    requires ValidConfig(cfg) && Synced(cfg, s) && s[0].outcome.Running? && Placed(cfg, s) && QuietAt(cfg, s)
    ensures Synced(cfg, Window(cfg, s)) && !AllRaised(cfg, Window(cfg, s))
  {
    if PlanPhase(cfg, s) {
      match s[0].pc {
        case AtPlan => PlanWindow(cfg, s);
        case AtSignature => SignatureWindow(cfg, s);
        case AtBroadcast => var plan, full := BroadcastWindow(cfg, s);
      }
    } else {
      var plan: TaskPlan, full: Tensor :| Working(cfg, plan, full, s);
      WorkingWindow(cfg, plan, full, s);
    }
  }

  lemma {:induction false} SignatureActs(cfg: Config, s: World)
    requires ValidConfig(cfg) && Placed(cfg, s) && forall k | 0 <= k < |s| :: s[k].pc.AtSignature?
    ensures FailedRanks(cfg, Acted(cfg, s)) == []
  {
    FailedRanksAreTheFlagged(cfg, Acted(cfg, s));
  }

  lemma {:induction false} FlagsRaise(cfg: Config, s: World)
    requires ValidConfig(cfg) && Uniform(cfg, s) && Placed(cfg, s) && !s[0].pc.AtSignature?
    requires FailedRanks(cfg, Acted(cfg, s)) != [] && forall k | 0 <= k < |s| :: Meets(cfg, s, k)
    ensures AllRaised(cfg, Window(cfg, s)) && Window(cfg, s)[0].pc == s[0].pc
    ensures Window(cfg, s)[0].outcome.failedRanks == FailedRanks(cfg, Acted(cfg, s))
  {
    forall k | 0 <= k < |s|
      ensures var r := ActResult(cfg, s, k);
              r.waiting.Some? && r.pc == s[k].pc && r.log == s[k].log
    {
      assert Meets(cfg, s, k);
      ActKeepsPlace(cfg, s, k);
    }
    FlaggedWindowRaises(cfg, s);
  }

  /** A window in which somebody fails raises on every rank: in its phase, with the exact list of failed ranks. */
  lemma {:induction false} LoudWindowRaises(cfg: Config, s: World)
    requires ValidConfig(cfg) && Synced(cfg, s) && s[0].outcome.Running? && Placed(cfg, s) && !QuietAt(cfg, s)
    requires forall k | 0 <= k < |s| :: Meets(cfg, s, k)
    ensures AllRaised(cfg, Window(cfg, s)) && Window(cfg, s)[0].pc == s[0].pc
    ensures Window(cfg, s)[0].outcome == Raised(PhaseOf(s[0].pc), Culprits(cfg, s))
  {
    if s[0].pc.AtSignature? {
      SignatureActs(cfg, s);
      SignatureWindow(cfg, s);
    } else {
      SyncedIsUniform(cfg, s);
      FlagsRaise(cfg, s);
    }
  }

  lemma {:induction false} WindowIsSynced(cfg: Config, s: World)
    requires ValidConfig(cfg) && Synced(cfg, s) && s[0].outcome.Running? && Placed(cfg, s)
    requires forall k | 0 <= k < |s| :: Meets(cfg, s, k)
    ensures Synced(cfg, Window(cfg, s))
  {
    if QuietAt(cfg, s) { QuietWindowIsSynced(cfg, s); } else { LoudWindowRaises(cfg, s); }
  }
}
