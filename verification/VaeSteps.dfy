/**
 * Interleavings: whatever order the ranks work in, every step keeps the world
 * between two consecutive synchronised states.
 */
module VaeSteps {
  import opened VaeEngine
  import opened VaeSync
  import opened VaeWindows
  import opened VaeRuns

  // ---- Between two synchronised states ----------------------------------------

  /** Rank `k` has not acted since `s`, or has just done its action of the window. */
  ghost predicate AtOrActed(cfg: Config, s: World, w: World, k: nat)
    requires ValidConfig(cfg) && Placed(cfg, s) && |w| == |s| && k < |s|
  {
    w[k] == if w[k].waiting.Some? then ActResult(cfg, s, k) else s[k]
  }

  /** The two ends of a transfer, and all ends of a broadcast, finish together. */
  ghost predicate Together(cfg: Config, s: World, w: World, k: nat)
    requires ValidConfig(cfg) && Placed(cfg, s) && |w| == |s| && k < |s|
  {
    match CommOf(cfg, s[k], k)
    case Send(peer, _, _) =>
      peer in cfg.ranks && (w[k].waiting.Some? <==> w[IndexOf(cfg.ranks, peer)].waiting.Some?)
    case Receive(peer, _, _) =>
      peer in cfg.ranks && (w[k].waiting.Some? <==> w[IndexOf(cfg.ranks, peer)].waiting.Some?)
    case Broadcast => forall b | 0 <= b < |w| :: w[b].waiting.Some? <==> w[k].waiting.Some?
    case NoComm => true
  }

  /** A state that a window can start from. */
  ghost predicate Ready(cfg: Config, s: World)
    requires ValidConfig(cfg)
  {
    && |s| == |cfg.ranks| && Placed(cfg, s)
    && forall k | 0 <= k < |s| :: Meets(cfg, s, k) && s[k].waiting.None? && s[k].outcome.Running?
  }

  ghost predicate Between(cfg: Config, s: World, w: World)
    requires ValidConfig(cfg) && Ready(cfg, s)
  {
    |w| == |s| && forall k | 0 <= k < |s| :: AtOrActed(cfg, s, w, k) && Together(cfg, s, w, k)
  }

  lemma {:induction false} SyncedIsReady(cfg: Config, s: World)
    requires ValidConfig(cfg) && Synced(cfg, s) && s[0].outcome.Running?
    ensures Ready(cfg, s) && Between(cfg, s, s)
  {
    SyncedMeets(cfg, s);
    SyncedIsUniform(cfg, s);
    forall k | 0 <= k < |s| ensures AtOrActed(cfg, s, s, k) && Together(cfg, s, s, k) {
      assert Meets(cfg, s, k);
    }
  }

  lemma {:induction false} ActEndsWaiting(cfg: Config, s: World, k: nat)
    requires ValidConfig(cfg) && Placed(cfg, s) && k < |s| && Meets(cfg, s, k)
    ensures var r := ActResult(cfg, s, k);
            r.waiting.Some? && r.pc == s[k].pc && r.log == s[k].log && r.outcome == s[k].outcome
  {
    ActKeepsPlace(cfg, s, k);
  }

  // ---- Steps ------------------------------------------------------------------

  lemma {:induction false} LocalStepStays(cfg: Config, s: World, w: World, w': World, k: nat)
    requires ValidConfig(cfg) && Ready(cfg, s) && Between(cfg, s, w)
    requires LocalStep(cfg, w, w', k)
    ensures Between(cfg, s, w')
    ensures w'[k].waiting.Some? && w' == w[k := w'[k]] && w[k].waiting.None?
  {
    assert AtOrActed(cfg, s, w, k) && Meets(cfg, s, k);
    ActEndsWaiting(cfg, s, k);
    forall m | 0 <= m < |s| ensures AtOrActed(cfg, s, w', m) && Together(cfg, s, w', m) {
      assert AtOrActed(cfg, s, w, m) && Together(cfg, s, w, m) && Meets(cfg, s, m);
    }
  }

  /** Where two ranks' actions meet, both are still where the window started. */
  lemma {:induction false} TransferEnds(cfg: Config, s: World, w: World, w': World, a: nat, b: nat)
    requires ValidConfig(cfg) && Ready(cfg, s) && Between(cfg, s, w)
    requires TransferStep(cfg, w, w', a, b)
    ensures w[a] == s[a] && w[b] == s[b] && w[a].waiting.None? && w[b].waiting.None?
    ensures CommOf(cfg, s[a], a).Send? && CommOf(cfg, s[a], a).peer == cfg.ranks[b]
    ensures CommOf(cfg, s[b], b).Receive? && CommOf(cfg, s[b], b).peer == cfg.ranks[a]
    ensures w' == w[a := AfterSend(s[a])][b := AfterReceive(s[b], CommOf(cfg, s[a], a).payload)]
  {
    assert AtOrActed(cfg, s, w, a) && AtOrActed(cfg, s, w, b);
  }

  lemma {:induction false} TransferResults(cfg: Config, s: World, a: nat, b: nat)
    requires ValidConfig(cfg) && Placed(cfg, s) && |s| == |cfg.ranks| && a < |s| && b < |s|
    requires CommOf(cfg, s[a], a).Send? && CommOf(cfg, s[a], a).peer == cfg.ranks[b]
    requires CommOf(cfg, s[b], b).Receive? && CommOf(cfg, s[b], b).peer == cfg.ranks[a]
    ensures ActResult(cfg, s, a) == AfterSend(s[a])
    ensures ActResult(cfg, s, b) == AfterReceive(s[b], CommOf(cfg, s[a], a).payload)
  {
    IndexOfSlot(cfg, a);
  }

  /** A transfer between `a` and `b` leaves every other rank's peer alone. */
  lemma {:induction false} TransferTogether(cfg: Config, s: World, w: World, w': World, a: nat, b: nat, m: nat)
    requires ValidConfig(cfg) && Placed(cfg, s) && |w| == |s| && a < |s| && b < |s| && a != b && m < |s|
    requires Meets(cfg, s, m) && Together(cfg, s, w, m)
    requires CommOf(cfg, s[a], a).Send? && CommOf(cfg, s[a], a).peer == cfg.ranks[b]
    requires CommOf(cfg, s[b], b).Receive? && CommOf(cfg, s[b], b).peer == cfg.ranks[a]
    requires |w'| == |w| && forall k | 0 <= k < |w| && k != a && k != b :: w'[k] == w[k]
    requires w'[a].waiting.Some? && w'[b].waiting.Some?
    ensures Together(cfg, s, w', m)
  {
    IndexOfSlot(cfg, a);
    IndexOfSlot(cfg, b);
    IndexOfSlot(cfg, m);
  }

  lemma {:induction false} TransferStepStays(cfg: Config, s: World, w: World, w': World, a: nat, b: nat)
    requires ValidConfig(cfg) && Ready(cfg, s) && Between(cfg, s, w)
    requires TransferStep(cfg, w, w', a, b)
    ensures Between(cfg, s, w')
    ensures w'[a].waiting.Some? && w'[b].waiting.Some? && w' == w[a := w'[a]][b := w'[b]]
    ensures w[a].waiting.None? && w[b].waiting.None?
  {
    TransferEnds(cfg, s, w, w', a, b);
    TransferResults(cfg, s, a, b);
    TransferStays(cfg, s, w, w', a, b);
  }

  lemma {:induction false} TransferActs(cfg: Config, s: World, w: World, w': World, a: nat, b: nat)
    requires ValidConfig(cfg) && Placed(cfg, s) && |w| == |s| == |w'| && a < |s| && b < |s| && a != b
    requires forall m | 0 <= m < |s| :: AtOrActed(cfg, s, w, m)
    requires Meets(cfg, s, a) && Meets(cfg, s, b)
    requires w' == w[a := ActResult(cfg, s, a)][b := ActResult(cfg, s, b)]
    ensures w'[a].waiting.Some? && w'[b].waiting.Some?
    ensures forall m | 0 <= m < |s| :: AtOrActed(cfg, s, w', m)
  {
    ActEndsWaiting(cfg, s, a);
    ActEndsWaiting(cfg, s, b);
    forall m | 0 <= m < |s| ensures AtOrActed(cfg, s, w', m) {
      assert AtOrActed(cfg, s, w, m);
    }
  }

  lemma {:induction false} TransferStays(cfg: Config, s: World, w: World, w': World, a: nat, b: nat)
    requires ValidConfig(cfg) && Ready(cfg, s) && Between(cfg, s, w) && a < |s| && b < |s| && a != b
    requires CommOf(cfg, s[a], a).Send? && CommOf(cfg, s[a], a).peer == cfg.ranks[b]
    requires CommOf(cfg, s[b], b).Receive? && CommOf(cfg, s[b], b).peer == cfg.ranks[a]
    requires w' == w[a := ActResult(cfg, s, a)][b := ActResult(cfg, s, b)]
    ensures Between(cfg, s, w') && w'[a].waiting.Some? && w'[b].waiting.Some?
  {
    TransferActs(cfg, s, w, w', a, b);
    forall m | 0 <= m < |s| ensures Together(cfg, s, w', m) {
      assert Together(cfg, s, w, m) && Meets(cfg, s, m);
      TransferTogether(cfg, s, w, w', a, b, m);
    }
  }

  lemma {:induction false} BroadcastStepStays(cfg: Config, s: World, w: World, w': World)
    requires ValidConfig(cfg) && Ready(cfg, s) && Between(cfg, s, w)
    requires BroadcastStep(cfg, w, w')
    ensures Between(cfg, s, w')
    ensures forall k | 0 <= k < |w| :: w[k].waiting.None? && w'[k].waiting.Some?
  {
    forall m | 0 <= m < |s| ensures w[m] == s[m] && w[m].waiting.None? {
      assert AtOrActed(cfg, s, w, m) && Acting(cfg, w, m);
    }
    forall m | 0 <= m < |s| ensures w'[m] == ActResult(cfg, s, m) && w'[m].waiting.Some? {
      assert Meets(cfg, s, m);
      ActEndsWaiting(cfg, s, m);
    }
    forall m | 0 <= m < |s| ensures AtOrActed(cfg, s, w', m) && Together(cfg, s, w', m) {}
  }

  lemma {:induction false} GatherStepAdvances(cfg: Config, s: World, w: World, w': World)
    requires ValidConfig(cfg) && Ready(cfg, s) && Between(cfg, s, w)
    requires GatherStep(cfg, w, w')
    ensures w == Acted(cfg, s) && w' == Window(cfg, s)
  {
    forall m | 0 <= m < |s| ensures w[m] == ActResult(cfg, s, m) {
      assert AtOrActed(cfg, s, w, m);
    }
    assert w == Acted(cfg, s);
    assert w' == Window(cfg, s);
  }

  // ---- Counting steps -----------------------------------------------------------

  ghost function Waiting(w: World): nat {
    if w == [] then 0
    else Waiting(w[..|w| - 1]) + if w[|w| - 1].waiting.Some? then 1 else 0
  }

  lemma {:induction false} WaitingAtMost(w: World)
    ensures Waiting(w) <= |w|
    ensures Waiting(w) == |w| <==> forall k | 0 <= k < |w| :: w[k].waiting.Some?
  {
    if w != [] {
      var last := |w| - 1;
      WaitingAtMost(w[..last]);
      assert forall k | 0 <= k < last :: w[..last][k] == w[k];
    }
  }

  lemma {:induction false} OneMoreWaiting(w: World, k: nat, st: RankState)
    requires k < |w| && w[k].waiting.None? && st.waiting.Some?
    ensures Waiting(w[k := st]) == Waiting(w) + 1
  {
    var last := |w| - 1;
    if k == last {
      assert w[k := st][..last] == w[..last];
    } else {
      OneMoreWaiting(w[..last], k, st);
      assert w[k := st][..last] == w[..last][k := st];
    }
  }

  lemma {:induction false} NobodyWaits(w: World)
    requires forall k | 0 <= k < |w| :: w[k].waiting.None?
    ensures Waiting(w) == 0
  {
    if w != [] { NobodyWaits(w[..|w| - 1]); }
  }

  /** A step that is not a gather adds waiting ranks and stays inside the window. */
  ghost predicate Grows(w: World, w': World) {
    && |w'| == |w|
    && Waiting(w) + 1 <= Waiting(w')
    && forall k | 0 <= k < |w| && w[k].waiting.Some? :: w'[k] == w[k]
  }

  lemma {:induction false} LocalGrows(w: World, w': World, k: nat)
    requires k < |w| && |w'| == |w| && w' == w[k := w'[k]] && w'[k].waiting.Some? && w[k].waiting.None?
    ensures Grows(w, w')
  {
    OneMoreWaiting(w, k, w'[k]);
  }

  lemma {:induction false} TransferGrows(w: World, w': World, a: nat, b: nat)
    requires a < |w| && b < |w| && a != b && |w'| == |w| && w' == w[a := w'[a]][b := w'[b]]
    requires w'[a].waiting.Some? && w'[b].waiting.Some? && w[a].waiting.None? && w[b].waiting.None?
    ensures Grows(w, w')
  {
    OneMoreWaiting(w, a, w'[a]);
    OneMoreWaiting(w[a := w'[a]], b, w'[b]);
  }

  lemma {:induction false} BroadcastGrows(w: World, w': World)
    requires |w| == |w'| > 0 && forall k | 0 <= k < |w| :: w[k].waiting.None? && w'[k].waiting.Some?
    ensures Grows(w, w')
  {
    NobodyWaits(w);
    WaitingAtMost(w');
  }

  lemma {:induction false} QuietStepStays(cfg: Config, s: World, w: World, w': World)
    requires ValidConfig(cfg) && Ready(cfg, s) && Between(cfg, s, w)
    requires Step(cfg, w, w') && !GatherStep(cfg, w, w')
    ensures Between(cfg, s, w') && Grows(w, w')
  {
    if k: nat :| LocalStep(cfg, w, w', k) {
      LocalStepStays(cfg, s, w, w', k);
      LocalGrows(w, w', k);
    } else if a: nat, b: nat :| TransferStep(cfg, w, w', a, b) {
      TransferStepStays(cfg, s, w, w', a, b);
      TransferGrows(w, w', a, b);
    } else {
      BroadcastStepStays(cfg, s, w, w');
      BroadcastGrows(w, w');
    }
  }

  lemma {:induction false} SomeoneRuns(cfg: Config, w: World, w': World) returns (k: nat)
    requires ValidConfig(cfg) && |w| == |cfg.ranks| && Step(cfg, w, w')
    ensures k < |w| && w[k].outcome.Running?
  {
    if m: nat :| LocalStep(cfg, w, w', m) {
      k := m;
    } else if a: nat, b: nat :| TransferStep(cfg, w, w', a, b) {
      k := a;
    } else {
      k := 0;
      assert BroadcastStep(cfg, w, w') ==> Acting(cfg, w, 0);
    }
  }

  /** `w` lies after the synchronised state `s` and before the next one. */
  ghost predicate After(cfg: Config, s: World, w: World)
    requires ValidConfig(cfg)
  {
    && |s| == |w| == |cfg.ranks|
    && if s[0].outcome.Running? then Ready(cfg, s) && Between(cfg, s, w) else w == s
  }

  lemma {:induction false} SyncedIsAfter(cfg: Config, s: World)
    requires ValidConfig(cfg) && Synced(cfg, s)
    ensures After(cfg, s, s)
  {
    SyncedIsUniform(cfg, s);
    if s[0].outcome.Running? { SyncedIsReady(cfg, s); }
  }

  /** Every step keeps the world between the same two states, or completes the window. */
  lemma {:induction false} StepStays(cfg: Config, s: World, w: World, w': World)
    requires ValidConfig(cfg) && After(cfg, s, w) && Uniform(cfg, s) && Step(cfg, w, w')
    ensures s[0].outcome.Running? && Ready(cfg, s)
    ensures GatherStep(cfg, w, w') ==>
              w' == Window(cfg, s) && forall k | 0 <= k < |w| :: w[k].waiting.Some?
    ensures !GatherStep(cfg, w, w') ==> After(cfg, s, w') && Grows(w, w')
  {
    var k := SomeoneRuns(cfg, w, w');
    if GatherStep(cfg, w, w') {
      GatherStepAdvances(cfg, s, w, w');
    } else {
      QuietStepStays(cfg, s, w, w');
    }
  }
}
