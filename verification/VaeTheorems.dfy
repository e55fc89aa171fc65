/**
 * What every run of the engine keeps, in any interleaving of the ranks:
 * agreement, matched transfers, freedom from deadlock, termination, common
 * failure, and the owner's result.
 */
module VaeTheorems {
  import opened Wrappers
  import opened Arithmetic
  import opened VaeEngine
  import opened VaeSync
  import opened VaeRuns
  import opened VaeSteps
  import opened VaeSuccess
  import opened VaeHistory

  // ---- Agreement ----------------------------------------------------------------

  /**
   * At every moment all ranks stand at the same position, have completed the same
   * control gathers, and have the same outcome; no rank raises outside a phase.
   */
  lemma {:induction false} RanksAgree(cfg: Config, run: seq<World>, m: nat, k: nat, l: nat)
    requires ValidConfig(cfg) && IsRun(cfg, run) && m < |run| && k < |cfg.ranks| && l < |cfg.ranks|
    ensures run[m][k].pc == run[m][l].pc
    ensures run[m][k].log == run[m][l].log
    ensures run[m][k].outcome == run[m][l].outcome
    ensures !run[m][k].outcome.Crashed?
  {
    var s := WindowStart(cfg, run, m);
    AfterAgrees(cfg, s, run[m]);
  }

  // ---- Control gathers ----------------------------------------------------------

  /** No rank passes the same gather twice, and so no transfer is posted twice. */
  lemma {:induction false} GathersNeverRepeat(cfg: Config, run: seq<World>, m: nat, k: nat)
    requires ValidConfig(cfg) && IsRun(cfg, run) && m < |run| && k < |cfg.ranks|
    ensures var st := run[m][k];
            && (forall i, j | 0 <= i < j < |st.log| :: st.log[i] != st.log[j])
            && (st.outcome.Running? ==> st.pc !in st.log)
  {
    var h := RunHistory(cfg, run, m);
    var (i, st) := (|h| - 1, run[m][k]);
    AfterAgrees(cfg, h[i], run[m]);
    HistoryLog(cfg, h, i);
    forall a, b | 0 <= a < b < |st.log| ensures st.log[a] != st.log[b] {
      EarlierWereRunning(cfg, h, b);
      PositionsDiffer(cfg, h, a, b);
    }
    if st.outcome.Running? {
      forall a | 0 <= a < |st.log| ensures st.log[a] != st.pc {
        PositionsDiffer(cfg, h, a, i);
      }
    }
  }

  /** The log has one entry per gather, and never more than the plan allows. */
  lemma {:induction false} GathersAreBounded(cfg: Config, run: seq<World>, m: nat, k: nat)
    requires ValidConfig(cfg) && IsRun(cfg, run) && m < |run| && k < |cfg.ranks|
    ensures |run[m][k].log| <= MostGathers(cfg)
  {
    var h := RunHistory(cfg, run, m);
    AfterAgrees(cfg, h[|h| - 1], run[m]);
    HistoryLog(cfg, h, |h| - 1);
    HistoryIsShort(cfg, h);
  }

  lemma {:induction false} HistoryIsShort(cfg: Config, h: seq<World>)
    requires ValidConfig(cfg) && History(cfg, h)
    ensures |h| <= MostGathers(cfg) || (|h| == MostGathers(cfg) + 1 && h[|h| - 1] != [] && !h[|h| - 1][0].outcome.Running?)
  {
    var last := |h| - 1;
    HistoryLog(cfg, h, last);
    if h[last][0].outcome.Running? {
      HistoryPosition(cfg, h, last);
    } else if last > 0 {
      EarlierWereRunning(cfg, h, last - 1);
      HistoryPosition(cfg, h, last - 1);
    }
  }

  // ---- Transfers ----------------------------------------------------------------

  /** Tags tell rounds, slots and directions apart. */
  lemma {:induction false} TagsAreDistinct(r: nat, s: nat, r': nat, s': nat, output: bool, output': bool, groupSize: nat)
    requires s < groupSize && s' < groupSize
    ensures TransferTag(r, s, groupSize, output) == TransferTag(r', s', groupSize, output')
            <==> r == r' && s == s' && output == output'
  {
    var (x, x') := (s + (if output then groupSize else 0), s' + (if output' then groupSize else 0));
    TagIsANumeral(r, s, groupSize, output);
    TagIsANumeral(r', s', groupSize, output');
    SameNumeral(2 * groupSize, r, x, r', x');
  }

  /** A tag has the round before the direction and slot, to the base of twice the group. */
  lemma {:induction false} TagIsANumeral(r: nat, s: nat, groupSize: nat, output: bool)
    ensures TransferTag(r, s, groupSize, output) == (2 * groupSize) * r + (s + if output then groupSize else 0)
  {
    Associate(r, groupSize, 2);
    Commute(r, groupSize * 2);
  }

  predicate Mirrors(a: Comm, b: Comm, rankA: int, rankB: int) {
    || (a.Send? && b == Receive(rankA, a.tag, a.payload.shape) && a.peer == rankB)
    || (b.Send? && a == Receive(rankB, b.tag, b.payload.shape) && b.peer == rankA)
  }

  /**
   * A rank that is about to send or receive has exactly one partner, which is at
   * its own end of the same transfer: same tag, same envelope shape.
   */
  lemma {:induction false} TransfersMatch(cfg: Config, run: seq<World>, m: nat, a: nat) returns (b: nat)
    requires ValidConfig(cfg) && IsRun(cfg, run) && m < |run| && Acting(cfg, run[m], a)
    requires CommOf(cfg, run[m][a], a).Send? || CommOf(cfg, run[m][a], a).Receive?
    ensures b != a && Acting(cfg, run[m], b)
    ensures Mirrors(CommOf(cfg, run[m][a], a), CommOf(cfg, run[m][b], b), cfg.ranks[a], cfg.ranks[b])
    ensures forall c: nat | c != a && c != b && Acting(cfg, run[m], c) ::
              !CommOf(cfg, run[m][c], c).Broadcast?
              && !Mirrors(CommOf(cfg, run[m][c], c), CommOf(cfg, run[m][a], a), cfg.ranks[c], cfg.ranks[a])
  {
    var s := WindowStart(cfg, run, m);
    AfterAgrees(cfg, s, run[m]);
    b := PartnerOf(cfg, s, run[m], a);
  }

  lemma {:induction false} PartnerOf(cfg: Config, s: World, w: World, a: nat) returns (b: nat)
    requires ValidConfig(cfg) && Ready(cfg, s) && Between(cfg, s, w) && Acting(cfg, w, a)
    requires CommOf(cfg, w[a], a).Send? || CommOf(cfg, w[a], a).Receive?
    ensures b != a && Acting(cfg, w, b) && w[b] == s[b] && w[a] == s[a]
    ensures Mirrors(CommOf(cfg, w[a], a), CommOf(cfg, w[b], b), cfg.ranks[a], cfg.ranks[b])
    ensures forall c: nat | c != a && c != b && Acting(cfg, w, c) ::
              !CommOf(cfg, w[c], c).Broadcast?
              && !Mirrors(CommOf(cfg, w[c], c), CommOf(cfg, w[a], a), cfg.ranks[c], cfg.ranks[a])
  {
    assert AtOrActed(cfg, s, w, a) && Together(cfg, s, w, a) && Meets(cfg, s, a);
    b := IndexOf(cfg.ranks, CommOf(cfg, s[a], a).peer);
    assert AtOrActed(cfg, s, w, b);
    forall c: nat | c != a && c != b && Acting(cfg, w, c)
      ensures !CommOf(cfg, w[c], c).Broadcast?
      ensures !Mirrors(CommOf(cfg, w[c], c), CommOf(cfg, w[a], a), cfg.ranks[c], cfg.ranks[a])
    {
      assert AtOrActed(cfg, s, w, c) && Meets(cfg, s, c);
    }
  }

  // ---- Progress -----------------------------------------------------------------

  lemma {:induction false} CanGather(cfg: Config, s: World, w: World) returns (w': World)
    requires ValidConfig(cfg) && Ready(cfg, s) && Between(cfg, s, w)
    requires forall k | 0 <= k < |w| :: w[k].waiting.Some?
    ensures Step(cfg, w, w') && |w'| == |w|
  {
    forall k | 0 <= k < |w| ensures w[k].outcome.Running? {
      assert AtOrActed(cfg, s, w, k) && Meets(cfg, s, k);
      ActEndsWaiting(cfg, s, k);
    }
    w' := Moved(cfg, w);
    assert GatherStep(cfg, w, w');
  }

  lemma {:induction false} CanBroadcast(cfg: Config, s: World, w: World, k: nat) returns (w': World)
    requires ValidConfig(cfg) && Ready(cfg, s) && Between(cfg, s, w) && k < |w| && w[k].waiting.None?
    requires CommOf(cfg, s[k], k).Broadcast?
    ensures Step(cfg, w, w') && |w'| == |w|
  {
    assert Together(cfg, s, w, k) && Meets(cfg, s, k);
    forall b | 0 <= b < |w| ensures Acting(cfg, w, b) && CommOf(cfg, w[b], b).Broadcast? {
      assert AtOrActed(cfg, s, w, b);
    }
    w' := seq(|w|, b requires 0 <= b < |w| => AfterBroadcast(cfg, w[b], b, w[OwnerSlot(cfg)].metadata));
    assert BroadcastStep(cfg, w, w');
  }

  lemma {:induction false} CanTransfer(cfg: Config, w: World, a: nat, b: nat) returns (w': World)
    requires ValidConfig(cfg) && |w| == |cfg.ranks| && a != b && Acting(cfg, w, a) && Acting(cfg, w, b)
    requires CommOf(cfg, w[a], a).Send?
    requires Mirrors(CommOf(cfg, w[a], a), CommOf(cfg, w[b], b), cfg.ranks[a], cfg.ranks[b])
    ensures Step(cfg, w, w') && |w'| == |w|
  {
    w' := w[a := AfterSend(w[a])][b := AfterReceive(w[b], CommOf(cfg, w[a], a).payload)];
    assert TransferStep(cfg, w, w', a, b);
  }

  lemma {:induction false} CanStep(cfg: Config, s: World, w: World) returns (w': World)
    requires ValidConfig(cfg) && Ready(cfg, s) && Between(cfg, s, w)
    ensures Step(cfg, w, w') && |w'| == |w|
  {
    if k: nat :| k < |w| && w[k].waiting.None? {
      assert AtOrActed(cfg, s, w, k);
      assert Acting(cfg, w, k);
      match CommOf(cfg, s[k], k) {
        case NoComm =>
          w' := w[k := LocalAct(cfg, w[k], k)];
          assert LocalStep(cfg, w, w', k);
        case Broadcast => w' := CanBroadcast(cfg, s, w, k);
        case Send(_, _, _) =>
          var b := PartnerOf(cfg, s, w, k);
          w' := CanTransfer(cfg, w, k, b);
        case Receive(_, _, _) =>
          var a := PartnerOf(cfg, s, w, k);
          w' := CanTransfer(cfg, w, a, k);
      }
    } else {
      w' := CanGather(cfg, s, w);
    }
  }

  /** As long as some rank runs, some rank can move. */
  lemma {:induction false} NeverStuck(cfg: Config, run: seq<World>, m: nat, k: nat) returns (w': World)
    requires ValidConfig(cfg) && IsRun(cfg, run) && m < |run| && k < |cfg.ranks| && run[m][k].outcome.Running?
    ensures Step(cfg, run[m], w') && |w'| == |cfg.ranks|
  {
    var s := WindowStart(cfg, run, m);
    AfterAgrees(cfg, s, run[m]);
    w' := CanStep(cfg, s, run[m]);
  }

  lemma {:induction false} StepsBelow(n: nat, i: nat, most: nat, waiting: nat)
    requires waiting <= n && (i < most || (i == most && waiting == 0))
    ensures (n + 1) * i + waiting <= (n + 1) * most
  {
    if i < most { Larger(n + 1, i, most); }
  }

  /** Every run ends: each gather costs at most one step per rank and one for itself. */
  lemma {:induction false} RunsAreShort(cfg: Config, run: seq<World>)
    requires ValidConfig(cfg) && IsRun(cfg, run)
    ensures |run| - 1 <= (|cfg.ranks| + 1) * MostGathers(cfg)
  {
    var m := |run| - 1;
    var h := RunHistory(cfg, run, m);
    var last := h[|h| - 1];
    WaitingAtMost(run[m]);
    HistoryIsShort(cfg, h);
    if !last[0].outcome.Running? { NobodyWaits(run[m]); }
    BudgetIsProduct(|cfg.ranks| + 1, |h| - 1);
    StepsBelow(|cfg.ranks|, |h| - 1, MostGathers(cfg), Waiting(run[m]));
  }

  // ---- Failures -----------------------------------------------------------------

  /** After a failing window nothing more happens. */
  lemma {:induction false} FailureStops(cfg: Config, h: seq<World>, h': seq<World>, k: nat)
    requires ValidConfig(cfg) && History(cfg, h) && History(cfg, h') && h <= h'
    requires var s := h[|h| - 1];
             |s| == |cfg.ranks| && s[0].outcome.Running? && Ready(cfg, s) && k < |s|
             && ActResult(cfg, s, k).waiting == Some(true)
    ensures |h'| <= |h| + 1
    ensures |h'| == |h| + 1 ==> Failing(cfg, h'[|h|], h[|h| - 1][0].pc, cfg.ranks[k])
  {
    if |h'| > |h| {
      assert h'[|h| - 1] == h[|h| - 1];
      assert FollowsAt(cfg, h', |h|) && Ask(true);
      if |h'| > |h| + 1 { EarlierWereRunning(cfg, h', |h|); }
    }
  }

  lemma {:induction false} FailingAgrees(cfg: Config, s: World, w: World, pc: Pc, rank: int)
    requires ValidConfig(cfg) && After(cfg, s, w) && Uniform(cfg, s)
    requires Failing(cfg, s, pc, rank) || (s[0].outcome.Running? && s[0].pc == pc)
    ensures Failing(cfg, w, pc, rank)
  {
    AfterAgrees(cfg, s, w);
  }

  /** The windows of an earlier and a later world, when a rank has failed in the earlier one. */
  lemma {:induction false} FailureWindows(cfg: Config, run: seq<World>, m: nat, m': nat, k: nat) returns (s: World, s': World)
    requires ValidConfig(cfg) && IsRun(cfg, run) && m <= m' < |run| && k < |cfg.ranks|
    requires run[m][k].waiting == Some(true)
    ensures Milestone(cfg, s) && After(cfg, s, run[m]) && Milestone(cfg, s') && After(cfg, s', run[m'])
    ensures Failing(cfg, s', s[0].pc, cfg.ranks[k]) || (s' == s && s[0].outcome.Running?)
  {
    var h := HistoryOfRun(cfg, run, m);
    var h' := LaterHistory(cfg, run, m, m', h);
    s, s' := h[|h| - 1], h'[|h'| - 1];
    assert MilestoneAt(cfg, h, |h| - 1) && MilestoneAt(cfg, h', |h'| - 1) && Ask(true);
    FailedHere(cfg, s, run[m], k);
    FailureStops(cfg, h, h', k);
  }

  /**
   * Once a rank has failed in some phase, nobody gets past that phase: every later
   * world has all ranks at the same gather, or raised there with the rank's name.
   */
  lemma {:induction false} FailureIsCommon(cfg: Config, run: seq<World>, m: nat, m': nat, k: nat)
    requires ValidConfig(cfg) && IsRun(cfg, run) && m <= m' < |run| && k < |cfg.ranks|
    requires run[m][k].waiting == Some(true)
    ensures Failing(cfg, run[m'], run[m][k].pc, cfg.ranks[k])
  {
    var s, s' := FailureWindows(cfg, run, m, m', k);
    AfterAgrees(cfg, s, run[m]);
    FailingAgrees(cfg, s', run[m'], s[0].pc, cfg.ranks[k]);
  }

  lemma {:induction false} FailedHere(cfg: Config, s: World, w: World, k: nat)
    requires ValidConfig(cfg) && After(cfg, s, w) && Milestone(cfg, s) && k < |w| && w[k].waiting == Some(true)
    ensures s[0].outcome.Running? && Ready(cfg, s) && ActResult(cfg, s, k).waiting == Some(true)
  {
    if s[0].outcome.Running? { assert AtOrActed(cfg, s, w, k); }
  }

  // ---- Outcome --------------------------------------------------------------------

  /**
   * A group whose run is over has returned everywhere if and only if everything
   * succeeds, and then the owner holds the serial fold over the schedule, every
   * rank has completed exactly 4 + 4 * tasks + rounds control gathers and one input and one
   * output transfer per travelling task. Otherwise all have raised the same error.
   */
  lemma {:induction false} FinishedRuns(cfg: Config, run: seq<World>, m: nat)
    requires ValidConfig(cfg) && IsRun(cfg, run) && m < |run|
    requires forall k | 0 <= k < |cfg.ranks| :: !run[m][k].outcome.Running?
    ensures Succeeds(cfg) ==>
              Delivered(cfg, run[m]) && forall k | 0 <= k < |cfg.ranks| :: run[m][k].outcome.Returned?
    ensures !Succeeds(cfg) ==>
              && run[m][0].outcome.Raised? && run[m][0].outcome.failedRanks != []
              && forall k | 0 <= k < |cfg.ranks| :: run[m][k].outcome == run[m][0].outcome
  {
    var s := WindowStart(cfg, run, m);
    AfterAgrees(cfg, s, run[m]);
  }

  /** Histories of one configuration start alike. */
  lemma {:induction false} SameHistory(cfg: Config, h: seq<World>, h': seq<World>, i: nat)
    requires ValidConfig(cfg) && History(cfg, h) && History(cfg, h') && i < |h| && i < |h'|
    ensures h[i] == h'[i]
  {
    if i == 0 {
      HistoryStart(cfg, h);
      HistoryStart(cfg, h');
    } else {
      SameHistory(cfg, h, h', i - 1);
      SameNext(cfg, h, h', i);
    }
  }

  lemma {:induction false} SameNext(cfg: Config, h: seq<World>, h': seq<World>, i: nat)
    requires ValidConfig(cfg) && History(cfg, h) && History(cfg, h')
    requires 0 < i < |h| && i < |h'| && h[i - 1] == h'[i - 1]
    ensures h[i] == h'[i]
  {
    NextInHistory(cfg, h, i);
    NextInHistory(cfg, h', i);
  }

  lemma {:induction false} HistoryStart(cfg: Config, h: seq<World>)
    requires ValidConfig(cfg) && History(cfg, h)
    ensures h[0] == Init(cfg)
  {}

  lemma {:induction false} NextInHistory(cfg: Config, h: seq<World>, i: nat)
    requires ValidConfig(cfg) && History(cfg, h) && 0 < i < |h|
    ensures Placed(cfg, h[i - 1]) && h[i] == Window(cfg, h[i - 1])
  {
    assert FollowsAt(cfg, h, i) && Ask(true);
  }

  /** A history whose last world is over cannot go on. */
  lemma {:induction false} NoLongerHistory(cfg: Config, h: seq<World>, h': seq<World>)
    requires ValidConfig(cfg) && History(cfg, h) && History(cfg, h')
    requires h[|h| - 1] != [] && !h[|h| - 1][0].outcome.Running?
    ensures |h'| <= |h|
  {
    if |h| < |h'| {
      SameHistory(cfg, h, h', |h| - 1);
      EarlierWereRunning(cfg, h', |h| - 1);
    }
  }

  /** The last world of a run that is over is the last one of its history. */
  lemma {:induction false} FinishedHistory(cfg: Config, run: seq<World>, m: nat) returns (h: seq<World>)
    requires ValidConfig(cfg) && IsRun(cfg, run) && m < |run|
    requires forall k | 0 <= k < |cfg.ranks| :: !run[m][k].outcome.Running?
    ensures History(cfg, h) && h[|h| - 1] == run[m] && run[m] != [] && !run[m][0].outcome.Running?
  {
    h := RunHistory(cfg, run, m);
    AfterAgrees(cfg, h[|h| - 1], run[m]);
  }

  /**
   * The interleaving does not matter: two finished runs of one configuration end in
   * the same world, with the same outcome, failed ranks, logs and merged tensor.
   */
  lemma {:induction false} FinishedRunsAgree(cfg: Config, run: seq<World>, m: nat, run': seq<World>, m': nat)
    requires ValidConfig(cfg) && IsRun(cfg, run) && m < |run| && IsRun(cfg, run') && m' < |run'|
    requires forall k | 0 <= k < |cfg.ranks| :: !run[m][k].outcome.Running? && !run'[m'][k].outcome.Running?
    ensures run[m] == run'[m']
  {
    var h := FinishedHistory(cfg, run, m);
    var h' := FinishedHistory(cfg, run', m');
    NoLongerHistory(cfg, h, h');
    NoLongerHistory(cfg, h', h);
    SameHistory(cfg, h, h', |h| - 1);
  }
}
