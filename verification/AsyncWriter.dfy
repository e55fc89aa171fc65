/**
 * The asynchronous path of `SequentialVideoWriter`: one producer that uses the
 * owned-write calls and `close`, one consumer thread, and a bounded queue between
 * them. Every action is one atomic step; a run is any interleaving.
 */
module AsyncWriter {
  import opened Wrappers

  type Bytes = seq<int>

  /** A queue item: the blocks of one owned write, or the end marker. */
  datatype Item = Batch(blocks: seq<Bytes>) | Sentinel

  /** `Breaking` has seen the write fail and has not published the error yet. */
  datatype Consumer = Getting | Writing(rest: seq<Bytes>) | Breaking | Dead

  datatype Producer =
    | Idle
    | Checking(blocks: seq<Bytes>)
    | Putting(blocks: seq<Bytes>)
    | PuttingSentinel
    | Joining
    | Finishing

  datatype CallResult = WriteReturned | WriteRaised | CloseReturned | CloseRaised

  /**
   * `enqueued` lists all bytes a write has accepted, `written` those passed to the
   * encoder, and `late` the accepted bytes of writes that found the thread dead.
   */
  datatype State = State(
    queue: seq<Item>,
    error: bool,
    closed: bool,
    consumer: Consumer,
    producer: Producer,
    enqueued: Bytes,
    written: Bytes,
    late: Bytes,
    last: Option<CallResult>)

  function Start(): State {
    State([], false, false, Getting, Idle, [], [], [], None)
  }

  datatype Action =
    | StartWrite(block: Bytes, valid: bool)
    | StartBlocks(blocks: seq<Bytes>, valid: bool)
    | Check
    | Put
    | PutTimesOut
    | StartClose
    | PutSentinel
    | SentinelTimesOut
    | Join
    | Finish(exitOk: bool)
    | Get
    | WriteBlock
    | FailBlock(sent: nat, brokenPipe: bool)
    | PublishError

  function Flat(blocks: seq<Bytes>): Bytes {
    if blocks == [] then [] else blocks[0] + Flat(blocks[1..])
  }

  function FlatItems(items: seq<Item>): Bytes {
    if items == [] then []
    else (if items[0].Batch? then Flat(items[0].blocks) else []) + FlatItems(items[1..])
  }

  function ProducerStep(st: State, depth: nat, action: Action): Option<State> {
    match (st.producer, action)
    case (Idle, StartWrite(block, valid)) =>
      if valid then Some(st.(producer := Checking([block]))) else Some(st.(last := Some(WriteRaised)))
    case (Idle, StartBlocks(blocks, valid)) =>
      if !valid || st.error then Some(st.(last := Some(WriteRaised)))
      else if blocks == [] then Some(st.(last := Some(WriteReturned)))
      else Some(st.(producer := Checking(blocks)))
    case (Checking(blocks), Check) =>
      if st.error then Some(st.(producer := Idle, last := Some(WriteRaised)))
      else Some(st.(producer := Putting(blocks)))
    case (Putting(blocks), Put) =>
      if |st.queue| >= depth then None
      else Some(st.(
        producer := Idle, last := Some(WriteReturned), queue := st.queue + [Batch(blocks)],
        enqueued := st.enqueued + Flat(blocks),
        late := if st.consumer.Dead? then st.late + Flat(blocks) else st.late))
    case (Putting(blocks), PutTimesOut) =>
      if |st.queue| < depth then None else Some(st.(producer := Checking(blocks)))
    case (Idle, StartClose) =>
      Some(st.(producer := if st.consumer.Dead? then Finishing else PuttingSentinel))
    case (PuttingSentinel, PutSentinel) =>
      if |st.queue| >= depth then None else Some(st.(producer := Joining, queue := st.queue + [Sentinel]))
    case (PuttingSentinel, SentinelTimesOut) =>
      if |st.queue| < depth then None else Some(st)
    case (Joining, Join) =>
      if st.consumer.Dead? then Some(st.(producer := Finishing)) else None
    case (Finishing, Finish(exitOk)) =>
      var raises := st.error || (!st.closed && !exitOk);
      Some(st.(producer := Idle, closed := true, last := Some(if raises then CloseRaised else CloseReturned)))
    case _ => None
  }

  function ConsumerStep(st: State, action: Action): Option<State> {
    match (st.consumer, action)
    case (Getting, Get) =>
      if st.queue == [] then None
      else
        var taken := st.(queue := st.queue[1..]);
        if st.queue[0].Sentinel? then Some(taken.(consumer := Dead))
        else if st.error then Some(taken)
        else Some(taken.(consumer := Writing(st.queue[0].blocks)))
    case (Writing(rest), WriteBlock) =>
      if rest == [] then Some(st.(consumer := Getting))
      else Some(st.(consumer := Writing(rest[1..]), written := st.written + rest[0]))
    case (Writing(rest), FailBlock(sent, brokenPipe)) =>
      if rest == [] || sent > |rest[0]| then None
      else Some(st.(consumer := Breaking, written := st.written + rest[0][..sent],
                    closed := st.closed || brokenPipe))
    case (Breaking, PublishError) => Some(st.(consumer := Getting, error := true))
    case _ => None
  }

  /** The state after one action, if the action is possible. */
  function Next(st: State, depth: nat, action: Action): Option<State> {
    match action
    case Get => ConsumerStep(st, action)
    case WriteBlock => ConsumerStep(st, action)
    case FailBlock(_, _) => ConsumerStep(st, action)
    case PublishError => ConsumerStep(st, action)
    case _ => ProducerStep(st, depth, action)
  }

  function Run(depth: nat, actions: seq<Action>): Option<State> {
    if actions == [] then Some(Start())
    else
      var before := Run(depth, actions[..|actions| - 1]);
      if before.None? then None else Next(before.value, depth, actions[|actions| - 1])
  }

  /** The caller's thread puts an item while there is room and times out while there is none; `join` waits for the thread's end. */
  lemma {:induction false} ProducerWaits(st: State, depth: nat)
    ensures var (room, possible) := (|st.queue| < depth, (action: Action) => Next(st, depth, action).Some?);
            && (possible(Put) <==> st.producer.Putting? && room)
            && (possible(PutTimesOut) <==> st.producer.Putting? && !room)
            && (possible(PutSentinel) <==> st.producer.PuttingSentinel? && room)
            && (possible(SentinelTimesOut) <==> st.producer.PuttingSentinel? && !room)
            && (possible(Join) <==> st.producer.Joining? && st.consumer.Dead?)
  {}

  // ---- What every run keeps -----------------------------------------------------

  predicate IsPrefix(a: Bytes, b: Bytes) {
    a <= b
  }

  function Unwritten(consumer: Consumer): Bytes {
    if consumer.Writing? then Flat(consumer.rest) else []
  }

  predicate SentinelInPlace(st: State) {
    && (forall i | 0 <= i < |st.queue| :: st.queue[i].Sentinel? ==> i == |st.queue| - 1 && st.producer.Joining? && !st.consumer.Dead?)
    && (st.producer.PuttingSentinel? ==> !st.consumer.Dead?)
    && (st.producer.Joining? && !st.consumer.Dead? ==> st.queue != [] && st.queue[|st.queue| - 1].Sentinel?)
    && (st.producer.Finishing? ==> st.consumer.Dead?)
  }

  predicate FlagsInPlace(st: State) {
    && (st.consumer.Writing? || st.consumer.Breaking? ==> !st.error)
    && (st.closed && !st.error && !st.consumer.Breaking? ==> st.consumer.Dead?)
  }

  /** As long as nothing failed, what is not written yet is in the consumer's hands or in the queue. */
  predicate DataInPlace(st: State) {
    if st.error || st.consumer.Breaking? then IsPrefix(st.written, st.enqueued)
    else
      && st.enqueued == st.written + Unwritten(st.consumer) + FlatItems(st.queue)
      && st.late == if st.consumer.Dead? then FlatItems(st.queue) else []
  }

  predicate Inv(st: State, depth: nat) {
    |st.queue| <= depth && SentinelInPlace(st) && FlagsInPlace(st) && DataInPlace(st)
  }

  lemma {:induction false} FlatItemsAppend(items: seq<Item>, item: Item)
    ensures FlatItems(items + [item]) == FlatItems(items) + if item.Batch? then Flat(item.blocks) else []
  {
    if items == [] {
      assert items + [item] == [item];
      assert [item][1..] == [];
    } else {
      FlatItemsAppend(items[1..], item);
      assert (items + [item])[1..] == items[1..] + [item];
    }
  }

  lemma {:induction false} PrefixGrows(a: Bytes, b: Bytes, more: Bytes)
    requires IsPrefix(a, b)
    ensures IsPrefix(a, b + more)
  {}

  lemma {:induction false} ProducerKeepsOrder(st: State, depth: nat, action: Action)
    requires Inv(st, depth) && ProducerStep(st, depth, action).Some?
    ensures var after := ProducerStep(st, depth, action).value;
            |after.queue| <= depth && SentinelInPlace(after) && FlagsInPlace(after)
  {}

  lemma {:induction false} PutKeepsData(st: State, depth: nat)
    requires DataInPlace(st) && ProducerStep(st, depth, Put).Some?
    ensures DataInPlace(ProducerStep(st, depth, Put).value)
  {
    var (blocks, after) := (st.producer.blocks, ProducerStep(st, depth, Put).value);
    FlatItemsAppend(st.queue, Batch(blocks));
    if st.error || st.consumer.Breaking? {
      PrefixGrows(st.written, st.enqueued, Flat(blocks));
    } else {
      var items := FlatItems(st.queue);
      assert FlatItems(after.queue) == items + Flat(blocks);
      assert st.written + Unwritten(st.consumer) + (items + Flat(blocks))
          == (st.written + Unwritten(st.consumer) + items) + Flat(blocks);
    }
  }

  lemma {:induction false} ProducerKeepsData(st: State, depth: nat, action: Action)
    requires SentinelInPlace(st) && DataInPlace(st) && ProducerStep(st, depth, action).Some?
    ensures DataInPlace(ProducerStep(st, depth, action).value)
  {
    match action {
      case Put => PutKeepsData(st, depth);
      case PutSentinel => FlatItemsAppend(st.queue, Sentinel);
      case _ =>
    }
  }

  lemma {:induction false} ProducerKeeps(st: State, depth: nat, action: Action)
    requires Inv(st, depth) && ProducerStep(st, depth, action).Some?
    ensures Inv(ProducerStep(st, depth, action).value, depth)
  {
    ProducerKeepsOrder(st, depth, action);
    ProducerKeepsData(st, depth, action);
  }

  lemma {:induction false} ConsumerKeepsOrder(st: State, depth: nat, action: Action)
    requires Inv(st, depth) && ConsumerStep(st, action).Some?
    ensures var after := ConsumerStep(st, action).value;
            |after.queue| <= depth && SentinelInPlace(after) && FlagsInPlace(after)
  {
    if action.Get? {
      var after := ConsumerStep(st, action).value;
      assert forall i | 0 <= i < |after.queue| :: after.queue[i] == st.queue[i + 1];
    }
  }

  lemma {:induction false} ConsumerKeepsData(st: State, depth: nat, action: Action)
    requires Inv(st, depth) && ConsumerStep(st, action).Some?
    ensures DataInPlace(ConsumerStep(st, action).value)
  {
    match action {
      case Get =>
        if st.queue[0].Sentinel? {
          assert st.queue[1..] == [];
        } else if !st.error {
          assert st.written + ([] + (Flat(st.queue[0].blocks) + FlatItems(st.queue[1..])))
              == st.written + Flat(st.queue[0].blocks) + FlatItems(st.queue[1..]);
        }
      case WriteBlock =>
        if st.consumer.rest != [] {
          var (first, rest) := (st.consumer.rest[0], st.consumer.rest[1..]);
          assert st.written + (first + Flat(rest)) + FlatItems(st.queue)
              == (st.written + first) + Flat(rest) + FlatItems(st.queue);
        }
      case FailBlock(sent, _) =>
        var first := st.consumer.rest[0];
        FailedPrefix(st.written, first, sent, Flat(st.consumer.rest[1..]), FlatItems(st.queue));
      case PublishError =>
    }
  }

  lemma {:induction false} ConsumerKeeps(st: State, depth: nat, action: Action)
    requires Inv(st, depth) && ConsumerStep(st, action).Some?
    ensures Inv(ConsumerStep(st, action).value, depth)
  {
    ConsumerKeepsOrder(st, depth, action);
    ConsumerKeepsData(st, depth, action);
  }

  lemma {:induction false} FailedPrefix(written: Bytes, first: Bytes, sent: nat, rest: Bytes, queued: Bytes)
    requires sent <= |first|
    ensures IsPrefix(written + first[..sent], written + (first + rest) + queued)
  {
    assert first == first[..sent] + first[sent..];
    assert written + (first + rest) + queued == (written + first[..sent]) + (first[sent..] + rest + queued);
  }

  lemma {:induction false} EveryRunKeepsInv(depth: nat, actions: seq<Action>)
    requires Run(depth, actions).Some?
    ensures Inv(Run(depth, actions).value, depth)
  {
    if actions != [] {
      var (before, action) := (actions[..|actions| - 1], actions[|actions| - 1]);
      EveryRunKeepsInv(depth, before);
      var st := Run(depth, before).value;
      if action.Get? || action.WriteBlock? || action.FailBlock? || action.PublishError? {
        ConsumerKeeps(st, depth, action);
      } else {
        ProducerKeeps(st, depth, action);
      }
    }
  }

  lemma {:induction false} PlacedIsPrefix(st: State)
    requires DataInPlace(st)
    ensures IsPrefix(st.written, st.enqueued)
  {
    if !(st.error || st.consumer.Breaking?) {
      assert st.enqueued == st.written + (Unwritten(st.consumer) + FlatItems(st.queue));
    }
  }

  // ---- Theorems -------------------------------------------------------------------

  /** In every interleaving the written bytes are a prefix of the accepted ones, and the queue is bounded. */
  lemma {:induction false} WrittenIsAPrefix(depth: nat, actions: seq<Action>)
    requires Run(depth, actions).Some?
    ensures var st := Run(depth, actions).value;
            st.written <= st.enqueued && |st.queue| <= depth
  {
    EveryRunKeepsInv(depth, actions);
    PlacedIsPrefix(Run(depth, actions).value);
  }

  /** After the first error nothing more is written, and no later owned write is started. */
  lemma {:induction false} NothingAfterAnError(depth: nat, actions: seq<Action>, more: seq<Action>)
    requires Run(depth, actions + more).Some?
    ensures Run(depth, actions).Some?
    ensures Run(depth, actions).value.error ==>
              && Run(depth, actions + more).value.error
              && Run(depth, actions + more).value.written == Run(depth, actions).value.written
    decreases |more|
  {
    var all := actions + more;
    if more == [] {
      assert all == actions;
    } else {
      var fewer := more[..|more| - 1];
      assert all[..|all| - 1] == actions + fewer;
      NothingAfterAnError(depth, actions, fewer);
      EveryRunKeepsInv(depth, actions + fewer);
    }
  }

  /**
   * When `close` returns normally, nothing has failed, and the written bytes are
   * all accepted ones except those of writes made after the thread had ended.
   */
  lemma {:induction false} NormalCloseHasWritten(depth: nat, actions: seq<Action>, exitOk: bool)
    requires Run(depth, actions + [Finish(exitOk)]).Some?
    requires Run(depth, actions + [Finish(exitOk)]).value.last == Some(CloseReturned)
    ensures var st := Run(depth, actions + [Finish(exitOk)]).value;
            && !st.error
            && st.enqueued == st.written + st.late
            && (st.written == st.enqueued <==> st.late == [])
  {
    var all := actions + [Finish(exitOk)];
    assert all[..|all| - 1] == actions;
    EveryRunKeepsInv(depth, actions);
    var st := Run(depth, actions).value;
    assert st.written + [] + FlatItems(st.queue) == st.written + FlatItems(st.queue);
  }

  /** Some `close` has come to its end. */
  predicate Ended(actions: seq<Action>) {
    exists j :: 0 <= j < |actions| && actions[j].Finish?
  }

  /** The bytes that action `i` of a run puts into the queue. */
  function PutBytes(depth: nat, actions: seq<Action>, i: nat): Bytes
    requires i < |actions|
  {
    var before := Run(depth, actions[..i]);
    if actions[i].Put? && before.Some? && before.value.producer.Putting? then Flat(before.value.producer.blocks) else []
  }

  /** The bytes of the writes accepted after some `close` has come to its end. */
  function AfterClose(depth: nat, actions: seq<Action>): Bytes {
    if actions == [] then []
    else
      var n := |actions| - 1;
      AfterClose(depth, actions[..n]) + if Ended(actions[..n]) then PutBytes(depth, actions, n) else []
  }

  lemma {:induction false} EndedGrows(actions: seq<Action>)
    requires actions != []
    ensures Ended(actions) <==> Ended(actions[..|actions| - 1]) || actions[|actions| - 1].Finish?
  {
    var before := actions[..|actions| - 1];
    if Ended(before) {
      var j :| 0 <= j < |before| && before[j].Finish?;
      assert actions[j].Finish?;
    }
    if Ended(actions) {
      var j :| 0 <= j < |actions| && actions[j].Finish?;
      if j < |before| { assert before[j].Finish?; }
    }
  }

  /** Outside of a `close`, the thread has ended exactly when some `close` has. */
  lemma {:induction false} DeadMeansEnded(depth: nat, actions: seq<Action>)
    requires Run(depth, actions).Some?
    ensures var st := Run(depth, actions).value;
            && (Ended(actions) ==> st.consumer.Dead?)
            && (st.consumer.Dead? && (st.producer.Idle? || st.producer.Checking? || st.producer.Putting?) ==> Ended(actions))
  {
    if actions != [] {
      var before := actions[..|actions| - 1];
      DeadMeansEnded(depth, before);
      EveryRunKeepsInv(depth, before);
      EndedGrows(actions);
    }
  }

  /** The late bytes are exactly those of the writes accepted after a completed `close`. */
  lemma {:induction false} LateIsAfterClose(depth: nat, actions: seq<Action>)
    requires Run(depth, actions).Some?
    ensures Run(depth, actions).value.late == AfterClose(depth, actions)
  {
    if actions != [] {
      var before := actions[..|actions| - 1];
      LateIsAfterClose(depth, before);
      DeadMeansEnded(depth, before);
    }
  }

  /** No write with bytes has been accepted after a completed `close`. */
  predicate NoLateWrite(depth: nat, actions: seq<Action>) {
    forall i: nat | i < |actions| && Ended(actions[..i]) :: PutBytes(depth, actions, i) == []
  }

  lemma {:induction false} SamePuts(depth: nat, actions: seq<Action>, n: nat, i: nat)
    requires i < n <= |actions|
    ensures actions[..n][..i] == actions[..i] && PutBytes(depth, actions[..n], i) == PutBytes(depth, actions, i)
  {
    assert actions[..n][..i] == actions[..i];
  }

  lemma {:induction false} NoLateWriteSnoc(depth: nat, actions: seq<Action>)
    requires actions != []
    ensures var n := |actions| - 1;
            NoLateWrite(depth, actions) <==>
              NoLateWrite(depth, actions[..n]) && (Ended(actions[..n]) ==> PutBytes(depth, actions, n) == [])
  {
    var n := |actions| - 1;
    forall i: nat | i < n
      ensures actions[..n][..i] == actions[..i] && PutBytes(depth, actions[..n], i) == PutBytes(depth, actions, i)
    {
      SamePuts(depth, actions, n, i);
    }
  }

  lemma {:induction false} AfterCloseIsEmpty(depth: nat, actions: seq<Action>)
    ensures AfterClose(depth, actions) == [] <==> NoLateWrite(depth, actions)
  {
    if actions != [] {
      AfterCloseIsEmpty(depth, actions[..|actions| - 1]);
      NoLateWriteSnoc(depth, actions);
    }
  }

  /** Bytes are late exactly when some write with bytes was accepted after a `close` had come to its end. */
  lemma {:induction false} LateMeansAfterAClose(depth: nat, actions: seq<Action>)
    requires Run(depth, actions).Some?
    ensures Run(depth, actions).value.late != []
            <==> exists j: nat, i: nat :: j < i < |actions| && actions[j].Finish? && PutBytes(depth, actions, i) != []
  {
    LateIsAfterClose(depth, actions);
    AfterCloseIsEmpty(depth, actions);
    if !NoLateWrite(depth, actions) {
      var i: nat :| i < |actions| && Ended(actions[..i]) && PutBytes(depth, actions, i) != [];
      var j :| 0 <= j < i && actions[..i][j].Finish?;
      assert actions[j].Finish?;
    }
    if j: nat, i: nat :| j < i < |actions| && actions[j].Finish? && PutBytes(depth, actions, i) != [] {
      assert actions[..i][j].Finish?;
      assert Ended(actions[..i]);
    }
  }

  /**
   * A `close` that returns normally has everything written if and only if no write with
   * bytes was accepted after an earlier `close` had come to its end.
   */
  lemma {:induction false} NormalCloseIsComplete(depth: nat, actions: seq<Action>, exitOk: bool)
    requires Run(depth, actions + [Finish(exitOk)]).Some?
    requires Run(depth, actions + [Finish(exitOk)]).value.last == Some(CloseReturned)
    ensures var st := Run(depth, actions + [Finish(exitOk)]).value;
            && st.enqueued == st.written + AfterClose(depth, actions)
            && (st.written == st.enqueued <==> NoLateWrite(depth, actions))
  {
    var all := actions + [Finish(exitOk)];
    assert all[..|all| - 1] == actions;
    NormalCloseHasWritten(depth, actions, exitOk);
    LateIsAfterClose(depth, actions);
    AfterCloseIsEmpty(depth, actions);
  }

  /** A first `close` that returns normally has everything written. */
  lemma {:induction false} FirstCloseIsComplete(depth: nat, actions: seq<Action>, exitOk: bool)
    requires Run(depth, actions + [Finish(exitOk)]).Some?
    requires Run(depth, actions + [Finish(exitOk)]).value.last == Some(CloseReturned)
    requires forall i | 0 <= i < |actions| :: !actions[i].Finish?
    ensures var st := Run(depth, actions + [Finish(exitOk)]).value;
            st.written == st.enqueued && st.queue == []
  {
    var all := actions + [Finish(exitOk)];
    assert all[..|all| - 1] == actions;
    NormalCloseHasWritten(depth, actions, exitOk);
    EveryRunKeepsInv(depth, actions);
    NeverEnded(depth, actions);
    DeadQueueIsLate(depth, actions);
  }

  lemma {:induction false} NeverEnded(depth: nat, actions: seq<Action>)
    requires Run(depth, actions).Some? && forall i | 0 <= i < |actions| :: !actions[i].Finish?
    ensures Run(depth, actions).value.late == []
  {
    LateIsAfterClose(depth, actions);
    AfterCloseIsEmpty(depth, actions);
  }

  /** A dead thread's queue holds late writes only. */
  lemma {:induction false} DeadQueueIsLate(depth: nat, actions: seq<Action>)
    requires Run(depth, actions).Some? && forall i | 0 <= i < |actions| :: !actions[i].Finish?
    ensures Run(depth, actions).value.consumer.Dead? ==> Run(depth, actions).value.queue == []
  {
    if actions != [] {
      var before := actions[..|actions| - 1];
      DeadQueueIsLate(depth, before);
      EveryRunKeepsInv(depth, before);
      DeadMeansEnded(depth, before);
    }
  }

  /** A write after `close` is accepted and never written, and the second `close` returns normally. */
  function WriteAfterClose(): seq<Action> {
    [StartClose, PutSentinel, Get, Join, Finish(true),
     StartWrite([7], true), Check, Put, StartClose, Finish(true)]
  }

  lemma {:induction false} OneAction(depth: nat, actions: seq<Action>, st: State, action: Action)
    requires Run(depth, actions) == Some(st)
    ensures Run(depth, actions + [action]) == Next(st, depth, action)
  {
    assert (actions + [action])[..|actions|] == actions;
  }

  lemma {:induction false} FirstCloseOfNothing()
    ensures Run(1, WriteAfterClose()[..5])
         == Some(State([], false, true, Dead, Idle, [], [], [], Some(CloseReturned)))
  {
    var s0 := Start();
    var s1 := s0.(producer := PuttingSentinel);
    var s2 := s0.(producer := Joining, queue := [Sentinel]);
    var s3 := s0.(producer := Joining, consumer := Dead);
    var s4 := s0.(producer := Finishing, consumer := Dead);
    assert s1.queue + [Sentinel] == s2.queue && s2.queue[1..] == s3.queue;
    OneAction(1, [], s0, StartClose);
    OneAction(1, [] + [StartClose], s1, PutSentinel);
    OneAction(1, [] + [StartClose] + [PutSentinel], s2, Get);
    OneAction(1, [] + [StartClose] + [PutSentinel] + [Get], s3, Join);
    OneAction(1, [] + [StartClose] + [PutSentinel] + [Get] + [Join], s4, Finish(true));
    assert WriteAfterClose()[..5] == [] + [StartClose] + [PutSentinel] + [Get] + [Join] + [Finish(true)];
  }

  lemma {:induction false} LateWriteIsAccepted()
    ensures Run(1, WriteAfterClose()[..8])
         == Some(State([Batch([[7]])], false, true, Dead, Idle, [7], [], [7], Some(WriteReturned)))
  {
    var five := WriteAfterClose()[..5];
    FirstCloseOfNothing();
    assert [[7]][1..] == [] && Flat([[7]]) == [7];
    var s5 := State([], false, true, Dead, Idle, [], [], [], Some(CloseReturned));
    var s6 := s5.(producer := Checking([[7]]));
    var s7 := s5.(producer := Putting([[7]]));
    assert s7.queue + [Batch([[7]])] == [Batch([[7]])] && s7.enqueued + [7] == [7] && s7.late + [7] == [7];
    OneAction(1, five, s5, StartWrite([7], true));
    OneAction(1, five + [StartWrite([7], true)], s6, Check);
    OneAction(1, five + [StartWrite([7], true)] + [Check], s7, Put);
    assert WriteAfterClose()[..8] == five + [StartWrite([7], true)] + [Check] + [Put];
  }

  lemma {:induction false} LateWritesAreLost()
    ensures var run := Run(1, WriteAfterClose());
            && run.Some? && run.value.last == Some(CloseReturned)
            && run.value.enqueued == [7] && run.value.written == []
  {
    var eight := WriteAfterClose()[..8];
    LateWriteIsAccepted();
    var s8 := State([Batch([[7]])], false, true, Dead, Idle, [7], [], [7], Some(WriteReturned));
    OneAction(1, eight, s8, StartClose);
    OneAction(1, eight + [StartClose], s8.(producer := Finishing), Finish(true));
    assert WriteAfterClose() == eight + [StartClose] + [Finish(true)];
  }

  // ---- What the caller has offered -------------------------------------------------------

  predicate StartsCall(action: Action) {
    action.StartWrite? || action.StartBlocks? || action.StartClose?
  }

  /** The blocks of the latest owned write, as its caller passed them. */
  function Argument(actions: seq<Action>): seq<Bytes> {
    if actions == [] then []
    else match actions[|actions| - 1]
      case StartWrite(block, _) => [block]
      case StartBlocks(blocks, _) => blocks
      case _ => Argument(actions[..|actions| - 1])
  }

  /** The callers' blocks, one write after the other, each as of its `Put`. */
  function Offered(actions: seq<Action>): Bytes {
    if actions == [] then []
    else
      var before := actions[..|actions| - 1];
      Offered(before) + if actions[|actions| - 1].Put? then Flat(Argument(before)) else []
  }

  /** The bytes offered before the latest call. */
  function OfferedBefore(actions: seq<Action>): Bytes {
    if actions == [] then []
    else if StartsCall(actions[|actions| - 1]) then Offered(actions[..|actions| - 1])
    else OfferedBefore(actions[..|actions| - 1])
  }

  /** All bytes of all blocks, in order. */
  lemma {:induction false} FlatIsJoined(blocks: seq<Bytes>, block: Bytes)
    ensures Flat([]) == [] && Flat(blocks + [block]) == Flat(blocks) + block
  {
    if blocks == [] {
      assert [] + [block] == [block] && [block][1..] == [];
    } else {
      FlatIsJoined(blocks[1..], block);
      assert (blocks + [block])[1..] == blocks[1..] + [block];
    }
  }

  /** A pending write holds the caller's own blocks. */
  lemma {:induction false} PendingIsArgument(depth: nat, actions: seq<Action>)
    requires Run(depth, actions).Some?
    ensures var st := Run(depth, actions).value;
            st.producer.Checking? || st.producer.Putting? ==> st.producer.blocks == Argument(actions)
  {
    if actions != [] { PendingIsArgument(depth, actions[..|actions| - 1]); }
  }

  /** What the writer has accepted is what its callers have offered. */
  lemma {:induction false} AcceptedIsOffered(depth: nat, actions: seq<Action>)
    requires Run(depth, actions).Some?
    ensures Run(depth, actions).value.enqueued == Offered(actions)
  {
    if actions != [] {
      AcceptedIsOffered(depth, actions[..|actions| - 1]);
      PendingIsArgument(depth, actions[..|actions| - 1]);
    }
  }

  /** In every interleaving the bytes written are a prefix of the callers' blocks. */
  lemma {:induction false} WrittenIsOffered(depth: nat, actions: seq<Action>)
    requires Run(depth, actions).Some?
    ensures Run(depth, actions).value.written <= Offered(actions)
  {
    WrittenIsAPrefix(depth, actions);
    AcceptedIsOffered(depth, actions);
  }

  /** The bytes of the writes that callers have made after some `close` has come to its end. */
  predicate NoWriteAfterClose(actions: seq<Action>) {
    forall i: nat | i < |actions| && Ended(actions[..i]) && actions[i].Put? :: Flat(Argument(actions[..i])) == []
  }

  lemma {:induction false} RunUpTo(depth: nat, actions: seq<Action>, i: nat)
    requires Run(depth, actions).Some? && i <= |actions|
    ensures Run(depth, actions[..i]).Some?
  {
    if i < |actions| {
      RunUpTo(depth, actions[..|actions| - 1], i);
      assert actions[..|actions| - 1][..i] == actions[..i];
    } else {
      assert actions[..i] == actions;
    }
  }

  lemma {:induction false} PutIsArgument(depth: nat, actions: seq<Action>, i: nat)
    requires Run(depth, actions).Some? && i < |actions|
    ensures PutBytes(depth, actions, i) == if actions[i].Put? then Flat(Argument(actions[..i])) else []
  {
    RunUpTo(depth, actions, i + 1);
    assert actions[..i + 1][..i] == actions[..i];
    RunUpTo(depth, actions, i);
    PendingIsArgument(depth, actions[..i]);
  }

  /**
   * A `close` that returns normally has written all blocks that callers have offered if
   * and only if nothing but empty writes was accepted after an earlier `close` had ended.
   */
  lemma {:induction false} CloseWritesWhatWasOffered(depth: nat, actions: seq<Action>, exitOk: bool)
    requires Run(depth, actions + [Finish(exitOk)]).Some?
    requires Run(depth, actions + [Finish(exitOk)]).value.last == Some(CloseReturned)
    ensures Run(depth, actions + [Finish(exitOk)]).value.written == Offered(actions) <==> NoWriteAfterClose(actions)
  {
    var all := actions + [Finish(exitOk)];
    assert all[..|all| - 1] == actions;
    NormalCloseIsComplete(depth, actions, exitOk);
    AcceptedIsOffered(depth, all);
    RunUpTo(depth, all, |actions|);
    assert all[..|actions|] == actions;
    forall i: nat | i < |actions|
      ensures PutBytes(depth, actions, i) == if actions[i].Put? then Flat(Argument(actions[..i])) else []
    {
      PutIsArgument(depth, actions, i);
    }
  }

  // ---- What a call returns ------------------------------------------------------------------

  /** The latest call is an owned write whose frames had the right shape. */
  predicate ValidWrite(actions: seq<Action>) {
    actions != []
    && match actions[|actions| - 1]
       case StartWrite(_, valid) => valid
       case StartBlocks(_, valid) => valid
       case StartClose => false
       case _ => ValidWrite(actions[..|actions| - 1])
  }

  /** The latest call is `close`. */
  predicate IsClose(actions: seq<Action>) {
    actions != []
    && var last := actions[|actions| - 1];
       last.StartClose? || (!StartsCall(last) && IsClose(actions[..|actions| - 1]))
  }

  predicate NeverCalled(actions: seq<Action>) {
    forall i | 0 <= i < |actions| :: !StartsCall(actions[i])
  }

  /** How far the latest call has come, in terms of what it has offered. */
  predicate Outcome(st: State, actions: seq<Action>) {
    match st.producer
    case Checking(_) => ValidWrite(actions) && Offered(actions) == OfferedBefore(actions)
    case Putting(_) => ValidWrite(actions) && Offered(actions) == OfferedBefore(actions)
    case Idle =>
      if NeverCalled(actions) then st.last == None
      else if IsClose(actions) then st.last == Some(CloseReturned) || st.last == Some(CloseRaised)
      else
        || (st.last == Some(WriteReturned) && ValidWrite(actions)
            && Offered(actions) == OfferedBefore(actions) + Flat(Argument(actions)))
        || (st.last == Some(WriteRaised) && Offered(actions) == OfferedBefore(actions) && (ValidWrite(actions) ==> st.error))
    case _ => IsClose(actions) && Offered(actions) == OfferedBefore(actions)
  }

  lemma {:induction false} CalledOnce(before: seq<Action>, action: Action)
    ensures NeverCalled(before + [action]) <==> NeverCalled(before) && !StartsCall(action)
  {
    var actions := before + [action];
    assert forall i | 0 <= i < |before| :: before[i] == actions[i];
    assert actions[|before|] == action;
  }

  lemma {:induction false} OneKindOfCall(actions: seq<Action>)
    ensures NeverCalled(actions) ==> !IsClose(actions)
    ensures ValidWrite(actions) ==> !IsClose(actions) && !NeverCalled(actions)
  {
    if actions != [] {
      var (before, action) := (actions[..|actions| - 1], actions[|actions| - 1]);
      OneKindOfCall(before);
      CalledOnce(before, action);
      assert before + [action] == actions;
    }
  }

  /**
   * A write that has returned normally was valid, and all its bytes are accepted, after
   * those before it. A write that has raised was invalid or met the writer's error, and
   * none of its bytes is accepted. So it goes for every call of every run.
   */
  lemma {:induction false} CallsReturnTheirOutcome(depth: nat, actions: seq<Action>)
    requires Run(depth, actions).Some?
    ensures Outcome(Run(depth, actions).value, actions)
  {
    if actions != [] {
      var (before, action) := (actions[..|actions| - 1], actions[|actions| - 1]);
      CallsReturnTheirOutcome(depth, before);
      PendingIsArgument(depth, before);
      OutcomeStep(depth, Run(depth, before).value, before, action);
      assert before + [action] == actions;
    }
  }

  lemma {:induction false} OutcomeStep(depth: nat, st: State, before: seq<Action>, action: Action)
    requires Outcome(st, before) && Next(st, depth, action).Some?
    requires st.producer.Checking? || st.producer.Putting? ==> st.producer.blocks == Argument(before)
    ensures Outcome(Next(st, depth, action).value, before + [action])
  {
    var actions := before + [action];
    assert actions[..|actions| - 1] == before;
    assert Flat([]) == [];
    CalledOnce(before, action);
    OneKindOfCall(before);
  }

  /** A `close` returns normally exactly when no error is known and the encoder, if still open, has ended well. */
  lemma {:induction false} CloseReturnsWhenClean(depth: nat, actions: seq<Action>, exitOk: bool)
    requires Run(depth, actions + [Finish(exitOk)]).Some?
    ensures Run(depth, actions).Some?
    ensures var (before, after) := (Run(depth, actions).value, Run(depth, actions + [Finish(exitOk)]).value);
            && after.producer.Idle? && after.closed
            && (after.last == Some(CloseReturned) <==> !before.error && (before.closed || exitOk))
            && (after.last == Some(CloseRaised) <==> before.error || (!before.closed && !exitOk))
  {
    assert (actions + [Finish(exitOk)])[..|actions|] == actions;
  }

  // ---- Which calls end ----------------------------------------------------------------

  /** A write into a full queue that nobody empties any more. */
  predicate Stuck(st: State, depth: nat) {
    (st.producer.Checking? || st.producer.Putting?) && !st.error && st.consumer.Dead? && |st.queue| >= depth
  }

  /** Going on from a state. */
  function Steps(st: State, depth: nat, actions: seq<Action>): Option<State>
    decreases |actions|
  {
    if actions == [] then Some(st)
    else
      var next := Next(st, depth, actions[0]);
      if next.None? then None else Steps(next.value, depth, actions[1..])
  }

  lemma {:induction false} StepsOfRun(depth: nat, actions: seq<Action>, more: seq<Action>)
    requires Run(depth, actions).Some?
    ensures Run(depth, actions + more) == Steps(Run(depth, actions).value, depth, more)
    decreases |more|
  {
    if more == [] {
      assert actions + more == actions;
    } else {
      var next := actions + [more[0]];
      assert next[..|actions|] == actions && actions + more == next + more[1..];
      if Run(depth, next).Some? { StepsOfRun(depth, next, more[1..]); } else { NoRunGoesOn(depth, next, more[1..]); }
    }
  }

  lemma {:induction false} NoRunGoesOn(depth: nat, actions: seq<Action>, more: seq<Action>)
    requires Run(depth, actions).None?
    ensures Run(depth, actions + more).None?
  {
    if more == [] {
      assert actions + more == actions;
    } else {
      NoRunGoesOn(depth, actions, more[..|more| - 1]);
      var all := actions + more;
      assert all[..|all| - 1] == actions + more[..|more| - 1];
    }
  }

  /** Whatever happens, a stuck write stays stuck. */
  lemma {:induction false} StuckForEver(st: State, depth: nat, more: seq<Action>)
    requires Stuck(st, depth) && Steps(st, depth, more).Some?
    ensures Stuck(Steps(st, depth, more).value, depth)
    decreases |more|
  {
    if more != [] { StuckForEver(Next(st, depth, more[0]).value, depth, more[1..]); }
  }

  /** A second write after `close`, into a queue of one. */
  lemma {:induction false} LateWriteIsStuck()
    ensures var run := Run(1, WriteAfterClose()[..8] + [StartWrite([8], true)]);
            run.Some? && Stuck(run.value, 1)
  {
    LateWriteIsAccepted();
    OneAction(1, WriteAfterClose()[..8], Run(1, WriteAfterClose()[..8]).value, StartWrite([8], true));
  }

  function Helpful(st: State, depth: nat): Action {
    if st.consumer.Writing? then WriteBlock
    else if st.consumer.Breaking? then PublishError
    else match st.producer
      case Checking(_) => Check
      case Putting(_) => if |st.queue| < depth then Put else if st.consumer.Dead? then PutTimesOut else Get
      case PuttingSentinel => if |st.queue| < depth then PutSentinel else Get
      case Joining => if st.consumer.Dead? then Join else Get
      case _ => Finish(true)
  }

  /** An action that completes part of a call or of the consumer's work. */
  predicate IsProgress(action: Action) {
    !(action.StartWrite? || action.StartBlocks? || action.StartClose? || action.PutTimesOut? || action.SentinelTimesOut?)
  }

  lemma {:induction false} HelpfulIsPossible(st: State, depth: nat)
    requires Inv(st, depth) && depth > 0 && !st.producer.Idle? && !Stuck(st, depth)
    ensures Next(st, depth, Helpful(st, depth)).Some?
    ensures !Stuck(Next(st, depth, Helpful(st, depth)).value, depth)
  {}

  lemma {:induction false} NextKeeps(st: State, depth: nat, action: Action)
    requires Inv(st, depth) && Next(st, depth, action).Some?
    ensures Inv(Next(st, depth, action).value, depth)
  {
    if action.Get? || action.WriteBlock? || action.FailBlock? || action.PublishError? {
      ConsumerKeeps(st, depth, action);
    } else {
      ProducerKeeps(st, depth, action);
    }
  }

  /** A write that finds an error after its put has timed out raises at its next check. */
  lemma {:induction false} RaisesAfterTimeout(st: State, depth: nat)
    requires st.producer.Putting? && st.error && |st.queue| >= depth
    ensures Steps(st, depth, [PutTimesOut, Check]).Some? && Steps(st, depth, [PutTimesOut, Check]).value.producer.Idle?
  {
    var timedOut := Next(st, depth, PutTimesOut).value;
    assert [PutTimesOut, Check][1..] == [Check] && [Check][1..] == [];
    assert Steps(timedOut, depth, [Check]) == Steps(Next(timedOut, depth, Check).value, depth, []);
  }

  function ItemWork(items: seq<Item>): nat {
    if items == [] then 0 else (if items[0].Batch? then |items[0].blocks| + 3 else 1) + ItemWork(items[1..])
  }

  /** Progress actions that are left at most while no new call starts. */
  function Work(st: State): nat {
    var pending := match st.producer
      case Idle => 0
      case Checking(blocks) => |blocks| + 6
      case Putting(blocks) => |blocks| + 5
      case PuttingSentinel => 5
      case Joining => 2
      case Finishing => 1;
    var writing := match st.consumer
      case Writing(rest) => |rest| + 2
      case Breaking => 1
      case _ => 0;
    pending + writing + ItemWork(st.queue)
  }

  lemma {:induction false} ItemWorkAppend(items: seq<Item>, item: Item)
    ensures ItemWork(items + [item]) == ItemWork(items) + if item.Batch? then |item.blocks| + 3 else 1
  {
    if items == [] {
      assert items + [item] == [item];
      assert [item][1..] == [];
    } else {
      ItemWorkAppend(items[1..], item);
      assert (items + [item])[1..] == items[1..] + [item];
    }
  }

  /** Every progress action uses up work; a put that times out adds one unit back. */
  lemma {:induction false} ProgressEnds(st: State, depth: nat, action: Action)
    requires Next(st, depth, action).Some?
    ensures IsProgress(action) ==> Work(Next(st, depth, action).value) < Work(st)
    ensures action.PutTimesOut? ==> Work(Next(st, depth, action).value) == Work(st) + 1
    ensures action.SentinelTimesOut? ==> Next(st, depth, action).value == st
  {
    match action {
      case Put => ItemWorkAppend(st.queue, Batch(st.producer.blocks));
      case PutSentinel => ItemWorkAppend(st.queue, Sentinel);
      case _ =>
    }
  }

  /** From a state that is not stuck, the pending call can end within `Work(st) + 2` actions. */
  lemma {:induction false} CanEnd(st: State, depth: nat) returns (more: seq<Action>)
    requires Inv(st, depth) && depth > 0 && !Stuck(st, depth)
    ensures Steps(st, depth, more).Some? && Steps(st, depth, more).value.producer.Idle?
    ensures |more| <= Work(st) + 2
    decreases Work(st)
  {
    if st.producer.Idle? {
      more := [];
    } else if st.producer.Putting? && st.consumer.Dead? && |st.queue| >= depth {
      RaisesAfterTimeout(st, depth);
      more := [PutTimesOut, Check];
    } else {
      var action := Helpful(st, depth);
      HelpfulIsPossible(st, depth);
      ProgressEnds(st, depth, action);
      NextKeeps(st, depth, action);
      var rest := CanEnd(Next(st, depth, action).value, depth);
      more := [action] + rest;
      assert more[1..] == rest;
    }
  }

  /** The pending call of a reachable state can end if and only if it is not a stuck write. */
  lemma {:induction false} CallsCanEnd(depth: nat, actions: seq<Action>)
    requires depth > 0 && Run(depth, actions).Some?
    ensures (exists more :: Run(depth, actions + more).Some? && Run(depth, actions + more).value.producer.Idle?)
            <==> !Stuck(Run(depth, actions).value, depth)
  {
    var st := Run(depth, actions).value;
    if Stuck(st, depth) {
      forall more | Run(depth, actions + more).Some? ensures !Run(depth, actions + more).value.producer.Idle? {
        StepsOfRun(depth, actions, more);
        StuckForEver(st, depth, more);
      }
    } else {
      EveryRunKeepsInv(depth, actions);
      var more := CanEnd(st, depth);
      StepsOfRun(depth, actions, more);
    }
  }

  function Progressed(actions: seq<Action>): nat {
    if actions == [] then 0 else (if IsProgress(actions[0]) then 1 else 0) + Progressed(actions[1..])
  }

  function TimedOut(actions: seq<Action>): nat {
    if actions == [] then 0 else (if actions[0].PutTimesOut? then 1 else 0) + TimedOut(actions[1..])
  }

  /** While no call starts, there is at most the work at hand and one more action per timed-out put. */
  lemma {:induction false} ProgressIsBounded(st: State, depth: nat, actions: seq<Action>)
    requires Steps(st, depth, actions).Some?
    requires forall i | 0 <= i < |actions| ::
               !(actions[i].StartWrite? || actions[i].StartBlocks? || actions[i].StartClose?)
    ensures Progressed(actions) + Work(Steps(st, depth, actions).value) <= Work(st) + TimedOut(actions)
    decreases |actions|
  {
    if actions != [] {
      ProgressEnds(st, depth, actions[0]);
      ProgressIsBounded(Next(st, depth, actions[0]).value, depth, actions[1..]);
    }
  }
}
