/**
 * What a frame cache remembers, said by absolute frame index: the frame at an index is
 * the one appended there, with the changes made to it since.
 */
module CacheMeaning {
  import opened Wrappers
  import opened Frames

  function Given(op: Op): seq<Frame> {
    match op
    case Append(frames) => frames
    case AppendOwned(frames) => frames
    case _ => []
  }

  /** One past the last index that has been appended to an empty cache which begins at `first`. */
  function Top(first: int, ops: seq<Op>): (top: int)
    ensures top >= first
  {
    if ops == [] then first else Top(first, ops[..|ops| - 1]) + |Given(ops[|ops| - 1])|
  }

  /** Up to where a call takes frames away from the front. */
  function TakesTo(op: Op): Option<int> {
    match op
    case PopBefore(end) => Some(end)
    case PopBeforeOwned(end) => Some(end)
    case DiscardBefore(end) => Some(end)
    case _ => None
  }

  /** The lowest index that has not been taken away. */
  function Low(first: int, ops: seq<Op>): (low: int)
    ensures first <= low <= Top(first, ops)
  {
    if ops == [] then first
    else
      var (low, to) := (Low(first, ops[..|ops| - 1]), TakesTo(ops[|ops| - 1]));
      if to.Some? && low < to.value <= Top(first, ops[..|ops| - 1]) then to.value else low
  }

  /** What a call leaves at index `i` of a cache from `low` to `top`, where `was` has been. */
  function Leaves(op: Op, low: int, top: int, i: int, was: Option<Frame>): Option<Frame> {
    if top <= i < top + |Given(op)| then Some(Given(op)[i - top])
    else match op
      case Overwrite(start, frames) =>
        if low <= start && start + |frames| <= top && start <= i < start + |frames| then Some(frames[i - start]) else was
      case Fill(start, end, box, value) =>
        if low <= start && end <= top && start <= i < end && was.Some? then Some(FillFrame(was.value, box, value)) else was
      case _ => was
  }

  /** The frame at an index after these calls, from the last call that concerned it. */
  function FrameAt(first: int, ops: seq<Op>, i: int): Option<Frame> {
    if ops == [] then None
    else
      var (before, op) := (ops[..|ops| - 1], ops[|ops| - 1]);
      Leaves(op, Low(first, before), Top(first, before), i, FrameAt(first, before, i))
  }

  /** The cache is what has been appended and not taken away, frame by frame. */
  predicate Remembers(held: Held, first: int, ops: seq<Op>) {
    && held.start == Low(first, ops) && held.End() == Top(first, ops)
    && forall i | held.start <= i < held.End() :: FrameAt(first, ops, i) == Some(held.frames[i - held.start])
  }

  function At(held: Held, i: int): Option<Frame> {
    if held.start <= i < held.End() then Some(held.frames[i - held.start]) else None
  }

  /** The call leaves these frames, from the old cache's. */
  ghost predicate HasLeft(held: Held, op: Op, after: Held) {
    forall i | after.start <= i < after.End() :: Leaves(op, held.start, held.End(), i, At(held, i)) == At(after, i)
  }

  lemma {:induction false} PaintLeaves(held: Held, op: Op)
    requires op.Fill?
    ensures HasLeft(held, op, Apply(held, op).held)
  {
    var after := Apply(held, op).held;
    if RangeFits(held, op.start, op.end) {
      forall i | held.start <= i < held.End() ensures Leaves(op, held.start, held.End(), i, At(held, i)) == At(after, i) {
        assert after.frames[i - held.start] == Changed(Paint(op.start, op.end, op.box, op.value), i, held.frames[i - held.start]);
      }
    }
  }

  lemma {:induction false} OpLeaves(held: Held, op: Op)
    requires !op.Fill?
    ensures HasLeft(held, op, Apply(held, op).held)
  {}

  lemma {:induction false} Bounds(held: Held, op: Op)
    ensures var (after, to) := (Apply(held, op).held, TakesTo(op));
            && after.start == (if to.Some? && held.start < to.value <= held.End() then to.value else held.start)
            && after.End() == held.End() + |Given(op)|
  {}

  lemma {:induction false} OpRemembers(held: Held, first: int, before: seq<Op>, op: Op)
    requires Remembers(held, first, before)
    ensures Remembers(Apply(held, op).held, first, before + [op])
  {
    var (ops, after) := (before + [op], Apply(held, op).held);
    assert ops[..|ops| - 1] == before && ops[|ops| - 1] == op;
    Bounds(held, op);
    if op.Fill? { PaintLeaves(held, op); } else { OpLeaves(held, op); }
    forall i | after.start <= i < after.End() ensures FrameAt(first, ops, i) == Some(after.frames[i - after.start]) {
      assert FrameAt(first, ops, i) == Leaves(op, held.start, held.End(), i, FrameAt(first, before, i));
      LeavesSame(held, op, i, FrameAt(first, before, i));
    }
  }

  /** Beyond the cache it does not matter what has been. */
  lemma {:induction false} LeavesSame(held: Held, op: Op, i: int, was: Option<Frame>)
    requires At(held, i).Some? ==> was == At(held, i)
    requires At(held, i).None? ==> held.End() <= i < held.End() + |Given(op)|
    ensures Leaves(op, held.start, held.End(), i, was) == Leaves(op, held.start, held.End(), i, At(held, i))
  {}

  /** After every list of calls the cache holds, at each index, the frame that the calls have left there. */
  lemma {:induction false} CacheRemembers(first: int, ops: seq<Op>)
    ensures Remembers(Run(Held(first, []), ops), first, ops)
  {
    if ops != [] {
      var before := ops[..|ops| - 1];
      CacheRemembers(first, before);
      OpRemembers(Run(Held(first, []), before), first, before, ops[|ops| - 1]);
      assert before + [ops[|ops| - 1]] == ops;
    }
  }

  /** These frames are those the calls have left at the indices from `start` on. */
  predicate FramesFrom(frames: seq<Frame>, first: int, ops: seq<Op>, start: int) {
    forall k | 0 <= k < |frames| :: FrameAt(first, ops, start + k) == Some(frames[k])
  }

  lemma {:induction false} SliceOf(held: Held, first: int, ops: seq<Op>, start: int, end: int)
    requires Remembers(held, first, ops)
    ensures var slice := Apply(held, Slice(start, end)).reply;
            && (slice.Ok? <==> Low(first, ops) <= start <= end <= Top(first, ops))
            && (slice.Ok? ==> |slice.value| == end - start && FramesFrom(slice.value, first, ops, start))
  {}

  lemma {:induction false} PopOf(held: Held, first: int, ops: seq<Op>, end: int)
    requires Remembers(held, first, ops)
    ensures var (low, pop) := (Low(first, ops), Apply(held, PopBeforeOwned(end)).reply);
            && (pop.Ok? <==> end <= Top(first, ops))
            && (pop.Ok? ==> |pop.value| == (if end > low then end - low else 0) && FramesFrom(pop.value, first, ops, low))
  {}

  /** A slice gives the frames at its indices, if all are held; a pop gives those below its end, and neither gives others. */
  lemma {:induction false} RepliesAreRemembered(first: int, ops: seq<Op>, start: int, end: int)
    ensures var (held, low, top) := (Run(Held(first, []), ops), Low(first, ops), Top(first, ops));
            var (slice, pop) := (Apply(held, Slice(start, end)).reply, Apply(held, PopBeforeOwned(end)).reply);
            && (slice.Ok? <==> low <= start <= end <= top)
            && (slice.Ok? ==> |slice.value| == end - start && FramesFrom(slice.value, first, ops, start))
            && (pop.Ok? <==> end <= top)
            && (pop.Ok? ==> |pop.value| == (if end > low then end - low else 0) && FramesFrom(pop.value, first, ops, low))
  {
    CacheRemembers(first, ops);
    SliceOf(Run(Held(first, []), ops), first, ops, start, end);
    PopOf(Run(Held(first, []), ops), first, ops, end);
  }

  // ---- What reaches the writer --------------------------------------------------------

  /** Frames leave only through `pop_before_owned`. */
  predicate PoppedOnly(ops: seq<Op>) {
    forall k | 0 <= k < |ops| :: !ops[k].PopBefore? && !ops[k].DiscardBefore?
  }

  /** A frame that has been taken away stays as it was. */
  lemma {:induction false} TakenIsFinal(first: int, before: seq<Op>, op: Op, i: int)
    requires i < Low(first, before)
    ensures FrameAt(first, before + [op], i) == FrameAt(first, before, i)
  {
    var ops := before + [op];
    assert ops[..|ops| - 1] == before && ops[|ops| - 1] == op;
  }

  lemma {:induction false} SameAfterPop(first: int, before: seq<Op>, op: Op, i: int)
    requires op.PopBeforeOwned?
    ensures FrameAt(first, before + [op], i) == FrameAt(first, before, i)
  {
    var ops := before + [op];
    assert ops[..|ops| - 1] == before && ops[|ops| - 1] == op;
  }

  /** What the writer is given by one call. */
  function Popped(held: Held, op: Op): seq<Frame> {
    var reply := Apply(held, op).reply;
    if op.PopBeforeOwned? && reply.Ok? then reply.value else []
  }

  lemma {:induction false} PopReaches(first: int, before: seq<Op>, op: Op)
    requires !op.PopBefore? && !op.DiscardBefore?
    ensures var (popped, ops) := (Popped(Run(Held(first, []), before), op), before + [op]);
            && Low(first, ops) == Low(first, before) + |popped|
            && FramesFrom(popped, first, ops, Low(first, before))
  {
    var (held, ops) := (Run(Held(first, []), before), before + [op]);
    CacheRemembers(first, before);
    OpRemembers(held, first, before, op);
    Bounds(held, op);
    if op.PopBeforeOwned? {
      PopOf(held, first, before, op.end);
      var (popped, low) := (Popped(held, op), Low(first, before));
      forall k | 0 <= k < |popped| ensures FrameAt(first, ops, low + k) == Some(popped[k]) {
        SameAfterPop(first, before, op, low + k);
      }
    }
  }

  lemma {:induction false} FinalFrames(frames: seq<Frame>, first: int, before: seq<Op>, op: Op)
    requires FramesFrom(frames, first, before, first) && first + |frames| <= Low(first, before)
    ensures FramesFrom(frames, first, before + [op], first)
  {
    forall k | 0 <= k < |frames| ensures FrameAt(first, before + [op], first + k) == Some(frames[k]) {
      TakenIsFinal(first, before, op, first + k);
    }
  }

  lemma {:induction false} FramesJoin(a: seq<Frame>, b: seq<Frame>, first: int, ops: seq<Op>)
    requires FramesFrom(a, first, ops, first) && FramesFrom(b, first, ops, first + |a|)
    ensures FramesFrom(a + b, first, ops, first)
  {
    forall k | 0 <= k < |a + b| ensures FrameAt(first, ops, first + k) == Some((a + b)[k]) {
      if k >= |a| { assert FrameAt(first, ops, first + |a| + (k - |a|)) == Some(b[k - |a|]); }
    }
  }

  lemma {:induction false} WrittenGrows(first: int, before: seq<Op>, op: Op)
    requires !op.PopBefore? && !op.DiscardBefore?
    requires var written := Written(Held(first, []), before);
             |written| == Low(first, before) - first && FramesFrom(written, first, before, first)
    ensures var (written, ops) := (Written(Held(first, []), before + [op]), before + [op]);
            |written| == Low(first, ops) - first && FramesFrom(written, first, ops, first)
  {
    var (held, ops, written) := (Run(Held(first, []), before), before + [op], Written(Held(first, []), before));
    assert ops[..|ops| - 1] == before;
    PopReaches(first, before, op);
    FinalFrames(written, first, before, op);
    FramesJoin(written, Popped(held, op), first, ops);
  }

  /**
   * The writer is given every frame below the cache once and in order, each with all
   * changes made to it before it was popped.
   */
  lemma {:induction false} WriterGetsEveryFrame(first: int, ops: seq<Op>)
    requires PoppedOnly(ops)
    ensures |Written(Held(first, []), ops)| == Low(first, ops) - first
    ensures FramesFrom(Written(Held(first, []), ops), first, ops, first)
  {
    if ops != [] {
      var (before, op) := (ops[..|ops| - 1], ops[|ops| - 1]);
      assert before + [op] == ops;
      assert forall k | 0 <= k < |before| :: before[k] == ops[k];
      WriterGetsEveryFrame(first, before);
      PopReaches(first, before, op);
      WrittenGrows(first, before, op);
    }
  }
}
