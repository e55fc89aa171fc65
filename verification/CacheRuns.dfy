/**
 * Whole lists of calls on the frame caches: the chunked and the flat cache never
 * differ, and what the writer was given keeps its contents.
 */
module CacheRuns {
  import opened Wrappers
  import opened Frames
  import opened FrameCache

  /** One call on the chunked cache, and the frames it hands out. */
  method ChunkedCall(cache: ChunkedFrameCache, op: Op)
    returns (reply: Result<seq<Frame>>, blocks: seq<Block>, ghost taken: seq<seq<Frame>>, ghost given: set<array<Frame>>)
    requires cache.Valid()
    modifies cache, cache.Storage()
    ensures cache.Valid()
    ensures cache.Holds() == Apply(old(cache.Holds()), op).held
    ensures reply == Apply(old(cache.Holds()), op).reply
    ensures Shown(blocks, taken, given) && given !! cache.Storage() && given <= old(cache.Storage())
    ensures Flat(taken) == if op.PopBeforeOwned? && reply.Ok? then reply.value else []
    ensures forall a | a in cache.Storage() :: a in old(cache.Storage()) || fresh(a)
  {
    reply, blocks, taken, given := Ok([]), [], [], {};
    match op {
      case Append(frames) => AppendFresh(cache, frames);
      case AppendOwned(frames) => AppendGiven(cache, frames);
      case Slice(start, end) =>
        var block := cache.Slice(start, end);
        reply := if block.Some? then Ok(View(block.value)) else Err;
      case SliceInto(start, end, crop) =>
        reply := SliceIntoFresh(cache, start, end, crop);
      case Overwrite(start, frames) => reply := OverwriteFrom(cache, start, frames);
      case Fill(start, end, box, value) =>
        var ok := cache.FillRegion(start, end, box, value);
        reply := if ok then Ok([]) else Err;
      case PopBefore(end) =>
        var block := cache.PopBefore(end);
        reply := if block.Some? then Ok(View(block.value)) else Err;
      case PopBeforeOwned(end) =>
        reply, blocks, taken, given := PopOwned(cache, end);
      case DiscardBefore(end) =>
        var ok, copied := cache.DiscardBefore(end);
        reply := if ok then Ok([]) else Err;
    }
  }

  method AppendFresh(cache: ChunkedFrameCache, frames: seq<Frame>)
    requires cache.Valid()
    modifies cache
    ensures cache.Valid() && cache.Holds() == Apply(old(cache.Holds()), Op.Append(frames)).held
    ensures forall a | a in cache.Storage() :: a in old(cache.Storage()) || fresh(a)
  {
    var block := NewBlock(frames, cache.tail);
    var ok := cache.Append(block);
  }

  method AppendGiven(cache: ChunkedFrameCache, frames: seq<Frame>)
    requires cache.Valid()
    modifies cache
    ensures cache.Valid() && cache.Holds() == Apply(old(cache.Holds()), Op.AppendOwned(frames)).held
    ensures forall a | a in cache.Storage() :: a in old(cache.Storage()) || fresh(a)
  {
    var block := NewBlock(frames, cache.tail);
    var ok := cache.AppendOwned(block);
  }

  method OverwriteFrom(cache: ChunkedFrameCache, start: int, frames: seq<Frame>) returns (reply: Result<seq<Frame>>)
    requires cache.Valid()
    modifies cache, cache.Storage()
    ensures cache.Valid() && cache.Storage() == old(cache.Storage())
    ensures cache.Holds() == Apply(old(cache.Holds()), Op.Overwrite(start, frames)).held
    ensures reply == Apply(old(cache.Holds()), Op.Overwrite(start, frames)).reply
  {
    var block := NewBlock(frames, cache.tail);
    var ok := cache.Overwrite(start, block);
    reply := if ok then Ok([]) else Err;
  }

  method SliceIntoFresh(cache: ChunkedFrameCache, start: int, end: int, crop: Option<Box>)
    returns (reply: Result<seq<Frame>>)
    requires cache.Valid()
    ensures cache.Valid() && reply == Apply(cache.Holds(), SliceInto(start, end, crop)).reply
  {
    var tail := if crop.Some? then CropTail(cache.tail, crop.value) else cache.tail;
    var result := NewBlock(seq(if start <= end then end - start else 0, _ => []), tail);
    var ok := cache.SliceInto(start, end, result, crop);
    reply := if ok then Ok(View(result)) else Err;
  }

  method PopOwned(cache: ChunkedFrameCache, end: int)
    returns (reply: Result<seq<Frame>>, blocks: seq<Block>, ghost taken: seq<seq<Frame>>, ghost given: set<array<Frame>>)
    requires cache.Valid()
    modifies cache
    ensures cache.Valid()
    ensures cache.Holds() == Apply(old(cache.Holds()), Op.PopBeforeOwned(end)).held
    ensures reply == Apply(old(cache.Holds()), Op.PopBeforeOwned(end)).reply
    ensures Shown(blocks, taken, given) && given !! cache.Storage() && given <= old(cache.Storage())
    ensures Flat(taken) == if reply.Ok? then reply.value else []
    ensures forall a | a in cache.Storage() :: a in old(cache.Storage()) || fresh(a)
  {
    ghost var held := cache.Holds();
    PopEffect(held, end);
    var ok, copied;
    ok, blocks, copied, taken, given := cache.PopBeforeOwned(end);
    reply := Err;
    if ok { reply := JoinedReply(blocks, cache.tail, taken, given); }
  }

  method JoinedReply(blocks: seq<Block>, tail: Tail, ghost taken: seq<seq<Frame>>, ghost given: set<array<Frame>>)
    returns (reply: Result<seq<Frame>>)
    requires Shown(blocks, taken, given)
    ensures reply == Ok(Flat(taken))
  {
    var joined := Concatenate(blocks, tail, taken, given);
    reply := Ok(View(joined));
  }

  lemma {:induction false} PopEffect(held: Held, end: int)
    ensures Apply(held, Op.PopBeforeOwned(end))
         == if end <= held.End() then Effect(From(held, end), Ok(Before(held, end))) else Effect(held, Err)
  {}

  /** What a call does to the flat cache: only a fill may differ. */
  function ArrayApply(held: Held, op: Op): Effect {
    match op
    case Fill(start, end, box, value) =>
      if RangeFits(held, start, end) then Effect(ArrayFilled(held, start, end, box, value), Ok([])) else Effect(held, Err)
    case _ => Apply(held, op)
  }

  lemma {:induction false} FlatCallsAgree(held: Held, op: Op)
    requires op.Fill? && RangeFits(held, op.start, op.end) ==> !FillWrapsAround(held, op.start, op.end)
    ensures ArrayApply(held, op) == Apply(held, op)
  {
    if op.Fill? && RangeFits(held, op.start, op.end) { FillsAgree(held, op.start, op.end, op.box, op.value); }
  }

  /** The counterpart of the same call on the flat cache, which has fewer methods. */
  method ArrayCall(cache: ArrayFrameCache, op: Op) returns (reply: Result<seq<Frame>>)
    requires cache.Valid()
    modifies cache, cache.data.buf
    ensures cache.Valid()
    ensures cache.Holds() == ArrayApply(old(cache.Holds()), op).held
    ensures reply == ArrayApply(old(cache.Holds()), op).reply
    ensures cache.data == old(cache.data) || fresh(cache.data.buf)
  {
    reply := Ok([]);
    match op {
      case Append(frames) =>
        var block := NewBlock(frames, cache.tail);
        var ok := cache.Append(block);
      case AppendOwned(frames) =>
        var block := NewBlock(frames, cache.tail);
        var ok := cache.AppendOwned(block);
      case Slice(start, end) =>
        var block := cache.Slice(start, end);
        reply := if block.Some? then Ok(View(block.value)) else Err;
      case SliceInto(start, end, crop) =>
        var block := cache.Slice(start, end);
        reply := if block.Some? then Ok(Crop(View(block.value), crop)) else Err;
      case Overwrite(start, frames) =>
        var block := NewBlock(frames, cache.tail);
        var ok := cache.Overwrite(start, block);
        reply := if ok then Ok([]) else Err;
      case Fill(start, end, box, value) =>
        var ok := cache.FillRegion(start, end, box, value);
        reply := if ok then Ok([]) else Err;
      case PopBefore(end) =>
        var block := cache.PopBefore(end);
        reply := if block.Some? then Ok(View(block.value)) else Err;
      case PopBeforeOwned(end) =>
        var block := cache.PopBefore(end);
        reply := if block.Some? then Ok(View(block.value)) else Err;
      case DiscardBefore(end) =>
        var block := cache.PopBefore(end);
        reply := if block.Some? then Ok([]) else Err;
    }
  }

  /** No fill of the list has a range that ends before the cache and wraps around. */
  predicate NoFillWraps(held: Held, ops: seq<Op>) {
    forall k | 0 <= k < |ops| && ops[k].Fill? && RangeFits(Run(held, ops[..k]), ops[k].start, ops[k].end) ::
      !FillWrapsAround(Run(held, ops[..k]), ops[k].start, ops[k].end)
  }

  function Replies(held: Held, ops: seq<Op>): seq<Result<seq<Frame>>> {
    if ops == [] then []
    else Replies(held, ops[..|ops| - 1]) + [Apply(Run(held, ops[..|ops| - 1]), ops[|ops| - 1]).reply]
  }

  lemma {:induction false} OneMoreCall(held: Held, ops: seq<Op>, k: nat)
    requires k < |ops|
    ensures var effect := Apply(Run(held, ops[..k]), ops[k]);
            && Run(held, ops[..k + 1]) == effect.held
            && Replies(held, ops[..k + 1]) == Replies(held, ops[..k]) + [effect.reply]
            && Written(held, ops[..k + 1])
               == Written(held, ops[..k])
                  + if ops[k].PopBeforeOwned? && effect.reply.Ok? then effect.reply.value else []
  {
    assert ops[..k + 1][..k] == ops[..k];
  }

  /** The same call on both caches. */
  method CallBoth(chunked: ChunkedFrameCache, flat: ArrayFrameCache, op: Op)
    returns (chunkedReply: Result<seq<Frame>>, flatReply: Result<seq<Frame>>)
    requires chunked.Valid() && flat.Valid() && flat.data.buf !in chunked.Storage()
    requires chunked.Holds() == flat.Holds()
    requires op.Fill? && RangeFits(flat.Holds(), op.start, op.end) ==> !FillWrapsAround(flat.Holds(), op.start, op.end)
    modifies chunked, chunked.Storage(), flat, flat.data.buf
    ensures chunked.Valid() && flat.Valid() && flat.data.buf !in chunked.Storage()
    ensures chunked.Holds() == flat.Holds() == Apply(old(flat.Holds()), op).held
    ensures chunkedReply == flatReply == Apply(old(flat.Holds()), op).reply
    ensures forall a | a in chunked.Storage() :: a in old(chunked.Storage()) || fresh(a)
    ensures flat.data == old(flat.data) || fresh(flat.data.buf)
  {
    FlatCallsAgree(flat.Holds(), op);
    flatReply := ArrayCall(flat, op);
    var blocks; ghost var taken, given;
    chunkedReply, blocks, taken, given := ChunkedCall(chunked, op);
  }

  /** Both caches, given the same calls, hold the same and answer the same. */
  method RunBoth(start: int, tail: Tail, ops: seq<Op>)
    returns (chunked: ChunkedFrameCache, flat: ArrayFrameCache,
             chunkedReplies: seq<Result<seq<Frame>>>, flatReplies: seq<Result<seq<Frame>>>)
    requires NoFillWraps(Held(start, []), ops)
    ensures chunked.Valid() && flat.Valid()
    ensures chunked.Holds() == flat.Holds() == Run(Held(start, []), ops)
    ensures chunkedReplies == flatReplies == Replies(Held(start, []), ops)
  {
    chunked := new ChunkedFrameCache(start, tail);
    flat := new ArrayFrameCache(start, tail);
    chunkedReplies, flatReplies := [], [];
    ghost var first := Held(start, []);
    for k := 0 to |ops|
      invariant chunked.Valid() && flat.Valid() && fresh(chunked) && fresh(flat)
      invariant fresh(chunked.Storage()) && fresh(flat.data.buf) && flat.data.buf !in chunked.Storage()
      invariant chunked.Holds() == flat.Holds() == Run(first, ops[..k])
      invariant chunkedReplies == flatReplies == Replies(first, ops[..k])
    {
      OneMoreCall(first, ops, k);
      var chunkedReply, flatReply := CallBoth(chunked, flat, ops[k]);
      chunkedReplies, flatReplies := chunkedReplies + [chunkedReply], flatReplies + [flatReply];
    }
    assert ops[..|ops|] == ops;
  }

  /** The blocks collected so far stay as they are while one more call is served. */
  method ServeOne(cache: ChunkedFrameCache, op: Op, blocks: seq<Block>, ghost taken: seq<seq<Frame>>, ghost given: set<array<Frame>>)
    returns (all: seq<Block>, ghost allTaken: seq<seq<Frame>>, ghost allGiven: set<array<Frame>>)
    requires cache.Valid() && Shown(blocks, taken, given) && given !! cache.Storage()
    modifies cache, cache.Storage()
    ensures cache.Valid() && cache.Holds() == Apply(old(cache.Holds()), op).held
    ensures Shown(all, allTaken, allGiven) && allGiven !! cache.Storage()
    ensures var reply := Apply(old(cache.Holds()), op).reply;
            Flat(allTaken) == Flat(taken) + if op.PopBeforeOwned? && reply.Ok? then reply.value else []
    ensures forall a | a in cache.Storage() :: a in old(cache.Storage()) || fresh(a)
  {
    var reply, more; ghost var moreTaken, moreGiven;
    reply, more, moreTaken, moreGiven := ChunkedCall(cache, op);
    FlatAppend(taken, moreTaken);
    ShownTogether(blocks, taken, given, more, moreTaken, moreGiven);
    all, allTaken, allGiven := blocks + more, taken + moreTaken, given + moreGiven;
  }

  /**
   * Serve any list of calls and collect what `pop_before_owned` hands out. At the
   * end the collected blocks still hold exactly the frames popped, in order:
   * no later call has changed them, and they share nothing with the cache.
   */
  method Serve(cache: ChunkedFrameCache, ops: seq<Op>)
    returns (blocks: seq<Block>, ghost taken: seq<seq<Frame>>, ghost given: set<array<Frame>>)
    requires cache.Valid()
    modifies cache, cache.Storage()
    ensures cache.Valid() && cache.Holds() == Run(old(cache.Holds()), ops)
    ensures Shown(blocks, taken, given) && Flat(taken) == Written(old(cache.Holds()), ops)
    ensures given !! cache.Storage()
  {
    blocks, taken, given := [], [], {};
    ghost var first := cache.Holds();
    for k := 0 to |ops|
      invariant cache.Valid() && cache.Holds() == Run(first, ops[..k])
      invariant forall a | a in cache.Storage() :: a in old(cache.Storage()) || fresh(a)
      invariant Shown(blocks, taken, given) && Flat(taken) == Written(first, ops[..k])
      invariant given !! cache.Storage()
    {
      OneMoreCall(first, ops, k);
      blocks, taken, given := ServeOne(cache, ops[k], blocks, taken, given);
    }
    assert ops[..|ops|] == ops;
  }

  // ---- With borrowed heads --------------------------------------------------------------

  /** What the writer's side asks for: a call, the head to borrow, or the borrowed head for good. */
  datatype Request = Call(op: Op) | Borrow(start: int, end: int) | Detach(retain: int)

  /** What comes of it: `Released` is a head of frames up to `end`, kept in the cache from `retain` on. */
  datatype Step = Called(op: Op) | Released(end: int, retain: int) | Unchanged

  predicate Answers(request: Request, step: Step) {
    match request
    case Call(op) => step == Called(op)
    case Borrow(_, _) => step == Unchanged
    case Detach(retain) => step == Unchanged || (step.Released? && step.retain == retain)
  }

  predicate Possible(held: Held, step: Step) {
    step.Released? ==> SliceFits(held, held.start, step.end) && held.start <= step.retain <= step.end
  }

  function HeldAfter(held: Held, step: Step): Held {
    match step
    case Called(op) => Apply(held, op).held
    case Released(_, retain) => if retain <= held.End() then From(held, retain) else held
    case Unchanged => held
  }

  /** The frames a step hands to the writer. */
  function HandedOut(held: Held, step: Step): seq<Frame>
    requires Possible(held, step)
  {
    match step
    case Called(op) => if op.PopBeforeOwned? && Apply(held, op).reply.Ok? then Apply(held, op).reply.value else []
    case Released(end, _) => Cut(held, held.start, end)
    case Unchanged => []
  }

  function HeldAfterAll(held: Held, steps: seq<Step>): Held {
    if steps == [] then held else HeldAfter(HeldAfterAll(held, steps[..|steps| - 1]), steps[|steps| - 1])
  }

  predicate AllPossible(held: Held, steps: seq<Step>) {
    forall k: nat | k < |steps| :: Possible(HeldAfterAll(held, steps[..k]), steps[k])
  }

  function AllHandedOut(held: Held, steps: seq<Step>): seq<Frame>
    requires AllPossible(held, steps)
  {
    if steps == [] then []
    else
      StepsBefore(held, steps);
      AllHandedOut(held, steps[..|steps| - 1])
      + HandedOut(HeldAfterAll(held, steps[..|steps| - 1]), steps[|steps| - 1])
  }

  lemma {:induction false} StepsBefore(held: Held, steps: seq<Step>)
    requires steps != [] && AllPossible(held, steps)
    ensures AllPossible(held, steps[..|steps| - 1])
  {
    var before := steps[..|steps| - 1];
    forall k: nat | k < |before| ensures Possible(HeldAfterAll(held, before[..k]), before[k]) {
      assert before[..k] == steps[..k];
    }
  }

  lemma {:induction false} OneMoreServed(held: Held, steps: seq<Step>, step: Step)
    requires AllPossible(held, steps) && Possible(HeldAfterAll(held, steps), step)
    ensures AllPossible(held, steps + [step])
    ensures HeldAfterAll(held, steps + [step]) == HeldAfter(HeldAfterAll(held, steps), step)
    ensures AllHandedOut(held, steps + [step]) == AllHandedOut(held, steps) + HandedOut(HeldAfterAll(held, steps), step)
  {
    var all := steps + [step];
    assert all[..|steps|] == steps;
    forall k: nat | k < |all| ensures Possible(HeldAfterAll(held, all[..k]), all[k]) {
      if k < |steps| { assert all[..k] == steps[..k]; }
    }
  }

  /** The borrowed head for good: it leaves the cache with the frames it has at this moment. */
  method Release(cache: ChunkedFrameCache, head: Block, retain: int)
    returns (ok: bool, ghost step: Step)
    requires cache.Valid()
    modifies cache
    ensures cache.Valid() && Possible(old(cache.Holds()), step) && Answers(Detach(retain), step)
    ensures ok <==> step.Released?
    ensures ok == old(cache.chunks != [] && cache.chunks[0] == head && cache.start <= retain <= cache.start + head.len)
    ensures cache.Holds() == HeldAfter(old(cache.Holds()), step)
    ensures ok ==>
              && head.buf in old(cache.Storage()) && head.buf !in cache.Storage()
              && InBounds(head) && View(head) == HandedOut(old(cache.Holds()), step)
    ensures forall a | a in cache.Storage() :: a in old(cache.Storage()) || fresh(a)
  {
    ghost var end := cache.start + head.len;
    var copied;
    ok, copied := cache.DetachBorrowedHead(head, retain);
    step := if ok then Released(end, retain) else Unchanged;
  }

  /** Blocks handed out earlier stay as they are while one more request is served. */
  method ServeRequest(cache: ChunkedFrameCache, request: Request, borrowed: Option<Block>, blocks: seq<Block>,
                      ghost taken: seq<seq<Frame>>, ghost given: set<array<Frame>>)
    returns (nowBorrowed: Option<Block>, all: seq<Block>, ghost allTaken: seq<seq<Frame>>, ghost allGiven: set<array<Frame>>,
             ghost step: Step)
    requires cache.Valid() && Shown(blocks, taken, given) && given !! cache.Storage()
    modifies cache, cache.Storage()
    ensures cache.Valid() && Possible(old(cache.Holds()), step) && Answers(request, step)
    ensures request.Detach? ==>
              (step.Released? <==>
                 borrowed.Some? && old(cache.chunks != [] && cache.chunks[0] == borrowed.value
                                       && cache.start <= request.retain <= cache.start + borrowed.value.len))
    ensures request.Borrow? && nowBorrowed.Some? ==> cache.chunks != [] && nowBorrowed == Some(cache.chunks[0])
    ensures cache.Holds() == HeldAfter(old(cache.Holds()), step)
    ensures Shown(all, allTaken, allGiven) && allGiven !! cache.Storage()
    ensures Flat(allTaken) == Flat(taken) + HandedOut(old(cache.Holds()), step)
    ensures forall a | a in cache.Storage() :: a in old(cache.Storage()) || fresh(a)
  {
    nowBorrowed, all, allTaken, allGiven := borrowed, blocks, taken, given;
    match request {
      case Call(op) =>
        step := Called(op);
        all, allTaken, allGiven := ServeOne(cache, op, blocks, taken, given);
      case Borrow(start, end) =>
        step := Unchanged;
        nowBorrowed := cache.BorrowHead(start, end);
      case Detach(retain) =>
        step := Unchanged;
        if borrowed.Some? {
          var ok;
          ok, step := Release(cache, borrowed.value, retain);
          if ok {
            all, allTaken, allGiven := HandOver(borrowed.value, blocks, taken, given);
            nowBorrowed := None;
          }
        }
    }
  }

  /** One more block for the writer. */
  method HandOver(head: Block, blocks: seq<Block>, ghost taken: seq<seq<Frame>>, ghost given: set<array<Frame>>)
    returns (all: seq<Block>, ghost allTaken: seq<seq<Frame>>, ghost allGiven: set<array<Frame>>)
    requires InBounds(head) && Shown(blocks, taken, given)
    ensures Shown(all, allTaken, allGiven) && allGiven == given + {head.buf}
    ensures Flat(allTaken) == Flat(taken) + View(head)
  {
    FlatAppend(taken, [View(head)]);
    FlatOfOne(View(head));
    ShownTogether(blocks, taken, given, [head], [View(head)], {head.buf});
    all, allTaken, allGiven := blocks + [head], taken + [View(head)], given + {head.buf};
  }

  lemma {:induction false} FlatOfOne(view: seq<Frame>)
    ensures Flat([view]) == view
  {
    FlatSnoc([], view);
    assert [] + [view] == [view] && Flat([]) == [];
  }

  /**
   * Serve any list of calls, borrowings and detachments. At the end the blocks handed out,
   * popped ones and released heads alike, still hold exactly the frames they had when they
   * left, in order, and share nothing with the cache.
   */
  method ServeRequests(cache: ChunkedFrameCache, requests: seq<Request>)
    returns (blocks: seq<Block>, ghost taken: seq<seq<Frame>>, ghost given: set<array<Frame>>, ghost steps: seq<Step>)
    requires cache.Valid()
    modifies cache, cache.Storage()
    ensures |steps| == |requests| && forall k | 0 <= k < |steps| :: Answers(requests[k], steps[k])
    ensures cache.Valid() && AllPossible(old(cache.Holds()), steps)
    ensures cache.Holds() == HeldAfterAll(old(cache.Holds()), steps)
    ensures Shown(blocks, taken, given) && Flat(taken) == AllHandedOut(old(cache.Holds()), steps)
    ensures given !! cache.Storage()
  {
    blocks, taken, given, steps := [], [], {}, [];
    ghost var first := cache.Holds();
    var borrowed := None;
    for k := 0 to |requests|
      invariant |steps| == k && forall i | 0 <= i < k :: Answers(requests[i], steps[i])
      invariant cache.Valid() && AllPossible(first, steps) && cache.Holds() == HeldAfterAll(first, steps)
      invariant forall a | a in cache.Storage() :: a in old(cache.Storage()) || fresh(a)
      invariant Shown(blocks, taken, given) && Flat(taken) == AllHandedOut(first, steps)
      invariant given !! cache.Storage()
    {
      ghost var step;
      borrowed, blocks, taken, given, step := ServeRequest(cache, requests[k], borrowed, blocks, taken, given);
      OneMoreServed(first, steps, step);
      steps := steps + [step];
    }
  }
}
