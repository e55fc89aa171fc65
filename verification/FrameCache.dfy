/**
 * `ChunkedFrameCache` and `ArrayFrameCache` on heap buffers. A block is an array
 * object: a window on a buffer that other windows may share. What a cache means
 * is `Holds()`, and every method is tied to a function of it.
 */
module FrameCache {
  import opened Wrappers
  import opened Frames

  class Block {
    const buf: array<Frame>
    const off: nat
    const len: nat
    const tail: Tail

    constructor (buf: array<Frame>, off: nat, len: nat, tail: Tail)
      ensures this.buf == buf && this.off == off && this.len == len && this.tail == tail
    {
      this.buf, this.off, this.len, this.tail := buf, off, len, tail;
    }
  }

  predicate InBounds(b: Block) {
    b.off + b.len <= b.buf.Length
  }

  function View(b: Block): (v: seq<Frame>)
    requires InBounds(b)
    reads b.buf
    ensures |v| == b.len
  {
    b.buf[b.off..b.off + b.len]
  }

  ghost predicate AllInBounds(blocks: seq<Block>) {
    forall i | 0 <= i < |blocks| :: InBounds(blocks[i])
  }

  ghost function Buffers(blocks: seq<Block>): set<array<Frame>> {
    set i | 0 <= i < |blocks| :: blocks[i].buf
  }

  ghost predicate Shows(blocks: seq<Block>, views: seq<seq<Frame>>)
    requires AllInBounds(blocks)
    reads Buffers(blocks)
  {
    |views| == |blocks| && forall i | 0 <= i < |blocks| :: View(blocks[i]) == views[i]
  }

  /** The blocks lie in the given buffers and hold the given frames. */
  ghost predicate Shown(blocks: seq<Block>, views: seq<seq<Frame>>, given: set<array<Frame>>)
    reads given
  {
    && |views| == |blocks|
    && forall i | 0 <= i < |blocks| :: blocks[i].buf in given && InBounds(blocks[i]) && View(blocks[i]) == views[i]
  }

  lemma {:induction false} ShownTogether(blocks: seq<Block>, views: seq<seq<Frame>>, given: set<array<Frame>>,
                                         more: seq<Block>, others: seq<seq<Frame>>, alsoGiven: set<array<Frame>>)
    requires Shown(blocks, views, given) && Shown(more, others, alsoGiven)
    ensures Shown(blocks + more, views + others, given + alsoGiven)
  {}

  method NewBlock(frames: seq<Frame>, tail: Tail) returns (b: Block)
    ensures fresh(b) && fresh(b.buf) && InBounds(b) && View(b) == frames && b.len == |frames| && b.tail == tail
  {
    var buf := new Frame[|frames|](i requires 0 <= i < |frames| => frames[i]);
    b := new Block(buf, 0, |frames|, tail);
  }

  /** A copy of part of a block, as `frames[lo:hi].copy()`. */
  method CopyPart(b: Block, lo: nat, hi: nat) returns (c: Block)
    requires InBounds(b) && lo <= hi <= b.len
    ensures fresh(c) && fresh(c.buf) && InBounds(c)
    ensures View(c) == View(b)[lo..hi] && c.len == hi - lo && c.tail == b.tail
  {
    c := NewBlock(b.buf[b.off + lo..b.off + hi], b.tail);
  }

  method Concatenate(blocks: seq<Block>, tail: Tail, ghost taken: seq<seq<Frame>>, ghost given: set<array<Frame>>)
    returns (b: Block)
    requires Shown(blocks, taken, given)
    ensures fresh(b) && fresh(b.buf) && InBounds(b) && View(b) == Flat(taken) && b.tail == tail
  {
    var frames := [];
    for c := 0 to |blocks|
      invariant frames == FlatUpTo(taken, c)
    {
      frames := frames + View(blocks[c]);
    }
    b := NewBlock(frames, tail);
  }

  /** `chunk[...] = frames[...]` for the part of `frames` that falls into the chunk at `cursor`. */
  method ReplaceIn(chunk: Block, cursor: int, start: int, frames: Block)
    requires InBounds(chunk) && InBounds(frames) && chunk.buf != frames.buf
    modifies chunk.buf
    ensures View(chunk) == Mapped(old(View(chunk)), cursor, Replace(start, View(frames)))
    ensures View(frames) == old(View(frames))
  {
    var overlapStart := if start < cursor then cursor else start;
    var overlapEnd := if start + frames.len < cursor + chunk.len then start + frames.len else cursor + chunk.len;
    if overlapStart < overlapEnd {
      forall i | overlapStart - cursor <= i < overlapEnd - cursor {
        chunk.buf[chunk.off + i] := frames.buf[frames.off + (cursor + i - start)];
      }
    }
    ghost var wanted := Mapped(old(View(chunk)), cursor, Replace(start, View(frames)));
    forall i | 0 <= i < chunk.len ensures View(chunk)[i] == wanted[i] {
      assert old(View(chunk))[i] == old(chunk.buf[chunk.off + i]);
    }
  }

  method FillIn(chunk: Block, cursor: int, start: int, end: int, box: Box, value: int)
    requires InBounds(chunk)
    modifies chunk.buf
    ensures View(chunk) == Mapped(old(View(chunk)), cursor, Paint(start, end, box, value))
  {
    ghost var before := View(chunk);
    var overlapStart := if start < cursor then cursor else start;
    var overlapEnd := if end < cursor + chunk.len then end else cursor + chunk.len;
    if overlapStart < overlapEnd {
      forall i | overlapStart - cursor <= i < overlapEnd - cursor {
        chunk.buf[chunk.off + i] := FillFrame(chunk.buf[chunk.off + i], box, value);
      }
    }
    ghost var wanted := Mapped(before, cursor, Paint(start, end, box, value));
    forall i | 0 <= i < chunk.len ensures View(chunk)[i] == wanted[i] {
      assert before[i] == old(chunk.buf[chunk.off + i]);
    }
  }

  // ---- All chunks -----------------------------------------------------------------

  /** Non-empty windows of one shape, no two of which share a buffer. */
  ghost predicate Separate(chunks: seq<Block>, tail: Tail) {
    && AllInBounds(chunks)
    && (forall i | 0 <= i < |chunks| :: chunks[i].len > 0 && chunks[i].tail == tail)
    && (forall i, j | 0 <= i < j < |chunks| :: chunks[i].buf != chunks[j].buf)
  }

  /** The first `c` chunks are changed, the others are not. */
  ghost predicate PartlyChanged(views: seq<seq<Frame>>, now: seq<seq<Frame>>, c: nat, start: int, change: Change) {
    && c <= |views| == |now|
    && (forall i | 0 <= i < c :: ChunkMapped(views, now, i, start, change))
    && (forall i | c <= i < |views| :: now[i] == views[i])
  }

  lemma {:induction false} ChangedChunks(views: seq<seq<Frame>>, others: seq<seq<Frame>>, c: nat, start: int, change: Change)
    requires PartlyChanged(views, others, c, start, change)
    requires c < |views| ==> start + |FlatUpTo(views, c)| >= ChangeEnd(change)
    ensures Flat(others) == Mapped(Flat(views), start, change)
  {
    forall i | 0 <= i < |views| ensures ChunkMapped(views, others, i, start, change) {
      if i >= c {
        PrefixOfFlat(views, c, i);
        assert Mapped(views[i], start + |FlatUpTo(views, i)|, change) == views[i];
      }
    }
    FlatOfMapped(views, others, |views|, start, change);
  }

  lemma {:induction false} OneMoreChanged(views: seq<seq<Frame>>, now: seq<seq<Frame>>, c: nat, start: int, cursor: int, change: Change)
    requires PartlyChanged(views, now, c, start, change) && c < |views| && cursor == start + |FlatUpTo(views, c)|
    ensures PartlyChanged(views, now[c := Mapped(now[c], cursor, change)], c + 1, start, change)
    ensures cursor + |views[c]| == start + |FlatUpTo(views, c + 1)|
  {
    var after := now[c := Mapped(now[c], cursor, change)];
    forall i | 0 <= i < c + 1 ensures ChunkMapped(views, after, i, start, change) {
      if i < c { assert ChunkMapped(views, now, i, start, change); }
    }
  }

  method ReplaceAll(chunks: seq<Block>, tail: Tail, start: int, startFrame: int, frames: Block, ghost views: seq<seq<Frame>>)
    returns (ghost now: seq<seq<Frame>>)
    requires Separate(chunks, tail) && InBounds(frames) && frames.buf !in Buffers(chunks) && Shows(chunks, views)
    modifies Buffers(chunks)
    ensures View(frames) == old(View(frames))
    ensures Shows(chunks, now) && Flat(now) == Mapped(Flat(views), start, Replace(startFrame, View(frames)))
  {
    now := views;
    ghost var change := Replace(startFrame, View(frames));
    var c, cursor := 0, start;
    while c < |chunks|
      invariant 0 <= c <= |chunks| == |views| && cursor == start + |FlatUpTo(views, c)|
      invariant View(frames) == change.frames && Shows(chunks, now) && PartlyChanged(views, now, c, start, change)
    {
      OneMoreChanged(views, now, c, start, cursor, change);
      ReplaceOne(chunks, tail, c, cursor, startFrame, frames, now);
      now := now[c := Mapped(now[c], cursor, change)];
      c, cursor := c + 1, cursor + chunks[c].len;
      if cursor >= startFrame + frames.len { break; }
    }
    ChangedChunks(views, now, c, start, change);
  }

  method ReplaceOne(chunks: seq<Block>, tail: Tail, c: nat, cursor: int, startFrame: int, frames: Block,
                    ghost now: seq<seq<Frame>>)
    requires Separate(chunks, tail) && InBounds(frames) && frames.buf !in Buffers(chunks)
    requires c < |chunks| && Shows(chunks, now)
    modifies chunks[c].buf
    ensures View(frames) == old(View(frames))
    ensures Shows(chunks, now[c := Mapped(now[c], cursor, Replace(startFrame, View(frames)))])
  {
    assert chunks[c].buf in Buffers(chunks);
    ReplaceIn(chunks[c], cursor, startFrame, frames);
  }

  method FillAll(chunks: seq<Block>, tail: Tail, start: int, startFrame: int, endFrame: int, box: Box, value: int,
                 ghost views: seq<seq<Frame>>)
    returns (ghost now: seq<seq<Frame>>)
    requires Separate(chunks, tail) && Shows(chunks, views)
    modifies Buffers(chunks)
    ensures Shows(chunks, now) && Flat(now) == Mapped(Flat(views), start, Paint(startFrame, endFrame, box, value))
  {
    now := views;
    ghost var change := Paint(startFrame, endFrame, box, value);
    var c, cursor := 0, start;
    while c < |chunks|
      invariant 0 <= c <= |chunks| == |views| && cursor == start + |FlatUpTo(views, c)|
      invariant Shows(chunks, now) && PartlyChanged(views, now, c, start, change)
    {
      OneMoreChanged(views, now, c, start, cursor, change);
      FillOne(chunks, tail, c, cursor, startFrame, endFrame, box, value, now, change);
      now := now[c := Mapped(now[c], cursor, change)];
      c, cursor := c + 1, cursor + chunks[c].len;
      if cursor >= endFrame { break; }
    }
    ChangedChunks(views, now, c, start, change);
  }

  method FillOne(chunks: seq<Block>, tail: Tail, c: nat, cursor: int, startFrame: int, endFrame: int,
                 box: Box, value: int, ghost now: seq<seq<Frame>>, ghost change: Change)
    requires Separate(chunks, tail) && c < |chunks| && Shows(chunks, now)
    requires change == Paint(startFrame, endFrame, box, value)
    modifies chunks[c].buf
    ensures Shows(chunks, now[c := Mapped(now[c], cursor, change)])
  {
    FillIn(chunks[c], cursor, startFrame, endFrame, box, value);
  }

  /** Copy the part of one chunk that lies in the wanted range to its place in `result`. */
  method CopyFrom(chunk: Block, cursor: int, startFrame: int, result: Block, crop: Option<Box>, ghost all: Held)
    requires InBounds(chunk) && InBounds(result) && chunk.buf != result.buf
    requires SliceFits(all, cursor, cursor + chunk.len) && View(chunk) == Cut(all, cursor, cursor + chunk.len)
    requires SliceFits(all, startFrame, startFrame + result.len)
    requires Copied(all, startFrame, result, crop, cursor)
    modifies result.buf
    ensures Copied(all, startFrame, result, crop, cursor + chunk.len)
  {
    var overlapStart := if startFrame < cursor then cursor else startFrame;
    var overlapEnd := if startFrame + result.len < cursor + chunk.len then startFrame + result.len else cursor + chunk.len;
    ghost var before := View(result);
    if overlapStart < overlapEnd {
      forall i | overlapStart - startFrame <= i < overlapEnd - startFrame {
        result.buf[result.off + i] := CropOne(chunk.buf[chunk.off + (startFrame + i - cursor)], crop);
      }
    }
    forall i | 0 <= i < result.len && startFrame + i < cursor + chunk.len
      ensures View(result)[i] == CropOne(all.frames[startFrame + i - all.start], crop)
    {
      if startFrame + i < cursor {
        assert before[i] == View(result)[i];
      } else {
        assert View(chunk)[startFrame + i - cursor] == all.frames[startFrame + i - all.start];
      }
    }
  }

  function CropOne(frame: Frame, crop: Option<Box>): Frame {
    if crop.Some? then CropFrame(frame, crop.value) else frame
  }

  /** The destination holds every wanted frame before `cursor`. */
  ghost predicate Copied(all: Held, startFrame: int, result: Block, crop: Option<Box>, cursor: int)
    requires InBounds(result) && SliceFits(all, startFrame, startFrame + result.len)
    reads result.buf
  {
    forall i | 0 <= i < result.len && startFrame + i < cursor ::
      View(result)[i] == CropOne(all.frames[startFrame + i - all.start], crop)
  }

  lemma {:induction false} ChunkIsACut(views: seq<seq<Frame>>, start: int, c: nat)
    requires c < |views|
    ensures var (all, at) := (Held(start, Flat(views)), start + |FlatUpTo(views, c)|);
            SliceFits(all, at, at + |views[c]|) && Cut(all, at, at + |views[c]|) == views[c]
    ensures |FlatUpTo(views, c + 1)| == |FlatUpTo(views, c)| + |views[c]|
  {
    ChunkAt(views, c);
  }

  method CopyAll(chunks: seq<Block>, tail: Tail, start: int, startFrame: int, result: Block, crop: Option<Box>,
                 ghost views: seq<seq<Frame>>, ghost all: Held)
    requires Separate(chunks, tail) && InBounds(result) && result.buf !in Buffers(chunks) && Shows(chunks, views)
    requires all == Held(start, Flat(views)) && SliceFits(all, startFrame, startFrame + result.len)
    modifies result.buf
    ensures Shows(chunks, views)
    ensures Copied(all, startFrame, result, crop, startFrame + result.len)
  {
    var c, cursor := 0, start;
    while c < |chunks|
      invariant 0 <= c <= |chunks| && cursor == start + |FlatUpTo(views, c)|
      invariant Shows(chunks, views)
      invariant Copied(all, startFrame, result, crop, cursor)
    {
      ChunkIsACut(views, start, c);
      CopyOne(chunks, tail, c, cursor, startFrame, result, crop, views, all);
      c, cursor := c + 1, cursor + chunks[c].len;
      if cursor >= startFrame + result.len { break; }
    }
  }

  method CopyOne(chunks: seq<Block>, tail: Tail, c: nat, cursor: int, startFrame: int, result: Block, crop: Option<Box>,
                 ghost views: seq<seq<Frame>>, ghost all: Held)
    requires Separate(chunks, tail) && InBounds(result) && result.buf !in Buffers(chunks) && Shows(chunks, views)
    requires c < |chunks| && SliceFits(all, cursor, cursor + chunks[c].len)
    requires views[c] == Cut(all, cursor, cursor + chunks[c].len)
    requires SliceFits(all, startFrame, startFrame + result.len)
    requires Copied(all, startFrame, result, crop, cursor)
    modifies result.buf
    ensures Shows(chunks, views) && Copied(all, startFrame, result, crop, cursor + chunks[c].len)
  {
    assert forall i | 0 <= i < |chunks| :: chunks[i].buf in Buffers(chunks);
    CopyFrom(chunks[c], cursor, startFrame, result, crop, all);
  }

  lemma {:induction false} CopiedAll(all: Held, startFrame: int, result: Block, crop: Option<Box>)
    requires InBounds(result) && SliceFits(all, startFrame, startFrame + result.len)
    requires Copied(all, startFrame, result, crop, startFrame + result.len)
    ensures View(result) == Crop(Cut(all, startFrame, startFrame + result.len), crop)
  {}

  class ChunkedFrameCache {
    var start: int
    const tail: Tail
    var chunks: seq<Block>
    ghost var views: seq<seq<Frame>>

    /** Every chunk is a non-empty window, and no two chunks share a buffer. */
    ghost predicate Valid()
      reads this, Storage()
    {
      Separate(chunks, tail) && Shows(chunks, views)
    }

    ghost function Storage(): set<array<Frame>>
      reads this
    {
      Buffers(chunks)
    }

    ghost function Holds(): Held
      reads this
    {
      Held(start, Flat(views))
    }

    constructor (start: int, tail: Tail)
      ensures Valid() && Holds() == Held(start, []) && Storage() == {} && this.tail == tail
    {
      this.start, this.tail, this.chunks, this.views := start, tail, [], [];
    }

    method EndIndex() returns (end: int)
      requires Valid()
      ensures end == Holds().End()
    {
      end := start;
      for c := 0 to |chunks|
        invariant end == start + |FlatUpTo(views, c)|
      {
        end := end + chunks[c].len;
      }
    }

    /** Put a block nobody else uses behind the last chunk. */
    method Push(frames: Block)
      requires Valid() && InBounds(frames) && frames.len > 0 && frames.tail == tail && frames.buf !in Storage()
      modifies this
      ensures Valid() && start == old(start)
      ensures chunks == old(chunks) + [frames]
      ensures Holds().frames == old(Holds()).frames + View(frames)
    {
      forall i | 0 <= i < |chunks| ensures chunks[i].buf != frames.buf { assert chunks[i].buf in Storage(); }
      FlatSnoc(views, View(frames));
      chunks, views := chunks + [frames], views + [View(frames)];
    }

    method Append(frames: Block) returns (ok: bool)
      requires Valid() && InBounds(frames)
      modifies this
      ensures Valid() && ok == (frames.tail == tail)
      ensures Holds() == if ok then Apply(old(Holds()), Op.Append(View(frames))).held else old(Holds())
      ensures forall a | a in Storage() :: a in old(Storage()) || fresh(a)
    {
      if frames.tail != tail { return false; }
      if frames.len > 0 {
        var copy := CopyPart(frames, 0, frames.len);
        Push(copy);
      }
      return true;
    }

    /** The caller hands over the buffer; nothing is copied. */
    method AppendOwned(frames: Block) returns (ok: bool)
      requires Valid() && InBounds(frames) && frames.buf !in Storage()
      modifies this
      ensures Valid() && ok == (frames.tail == tail)
      ensures Holds() == if ok then Apply(old(Holds()), Op.AppendOwned(View(frames))).held else old(Holds())
      ensures forall a | a in Storage() :: a in old(Storage()) || a == frames.buf
      ensures ok && frames.len > 0 ==> chunks == old(chunks) + [frames]
    {
      if frames.tail != tail { return false; }
      if frames.len > 0 { Push(frames); }
      return true;
    }

    method BorrowHead(startFrame: int, endFrame: int) returns (block: Option<Block>)
      requires Valid()
      ensures block.Some? <==> startFrame == start && chunks != [] && endFrame == start + chunks[0].len
      ensures block.Some? ==>
                && block.value == chunks[0]
                && SliceFits(Holds(), startFrame, endFrame)
                && View(block.value) == Cut(Holds(), startFrame, endFrame)
    {
      if startFrame != start || chunks == [] || endFrame != startFrame + chunks[0].len { return None; }
      FlatFront(views);
      return Some(chunks[0]);
    }

    /** Take the first chunk off. */
    method PopLeft() returns (head: Block)
      requires Valid() && chunks != []
      modifies this
      ensures Valid() && head == old(chunks)[0] && chunks == old(chunks)[1..] && start == old(start)
      ensures InBounds(head) && old(Holds()).frames == View(head) + Holds().frames
      ensures head.buf !in Storage() && head.tail == tail
    {
      FlatFront(views);
      head := chunks[0];
      chunks, views := chunks[1..], views[1..];
    }

    /** Put a block nobody else uses in the place of the first chunk. */
    method SwapLeft(kept: Block) returns (head: Block, ghost rest: seq<Frame>)
      requires Valid() && chunks != [] && InBounds(kept) && kept.len > 0 && kept.tail == tail && kept.buf !in Storage()
      modifies this
      ensures Valid() && head == old(chunks)[0] && chunks == old(chunks)[0 := kept] && start == old(start)
      ensures InBounds(head) && head.tail == tail && head.buf !in Storage()
      ensures old(Holds()).frames == View(head) + rest && Holds().frames == View(kept) + rest
    {
      forall i | 0 <= i < |chunks| ensures chunks[i].buf != kept.buf { assert chunks[i].buf in Storage(); }
      FlatFront(views);
      head, rest := chunks[0], Flat(views[1..]);
      chunks, views := chunks[0 := kept], views[0 := View(kept)];
      FlatFront(views);
    }

    /** The whole first chunk leaves the cache. */
    method DropHead() returns (head: Block)
      requires Valid() && chunks != []
      modifies this
      ensures Valid() && start == old(start + chunks[0].len) && start <= old(Holds()).End()
      ensures Holds() == From(old(Holds()), start)
      ensures head == old(chunks)[0] && InBounds(head) && head.tail == tail
      ensures head.buf in old(Storage()) && head.buf !in Storage()
      ensures View(head) == Before(old(Holds()), start)
      ensures Storage() <= old(Storage())
    {
      ghost var held := Holds();
      assert chunks[0].buf in Storage();
      head := PopLeft();
      FromHead(held, View(head), Holds().frames, start + head.len);
      start := start + head.len;
    }

    /** The first chunk leaves the cache; its frames from `end` on stay as a copy. */
    method KeepTail(end: int) returns (head: Block)
      requires Valid() && chunks != [] && start <= end < start + chunks[0].len
      modifies this
      ensures Valid() && end <= old(Holds()).End() && Holds() == From(old(Holds()), end)
      ensures head == old(chunks)[0] && InBounds(head) && head.tail == tail
      ensures head.buf in old(Storage()) && head.buf !in Storage()
      ensures View(head)[..end - old(start)] == Before(old(Holds()), end)
      ensures chunks != [] && fresh(chunks[0].buf) && chunks[0].len == old(start) + head.len - end
      ensures forall a | a in Storage() :: a in old(Storage()) || fresh(a)
    {
      ghost var (held, v) := (Holds(), View(chunks[0]));
      assert chunks[0].buf in Storage();
      var retained := CopyPart(chunks[0], end - start, chunks[0].len);
      ghost var rest;
      head, rest := SwapLeft(retained);
      FromHead(held, v, rest, end);
      assert View(head) == v;
      start := end;
    }

    /** The borrowed head leaves the cache; what is kept of it is copied. */
    method DetachBorrowedHead(frames: Block, retainStart: int) returns (ok: bool, copied: nat)
      requires Valid()
      modifies this
      ensures Valid()
      ensures ok == old(chunks != [] && chunks[0] == frames && start <= retainStart <= start + frames.len)
      ensures ok ==> retainStart <= old(Holds()).End() && Holds() == From(old(Holds()), retainStart)
      ensures ok ==> frames.buf in old(Storage()) && frames.buf !in Storage()
      ensures ok ==>
                && InBounds(frames) && SliceFits(old(Holds()), old(start), old(start) + frames.len)
                && View(frames) == Cut(old(Holds()), old(start), old(start) + frames.len)
      ensures ok ==> copied == old(start) + frames.len - retainStart
      ensures !ok ==> Holds() == old(Holds()) && chunks == old(chunks)
      ensures forall a | a in Storage() :: a in old(Storage()) || fresh(a)
    {
      if chunks == [] || chunks[0] != frames { return false, 0; }
      if !(start <= retainStart <= start + frames.len) { return false, 0; }
      ok, copied := true, start + frames.len - retainStart;
      FlatFront(views);
      if copied > 0 {
        var head := KeepTail(retainStart);
      } else {
        var head := DropHead();
      }
    }

    method DiscardBefore(end: int) returns (ok: bool, copied: nat)
      requires Valid()
      modifies this
      ensures Valid() && ok == (end <= old(Holds()).End())
      ensures Holds() == if ok then From(old(Holds()), end) else old(Holds())
      ensures forall a | a in Storage() :: a in old(Storage()) || fresh(a)
      ensures copied > 0 ==> chunks != [] && fresh(chunks[0].buf) && chunks[0].len == copied
    {
      copied := 0;
      if end <= start { return true, 0; }
      var last := EndIndex();
      if end > last { return false, 0; }
      ok := true;
      copied := DiscardBlocks(end);
    }

    /** The first chunk, or the part of it before `end`, leaves the cache for good. */
    method DiscardHead(end: int) returns (copied: nat)
      requires Valid() && chunks != [] && start < end <= Holds().End()
      modifies this
      ensures Valid() && old(start) < start <= end && Holds() == From(old(Holds()), start)
      ensures copied > 0 ==> start == end && chunks != [] && fresh(chunks[0].buf) && chunks[0].len == copied
      ensures forall a | a in Storage() :: a in old(Storage()) || fresh(a)
    {
      var chunkEnd := start + chunks[0].len;
      if chunkEnd <= end {
        var head := DropHead();
        copied := 0;
      } else {
        var head := KeepTail(end);
        copied := chunkEnd - end;
      }
    }

    method DiscardBlocks(end: int) returns (copied: nat)
      requires Valid() && start < end <= Holds().End()
      modifies this
      ensures Valid() && Holds() == From(old(Holds()), end)
      ensures forall a | a in Storage() :: a in old(Storage()) || fresh(a)
      ensures copied > 0 ==> chunks != [] && fresh(chunks[0].buf) && chunks[0].len == copied
    {
      ghost var held := Holds();
      copied := 0;
      while chunks != [] && start < end
        invariant Valid() && held.start <= start <= end && Holds() == From(held, start)
        invariant forall a | a in Storage() :: a in old(Storage()) || fresh(a)
        invariant copied > 0 ==> start == end && chunks != [] && fresh(chunks[0].buf) && chunks[0].len == copied
        decreases end - start
      {
        ghost var before := start;
        PopInSteps(held, before, end);
        copied := DiscardHead(end);
        PopInSteps(held, before, start);
      }
      assert chunks == [] ==> Holds().frames == [];
    }

    /** Take the first chunk, or the part of it before `end`. */
    method TakeHead(end: int) returns (block: Block, copied: nat, ghost taken: seq<Frame>)
      requires Valid() && chunks != [] && start < end <= Holds().End()
      modifies this
      ensures Valid() && old(start) < start <= end && Holds() == From(old(Holds()), start)
      ensures InBounds(block) && block.buf in old(Storage()) && block.buf !in Storage()
      ensures View(block) == taken == Before(old(Holds()), start)
      ensures copied > 0 ==> start == end && chunks != [] && fresh(chunks[0].buf) && chunks[0].len == copied
      ensures copied == 0 ==> Storage() <= old(Storage())
      ensures forall a | a in Storage() :: a in old(Storage()) || fresh(a)
    {
      var first, chunkEnd := start, start + chunks[0].len;
      if chunkEnd <= end {
        copied := 0;
        block := DropHead();
      } else {
        var head := KeepTail(end);
        copied := chunkEnd - end;
        block := new Block(head.buf, head.off, end - first, tail);
        assert View(block) == View(head)[..end - first];
      }
      taken := View(block);
    }

    /** One more block for the writer. */
    method TakeBlock(end: int, blocks: seq<Block>, ghost taken: seq<seq<Frame>>, ghost held: Held, ghost given: set<array<Frame>>)
      returns (block: Block, copied: nat, ghost frames: seq<Frame>)
      requires Valid() && chunks != [] && held.start <= start < end <= held.End()
      requires Holds() == From(held, start)
      requires Shown(blocks, taken, given) && Flat(taken) == Before(held, start) && given !! Storage()
      modifies this
      ensures Valid() && old(start) < start <= end <= held.End() && Holds() == From(held, start)
      ensures block.buf in old(Storage()) && given + {block.buf} !! Storage()
      ensures Shown(blocks + [block], taken + [frames], given + {block.buf})
      ensures Flat(taken + [frames]) == Before(held, start)
      ensures copied > 0 ==> start == end && chunks != [] && fresh(chunks[0].buf) && chunks[0].len == copied
      ensures copied == 0 ==> Storage() <= old(Storage())
      ensures forall a | a in Storage() :: a in old(Storage()) || fresh(a)
    {
      ghost var before := start;
      PopInSteps(held, before, end);
      block, copied, frames := TakeHead(end);
      PopInSteps(held, before, start);
      FlatSnoc(taken, frames);
    }

    /**
     * Hand the frames before `end` to the writer, block by block and uncopied. What
     * the cache keeps shares no storage with them.
     */
    method PopBeforeOwned(end: int)
      returns (ok: bool, blocks: seq<Block>, copied: nat, ghost taken: seq<seq<Frame>>, ghost given: set<array<Frame>>)
      requires Valid()
      modifies this
      ensures Valid() && ok == (end <= old(Holds()).End())
      ensures Holds() == if ok then From(old(Holds()), end) else old(Holds())
      ensures Shown(blocks, taken, given)
      ensures Flat(taken) == if ok then Before(old(Holds()), end) else []
      ensures given <= old(Storage()) && given !! Storage()
      ensures forall a | a in Storage() :: a in old(Storage()) || fresh(a)
      ensures copied > 0 ==> chunks != [] && fresh(chunks[0].buf) && chunks[0].len == copied
    {
      blocks, copied, taken, given := [], 0, [], {};
      if end <= start { return true, [], 0, [], {}; }
      var last := EndIndex();
      if end > last { return false, [], 0, [], {}; }
      ok := true;
      blocks, copied, taken, given := PopBlocks(end);
    }

    method PopBlocks(end: int)
      returns (blocks: seq<Block>, copied: nat, ghost taken: seq<seq<Frame>>, ghost given: set<array<Frame>>)
      requires Valid() && start < end <= Holds().End()
      modifies this
      ensures Valid() && Holds() == From(old(Holds()), end)
      ensures Shown(blocks, taken, given) && Flat(taken) == Before(old(Holds()), end)
      ensures given <= old(Storage()) && given !! Storage()
      ensures forall a | a in Storage() :: a in old(Storage()) || fresh(a)
      ensures copied > 0 ==> chunks != [] && fresh(chunks[0].buf) && chunks[0].len == copied
    {
      ghost var held := Holds();
      blocks, copied, taken, given := [], 0, [], {};
      while chunks != [] && start < end
        invariant Valid() && held.start <= start <= end && Holds() == From(held, start)
        invariant Shown(blocks, taken, given) && Flat(taken) == Before(held, start)
        invariant given <= old(Storage()) && given !! Storage()
        invariant forall a | a in Storage() :: a in old(Storage()) || fresh(a)
        invariant copied == 0 ==> Storage() <= old(Storage())
        invariant copied > 0 ==> start == end && chunks != [] && fresh(chunks[0].buf) && chunks[0].len == copied
        decreases end - start
      {
        var block; ghost var frames;
        block, copied, frames := TakeBlock(end, blocks, taken, held, given);
        blocks, taken, given := blocks + [block], taken + [frames], given + {block.buf};
      }
      assert chunks == [] ==> Holds().frames == [];
    }

    /** Pop a copy of the frames before `end`. */
    method PopBefore(end: int) returns (block: Option<Block>)
      requires Valid()
      modifies this
      ensures Valid() && block.Some? == (end <= old(Holds()).End())
      ensures Holds() == if block.Some? then From(old(Holds()), end) else old(Holds())
      ensures block.Some? ==>
                && fresh(block.value.buf) && InBounds(block.value) && block.value.buf !in Storage()
                && View(block.value) == Before(old(Holds()), end)
      ensures forall a | a in Storage() :: a in old(Storage()) || fresh(a)
    {
      if end <= start {
        var none := NewBlock([], tail);
        return Some(none);
      }
      var last := EndIndex();
      if end > last { return None; }
      var blocks, copied; ghost var taken, given;
      blocks, copied, taken, given := PopBlocks(end);
      var popped := Concatenate(blocks, tail, taken, given);
      return Some(popped);
    }

    method Slice(startFrame: int, endFrame: int) returns (block: Option<Block>)
      requires Valid()
      ensures Valid() && Holds() == old(Holds()) && chunks == old(chunks)
      ensures block.Some? <==> SliceFits(Holds(), startFrame, endFrame)
      ensures block.Some? ==>
                && fresh(block.value.buf) && InBounds(block.value) && block.value.tail == tail
                && View(block.value) == Cut(Holds(), startFrame, endFrame)
    {
      var end := EndIndex();
      if startFrame < start || endFrame > end || endFrame < startFrame { return None; }
      var result := NewBlock(seq(endFrame - startFrame, _ => []), tail);
      var ok := SliceInto(startFrame, endFrame, result, None);
      return Some(result);
    }

    /** Copy a range, cropped if asked for, into storage of the caller. */
    method SliceInto(startFrame: int, endFrame: int, result: Block, crop: Option<Box>) returns (ok: bool)
      requires Valid() && InBounds(result) && result.buf !in Storage()
      modifies result.buf
      ensures Valid()
      ensures ok == (
                && SliceFits(Holds(), startFrame, endFrame)
                && result.len == endFrame - startFrame
                && result.tail == if crop.Some? then CropTail(tail, crop.value) else tail)
      ensures ok ==> View(result) == Crop(Cut(Holds(), startFrame, endFrame), crop)
      ensures !ok ==> result.buf[..] == old(result.buf[..])
    {
      var end := EndIndex();
      if startFrame < start || endFrame > end || endFrame < startFrame { return false; }
      var expected := if crop.Some? then CropTail(tail, crop.value) else tail;
      if result.len != endFrame - startFrame || result.tail != expected { return false; }
      CopyAll(chunks, tail, start, startFrame, result, crop, views, Holds());
      CopiedAll(Holds(), startFrame, result, crop);
      ok := true;
    }

    method Overwrite(startFrame: int, frames: Block) returns (ok: bool)
      requires Valid() && InBounds(frames) && frames.buf !in Storage() && frames.tail == tail
      modifies this`views, Storage()
      ensures Valid()
      ensures ok == RangeFits(old(Holds()), startFrame, startFrame + frames.len)
      ensures Holds() == if ok then Overwritten(old(Holds()), startFrame, View(frames)) else old(Holds())
      ensures View(frames) == old(View(frames))
    {
      var end := EndIndex();
      if startFrame < start || startFrame + frames.len > end { return false; }
      ghost var now := ReplaceAll(chunks, tail, start, startFrame, frames, views);
      views := now;
      ok := true;
    }

    method FillRegion(startFrame: int, endFrame: int, box: Box, value: int) returns (ok: bool)
      requires Valid()
      modifies this`views, Storage()
      ensures Valid()
      ensures ok == RangeFits(old(Holds()), startFrame, endFrame)
      ensures Holds() == if ok then Filled(old(Holds()), startFrame, endFrame, box, value) else old(Holds())
    {
      var end := EndIndex();
      if startFrame < start || endFrame > end { return false; }
      ghost var now := FillAll(chunks, tail, start, startFrame, endFrame, box, value, views);
      views := now;
      ok := true;
    }
  }

  // ---- The flat cache -------------------------------------------------------------

  class ArrayFrameCache {
    var start: int
    const tail: Tail
    var data: Block

    ghost predicate Valid()
      reads this
    {
      InBounds(data) && data.tail == tail
    }

    ghost function Holds(): Held
      requires Valid()
      reads this, data.buf
    {
      Held(start, View(data))
    }

    constructor (start: int, tail: Tail)
      ensures Valid() && Holds() == Held(start, []) && this.tail == tail && fresh(data.buf)
    {
      this.start, this.tail := start, tail;
      var buf := new Frame[0];
      data := new Block(buf, 0, 0, tail);
    }

    method Append(frames: Block) returns (ok: bool)
      requires Valid() && InBounds(frames)
      modifies this
      ensures Valid() && ok == (frames.tail == tail)
      ensures Holds() == if ok then Apply(old(Holds()), Op.Append(View(frames))).held else old(Holds())
      ensures data == old(data) || fresh(data.buf)
    {
      if frames.tail != tail { return false; }
      ok := true;
      if data.len == 0 {
        data := CopyPart(frames, 0, frames.len);
      } else {
        data := NewBlock(View(data) + View(frames), tail);
      }
    }

    method AppendOwned(frames: Block) returns (ok: bool)
      requires Valid() && InBounds(frames)
      modifies this
      ensures Valid() && ok == (frames.tail == tail)
      ensures Holds() == if ok then Apply(old(Holds()), Op.AppendOwned(View(frames))).held else old(Holds())
      ensures data == old(data) || data == frames || fresh(data.buf)
    {
      if frames.tail != tail { return false; }
      ok := true;
      if frames.len == 0 {
        assert View(data) + View(frames) == View(data);
      } else if data.len == 0 {
        data := frames;
      } else {
        data := NewBlock(View(data) + View(frames), tail);
      }
    }

    method Slice(startFrame: int, endFrame: int) returns (block: Option<Block>)
      requires Valid()
      ensures block.Some? <==> SliceFits(Holds(), startFrame, endFrame)
      ensures block.Some? ==>
                && fresh(block.value.buf) && InBounds(block.value) && block.value.tail == tail
                && View(block.value) == Cut(Holds(), startFrame, endFrame)
    {
      if startFrame < start || endFrame > start + data.len || endFrame < startFrame { return None; }
      var copy := CopyPart(data, startFrame - start, endFrame - start);
      return Some(copy);
    }

    method Overwrite(startFrame: int, frames: Block) returns (ok: bool)
      requires Valid() && InBounds(frames) && frames.buf != data.buf && frames.tail == tail
      modifies data.buf
      ensures Valid()
      ensures ok == RangeFits(old(Holds()), startFrame, startFrame + frames.len)
      ensures Holds() == if ok then Overwritten(old(Holds()), startFrame, View(frames)) else old(Holds())
    {
      if startFrame < start || startFrame + frames.len > start + data.len { return false; }
      ReplaceIn(data, start, startFrame, frames);
      ok := true;
    }

    /** The end bound is a numpy slice bound, so an end before the cache counts from behind. */
    method FillRegion(startFrame: int, endFrame: int, box: Box, value: int) returns (ok: bool)
      requires Valid()
      modifies data.buf
      ensures Valid()
      ensures ok == RangeFits(old(Holds()), startFrame, endFrame)
      ensures Holds() == if ok then ArrayFilled(old(Holds()), startFrame, endFrame, box, value) else old(Holds())
    {
      if startFrame < start || endFrame > start + data.len { return false; }
      var (begin, end) := (Bound(data.len, startFrame - start), Bound(data.len, endFrame - start));
      FillIn(data, start, start + begin, start + end, box, value);
      ok := true;
    }

    method PopBefore(end: int) returns (block: Option<Block>)
      requires Valid()
      modifies this
      ensures Valid() && block.Some? == (end <= old(Holds()).End())
      ensures Holds() == if block.Some? then From(old(Holds()), end) else old(Holds())
      ensures block.Some? ==> InBounds(block.value) && View(block.value) == Before(old(Holds()), end)
      ensures data == old(data) || fresh(data.buf)
    {
      if end <= start {
        var none := NewBlock([], tail);
        return Some(none);
      }
      if end > start + data.len { return None; }
      var length := end - start;
      var popped := CopyPart(data, 0, length);
      var kept := CopyPart(data, length, data.len);
      data, start := kept, end;
      return Some(popped);
    }
  }
}
