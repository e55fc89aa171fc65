/**
 * Frames, numpy-style slices of them, and what a frame cache means: a first
 * index and the frames from there on. Both cache classes are proved against the
 * functions of this module.
 */
module Frames {
  import opened Wrappers

  /** All channels of one pixel; a mask has one. */
  type Pixel = seq<int>

  /** Rows of pixels. */
  type Frame = seq<seq<Pixel>>

  datatype Box = Box(x: int, y: int, width: int, height: int)

  /** The shape of one frame. */
  datatype Tail = Tail(height: nat, width: nat, channels: nat)

  // ---- Slices ---------------------------------------------------------------

  /** A Python slice bound: negative counts from the end, and both ends clamp. */
  function Bound(n: nat, i: int): (b: nat)
    ensures b <= n
  {
    if i + n < 0 then 0 else if i < 0 then i + n else if i > n then n else i
  }

  predicate InSlice(n: nat, lo: int, hi: int, i: int) {
    Bound(n, lo) <= i < Bound(n, hi)
  }

  function PySlice<T>(s: seq<T>, lo: int, hi: int): seq<T> {
    var (a, b) := (Bound(|s|, lo), Bound(|s|, hi));
    if a <= b then s[a..b] else []
  }

  function SliceLength(n: nat, lo: int, hi: int): nat {
    if Bound(n, lo) <= Bound(n, hi) then Bound(n, hi) - Bound(n, lo) else 0
  }

  function CropFrame(f: Frame, box: Box): Frame {
    var rows := PySlice(f, box.y, box.y + box.height);
    seq(|rows|, r requires 0 <= r < |rows| => PySlice(rows[r], box.x, box.x + box.width))
  }

  function CropTail(t: Tail, box: Box): Tail {
    Tail(SliceLength(t.height, box.y, box.y + box.height), SliceLength(t.width, box.x, box.x + box.width), t.channels)
  }

  function FillRow(row: seq<Pixel>, box: Box, value: int): seq<Pixel> {
    seq(|row|, c requires 0 <= c < |row| =>
      if InSlice(|row|, box.x, box.x + box.width, c) then seq(|row[c]|, _ => value) else row[c])
  }

  function FillFrame(f: Frame, box: Box, value: int): Frame {
    seq(|f|, r requires 0 <= r < |f| =>
      if InSlice(|f|, box.y, box.y + box.height, r) then FillRow(f[r], box, value) else f[r])
  }

  predicate ShapedRow(row: seq<Pixel>, t: Tail) {
    |row| == t.width && forall c | 0 <= c < |row| :: |row[c]| == t.channels
  }

  predicate Shaped(f: Frame, t: Tail) {
    |f| == t.height && forall r | 0 <= r < |f| :: ShapedRow(f[r], t)
  }

  lemma {:induction false} CropKeepsShape(f: Frame, t: Tail, box: Box)
    requires Shaped(f, t)
    ensures Shaped(CropFrame(f, box), CropTail(t, box))
  {
    var rows := PySlice(f, box.y, box.y + box.height);
    forall r | 0 <= r < |rows| ensures ShapedRow(PySlice(rows[r], box.x, box.x + box.width), CropTail(t, box)) {
      assert ShapedRow(f[Bound(|f|, box.y) + r], t);
    }
  }

  lemma {:induction false} FillKeepsShape(f: Frame, t: Tail, box: Box, value: int)
    requires Shaped(f, t)
    ensures Shaped(FillFrame(f, box, value), t)
  {
    forall r | 0 <= r < |f| ensures ShapedRow(FillFrame(f, box, value)[r], t) {
      assert ShapedRow(f[r], t);
    }
  }

  // ---- What a cache means -----------------------------------------------------

  datatype Held = Held(start: int, frames: seq<Frame>) {
    function End(): int { start + |frames| }
  }

  function Crop(frames: seq<Frame>, crop: Option<Box>): (cropped: seq<Frame>)
    ensures |cropped| == |frames|
  {
    if crop.None? then frames
    else seq(|frames|, i requires 0 <= i < |frames| => CropFrame(frames[i], crop.value))
  }

  predicate SliceFits(held: Held, start: int, end: int) {
    held.start <= start <= end <= held.End()
  }

  predicate RangeFits(held: Held, start: int, end: int) {
    held.start <= start && end <= held.End()
  }

  function Cut(held: Held, start: int, end: int): seq<Frame>
    requires SliceFits(held, start, end)
  {
    held.frames[start - held.start..end - held.start]
  }

  /** A change of some frames in place, by absolute index. */
  datatype Change =
    | Replace(start: int, frames: seq<Frame>)
    | Paint(start: int, end: int, box: Box, value: int)

  function Changed(change: Change, i: int, frame: Frame): Frame {
    match change
    case Replace(start, frames) => if start <= i < start + |frames| then frames[i - start] else frame
    case Paint(start, end, box, value) => if start <= i < end then FillFrame(frame, box, value) else frame
  }

  function ChangeEnd(change: Change): int {
    if change.Replace? then change.start + |change.frames| else change.end
  }

  /** The change applied to frames whose first one has index `at`. */
  function Mapped(frames: seq<Frame>, at: int, change: Change): (mapped: seq<Frame>)
    ensures |mapped| == |frames|
  {
    seq(|frames|, i requires 0 <= i < |frames| => Changed(change, at + i, frames[i]))
  }

  function Overwritten(held: Held, start: int, frames: seq<Frame>): Held {
    held.(frames := Mapped(held.frames, held.start, Replace(start, frames)))
  }

  /** `ChunkedFrameCache.fill_region` on a range inside the cache. */
  function Filled(held: Held, start: int, end: int, box: Box, value: int): Held {
    held.(frames := Mapped(held.frames, held.start, Paint(start, end, box, value)))
  }

  /** `ArrayFrameCache.fill_region`: the end is a slice bound, and may turn negative. */
  function ArrayFilled(held: Held, start: int, end: int, box: Box, value: int): Held {
    var n := |held.frames|;
    var (a, b) := (Bound(n, start - held.start), Bound(n, end - held.start));
    held.(frames := Mapped(held.frames, held.start, Paint(held.start + a, held.start + b, box, value)))
  }

  /** Everything from `end` on; nothing happens when `end` is already behind the start. */
  function From(held: Held, end: int): Held
    requires end <= held.End()
  {
    if end <= held.start then held else Held(end, held.frames[end - held.start..])
  }

  function Before(held: Held, end: int): seq<Frame>
    requires end <= held.End()
  {
    if end <= held.start then [] else held.frames[..end - held.start]
  }

  /** An overwrite is visible in a later slice exactly where the two ranges meet. */
  lemma {:induction false} SliceAfterOverwrite(held: Held, at: int, frames: seq<Frame>, start: int, end: int)
    requires SliceFits(held, at, at + |frames|) && SliceFits(held, start, end)
    ensures SliceFits(Overwritten(held, at, frames), start, end)
    ensures var after := Cut(Overwritten(held, at, frames), start, end);
            forall k | 0 <= k < |after| ::
              after[k] == if at <= start + k < at + |frames| then frames[start + k - at] else Cut(held, start, end)[k]
    ensures Cut(Overwritten(held, at, frames), at, at + |frames|) == frames
  {}

  /** Popping and keeping splits the frames, so nothing is lost or repeated. */
  lemma {:induction false} PopSplits(held: Held, end: int)
    requires end <= held.End()
    ensures Before(held, end) + From(held, end).frames == held.frames
    ensures From(held, end).start == held.start + |Before(held, end)|
    ensures From(held, end).End() == held.End()
  {}

  /** What is kept of the first chunk stays in front. */
  lemma {:induction false} FromHead(held: Held, head: seq<Frame>, rest: seq<Frame>, end: int)
    requires held.frames == head + rest && held.start <= end <= held.start + |head|
    ensures From(held, end) == Held(end, head[end - held.start..] + rest)
    ensures Before(held, end) == head[..end - held.start]
  {}

  /** Popping in two steps is popping at once. */
  lemma {:induction false} PopInSteps(held: Held, a: int, b: int)
    requires held.start <= a <= b <= held.End()
    ensures From(held, a).End() == held.End()
    ensures From(From(held, a), b) == From(held, b)
    ensures Before(held, b) == Before(held, a) + Before(From(held, a), b)
  {}

  // ---- The two fills ------------------------------------------------------------

  /** Does the array's slice reach frames that the given range does not contain? */
  predicate FillWrapsAround(held: Held, start: int, end: int) {
    end < held.start && start < held.End() + (end - held.start)
  }

  lemma {:induction false} FillsAgree(held: Held, start: int, end: int, box: Box, value: int)
    requires RangeFits(held, start, end) && !FillWrapsAround(held, start, end)
    ensures ArrayFilled(held, start, end, box, value) == Filled(held, start, end, box, value)
  {
    assert ArrayFilled(held, start, end, box, value).frames == Filled(held, start, end, box, value).frames;
  }

  /** One white pixel per frame, to be filled with black. */
  function Blank(start: int, n: nat): Held {
    Held(start, seq(n, _ => [[[255]]]))
  }

  /**
   * The two caches fill the same frames, whatever they hold and whatever is filled,
   * exactly when a range that ends before the cache does not wrap around.
   */
  lemma {:induction false} FillsAgreeExactly(first: int, n: nat, start: int, end: int)
    requires first <= start && end <= first + n
    ensures (forall held: Held, box: Box, value: int | held.start == first && |held.frames| == n ::
               ArrayFilled(held, start, end, box, value) == Filled(held, start, end, box, value))
            <==> !FillWrapsAround(Blank(first, n), start, end)
  {
    if !FillWrapsAround(Blank(first, n), start, end) {
      forall held: Held, box: Box, value: int | held.start == first && |held.frames| == n
        ensures ArrayFilled(held, start, end, box, value) == Filled(held, start, end, box, value)
      {
        FillsAgree(held, start, end, box, value);
      }
    } else {
      WrappedFillDiffers(first, n, start, end);
    }
  }

  lemma {:induction false} WrappedFillDiffers(first: int, n: nat, start: int, end: int)
    requires first <= start && FillWrapsAround(Blank(first, n), start, end)
    ensures ArrayFilled(Blank(first, n), start, end, Box(0, 0, 1, 1), 0)
         != Filled(Blank(first, n), start, end, Box(0, 0, 1, 1), 0)
  {
    var (box, k) := (Box(0, 0, 1, 1), start - first);
    var held := Blank(first, n);
    assert ArrayFilled(held, start, end, box, 0).frames[k] == FillFrame([[[255]]], box, 0);
    assert FillFrame([[[255]]], box, 0)[0][0] == seq(1, _ => 0);
    assert Filled(held, start, end, box, 0).frames[k] == [[[255]]];
  }

  // ---- Pixels -------------------------------------------------------------------

  /** Where a Python slice `lo:hi` of `n` elements starts and stops, case by case. */
  lemma {:induction false} SliceBounds(n: nat, i: int)
    ensures 0 <= i <= n ==> Bound(n, i) == i
    ensures i > n ==> Bound(n, i) == n
    ensures i < 0 <= n + i ==> Bound(n, i) == n + i
    ensures n + i < 0 ==> Bound(n, i) == 0
  {}

  /** The box lies inside frames of this shape. */
  predicate Inside(box: Box, t: Tail) {
    && 0 <= box.x && 0 <= box.width && box.x + box.width <= t.width
    && 0 <= box.y && 0 <= box.height && box.y + box.height <= t.height
  }

  /**
   * After a fill, a pixel has the value in all channels exactly where its frame is in the
   * range and its row and column are in the box's slices, and is the old pixel elsewhere.
   */
  lemma {:induction false} FilledPixels(held: Held, start: int, end: int, box: Box, value: int)
    requires RangeFits(held, start, end)
    ensures var filled := Filled(held, start, end, box, value);
            && filled.start == held.start && |filled.frames| == |held.frames|
            && forall i | 0 <= i < |held.frames| ::
                 && |filled.frames[i]| == |held.frames[i]|
                 && forall r | 0 <= r < |held.frames[i]| ::
                      && |filled.frames[i][r]| == |held.frames[i][r]|
                      && forall c | 0 <= c < |held.frames[i][r]| ::
                           var (was, now) := (held.frames[i][r][c], filled.frames[i][r][c]);
                           && |now| == |was|
                           && if && start <= held.start + i < end
                                 && Bound(|held.frames[i]|, box.y) <= r < Bound(|held.frames[i]|, box.y + box.height)
                                 && Bound(|held.frames[i][r]|, box.x) <= c < Bound(|held.frames[i][r]|, box.x + box.width)
                              then forall ch | 0 <= ch < |now| :: now[ch] == value
                              else now == was
  {}

  /** For a box inside the frames these are plain comparisons. */
  lemma {:induction false} FilledBox(held: Held, t: Tail, start: int, end: int, box: Box, value: int)
    requires RangeFits(held, start, end) && Inside(box, t) && forall i | 0 <= i < |held.frames| :: Shaped(held.frames[i], t)
    ensures var filled := Filled(held, start, end, box, value);
            && filled.start == held.start && |filled.frames| == |held.frames|
            && (forall i | 0 <= i < |held.frames| :: Shaped(filled.frames[i], t))
            && forall i, r, c | 0 <= i < |held.frames| && 0 <= r < t.height && 0 <= c < t.width ::
                 filled.frames[i][r][c]
                    == if start <= held.start + i < end && box.y <= r < box.y + box.height && box.x <= c < box.x + box.width
                       then seq(t.channels, _ => value) else held.frames[i][r][c]
  {
    FilledPixels(held, start, end, box, value);
    var filled := Filled(held, start, end, box, value);
    SliceBounds(t.height, box.y);
    SliceBounds(t.height, box.y + box.height);
    SliceBounds(t.width, box.x);
    SliceBounds(t.width, box.x + box.width);
    forall i | 0 <= i < |held.frames| ensures Shaped(filled.frames[i], t) {
      FillKeepsShape(held.frames[i], t, box, value);
    }
    forall i, r, c | 0 <= i < |held.frames| && 0 <= r < t.height && 0 <= c < t.width
      ensures ShapedRow(filled.frames[i][r], t) && ShapedRow(held.frames[i][r], t)
      ensures filled.frames[i][r][c]
           == if start <= held.start + i < end && box.y <= r < box.y + box.height && box.x <= c < box.x + box.width
              then seq(t.channels, _ => value) else held.frames[i][r][c]
    {
      assert Shaped(filled.frames[i], t) && Shaped(held.frames[i], t);
      assert |filled.frames[i][r][c]| == t.channels;
    }
  }

  /** The flat cache fills the same pixels of the frames that Python's slice selects. */
  lemma {:induction false} ArrayFilledPixels(held: Held, start: int, end: int, box: Box, value: int)
    requires RangeFits(held, start, end)
    ensures var filled := ArrayFilled(held, start, end, box, value);
            && filled.start == held.start && |filled.frames| == |held.frames|
            && forall i | 0 <= i < |held.frames| ::
                 filled.frames[i]
                 == if Bound(|held.frames|, start - held.start) <= i < Bound(|held.frames|, end - held.start)
                    then Filled(held, held.start + i, held.start + i + 1, box, value).frames[i] else held.frames[i]
  {
    forall i | 0 <= i < |held.frames|
      ensures Filled(held, held.start + i, held.start + i + 1, box, value).frames[i] == FillFrame(held.frames[i], box, value)
    {}
  }

  /** A cropped frame has the rows and columns of the box's slices. */
  lemma {:induction false} CroppedPixels(frames: seq<Frame>, box: Box)
    ensures forall i | 0 <= i < |frames| ::
              var (f, cropped) := (frames[i], Crop(frames, Some(box))[i]);
              var (top, bottom) := (Bound(|f|, box.y), Bound(|f|, box.y + box.height));
              && |cropped| == (if top <= bottom then bottom - top else 0)
              && forall r | 0 <= r < |cropped| ::
                   var (left, right) := (Bound(|f[top + r]|, box.x), Bound(|f[top + r]|, box.x + box.width));
                   && |cropped[r]| == (if left <= right then right - left else 0)
                   && forall c | 0 <= c < |cropped[r]| :: cropped[r][c] == f[top + r][left + c]
  {}

  /** A crop inside the frame: pixel (r, c) is the frame's pixel (y + r, x + c). */
  lemma {:induction false} CroppedBox(f: Frame, t: Tail, box: Box)
    requires Shaped(f, t) && Inside(box, t)
    ensures var cropped := Crop([f], Some(box))[0];
            && |cropped| == box.height
            && forall r | 0 <= r < box.height ::
                 |cropped[r]| == box.width && forall c | 0 <= c < box.width :: cropped[r][c] == f[box.y + r][box.x + c]
  {
    CroppedPixels([f], box);
    assert [f][0] == f;
    SliceBounds(t.height, box.y);
    SliceBounds(t.height, box.y + box.height);
    SliceBounds(t.width, box.x);
    SliceBounds(t.width, box.x + box.width);
    var cropped := Crop([f], Some(box))[0];
    forall r | 0 <= r < box.height
      ensures |cropped[r]| == box.width && forall c | 0 <= c < box.width :: cropped[r][c] == f[box.y + r][box.x + c]
    {
      assert ShapedRow(f[box.y + r], t);
    }
  }

  // ---- Chunks -------------------------------------------------------------------

  function FlatUpTo(views: seq<seq<Frame>>, n: nat): seq<Frame>
    requires n <= |views|
  {
    if n == 0 then [] else FlatUpTo(views, n - 1) + views[n - 1]
  }

  function Flat(views: seq<seq<Frame>>): seq<Frame> {
    FlatUpTo(views, |views|)
  }

  lemma {:induction false} FlatUpToDepends(views: seq<seq<Frame>>, others: seq<seq<Frame>>, n: nat)
    requires n <= |views| && n <= |others| && forall i | 0 <= i < n :: views[i] == others[i]
    ensures FlatUpTo(views, n) == FlatUpTo(others, n)
  {
    if n > 0 { FlatUpToDepends(views, others, n - 1); }
  }

  lemma {:induction false} FlatSnoc(views: seq<seq<Frame>>, last: seq<Frame>)
    ensures Flat(views + [last]) == Flat(views) + last
  {
    FlatUpToDepends(views, views + [last], |views|);
  }

  lemma {:induction false} FlatUpToFront(views: seq<seq<Frame>>, n: nat)
    requires 0 < n <= |views|
    ensures FlatUpTo(views, n) == views[0] + FlatUpTo(views[1..], n - 1)
  {
    if n > 1 {
      FlatUpToFront(views, n - 1);
    }
  }

  lemma {:induction false} FlatFront(views: seq<seq<Frame>>)
    requires views != []
    ensures Flat(views) == views[0] + Flat(views[1..])
  {
    FlatUpToFront(views, |views|);
  }

  lemma {:induction false} FlatAppend(a: seq<seq<Frame>>, b: seq<seq<Frame>>)
    ensures Flat(a + b) == Flat(a) + Flat(b)
  {
    if b == [] {
      assert a + b == a;
    } else {
      var last := |b| - 1;
      FlatAppend(a, b[..last]);
      FlatSnoc(a + b[..last], b[last]);
      FlatSnoc(b[..last], b[last]);
      assert a + b == (a + b[..last]) + [b[last]];
      assert b == b[..last] + [b[last]];
    }
  }

  /** Where chunk `n` lies in the whole. */
  lemma {:induction false} ChunkAt(views: seq<seq<Frame>>, n: nat)
    requires n < |views|
    ensures |FlatUpTo(views, n)| + |views[n]| <= |Flat(views)|
    ensures FlatUpTo(views, n + 1) == FlatUpTo(views, n) + views[n]
    ensures forall i | 0 <= i < |views[n]| :: Flat(views)[|FlatUpTo(views, n)| + i] == views[n][i]
  {
    PrefixOfFlat(views, n + 1, |views|);
  }

  lemma {:induction false} PrefixOfFlat(views: seq<seq<Frame>>, n: nat, m: nat)
    requires n <= m <= |views|
    ensures FlatUpTo(views, n) <= FlatUpTo(views, m)
  {
    if n < m { PrefixOfFlat(views, n, m - 1); }
  }

  lemma {:induction false} MappedAppend(a: seq<Frame>, b: seq<Frame>, start: int, change: Change)
    ensures Mapped(a + b, start, change) == Mapped(a, start, change) + Mapped(b, start + |a|, change)
  {}

  predicate ChunkMapped(views: seq<seq<Frame>>, others: seq<seq<Frame>>, i: nat, start: int, change: Change)
    requires i < |views| == |others|
  {
    others[i] == Mapped(views[i], start + |FlatUpTo(views, i)|, change)
  }

  /** Updating every chunk at its own place updates the whole. */
  lemma {:induction false} FlatOfMapped(views: seq<seq<Frame>>, others: seq<seq<Frame>>, n: nat, start: int, change: Change)
    requires n <= |views| == |others|
    requires forall i | 0 <= i < n :: ChunkMapped(views, others, i, start, change)
    ensures FlatUpTo(others, n) == Mapped(FlatUpTo(views, n), start, change)
  {
    if n > 0 {
      FlatOfMapped(views, others, n - 1, start, change);
      assert ChunkMapped(views, others, n - 1, start, change);
      MappedAppend(FlatUpTo(views, n - 1), views[n - 1], start, change);
    }
  }

  // ---- Operations ---------------------------------------------------------------

  /** One call on a cache, with the frames it passes. */
  datatype Op =
    | Append(frames: seq<Frame>)
    | AppendOwned(frames: seq<Frame>)
    | Slice(start: int, end: int)
    | SliceInto(start: int, end: int, crop: Option<Box>)
    | Overwrite(start: int, frames: seq<Frame>)
    | Fill(start: int, end: int, box: Box, value: int)
    | PopBefore(end: int)
    | PopBeforeOwned(end: int)
    | DiscardBefore(end: int)

  /** The cache afterwards, and the frames it hands out; `Err` where the call raises. */
  datatype Effect = Effect(held: Held, reply: Result<seq<Frame>>)

  function Apply(held: Held, op: Op): Effect {
    match op
    case Append(frames) => Effect(held.(frames := held.frames + frames), Ok([]))
    case AppendOwned(frames) => Effect(held.(frames := held.frames + frames), Ok([]))
    case Slice(start, end) =>
      Effect(held, if SliceFits(held, start, end) then Ok(Cut(held, start, end)) else Err)
    case SliceInto(start, end, crop) =>
      Effect(held, if SliceFits(held, start, end) then Ok(Crop(Cut(held, start, end), crop)) else Err)
    case Overwrite(start, frames) =>
      if RangeFits(held, start, start + |frames|) then Effect(Overwritten(held, start, frames), Ok([]))
      else Effect(held, Err)
    case Fill(start, end, box, value) =>
      if RangeFits(held, start, end) then Effect(Filled(held, start, end, box, value), Ok([]))
      else Effect(held, Err)
    case PopBefore(end) =>
      if end <= held.End() then Effect(From(held, end), Ok(Before(held, end))) else Effect(held, Err)
    case PopBeforeOwned(end) =>
      if end <= held.End() then Effect(From(held, end), Ok(Before(held, end))) else Effect(held, Err)
    case DiscardBefore(end) =>
      if end <= held.End() then Effect(From(held, end), Ok([])) else Effect(held, Err)
  }

  function Run(held: Held, ops: seq<Op>): Held {
    if ops == [] then held else Apply(Run(held, ops[..|ops| - 1]), ops[|ops| - 1]).held
  }

  /** What a list of calls hands to the writer through `pop_before_owned`. */
  function Written(held: Held, ops: seq<Op>): seq<Frame> {
    if ops == [] then []
    else
      var (before, op) := (ops[..|ops| - 1], ops[|ops| - 1]);
      var reply := Apply(Run(held, before), op).reply;
      Written(held, before) + if op.PopBeforeOwned? && reply.Ok? then reply.value else []
  }
}
