/**
 * Reading a mask video: the sequential reader, the primed reader that replays an
 * already decoded prefix, and the scan for the global red maximum.
 */
module ScanReader {
  import opened Wrappers
  import opened Arithmetic

  /** The red values of one mask frame. */
  type Frame = seq<nat>

  // ---- What a reader means ------------------------------------------------------------

  /** The frames a reader will still deliver, and its position as the consumer sees it. */
  datatype Logical = Logical(remaining: seq<Frame>, framesRead: nat)

  /** A short read raises, and leaves the pipe empty. */
  function Read(state: Logical, count: int): (Logical, Result<seq<Frame>>) {
    if count <= 0 then (state, Ok([]))
    else if count <= |state.remaining| then
      (Logical(state.remaining[count..], state.framesRead + count), Ok(state.remaining[..count]))
    else (state.(remaining := []), Err)
  }

  lemma {:induction false} TakeAndDrop(s: seq<Frame>, from: nat, n: nat)
    requires from + n <= |s|
    ensures |s[from..]| >= n && s[from..][..n] == s[from..from + n] && s[from..][n..] == s[from + n..]
  {}

  lemma {:induction false} Rejoin(s: seq<Frame>, n: nat)
    requires n <= |s|
    ensures s[0..n] + s[n..] == s
  {}

  /** Reading `n` frames of `prefix[from..] + rest` while the prefix still has them. */
  lemma {:induction false} ReadFromPrefix(prefix: seq<Frame>, from: nat, rest: seq<Frame>, n: nat)
    requires from + n <= |prefix|
    ensures (prefix[from..] + rest)[..n] == prefix[from..from + n]
    ensures (prefix[from..] + rest)[n..] == if from + n == |prefix| then rest else prefix[from + n..] + rest
  {}

  /** ... and when it has only the first few. */
  lemma {:induction false} ReadPastPrefix(prefix: seq<Frame>, from: nat, rest: seq<Frame>, n: nat)
    requires from <= |prefix| && |prefix| - from <= n <= |prefix| - from + |rest|
    ensures (prefix[from..] + rest)[..n] == prefix[from..|prefix|] + rest[..n - (|prefix| - from)]
    ensures (prefix[from..] + rest)[n..] == rest[n - (|prefix| - from)..]
  {}

  /** A decoder's frame sequence, read through a pipe. */
  class VideoReader {
    const stream: seq<Frame>
    var position: nat
    var framesRead: nat

    ghost predicate Valid()
      reads this
    {
      position <= |stream|
    }

    ghost function State(): Logical
      requires Valid()
      reads this
    {
      Logical(stream[position..], framesRead)
    }

    constructor (stream: seq<Frame>)
      ensures Valid() && State() == Logical(stream, 0) && this.stream == stream
    {
      this.stream, position, framesRead := stream, 0, 0;
    }

    method ReadFrames(count: int) returns (frames: Result<seq<Frame>>)
      requires Valid()
      modifies this
      ensures Valid() && (State(), frames) == Read(old(State()), count)
      ensures frames.Ok? <==> count <= 0 || old(position) + count <= |stream|
      ensures frames.Ok? ==> position == old(position) + |frames.value| && frames.value == stream[old(position)..position]
    {
      if count <= 0 { return Ok([]); }
      if position + count > |stream| {
        position := |stream|;
        assert stream[position..] == [];
        return Err;
      }
      TakeAndDrop(stream, position, count);
      frames := Ok(stream[position..position + count]);
      position, framesRead := position + count, framesRead + count;
    }
  }

  /** Replays a prefix, then continues the same pipe. */
  class PrimedVideoReader {
    const reader: VideoReader
    var prefix: Option<seq<Frame>>
    var prefixOffset: nat
    var framesRead: nat

    ghost predicate Valid()
      reads this, reader
    {
      && reader.Valid()
      && (prefix.Some? ==> prefixOffset < |prefix.value|)
    }

    ghost function State(): Logical
      requires Valid()
      reads this, reader
    {
      Logical(if prefix.Some? then prefix.value[prefixOffset..] + reader.State().remaining else reader.State().remaining,
              framesRead)
    }

    /** `reader` has decoded exactly the prefix. */
    constructor (reader: VideoReader, prefix: seq<Frame>)
      requires reader.Valid() && prefix != []
      ensures Valid() && this.reader == reader && State() == Logical(prefix + reader.State().remaining, 0)
      ensures this.prefix == Some(prefix)
    {
      this.reader, this.prefix, prefixOffset, framesRead := reader, Some(prefix), 0, 0;
    }

    method ReadFrames(count: int) returns (frames: Result<seq<Frame>>)
      requires Valid()
      modifies this, reader
      ensures Valid() && (State(), frames) == Read(old(State()), count)
    {
      if count <= 0 || prefix.None? {
        frames := reader.ReadFrames(count);
        if frames.Ok? { framesRead := framesRead + |frames.value|; }
        return;
      }
      var (kept, from, left) := (prefix.value, prefixOffset, |prefix.value| - prefixOffset);
      ghost var rest := reader.State().remaining;
      var taken := if count < left then count else left;
      var replayed := kept[from..from + taken];
      prefixOffset := from + taken;
      if prefixOffset == |kept| { prefix := None; }
      if taken < count {
        var more := reader.ReadFrames(count - taken);
        if more.Err? { return Err; }
        ReadPastPrefix(kept, from, rest, count);
        frames := Ok(replayed + more.value);
      } else {
        ReadFromPrefix(kept, from, rest, count);
        frames := Ok(replayed);
      }
      framesRead := framesRead + count;
    }
  }

  /** No sequence of reads tells a primed reader from another one in the same logical state. */
  method ReadBoth(primed: PrimedVideoReader, other: VideoReader, counts: seq<int>)
    returns (replayed: seq<Result<seq<Frame>>>, direct: seq<Result<seq<Frame>>>)
    requires primed.Valid() && other.Valid() && primed.reader != other
    requires primed.State() == other.State()
    modifies primed, primed.reader, other
    ensures primed.Valid() && other.Valid()
    ensures replayed == direct && |direct| == |counts|
    ensures primed.State() == other.State()
  {
    replayed, direct := [], [];
    for k := 0 to |counts|
      invariant primed.Valid() && other.Valid() && primed.State() == other.State()
      invariant replayed == direct && |direct| == k
    {
      var a := primed.ReadFrames(counts[k]);
      var b := other.ReadFrames(counts[k]);
      replayed, direct := replayed + [a], direct + [b];
    }
  }

  // ---- The maximum --------------------------------------------------------------------

  /** Decoded frames have pixels, and their values are bytes. */
  predicate Decodable(stream: seq<Frame>) {
    forall i | 0 <= i < |stream| :: stream[i] != [] && forall p | 0 <= p < |stream[i]| :: stream[i][p] <= 255
  }

  function FrameMax(frame: Frame): nat {
    if frame == [] then 0
    else
      var rest := FrameMax(frame[..|frame| - 1]);
      if frame[|frame| - 1] > rest then frame[|frame| - 1] else rest
  }

  function MaxOf(frames: seq<Frame>): nat {
    if frames == [] then 0
    else
      var (rest, last) := (MaxOf(frames[..|frames| - 1]), FrameMax(frames[|frames| - 1]));
      if last > rest then last else rest
  }

  function Greater(a: nat, b: nat): nat {
    if a > b then a else b
  }

  /** It is the maximum: no pixel exceeds it, and some pixel has it. */
  lemma {:induction false} FrameMaxIsMaximum(frame: Frame)
    ensures forall p | 0 <= p < |frame| :: frame[p] <= FrameMax(frame)
    ensures frame != [] ==> exists p :: 0 <= p < |frame| && frame[p] == FrameMax(frame)
  {
    if frame != [] {
      var front := frame[..|frame| - 1];
      FrameMaxIsMaximum(front);
      if frame[|frame| - 1] >= FrameMax(front) {
        assert frame[|frame| - 1] == FrameMax(frame);
      } else {
        var p :| 0 <= p < |front| && front[p] == FrameMax(front);
        assert frame[p] == FrameMax(frame);
      }
    }
  }

  lemma {:induction false} MaxOfIsMaximum(frames: seq<Frame>)
    ensures forall i, p | 0 <= i < |frames| && 0 <= p < |frames[i]| :: frames[i][p] <= MaxOf(frames)
    ensures MaxOf(frames) > 0 ==> exists i, p :: 0 <= i < |frames| && 0 <= p < |frames[i]| && frames[i][p] == MaxOf(frames)
  {
    if frames != [] {
      var (front, last) := (frames[..|frames| - 1], frames[|frames| - 1]);
      MaxOfIsMaximum(front);
      FrameMaxIsMaximum(last);
      if MaxOf(frames) == MaxOf(front) {
        if MaxOf(front) > 0 {
          var i, p :| 0 <= i < |front| && 0 <= p < |front[i]| && front[i][p] == MaxOf(front);
          assert frames[i][p] == MaxOf(frames);
        }
      } else {
        var p :| 0 <= p < |last| && last[p] == FrameMax(last);
        assert frames[|frames| - 1][p] == MaxOf(frames);
      }
    }
  }

  lemma {:induction false} MaxOfAppend(a: seq<Frame>, b: seq<Frame>)
    ensures MaxOf(a + b) == Greater(MaxOf(a), MaxOf(b))
  {
    if b == [] {
      assert a + b == a;
    } else {
      MaxOfAppend(a, b[..|b| - 1]);
      assert (a + b)[..|a + b| - 1] == a + b[..|b| - 1];
    }
  }

  lemma {:induction false} BytesOnly(stream: seq<Frame>)
    requires Decodable(stream)
    ensures MaxOf(stream) <= 255
  {
    MaxOfIsMaximum(stream);
    if MaxOf(stream) > 0 {
      var i, p :| 0 <= i < |stream| && 0 <= p < |stream[i]| && stream[i][p] == MaxOf(stream);
    }
  }

  /** Scan chunk by chunk from `start` on, stopping at 255; a short stream raises. */
  function Scan(stream: seq<Frame>, start: nat, count: nat, chunk: nat, maximum: nat): Result<nat>
    requires chunk > 0
    decreases count - start
  {
    if start >= count then Ok(maximum)
    else
      var n := if chunk < count - start then chunk else count - start;
      if start + n > |stream| then Err
      else
        var now := Greater(maximum, MaxOf(stream[start..start + n]));
        if now == 255 then Ok(now) else Scan(stream, start + n, count, chunk, now)
  }

  lemma {:induction false} MaxOfPrefix(stream: seq<Frame>, a: nat, b: nat)
    requires a <= b <= |stream|
    ensures MaxOf(stream[..b]) == Greater(MaxOf(stream[..a]), MaxOf(stream[a..b]))
  {
    MaxOfAppend(stream[..a], stream[a..b]);
    assert stream[..a] + stream[a..b] == stream[..b];
  }

  function ChunkSize(start: nat, count: nat, chunk: nat): nat
    requires start <= count
  {
    if chunk < count - start then chunk else count - start
  }

  lemma {:induction false} ScanOnce(stream: seq<Frame>, start: nat, count: nat, chunk: nat, maximum: nat)
    requires chunk > 0 && start < count && start + ChunkSize(start, count, chunk) <= |stream|
    ensures var (n, scan) := (ChunkSize(start, count, chunk), Scan(stream, start, count, chunk, maximum));
            var now := Greater(maximum, MaxOf(stream[start..start + n]));
            && n > 0
            && (now == 255 ==> scan == Ok(255))
            && (now != 255 ==> scan == Scan(stream, start + n, count, chunk, now))
  {}

  /** What one chunk adds. */
  lemma {:induction false} ChunkAdds(stream: seq<Frame>, start: nat, n: nat, count: nat)
    requires start + n <= count <= |stream| && Decodable(stream)
    ensures Greater(MaxOf(stream[..start]), MaxOf(stream[start..start + n])) == MaxOf(stream[..start + n])
    ensures MaxOf(stream[..start + n]) <= MaxOf(stream[..count]) <= 255
  {
    MaxOfPrefix(stream, start, start + n);
    MaxOfPrefix(stream, start + n, count);
    BytesOnly(stream[..count]);
  }

  /** Whatever the chunk size, the scan finds the exact maximum of the first `count` frames. */
  lemma {:induction false} ScanIsExact(stream: seq<Frame>, start: nat, count: nat, chunk: nat, best: nat)
    requires chunk > 0 && start <= count <= |stream| && Decodable(stream)
    requires best == MaxOf(stream[..start]) < 255
    ensures Scan(stream, start, count, chunk, best) == Ok(MaxOf(stream[..count]))
    decreases count - start
  {
    if start < count {
      var n := ChunkSize(start, count, chunk);
      ScanOnce(stream, start, count, chunk, best);
      ChunkAdds(stream, start, n, count);
      var now := MaxOf(stream[..start + n]);
      if now != 255 {
        ScanIsExact(stream, start + n, count, chunk, now);
      }
    }
  }

  /** ... from the start of the stream. */
  lemma {:induction false} WholeScanIsExact(stream: seq<Frame>, count: nat, chunk: nat)
    requires chunk > 0 && count <= |stream| && Decodable(stream)
    ensures Scan(stream, 0, count, chunk, 0) == Ok(MaxOf(stream[..count]))
  {
    assert stream[..0] == [];
    ScanIsExact(stream, 0, count, chunk, 0);
  }

  /** The frames of a stream that is too short which whole chunks from `start` on still reach. */
  function Reached(length: nat, start: nat, chunk: nat): (end: nat)
    requires chunk > 0 && start <= length
    ensures start <= end <= length < end + chunk
    decreases length - start
  {
    if start + chunk > length then start else Reached(length, start + chunk, chunk)
  }

  /** They are all whole chunks that the stream has. */
  lemma {:induction false} ReachedIsWhole(length: nat, start: nat, chunk: nat)
    requires chunk > 0 && start <= length && start % chunk == 0
    ensures Reached(length, start, chunk) % chunk == 0
    decreases length - start
  {
    if start + chunk <= length {
      NextChunk(start, chunk);
      ReachedIsWhole(length, start + chunk, chunk);
    }
  }

  lemma {:induction false} NextChunk(start: nat, chunk: nat)
    requires chunk > 0 && start % chunk == 0
    ensures (start + chunk) % chunk == 0
  {
    DivMod(chunk, start / chunk + 1, 0);
    Division(start, chunk);
    NextMultiple(chunk, start / chunk);
  }

  lemma {:induction false} ShortStep(stream: seq<Frame>, start: nat, count: nat, chunk: nat, best: nat)
    requires chunk > 0 && start + chunk <= |stream| < count && best == MaxOf(stream[..start])
    ensures var now := MaxOf(stream[..start + chunk]);
            Scan(stream, start, count, chunk, best) == if now == 255 then Ok(255) else Scan(stream, start + chunk, count, chunk, now)
  {
    assert ChunkSize(start, count, chunk) == chunk;
    ScanOnce(stream, start, count, chunk, best);
    MaxOfPrefix(stream, start, start + chunk);
  }

  lemma {:induction false} LaterMaxima(stream: seq<Frame>, a: nat, b: nat)
    requires a <= b <= |stream| && Decodable(stream)
    ensures MaxOf(stream[..a]) <= MaxOf(stream[..b]) <= 255
  {
    MaxOfPrefix(stream, a, b);
    BytesOnly(stream[..b]);
  }

  lemma {:induction false} ShortEnd(stream: seq<Frame>, start: nat, count: nat, chunk: nat, best: nat)
    requires chunk > 0 && start <= |stream| < count && |stream| < start + chunk
    ensures Scan(stream, start, count, chunk, best) == Err
  {}

  /** A stream that is too short raises, unless a whole chunk before its end has the largest value. */
  lemma {:induction false} ShortScan(stream: seq<Frame>, start: nat, count: nat, chunk: nat, best: nat)
    requires chunk > 0 && start <= |stream| < count && Decodable(stream)
    requires best == MaxOf(stream[..start]) < 255
    ensures Scan(stream, start, count, chunk, best)
         == if MaxOf(stream[..Reached(|stream|, start, chunk)]) == 255 then Ok(255) else Err
    decreases count - start
  {
    if start + chunk <= |stream| {
      ShortStep(stream, start, count, chunk, best);
      LaterMaxima(stream, start + chunk, Reached(|stream|, start, chunk));
      if MaxOf(stream[..start + chunk]) != 255 {
        ShortScan(stream, start + chunk, count, chunk, MaxOf(stream[..start + chunk]));
      }
    } else {
      ShortEnd(stream, start, count, chunk, best);
    }
  }

  /** ... from the start of the stream. */
  lemma {:induction false} WholeShortScan(stream: seq<Frame>, count: nat, chunk: nat)
    requires chunk > 0 && |stream| < count && Decodable(stream)
    ensures Scan(stream, 0, count, chunk, 0)
         == if MaxOf(stream[..Reached(|stream|, 0, chunk)]) == 255 then Ok(255) else Err
  {
    assert stream[..0] == [];
    ShortScan(stream, 0, count, chunk, 0);
  }

  /** One chunk of the scan; a short read raises. */
  method ScanChunk(reader: VideoReader, size: nat, maximum: nat) returns (now: Result<nat>)
    requires reader.Valid() && size > 0
    modifies reader
    ensures reader.Valid()
    ensures now.Ok? <==> old(reader.position) + size <= |reader.stream|
    ensures now.Ok? ==>
              && reader.position == old(reader.position) + size
              && now.value == Greater(maximum, MaxOf(reader.stream[old(reader.position)..reader.position]))
  {
    var frames := reader.ReadFrames(size);
    if frames.Err? { return Err; }
    now := Ok(Greater(maximum, MaxOf(frames.value)));
  }

  /** The rest of the scan, without keeping what it reads. */
  method ScanOn(reader: VideoReader, count: nat, chunk: nat, from: nat, maximum: nat) returns (best: Result<nat>)
    requires reader.Valid() && chunk > 0 && reader.position == from <= count
    modifies reader
    ensures best == Scan(reader.stream, from, count, chunk, maximum)
  {
    var (start, found) := (from, maximum);
    while start < count
      invariant start <= count && reader.Valid() && reader.position == start
      invariant Scan(reader.stream, from, count, chunk, maximum) == Scan(reader.stream, start, count, chunk, found)
      decreases count - start
    {
      var n := ChunkSize(start, count, chunk);
      if start + n <= |reader.stream| { ScanOnce(reader.stream, start, count, chunk, found); }
      var now := ScanChunk(reader, n, found);
      if now.Err? { return Err; }
      found := now.value;
      if found == 255 { break; }
      start := start + n;
    }
    return Ok(found);
  }

  /** `read_mask_rgb_max`: a step of zero is refused, and a negative one only reads nothing. */
  method ReadMaskMax(stream: seq<Frame>, count: int, chunk: int) returns (maximum: Result<nat>)
    ensures count >= 0 && chunk > 0 ==> maximum == Scan(stream, 0, count, chunk, 0)
    ensures Decodable(stream) && 0 <= count <= |stream| && chunk > 0 ==> maximum == Ok(MaxOf(stream[..count]))
    ensures chunk <= 0 || count <= 0 ==> maximum == if chunk == 0 || (chunk < 0 && count < 0) then Err else Ok(0)
  {
    if chunk == 0 || (chunk < 0 && count < 0) { return Err; }
    if chunk < 0 || count <= 0 { return Ok(0); }
    if Decodable(stream) && count <= |stream| { WholeScanIsExact(stream, count, chunk); }
    var reader := new VideoReader(stream);
    maximum := ScanOn(reader, count, chunk, 0, 0);
  }

  // ---- Scan and reuse -----------------------------------------------------------------

  /** The reader handed to the consumer: the scanning pipe behind its prefix, or a new pipe. */
  datatype Opened = Primed(primed: PrimedVideoReader) | Reopened(reader: VideoReader)

  ghost function Objects(given: Opened): set<object> {
    match given
    case Primed(p) => {p, p.reader}
    case Reopened(f) => {f}
  }

  ghost predicate Pristine(given: Opened, stream: seq<Frame>)
    reads Objects(given)
  {
    match given
    case Primed(p) => p.Valid() && p.State() == Logical(stream, 0)
    case Reopened(f) => f.Valid() && f.State() == Logical(stream, 0)
  }

  /** Frames kept from the scan. */
  ghost function Retained(given: Opened): nat
    reads Objects(given)
  {
    if given.Primed? && given.primed.prefix.Some? then |given.primed.prefix.value| else 0
  }

  /** The reader after a first chunk: kept where that chunk decides the scan, and opened again elsewhere. */
  method OpenAfterChunk(reader: VideoReader, first: seq<Frame>, count: nat, chunk: nat)
    returns (maximum: Result<nat>, given: Option<Opened>)
    requires 0 < count && 0 < chunk && |first| <= |reader.stream| && first == reader.stream[..|first|]
    requires reader.Valid() && reader.position == reader.framesRead == |first| == ChunkSize(0, count, chunk)
    modifies reader
    ensures maximum.Ok? <==> given.Some?
    ensures maximum == Scan(reader.stream, 0, count, chunk, 0)
    ensures given.Some? ==> Pristine(given.value, reader.stream)
    ensures given.Some? ==> (given.value.Primed? <==> count <= chunk || MaxOf(first) == 255)
    ensures given.Some? && given.value.Primed? ==>
              given.value.primed.prefix == Some(first) && fresh(given.value.primed) && given.value.primed.reader == reader
    ensures given.Some? && given.value.Reopened? ==> fresh(given.value.reader)
  {
    ghost var stream := reader.stream;
    ScanOnce(stream, 0, count, chunk, 0);
    var best := MaxOf(first);
    if best == 255 || reader.framesRead == count {
      var primed := new PrimedVideoReader(reader, first);
      Rejoin(stream, |first|);
      return Ok(best), Some(Primed(primed));
    }
    maximum := ScanOn(reader, count, chunk, |first|, best);
    if maximum.Err? { return Err, None; }
    var replacement := new VideoReader(reader.stream);
    given := Some(Reopened(replacement));
  }

  /**
   * `open_mask_reader_with_scan`: the exact maximum, and a reader that delivers the
   * stream from its start although at most one chunk has been kept.
   */
  method OpenMaskReaderWithScan(stream: seq<Frame>, count: int, chunk: int) returns (maximum: Result<nat>, given: Option<Opened>)
    ensures maximum.Ok? <==> given.Some?
    ensures maximum == if count <= 0 || chunk <= 0 then Err else Scan(stream, 0, count, chunk, 0)
    ensures given.Some? ==> Pristine(given.value, stream) && Retained(given.value) <= chunk
    ensures given.Some? ==>
              var size := if count < chunk then count else chunk;
              && 0 < size <= |stream|
              && (given.value.Primed? <==> count <= chunk || MaxOf(stream[..size]) == 255)
              && (given.value.Primed? ==> given.value.primed.prefix == Some(stream[..size]))
    ensures Decodable(stream) && 0 < count <= |stream| && chunk > 0 ==> maximum == Ok(MaxOf(stream[..count]))
    ensures given.Some? && given.value.Primed? ==> fresh(given.value.primed) && fresh(given.value.primed.reader)
    ensures given.Some? && given.value.Reopened? ==> fresh(given.value.reader)
  {
    if count <= 0 || chunk <= 0 { return Err, None; }
    if Decodable(stream) && count <= |stream| { WholeScanIsExact(stream, count, chunk); }
    var reader := new VideoReader(stream);
    var first := reader.ReadFrames(ChunkSize(0, count, chunk));
    if first.Err? { return Err, None; }
    maximum, given := OpenAfterChunk(reader, first.value, count, chunk);
  }
}
