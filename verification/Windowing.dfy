/** `normalize_scene_specs` and `build_window_specs`: temporal windows with overlap. */
module Windowing {
  import opened Wrappers
  import opened Arithmetic

  datatype WindowSpec = WindowSpec(
    windowIndex: nat,
    sceneIndex: nat,
    sceneStart: int,
    sceneEnd: int,
    loadStart: int,
    loadEnd: int,
    dealStart: int,
    dealLength: int,
    loadLength: int,
    overlapLeft: int,
    overlapRight: int,
    inferLen: int,
    overlap: int,
    timeSample: int,
    timeShift: int)
  {
    function InputLen(): int { loadEnd - loadStart }
    function CommitEnd(): int { dealStart + dealLength }
  }

  datatype Scene = Scene(start: int, length: int)

  function Min(a: int, b: int): int {
    if a < b then a else b
  }

  function Max(a: int, b: int): int {
    if a > b then a else b
  }

  // ---- Scenes -------------------------------------------------------------------------

  /** One scene entry: `None` is skipped, a wrong number of items raises. */
  function NormalScene(entry: Option<seq<int>>, numFrames: int): Result<seq<Scene>> {
    if entry.None? then Ok([])
    else if |entry.value| != 2 then Err
    else
      var (start, length) := (Max(entry.value[0], 0), entry.value[1]);
      if length <= 0 || start >= numFrames then Ok([])
      else Ok([Scene(start, Min(length, numFrames - start))])
  }

  function NormalScenes(entries: seq<Option<seq<int>>>, numFrames: int): Result<seq<Scene>> {
    if entries == [] then Ok([])
    else
      var before := NormalScenes(entries[..|entries| - 1], numFrames);
      var now := NormalScene(entries[|entries| - 1], numFrames);
      if before.Err? || now.Err? then Err else Ok(before.value + now.value)
  }

  /** Without a usable scene the whole video is one. */
  function SceneSpecs(entries: seq<Option<seq<int>>>, numFrames: int): Result<seq<Scene>> {
    var normal := NormalScenes(entries, numFrames);
    if normal.Err? then Err else Ok(if normal.value == [] then [Scene(0, numFrames)] else normal.value)
  }

  method NormalizeSceneSpecs(entries: seq<Option<seq<int>>>, numFrames: int) returns (scenes: Result<seq<Scene>>)
    ensures scenes == SceneSpecs(entries, numFrames)
  {
    var normalized: seq<Scene> := [];
    for k := 0 to |entries|
      invariant NormalScenes(entries[..k], numFrames) == Ok(normalized)
    {
      assert entries[..k + 1][..k] == entries[..k];
      ErrorsStay(entries, k + 1, numFrames);
      assert normalized + [] == normalized;
      if entries[k].None? { continue; }
      var scene := entries[k].value;
      if |scene| != 2 { return Err; }
      var start, length := scene[0], scene[1];
      if length <= 0 { continue; }
      if start < 0 { start := 0; }
      if start >= numFrames { continue; }
      normalized := normalized + [Scene(start, Min(length, numFrames - start))];
    }
    assert entries[..|entries|] == entries;
    return Ok(if normalized == [] then [Scene(0, numFrames)] else normalized);
  }

  lemma {:induction false} ErrorsStay(entries: seq<Option<seq<int>>>, k: nat, numFrames: int)
    requires k <= |entries|
    ensures NormalScenes(entries[..k], numFrames).Err? ==> NormalScenes(entries, numFrames).Err?
    decreases |entries| - k
  {
    if k == |entries| {
      assert entries[..k] == entries;
    } else {
      assert entries[..k + 1][..k] == entries[..k];
      ErrorsStay(entries, k + 1, numFrames);
    }
  }

  /** Normalized scenes are non-empty and lie inside the video. */
  lemma {:induction false} ScenesFit(entries: seq<Option<seq<int>>>, numFrames: int)
    requires numFrames > 0 && SceneSpecs(entries, numFrames).Ok?
    ensures var scenes := SceneSpecs(entries, numFrames).value;
            && scenes != []
            && forall k | 0 <= k < |scenes| :: 0 <= scenes[k].start < scenes[k].start + scenes[k].length <= numFrames
  {
    NormalScenesFit(entries, numFrames);
  }

  lemma {:induction false} NormalScenesFit(entries: seq<Option<seq<int>>>, numFrames: int)
    requires NormalScenes(entries, numFrames).Ok?
    ensures var scenes := NormalScenes(entries, numFrames).value;
            forall k | 0 <= k < |scenes| :: 0 <= scenes[k].start < scenes[k].start + scenes[k].length <= numFrames
  {
    if entries != [] { NormalScenesFit(entries[..|entries| - 1], numFrames); }
  }

  /** An entry that leaves a scene inside the video. */
  predicate Usable(entry: Option<seq<int>>, numFrames: int) {
    entry.Some? && |entry.value| == 2 && entry.value[1] > 0 && entry.value[0] < numFrames && 0 < numFrames
  }

  /** The scene from an entry's start, or the video's, with its length or up to the video's end. */
  predicate IsSceneOf(scene: Scene, entry: Option<seq<int>>, numFrames: int) {
    && Usable(entry, numFrames)
    && scene.start == (if entry.value[0] < 0 then 0 else entry.value[0])
    && scene.start + scene.length == (if scene.start + entry.value[1] > numFrames then numFrames else scene.start + entry.value[1])
  }

  /** The scenes are those of the usable entries, which stand at these places, in order. */
  ghost predicate ScenesOf(entries: seq<Option<seq<int>>>, numFrames: int, scenes: seq<Scene>, places: seq<nat>) {
    && |places| == |scenes|
    && (forall i | 0 <= i < |places| :: places[i] < |entries| && IsSceneOf(scenes[i], entries[places[i]], numFrames))
    && (forall i, j | 0 <= i < j < |places| :: places[i] < places[j])
    && (forall k: nat | k < |entries| :: k in places <==> Usable(entries[k], numFrames))
  }

  lemma {:induction false} NextEntry(entries: seq<Option<seq<int>>>, numFrames: int, scenes: seq<Scene>, places: seq<nat>,
                                     entry: Option<seq<int>>)
    requires ScenesOf(entries, numFrames, scenes, places) && NormalScene(entry, numFrames).Ok?
    ensures ScenesOf(entries + [entry], numFrames, scenes + NormalScene(entry, numFrames).value,
                     places + if Usable(entry, numFrames) then [|entries|] else [])
  {}

  /** Entries are refused if and only if one has not two items; the usable ones are kept, each as its scene. */
  lemma {:induction false} ScenesAreEntries(entries: seq<Option<seq<int>>>, numFrames: int) returns (places: seq<nat>)
    ensures NormalScenes(entries, numFrames).Err? <==> exists k :: 0 <= k < |entries| && entries[k].Some? && |entries[k].value| != 2
    ensures NormalScenes(entries, numFrames).Ok? ==> ScenesOf(entries, numFrames, NormalScenes(entries, numFrames).value, places)
  {
    places := [];
    if entries != [] {
      var (front, last) := (entries[..|entries| - 1], entries[|entries| - 1]);
      assert entries == front + [last];
      places := ScenesAreEntries(front, numFrames);
      if NormalScenes(entries, numFrames).Ok? {
        NextEntry(front, numFrames, NormalScenes(front, numFrames).value, places, last);
        places := places + if Usable(last, numFrames) then [|front|] else [];
      }
    }
  }

  // ---- Windows ------------------------------------------------------------------------

  datatype Settings = Settings(numFrames: int, inferLen: int, overlap: int, timeSample: int, timeShift: int)

  predicate ValidSettings(s: Settings) {
    s.inferLen > 0 && 0 <= s.overlap < s.inferLen && s.timeSample > 0 && s.timeShift > 0
  }

  function OverlapLeft(s: Settings, sceneStart: int, next: int): int {
    if next > sceneStart then s.overlap else 0
  }

  function WindowAt(s: Settings, windowIndex: nat, sceneIndex: nat, sceneStart: int, sceneEnd: int, next: int): WindowSpec {
    var overlapLeft := OverlapLeft(s, sceneStart, next);
    var needNewFrame := Max(1, s.inferLen - overlapLeft);
    var dealLength := Min(needNewFrame, sceneEnd - next);
    var loadLength := Min(s.numFrames - next, needNewFrame);
    WindowSpec(windowIndex, sceneIndex, sceneStart, sceneEnd, next - overlapLeft, next + loadLength, next, dealLength, loadLength,
               overlapLeft, if next + dealLength < sceneEnd then s.overlap else 0, s.inferLen, s.overlap, s.timeSample, s.timeShift)
  }

  /** The windows of a scene from frame `next` on. */
  function WindowsFrom(s: Settings, windowIndex: nat, sceneIndex: nat, sceneStart: int, sceneEnd: int, next: int): seq<WindowSpec>
    requires ValidSettings(s)
    decreases sceneEnd - next
  {
    if next >= sceneEnd then []
    else
      var w := WindowAt(s, windowIndex, sceneIndex, sceneStart, sceneEnd, next);
      [w] + WindowsFrom(s, windowIndex + 1, sceneIndex, sceneStart, sceneEnd, w.CommitEnd())
  }

  function SceneEnd(s: Settings, scene: Scene): int {
    Min(s.numFrames, scene.start + scene.length)
  }

  function SceneWindows(s: Settings, windowIndex: nat, sceneIndex: nat, scene: Scene): seq<WindowSpec>
    requires ValidSettings(s)
  {
    WindowsFrom(s, windowIndex, sceneIndex, scene.start, SceneEnd(s, scene), scene.start)
  }

  /** The windows of the first `n` scenes. */
  function WindowsOf(s: Settings, scenes: seq<Scene>, n: nat): seq<WindowSpec>
    requires ValidSettings(s) && n <= |scenes|
  {
    if n == 0 then []
    else
      var before := WindowsOf(s, scenes, n - 1);
      before + SceneWindows(s, |before|, n - 1, scenes[n - 1])
  }

  method BuildWindowSpecs(s: Settings, entries: seq<Option<seq<int>>>) returns (specs: Result<seq<WindowSpec>>)
    ensures specs.Ok? <==> ValidSettings(s) && SceneSpecs(entries, s.numFrames).Ok?
    ensures specs.Ok? ==>
              var scenes := SceneSpecs(entries, s.numFrames).value;
              specs.value == WindowsOf(s, scenes, |scenes|)
  {
    if s.inferLen <= 0 || s.overlap < 0 || s.overlap >= s.inferLen || s.timeSample <= 0 || s.timeShift <= 0 { return Err; }
    var normalized := NormalizeSceneSpecs(entries, s.numFrames);
    if normalized.Err? { return Err; }
    var scenes := normalized.value;
    var built: seq<WindowSpec> := [];
    for k := 0 to |scenes|
      invariant built == WindowsOf(s, scenes, k)
    {
      built := AppendScene(s, built, k, scenes[k]);
    }
    return Ok(built);
  }

  /** The windows of one scene, after those of the scenes before it. */
  method AppendScene(s: Settings, before: seq<WindowSpec>, k: nat, scene: Scene) returns (built: seq<WindowSpec>)
    requires ValidSettings(s)
    ensures built == before + SceneWindows(s, |before|, k, scene)
  {
    var (sceneStart, sceneEnd) := (scene.start, SceneEnd(s, scene));
    var next := sceneStart;
    built := before;
    while next < sceneEnd
      invariant before + SceneWindows(s, |before|, k, scene) == built + WindowsFrom(s, |built|, k, sceneStart, sceneEnd, next)
      decreases sceneEnd - next
    {
      var window := WindowAt(s, |built|, k, sceneStart, sceneEnd, next);
      OneMoreWindow(s, built, k, sceneStart, sceneEnd, next);
      built := built + [window];
      next := next + window.dealLength;
    }
  }

  lemma {:induction false} OneMoreWindow(s: Settings, built: seq<WindowSpec>, k: nat, sceneStart: int, sceneEnd: int, next: int)
    requires ValidSettings(s) && next < sceneEnd
    ensures var window := WindowAt(s, |built|, k, sceneStart, sceneEnd, next);
            built + WindowsFrom(s, |built|, k, sceneStart, sceneEnd, next)
            == (built + [window]) + WindowsFrom(s, |built + [window]|, k, sceneStart, sceneEnd, window.CommitEnd())
  {
    var window := WindowAt(s, |built|, k, sceneStart, sceneEnd, next);
    assert built + ([window] + WindowsFrom(s, |built| + 1, k, sceneStart, sceneEnd, window.CommitEnd()))
        == (built + [window]) + WindowsFrom(s, |built + [window]|, k, sceneStart, sceneEnd, window.CommitEnd());
  }

  // ---- What the windows of a scene do ---------------------------------------------------

  /** Committed ranges follow each other from `from` to `end` without gap or overlap. */
  predicate Tiles(windows: seq<WindowSpec>, from: int, end: int) {
    if windows == [] then from == end
    else windows[0].dealStart == from && windows[0].dealLength > 0 && Tiles(windows[1..], windows[0].CommitEnd(), end)
  }

  lemma {:induction false} WindowsTile(s: Settings, windowIndex: nat, sceneIndex: nat, sceneStart: int, sceneEnd: int, next: int)
    requires ValidSettings(s) && next <= sceneEnd
    ensures Tiles(WindowsFrom(s, windowIndex, sceneIndex, sceneStart, sceneEnd, next), next, sceneEnd)
    decreases sceneEnd - next
  {
    if next < sceneEnd {
      var w := WindowAt(s, windowIndex, sceneIndex, sceneStart, sceneEnd, next);
      WindowsTile(s, windowIndex + 1, sceneIndex, sceneStart, sceneEnd, w.CommitEnd());
    }
  }

  /** The committed ranges of a scene cover it exactly. */
  lemma {:induction false} SceneIsTiled(s: Settings, windowIndex: nat, sceneIndex: nat, scene: Scene)
    requires ValidSettings(s) && scene.length > 0 && scene.start < s.numFrames
    ensures Tiles(SceneWindows(s, windowIndex, sceneIndex, scene), scene.start, SceneEnd(s, scene))
    ensures SceneWindows(s, windowIndex, sceneIndex, scene) != []
  {
    WindowsTile(s, windowIndex, sceneIndex, scene.start, SceneEnd(s, scene), scene.start);
  }

  /** Loads of a window: inside the video, not before the scene, and no longer than one inference. */
  predicate LoadsWell(s: Settings, w: WindowSpec) {
    && w.sceneStart <= w.loadStart <= w.dealStart
    && w.dealStart - w.loadStart == w.overlapLeft
    && w.overlapLeft == (if w.dealStart > w.sceneStart then s.overlap else 0)
    && w.CommitEnd() <= w.loadEnd <= s.numFrames
    && w.InputLen() <= s.inferLen
  }

  /** Consecutively numbered windows that load well. */
  predicate AllWell(s: Settings, windows: seq<WindowSpec>, windowIndex: nat) {
    forall k | 0 <= k < |windows| :: LoadsWell(s, windows[k]) && windows[k].windowIndex == windowIndex + k
  }

  lemma {:induction false} WellJoined(s: Settings, a: seq<WindowSpec>, b: seq<WindowSpec>, windowIndex: nat)
    requires AllWell(s, a, windowIndex) && AllWell(s, b, windowIndex + |a|)
    ensures AllWell(s, a + b, windowIndex)
  {}

  lemma {:induction false} WindowsLoadWell(s: Settings, windowIndex: nat, sceneIndex: nat, sceneStart: int, sceneEnd: int, next: int)
    requires ValidSettings(s) && sceneEnd <= s.numFrames
    requires next == sceneStart || next >= sceneStart + s.inferLen
    ensures AllWell(s, WindowsFrom(s, windowIndex, sceneIndex, sceneStart, sceneEnd, next), windowIndex)
    decreases sceneEnd - next
  {
    if next < sceneEnd {
      var w := WindowAt(s, windowIndex, sceneIndex, sceneStart, sceneEnd, next);
      var rest := WindowsFrom(s, windowIndex + 1, sceneIndex, sceneStart, sceneEnd, w.CommitEnd());
      if w.CommitEnd() < sceneEnd {
        WindowsLoadWell(s, windowIndex + 1, sceneIndex, sceneStart, sceneEnd, w.CommitEnd());
      } else {
        assert rest == [];
      }
      WellJoined(s, [w], rest, windowIndex);
    }
  }

  /** Every later window loads exactly `overlap` frames, all committed by the windows before it. */
  lemma {:induction false} OverlapIsCommitted(s: Settings, windowIndex: nat, sceneIndex: nat, scene: Scene, k: nat)
    requires ValidSettings(s) && scene.length > 0 && 0 <= scene.start < s.numFrames
    requires 0 < k < |SceneWindows(s, windowIndex, sceneIndex, scene)|
    ensures var w := SceneWindows(s, windowIndex, sceneIndex, scene)[k];
            && LoadsWell(s, w)
            && w.dealStart - w.loadStart == s.overlap
            && scene.start <= w.loadStart
            && w.dealStart == SceneWindows(s, windowIndex, sceneIndex, scene)[k - 1].CommitEnd()
  {
    var windows := SceneWindows(s, windowIndex, sceneIndex, scene);
    WindowsLoadWell(s, windowIndex, sceneIndex, scene.start, SceneEnd(s, scene), scene.start);
    SceneIsTiled(s, windowIndex, sceneIndex, scene);
    NeighboursMeet(windows, scene.start, SceneEnd(s, scene), k);
    WindowsShareScene(s, windowIndex, sceneIndex, scene.start, SceneEnd(s, scene), scene.start, k);
  }

  lemma {:induction false} WindowsShareScene(s: Settings, windowIndex: nat, sceneIndex: nat, sceneStart: int, sceneEnd: int, next: int, k: nat)
    requires ValidSettings(s) && k < |WindowsFrom(s, windowIndex, sceneIndex, sceneStart, sceneEnd, next)|
    ensures WindowsFrom(s, windowIndex, sceneIndex, sceneStart, sceneEnd, next)[k].sceneStart == sceneStart
    decreases sceneEnd - next
  {
    var w := WindowAt(s, windowIndex, sceneIndex, sceneStart, sceneEnd, next);
    if k > 0 { WindowsShareScene(s, windowIndex + 1, sceneIndex, sceneStart, sceneEnd, w.CommitEnd(), k - 1); }
  }

  lemma {:induction false} NeighboursMeet(windows: seq<WindowSpec>, from: int, end: int, k: nat)
    requires Tiles(windows, from, end) && 0 < k < |windows|
    ensures windows[k].dealStart == windows[k - 1].CommitEnd() && windows[k].dealStart > from
  {
    var rest := windows[1..];
    if k > 1 {
      NeighboursMeet(rest, windows[0].CommitEnd(), end, k - 1);
    } else {
      assert windows[1] == rest[0];
    }
  }

  // ---- How many windows -----------------------------------------------------------------

  /** Rounded-up division. */
  function CeilDiv(a: nat, b: nat): nat
    requires b > 0
  {
    (a + b - 1) / b
  }

  lemma {:induction false} OneStep(a: nat, b: nat)
    requires b > 0
    ensures a > b ==> CeilDiv(a, b) == CeilDiv(a - b, b) + 1
    ensures 0 < a <= b ==> CeilDiv(a, b) == 1
    ensures CeilDiv(0, b) == 0
  {
    if a > b { SubtractDivisor(a + b - 1, b); }
    if 0 < a <= b { SubtractDivisor(a + b - 1, b); SmallQuotient(a - 1, b); }
    SmallQuotient(b - 1, b);
  }

  lemma {:induction false} SubtractDivisor(x: nat, n: nat)
    requires 0 < n <= x
    ensures x / n == (x - n) / n + 1
  {
    var q := (x - n) / n;
    assert x - n == n * q + (x - n) % n;
    assert n * (q + 1) == n * q + n;
    assert x == n * (q + 1) + (x - n) % n;
    DivMod(n, q + 1, (x - n) % n);
  }

  lemma {:induction false} LaterWindows(s: Settings, windowIndex: nat, sceneIndex: nat, sceneStart: int, sceneEnd: int, next: int)
    requires ValidSettings(s) && sceneStart < next <= sceneEnd
    ensures |WindowsFrom(s, windowIndex, sceneIndex, sceneStart, sceneEnd, next)| == CeilDiv(sceneEnd - next, s.inferLen - s.overlap)
    decreases sceneEnd - next
  {
    OneStep(sceneEnd - next, s.inferLen - s.overlap);
    if next < sceneEnd {
      var w := WindowAt(s, windowIndex, sceneIndex, sceneStart, sceneEnd, next);
      LaterWindows(s, windowIndex + 1, sceneIndex, sceneStart, sceneEnd, w.CommitEnd());
      OneStep(0, s.inferLen - s.overlap);
    }
  }

  /** A scene longer than one inference takes 1 + ceil((len - inferLen) / (inferLen - overlap)) windows. */
  lemma {:induction false} WindowCount(s: Settings, windowIndex: nat, sceneIndex: nat, scene: Scene)
    requires ValidSettings(s) && scene.length > 0 && scene.start < s.numFrames
    ensures var length := SceneEnd(s, scene) - scene.start;
            |SceneWindows(s, windowIndex, sceneIndex, scene)|
            == if length > s.inferLen then 1 + CeilDiv(length - s.inferLen, s.inferLen - s.overlap) else 1
  {
    var (start, end) := (scene.start, SceneEnd(s, scene));
    var w := WindowAt(s, windowIndex, sceneIndex, start, end, start);
    LaterWindows(s, windowIndex + 1, sceneIndex, start, end, w.CommitEnd());
    OneStep(0, s.inferLen - s.overlap);
  }

  /** A window by its numbers: where it commits from, and whether it is its scene's first or last. */
  predicate IsWindow(s: Settings, w: WindowSpec, windowIndex: nat, sceneIndex: nat, sceneStart: int, sceneEnd: int,
                     from: int, first: bool, last: bool) {
    var overlapLeft := if first then 0 else s.overlap;
    && w.windowIndex == windowIndex && w.sceneIndex == sceneIndex && w.sceneStart == sceneStart && w.sceneEnd == sceneEnd
    && w.dealStart == from && w.loadStart == from - overlapLeft
    && w.loadEnd == (if w.loadStart + s.inferLen > s.numFrames then s.numFrames else w.loadStart + s.inferLen)
    && w.dealStart + w.dealLength == (if last then sceneEnd else w.loadStart + s.inferLen)
    && w.loadLength == w.loadEnd - from
    && w.overlapLeft == overlapLeft && w.overlapRight == (if last then 0 else s.overlap)
    && w.inferLen == s.inferLen && w.overlap == s.overlap && w.timeSample == s.timeSample && w.timeShift == s.timeShift
  }

  lemma {:induction false} NextMultipleOf(from: int, n: int, k: nat)
    requires k > 0
    ensures from + n + (k - 1) * n == from + k * n
  {}

  lemma {:induction false} LaterWindowIs(s: Settings, windowIndex: nat, sceneIndex: nat, sceneStart: int, sceneEnd: int, next: int, k: nat)
    requires ValidSettings(s) && sceneStart < next && sceneEnd <= s.numFrames
    requires k < |WindowsFrom(s, windowIndex, sceneIndex, sceneStart, sceneEnd, next)|
    ensures var windows := WindowsFrom(s, windowIndex, sceneIndex, sceneStart, sceneEnd, next);
            IsWindow(s, windows[k], windowIndex + k, sceneIndex, sceneStart, sceneEnd, next + k * (s.inferLen - s.overlap),
                     false, k + 1 == |windows|)
    decreases k
  {
    var w := WindowAt(s, windowIndex, sceneIndex, sceneStart, sceneEnd, next);
    var rest := WindowsFrom(s, windowIndex + 1, sceneIndex, sceneStart, sceneEnd, w.CommitEnd());
    assert WindowsFrom(s, windowIndex, sceneIndex, sceneStart, sceneEnd, next) == [w] + rest;
    if k > 0 {
      LaterWindowIs(s, windowIndex + 1, sceneIndex, sceneStart, sceneEnd, w.CommitEnd(), k - 1);
      NextMultipleOf(next, s.inferLen - s.overlap, k);
    }
  }

  /**
   * The windows of a scene in closed form: the first commits up to one inference, each later
   * one starts where the one before ended, loads the overlap before it and fills its
   * inference as far as the video goes; only the last ends with the scene.
   */
  lemma {:induction false} WindowIs(s: Settings, windowIndex: nat, sceneIndex: nat, scene: Scene, k: nat)
    requires ValidSettings(s) && k < |SceneWindows(s, windowIndex, sceneIndex, scene)|
    ensures var windows := SceneWindows(s, windowIndex, sceneIndex, scene);
            IsWindow(s, windows[k], windowIndex + k, sceneIndex, scene.start, SceneEnd(s, scene),
                     if k == 0 then scene.start else scene.start + s.inferLen + (k - 1) * (s.inferLen - s.overlap),
                     k == 0, k + 1 == |windows|)
  {
    var (start, end) := (scene.start, SceneEnd(s, scene));
    var w := WindowAt(s, windowIndex, sceneIndex, start, end, start);
    var rest := WindowsFrom(s, windowIndex + 1, sceneIndex, start, end, w.CommitEnd());
    assert SceneWindows(s, windowIndex, sceneIndex, scene) == [w] + rest;
    if k > 0 { LaterWindowIs(s, windowIndex + 1, sceneIndex, start, end, w.CommitEnd(), k - 1); }
  }

  /** Window indices count through all scenes. */
  lemma {:induction false} IndicesCount(s: Settings, scenes: seq<Scene>, n: nat)
    requires ValidSettings(s) && n <= |scenes|
    requires forall k | 0 <= k < |scenes| :: SceneEnd(s, scenes[k]) <= s.numFrames
    ensures AllWell(s, WindowsOf(s, scenes, n), 0)
  {
    if n > 0 {
      IndicesCount(s, scenes, n - 1);
      var (before, scene) := (WindowsOf(s, scenes, n - 1), scenes[n - 1]);
      WindowsLoadWell(s, |before|, n - 1, scene.start, SceneEnd(s, scene), scene.start);
      WellJoined(s, before, SceneWindows(s, |before|, n - 1, scene), 0);
    }
  }
}
