# Verified models of the inference runtime

This project models the parts of the video erasure runtime that are protocols,
state machines, chunked buffers and index arithmetic, and proves what they
promise. Tensors are sequences (of reals, or of opaque elements), collectives
are atomic steps of all ranks, and model calls are uninterpreted functions.
`dafny verify dfyconfig.toml` checks everything.

**The owner/worker VAE tile engine** (`VaePlan` to `VaeErrors`). `VaeEngine`
turns `execute` into a network of ranks: each rank acts locally, takes part in a
blocking transfer or the broadcast, and waits at a control gather that exchanges
error flags; a run is any interleaving of such steps. `VaeSync`, `VaeWindows`
and `VaeRuns` describe the world between two gathers, `VaeSteps` shows that every
interleaving stays between consecutive synchronised worlds, `VaeSuccess` and
`VaeHistory` collect what that means for whole runs, and `VaeTheorems` states it:
agreement, matched transfers, no deadlock, common failure, an end that does not
depend on the interleaving, and an owner's result equal to a serial fold. `VaeMeaning`
says the same without padding, cell by cell: when the group succeeds and what the
owner returns; `VaeErrors` says which error a failed run raises. `VaePlan`
holds the int64 codec, `VaeSchedule` the rounds, `VaeTensor` the envelopes.

**Frame caches and streaming video** (`Frames`, `FrameCache`, `CacheRuns`,
`CacheMeaning`, `AsyncWriter`, `ScanReader`). Both caches are classes on heap
buffers, proved against one meaning (a start index and the frames from there on), so
that they refine each other and so that blocks handed out never share storage with what
stays. `CacheMeaning` says by absolute frame index what they remember. The
asynchronous writer is a producer and a consumer around a bounded queue, the primed
reader a class proved to read like a fresh one.

**Approximate-cache controllers** (`TeaCache`, `TeaController`, `CacheDit`,
`DitController`, `Tensors`, `Blocks`, `Forecast`, `Consensus`, `Shards`, `Lockstep`,
`DitLockstep`, `ForecastShards`, `LockstepForecasts`, `DitLockstepForecasts`).
What a call does to a branch is a function; the controllers are classes whose
methods update fields and are proved against it. Invariants hold for every list
of calls, and each decision is said in sums of the tensors a caller has passed. The
lockstep modules show that a sequence-parallel group always decides and forecasts as
one controller on the whole sequence would.

**Partition arithmetic** (`Arithmetic`, `Topology`, `Sharding`, `Windowing`,
`Latents`) and **the CPU affinity planner with its printer and parser**
(`PlainText`, `SortedLists`, `CpuSets`, `CpuMaps`, `CpuPlan`).

Five promises turn out not to hold on all inputs. Each has a concrete
counterexample or an exact condition:

- The `merge_order` metric of the engine is wrong for some valid plans: it reports
  plan order. With tasks 0 and 1 on rank 0 and task 2 on rank 1, task 2 is merged
  before task 1 (`VaeSchedule.ReportedOrderCanBeWrong`). It is the real order if and
  only if rounds do not decrease along the plan (`VaeSchedule.ReportedOrderIsMergeOrder`).
- `ArrayFrameCache.fill_region` with an end before the cache's first frame uses a
  negative Python index and fills frames that `ChunkedFrameCache` leaves alone; the
  caches agree if and only if the slice does not wrap (`Frames.FillsAgreeExactly`).
- An owned write after `close` is accepted and lost, and a further `close` still
  returns normally (`AsyncWriter.LateWritesAreLost`). A close that returns normally is
  complete if and only if no write with bytes was accepted after an earlier one had
  ended (`NormalCloseIsComplete`).
- An owned write into a full queue after `close` never returns: a second write into a
  queue of one is such a write (`AsyncWriter.LateWriteIsStuck`, `StuckForEver`). The
  pending call can end if and only if it is not a write into a full queue whose thread
  has ended without an error (`CallsCanEnd`).
- Packing latents whose sizes are no multiples of the patch sizes can succeed, with
  a wrong channel count: four channels of 3 x 2 pixels and patches of 2 x 2 make six
  channels (`Latents.UnevenPackIsAccepted`). Unpacking gives the tensor back if and
  only if the patch sizes divide (`Latents.UnpackUndoesPack`).

## Model

| member | source | states |
|---|---|---|
| `VaeTheorems.FinishedRuns` | parallel/vae_parallel.py:351-572 | when a run is over, every rank has returned if and only if the arguments fit, the serial fold succeeds and all ranks drain, and then the owner holds the serial fold of the merge callback over the schedule, each rank has passed exactly 4 + 4 tasks + rounds control gathers and one input and one output transfer per travelling task; otherwise all ranks have raised the same error |
| `VaeTheorems.RanksAgree` | parallel/vae_parallel.py:663-699 | at every moment of every run all ranks stand at the same position, have completed the same gathers and have the same outcome; no rank fails outside an agreed phase |
| `VaeTheorems.FailureIsCommon` | parallel/vae_parallel.py:663-699 | once a rank has failed in a phase, nobody passes that phase: in every later world all ranks are at that gather or have raised there, naming the failed rank |
| `VaeTheorems.TransfersMatch` | parallel/vae_parallel.py:406-545 | a rank about to send or receive has exactly one partner, at its own end of the same transfer: same tag, same envelope shape, right peer, and no third rank fits |
| `VaeTheorems.TagsAreDistinct` | parallel/vae_parallel.py:165-174 | two transfers have the same tag if and only if round, slot and direction are the same |
| `VaeTheorems.GathersNeverRepeat` | parallel/vae_parallel.py:663-699 | no rank passes one gather twice, so no transfer is posted twice |
| `VaeTheorems.GathersAreBounded` | parallel/vae_parallel.py:615-626 | no run, failed or not, completes more gathers than 4 + 4 tasks + rounds of the owner's plan |
| `VaeTheorems.NeverStuck` | parallel/vae_parallel.py:351-581 | as long as one rank runs, some rank can make a step: the blocking calls never deadlock |
| `VaeTheorems.RunsAreShort` | parallel/vae_parallel.py:351-581 | every run ends, within ranks + 1 steps per gather |
| `VaeTheorems.FinishedRunsAgree` | parallel/vae_parallel.py:351-581 | two finished runs of one configuration end in the same world: outcome, raised phase, failed ranks, counters and merged tensor do not depend on the interleaving |
| `VaeHistory.RunHistory` | parallel/vae_parallel.py:241-661 | every world of every interleaving lies between two consecutive synchronised worlds, each of which is the window of the one before, so one sequence of windows tells the whole run |
| `VaeSteps.StepStays` | parallel/vae_parallel.py:351-581 | each step keeps the world inside its window or completes it with the control gather; steps inside a window use up work |
| `VaeRuns.WindowIsSynced` | parallel/vae_parallel.py:663-699 | from a synchronised world, acting and gathering leads to a synchronised world, whether somebody failed or not |
| `VaeRuns.LoudWindowRaises` | parallel/vae_parallel.py:663-699 | from any synchronised state, a window in which a rank fails raises on every rank, at that position and in its phase, with the exact list of failed ranks |
| `VaeRuns.SignatureWindow` | parallel/vae_parallel.py:701-751 | the signature window leads every rank to the broadcast exactly when the owner has a plan, all lengths agree and supplied plans match; otherwise all raise, naming the whole group |
| `VaeWindows.WorkingWindow` | parallel/vae_parallel.py:378-572 | a window in which nobody fails keeps the full protocol invariant: buffers, transfer counts, and the owner's partial fold |
| `VaeSuccess.SuccessNeverRaises` | parallel/vae_parallel.py:351-581 | a configuration whose arguments fit the plan, whose serial fold succeeds and whose ranks all drain never reaches a raising window |
| `VaeSync.ViewOfMaterialized` | parallel/vae_parallel.py:1072-1112 | what a rank sees of an input padded to the round's envelope is what direct padding to the task's own shape gives, and it fails exactly when that fails |
| `VaeSync.ViewOfTile` | parallel/vae_parallel.py:1072-1112 | the same for output tiles: the merged tile does not depend on the envelope it shared |
| `VaeTensor.CropOfPad` | parallel/vae_parallel.py:1072-1112 | the origin crop of a padded tensor is the tensor padded to the crop's shape, and padding to the envelope is accepted exactly when direct padding is |
| `VaeTensor.EnvelopeCoversSlots` | parallel/vae_parallel.py:1058-1069 | the envelope is the least upper bound of the occupied slots' shapes |
| `VaeMeaning.PadKeepsCells` | parallel/vae_parallel.py:1072-1105 | a padded tensor has, at every index of the target, the tensor's own cell inside its shape and 0 outside |
| `VaeMeaning.CropKeepsCells` | parallel/vae_parallel.py:1108-1112 | a cropped cell is the tensor's own cell at that index, and each axis is the shorter of the two |
| `VaeMeaning.PadToOwnShape` | parallel/vae_parallel.py:1072-1105 | a tensor that already has its padded shape is left as it is |
| `VaeMeaning.CropUndoesPad` | parallel/vae_parallel.py:1072-1112 | cropping a padded tensor back to its shape gives the tensor |
| `VaeMeaning.SuccessIsMerging` | parallel/vae_parallel.py:351-661 | a finished run has returned on every rank if and only if every rank was given the right arguments, each task's input can be materialized, executed on its own rank and merged in schedule order, and all ranks drain; cells, not padding, say what the callbacks are given |
| `VaeMeaning.FittingArguments` | parallel/vae_parallel.py:241-349 | the arguments fit exactly when the plan is valid, owned and within int64, and each rank has the plan or its size, the owner the input and nobody else one |
| `VaeMeaning.OwnerReturnsTheMerges` | parallel/vae_parallel.py:351-572 | a run that has returned gives the owner the last of a list of merge results that starts from nothing, takes the tasks in schedule order, and at each task executes the materialized tile on its own rank and merges the output, both with zeros up to the task's shapes |
| `VaeMeaning.ExactTilesPass` | parallel/vae_parallel.py:378-572 | callback tiles that already have their padded shapes reach `execute` and `merge` unchanged |
| `VaeMeaning.ExactRunsArePlain` | parallel/vae_parallel.py:351-572 | with such tiles the owner's result is the plain chain merge(before, task, execute(rank, materialize(input, task), task)), whatever the interleaving |
| `VaeErrors.ErrorIsTheFirst` | parallel/vae_parallel.py:241-699 | the exact error of every failed run: it has passed positions in the order of the loops at which no rank's work goes wrong, and every rank raises at the next one, naming that work and exactly the ranks whose work goes wrong there: bad arguments, unlike signatures, another plan, an input that cannot be materialized, a tile that cannot be executed, a merge that fails, a device that does not drain |
| `VaeErrors.WindowOutcome` | parallel/vae_parallel.py:663-751 | from any synchronised world the next gather raises exactly when some rank's work goes wrong there, with these ranks, and leads on otherwise |
| `VaeErrors.PreparationMeaning` | parallel/vae_parallel.py:275-349 | which arguments of a rank are refused |
| `VaeErrors.SignatureMeaning` | parallel/vae_parallel.py:701-751 | signatures agree exactly when the owner has a plan, plans of other ranks have its length and digest, and ranks without a plan were given its length |
| `VaeSchedule.TasksForRound` | parallel/vae_parallel.py:143-162 | the slots of a round: rejects invalid plans, groups and rounds, and otherwise gives slot s the round-th task of rank s, if any |
| `VaeSchedule.AcceptedGroups` | parallel/vae_parallel.py:150-155 | the groups that are accepted: not empty, no negative rank, as many different ranks as entries |
| `VaeSchedule.TaskInItsSlot` | parallel/vae_parallel.py:151-162 | every task sits in the slot of its rank, in the round given by its rank's earlier tasks |
| `VaeSchedule.RoundsAreNonEmpty` | parallel/vae_parallel.py:143-162 | no round of a valid plan is empty |
| `VaeSchedule.ScheduleIsAPermutation` | parallel/vae_parallel.py:501-572 | every task of a valid plan is merged exactly once |
| `VaeSchedule.ScheduleIsLexicographic` | parallel/vae_parallel.py:501-508 | merges happen in (round, task id) order |
| `VaeSchedule.RoundMergesAreRoundTasks` | parallel/vae_parallel.py:501-508 | sorting a round's occupied slots by task id gives the tasks of that round in plan order |
| `VaeSchedule.ReportedOrderIsMergeOrder` | parallel/vae_parallel.py:646 | the reported merge order (plan order) is the real one if and only if rounds do not decrease along the plan |
| `VaeSchedule.ReportedOrderCanBeWrong` | parallel/vae_parallel.py:646 | a valid plan of three tasks on two ranks whose reported order is wrong: task 2 is merged before task 1 |
| `VaePlan.ValidateTaskPlan` | parallel/vae_parallel.py:784-828 | accepts exactly the valid plans, counting tasks per rank in a dictionary |
| `VaePlan.ValidInNumbers` | parallel/vae_parallel.py:784-828 | the accepted plans, in numbers only: positive axes, tasks numbered in order whose ranges are non-empty, inside the global shape and no longer than the padded one, and as many rounds as the busiest rank has tasks |
| `VaePlan.EncodeTaskPlan` | parallel/vae_parallel.py:831-853 | encoding succeeds exactly for valid plans whose integers fit int64 |
| `VaePlan.DecodeTaskPlan` | parallel/vae_parallel.py:872-941 | the cursor-driven decoder computes the decoding function on every vector, malformed ones included |
| `VaePlan.DecodeOfEncode` | parallel/vae_parallel.py:831-869 | decoding an encoded valid plan gives the plan back, and the encoded length is the published size formula |
| `VaePlan.EncodeOfDecode` | parallel/vae_parallel.py:872-941 | every accepted vector decodes to a valid plan that encodes to the same vector |
| `VaePlan.EncodedLayout` | parallel/vae_parallel.py:831-869 | the format: seven header entries, two shapes, and the record of task k at the offset where a plan of k tasks would end, field by field |
| `VaePlan.FlattenedPairs` | parallel/vae_parallel.py:847-850 | ranges stand in the vector as start, end, start, end |
| `CacheRuns.RunBoth` | utils/video_io.py:930-1301 | the chunked and the flat cache, given any list of calls, hold the same start index and frames and give the same replies, for every way of cutting frames into chunks |
| `CacheRuns.CallBoth` | utils/video_io.py:930-1301 | one call on both caches keeps them equal and answers alike |
| `CacheRuns.ChunkedCall` | utils/video_io.py:1041-1301 | every call on the chunked cache has the specified effect and reply; blocks handed out leave its storage, and it only ever acquires fresh buffers |
| `CacheRuns.ArrayCall` | utils/video_io.py:930-1038 | every call on the flat cache has its own specified effect, wrapping fills included |
| `CacheRuns.FlatCallsAgree` | utils/video_io.py:1010-1025 | which is the chunked one unless a fill wraps around |
| `CacheRuns.Serve` | utils/video_io.py:1242-1271 | after any list of calls the blocks popped on the way still hold exactly the frames popped, in order, and share no storage with the cache |
| `CacheRuns.ServeOne` | utils/video_io.py:1242-1271 | no single call changes blocks popped earlier |
| `CacheRuns.ServeRequests` | utils/video_io.py:1091-1115 | after any list of calls, borrowings and detachments the blocks handed out, popped ones and released heads alike, still hold the frames they had when they left, in order, and share no storage with the cache |
| `CacheRuns.ServeRequest` | utils/video_io.py:1091-1115 | one request leaves earlier blocks alone; a detachment succeeds exactly when the borrowed block is still the head and the frontier lies in it |
| `CacheRuns.Release` | utils/video_io.py:1101-1115 | a released head leaves the storage with the frames it has at that moment |
| `CacheMeaning.CacheRemembers` | utils/video_io.py:1041-1301 | after any list of calls the cache holds, at each absolute index, the frame appended there with the overwrites and fills that concerned it since, from the lowest index not taken away to the last appended |
| `CacheMeaning.RepliesAreRemembered` | utils/video_io.py:1117-1271 | a slice succeeds exactly inside that range and a pop exactly up to its end, and they give the frames left at those indices |
| `CacheMeaning.WriterGetsEveryFrame` | utils/video_io.py:1242-1271 | where frames leave only by owned pops, the writer is given every frame below the cache once and in order, each with all changes made before it was popped |
| `FrameCache.ChunkedFrameCache.Append` | utils/video_io.py:1056-1069 | appends copies: only fresh storage is added |
| `FrameCache.ChunkedFrameCache.AppendOwned` | utils/video_io.py:1071-1089 | appends the given block itself; storage grows by exactly its buffer |
| `FrameCache.ChunkedFrameCache.BorrowHead` | utils/video_io.py:1091-1099 | gives the head chunk exactly when the asked range is the head's own range |
| `FrameCache.ChunkedFrameCache.DetachBorrowedHead` | utils/video_io.py:1101-1115 | releases the head when it is the borrowed one: its buffer leaves the storage, the retained tail is a fresh copy, later frames stay |
| `FrameCache.ChunkedFrameCache.Slice` | utils/video_io.py:1117-1124 | a fresh block with the frames asked for, or a refusal outside the held range |
| `FrameCache.ChunkedFrameCache.SliceInto` | utils/video_io.py:1126-1164 | fills the caller's block with the (cropped) frames, and changes nothing on refusal |
| `FrameCache.ChunkedFrameCache.DiscardBefore` | utils/video_io.py:1166-1188 | drops the frames before an index, copying only the kept tail of one chunk |
| `FrameCache.ChunkedFrameCache.Overwrite` | utils/video_io.py:1190-1212 | writes in place across chunks, exactly on the given range, and leaves the source block alone |
| `FrameCache.ChunkedFrameCache.FillRegion` | utils/video_io.py:1214-1240 | fills the box in exactly the given frames, in place across chunks |
| `FrameCache.ChunkedFrameCache.PopBeforeOwned` | utils/video_io.py:1242-1271 | hands out blocks holding exactly the frames before the index; no block shares storage with what stays |
| `FrameCache.ChunkedFrameCache.PopBefore` | utils/video_io.py:1273-1301 | a fresh block with the frames before the index |
| `FrameCache.ArrayFrameCache.Append` | utils/video_io.py:945-959 | concatenates |
| `FrameCache.ArrayFrameCache.AppendOwned` | utils/video_io.py:961-987 | takes the block itself only when it is empty |
| `FrameCache.ArrayFrameCache.Slice` | utils/video_io.py:989-996 | a copy of the frames asked for |
| `FrameCache.ArrayFrameCache.Overwrite` | utils/video_io.py:998-1008 | writes the range in place |
| `FrameCache.ArrayFrameCache.FillRegion` | utils/video_io.py:1010-1025 | fills what Python's slice selects, which wraps around for an end before the cache |
| `FrameCache.ArrayFrameCache.PopBefore` | utils/video_io.py:1027-1038 | splits the array |
| `Frames.FillsAgreeExactly` | utils/video_io.py:1010-1025 | for given bounds, the two caches fill alike, whatever they hold and whatever is filled, if and only if the flat cache's slice does not wrap around |
| `Frames.WrappedFillDiffers` | utils/video_io.py:1019-1025 | a concrete cache and fill on which the two differ, for every wrapping range |
| `Frames.SliceAfterOverwrite` | utils/video_io.py:989-1008 | an overwrite is visible in a later slice exactly where the ranges meet |
| `Frames.CropKeepsShape` | utils/video_io.py:1126-1164 | cropped frames have the shape of the box within the frame |
| `Frames.FillKeepsShape` | utils/video_io.py:1214-1240 | filling a box keeps the shape of a frame |
| `Frames.FilledPixels` | utils/video_io.py:1214-1240 | after a fill every channel of a pixel has the value exactly when its frame is in the range and its row and column are in the box's slices; all other pixels are as before |
| `Frames.FilledBox` | utils/video_io.py:1233-1237 | for a box inside the frames, by plain comparisons with x, y, width and height |
| `Frames.ArrayFilledPixels` | utils/video_io.py:1010-1025 | the flat cache fills the same pixels of the frames that Python's slice selects |
| `Frames.CroppedPixels` | utils/video_io.py:1126-1164 | a cropped frame has the rows and columns of the box's slices, pixel by pixel |
| `Frames.CroppedBox` | utils/video_io.py:1126-1164 | for a box inside the frame, pixel (r, c) of the crop is the frame's pixel (y + r, x + c) |
| `Frames.PopSplits` | utils/video_io.py:1027-1038 | popping neither loses nor repeats a frame |
| `Frames.PopInSteps` | utils/video_io.py:1242-1271 | popping twice is popping once |
| `Frames.FlatOfMapped` | utils/video_io.py:1190-1240 | updating each chunk at its own offset updates the concatenation at the global offset |
| `AsyncWriter.WrittenIsAPrefix` | utils/video_io.py:786-825 | in every interleaving the bytes written are a prefix of the bytes accepted, and the queue never exceeds its depth |
| `AsyncWriter.NothingAfterAnError` | utils/video_io.py:794-808 | after the first error nothing more is written, whatever happens later |
| `AsyncWriter.NormalCloseHasWritten` | utils/video_io.py:903-927 | a close that returns normally means no error, and that the accepted bytes are the written ones followed by those put after the thread had ended |
| `AsyncWriter.NormalCloseIsComplete` | utils/video_io.py:903-927 | a close that returns normally has everything written if and only if no write with bytes was accepted after an earlier close had come to its end |
| `AsyncWriter.LateIsAfterClose` | utils/video_io.py:817-927 | the lost bytes of any run are exactly those of the writes accepted after a completed close |
| `AsyncWriter.FirstCloseIsComplete` | utils/video_io.py:903-927 | a first close that returns normally has written everything |
| `AsyncWriter.LateMeansAfterAClose` | utils/video_io.py:817-927 | bytes are lost if and only if some write with bytes was accepted after a close had come to its end |
| `AsyncWriter.LateWritesAreLost` | utils/video_io.py:873-927 | the counterexample: close, write, close returns normally although the write was accepted and never written |
| `AsyncWriter.AcceptedIsOffered` | utils/video_io.py:871-901 | the bytes accepted in any run are the blocks the caller passed to its accepted writes, read off the list of actions alone |
| `AsyncWriter.WrittenIsOffered` | utils/video_io.py:786-901 | the bytes written are a prefix of the bytes the caller offered |
| `AsyncWriter.CloseWritesWhatWasOffered` | utils/video_io.py:903-927 | a close that returns normally has written all bytes the caller offered if and only if none was offered after an earlier close had ended |
| `AsyncWriter.CallsReturnTheirOutcome` | utils/video_io.py:871-927 | a write call returns normally exactly when its frames are valid and no error was pending, and then all its bytes were accepted or it had none; otherwise it raises and nothing of it is accepted |
| `AsyncWriter.CloseReturnsWhenClean` | utils/video_io.py:903-927 | a close returns normally exactly when no error is recorded and the encoder ended well or an earlier close had already waited for it |
| `AsyncWriter.ProducerWaits` | utils/video_io.py:817-914 | an item is put exactly while the queue has room and times out exactly while it has none; join waits for the thread's end |
| `AsyncWriter.CallsCanEnd` | utils/video_io.py:817-927 | the pending call of any reachable state can end if and only if it is not a write into a full queue whose thread has ended without an error |
| `AsyncWriter.CanEnd` | utils/video_io.py:786-927 | from every other state the call ends within a number of actions given by the work at hand |
| `AsyncWriter.StuckForEver` | utils/video_io.py:817-825 | such a write stays stuck whatever happens |
| `AsyncWriter.LateWriteIsStuck` | utils/video_io.py:817-825 | a real input: a second write after close, into a queue of one, is stuck |
| `AsyncWriter.ProgressEnds` | utils/video_io.py:786-927 | every action that completes part of a call or of the consumer uses up work; a put that times out adds one unit back, a sentinel that times out changes nothing |
| `AsyncWriter.ProgressIsBounded` | utils/video_io.py:786-927 | while no call starts, the completed actions are at most the work at hand and one per timed-out put |
| `ScanReader.OpenMaskReaderWithScan` | utils/video_io.py:2057-2102 | the exact maximum of the first frames, and a reader that will deliver the stream from its start at logical position 0: the scanning one behind its first chunk where that chunk decides the scan, and a new one elsewhere; it raises exactly when the scan does |
| `ScanReader.ReadBoth` | utils/video_io.py:2016-2054 | a primed reader answers every sequence of read sizes, failing ones included, as a fresh reader of the same stream does, at the same logical positions |
| `ScanReader.PrimedVideoReader.ReadFrames` | utils/video_io.py:2032-2050 | one read of prefix and pipe is one read of their concatenation |
| `ScanReader.VideoReader.ReadFrames` | utils/video_io.py:559-599 | one read of the decoder: nothing, the next frames, or a short read that raises |
| `ScanReader.WholeScanIsExact` | utils/video_io.py:2105-2124 | whatever the chunk size, stopping at 255 finds the maximum over all frames |
| `ScanReader.WholeShortScan` | utils/video_io.py:2105-2124 | a stream that is too short raises, unless 255 occurs in the whole chunks before its end |
| `ScanReader.MaxOfIsMaximum` | utils/video_io.py:2115-2121 | the scanned value bounds every pixel and is one of them |
| `ScanReader.ReadMaskMax` | utils/video_io.py:2105-2124 | agrees with the scanning reader's maximum, with its degenerate counts and steps |
| `TeaCache.EveryRunKeepsInv` | cache/teacache.py:126-276 | the invariant of a branch over every list of calls, in any order and with any arguments |
| `TeaCache.AccumulatedIsTheSum` | cache/teacache.py:187-276 | the accumulated distance is the sum of the estimates since the last compute and stays below the threshold; consecutive skips never exceed the limit |
| `TeaCache.ReuseIsSound` | cache/teacache.py:230-253 | a reused residual is that of the last computed step, of the same layout; every step since was skipped, and the reuse lies outside warm-up and end guard |
| `TeaCache.SkipsAreBounded` | cache/teacache.py:369-394 | a window's steps are at most (M + 1) times its computed ones |
| `TeaCache.ReasonsAreCounted` | cache/teacache.py:217-220 | every computed step was forced by exactly one counted reason |
| `TeaCache.SkipIsBySum` | cache/teacache.py:187-213 | without a reason to compute, a check skips if and only if the estimates of the steps skipped since the last compute plus max(0, c_0 d^(n-1) + ... + c_(n-1)) stay below the threshold, where d = sum |x_i - y_i| / max(sum |y_i|, 1e-12) for the input y of the step before; a value that is not finite computes |
| `TeaCache.ReasonsToCompute` | cache/teacache.py:369-394 | the reasons to compute exclude each other and are looked for in this order |
| `TeaCache.ForcedComputes` | cache/teacache.py:188-191 | a check with a reason to compute computes for that reason, and a calibrating one always |
| `TeaCache.AnswerIsCarriedOut` | cache/teacache.py:230-276 | after an answered check exactly the call it asks for completes the step: a reuse gives the last computed residual, keeps the accumulated distance and counts the estimate answered; a record keeps its own residual |
| `TeaController.TeaCacheController.constructor` | cache/teacache.py:76-120 | both branches start fresh |
| `TeaController.TeaCacheController.Check` | cache/teacache.py:126-228 | moves one branch by the specified check, keeps a first coefficient selection, and leaves the other branch alone |
| `TeaController.TeaCacheController.ApplyCachedUpdate` | cache/eraserdit_prediction.py:103-106 | moves one branch by the specified reuse, with the forecast on top |
| `TeaController.TeaCacheController.RecordCompute` | cache/eraserdit_prediction.py:91-101 | moves one branch by the specified record and trains its predictor |
| `TeaController.TeaCacheController.Totals` | cache/teacache.py:299-367 | the totals count the completed steps of both branches and keep the skip bound |
| `TeaController.TeaCacheController.Close` | cache/teacache.py:288-297 | the first close returns the report of the window as it stands (steps, forced reasons, predictions, selection, reason), drops every tensor and keeps what is reported; later closes return that first report and change nothing |
| `TeaController.VelocityIsASlope` | cache/eraserdit_prediction.py:34-44 | over any run the velocity is the slope between the last two real computes, with one layout |
| `TeaController.ForecastIsBounded` | cache/eraserdit_prediction.py:46-54 | a forecast differs from plain reuse by at most the last observed residual change, componentwise, and never raises for its shape |
| `TeaController.ForecastIsExact` | cache/eraserdit_prediction.py:46-54 | on residuals that move at a constant rate the forecast is the true output while the gap fits the observed interval |
| `Forecast.LearnKeeps` | cache/eraserdit_prediction.py:34-44 | learning keeps the predictor tied to the list of real computes |
| `Forecast.PredictionIsBounded` | cache/eraserdit_prediction.py:46-54 | the componentwise bound, for any learned state |
| `Forecast.AffineIsExact` | cache/eraserdit_prediction.py:46-54 | exactness on an affine trajectory, for any learned state |
| `Forecast.LongGapIsOneChange` | cache/eraserdit_prediction.py:46-54 | over a gap of at least the observed interval the forecast is the last residual plus exactly one observed change |
| `Forecast.ShortGapIsAPart` | cache/eraserdit_prediction.py:46-54 | over a shorter gap it is the part of that change which the gap is of the interval |
| `Forecast.VelocityIsLearned` | cache/eraserdit_prediction.py:34-44 | in linear mode a compute leaves a velocity if and only if it follows the last one unbroken, with its layout and shape; without a velocity nothing is added |
| `TeaController.ComputeLearns` | cache/eraserdit_prediction.py:34-101 | over any run, a recorded compute leaves a velocity if and only if the mode is linear, the layout and shape are those of the last compute and no changed layout or gap forced it |
| `TeaController.ForecastIsPartOfChange` | cache/eraserdit_prediction.py:46-106 | over any run, what a reuse adds to the last residual |
| `TeaController.PredictedAreCounted` | cache/eraserdit_prediction.py:46-61 | the reported predictions are the reuses that were given a forecast |
| `CacheDit.EveryRunKeepsInv` | cache/cache_dit.py:141-307 | the invariant of a branch over every list of calls |
| `CacheDit.ReuseIsSound` | cache/cache_dit.py:247-258 | a reused middle residual is the last computed one, of the same layout, exactly continuous + 1 steps back, which never exceeds the limit, outside warm-up and end guard |
| `CacheDit.SavedBlocks` | cache/cache_dit.py:326-345 | executed blocks are completed steps times all blocks minus cached steps times middle blocks |
| `CacheDit.CachedAreBounded` | cache/cache_dit.py:403-432 | cached steps are at most the limit times the computed ones, and every compute has one counted reason |
| `CacheDit.VelocityIsASlope` | cache/eraserdit_prediction.py:109-119 | the velocity is the slope between the last two middle computes, with one layout |
| `CacheDit.ForecastIsBounded` | cache/eraserdit_prediction.py:121-124 | a forecast stays within the last observed change of the middle residual |
| `CacheDit.ReuseIsByDistance` | cache/cache_dit.py:206-229 | without a reason to compute, a check reuses if and only if sum |probe_i - kept_i| < threshold * max(sum |kept_i|, 1e-12) for the front change kept at the last computed step, and the quotient is finite; a changed shape raises |
| `CacheDit.ReasonsToCompute` | cache/cache_dit.py:403-432 | the reasons to compute exclude each other and are looked for in this order |
| `CacheDit.ForcedComputes` | cache/cache_dit.py:212-213 | a check with a reason to compute computes for that reason |
| `CacheDit.AnswerIsCarriedOut` | cache/cache_dit.py:247-307 | after an answered check exactly the calls it asks for complete the step: a reuse adds the last computed residual, a record keeps its own |
| `CacheDit.ComputeLearns` | cache/eraserdit_prediction.py:34-119 | over any run, a recorded middle leaves a velocity if and only if the mode is linear, the layout and shape are those of the last compute and no changed layout or gap forced it |
| `CacheDit.ForecastIsPartOfChange` | cache/eraserdit_prediction.py:46-124 | over any run, what a reuse adds to the last residual |
| `Tensors.RelativeL1IsQuotient` | cache/consensus.py:39-89 | the relative distance is the sum of the absolute differences divided by the sum of the absolute reference values, at least 1e-12 |
| `Tensors.PolynomialIsSum` | cache/teacache.py:530-534 | Horner's scheme gives the sum of coefficients times powers, the highest first |
| `Blocks.BlocksInOrder` | models/dits/eraserdit_transformer.py:528-547 | a range of blocks applies each block once, in order |
| `DitController.CacheDitController.Check` | cache/cache_dit.py:141-245 | moves one branch by the specified check |
| `DitController.CacheDitController.ApplyCachedMiddle` | cache/eraserdit_prediction.py:121-124 | the specified reuse, with the forecast on top |
| `DitController.CacheDitController.RecordMiddleCompute` | cache/eraserdit_prediction.py:109-119 | moves one branch by the specified record and trains its predictor |
| `DitController.CacheDitController.CompleteStep` | cache/cache_dit.py:282-307 | moves one branch by the specified completion |
| `DitController.CacheDitController.BranchBlocks` | cache/cache_dit.py:326-345 | the reported block counts are those of the branch's own calls |
| `DitController.RunStep` | cache/eraserdit.py:138-174 | one client step makes exactly the specified calls and gives the specified output |
| `DitController.ComputedIsUncached` | cache/eraserdit.py:162-174 | a step whose middle was computed gives what the uncached blocks give |
| `DitController.ReusedStep` | cache/eraserdit.py:138-174 | a step whose middle is reused runs the front blocks, adds the last computed residual with its forecast, and runs the back blocks; only a residual of another shape stops it |
| `DitController.ComputedStep` | cache/eraserdit.py:138-174 | a step whose middle is computed succeeds, with one check, one record and one completion |
| `DitController.ComputedRunIsUncached` | cache/eraserdit.py:138-174 | in every run of client steps, from any state and with any steps and layouts, each step that succeeds on a computed decision gives exactly the uncached block composition |
| `DitController.RunWindow` | cache/eraserdit.py:138-174 | running a list of steps on the controller makes exactly the specified calls and gives the specified outputs and decisions |
| `DitController.ComputedOutputs` | cache/eraserdit.py:138-174 | so the outputs of the steps it decided to compute are those of the uncached blocks |
| `DitController.ForcedIsComputed` | cache/eraserdit.py:162-174 | a step with a forced reason succeeds, is computed and counted |
| `DitController.RunForcedWindow` | cache/eraserdit.py:138-174 | a window with a warm-up over all its steps succeeds, computes every step and gives, step by step, the uncached block composition |
| `Consensus.MismatchFound` | cache/consensus.py:115-129 | the moment test fires exactly when the decision codes are not all equal |
| `Consensus.MomentsTellEquality` | cache/consensus.py:115-129 | for any number of integer codes the moment difference is never negative, and at least 1 unless all are equal |
| `Consensus.GroupDistanceIsWhole` | cache/consensus.py:58-89 | the reduced distance of the shards is the distance of the whole sequences |
| `Lockstep.GroupsStayInLockstep` | cache/teacache.py:126-276 | over any list of calls the ranks never part or see a mismatch, and hold the decision state of one controller on the whole sequence and the shards of its tensors |
| `Lockstep.GroupsAnswerAsOne` | cache/teacache.py:126-276 | each next call is answered by every rank as the one controller answers it; reused outputs are the shards of its output |
| `Lockstep.CheckLockstep` | cache/teacache.py:126-228 | a group check takes the one controller's decision over one list of collectives |
| `Lockstep.ReasonsAreCompared` | cache/teacache.py:58-70 | for ranks in any states, the decision test lets the decisions pass if and only if all ranks have the same reason |
| `Lockstep.DivergesExactly` | cache/teacache.py:126-228 | an admitted check of ranks in any states hangs if and only if one rank goes on to the distance all-reduce and another does not |
| `Lockstep.InvalidContextRaises` | cache/consensus.py:91-113 | one rank with an invalid context makes all raise, and changes nothing |
| `LockstepForecasts.PredictorsStayInStep` | cache/eraserdit_prediction.py:91-101 | over any list of calls every rank's predictor is its shard of the one controller's predictor |
| `LockstepForecasts.GroupsForecastAsOne` | cache/eraserdit_prediction.py:103-106 | a reuse returns on every rank its shard of the one controller's output, forecast included, and no rank raises |
| `DitLockstep.GroupsStayInLockstep` | cache/cache_dit.py:141-307 | the same for Cache-DiT |
| `DitLockstep.GroupsAnswerAsOne` | cache/cache_dit.py:141-307 | the same for Cache-DiT |
| `DitLockstep.CheckLockstep` | cache/cache_dit.py:141-245 | the same for a Cache-DiT check |
| `DitLockstep.ReasonsAreCompared` | cache/cache_dit.py:62-73 | the same for Cache-DiT |
| `DitLockstep.DivergesExactly` | cache/cache_dit.py:141-245 | the same for Cache-DiT |
| `DitLockstep.InvalidContextRaises` | cache/consensus.py:91-113 | the same for Cache-DiT |
| `DitLockstepForecasts.PredictorsStayInStep` | cache/eraserdit_prediction.py:109-119 | the same for the predictors of Cache-DiT |
| `DitLockstepForecasts.GroupsForecastAsOne` | cache/eraserdit_prediction.py:121-124 | the same for the forecasts of Cache-DiT |
| `ForecastShards.LearnInStep` | cache/eraserdit_prediction.py:34-44 | predictors that learn from the shards of one residual stay the shards of one predictor |
| `ForecastShards.PredictInStep` | cache/eraserdit_prediction.py:46-54 | their forecasts are the shards of the one forecast |
| `Topology.CoordinatesOf` | config/dit_parallel.py:63-70 | the mixed-radix digits of a rank, refused outside the world |
| `Topology.RankOf` | config/dit_parallel.py:72-79 | the rank of digits, refused where one is out of range |
| `Topology.RankAndCoordinatesAreInverse` | config/dit_parallel.py:63-79 | the two undo each other for all sizes of the five axes |
| `Topology.Groups` | config/dit_parallel.py:81-88 | the dictionary, filled rank by rank, gives ascending groups of the axis's degree with every rank in exactly one |
| `Topology.GroupsPartition` | config/dit_parallel.py:81-88 | however the dictionary names them, its groups partition the ranks, and a rank's group is where its index varies along the axis |
| `Topology.KeyGroup` | config/dit_parallel.py:81-88 | a rank's group, collected by key, is the arithmetic progression along the axis |
| `Topology.SpIndex` | distributed/dit_groups.py:20-32 | a rank's index in its SP group is its Ulysses index plus the Ulysses size times its ring index |
| `Topology.ResolvedWorld` | config/dit_parallel.py:91-118 | an accepted topology keeps the SP degree, and an accepted FSDP mesh fills the world exactly |
| `Topology.ResolvesLegalDegrees` | config/dit_parallel.py:91-118 | the degrees that are resolved, in numbers, and what they become: ring mode takes the whole SP degree, an unset Ulysses degree is the quotient, replicas fill the FSDP mesh |
| `Sharding.PlanSequenceShards` | parallel/sequence_sharding.py:75-119 | plans exist exactly for legal arguments, and each passes its own checks |
| `Sharding.PlansAreAccepted` | parallel/sequence_sharding.py:26-68 | every produced plan satisfies all checks of its class |
| `Sharding.PaddingIsShort` | parallel/sequence_sharding.py:96-109 | the shards cover the sequence with less padding than the degree |
| `Sharding.PieceIs` | parallel/sequence_sharding.py:122-178 | rank r's piece holds the elements from r times the local length on |
| `Sharding.ValidRangesPartition` | parallel/sequence_sharding.py:98-119 | the valid ranges follow each other and end at the global length |
| `Sharding.Scatter` | parallel/sequence_sharding.py:122-178 | what the ranks receive are the consecutive pieces of the zero-padded sequence |
| `Sharding.Gather` | parallel/sequence_sharding.py:181-218 | joining and trimming |
| `Sharding.RoundTrip` | parallel/sequence_sharding.py:122-218 | gather after scatter gives the owner's sequence |
| `Sharding.GatherVariable` | distributed/dit_groups.py:49-75 | padding to the longest, gathering and cutting back joins shards of unequal length; wrong known lengths raise |
| `Sharding.LocalIsASlice` | layers/dit_tensor_parallel.py:31-41 | a rank's output is its columns of the full output, in reference and in sharded mode |
| `Sharding.LinearIsAffine` | layers/dit_tensor_parallel.py:31-41 | the layer takes 0 to the bias and unit input k to weight column k plus the bias, and is affine |
| `Sharding.BoundsAreEven` | layers/dit_tensor_parallel.py:16-29 | columns are cut at the fractions rank / degree of the width, so that counts differ by at most one |
| `Sharding.OutputsAreFull` | layers/dit_tensor_parallel.py:31-42 | all ranks' columns join to the full output |
| `Sharding.GatheredForward` | layers/dit_tensor_parallel.py:16-42 | building the layer on all ranks and running forward: a layer narrower than the degree is refused, and otherwise the gathered columns are the full layer's output in both modes |
| `Sharding.BuildShards` | layers/dit_tensor_parallel.py:16-29 | construction fails exactly when some rank would have no columns, and otherwise knows the lengths of all shards |
| `Sharding.LengthsAreKnown` | layers/dit_tensor_parallel.py:25-26 | the lengths known from the bounds are those of the local outputs, in both modes |
| `Sharding.ShardsAreNonEmpty` | layers/dit_tensor_parallel.py:19-22 | no shard is empty if and only if the layer is at least as wide as the degree |
| `Windowing.NormalizeSceneSpecs` | utils/windowing.py:107-128 | the scenes of all entries, or the refusal of the first bad one |
| `Windowing.ScenesFit` | utils/windowing.py:107-128 | normalized scenes are non-empty and lie inside the video |
| `Windowing.ScenesAreEntries` | utils/windowing.py:107-128 | entries are refused if and only if one has not two items; otherwise the scenes are those of the usable entries, in order, with their start and length cut to the video |
| `Windowing.BuildWindowSpecs` | utils/windowing.py:131-183 | the loop ends for all settings it accepts, with the windows of all scenes |
| `Windowing.AppendScene` | utils/windowing.py:151-182 | the inner loop appends the windows of one scene |
| `Windowing.SceneIsTiled` | utils/windowing.py:147-181 | the committed ranges of a scene are consecutive, disjoint and cover it exactly |
| `Windowing.WindowsLoadWell` | utils/windowing.py:147-181 | load ranges stay inside the video and hold at most one inference |
| `Windowing.OverlapIsCommitted` | utils/windowing.py:147-181 | every later window loads exactly the overlap of already committed frames and never starts before its scene |
| `Windowing.WindowCount` | utils/windowing.py:147-181 | the number of windows of a scene |
| `Windowing.WindowIs` | utils/windowing.py:147-182 | every field of window k in closed form: the first commits one inference, each later one starts where the one before ended, loads the overlap before it and fills its inference as far as the video goes |
| `Windowing.IndicesCount` | utils/windowing.py:131-183 | window indices count through all scenes, and all windows load well |
| `Latents.UnpackUndoesPack` | pipelines/eraserdit_video2video.py:455-488 | unpack undoes pack if and only if the patch sizes divide the axes; a divisible tensor is refused exactly when it is empty along batch, frames, height or width |
| `Latents.UnevenPackIsAccepted` | pipelines/eraserdit_video2video.py:461-475 | a tensor that is no multiple of its patches is packed with a wrong channel count and does not come back |
| `Latents.PackUndoesUnpack` | pipelines/eraserdit_video2video.py:455-488 | pack undoes unpack if and only if the tokens are counted by the sizes given |
| `Latents.PackedElement` | pipelines/eraserdit_video2video.py:471-474 | each element of the video tensor, with its patch as token and its channel and place in the patch as feature |
| `Latents.UnpackOfPack` | pipelines/eraserdit_video2video.py:455-488 | unpacking a packed tensor restores its patches even for sizes that do not divide |
| `Latents.PermuteBack` | pipelines/eraserdit_video2video.py:474-487 | permuting by an order and by its inverse changes nothing, for any rank and shape |
| `CpuSets.CompressCpuSet` | utils/cpu_resources.py:160-173 | prints the maximal runs of a list, and refuses the empty one |
| `CpuSets.ParseCpuSet` | utils/cpu_resources.py:49-79 | accepts exactly the texts that denote a non-empty set, and gives its CPUs in ascending order |
| `CpuSets.TokenGrammar` | utils/cpu_resources.py:51-76 | an item is accepted if and only if it is, within spaces, one number or two around a dash, the second not smaller, and means that number or range |
| `CpuSets.ListIsItsItems` | utils/cpu_resources.py:49-79 | a list is accepted if and only if all its items are, and holds exactly their CPUs |
| `CpuSets.ReadOfPrint` | utils/cpu_resources.py:49-173 | the printed text of an increasing list denotes exactly its CPUs |
| `CpuSets.RoundTrip` | utils/cpu_resources.py:49-173 | parsing undoes printing on increasing lists |
| `CpuMaps.ParseCpuAffinityMap` | utils/cpu_resources.py:82-120 | accepts exactly the maps that list every rank once with its own CPUs, and gives their sets |
| `CpuMaps.AcceptedAreDisjoint` | utils/cpu_resources.py:82-120 | no CPU of an accepted map belongs to two ranks |
| `CpuMaps.AssignmentGrammar` | utils/cpu_resources.py:93-100 | an assignment is a decimal rank and an item around one equals sign, each within spaces |
| `CpuMaps.AffinitiesAreAccepted` | utils/cpu_resources.py:82-120 | affinities are accepted if and only if the items that are not blank give different ranks below the world size CPUs of their own, and hold exactly what they say |
| `CpuMaps.NumbersAreAccepted` | utils/cpu_resources.py:123-142 | a map of numbers is accepted if and only if its items number different ranks below the world size, and holds exactly what they say |
| `CpuMaps.AffinityMapRoundTrip` | utils/cpu_resources.py:82-120 | a printed map of non-empty disjoint lists is accepted and means these lists |
| `CpuMaps.NumberMapRoundTrip` | utils/cpu_resources.py:123-142 | a printed map of numbers is accepted and means these numbers |
| `CpuPlan.NodeCpusAreSorted` | utils/cpu_resources.py:220-239 | a node's list is increasing and holds exactly its rows' CPUs |
| `CpuPlan.FirstRowsAreFirst` | utils/cpu_resources.py:220-236 | one row is kept for every physical core: that of the first line which names its core, socket and node, in the order of the lines |
| `CpuPlan.RowIsReadBack` | utils/cpu_resources.py:220-229 | a line of four printed numbers, with anything after a further comma, is read as CPU, core, socket and node |
| `CpuPlan.PlannableInNumbers` | utils/cpu_resources.py:268-294 | with n ranks and k cores on a node, planning fails if and only if for some node that carries ranks k = 0, or a request t has t n > k, or rank 0 is among several ranks and k < 4 n, or there are fewer cores than ranks |
| `CpuPlan.SharesInNumbers` | utils/cpu_resources.py:270-304 | a share has the requested t cores; or 4, and rank 0's k - 4 (n - 1), where rank 0 is among several ranks of the node; or else s cores with n s <= k < n (s + 1) |
| `CpuPlan.SharesAscend` | utils/cpu_resources.py:296-304 | lower ranks of a node have its lower cores |
| `CpuPlan.NoCoreIsPassedOver` | utils/cpu_resources.py:296-304 | every core of the node below a given one is given to a rank of the node |
| `CpuPlan.BudgetsFit` | utils/cpu_resources.py:270-294 | the budgets of a node, uniform or writer-weighted, never exceed its cores and are never zero |
| `CpuPlan.ShareIsItsBudget` | utils/cpu_resources.py:296-304 | a share has as many cores as threads, is non-empty, and lies on the rank's node |
| `CpuPlan.SharesAreDisjoint` | utils/cpu_resources.py:296-304 | no two ranks share a core |
| `CpuPlan.PlanShares` | utils/cpu_resources.py:268-304 | planning succeeds exactly when every node has cores enough, with the planned shares |
| `CpuPlan.PlanEnvironment` | utils/cpu_resources.py:242-327 | the whole planner: when it fails and what it prints |
| `CpuPlan.PlanIsReadBack` | utils/cpu_resources.py:306-327 | every printed plan is accepted by its own parsers and means the planned shares: non-empty, pairwise disjoint, thread count equal to set size |
| `PlainText.ParseOfPrint` | utils/cpu_resources.py:160-173 | decimal printing and parsing of numbers |
| `PlainText.SplitOfJoin` | utils/cpu_resources.py:92-100 | splitting undoes joining where no part holds the separator |
| `PlainText.JoinOfSplit` | utils/cpu_resources.py:92-100 | joining undoes splitting, and no part holds the separator |
| `PlainText.StripTakesSpaces` | utils/cpu_resources.py:51-53 | stripping takes spaces from both ends, and all of them |
| `PlainText.StripBetween` | utils/cpu_resources.py:51-53 | and nothing else |

## Left out

- Transfers and the broadcast do not fail in the engine model: only plan, materialize, execute, merge and drain code raises. The VAE group is taken to be the control group.
- The code between the agreed phases (allocating `local_input` and `local_output`, releasing caches, collecting metrics) does not raise either; an exception there, which peers would not see, is the `Crashed` outcome that `RanksAgree` shows never to come from the protocol itself.
- Tensor dtypes, devices and byte counts: a callback that returns a wrong dtype or device counts as failing. Timings, memory snapshots and the remaining metrics have no model.
- The plan digest is an arbitrary function of the vector; that equal digests mean equal plans is not assumed, the later comparison of plans is modelled instead.
- VaeSteps.StepStays: one step covers all local work between two blocking calls, because ranks share nothing else.
- Frame values, numpy views that are not contiguous or not writable, and broadcasting in `overwrite` of frames with another shape: blocks are windows on buffers with matching frame shapes.
- FrameCache.ChunkedFrameCache.Overwrite: asks for frames of the cache's own shape and from a buffer outside the cache, because aliasing source and target is left to numpy there.
- FrameCache.ArrayFrameCache.Overwrite: as for the chunked cache.
- CacheRuns.RunBoth: excludes fills that wrap around, where the two caches differ.
- CacheRuns.CallBoth: as RunBoth.
- CacheRuns.ServeRequests: whether a detachment succeeds depends on the chunks, not on the frames held; `ServeRequest` says when.
- AsyncWriter.WrittenIsAPrefix: covers the owned-write calls and `close`; the synchronous `write_frames` writes past the queue and has no order to keep.
- FFmpeg processes and their exit codes: a decoder is a frame sequence, an encoder an output log that may fail at any block.
- ScanReader.OpenMaskReaderWithScan: frames carry their red values only; channel extraction, checkpoints and the statistics dictionary have no model.
- Rounding: distances, residuals and forecasts are exact reals; a parameter says which values the float arithmetic calls finite.
- Operations that torch would broadcast (a residual with another shape) count as raising in the controllers.
- The TeaCache branch of the client's `_run`: it makes one check and one reuse or record, all modelled, and adds nothing of its own.
- TeaController.TeaCacheController.Close: of the report, the counters, reasons and selection are modelled; ratios, identifiers and consensus counters are not.
- The region-wise probe metric, `residual_diffs`, the probe trace, decision timings and the aggregate rank reports.
- Lockstep.GroupsStayInLockstep: every rank calls with the same step and layout, its layout signature identifies the whole layout and fixes its shard's length, and reductions are exact. DiT groups run the same Python call on each rank.
- DitLockstep.GroupsStayInLockstep: as for TeaCache; front blocks keep the shape of a shard.
- Process-group creation, sharing of communicators and the first all-reduce in `DiTGroups.__init__`; only the group and index of a rank are modelled.
- Sharding.GatherVariable: one dimension, gathered on all ranks; a destination-only gather returns the same value on one rank. A layer without bias is one with a zero bias.
- Sharding.Scatter: collectives are one atomic step, sequences have one dimension; type and device checks of tensors are preconditions.
- Latents.UnpackUndoesPack: sizes are naturals; negative sizes, which torch refuses, do not occur.
- CpuPlan.PlanEnvironment: starts from the NUMA node of each rank's GPU and the text of `lscpu`; the environment lookups, GPU identifiers and the GPU topology table are parameters.
- CpuSets.ParseCpuSet: digits and white space are ASCII, the separators 0x1C to 0x1F included; Python's `isdecimal` and `strip` also know other Unicode characters.
- WindowedVideoStore, TensorFrameCache, the HTTP service, loaders, registries and the model numerics.
