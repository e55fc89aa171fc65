/**
 * The VAE task plan of parallel/vae_parallel.py: what a valid plan is, and the
 * flat int64 codec that broadcasts it from the owner to every rank.
 */
module VaePlan {
  import opened Wrappers

  datatype Operation = ENCODE | DECODE

  datatype TaskSpec = TaskSpec(
    taskId: int,
    assignedRank: int,
    inputSlices: seq<(int, int)>,
    validOutputSlices: seq<(int, int)>,
    paddedInputShape: seq<int>,
    paddedOutputShape: seq<int>,
    estimatedCost: int)

  datatype TaskPlan = TaskPlan(
    operation: Operation,
    ownerRank: int,
    globalInputShape: seq<int>,
    globalOutputShape: seq<int>,
    tasks: seq<TaskSpec>,
    rounds: int)

  const SCHEMA_VERSION := 1
  const INT64_MIN := -0x8000_0000_0000_0000
  const INT64_MAX := 0x7FFF_FFFF_FFFF_FFFF

  predicate FitsInt64(values: seq<int>) {
    forall i | 0 <= i < |values| :: INT64_MIN <= values[i] <= INT64_MAX
  }

  // ---- Validity -----------------------------------------------------------

  predicate ValidShape(shape: seq<int>) {
    shape != [] && forall d | 0 <= d < |shape| :: shape[d] > 0
  }

  predicate ValidSlices(slices: seq<(int, int)>, globalShape: seq<int>, paddedShape: seq<int>) {
    && ValidShape(paddedShape)
    && |slices| == |globalShape| == |paddedShape|
    && forall d | 0 <= d < |slices| ::
      && 0 <= slices[d].0 < slices[d].1 <= globalShape[d]
      && slices[d].1 - slices[d].0 <= paddedShape[d]
  }

  predicate ValidTask(task: TaskSpec, inputShape: seq<int>, outputShape: seq<int>) {
    && task.taskId >= 0
    && task.assignedRank >= 0
    && task.estimatedCost > 0
    && ValidSlices(task.inputSlices, inputShape, task.paddedInputShape)
    && ValidSlices(task.validOutputSlices, outputShape, task.paddedOutputShape)
  }

  /** How many of the tasks are assigned to `rank`. */
  function TaskCount(tasks: seq<TaskSpec>, rank: int): nat {
    if tasks == [] then 0
    else
      var last := |tasks| - 1;
      TaskCount(tasks[..last], rank) + if tasks[last].assignedRank == rank then 1 else 0
  }

  /** `rounds` is the largest number of tasks any rank has to run. */
  predicate IsMaxTaskCount(tasks: seq<TaskSpec>, rounds: int) {
    && (forall k | 0 <= k < |tasks| :: TaskCount(tasks, tasks[k].assignedRank) <= rounds)
    && (exists k | 0 <= k < |tasks| :: TaskCount(tasks, tasks[k].assignedRank) == rounds)
  }

  predicate ValidPlan(plan: TaskPlan) {
    && plan.ownerRank >= 0
    && ValidShape(plan.globalInputShape)
    && ValidShape(plan.globalOutputShape)
    && plan.tasks != []
    && (forall k | 0 <= k < |plan.tasks| ::
          ValidTask(plan.tasks[k], plan.globalInputShape, plan.globalOutputShape))
    && (forall k | 0 <= k < |plan.tasks| :: plan.tasks[k].taskId == k)
    && IsMaxTaskCount(plan.tasks, plan.rounds)
  }

  /** A range of each axis, not empty, inside the global shape and no longer than the padded one. */
  predicate RangesFit(ranges: seq<(int, int)>, whole: seq<int>, padded: seq<int>) {
    && |ranges| == |whole| == |padded|
    && forall d | 0 <= d < |ranges| ::
         0 <= ranges[d].0 && ranges[d].0 < ranges[d].1 && ranges[d].1 <= whole[d] && ranges[d].1 <= ranges[d].0 + padded[d]
  }

  /**
   * The plans that are accepted, in numbers: positive axes, tasks numbered in order whose ranges
   * fit, and as many rounds as the busiest rank has tasks.
   */
  lemma {:induction false} ValidInNumbers(plan: TaskPlan)
    ensures ValidPlan(plan) <==>
              && plan.ownerRank >= 0 && |plan.tasks| > 0
              && |plan.globalInputShape| > 0 && (forall d | 0 <= d < |plan.globalInputShape| :: plan.globalInputShape[d] >= 1)
              && |plan.globalOutputShape| > 0 && (forall d | 0 <= d < |plan.globalOutputShape| :: plan.globalOutputShape[d] >= 1)
              && (forall k | 0 <= k < |plan.tasks| ::
                    var task := plan.tasks[k];
                    && task.taskId == k && task.assignedRank >= 0 && task.estimatedCost >= 1
                    && RangesFit(task.inputSlices, plan.globalInputShape, task.paddedInputShape)
                    && RangesFit(task.validOutputSlices, plan.globalOutputShape, task.paddedOutputShape))
              && (forall k | 0 <= k < |plan.tasks| ::
                    |set j | 0 <= j < |plan.tasks| && plan.tasks[j].assignedRank == plan.tasks[k].assignedRank| <= plan.rounds)
              && (exists k | 0 <= k < |plan.tasks| ::
                    |set j | 0 <= j < |plan.tasks| && plan.tasks[j].assignedRank == plan.tasks[k].assignedRank| == plan.rounds)
  {
    forall k | 0 <= k < |plan.tasks|
      ensures |set j | 0 <= j < |plan.tasks| && plan.tasks[j].assignedRank == plan.tasks[k].assignedRank|
           == TaskCount(plan.tasks, plan.tasks[k].assignedRank)
    {
      TasksAreCounted(plan.tasks, plan.tasks[k].assignedRank);
    }
  }

  lemma {:induction false} TasksAreCounted(tasks: seq<TaskSpec>, rank: int)
    ensures |set j | 0 <= j < |tasks| && tasks[j].assignedRank == rank| == TaskCount(tasks, rank)
  {
    if tasks != [] {
      var last := |tasks| - 1;
      TasksAreCounted(tasks[..last], rank);
      var (before, all) := (set j | 0 <= j < last && tasks[..last][j].assignedRank == rank,
                            set j | 0 <= j < |tasks| && tasks[j].assignedRank == rank);
      assert all == before + if tasks[last].assignedRank == rank then {last} else {};
    }
  }

  /** The loop of `validate_vae_task_plan`, which counts tasks per rank in a dictionary. */
  method ValidateTaskPlan(plan: TaskPlan) returns (ok: bool)
    ensures ok <==> ValidPlan(plan)
  {
    if plan.ownerRank < 0 || !ValidShape(plan.globalInputShape)
       || !ValidShape(plan.globalOutputShape) || plan.tasks == [] {
      return false;
    }
    var tasks := plan.tasks;
    var perRank: map<int, int> := map[];
    for k := 0 to |tasks|
      invariant forall j | 0 <= j < k :: ValidTask(tasks[j], plan.globalInputShape, plan.globalOutputShape)
      invariant forall r :: r in perRank <==> exists j | 0 <= j < k :: tasks[j].assignedRank == r
      invariant forall r :: TaskCount(tasks[..k], r) == if r in perRank then perRank[r] else 0
    {
      var task := tasks[k];
      if !ValidTask(task, plan.globalInputShape, plan.globalOutputShape) {
        return false;
      }
      var seen := if task.assignedRank in perRank then perRank[task.assignedRank] else 0;
      perRank := perRank[task.assignedRank := seen + 1];
      assert tasks[..k + 1][..k] == tasks[..k];
    }
    assert tasks[..|tasks|] == tasks;
    assert tasks[0].assignedRank in perRank;
    if exists k | 0 <= k < |tasks| :: tasks[k].taskId != k {
      return false;
    }
    var expected := MaxValue(perRank);
    return plan.rounds == expected;
  }

  method MaxValue(counts: map<int, int>) returns (best: int)
    requires counts.Keys != {}
    ensures forall r | r in counts :: counts[r] <= best
    ensures exists r | r in counts :: counts[r] == best
  {
    var left := counts.Keys;
    HasMember(left);
    var r :| r in left;
    best := counts[r];
    left := left - {r};
    while left != {}
      invariant left <= counts.Keys
      invariant forall q | q in counts && q !in left :: counts[q] <= best
      invariant exists q | q in counts :: counts[q] == best
    {
      HasMember(left);
      r :| r in left;
      if counts[r] > best { best := counts[r]; }
      left := left - {r};
    }
  }

  lemma {:induction false} HasMember(s: set<int>)
    requires s != {}
    ensures exists x :: x in s
  {
    assert (forall x :: x !in s) ==> s == {};
  }

  // ---- Encoding -----------------------------------------------------------

  function FlattenSlices(slices: seq<(int, int)>): (flat: seq<int>)
    ensures |flat| == 2 * |slices|
  {
    seq(2 * |slices|, k requires 0 <= k < 2 * |slices| =>
      if k % 2 == 0 then slices[k / 2].0 else slices[k / 2].1)
  }

  function EncodeTask(task: TaskSpec): seq<int> {
    [task.taskId, task.assignedRank, task.estimatedCost]
    + (FlattenSlices(task.inputSlices)
       + (FlattenSlices(task.validOutputSlices)
          + (task.paddedInputShape + task.paddedOutputShape)))
  }

  function EncodeTasks(tasks: seq<TaskSpec>): seq<int> {
    if tasks == [] then [] else EncodeTask(tasks[0]) + EncodeTasks(tasks[1..])
  }

  function EncodeHeader(plan: TaskPlan): (header: seq<int>)
    ensures |header| == 7
  {
    [SCHEMA_VERSION, if plan.operation.ENCODE? then 0 else 1, plan.ownerRank,
     |plan.globalInputShape|, |plan.globalOutputShape|, |plan.tasks|, plan.rounds]
  }

  function PlanValues(plan: TaskPlan): seq<int> {
    EncodeHeader(plan)
    + (plan.globalInputShape + (plan.globalOutputShape + EncodeTasks(plan.tasks)))
  }

  function TaskSize(inputNdim: nat, outputNdim: nat): nat {
    3 + 3 * inputNdim + 3 * outputNdim
  }

  /** `vae_task_plan_metadata_size`, for positive arguments. */
  function MetadataSize(inputNdim: nat, outputNdim: nat, taskCount: nat): int {
    7 + inputNdim + outputNdim + taskCount * (3 + (3 * inputNdim) + (3 * outputNdim))
  }

  /** The size of `count` task records, one record at a time. */
  function RecordsSize(i: nat, o: nat, count: nat): nat {
    if count == 0 then 0 else TaskSize(i, o) + RecordsSize(i, o, count - 1)
  }

  lemma {:induction false} RecordsSizeFormula(i: nat, o: nat, count: nat)
    ensures 7 + i + o + RecordsSize(i, o, count) == MetadataSize(i, o, count)
  {
    if count > 0 {
      RecordsSizeFormula(i, o, count - 1);
      var size := 3 + (3 * i) + (3 * o);
      assert count * size == (count - 1) * size + size;
    }
  }

  /** `encode_vae_task_plan`: an invalid plan or an integer outside int64 raises. */
  method EncodeTaskPlan(plan: TaskPlan) returns (metadata: Result<seq<int>>)
    ensures metadata.Ok? <==> ValidPlan(plan) && FitsInt64(PlanValues(plan))
    ensures metadata.Ok? ==> metadata.value == PlanValues(plan)
  {
    var ok := ValidateTaskPlan(plan);
    if !ok {
      return Err;
    }
    var values := EncodeHeader(plan) + (plan.globalInputShape + plan.globalOutputShape);
    assert plan.tasks[0..] == plan.tasks;
    assert values + EncodeTasks(plan.tasks) == PlanValues(plan);
    for k := 0 to |plan.tasks|
      invariant values + EncodeTasks(plan.tasks[k..]) == PlanValues(plan)
    {
      var task := plan.tasks[k];
      assert plan.tasks[k..][1..] == plan.tasks[k + 1..];
      ghost var before := values;
      values := values + [task.taskId, task.assignedRank, task.estimatedCost];
      values := values + FlattenSlices(task.inputSlices);
      values := values + FlattenSlices(task.validOutputSlices);
      values := values + task.paddedInputShape;
      values := values + task.paddedOutputShape;
      Regroup(before, [task.taskId, task.assignedRank, task.estimatedCost],
              FlattenSlices(task.inputSlices), FlattenSlices(task.validOutputSlices),
              task.paddedInputShape, task.paddedOutputShape, EncodeTasks(plan.tasks[k + 1..]));
    }
    assert values + EncodeTasks([]) == values;
    return if FitsInt64(values) then Ok(values) else Err;
  }

  /** Concatenation is associative: fields appended one by one form a whole record. */
  lemma {:induction false} Regroup(z: seq<int>, a: seq<int>, b: seq<int>, c: seq<int>, d: seq<int>, e: seq<int>, rest: seq<int>)
    ensures z + a + b + c + d + e + rest == z + (a + (b + (c + (d + e))) + rest)
  {
    assert c + d + e == c + (d + e);
    assert b + c + d + e == b + (c + (d + e));
    assert a + b + c + d + e == a + (b + (c + (d + e)));
    assert z + a + b + c + d + e == z + (a + b + c + d + e);
  }

  // ---- Decoding -----------------------------------------------------------

  /** `n` pairs. */
  function UnflattenSlices(flat: seq<int>, n: nat): (slices: seq<(int, int)>)
    requires |flat| == 2 * n
    ensures |slices| == n
  {
    seq(n, k requires 0 <= k < n => (flat[2 * k], flat[2 * k + 1]))
  }

  function DecodeTask(rec: seq<int>, i: nat, o: nat): TaskSpec
    requires |rec| == TaskSize(i, o)
  {
    var slices := rec[3..];
    var outputSlices := slices[2 * i..];
    var shapes := outputSlices[2 * o..];
    TaskSpec(rec[0], rec[1],
             UnflattenSlices(slices[..2 * i], i), UnflattenSlices(outputSlices[..2 * o], o),
             shapes[..i], shapes[i..], rec[2])
  }

  function DecodeTasks(values: seq<int>, i: nat, o: nat, count: nat): (tasks: seq<TaskSpec>)
    requires |values| == RecordsSize(i, o, count)
    ensures |tasks| == count
  {
    if count == 0 then []
    else
      [DecodeTask(values[..TaskSize(i, o)], i, o)]
      + DecodeTasks(values[TaskSize(i, o)..], i, o, count - 1)
  }

  /** The header tests of `decode_vae_task_plan`, up to the exact length. */
  predicate AcceptedHeader(values: seq<int>) {
    && |values| >= 7
    && values[0] == SCHEMA_VERSION
    && values[1] in {0, 1}
    && values[3] > 0 && values[4] > 0 && values[5] > 0
    && |values| == 7 + values[3] + values[4] + RecordsSize(values[3], values[4], values[5])
  }

  function DecodedPlan(values: seq<int>): TaskPlan
    requires AcceptedHeader(values)
  {
    var (i, o, count) := (values[3], values[4], values[5]);
    var shapes := values[7..];
    TaskPlan(if values[1] == 0 then ENCODE else DECODE, values[2],
             shapes[..i], shapes[i..][..o],
             DecodeTasks(shapes[i..][o..], i, o, count), values[6])
  }

  /** What `decode_vae_task_plan` returns; `Err` where it raises. */
  function DecodeValues(values: seq<int>): Result<TaskPlan> {
    if AcceptedHeader(values) && ValidPlan(DecodedPlan(values)) then Ok(DecodedPlan(values)) else Err
  }

  /** `decode_vae_task_plan`, advancing a cursor over the vector. */
  method DecodeTaskPlan(values: seq<int>) returns (plan: Result<TaskPlan>)
    ensures plan == DecodeValues(values)
  {
    if |values| < 7 || values[0] != SCHEMA_VERSION || values[1] !in {0, 1}
       || values[3] <= 0 || values[4] <= 0 || values[5] <= 0 {
      return Err;
    }
    var expectedLength := MetadataSize(values[3], values[4], values[5]);
    RecordsSizeFormula(values[3], values[4], values[5]);
    if |values| < expectedLength || |values| > expectedLength {
      return Err;
    }
    var decoded := DecodeBody(values);
    var ok := ValidateTaskPlan(decoded);
    return if ok then Ok(decoded) else Err;
  }

  /** The decoder after its header tests. */
  method DecodeBody(values: seq<int>) returns (plan: TaskPlan)
    requires AcceptedHeader(values)
    ensures plan == DecodedPlan(values)
  {
    var inputShape, outputShape, tasks := DecodeParts(values, values[3], values[4], values[5]);
    var operation := if values[1] == 0 then ENCODE else DECODE;
    plan := TaskPlan(operation, values[2], inputShape, outputShape, tasks, values[6]);
    PartsOfDecoded(values, plan);
  }

  /** The two shapes and the tasks of a vector, read at the cursor's offsets; sealed. */
  ghost predicate Parts(values: seq<int>, i: nat, o: nat, count: nat, inputShape: seq<int>, outputShape: seq<int>, tasks: seq<TaskSpec>) {
    forall key | Ask(key) ::
      && |values| == 7 + i + o + RecordsSize(i, o, count)
      && inputShape == values[7..7 + i] && outputShape == values[7 + i..7 + i + o]
      && tasks == DecodeTasks(values[7 + i + o..], i, o, count)
  }

  method DecodeParts(values: seq<int>, i: nat, o: nat, count: nat)
    returns (inputShape: seq<int>, outputShape: seq<int>, tasks: seq<TaskSpec>)
    requires |values| == 7 + i + o + RecordsSize(i, o, count)
    ensures Parts(values, i, o, count, inputShape, outputShape, tasks)
  {
    var cursor := 7;
    inputShape := values[cursor..cursor + i];
    cursor := cursor + i;
    outputShape := values[cursor..cursor + o];
    cursor := cursor + o;
    tasks := DecodeRecords(values, cursor, i, o, count);
  }

  lemma {:induction false} PartsOfDecoded(values: seq<int>, plan: TaskPlan)
    requires AcceptedHeader(values)
    requires Parts(values, values[3], values[4], values[5], plan.globalInputShape, plan.globalOutputShape, plan.tasks)
    requires plan.operation == (if values[1] == 0 then ENCODE else DECODE)
    requires plan.ownerRank == values[2] && plan.rounds == values[6]
    ensures plan == DecodedPlan(values)
  {
    assert Ask(true);
    ShapesOfHeader(values, values[3], values[4]);
  }

  lemma {:induction false} ShapesOfHeader(values: seq<int>, i: nat, o: nat)
    requires 7 + i + o <= |values|
    ensures values[7..][..i] == values[7..7 + i]
    ensures values[7..][i..][..o] == values[7 + i..7 + i + o]
    ensures values[7..][i..][o..] == values[7 + i + o..]
  {
    DropDrop(values, 7, i);
    DropDrop(values, 7 + i, o);
  }

  /** The decoder's task loop, from the first record to the end of the vector. */
  method DecodeRecords(values: seq<int>, start: nat, i: nat, o: nat, count: nat) returns (tasks: seq<TaskSpec>)
    requires start + RecordsSize(i, o, count) == |values|
    ensures tasks == DecodeTasks(values[start..], i, o, count)
  {
    tasks := [];
    var cursor := start;
    for k := 0 to count
      invariant 0 <= cursor <= |values|
      invariant |values| - cursor == RecordsSize(i, o, count - k)
      invariant tasks + DecodeTasks(values[cursor..], i, o, count - k) == DecodeTasks(values[start..], i, o, count)
    {
      var task, next := DecodeTaskAt(values, cursor, i, o);
      assert values[cursor..][TaskSize(i, o)..] == values[next..];
      cursor := next;
      assert tasks + ([task] + DecodeTasks(values[cursor..], i, o, count - k - 1))
          == tasks + [task] + DecodeTasks(values[cursor..], i, o, count - k - 1);
      tasks := tasks + [task];
    }
  }

  /** One turn of the decoder's task loop: read a record at the cursor and move past it. */
  method DecodeTaskAt(values: seq<int>, start: nat, i: nat, o: nat) returns (task: TaskSpec, cursor: nat)
    requires start + TaskSize(i, o) <= |values|
    ensures cursor == start + TaskSize(i, o)
    ensures task == DecodeTask(values[start..][..TaskSize(i, o)], i, o)
  {
    cursor := start;
    var id, rank, cost := values[cursor], values[cursor + 1], values[cursor + 2];
    cursor := cursor + 3;
    var inputSlices := UnflattenSlices(values[cursor..cursor + 2 * i], i);
    cursor := cursor + 2 * i;
    var outputSlices := UnflattenSlices(values[cursor..cursor + 2 * o], o);
    cursor := cursor + 2 * o;
    var paddedInput := values[cursor..cursor + i];
    cursor := cursor + i;
    var paddedOutput := values[cursor..cursor + o];
    cursor := cursor + o;
    task := TaskSpec(id, rank, inputSlices, outputSlices, paddedInput, paddedOutput, cost);
    FieldsOfRecord(values, start, TaskSize(i, o), i, o);
  }

  /** Fields cut at running cursors are the fields cut one after the other. */
  lemma {:induction false} FieldsOfRecord(values: seq<int>, start: nat, size: nat, i: nat, o: nat)
    requires size == TaskSize(i, o) && start + size <= |values|
    ensures var rec := values[start..][..size];
            && rec[0] == values[start] && rec[1] == values[start + 1] && rec[2] == values[start + 2]
            && rec[3..][..2 * i] == values[start + 3..start + 3 + 2 * i]
            && rec[3..][2 * i..][..2 * o] == values[start + 3 + 2 * i..start + 3 + 2 * i + 2 * o]
            && rec[3..][2 * i..][2 * o..][..i]
               == values[start + 3 + 2 * i + 2 * o..start + 3 + 2 * i + 2 * o + i]
            && rec[3..][2 * i..][2 * o..][i..]
               == values[start + 3 + 2 * i + 2 * o + i..start + 3 + 2 * i + 2 * o + i + o]
  {
    HeadOfRecord(values, start, size);
    DropsOfRecord(values[start..][..size], i, o);
    SubSlice(values, start, size, 3, 2 * i);
    SubSlice(values, start, size, 3 + 2 * i, 2 * o);
    SubSlice(values, start, size, 3 + 2 * i + 2 * o, i);
    SubSlice(values, start, size, 3 + 2 * i + 2 * o + i, o);
  }

  lemma {:induction false} HeadOfRecord(values: seq<int>, start: nat, size: nat)
    requires 3 <= size && start + size <= |values|
    ensures forall k | 0 <= k < 3 :: values[start..][..size][k] == values[start + k]
  {}

  lemma {:induction false} DropsOfRecord(rec: seq<int>, i: nat, o: nat)
    requires |rec| == TaskSize(i, o)
    ensures rec[3..][2 * i..] == rec[3 + 2 * i..]
    ensures rec[3..][2 * i..][2 * o..] == rec[3 + 2 * i + 2 * o..]
    ensures rec[3..][2 * i..][2 * o..][i..] == rec[3 + 2 * i + 2 * o + i..][..o]
  {
    DropDrop(rec, 3, 2 * i);
    DropDrop(rec, 3 + 2 * i, 2 * o);
    DropDrop(rec, 3 + 2 * i + 2 * o, i);
  }

  lemma {:induction false} DropDrop(s: seq<int>, a: nat, b: nat)
    requires a + b <= |s|
    ensures s[a..][b..] == s[a + b..]
  {
    var (x, y) := (s[a..][b..], s[a + b..]);
    assert |x| == |y| && forall k | 0 <= k < |x| :: x[k] == s[a + b + k] == y[k];
  }

  lemma {:induction false} SubSlice(s: seq<int>, start: nat, size: nat, at: nat, n: nat)
    requires start + size <= |s| && at + n <= size
    ensures s[start..][..size][at..][..n] == s[start + at..start + at + n]
    ensures at + n == size ==> s[start..][..size][at..] == s[start + at..start + at + n]
  {
    var (tail, y) := (s[start..][..size][at..], s[start + at..start + at + n]);
    assert forall k | 0 <= k < n :: tail[k] == s[start + at + k];
    var x := tail[..n];
    assert |x| == |y| && forall k | 0 <= k < n :: x[k] == y[k];
    assert at + n == size ==> tail == x;
  }

  // ---- The layout of a vector ----------------------------------------------

  /** The pairs of a list stand one after the other. */
  lemma {:induction false} FlattenedPairs(slices: seq<(int, int)>, d: nat)
    requires d < |slices|
    ensures FlattenSlices(slices)[2 * d] == slices[d].0 && FlattenSlices(slices)[2 * d + 1] == slices[d].1
  {}

  /** A task record from offset `at` on; sealed. */
  ghost predicate RecordAt(values: seq<int>, at: nat, task: TaskSpec, i: nat, o: nat) {
    forall key | Ask(key) ::
      && at + 3 + 3 * i + 3 * o <= |values|
      && values[at..at + 3] == [task.taskId, task.assignedRank, task.estimatedCost]
      && values[at + 3..at + 3 + 2 * i] == FlattenSlices(task.inputSlices)
      && values[at + 3 + 2 * i..at + 3 + 2 * i + 2 * o] == FlattenSlices(task.validOutputSlices)
      && values[at + 3 + 2 * i + 2 * o..at + 3 + 3 * i + 2 * o] == task.paddedInputShape
      && values[at + 3 + 3 * i + 2 * o..at + 3 + 3 * i + 3 * o] == task.paddedOutputShape
  }

  /** Two parts one after the other. */
  lemma {:induction false} PartAt(before: seq<int>, part: seq<int>, rest: seq<int>)
    ensures (before + (part + rest))[|before|..|before| + |part|] == part
    ensures before + (part + rest) == (before + part) + rest
  {}

  lemma {:induction false} FiveParts(a: seq<int>, b: seq<int>, c: seq<int>, d: seq<int>, e: seq<int>)
    ensures var (s, x, y, z) := (a + (b + (c + (d + e))), |a| + |b|, |a| + |b| + |c|, |a| + |b| + |c| + |d|);
            && |s| == z + |e| && s[..|a|] == a && s[|a|..x] == b && s[x..y] == c && s[y..z] == d && s[z..] == e
  {
    PartAt([], a, b + (c + (d + e)));
    PartAt(a, b, c + (d + e));
    PartAt(a + b, c, d + e);
    PartAt(a + b + c, d, e);
  }

  lemma {:induction false} RecordLayout(task: TaskSpec, i: nat, o: nat)
    requires TaskDims(task, i, o)
    ensures RecordAt(EncodeTask(task), 0, task, i, o)
  {
    FiveParts([task.taskId, task.assignedRank, task.estimatedCost], FlattenSlices(task.inputSlices),
              FlattenSlices(task.validOutputSlices), task.paddedInputShape, task.paddedOutputShape);
  }

  lemma {:induction false} SliceMoves(before: seq<int>, values: seq<int>, after: seq<int>, from: nat, to: nat)
    requires from <= to <= |values|
    ensures (before + values + after)[|before| + from..|before| + to] == values[from..to]
  {}

  lemma {:induction false} RecordMoves(values: seq<int>, at: nat, task: TaskSpec, i: nat, o: nat, before: seq<int>, after: seq<int>)
    requires RecordAt(values, at, task, i, o)
    ensures RecordAt(before + values + after, |before| + at, task, i, o)
  {
    assert Ask(true);
    SliceMoves(before, values, after, at, at + 3);
    SliceMoves(before, values, after, at + 3, at + 3 + 2 * i);
    SliceMoves(before, values, after, at + 3 + 2 * i, at + 3 + 2 * i + 2 * o);
    SliceMoves(before, values, after, at + 3 + 2 * i + 2 * o, at + 3 + 3 * i + 2 * o);
    SliceMoves(before, values, after, at + 3 + 3 * i + 2 * o, at + 3 + 3 * i + 3 * o);
  }

  lemma {:induction false} SizeOfRecord(task: TaskSpec, i: nat, o: nat)
    requires TaskDims(task, i, o)
    ensures |EncodeTask(task)| == TaskSize(i, o)
  {}

  lemma {:induction false} FirstRecord(task: TaskSpec, i: nat, o: nat, rest: seq<int>)
    requires TaskDims(task, i, o)
    ensures RecordAt(EncodeTask(task) + rest, 0, task, i, o)
  {
    RecordLayout(task, i, o);
    RecordMoves(EncodeTask(task), 0, task, i, o, [], rest);
    assert [] + EncodeTask(task) + rest == EncodeTask(task) + rest;
  }

  lemma {:induction false} LaterRecord(first: seq<int>, rest: seq<int>, at: nat, task: TaskSpec, i: nat, o: nat)
    requires RecordAt(rest, at, task, i, o)
    ensures RecordAt(first + rest, |first| + at, task, i, o)
  {
    RecordMoves(rest, at, task, i, o, first, []);
    assert first + rest + [] == first + rest;
  }

  lemma {:induction false} RecordsLayout(tasks: seq<TaskSpec>, i: nat, o: nat, k: nat)
    requires k < |tasks| && forall j | 0 <= j < |tasks| :: TaskDims(tasks[j], i, o)
    ensures RecordAt(EncodeTasks(tasks), RecordsSize(i, o, k), tasks[k], i, o)
    decreases k
  {
    var rest := EncodeTasks(tasks[1..]);
    if k == 0 {
      FirstRecord(tasks[0], i, o, rest);
    } else {
      SizeOfRecord(tasks[0], i, o);
      RecordsLayout(tasks[1..], i, o, k - 1);
      LaterRecord(EncodeTask(tasks[0]), rest, RecordsSize(i, o, k - 1), tasks[k], i, o);
    }
  }

  lemma {:induction false} PlanDims(plan: TaskPlan, j: nat)
    requires ValidPlan(plan) && j < |plan.tasks|
    ensures TaskDims(plan.tasks[j], |plan.globalInputShape|, |plan.globalOutputShape|)
  {
    assert ValidTask(plan.tasks[j], plan.globalInputShape, plan.globalOutputShape);
  }

  lemma {:induction false} FrontLayout(plan: TaskPlan)
    ensures var (values, i, o) := (PlanValues(plan), |plan.globalInputShape|, |plan.globalOutputShape|);
            && 7 + i + o <= |values|
            && values[..7] == [1, if plan.operation == ENCODE then 0 else 1, plan.ownerRank, i, o, |plan.tasks|, plan.rounds]
            && values[7..7 + i] == plan.globalInputShape && values[7 + i..7 + i + o] == plan.globalOutputShape
  {
    var header := EncodeHeader(plan);
    PartAt(header, plan.globalInputShape, plan.globalOutputShape + EncodeTasks(plan.tasks));
    PartAt(header + plan.globalInputShape, plan.globalOutputShape, EncodeTasks(plan.tasks));
  }

  /**
   * The format: seven header entries, the two shapes, and then the records; that of task
   * `k` starts where a plan of `k` tasks would end.
   */
  lemma {:induction false} EncodedLayout(plan: TaskPlan, k: nat)
    requires ValidPlan(plan) && k < |plan.tasks|
    ensures var (values, i, o) := (PlanValues(plan), |plan.globalInputShape|, |plan.globalOutputShape|);
            && 7 + i + o <= |values|
            && values[..7] == [1, if plan.operation == ENCODE then 0 else 1, plan.ownerRank, i, o, |plan.tasks|, plan.rounds]
            && values[7..7 + i] == plan.globalInputShape && values[7 + i..7 + i + o] == plan.globalOutputShape
            && MetadataSize(i, o, k) >= 0 && RecordAt(values, MetadataSize(i, o, k), plan.tasks[k], i, o)
  {
    FrontLayout(plan);
    RecordOfPlan(plan, k);
  }

  lemma {:induction false} RecordOfPlan(plan: TaskPlan, k: nat)
    requires ValidPlan(plan) && k < |plan.tasks|
    ensures var (i, o) := (|plan.globalInputShape|, |plan.globalOutputShape|);
            MetadataSize(i, o, k) >= 0 && RecordAt(PlanValues(plan), MetadataSize(i, o, k), plan.tasks[k], i, o)
  {
    var (i, o) := (|plan.globalInputShape|, |plan.globalOutputShape|);
    forall j | 0 <= j < |plan.tasks| ensures TaskDims(plan.tasks[j], i, o) { PlanDims(plan, j); }
    var (front, records) := (EncodeHeader(plan) + (plan.globalInputShape + plan.globalOutputShape), EncodeTasks(plan.tasks));
    RecordsLayout(plan.tasks, i, o, k);
    RecordsSizeFormula(i, o, k);
    LaterRecord(front, records, RecordsSize(i, o, k), plan.tasks[k], i, o);
    assert PlanValues(plan) == front + records;
  }

  // ---- Round trips --------------------------------------------------------

  lemma {:induction false} UnflattenFlatten(slices: seq<(int, int)>)
    ensures UnflattenSlices(FlattenSlices(slices), |slices|) == slices
  {
    var flat := FlattenSlices(slices);
    forall k | 0 <= k < |slices|
      ensures UnflattenSlices(flat, |slices|)[k] == slices[k]
    {
      assert flat[2 * k] == slices[k].0 && flat[2 * k + 1] == slices[k].1;
    }
  }

  lemma {:induction false} FlattenUnflatten(flat: seq<int>, n: nat)
    requires |flat| == 2 * n
    ensures FlattenSlices(UnflattenSlices(flat, n)) == flat
  {
    var slices := UnflattenSlices(flat, n);
    forall k | 0 <= k < |flat|
      ensures FlattenSlices(slices)[k] == flat[k]
    {
      assert k == if k % 2 == 0 then 2 * (k / 2) else 2 * (k / 2) + 1;
    }
  }

  predicate TaskDims(task: TaskSpec, i: nat, o: nat) {
    |task.inputSlices| == |task.paddedInputShape| == i
    && |task.validOutputSlices| == |task.paddedOutputShape| == o
  }

  lemma {:induction false} DecodeEncodedTask(task: TaskSpec, i: nat, o: nat)
    requires TaskDims(task, i, o)
    ensures |EncodeTask(task)| == TaskSize(i, o)
    ensures DecodeTask(EncodeTask(task), i, o) == task
  {
    UnflattenFlatten(task.inputSlices);
    UnflattenFlatten(task.validOutputSlices);
    var head := [task.taskId, task.assignedRank, task.estimatedCost];
    var slices := FlattenSlices(task.inputSlices)
      + (FlattenSlices(task.validOutputSlices) + (task.paddedInputShape + task.paddedOutputShape));
    assert (head + slices)[3..] == slices;
  }

  lemma {:induction false} EncodedFields(task: TaskSpec, inputs: seq<int>, outputs: seq<int>)
    requires FlattenSlices(task.inputSlices) == inputs && FlattenSlices(task.validOutputSlices) == outputs
    ensures EncodeTask(task)
         == [task.taskId, task.assignedRank, task.estimatedCost]
            + (inputs + (outputs + (task.paddedInputShape + task.paddedOutputShape)))
  {}

  lemma {:induction false} DecodedDims(rec: seq<int>, i: nat, o: nat)
    requires |rec| == TaskSize(i, o)
    ensures TaskDims(DecodeTask(rec, i, o), i, o)
  {}

  lemma {:induction false} DecodedFields(rec: seq<int>, i: nat, o: nat)
    requires |rec| == TaskSize(i, o)
    ensures var (task, slices) := (DecodeTask(rec, i, o), rec[3..]);
            && task.taskId == rec[0] && task.assignedRank == rec[1] && task.estimatedCost == rec[2]
            && FlattenSlices(task.inputSlices) == slices[..2 * i]
            && FlattenSlices(task.validOutputSlices) == slices[2 * i..][..2 * o]
            && task.paddedInputShape == slices[2 * i..][2 * o..][..i] && task.paddedOutputShape == slices[2 * i..][2 * o..][i..]
  {
    FlattenUnflatten(rec[3..][..2 * i], i);
    FlattenUnflatten(rec[3..][2 * i..][..2 * o], o);
  }

  lemma {:induction false} EncodeDecodedTask(rec: seq<int>, i: nat, o: nat)
    requires |rec| == TaskSize(i, o)
    ensures EncodeTask(DecodeTask(rec, i, o)) == rec
    ensures TaskDims(DecodeTask(rec, i, o), i, o)
  {
    var (task, slices) := (DecodeTask(rec, i, o), rec[3..]);
    DecodedFields(rec, i, o);
    EncodedFields(task, slices[..2 * i], slices[2 * i..][..2 * o]);
    JoinFields(rec, slices, slices[2 * i..], slices[2 * i..][2 * o..], i, o);
    DecodedDims(rec, i, o);
  }

  lemma {:induction false} DecodeEncodedTasks(tasks: seq<TaskSpec>, i: nat, o: nat)
    requires forall k | 0 <= k < |tasks| :: TaskDims(tasks[k], i, o)
    ensures |EncodeTasks(tasks)| == RecordsSize(i, o, |tasks|)
    ensures DecodeTasks(EncodeTasks(tasks), i, o, |tasks|) == tasks
  {
    if tasks != [] {
      DecodeEncodedTask(tasks[0], i, o);
      DecodeEncodedTasks(tasks[1..], i, o);
      DecodeUnfold(EncodeTasks(tasks), EncodeTask(tasks[0]), EncodeTasks(tasks[1..]), i, o, |tasks|);
      assert tasks == [tasks[0]] + tasks[1..];
    }
  }

  lemma {:induction false} JoinFields(rec: seq<int>, slices: seq<int>, outputSlices: seq<int>, shapes: seq<int>, i: nat, o: nat)
    requires |rec| == TaskSize(i, o)
    requires slices == rec[3..] && outputSlices == slices[2 * i..] && shapes == outputSlices[2 * o..]
    ensures [rec[0], rec[1], rec[2]]
            + (slices[..2 * i] + (outputSlices[..2 * o] + (shapes[..i] + shapes[i..]))) == rec
  {
    TakeDrop(shapes, i);
    TakeDrop(outputSlices, 2 * o);
    TakeDrop(slices, 2 * i);
    TakeDrop(rec, 3);
    assert rec[..3] == [rec[0], rec[1], rec[2]];
  }

  lemma {:induction false} TakeDrop(s: seq<int>, n: nat)
    requires n <= |s|
    ensures s[..n] + s[n..] == s
  {}

  lemma {:induction false} EncodeCons(rec: seq<int>, rest: seq<TaskSpec>, i: nat, o: nat)
    requires |rec| == TaskSize(i, o)
    ensures EncodeTasks([DecodeTask(rec, i, o)] + rest) == rec + EncodeTasks(rest)
  {
    EncodeDecodedTask(rec, i, o);
    Cut([DecodeTask(rec, i, o)], rest);
  }

  lemma {:induction false} DecodeUnfold(values: seq<int>, rec: seq<int>, rest: seq<int>, i: nat, o: nat, count: nat)
    requires count > 0 && values == rec + rest && |rec| == TaskSize(i, o)
    requires |rest| == RecordsSize(i, o, count - 1)
    ensures DecodeTasks(values, i, o, count) == [DecodeTask(rec, i, o)] + DecodeTasks(rest, i, o, count - 1)
  {
    Cut(rec, rest);
  }

  lemma {:induction false} EncodeDecodedTasks(values: seq<int>, i: nat, o: nat, count: nat)
    requires |values| == RecordsSize(i, o, count)
    ensures EncodeTasks(DecodeTasks(values, i, o, count)) == values
  {
    if count > 0 {
      var (rec, rest) := (values[..TaskSize(i, o)], values[TaskSize(i, o)..]);
      TakeDrop(values, TaskSize(i, o));
      DecodeUnfold(values, rec, rest, i, o, count);
      EncodeCons(rec, DecodeTasks(rest, i, o, count - 1), i, o);
      EncodeDecodedTasks(rest, i, o, count - 1);
    }
  }

  /** decode(encode(p)) == p, and the length is the published size formula. */
  lemma {:induction false} DecodeOfEncode(plan: TaskPlan)
    requires ValidPlan(plan)
    ensures |PlanValues(plan)|
         == MetadataSize(|plan.globalInputShape|, |plan.globalOutputShape|, |plan.tasks|)
    ensures DecodeValues(PlanValues(plan)) == Ok(plan)
  {
    var (i, o) := (|plan.globalInputShape|, |plan.globalOutputShape|);
    forall k | 0 <= k < |plan.tasks|
      ensures TaskDims(plan.tasks[k], i, o)
    {
      assert ValidTask(plan.tasks[k], plan.globalInputShape, plan.globalOutputShape);
    }
    DecodeEncodedTasks(plan.tasks, i, o);
    RecordsSizeFormula(i, o, |plan.tasks|);
    DecodeOfParts(plan, EncodeTasks(plan.tasks));
  }

  lemma {:induction false} DecodeOfParts(plan: TaskPlan, tasks: seq<int>)
    requires plan.globalInputShape != [] && plan.globalOutputShape != [] && plan.tasks != []
    requires tasks == EncodeTasks(plan.tasks)
    requires |tasks| == RecordsSize(|plan.globalInputShape|, |plan.globalOutputShape|, |plan.tasks|)
    requires DecodeTasks(tasks, |plan.globalInputShape|, |plan.globalOutputShape|, |plan.tasks|) == plan.tasks
    ensures AcceptedHeader(PlanValues(plan))
    ensures var d := DecodedPlan(PlanValues(plan));
            d.operation == plan.operation && d.ownerRank == plan.ownerRank && d.rounds == plan.rounds
    ensures DecodedPlan(PlanValues(plan)).globalInputShape == plan.globalInputShape
    ensures DecodedPlan(PlanValues(plan)).globalOutputShape == plan.globalOutputShape
    ensures DecodedPlan(PlanValues(plan)).tasks == plan.tasks
  {
    var rest := plan.globalOutputShape + tasks;
    var shapes := plan.globalInputShape + rest;
    Cut(plan.globalOutputShape, tasks);
    Cut(plan.globalInputShape, rest);
    Cut(EncodeHeader(plan), shapes);
    HeaderFields(plan, shapes);
  }

  lemma {:induction false} Cut<T>(a: seq<T>, b: seq<T>)
    ensures (a + b)[..|a|] == a && (a + b)[|a|..] == b
  {}

  lemma {:induction false} HeaderFields(plan: TaskPlan, shapes: seq<int>)
    ensures var values := EncodeHeader(plan) + shapes;
            && values[0] == SCHEMA_VERSION
            && values[1] == (if plan.operation.ENCODE? then 0 else 1)
            && values[2] == plan.ownerRank
            && values[3] == |plan.globalInputShape|
            && values[4] == |plan.globalOutputShape|
            && values[5] == |plan.tasks|
            && values[6] == plan.rounds
  {}

  lemma {:induction false} EncodeOfAccepted(values: seq<int>)
    requires AcceptedHeader(values)
    ensures PlanValues(DecodedPlan(values)) == values
  {
    var (i, o, count) := (values[3], values[4], values[5]);
    var shapes := values[7..];
    EncodeDecodedTasks(shapes[i..][o..], i, o, count);
    Rejoin(values, i, o);
    HeaderOfDecoded(values);
  }

  lemma {:induction false} Rejoin(values: seq<int>, i: nat, o: nat)
    requires 7 + i + o <= |values|
    ensures values == values[..7] + (values[7..][..i] + (values[7..][i..][..o] + values[7..][i..][o..]))
  {
    var shapes := values[7..];
    assert shapes[i..][..o] + shapes[i..][o..] == shapes[i..];
    assert shapes[..i] + shapes[i..] == shapes;
  }

  lemma {:induction false} HeaderOfDecoded(values: seq<int>)
    requires AcceptedHeader(values)
    ensures EncodeHeader(DecodedPlan(values)) == values[..7]
  {
    var header := EncodeHeader(DecodedPlan(values));
    assert forall k | 0 <= k < 7 :: header[k] == values[k];
  }

  /** encode(decode(m)) == m for every vector the decoder accepts. */
  lemma {:induction false} EncodeOfDecode(values: seq<int>)
    requires DecodeValues(values).Ok?
    ensures ValidPlan(DecodeValues(values).value)
    ensures PlanValues(DecodeValues(values).value) == values
  {
    EncodeOfAccepted(values);
  }
}
