/**
 * Tensors as far as the VAE engine looks at them: a shape and one real number
 * per index, padded at the end of every axis and cropped from the origin.
 */
module VaeTensor {
  import opened Wrappers
  import opened VaePlan

  ghost predicate InBox(index: seq<int>, shape: seq<int>) {
    |index| == |shape| && forall d | 0 <= d < |index| :: 0 <= index[d] < shape[d]
  }

  datatype Cells = Cells(shape: seq<int>, cells: imap<seq<int>, real>)

  ghost predicate WellFormed(t: Cells) {
    forall index :: index in t.cells <==> InBox(index, t.shape)
  }

  type Tensor = t: Cells | WellFormed(t)
    ghost witness Cells([], imap index | InBox(index, []) :: 0.0)

  ghost function Zeros(shape: seq<int>): (z: Tensor)
    ensures z.shape == shape
  {
    Cells(shape, imap index | InBox(index, shape) :: 0.0)
  }

  predicate FitsInside(inner: seq<int>, outer: seq<int>) {
    |inner| == |outer| && forall d | 0 <= d < |inner| :: inner[d] <= outer[d]
  }

  /**
   * `_pad_tensor`: copy `t` to the origin of zeros of `target`. It raises when `t`
   * is larger than its own maximum shape or than the target.
   */
  ghost function Pad(t: Tensor, target: seq<int>, maximum: seq<int>): (padded: Option<Tensor>)
    ensures padded.Some? <==> FitsInside(t.shape, maximum) && FitsInside(t.shape, target)
    ensures padded.Some? ==> padded.value.shape == target
  {
    if !FitsInside(t.shape, maximum) || !FitsInside(t.shape, target) then None
    else Some(Cells(target, imap index | InBox(index, target) ::
                      if InBox(index, t.shape) then t.cells[index] else 0.0))
  }

  function Smaller(a: seq<int>, b: seq<int>): (c: seq<int>)
    requires |a| == |b|
    ensures |c| == |a|
  {
    seq(|a|, d requires 0 <= d < |a| => if a[d] <= b[d] then a[d] else b[d])
  }

  /** `_origin_crop`: slices `0:length` on every axis, which stop at the tensor's end. */
  ghost function Crop(t: Tensor, shape: seq<int>): (cropped: Tensor)
    requires |shape| == |t.shape|
  {
    Cells(Smaller(t.shape, shape), imap index | InBox(index, Smaller(t.shape, shape)) :: t.cells[index])
  }

  /** Cropping a tile out of a shared envelope gives what padding to its own shape gives. */
  lemma {:induction false} CropOfPad(t: Tensor, envelope: seq<int>, own: seq<int>)
    requires FitsInside(own, envelope)
    ensures Pad(t, envelope, own).Some? <==> Pad(t, own, own).Some?
    ensures Pad(t, own, own).Some? ==>
              |own| == |Pad(t, envelope, own).value.shape|
              && Crop(Pad(t, envelope, own).value, own) == Pad(t, own, own).value
  {
    if Pad(t, own, own).Some? {
      assert Smaller(envelope, own) == own;
      forall index | InBox(index, own) ensures InBox(index, envelope) {}
    }
  }

  // ---- Round envelopes ----------------------------------------------------

  function TaskShape(task: TaskSpec, output: bool): seq<int> {
    if output then task.paddedOutputShape else task.paddedInputShape
  }

  function Shapes(slots: seq<Option<TaskSpec>>, output: bool): seq<seq<int>> {
    if slots == [] then []
    else Shapes(slots[..|slots| - 1], output)
         + if slots[|slots| - 1].Some? then [TaskShape(slots[|slots| - 1].value, output)] else []
  }

  function MaxAt(shapes: seq<seq<int>>, d: nat): int
    requires shapes != [] && forall i | 0 <= i < |shapes| :: d < |shapes[i]|
  {
    if |shapes| == 1 then shapes[0][d]
    else
      var rest := MaxAt(shapes[..|shapes| - 1], d);
      if shapes[|shapes| - 1][d] > rest then shapes[|shapes| - 1][d] else rest
  }

  predicate SameNdim(shapes: seq<seq<int>>) {
    forall i | 0 <= i < |shapes| :: |shapes[i]| == |shapes[0]|
  }

  /** `_round_envelope`: the axis-wise maximum; raises for an empty round or mixed ranks. */
  function RoundEnvelope(slots: seq<Option<TaskSpec>>, output: bool): Option<seq<int>> {
    var shapes := Shapes(slots, output);
    if shapes == [] || !SameNdim(shapes) then None
    else Some(seq(|shapes[0]|, d requires 0 <= d < |shapes[0]| => MaxAt(shapes, d)))
  }

  lemma {:induction false} ShapesAreTaskShapes(slots: seq<Option<TaskSpec>>, output: bool)
    ensures forall shape :: shape in Shapes(slots, output) <==>
              exists s | 0 <= s < |slots| :: slots[s].Some? && shape == TaskShape(slots[s].value, output)
  {
    if slots != [] {
      var n := |slots| - 1;
      ShapesAreTaskShapes(slots[..n], output);
      forall shape
        ensures shape in Shapes(slots, output) <==>
          exists s | 0 <= s < |slots| :: slots[s].Some? && shape == TaskShape(slots[s].value, output)
      {
        if shape in Shapes(slots[..n], output) {
          var s :| 0 <= s < n && slots[..n][s].Some? && shape == TaskShape(slots[..n][s].value, output);
          assert slots[s].Some?;
        }
        if s :| 0 <= s < |slots| && slots[s].Some? && shape == TaskShape(slots[s].value, output) {
          assert s < n ==> slots[..n][s].Some?;
        }
      }
    }
  }

  lemma {:induction false} MaxAtIsMaximum(shapes: seq<seq<int>>, d: nat)
    requires shapes != [] && forall i | 0 <= i < |shapes| :: d < |shapes[i]|
    ensures forall i | 0 <= i < |shapes| :: shapes[i][d] <= MaxAt(shapes, d)
    ensures exists i | 0 <= i < |shapes| :: shapes[i][d] == MaxAt(shapes, d)
  {
    var last := |shapes| - 1;
    if last == 0 {
      assert shapes[0][d] == MaxAt(shapes, d);
    } else {
      MaxAtIsMaximum(shapes[..last], d);
      if shapes[last][d] > MaxAt(shapes[..last], d) {
        assert shapes[last][d] == MaxAt(shapes, d);
      } else {
        var i :| 0 <= i < last && shapes[..last][i][d] == MaxAt(shapes[..last], d);
        assert shapes[i][d] == MaxAt(shapes, d);
      }
    }
  }

  /** When the occupied slots agree on the number of axes, the envelope is their least upper bound. */
  lemma {:induction false} EnvelopeCoversSlots(slots: seq<Option<TaskSpec>>, output: bool, ndim: nat)
    requires exists s | 0 <= s < |slots| :: slots[s].Some?
    requires forall s | 0 <= s < |slots| && slots[s].Some? :: |TaskShape(slots[s].value, output)| == ndim
    ensures RoundEnvelope(slots, output).Some? && |RoundEnvelope(slots, output).value| == ndim
    ensures forall s | 0 <= s < |slots| && slots[s].Some? ::
              FitsInside(TaskShape(slots[s].value, output), RoundEnvelope(slots, output).value)
    ensures forall d | 0 <= d < ndim :: exists s | 0 <= s < |slots| ::
              slots[s].Some? && TaskShape(slots[s].value, output)[d] == RoundEnvelope(slots, output).value[d]
  {
    var shapes := Shapes(slots, output);
    ShapesAreTaskShapes(slots, output);
    var s :| 0 <= s < |slots| && slots[s].Some?;
    assert TaskShape(slots[s].value, output) in shapes;
    forall i | 0 <= i < |shapes| ensures |shapes[i]| == ndim {
      assert shapes[i] in shapes;
    }
    var envelope := RoundEnvelope(slots, output).value;
    forall s | 0 <= s < |slots| && slots[s].Some?
      ensures FitsInside(TaskShape(slots[s].value, output), envelope)
    {
      var shape := TaskShape(slots[s].value, output);
      assert shape in shapes;
      var i :| 0 <= i < |shapes| && shapes[i] == shape;
      forall d | 0 <= d < ndim ensures shape[d] <= envelope[d] {
        MaxAtIsMaximum(shapes, d);
      }
    }
    forall d | 0 <= d < ndim
      ensures exists s | 0 <= s < |slots| ::
        slots[s].Some? && TaskShape(slots[s].value, output)[d] == envelope[d]
    {
      MaxAtIsMaximum(shapes, d);
      var i :| 0 <= i < |shapes| && shapes[i][d] == MaxAt(shapes, d);
      assert shapes[i] in shapes;
      var s :| 0 <= s < |slots| && slots[s].Some? && shapes[i] == TaskShape(slots[s].value, output);
    }
  }
}
