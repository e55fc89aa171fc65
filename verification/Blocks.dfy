/** `run_blocks`: a range of transformer blocks applied one after the other. */
module Blocks {
  import opened Tensors

  type Block = Tensor -> Tensor

  function RunBlocks(blocks: seq<Block>, hidden: Tensor, lo: nat, hi: nat): Tensor
    requires lo <= hi <= |blocks|
  {
    if lo == hi then hidden else blocks[hi - 1](RunBlocks(blocks, hidden, lo, hi - 1))
  }

  /** The states a hidden tensor passes through, one block after the other. */
  predicate PassesThrough(blocks: seq<Block>, hidden: Tensor, lo: nat, hi: nat, states: seq<Tensor>)
    requires lo <= hi <= |blocks|
  {
    |states| == hi - lo + 1 && states[0] == hidden
    && forall i | 0 <= i < hi - lo :: states[i + 1] == blocks[lo + i](states[i])
  }

  /** The result is where `hidden` ends after every block of the range has been applied once, in order. */
  lemma {:induction false} BlocksInOrder(blocks: seq<Block>, hidden: Tensor, lo: nat, hi: nat, states: seq<Tensor>)
    requires lo <= hi <= |blocks| && PassesThrough(blocks, hidden, lo, hi, states)
    ensures RunBlocks(blocks, hidden, lo, hi) == states[hi - lo]
  {
    if lo < hi { BlocksInOrder(blocks, hidden, lo, hi - 1, states[..hi - lo]); }
  }

  /** A range of blocks can be run in two parts. */
  lemma {:induction false} RunInParts(blocks: seq<Block>, hidden: Tensor, lo: nat, mid: nat, hi: nat)
    requires lo <= mid <= hi <= |blocks|
    ensures RunBlocks(blocks, RunBlocks(blocks, hidden, lo, mid), mid, hi) == RunBlocks(blocks, hidden, lo, hi)
  {
    if mid < hi { RunInParts(blocks, hidden, lo, mid, hi - 1); }
  }

  ghost predicate KeepShapes(blocks: seq<Block>) {
    forall i, t | 0 <= i < |blocks| :: |blocks[i](t)| == |t|
  }

  lemma {:induction false} ShapeIsKept(blocks: seq<Block>, hidden: Tensor, lo: nat, hi: nat)
    requires lo <= hi <= |blocks| && KeepShapes(blocks)
    ensures |RunBlocks(blocks, hidden, lo, hi)| == |hidden|
  {
    if lo < hi { ShapeIsKept(blocks, hidden, lo, hi - 1); }
  }
}
