/** The shards that the ranks of a sequence-parallel group hold of whole tensors. */
module Shards {
  import opened Wrappers
  import opened Tensors
  import opened Consensus

  /**
   * How a whole layout appears on the ranks. A rank's signature tells whole layouts
   * apart and fixes the length of its shard.
   */
  datatype Split = Split(ranks: nat, rankLayout: (nat, Layout) -> Layout, shardLength: (nat, Layout) -> nat)

  ghost predicate ValidSplit(split: Split) {
    && split.ranks > 0
    && forall k: nat, a: Layout, b: Layout :: split.rankLayout(k, a) == split.rankLayout(k, b) ==> a == b
  }

  predicate AllOk(flags: seq<bool>) {
    forall k | 0 <= k < |flags| :: flags[k]
  }

  /** Shards of one whole tensor, cut as the layout says. */
  predicate ShardedAs(split: Split, layout: Layout, parts: seq<Tensor>) {
    |parts| == split.ranks && forall k | 0 <= k < |parts| :: |parts[k]| == split.shardLength(k, layout)
  }

  /** The all-reduces of a check: an error flag, the distance sums, the decision's moments. */
  datatype Collective = Flag | Sums | Moments

  predicate SameLayout(split: Split, whole: Option<Layout>, part: Option<Layout>, k: nat) {
    part == if whole.Some? then Some(split.rankLayout(k, whole.value)) else None
  }

  /** The ranks hold the shards of what the whole controller holds. */
  predicate HoldsShards(split: Split, layout: Option<Layout>, whole: Option<Tensor>, parts: seq<Tensor>) {
    whole.Some? ==> layout.Some? && ShardedAs(split, layout.value, parts) && whole.value == Concat(parts)
  }

  lemma {:induction false} ShardsAlike(split: Split, layout: Layout, a: seq<Tensor>, b: seq<Tensor>)
    requires ShardedAs(split, layout, a) && ShardedAs(split, layout, b)
    ensures SameShapes(a, b) && |Concat(a)| == |Concat(b)|
  {
    ConcatSub(a, b);
  }
}
