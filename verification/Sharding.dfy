/**
 * Cutting a sequence into equal padded shards and back, gathering shards of
 * unequal length, and linear layers whose output columns are split over ranks.
 */
module Sharding {
  import opened Wrappers
  import opened Arithmetic

  // ---- Quotients --------------------------------------------------------------------

  lemma {:induction false} QuotientMonotone(x: nat, y: nat, n: nat)
    requires n > 0 && x <= y
    ensures x / n <= y / n
    ensures x + n <= y ==> x / n < y / n
  {
    Division(x, n);
    Division(y, n);
    Distribute(n, x / n, 1);
    Distribute(n, y / n, 1);
    ProductMonotone(n, y / n + 1, x / n);
    ProductMonotone(n, y / n, x / n);
  }

  // ---- Sequence shard plans -----------------------------------------------------------

  datatype ShardPlan = ShardPlan(
    globalLength: int,
    paddedLength: int,
    localStart: int,
    localEnd: int,
    validLocalLength: int,
    padRight: int,
    ownerRank: int,
    spDegree: int,
    rank: int)
  {
    function LocalLength(): int {
      localEnd - localStart
    }
  }

  function Clamp(x: int, lo: int, hi: int): int {
    if x < lo then lo else if x > hi then hi else x
  }

  /** `SequenceShardPlan.__post_init__`. */
  predicate Accepted(p: ShardPlan) {
    && p.globalLength >= 0
    && p.spDegree >= 1
    && 0 <= p.rank < p.spDegree
    && 0 <= p.ownerRank < p.spDegree
    && p.paddedLength >= p.globalLength
    && p.paddedLength % p.spDegree == 0
    && 0 <= p.localStart <= p.localEnd <= p.paddedLength
    && p.localStart == p.rank * p.LocalLength()
    && p.LocalLength() == p.paddedLength / p.spDegree
    && 0 <= p.validLocalLength <= p.LocalLength()
    && p.padRight == p.LocalLength() - p.validLocalLength
    && p.validLocalLength == Clamp(p.globalLength - p.localStart, 0, p.LocalLength())
  }

  /** The shard length: the global length divided by the degree, rounded up. */
  function ShardLength(globalLength: nat, degree: nat): nat
    requires degree > 0
  {
    (globalLength + degree - 1) / degree
  }

  function PlanOf(globalLength: nat, degree: nat, owner: nat, rank: nat): ShardPlan
    requires degree > 0
  {
    var local := ShardLength(globalLength, degree);
    var valid := Clamp(globalLength - rank * local, 0, local);
    ShardPlan(globalLength, local * degree, rank * local, rank * local + local, valid, local - valid, owner, degree, rank)
  }

  /** Rounding up covers the sequence and pads by less than the degree. */
  lemma {:induction false} PaddingIsShort(globalLength: nat, degree: nat)
    requires degree > 0
    ensures var padded := ShardLength(globalLength, degree) * degree;
            globalLength <= padded < globalLength + degree
  {
    Division(globalLength + degree - 1, degree);
    Commute(degree, ShardLength(globalLength, degree));
  }

  lemma {:induction false} ExactProduct(a: nat, n: nat)
    requires n > 0
    ensures (a * n) % n == 0 && (a * n) / n == a
  {
    Division(a * n, n);
    Commute(a, n);
    var q := (a * n) / n;
    Distribute(n, q, 1);
    Distribute(n, a, 1);
    ProductMonotone(n, q + 1, a);
    ProductMonotone(n, a + 1, q);
  }

  /** Every produced plan passes its own checks, is for the arguments it was made from, and pads as little as it can. */
  lemma {:induction false} PlansAreAccepted(globalLength: nat, degree: nat, owner: nat, rank: nat)
    requires owner < degree && rank < degree
    ensures var plan := PlanOf(globalLength, degree, owner, rank);
            && Accepted(plan)
            && plan.globalLength == globalLength && plan.spDegree == degree && plan.ownerRank == owner && plan.rank == rank
            && plan.paddedLength < globalLength + degree
  {
    var local := ShardLength(globalLength, degree);
    PaddingIsShort(globalLength, degree);
    ExactProduct(local, degree);
    ProductMonotone(local, rank + 1, degree);
    Distribute(local, rank, 1);
    Commute(local, rank);
  }

  /** `plan_sequence_shards`; building a plan raises where its checks fail. */
  method PlanSequenceShards(globalLength: int, degree: int, owner: int) returns (plans: Result<seq<ShardPlan>>)
    ensures plans.Ok? <==> globalLength >= 0 && degree >= 1 && 0 <= owner < degree
    ensures plans.Ok? ==>
              && |plans.value| == degree
              && forall r | 0 <= r < degree ::
                   plans.value[r] == PlanOf(globalLength, degree, owner, r) && Accepted(plans.value[r])
  {
    if globalLength < 0 || degree < 1 || !(0 <= owner < degree) { return Err; }
    var localLength := (globalLength + degree - 1) / degree;
    var built := [];
    for rank := 0 to degree
      invariant |built| == rank
      invariant forall r | 0 <= r < rank :: built[r] == PlanOf(globalLength, degree, owner, r) && Accepted(built[r])
    {
      var localStart := rank * localLength;
      var valid := Clamp(globalLength - localStart, 0, localLength);
      var plan := ShardPlan(globalLength, localLength * degree, localStart, localStart + localLength, valid,
                            localLength - valid, owner, degree, rank);
      PlansAreAccepted(globalLength, degree, owner, rank);
      if !Accepted(plan) { return Err; }
      built := built + [plan];
    }
    return Ok(built);
  }

  // ---- Scatter and gather -------------------------------------------------------------

  function Concat<T>(parts: seq<seq<T>>): seq<T> {
    if parts == [] then [] else Concat(parts[..|parts| - 1]) + parts[|parts| - 1]
  }

  /** Equal pieces of a sequence, as `torch.split`. */
  function Pieces<T>(padded: seq<T>, local: nat, n: nat): (pieces: seq<seq<T>>)
    requires local * n <= |padded|
    ensures |pieces| == n
  {
    if n == 0 then []
    else
      Distribute(local, n - 1, 1);
      Pieces(padded, local, n - 1) + [padded[local * (n - 1)..local * n]]
  }

  /** Piece `r` holds the elements `r * local` up to `r * local + local`. */
  lemma {:induction false} PieceIs<T>(padded: seq<T>, local: nat, n: nat, r: nat)
    requires local * n <= |padded| && r < n
    ensures 0 <= r * local <= r * local + local <= |padded|
    ensures Pieces(padded, local, n)[r] == padded[r * local..r * local + local]
  {
    Distribute(local, n - 1, 1);
    Commute(local, r);
    if r < n - 1 { PieceIs(padded, local, n - 1, r); }
  }

  lemma {:induction false} PiecesJoin<T>(padded: seq<T>, local: nat, n: nat)
    requires local * n <= |padded|
    ensures Concat(Pieces(padded, local, n)) == padded[..local * n]
  {
    if n > 0 {
      Distribute(local, n - 1, 1);
      PiecesJoin(padded, local, n - 1);
      var pieces := Pieces(padded, local, n);
      assert pieces[..n - 1] == Pieces(padded, local, n - 1);
      JoinSlices(padded, local * (n - 1), local * n);
    }
  }

  lemma {:induction false} JoinSlices<T>(s: seq<T>, a: nat, b: nat)
    requires a <= b <= |s|
    ensures s[..a] + s[a..b] == s[..b]
  {}

  /** The owner's right-padded copy, filled in place. */
  method PadRight<T(0)>(tensor: seq<T>, paddedLength: nat, zero: T) returns (padded: array<T>)
    requires |tensor| <= paddedLength
    ensures fresh(padded) && padded[..] == tensor + seq(paddedLength - |tensor|, _ => zero)
  {
    padded := new T[paddedLength](_ => zero);
    for i := 0 to |tensor|
      invariant padded[..] == tensor[..i] + seq(paddedLength - i, _ => zero)
    {
      padded[i] := tensor[i];
    }
  }

  /** `shard_sequence_tensor` on all ranks: what each receives from the owner. */
  method Scatter<T(0)>(tensor: seq<T>, degree: nat, zero: T) returns (shards: seq<seq<T>>)
    requires degree > 0
    ensures var local := ShardLength(|tensor|, degree);
            var padded := tensor + seq(local * degree - |tensor|, _ => zero);
            |tensor| <= local * degree && shards == Pieces(padded, local, degree)
  {
    var local := ShardLength(|tensor|, degree);
    PaddingIsShort(|tensor|, degree);
    var padded := PadRight(tensor, local * degree, zero);
    shards := Split(padded[..], local, degree);
  }

  method Split<T>(padded: seq<T>, local: nat, degree: nat) returns (pieces: seq<seq<T>>)
    requires local * degree <= |padded|
    ensures pieces == Pieces(padded, local, degree)
  {
    pieces := [];
    for k := 0 to degree
      invariant local * k <= |padded| && pieces == Pieces(padded, local, k)
    {
      Distribute(local, k, 1);
      ProductMonotone(local, k + 1, degree);
      pieces := pieces + [padded[local * k..local * (k + 1)]];
    }
  }

  /** `gather_sequence_to_owner`: join the shards and trim the padding. */
  method Gather<T>(shards: seq<seq<T>>, globalLength: nat) returns (tensor: seq<T>)
    requires globalLength <= |Concat(shards)|
    ensures tensor == Concat(shards)[..globalLength]
  {
    var joined := [];
    for k := 0 to |shards|
      invariant joined == Concat(shards[..k])
    {
      assert shards[..k + 1][..k] == shards[..k];
      joined := joined + shards[k];
    }
    assert shards[..|shards|] == shards;
    tensor := joined[..globalLength];
  }

  /** Gather after scatter gives the owner's sequence back. */
  method RoundTrip<T(0)>(tensor: seq<T>, degree: nat, zero: T) returns (back: seq<T>)
    requires degree > 0
    ensures back == tensor
  {
    var shards := Scatter(tensor, degree, zero);
    ghost var local := ShardLength(|tensor|, degree);
    ghost var padded := tensor + seq(local * degree - |tensor|, _ => zero);
    PiecesJoin(padded, local, degree);
    back := Gather(shards, |tensor|);
  }

  /** Valid lengths of the shards below `n`, together. */
  function ValidBelow(globalLength: nat, degree: nat, n: nat): int
    requires degree > 0
  {
    if n == 0 then 0
    else ValidBelow(globalLength, degree, n - 1) + PlanOf(globalLength, degree, 0, n - 1).validLocalLength
  }

  /**
   * The valid ranges follow each other from 0 on and end at the global length: shard
   * `n` starts, clamped to the sequence, where the shards below it end.
   */
  lemma {:induction false} ValidRangesPartition(globalLength: nat, degree: nat, n: nat)
    requires degree > 0 && n <= degree
    ensures ValidBelow(globalLength, degree, n) == Clamp(n * ShardLength(globalLength, degree), 0, globalLength)
    ensures n == degree ==> ValidBelow(globalLength, degree, n) == globalLength
  {
    var local := ShardLength(globalLength, degree);
    if n > 0 {
      ValidRangesPartition(globalLength, degree, n - 1);
      Commute(local, n);
      Commute(local, n - 1);
      Distribute(local, n - 1, 1);
    }
    PaddingIsShort(globalLength, degree);
    Commute(degree, local);
  }

  // ---- Unequal shards -----------------------------------------------------------------

  function Lengths<T>(values: seq<seq<T>>): (lengths: seq<nat>)
    ensures |lengths| == |values|
  {
    seq(|values|, k requires 0 <= k < |values| => |values[k]|)
  }

  function Longest(lengths: seq<nat>): (longest: nat)
    ensures forall k | 0 <= k < |lengths| :: lengths[k] <= longest
  {
    if lengths == [] then 0
    else
      var rest := Longest(lengths[..|lengths| - 1]);
      if lengths[|lengths| - 1] > rest then lengths[|lengths| - 1] else rest
  }

  /**
   * `gather_variable` of all ranks' shards: each is padded to the longest, all are
   * gathered, cut back and joined. Known lengths that do not fit raise.
   */
  method GatherVariable<T(0)>(values: seq<seq<T>>, known: Option<seq<nat>>, zero: T) returns (joined: Result<seq<T>>)
    requires values != []
    ensures joined.Ok? <==> |values| == 1 || known.None? || known.value == Lengths(values)
    ensures joined.Ok? ==> joined.value == Concat(values)
  {
    if |values| == 1 {
      assert values[..0] == [];
      return Ok(values[0]);
    }
    if known.Some? && known.value != Lengths(values) { return Err; }
    var lengths := Lengths(values);
    var longest := Longest(lengths);
    var outputs: seq<seq<T>> := [];
    for k := 0 to |values|
      invariant |outputs| == k
      invariant forall i | 0 <= i < k :: |outputs[i]| == longest && outputs[i][..lengths[i]] == values[i]
    {
      assert lengths[k] <= longest;
      var padded := PadRight(values[k], longest, zero);
      outputs := outputs + [padded[..]];
    }
    var result := [];
    for k := 0 to |values|
      invariant result == Concat(values[..k])
    {
      assert values[..k + 1][..k] == values[..k];
      result := result + outputs[k][..lengths[k]];
    }
    assert values[..|values|] == values;
    return Ok(result);
  }

  // ---- Column-split linear layers -----------------------------------------------------

  function Dot(x: seq<real>, w: seq<real>): real {
    if x == [] || w == [] then 0.0 else Dot(x[..|x| - 1], w[..|w| - 1]) + x[|x| - 1] * w[|w| - 1]
  }

  /** The input that is 1 at `k` and 0 elsewhere. */
  function Unit(n: nat, k: nat): seq<real> {
    seq(n, i => if i == k then 1.0 else 0.0)
  }

  lemma {:induction false} DotOfUnit(n: nat, k: nat, w: seq<real>)
    requires |w| == n
    ensures Dot(Unit(n, k), w) == if k < n then w[k] else 0.0
  {
    if n > 0 {
      assert Unit(n, k)[..n - 1] == Unit(n - 1, k);
      DotOfUnit(n - 1, k, w[..n - 1]);
    }
  }

  /** a + t * b, element by element. */
  function Moved(a: seq<real>, t: real, b: seq<real>): (c: seq<real>)
    requires |a| == |b|
    ensures |c| == |a|
  {
    seq(|a|, i requires 0 <= i < |a| => a[i] + t * b[i])
  }

  lemma {:induction false} MovedTerm(d: real, e: real, a: real, t: real, b: real, w: real)
    ensures d + t * e + (a + t * b) * w == (d + a * w) + t * (e + b * w)
  {}

  lemma {:induction false} DotIsLinear(a: seq<real>, t: real, b: seq<real>, w: seq<real>)
    requires |a| == |b| == |w|
    ensures Dot(Moved(a, t, b), w) == Dot(a, w) + t * Dot(b, w)
  {
    if a != [] {
      var n := |a| - 1;
      forall i | 0 <= i < n ensures Moved(a, t, b)[i] == Moved(a[..n], t, b[..n])[i] {
        assert b[..n][i] == b[i] && a[..n][i] == a[i];
      }
      assert Moved(a, t, b)[..n] == Moved(a[..n], t, b[..n]);
      DotIsLinear(a[..n], t, b[..n], w[..n]);
      MovedTerm(Dot(a[..n], w[..n]), Dot(b[..n], w[..n]), a[n], t, b[n], w[n]);
    }
  }

  /** One output per weight row. */
  function Linear(x: seq<real>, weight: seq<seq<real>>, bias: seq<real>): (y: seq<real>)
    requires |weight| == |bias|
    ensures |y| == |weight|
  {
    seq(|weight|, j requires 0 <= j < |weight| => Dot(x, weight[j]) + bias[j])
  }

  /**
   * The layer is the affine map with these weights and biases: it takes 0 to the bias, the
   * unit input `k` to column `k` with the bias, and moves in proportion to its input.
   */
  lemma {:induction false} LinearIsAffine(weight: seq<seq<real>>, bias: seq<real>, inputs: nat, j: nat, k: nat, a: seq<real>, t: real, b: seq<real>)
    requires |weight| == |bias| && j < |weight| && |weight[j]| == inputs && k < inputs && |a| == |b| == inputs
    ensures Linear(Unit(inputs, inputs), weight, bias)[j] == bias[j]
    ensures Linear(Unit(inputs, k), weight, bias)[j] == weight[j][k] + bias[j]
    ensures Linear(Moved(a, t, b), weight, bias)[j] == Linear(a, weight, bias)[j] + t * (Linear(b, weight, bias)[j] - bias[j])
  {
    DotOfUnit(inputs, inputs, weight[j]);
    DotOfUnit(inputs, k, weight[j]);
    DotIsLinear(a, t, b, weight[j]);
  }

  function Bound(width: nat, degree: nat, rank: nat): nat
    requires degree > 0
  {
    width * rank / degree
  }

  lemma {:induction false} BoundsAscend(width: nat, degree: nat, rank: nat)
    requires rank < degree
    ensures Bound(width, degree, rank) <= Bound(width, degree, rank + 1) <= width
    ensures Bound(width, degree, 0) == 0 && Bound(width, degree, degree) == width
  {
    ProductMonotone(width, rank, rank + 1);
    QuotientMonotone(width * rank, width * (rank + 1), degree);
    ProductMonotone(width, rank + 1, degree);
    QuotientMonotone(width * (rank + 1), width * degree, degree);
    ExactProduct(width, degree);
    assert width * 0 == 0;
  }

  /** Columns are cut at the fractions rank / degree of the width, so two ranks' counts differ by at most one. */
  lemma {:induction false} BoundsAreEven(width: nat, degree: nat, rank: nat)
    requires rank < degree
    ensures degree * Bound(width, degree, rank) <= width * rank < degree * (Bound(width, degree, rank) + 1)
    ensures width / degree <= Bound(width, degree, rank + 1) - Bound(width, degree, rank) <= width / degree + 1
  {
    var (q, a, b) := (width / degree, Bound(width, degree, rank), Bound(width, degree, rank + 1));
    Division(width, degree);
    Division(width * rank, degree);
    Division(width * (rank + 1), degree);
    Distribute(width, rank, 1);
    Distribute(degree, a, 1);
    Distribute(degree, b, 1);
    Distribute(degree, a, q);
    Distribute(degree, a + q, 1);
    Distribute(degree, a + q, 2);
    ProductMonotone(degree, b + 1, a + q);
    ProductMonotone(degree, a + q + 2, b);
  }

  /** No rank's shard is empty exactly when the layer is at least as wide as the degree. */
  lemma {:induction false} ShardsAreNonEmpty(width: nat, degree: nat)
    requires degree > 0
    ensures (forall rank: nat | rank < degree :: Bound(width, degree, rank) < Bound(width, degree, rank + 1))
            <==> degree <= width
  {
    if degree <= width {
      forall rank: nat | rank < degree ensures Bound(width, degree, rank) < Bound(width, degree, rank + 1) {
        Distribute(width, rank, 1);
        QuotientMonotone(width * rank, width * (rank + 1), degree);
      }
    } else {
      BoundsAscend(width, degree, 0);
      Division(width, degree);
      SmallQuotient(width, degree);
      assert width * 1 == width;
      assert Bound(width, degree, 1) == 0;
    }
  }

  function Zeros(n: nat): seq<real> {
    seq(n, _ => 0.0)
  }

  /** The rank's rows between rows of zeros, so that the full width is computed. */
  function Padded(rows: seq<seq<real>>, before: nat, after: nat, inputs: nat): seq<seq<real>> {
    seq(before, _ => Zeros(inputs)) + rows + seq(after, _ => Zeros(inputs))
  }

  /** The output columns `start..end`, in reference or sharded mode. */
  function ColumnsBetween(x: seq<real>, weight: seq<seq<real>>, bias: seq<real>, start: nat, end: nat, reference: bool): seq<real>
    requires |weight| == |bias| && start <= end <= |weight|
  {
    if reference then
      var full := Linear(x, Padded(weight[start..end], start, |weight| - end, |x|),
                         Zeros(start) + bias[start..end] + Zeros(|weight| - end));
      full[start..end]
    else Linear(x, weight[start..end], bias[start..end])
  }

  lemma {:induction false} ColumnsAreASlice(x: seq<real>, weight: seq<seq<real>>, bias: seq<real>, start: nat, end: nat, reference: bool)
    requires |weight| == |bias| && start <= end <= |weight|
    ensures ColumnsBetween(x, weight, bias, start, end, reference) == Linear(x, weight, bias)[start..end]
  {
    if reference {
      var rows := Padded(weight[start..end], start, |weight| - end, |x|);
      var biases := Zeros(start) + bias[start..end] + Zeros(|weight| - end);
      forall i | start <= i < end ensures rows[i] == weight[i] && biases[i] == bias[i] {}
    }
  }

  /** A rank's local output. */
  function LocalOutput(x: seq<real>, weight: seq<seq<real>>, bias: seq<real>, degree: nat, rank: nat, reference: bool): seq<real>
    requires |weight| == |bias| && rank < degree
  {
    BoundsAscend(|weight|, degree, rank);
    ColumnsBetween(x, weight, bias, Bound(|weight|, degree, rank), Bound(|weight|, degree, rank + 1), reference)
  }

  /** Both modes give the rank's columns of the full output. */
  lemma {:induction false} LocalIsASlice(x: seq<real>, weight: seq<seq<real>>, bias: seq<real>, degree: nat, rank: nat, reference: bool)
    requires |weight| == |bias| && rank < degree
    ensures var (start, end) := (Bound(|weight|, degree, rank), Bound(|weight|, degree, rank + 1));
            start <= end <= |weight| && LocalOutput(x, weight, bias, degree, rank, reference) == Linear(x, weight, bias)[start..end]
  {
    BoundsAscend(|weight|, degree, rank);
    ColumnsAreASlice(x, weight, bias, Bound(|weight|, degree, rank), Bound(|weight|, degree, rank + 1), reference);
  }

  function Outputs(x: seq<real>, weight: seq<seq<real>>, bias: seq<real>, degree: nat, n: nat, reference: bool): (outputs: seq<seq<real>>)
    requires |weight| == |bias| && n <= degree
    ensures |outputs| == n
  {
    seq(n, rank requires 0 <= rank < n => LocalOutput(x, weight, bias, degree, rank, reference))
  }

  lemma {:induction false} OutputsJoin(x: seq<real>, weight: seq<seq<real>>, bias: seq<real>, degree: nat, n: nat, reference: bool)
    requires |weight| == |bias| && 0 < degree && n <= degree
    ensures Bound(|weight|, degree, n) <= |weight|
    ensures Concat(Outputs(x, weight, bias, degree, n, reference)) == Linear(x, weight, bias)[..Bound(|weight|, degree, n)]
  {
    BoundsAscend(|weight|, degree, if n > 0 then n - 1 else 0);
    if n > 0 {
      OutputsJoin(x, weight, bias, degree, n - 1, reference);
      LocalIsASlice(x, weight, bias, degree, n - 1, reference);
      var outputs := Outputs(x, weight, bias, degree, n, reference);
      assert outputs[..n - 1] == Outputs(x, weight, bias, degree, n - 1, reference);
      JoinSlices(Linear(x, weight, bias), Bound(|weight|, degree, n - 1), Bound(|weight|, degree, n));
    }
  }

  lemma {:induction false} OutputsAreFull(x: seq<real>, weight: seq<seq<real>>, bias: seq<real>, degree: nat, reference: bool)
    requires |weight| == |bias| && 0 < degree
    ensures Concat(Outputs(x, weight, bias, degree, degree, reference)) == Linear(x, weight, bias)
  {
    OutputsJoin(x, weight, bias, degree, degree, reference);
    BoundsAscend(|weight|, degree, 0);
  }

  function ColumnCount(width: nat, degree: nat, rank: nat): nat
    requires rank < degree
  {
    BoundsAscend(width, degree, rank);
    Bound(width, degree, rank + 1) - Bound(width, degree, rank)
  }

  /** The lengths every rank knows: differences of the column bounds. */
  function ShardLengths(width: nat, degree: nat): (lengths: seq<nat>)
    requires degree > 0
    ensures |lengths| == degree
  {
    seq(degree, rank requires 0 <= rank < degree => ColumnCount(width, degree, rank))
  }

  /** The known lengths are those of the local outputs, in both modes. */
  lemma {:induction false} LengthsAreKnown(x: seq<real>, weight: seq<seq<real>>, bias: seq<real>, degree: nat, reference: bool)
    requires |weight| == |bias| && 0 < degree
    ensures Lengths(Outputs(x, weight, bias, degree, degree, reference)) == ShardLengths(|weight|, degree)
  {
    forall rank: nat | rank < degree
      ensures |LocalOutput(x, weight, bias, degree, rank, reference)| == ShardLengths(|weight|, degree)[rank]
    {
      LocalIsASlice(x, weight, bias, degree, rank, reference);
    }
  }

  /** The layers of all ranks are built, unless one of them would have no columns. */
  method BuildShards(width: nat, degree: nat) returns (lengths: Result<seq<nat>>)
    requires 0 < degree
    ensures lengths == if degree <= width then Ok(ShardLengths(width, degree)) else Err
  {
    ShardsAreNonEmpty(width, degree);
    for rank := 0 to degree
      invariant forall r: nat | r < rank :: Bound(width, degree, r) < Bound(width, degree, r + 1)
    {
      BoundsAscend(width, degree, rank);
      if Bound(width, degree, rank) == Bound(width, degree, rank + 1) { return Err; }
    }
    return Ok(ShardLengths(width, degree));
  }

  /**
   * Building the layer and running `forward` on all ranks: the gathered columns are the
   * full layer's output, and a layer narrower than the degree cannot be built.
   */
  method GatheredForward(x: seq<real>, weight: seq<seq<real>>, bias: seq<real>, degree: nat, reference: bool)
    returns (y: Result<seq<real>>)
    requires |weight| == |bias| && 0 < degree
    ensures y == if degree <= |weight| then Ok(Linear(x, weight, bias)) else Err
  {
    var lengths := BuildShards(|weight|, degree);
    if lengths.Err? { return Err; }
    var outputs := Outputs(x, weight, bias, degree, degree, reference);
    OutputsAreFull(x, weight, bias, degree, reference);
    LengthsAreKnown(x, weight, bias, degree, reference);
    y := GatherVariable(outputs, Some(lengths.value), 0.0);
  }
}
