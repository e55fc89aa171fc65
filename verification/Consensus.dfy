/**
 * Decisions of a sequence-parallel group: every rank contributes its shard's sums
 * to an all-reduce, and the codes of the decisions are compared by their moments.
 */
module Consensus {
  import opened Wrappers
  import opened Tensors

  // ---- Shards -----------------------------------------------------------------

  function Concat(parts: seq<Tensor>): Tensor {
    if parts == [] then [] else Concat(parts[..|parts| - 1]) + parts[|parts| - 1]
  }

  predicate SameShapes(a: seq<Tensor>, b: seq<Tensor>) {
    |a| == |b| && forall k | 0 <= k < |a| :: |a[k]| == |b[k]|
  }

  function SubAll(a: seq<Tensor>, b: seq<Tensor>): (c: seq<Tensor>)
    requires SameShapes(a, b)
    ensures |c| == |a|
  {
    seq(|a|, k requires 0 <= k < |a| => Sub(a[k], b[k]))
  }

  function AddAll(a: seq<Tensor>, b: seq<Tensor>): (c: seq<Tensor>)
    requires SameShapes(a, b)
    ensures |c| == |a|
  {
    seq(|a|, k requires 0 <= k < |a| => Add(a[k], b[k]))
  }

  lemma {:induction false} SubOfAppend(a: Tensor, b: Tensor, c: Tensor, d: Tensor)
    requires |a| == |c| && |b| == |d|
    ensures Sub(a + b, c + d) == Sub(a, c) + Sub(b, d)
  {}

  lemma {:induction false} AddOfAppend(a: Tensor, b: Tensor, c: Tensor, d: Tensor)
    requires |a| == |c| && |b| == |d|
    ensures Add(a + b, c + d) == Add(a, c) + Add(b, d)
  {}

  /** Whole tensors subtract shard by shard. */
  lemma {:induction false} ConcatSub(a: seq<Tensor>, b: seq<Tensor>)
    requires SameShapes(a, b)
    ensures |Concat(a)| == |Concat(b)|
    ensures Sub(Concat(a), Concat(b)) == Concat(SubAll(a, b))
  {
    if a != [] {
      var last := |a| - 1;
      ConcatSub(a[..last], b[..last]);
      assert SubAll(a, b)[..last] == SubAll(a[..last], b[..last]);
      SubOfAppend(Concat(a[..last]), a[last], Concat(b[..last]), b[last]);
    }
  }

  lemma {:induction false} ConcatAdd(a: seq<Tensor>, b: seq<Tensor>)
    requires SameShapes(a, b)
    ensures |Concat(a)| == |Concat(b)|
    ensures Add(Concat(a), Concat(b)) == Concat(AddAll(a, b))
  {
    if a != [] {
      var last := |a| - 1;
      ConcatAdd(a[..last], b[..last]);
      assert AddAll(a, b)[..last] == AddAll(a[..last], b[..last]);
      AddOfAppend(Concat(a[..last]), a[last], Concat(b[..last]), b[last]);
    }
  }

  /** An all-reduce of one number per rank. */
  function Reduce(values: seq<real>): real {
    if values == [] then 0.0 else Reduce(values[..|values| - 1]) + values[|values| - 1]
  }

  function AbsSums(parts: seq<Tensor>): (sums: seq<real>)
    ensures |sums| == |parts|
  {
    seq(|parts|, k requires 0 <= k < |parts| => AbsSum(parts[k]))
  }

  lemma {:induction false} ReducedAbsSum(parts: seq<Tensor>)
    ensures Reduce(AbsSums(parts)) == AbsSum(Concat(parts))
  {
    if parts != [] {
      var last := |parts| - 1;
      ReducedAbsSum(parts[..last]);
      assert AbsSums(parts)[..last] == AbsSums(parts[..last]);
      AbsSumAppend(Concat(parts[..last]), parts[last]);
    }
  }

  /** `relative_l1` in a group: a shape error on one rank raises on all. */
  function GroupRelativeL1(currents: seq<Tensor>, previouses: seq<Tensor>): Result<real>
    requires |currents| == |previouses|
  {
    if !SameShapes(currents, previouses) then Err
    else Ok(Reduce(AbsSums(SubAll(currents, previouses))) / AtLeastTiny(Reduce(AbsSums(previouses))))
  }

  /** The group computes the distance of the whole sequences. */
  lemma {:induction false} GroupDistanceIsWhole(currents: seq<Tensor>, previouses: seq<Tensor>)
    requires SameShapes(currents, previouses)
    ensures GroupRelativeL1(currents, previouses) == RelativeL1(Concat(currents), Concat(previouses))
  {
    ConcatSub(currents, previouses);
    ReducedAbsSum(SubAll(currents, previouses));
    ReducedAbsSum(previouses);
  }

  // ---- Decision codes -----------------------------------------------------------

  function Sum(ds: seq<int>): int {
    if ds == [] then 0 else Sum(ds[..|ds| - 1]) + ds[|ds| - 1]
  }

  function SumOfSquares(ds: seq<int>): int {
    if ds == [] then 0 else SumOfSquares(ds[..|ds| - 1]) + ds[|ds| - 1] * ds[|ds| - 1]
  }

  predicate AllEqual(ds: seq<int>) {
    forall i, j | 0 <= i < j < |ds| :: ds[i] == ds[j]
  }

  /** `assert_decision`: do the reduced moments show a mismatch? */
  method MismatchFound(ds: seq<int>) returns (mismatch: bool)
    ensures mismatch <==> !AllEqual(ds)
  {
    var total, totalSquared := 0, 0;
    for k := 0 to |ds|
      invariant total == Sum(ds[..k]) && totalSquared == SumOfSquares(ds[..k])
    {
      assert ds[..k + 1][..k] == ds[..k];
      total, totalSquared := total + ds[k], totalSquared + ds[k] * ds[k];
    }
    assert ds[..|ds|] == ds;
    MomentsTellEquality(ds);
    mismatch := Abs((totalSquared * |ds| - total * total) as real) > 0.5;
  }

  function Moments(ds: seq<int>): int {
    SumOfSquares(ds) * |ds| - Sum(ds) * Sum(ds)
  }

  /** Squared distances to `x`. */
  function Spread(ds: seq<int>, x: int): (s: int)
    ensures s >= 0
  {
    if ds == [] then 0
    else
      var d := x - ds[|ds| - 1];
      SquareIsNatural(d);
      Spread(ds[..|ds| - 1], x) + d * d
  }

  lemma {:induction false} SquareIsNatural(d: int)
    ensures d * d >= 0
    ensures d != 0 ==> d * d >= 1
  {}

  lemma {:induction false} SpreadFormula(ds: seq<int>, x: int)
    ensures Spread(ds, x) == SumOfSquares(ds) - 2 * (x * Sum(ds)) + |ds| * (x * x)
  {
    if ds != [] {
      var (rest, d) := (ds[..|ds| - 1], ds[|ds| - 1]);
      SpreadFormula(rest, x);
      SquareOfDifference(x, d);
      Grow(|rest|, x, Sum(rest), d);
    }
  }

  lemma {:induction false} SquareOfDifference(x: int, d: int)
    ensures (x - d) * (x - d) == x * x - 2 * (x * d) + d * d
  {}

  lemma {:induction false} Grow(n: nat, x: int, s: int, d: int)
    ensures (n + 1) * (x * x) == n * (x * x) + x * x
    ensures x * (s + d) == x * s + x * d
  {}

  lemma {:induction false} SquareOfSum(s: int, x: int)
    ensures (s + x) * (s + x) == s * s + 2 * (x * s) + x * x
  {}

  lemma {:induction false} OneMoreTerm(q: int, y: int, n: int)
    ensures (q + y) * (n + 1) == q * n + q + n * y + y
  {}

  /** One more rank adds its squared distances to all the others. */
  lemma {:induction false} MomentsGrow(ds: seq<int>, x: int)
    ensures Moments(ds + [x]) == Moments(ds) + Spread(ds, x)
  {
    var (n, s, q) := (|ds|, Sum(ds), SumOfSquares(ds));
    assert (ds + [x])[..n] == ds;
    SpreadFormula(ds, x);
    OneMoreTerm(q, x * x, n);
    SquareOfSum(s, x);
  }

  lemma {:induction false} SpreadTellsEquality(ds: seq<int>, x: int)
    ensures Spread(ds, x) == 0 <==> forall i | 0 <= i < |ds| :: ds[i] == x
  {
    if ds != [] {
      var last := |ds| - 1;
      SpreadTellsEquality(ds[..last], x);
      SquareIsNatural(x - ds[last]);
      assert forall i | 0 <= i < last :: ds[..last][i] == ds[i];
    }
  }

  /** n * sum(d^2) - (sum d)^2 is never negative, and at least 1 unless all codes agree. */
  lemma {:induction false} MomentsTellEquality(ds: seq<int>)
    ensures Moments(ds) >= 0
    ensures Moments(ds) >= 1 <==> !AllEqual(ds)
  {
    if ds != [] {
      var (rest, x) := (ds[..|ds| - 1], ds[|ds| - 1]);
      MomentsTellEquality(rest);
      MomentsGrow(rest, x);
      SpreadTellsEquality(rest, x);
      assert rest + [x] == ds;
      assert forall i | 0 <= i < |rest| :: rest[i] == ds[i];
      if AllEqual(ds) {
        assert forall i | 0 <= i < |rest| :: ds[i] == ds[|ds| - 1];
      } else if AllEqual(rest) {
        var i, j :| 0 <= i < j < |ds| && ds[i] != ds[j];
        assert j < |rest| ==> rest[i] == rest[j];
      }
    }
  }
}
