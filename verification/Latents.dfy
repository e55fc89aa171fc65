/**
 * Packing latents into tokens and back: row-major tensors, reshapes that infer one
 * dimension, permutes and flattens.
 */
module Latents {
  import opened Wrappers
  import opened Arithmetic

  // ---- Row-major tensors --------------------------------------------------------------

  datatype Tensor<T> = Tensor(shape: seq<nat>, data: seq<T>) {
    predicate Valid() {
      |data| == Product(shape)
    }
  }

  /** The offset of an element: the last axis runs fastest. */
  function Ravel(shape: seq<nat>, index: seq<nat>): nat
    requires |index| == |shape|
  {
    if shape == [] then 0 else Product(shape[1..]) * index[0] + Ravel(shape[1..], index[1..])
  }

  function Unravel(shape: seq<nat>, offset: nat): (index: seq<nat>)
    requires Positive(shape)
    ensures |index| == |shape|
  {
    if shape == [] then [] else
      [offset / Product(shape[1..])] + Unravel(shape[1..], offset % Product(shape[1..]))
  }

  lemma {:induction false} RavelOfUnravel(shape: seq<nat>, offset: nat)
    requires Positive(shape) && offset < Product(shape)
    ensures InRange(shape, Unravel(shape, offset)) && Ravel(shape, Unravel(shape, offset)) == offset
  {
    if shape != [] {
      var n := Product(shape[1..]);
      Commute(shape[0], n);
      QuotientBelow(offset, n, shape[0]);
      Division(offset, n);
      RavelOfUnravel(shape[1..], offset % n);
      assert Unravel(shape, offset)[1..] == Unravel(shape[1..], offset % n);
    }
  }

  lemma {:induction false} UnravelOfRavel(shape: seq<nat>, index: seq<nat>)
    requires Positive(shape) && InRange(shape, index)
    ensures Ravel(shape, index) < Product(shape) && Unravel(shape, Ravel(shape, index)) == index
  {
    if shape != [] {
      var n := Product(shape[1..]);
      UnravelOfRavel(shape[1..], index[1..]);
      DivMod(n, index[0], Ravel(shape[1..], index[1..]));
      Larger(n, index[0], shape[0]);
      Commute(shape[0], n);
      assert [index[0]] + index[1..] == index;
    }
  }

  function At<T>(t: Tensor<T>, index: seq<nat>): T
    requires t.Valid() && InRange(t.shape, index)
  {
    UnravelOfRavel(t.shape, index);
    t.data[Ravel(t.shape, index)]
  }

  lemma {:induction false} RavelOfJoin(a: seq<nat>, b: seq<nat>, i: seq<nat>, j: seq<nat>)
    requires |i| == |a| && |j| == |b|
    ensures Ravel(a + b, i + j) == Product(b) * Ravel(a, i) + Ravel(b, j)
  {
    if a == [] {
      assert a + b == b && i + j == j;
    } else {
      RavelOfJoin(a[1..], b, i[1..], j);
      assert (a + b)[1..] == a[1..] + b && (i + j)[1..] == i[1..] + j;
      ProductSplit(a[1..], b);
      var (p, q, k, r) := (Product(a[1..]), Product(b), i[0], Ravel(a[1..], i[1..]));
      Distribute(q, p * k, r);
      Associate(q, p, k);
      Commute(p, q);
    }
  }

  // ---- Reshape, flatten, permute ------------------------------------------------------

  /** `reshape` with one dimension to infer, between the given ones. */
  function Reshape<T>(t: Tensor<T>, before: seq<nat>, after: seq<nat>): (r: Result<Tensor<T>>)
    ensures r.Ok? ==> r.value.Valid()
  {
    var known := Product(before + after);
    if known == 0 || |t.data| % known != 0 then Err
    else
      InferredProduct(before, |t.data| / known, after);
      Division(|t.data|, known);
      Ok(Tensor(before + [|t.data| / known] + after, t.data))
  }

  lemma {:induction false} InferredProduct(before: seq<nat>, n: nat, after: seq<nat>)
    ensures Product(before + [n] + after) == Product(before + after) * n
  {
    ProductSplit(before, after);
    ProductSplit(before + [n], after);
    ProductSplit(before, [n]);
    assert Product([n]) == n * Product([n][1..]);
    Associate(Product(before), Product(after), n);
    Associate(Product(before), n, Product(after));
    Commute(n, Product(after));
  }

  /** The reshape that a tensor of the right shape has come from. */
  lemma {:induction false} ReshapeTo<T>(t: Tensor<T>, g: Tensor<T>, before: seq<nat>, n: nat, after: seq<nat>)
    requires g.Valid() && g.shape == before + [n] + after && t.data == g.data && Product(before + after) > 0
    ensures Reshape(t, before, after) == Ok(g)
  {
    InferredProduct(before, n, after);
    DivMod(Product(before + after), n, 0);
  }

  /** `flatten(from, to)`. */
  function Flatten<T>(t: Tensor<T>, from: nat, to: nat): (r: Tensor<T>)
    requires from <= to < |t.shape|
    ensures t.Valid() <==> r.Valid()
  {
    Cut(t.shape, from, to);
    FlattenedProduct(t.shape[..from], t.shape[from..to + 1], t.shape[to + 1..]);
    Tensor(t.shape[..from] + [Product(t.shape[from..to + 1])] + t.shape[to + 1..], t.data)
  }

  lemma {:induction false} FlattenedProduct(a: seq<nat>, b: seq<nat>, c: seq<nat>)
    ensures Product(a + [Product(b)] + c) == Product(a + b + c)
  {
    ProductSplit(a + b, c);
    ProductSplit(a, b);
    ProductSplit(a + [Product(b)], c);
    ProductSplit(a, [Product(b)]);
    ProductOfOne(Product(b));
  }

  lemma {:induction false} FlattenedRavel(a: seq<nat>, b: seq<nat>, c: seq<nat>, i: seq<nat>, j: seq<nat>, k: seq<nat>)
    requires |i| == |a| && |j| == |b| && |k| == |c|
    ensures Ravel(a + [Product(b)] + c, i + [Ravel(b, j)] + k) == Ravel(a + b + c, i + j + k)
  {
    RavelOfJoin(a + b, c, i + j, k);
    RavelOfJoin(a, b, i, j);
    RavelOfJoin(a + [Product(b)], c, i + [Ravel(b, j)], k);
    RavelOfJoin(a, [Product(b)], i, [Ravel(b, j)]);
    ProductOfOne(Product(b));
    RavelOfOne(Product(b), Ravel(b, j));
  }

  lemma {:induction false} Cut(s: seq<nat>, from: nat, to: nat)
    requires from <= to < |s|
    ensures s[..from] + s[from..to + 1] + s[to + 1..] == s
  {}

  lemma {:induction false} FlattenedInRange(a: seq<nat>, b: seq<nat>, c: seq<nat>, i: seq<nat>, j: seq<nat>, k: seq<nat>)
    requires |i| == |a| && |j| == |b| && |k| == |c|
    requires InRange(a + b + c, i + j + k)
    ensures InRange(a + [Product(b)] + c, i + [Ravel(b, j)] + k)
  {
    forall m | 0 <= m < |j| ensures j[m] < b[m] {
      assert (i + j + k)[|a| + m] == j[m] && (a + b + c)[|a| + m] == b[m];
    }
    UnravelOfRavel(b, j);
    forall m | |i| < m < |i| + 1 + |k| ensures (i + [Ravel(b, j)] + k)[m] < (a + [Product(b)] + c)[m] {
      assert (i + j + k)[m - 1 + |j|] == k[m - 1 - |i|] && (a + b + c)[m - 1 + |j|] == c[m - 1 - |i|];
    }
    forall m | 0 <= m < |i| ensures (i + [Ravel(b, j)] + k)[m] < (a + [Product(b)] + c)[m] {
      assert (i + j + k)[m] == i[m] && (a + b + c)[m] == a[m];
    }
  }

  /** The flattened axes count together, the last one fastest. */
  lemma {:induction false} FlattenAt<T>(t: Tensor<T>, from: nat, to: nat, index: seq<nat>)
    requires t.Valid() && from <= to < |t.shape| && InRange(t.shape, index)
    ensures var flat := index[..from] + [Ravel(t.shape[from..to + 1], index[from..to + 1])] + index[to + 1..];
            InRange(Flatten(t, from, to).shape, flat) && At(Flatten(t, from, to), flat) == At(t, index)
  {
    Cut(t.shape, from, to);
    Cut(index, from, to);
    FlattenedRavel(t.shape[..from], t.shape[from..to + 1], t.shape[to + 1..], index[..from], index[from..to + 1], index[to + 1..]);
    FlattenedInRange(t.shape[..from], t.shape[from..to + 1], t.shape[to + 1..], index[..from], index[from..to + 1], index[to + 1..]);
  }

  lemma {:induction false} RavelOfOne(n: nat, i: nat)
    ensures Ravel([n], [i]) == i
  {
    assert Ravel([n], [i]) == Product([n][1..]) * i + Ravel([n][1..], [i][1..]);
  }

  /** Element `j` of the result is element `order[j]` of `s`. */
  function Pick(s: seq<nat>, order: seq<nat>): (picked: seq<nat>)
    requires forall j | 0 <= j < |order| :: order[j] < |s|
    ensures |picked| == |order|
  {
    seq(|order|, j requires 0 <= j < |order| => s[order[j]])
  }

  predicate Permutation(order: seq<nat>) {
    && (forall j | 0 <= j < |order| :: order[j] < |order|)
    && (forall m: nat | m < |order| :: m in order)
    && (forall i, j | 0 <= i < j < |order| :: order[i] != order[j])
  }

  function IndexOf(s: seq<nat>, x: nat): (i: nat)
    requires x in s
    ensures i < |s| && s[i] == x
  {
    if s[0] == x then 0 else 1 + IndexOf(s[1..], x)
  }

  /** Axis `j` of the result is axis `order[j]` of the source, so this is where an index comes from. */
  function Source(order: seq<nat>, index: seq<nat>): (source: seq<nat>)
    requires Permutation(order) && |index| == |order|
    ensures |source| == |order|
  {
    seq(|order|, m requires 0 <= m < |order| => index[IndexOf(order, m)])
  }

  lemma {:induction false} SourceInRange(shape: seq<nat>, order: seq<nat>, index: seq<nat>)
    requires Permutation(order) && |shape| == |order| && InRange(Pick(shape, order), index)
    ensures InRange(shape, Source(order, index))
  {
    forall m: nat | m < |order| ensures Source(order, index)[m] < shape[m] {
      assert Pick(shape, order)[IndexOf(order, m)] == shape[m];
    }
  }

  lemma {:induction false} ProductWithout(s: seq<nat>, k: nat)
    requires k < |s|
    ensures Product(s) == s[k] * Product(s[..k] + s[k + 1..])
  {
    var (a, b) := (s[..k], s[k + 1..]);
    ProductSplit(a, b);
    ProductSplit(a, s[k..]);
    assert a + s[k..] == s && s[k..][1..] == b;
    Associate(Product(a), s[k], Product(b));
    Associate(s[k], Product(a), Product(b));
    Commute(s[k], Product(a));
  }

  lemma {:induction false} OrderWithout(order: seq<nat>, k: nat)
    requires Permutation(order) && k < |order| && order[k] == |order| - 1
    ensures Permutation(order[..k] + order[k + 1..])
  {
    var rest := order[..k] + order[k + 1..];
    forall m: nat | m < |rest| ensures m in rest {
      var j := IndexOf(order, m);
      assert rest[if j < k then j else j - 1] == m;
    }
  }

  /** Reordering the axes keeps the number of elements. */
  lemma {:induction false} PickedProduct(s: seq<nat>, order: seq<nat>)
    requires Permutation(order) && |s| == |order|
    ensures Product(Pick(s, order)) == Product(s)
    decreases |s|
  {
    if s != [] {
      var n := |s| - 1;
      var k := IndexOf(order, n);
      var rest := order[..k] + order[k + 1..];
      var picked := Pick(s, order);
      OrderWithout(order, k);
      PickedProduct(s[..n], rest);
      assert Pick(s[..n], rest) == picked[..k] + picked[k + 1..];
      ProductWithout(picked, k);
      ProductWithout(s, n);
      assert s[..n] + s[n + 1..] == s[..n];
    }
  }

  /** `permute`. */
  function Permute<T>(t: Tensor<T>, order: seq<nat>): (r: Tensor<T>)
    requires t.Valid() && Permutation(order) && |order| == |t.shape|
    ensures r.shape == Pick(t.shape, order) && r.Valid()
  {
    var shape := Pick(t.shape, order);
    PickedProduct(t.shape, order);
    if !Positive(shape) then Tensor(shape, t.data)
    else Tensor(shape, seq(|t.data|, k requires 0 <= k < |t.data| => Permuted(t, order, k)))
  }

  function Permuted<T>(t: Tensor<T>, order: seq<nat>, k: nat): T
    requires t.Valid() && Permutation(order) && |order| == |t.shape| && Positive(Pick(t.shape, order)) && k < |t.data|
  {
    var shape := Pick(t.shape, order);
    PickedProduct(t.shape, order);
    RavelOfUnravel(shape, k);
    SourceInRange(t.shape, order, Unravel(shape, k));
    var source := Source(order, Unravel(shape, k));
    UnravelOfRavel(t.shape, source);
    t.data[Ravel(t.shape, source)]
  }

  lemma {:induction false} PermuteAt<T>(t: Tensor<T>, order: seq<nat>, index: seq<nat>)
    requires t.Valid() && Permutation(order) && |order| == |t.shape| && InRange(Pick(t.shape, order), index)
    ensures InRange(t.shape, Source(order, index))
    ensures At(Permute(t, order), index) == At(t, Source(order, index))
  {
    var shape := Pick(t.shape, order);
    SourceInRange(t.shape, order, index);
    UnravelOfRavel(shape, index);
    PickedProduct(t.shape, order);
  }

  /** `order` and `back` undo each other. */
  predicate Inverse(order: seq<nat>, back: seq<nat>) {
    && Permutation(order) && Permutation(back) && |order| == |back|
    && (forall j | 0 <= j < |order| :: back[order[j]] == j)
  }

  lemma {:induction false} SourceIsPick(order: seq<nat>, back: seq<nat>, index: seq<nat>)
    requires Inverse(order, back) && |index| == |order|
    ensures Source(order, index) == Pick(index, back)
    ensures Source(back, index) == Pick(index, order)
    ensures Pick(Pick(index, order), back) == index
  {
    forall m: nat | m < |order| ensures IndexOf(order, m) == back[m] && IndexOf(back, m) == order[m] && order[back[m]] == m {
      var j := IndexOf(order, m);
      assert back[order[j]] == j;
      var i := IndexOf(back, m);
      assert back[order[m]] == m;
    }
  }

  /** Permuting there and back changes nothing. */
  lemma {:induction false} PermuteBack<T>(t: Tensor<T>, order: seq<nat>, back: seq<nat>)
    requires t.Valid() && Inverse(order, back) && |order| == |t.shape|
    ensures Permute(Permute(t, order), back) == t
  {
    var there := Permute(t, order);
    var again := Permute(there, back);
    SourceIsPick(order, back, t.shape);
    PickedProduct(t.shape, order);
    if Positive(t.shape) {
      forall k | 0 <= k < |t.data| ensures again.data[k] == t.data[k] {
        PermuteBackAt(t, order, back, k);
      }
    } else {
      var j :| 0 <= j < |t.shape| && t.shape[j] == 0;
      assert there.shape[back[j]] == 0;
    }
  }

  lemma {:induction false} PermuteBackAt<T>(t: Tensor<T>, order: seq<nat>, back: seq<nat>, k: nat)
    requires t.Valid() && Inverse(order, back) && |order| == |t.shape| && Positive(t.shape) && k < |t.data|
    requires Pick(Pick(t.shape, order), back) == t.shape
    ensures |Permute(Permute(t, order), back).data| == |t.data|
    ensures Permute(Permute(t, order), back).data[k] == t.data[k]
  {
    var there := Permute(t, order);
    var index := Unravel(t.shape, k);
    RavelOfUnravel(t.shape, k);
    SourceIsPick(order, back, index);
    PermuteAt(there, back, index);
    PermuteAt(t, order, Pick(index, order));
    SourceIsPick(order, back, Pick(index, order));
  }

  // ---- Pack and unpack ----------------------------------------------------------------

  const packOrder: seq<nat> := [0, 2, 4, 6, 1, 3, 5, 7]
  const unpackOrder: seq<nat> := [0, 4, 1, 5, 2, 6, 3, 7]

  lemma {:induction false} InverseBy(order: seq<nat>, back: seq<nat>)
    requires |order| == |back|
    requires forall j | 0 <= j < |order| :: order[j] < |order| && back[j] < |order|
    requires forall j | 0 <= j < |order| :: back[order[j]] == j && order[back[j]] == j
    ensures Inverse(order, back)
  {
    forall m: nat | m < |order| ensures m in order && m in back {
      assert order[back[m]] == m && back[order[m]] == m;
    }
    forall i, j | 0 <= i < j < |order| ensures order[i] != order[j] && back[i] != back[j] {
      assert back[order[i]] == i && order[back[i]] == i;
    }
  }

  lemma {:induction false} OrdersAreInverse()
    ensures Inverse(packOrder, unpackOrder) && Inverse(unpackOrder, packOrder)
  {
    InverseBy(packOrder, unpackOrder);
    InverseBy(unpackOrder, packOrder);
  }

  /** [B, C, f, pt, h, p, w, p] to [B, f, h, w, C, pt, p, p]. */
  function Gathered<T>(g: Tensor<T>): (r: Tensor<T>)
    requires g.Valid() && |g.shape| == 8
    ensures var s := g.shape; r.Valid() && r.shape == [s[0], s[2], s[4], s[6], s[1], s[3], s[5], s[7]]
  {
    OrdersAreInverse();
    Permute(g, packOrder)
  }

  /** And back. */
  function Spread<T>(g: Tensor<T>): (r: Tensor<T>)
    requires g.Valid() && |g.shape| == 8
    ensures var s := g.shape; r.Valid() && r.shape == [s[0], s[4], s[1], s[5], s[2], s[6], s[3], s[7]]
  {
    OrdersAreInverse();
    Permute(g, unpackOrder)
  }

  lemma {:induction false} SpreadOfGathered<T>(g: Tensor<T>)
    requires g.Valid() && |g.shape| == 8
    ensures Spread(Gathered(g)) == g && Gathered(Spread(g)) == g
  {
    OrdersAreInverse();
    PermuteBack(g, packOrder, unpackOrder);
    PermuteBack(g, unpackOrder, packOrder);
  }

  /** [B, f, h, w, C, pt, p, p] to [B, f h w, C pt p p]. */
  function Tokens<T>(g: Tensor<T>): (r: Tensor<T>)
    requires |g.shape| == 8
  {
    Flatten(Flatten(g, 4, 7), 1, 3)
  }

  /** [B, C, f, pt, h, p, w, p] to [B, C, f pt, h p, w p]. */
  function Video<T>(g: Tensor<T>): (r: Tensor<T>)
    requires |g.shape| == 8
  {
    Flatten(Flatten(Flatten(g, 6, 7), 4, 5), 2, 3)
  }

  /** Patch counts are quotients rounded down. */
  function PatchGrid<T>(x: Tensor<T>, p: nat, pt: nat): (g: Result<Tensor<T>>)
    ensures g.Ok? ==> g.value.Valid() && |g.value.shape| == 8 && |x.shape| == 5 && p > 0 && pt > 0
  {
    if |x.shape| != 5 || p == 0 || pt == 0 then Err
    else Reshape(x, [x.shape[0]], [x.shape[2] / pt, pt, x.shape[3] / p, p, x.shape[4] / p, p])
  }

  /** `_pack_latents`. */
  function Pack<T>(x: Tensor<T>, p: nat, pt: nat): (r: Result<Tensor<T>>) {
    match PatchGrid(x, p, pt)
    case Err => Err
    case Ok(g) => Ok(Tokens(Gathered(g)))
  }

  function TokenGrid<T>(y: Tensor<T>, frames: nat, height: nat, width: nat, p: nat, pt: nat): (g: Result<Tensor<T>>)
    ensures g.Ok? ==> g.value.Valid() && |g.value.shape| == 8 && y.shape != []
  {
    if y.shape == [] then Err else Reshape(y, [y.shape[0], frames, height, width], [pt, p, p])
  }

  /** `_unpack_latents`; the sizes count patches. */
  function Unpack<T>(y: Tensor<T>, frames: nat, height: nat, width: nat, p: nat, pt: nat): (r: Result<Tensor<T>>) {
    match TokenGrid(y, frames, height, width, p, pt)
    case Err => Err
    case Ok(g) => Ok(Video(Spread(g)))
  }

  lemma {:induction false} TokensShape<T>(g: Tensor<T>)
    requires |g.shape| == 8
    ensures var s := g.shape;
            Tokens(g) == Tensor([s[0], Product([s[1], s[2], s[3]]), Product([s[4], s[5], s[6], s[7]])], g.data)
  {
    var s := g.shape;
    assert s[4..8] == [s[4], s[5], s[6], s[7]];
    assert s[..4] + [Product(s[4..8])] + s[8..] == [s[0], s[1], s[2], s[3], Product(s[4..8])];
    assert [s[0], s[1], s[2], s[3], Product(s[4..8])][1..4] == [s[1], s[2], s[3]];
  }

  lemma {:induction false} VideoShape<T>(g: Tensor<T>)
    requires |g.shape| == 8
    ensures var s := g.shape;
            Video(g) == Tensor([s[0], s[1], Product([s[2], s[3]]), Product([s[4], s[5]]), Product([s[6], s[7]])], g.data)
  {
    var s := g.shape;
    assert s[6..8] == [s[6], s[7]];
    var t := Flatten(g, 6, 7).shape;
    assert t == [s[0], s[1], s[2], s[3], s[4], s[5], Product([s[6], s[7]])];
    assert t[4..6] == [s[4], s[5]];
    var u := Flatten(Flatten(g, 6, 7), 4, 5).shape;
    assert u == [s[0], s[1], s[2], s[3], Product([s[4], s[5]]), Product([s[6], s[7]])];
    assert u[2..4] == [s[2], s[3]];
  }

  lemma {:induction false} ProductOfThree(a: nat, b: nat, c: nat)
    ensures Product([a, b, c]) == a * b * c
  {
    ProductOfTwo(b, c);
    assert [a, b, c][1..] == [b, c];
    Associate(a, b, c);
  }

  /** The two reshapes have the same known size. */
  lemma {:induction false} SameKnown(b: nat, f: nat, pt: nat, h: nat, p: nat, w: nat)
    ensures Product([b, f, h, w, pt, p, p]) == Product([b, f, pt, h, p, w, p])
  {
    var order: seq<nat> := [0, 1, 3, 5, 2, 4, 6];
    var shape := [b, f, pt, h, p, w, p];
    forall m: nat | m < 7 ensures m in order {
      assert [0, 1, 4, 2, 5, 3, 6][m] < 7 && order[[0, 1, 4, 2, 5, 3, 6][m]] == m;
    }
    PickedProduct(shape, order);
    assert Pick(shape, order) == [b, f, h, w, pt, p, p];
  }

  /** The grid of a tensor that fills its patches. */
  lemma {:induction false} GridOfVideo<T>(g: Tensor<T>, x: Tensor<T>, p: nat, pt: nat)
    requires g.Valid() && |g.shape| == 8 && |x.shape| == 5 && p > 0 && pt > 0 && x.data == g.data
    requires g.shape == [x.shape[0], g.shape[1], x.shape[2] / pt, pt, x.shape[3] / p, p, x.shape[4] / p, p]
    requires Product([x.shape[0], x.shape[2] / pt, pt, x.shape[3] / p, p, x.shape[4] / p, p]) > 0
    ensures PatchGrid(x, p, pt) == Ok(g)
  {
    var (before, after) := ([x.shape[0]], [x.shape[2] / pt, pt, x.shape[3] / p, p, x.shape[4] / p, p]);
    assert before + after == [x.shape[0], x.shape[2] / pt, pt, x.shape[3] / p, p, x.shape[4] / p, p];
    assert before + [g.shape[1]] + after == g.shape;
    ReshapeTo(x, g, before, g.shape[1], after);
  }

  lemma {:induction false} VideoOfGrid<T>(x: Tensor<T>, p: nat, pt: nat)
    requires PatchGrid(x, p, pt).Ok?
    ensures var (s, g) := (x.shape, PatchGrid(x, p, pt).value);
            && g.shape == [s[0], g.shape[1], s[2] / pt, pt, s[3] / p, p, s[4] / p, p] && g.data == x.data
            && Product([s[0], s[2] / pt, pt, s[3] / p, p, s[4] / p, p]) > 0
  {
    var s := x.shape;
    var (before, after) := ([s[0]], [s[2] / pt, pt, s[3] / p, p, s[4] / p, p]);
    assert before + after == [s[0], s[2] / pt, pt, s[3] / p, p, s[4] / p, p];
  }

  lemma {:induction false} GridOfTokens<T>(g: Tensor<T>, y: Tensor<T>, f: nat, h: nat, w: nat, p: nat, pt: nat)
    requires g.Valid() && |g.shape| == 8 && y.shape != [] && y.data == g.data
    requires g.shape == [y.shape[0], f, h, w, g.shape[4], pt, p, p]
    requires Product([y.shape[0], f, h, w, pt, p, p]) > 0
    ensures TokenGrid(y, f, h, w, p, pt) == Ok(g)
  {
    var (before, after) := ([y.shape[0], f, h, w], [pt, p, p]);
    assert before + after == [y.shape[0], f, h, w, pt, p, p];
    assert before + [g.shape[4]] + after == g.shape;
    ReshapeTo(y, g, before, g.shape[4], after);
  }

  lemma {:induction false} TokensOfGrid<T>(y: Tensor<T>, f: nat, h: nat, w: nat, p: nat, pt: nat)
    requires TokenGrid(y, f, h, w, p, pt).Ok?
    ensures var g := TokenGrid(y, f, h, w, p, pt).value;
            && g.shape == [y.shape[0], f, h, w, g.shape[4], pt, p, p] && g.data == y.data
            && Product([y.shape[0], f, h, w, pt, p, p]) > 0
  {
    var (before, after) := ([y.shape[0], f, h, w], [pt, p, p]);
    assert before + after == [y.shape[0], f, h, w, pt, p, p];
  }

  /** Unpacking what was packed gives the patches back, whatever the sizes were. */
  lemma {:induction false} UnpackOfPack<T>(x: Tensor<T>, p: nat, pt: nat)
    requires PatchGrid(x, p, pt).Ok?
    ensures Pack(x, p, pt).Ok?
    ensures Unpack(Pack(x, p, pt).value, x.shape[2] / pt, x.shape[3] / p, x.shape[4] / p, p, pt)
            == Ok(Video(PatchGrid(x, p, pt).value))
  {
    var (g, s) := (PatchGrid(x, p, pt).value, x.shape);
    VideoOfGrid(x, p, pt);
    TokensShape(Gathered(g));
    SameKnown(s[0], s[2] / pt, pt, s[3] / p, p, s[4] / p);
    GridOfTokens(Gathered(g), Tokens(Gathered(g)), s[2] / pt, s[3] / p, s[4] / p, p, pt);
    SpreadOfGathered(g);
  }

  /** Packing what was unpacked gives the tokens back. */
  lemma {:induction false} PackOfUnpack<T>(y: Tensor<T>, f: nat, h: nat, w: nat, p: nat, pt: nat)
    requires TokenGrid(y, f, h, w, p, pt).Ok?
    ensures Unpack(y, f, h, w, p, pt).Ok?
    ensures Pack(Unpack(y, f, h, w, p, pt).value, p, pt) == Ok(Tokens(TokenGrid(y, f, h, w, p, pt).value))
  {
    var g := TokenGrid(y, f, h, w, p, pt).value;
    TokensOfGrid(y, f, h, w, p, pt);
    PatchesArePositive(y.shape[0], f, h, w, p, pt);
    VideoShape(Spread(g));
    PatchesPerAxis(f, pt);
    PatchesPerAxis(h, p);
    PatchesPerAxis(w, p);
    SameKnown(y.shape[0], f, pt, h, p, w);
    GridOfVideo(Spread(g), Video(Spread(g)), p, pt);
    SpreadOfGathered(g);
  }

  lemma {:induction false} PatchesPerAxis(n: nat, p: nat)
    requires p > 0
    ensures Product([n, p]) / p == n && Product([n, p]) % p == 0
  {
    ProductOfTwo(n, p);
    Commute(n, p);
    DivMod(p, n, 0);
  }

  lemma {:induction false} ZeroProduct(s: seq<nat>)
    ensures Product(s) > 0 <==> Positive(s)
  {
    if s != [] {
      ZeroProduct(s[1..]);
      if Positive(s[1..]) { ProductOfPositives(s[0], Product(s[1..])); }
      if Product(s) > 0 {
        assert s[0] > 0 && Product(s[1..]) > 0;
      }
    }
  }

  lemma {:induction false} PatchesArePositive(b: nat, f: nat, h: nat, w: nat, p: nat, pt: nat)
    requires Product([b, f, h, w, pt, p, p]) > 0
    ensures b > 0 && f > 0 && h > 0 && w > 0 && p > 0 && pt > 0
  {
    var s := [b, f, h, w, pt, p, p];
    ZeroProduct(s);
    assert s[0] > 0 && s[1] > 0 && s[2] > 0 && s[3] > 0 && s[4] > 0 && s[5] > 0;
  }

  predicate Divisible<T>(x: Tensor<T>, p: nat, pt: nat) {
    |x.shape| == 5 && p > 0 && pt > 0 && x.shape[2] % pt == 0 && x.shape[3] % p == 0 && x.shape[4] % p == 0
  }

  predicate Occupied<T>(x: Tensor<T>) {
    |x.shape| == 5 && x.shape[0] > 0 && x.shape[2] > 0 && x.shape[3] > 0 && x.shape[4] > 0
  }

  lemma {:induction false} WholePatches(n: nat, p: nat)
    requires p > 0
    ensures Product([n / p, p]) == n <==> n % p == 0
    ensures n % p == 0 ==> (n / p > 0 <==> n > 0)
  {
    ProductOfTwo(n / p, p);
    Commute(n / p, p);
    Division(n, p);
  }

  lemma {:induction false} KnownIsPositive(b: nat, f: nat, h: nat, w: nat, p: nat, pt: nat)
    ensures Product([b, f, pt, h, p, w, p]) > 0 <==> b > 0 && f > 0 && h > 0 && w > 0 && p > 0 && pt > 0
  {
    var s := [b, f, pt, h, p, w, p];
    ZeroProduct(s);
    assert s[0] == b && s[1] == f && s[2] == pt && s[3] == h && s[4] == p && s[5] == w;
  }

  lemma {:induction false} OccupiedGrid<T>(x: Tensor<T>, p: nat, pt: nat)
    requires x.Valid() && Divisible(x, p, pt) && Occupied(x)
    ensures PatchGrid(x, p, pt).Ok? && Video(PatchGrid(x, p, pt).value) == x && PatchGrid(x, p, pt).value.shape[1] == x.shape[1]
  {
    var s := x.shape;
    WholePatches(s[2], pt);
    WholePatches(s[3], p);
    WholePatches(s[4], p);
    KnownIsPositive(s[0], s[2] / pt, s[3] / p, s[4] / p, p, pt);
    var g := Tensor([s[0], s[1], s[2] / pt, pt, s[3] / p, p, s[4] / p, p], x.data);
    VideoShape(g);
    assert Video(g).shape == s;
    GridOfVideo(g, x, p, pt);
  }

  lemma {:induction false} EmptyGrid<T>(x: Tensor<T>, p: nat, pt: nat)
    requires Divisible(x, p, pt) && !Occupied(x)
    ensures PatchGrid(x, p, pt).Err?
  {
    var s := x.shape;
    WholePatches(s[2], pt);
    WholePatches(s[3], p);
    WholePatches(s[4], p);
    KnownIsPositive(s[0], s[2] / pt, s[3] / p, s[4] / p, p, pt);
    assert [s[0]] + [s[2] / pt, pt, s[3] / p, p, s[4] / p, p] == [s[0], s[2] / pt, pt, s[3] / p, p, s[4] / p, p];
  }

  /** A divisible tensor is the video of its patches. */
  lemma {:induction false} DivisibleGrid<T>(x: Tensor<T>, p: nat, pt: nat)
    requires x.Valid() && Divisible(x, p, pt)
    ensures PatchGrid(x, p, pt).Ok? <==> Occupied(x)
    ensures PatchGrid(x, p, pt).Ok? ==> Video(PatchGrid(x, p, pt).value) == x && PatchGrid(x, p, pt).value.shape[1] == x.shape[1]
  {
    if Occupied(x) { OccupiedGrid(x, p, pt); } else { EmptyGrid(x, p, pt); }
  }

  /**
   * Unpack undoes pack exactly when the patch sizes divide the axes. Packing then fails
   * only for an empty batch or an empty frame.
   */
  lemma {:induction false} UnpackUndoesPack<T>(x: Tensor<T>, p: nat, pt: nat)
    requires x.Valid()
    ensures Pack(x, p, pt).Ok? ==>
              && |x.shape| == 5 && p > 0 && pt > 0
              && (Unpack(Pack(x, p, pt).value, x.shape[2] / pt, x.shape[3] / p, x.shape[4] / p, p, pt) == Ok(x)
                  <==> Divisible(x, p, pt))
    ensures Divisible(x, p, pt) ==> (Pack(x, p, pt).Ok? <==> Occupied(x))
  {
    if Divisible(x, p, pt) { DivisibleGrid(x, p, pt); }
    if PatchGrid(x, p, pt).Ok? {
      UnpackOfPack(x, p, pt);
      VideoOfGrid(x, p, pt);
      VideoShape(PatchGrid(x, p, pt).value);
      WholePatches(x.shape[2], pt);
      WholePatches(x.shape[3], p);
      WholePatches(x.shape[4], p);
    }
  }

  lemma {:induction false} UnevenSizes()
    ensures Product([1, 4, 1, 3, 2]) == 24 && Product([1, 1, 1, 1, 2, 1, 2]) == 4
  {
    ProductOfThree(1, 3, 2);
    ProductOfThree(2, 1, 2);
    ProductOfTwo(1, 4);
    ProductSplit([1, 4], [1, 3, 2]);
    assert [1, 4] + [1, 3, 2] == [1, 4, 1, 3, 2];
    ProductOfTwo(1, 1);
    ProductSplit([1, 1], [1, 1]);
    ProductSplit([1, 1] + [1, 1], [2, 1, 2]);
    assert [1, 1] + [1, 1] + [2, 1, 2] == [1, 1, 1, 1, 2, 1, 2];
  }

  lemma {:induction false} UnevenGrid<T>(x: Tensor<T>)
    requires x.shape == [1, 4, 1, 3, 2] && |x.data| == 24
    ensures PatchGrid(x, 2, 1) == Ok(Tensor([1, 6, 1, 1, 1, 2, 1, 2], x.data))
  {
    UnevenSizes();
    assert [1] + [1, 1, 1, 2, 1, 2] == [1, 1, 1, 1, 2, 1, 2];
    assert [1] + [6] + [1, 1, 1, 2, 1, 2] == [1, 6, 1, 1, 1, 2, 1, 2];
  }

  /**
   * Four channels of 3 x 2 pixels are packed in patches of 2 x 2, as if they were six
   * channels of 2 x 2, and do not come back.
   */
  lemma {:induction false} UnevenPackIsAccepted<T>(x: Tensor<T>)
    requires x.shape == [1, 4, 1, 3, 2] && |x.data| == 24
    ensures x.Valid() && Pack(x, 2, 1).Ok?
    ensures PatchGrid(x, 2, 1) == Ok(Tensor([1, 6, 1, 1, 1, 2, 1, 2], x.data))
    ensures Unpack(Pack(x, 2, 1).value, 1, 1, 1, 2, 1) != Ok(x)
  {
    UnevenSizes();
    UnevenGrid(x);
    assert !Divisible(x, 2, 1);
    UnpackUndoesPack(x, 2, 1);
  }

  lemma {:induction false} Cancel(n: nat, a: nat, b: nat)
    requires n > 0 && n * a == n * b
    ensures a == b
  {
    DivMod(n, a, 0);
    DivMod(n, b, 0);
  }

  lemma {:induction false} LastSize<T>(y: Tensor<T>, t: Tensor<T>)
    requires y.Valid() && t.Valid() && |y.data| == |t.data| && |y.shape| == |t.shape| == 3
    requires y.shape[0] == t.shape[0] > 0 && y.shape[1] == t.shape[1] > 0
    ensures y.shape == t.shape
  {
    var (b, n) := (y.shape[0], y.shape[1]);
    assert y.shape == [b, n, y.shape[2]] && t.shape == [b, n, t.shape[2]];
    ProductOfThree(b, n, y.shape[2]);
    ProductOfThree(b, n, t.shape[2]);
    ProductOfPositives(b, n);
    Cancel(b * n, y.shape[2], t.shape[2]);
  }

  /** Pack undoes unpack exactly when the sizes given count the tokens. */
  lemma {:induction false} PackUndoesUnpack<T>(y: Tensor<T>, f: nat, h: nat, w: nat, p: nat, pt: nat)
    requires y.Valid() && Unpack(y, f, h, w, p, pt).Ok?
    ensures Pack(Unpack(y, f, h, w, p, pt).value, p, pt) == Ok(y) <==> |y.shape| == 3 && y.shape[1] == f * h * w
  {
    var g := TokenGrid(y, f, h, w, p, pt).value;
    PackOfUnpack(y, f, h, w, p, pt);
    TokensOfGrid(y, f, h, w, p, pt);
    TokensShape(g);
    ProductOfThree(f, h, w);
    if |y.shape| == 3 && y.shape[1] == f * h * w {
      PatchesArePositive(y.shape[0], f, h, w, p, pt);
      ProductOfPositives(f, h);
      ProductOfPositives(f * h, w);
      assert Tokens(g).Valid();
      LastSize(y, Tokens(g));
    }
  }

  /** One element: its patch is its token, its channel and place in the patch its feature. */
  lemma {:induction false} PackedElement<T>(g: Tensor<T>, index: seq<nat>)
    requires g.Valid() && |g.shape| == 8 && InRange(g.shape, index)
    ensures var (s, i) := (g.shape, index);
            var place := [i[0], i[1], Ravel([s[2], s[3]], [i[2], i[3]]), Ravel([s[4], s[5]], [i[4], i[5]]),
                          Ravel([s[6], s[7]], [i[6], i[7]])];
            var token := [i[0], Ravel([s[2], s[4], s[6]], [i[2], i[4], i[6]]),
                          Ravel([s[1], s[3], s[5], s[7]], [i[1], i[3], i[5], i[7]])];
            && InRange(Video(g).shape, place) && InRange(Tokens(Gathered(g)).shape, token)
            && At(Tokens(Gathered(g)), token) == At(Video(g), place)
  {
    VideoAt(g, index);
    GatheredAt(g, index);
    var i := index;
    TokensAt(Gathered(g), [i[0], i[2], i[4], i[6], i[1], i[3], i[5], i[7]]);
  }

  /** Flattening a pair of neighbouring axes. */
  lemma {:induction false} PairAt<T>(t: Tensor<T>, a: nat, i: seq<nat>)
    requires t.Valid() && a + 1 < |t.shape| && InRange(t.shape, i)
    ensures var (r, j) := (Flatten(t, a, a + 1), i[..a] + [Ravel([t.shape[a], t.shape[a + 1]], [i[a], i[a + 1]])] + i[a + 2..]);
            && r.Valid() && r.shape == t.shape[..a] + [Product([t.shape[a], t.shape[a + 1]])] + t.shape[a + 2..]
            && InRange(r.shape, j) && At(r, j) == At(t, i)
  {
    FlattenAt(t, a, a + 1, i);
    assert t.shape[a..a + 2] == [t.shape[a], t.shape[a + 1]] && i[a..a + 2] == [i[a], i[a + 1]];
  }

  lemma {:induction false} WidthAt<T>(g: Tensor<T>, i: seq<nat>)
    requires g.Valid() && |g.shape| == 8 && InRange(g.shape, i)
    ensures var (s, t) := (g.shape, Flatten(g, 6, 7));
            var j := [i[0], i[1], i[2], i[3], i[4], i[5], Ravel([s[6], s[7]], [i[6], i[7]])];
            && t.Valid() && t.shape == [s[0], s[1], s[2], s[3], s[4], s[5], Product([s[6], s[7]])]
            && InRange(t.shape, j) && At(t, j) == At(g, i)
  {
    PairAt(g, 6, i);
    assert i[..6] + [Ravel([g.shape[6], g.shape[7]], [i[6], i[7]])] + i[8..]
        == [i[0], i[1], i[2], i[3], i[4], i[5], Ravel([g.shape[6], g.shape[7]], [i[6], i[7]])];
  }

  lemma {:induction false} HeightAt<T>(g: Tensor<T>, i: seq<nat>)
    requires g.Valid() && |g.shape| == 7 && InRange(g.shape, i)
    ensures var (s, t) := (g.shape, Flatten(g, 4, 5));
            var j := [i[0], i[1], i[2], i[3], Ravel([s[4], s[5]], [i[4], i[5]]), i[6]];
            && t.Valid() && t.shape == [s[0], s[1], s[2], s[3], Product([s[4], s[5]]), s[6]]
            && InRange(t.shape, j) && At(t, j) == At(g, i)
  {
    PairAt(g, 4, i);
    assert i[..4] + [Ravel([g.shape[4], g.shape[5]], [i[4], i[5]])] + i[6..]
        == [i[0], i[1], i[2], i[3], Ravel([g.shape[4], g.shape[5]], [i[4], i[5]]), i[6]];
  }

  lemma {:induction false} FramesAt<T>(g: Tensor<T>, i: seq<nat>)
    requires g.Valid() && |g.shape| == 6 && InRange(g.shape, i)
    ensures var (s, t) := (g.shape, Flatten(g, 2, 3));
            var j := [i[0], i[1], Ravel([s[2], s[3]], [i[2], i[3]]), i[4], i[5]];
            && t.Valid() && InRange(t.shape, j) && At(t, j) == At(g, i)
  {
    PairAt(g, 2, i);
    assert i[..2] + [Ravel([g.shape[2], g.shape[3]], [i[2], i[3]])] + i[4..]
        == [i[0], i[1], Ravel([g.shape[2], g.shape[3]], [i[2], i[3]]), i[4], i[5]];
  }

  lemma {:induction false} VideoAt<T>(g: Tensor<T>, i: seq<nat>)
    requires g.Valid() && |g.shape| == 8 && InRange(g.shape, i)
    ensures var s := g.shape;
            var place := [i[0], i[1], Ravel([s[2], s[3]], [i[2], i[3]]), Ravel([s[4], s[5]], [i[4], i[5]]),
                          Ravel([s[6], s[7]], [i[6], i[7]])];
            InRange(Video(g).shape, place) && At(Video(g), place) == At(g, i)
  {
    var s := g.shape;
    var (m, l) := (Ravel([s[4], s[5]], [i[4], i[5]]), Ravel([s[6], s[7]], [i[6], i[7]]));
    WidthAt(g, i);
    HeightAt(Flatten(g, 6, 7), [i[0], i[1], i[2], i[3], i[4], i[5], l]);
    FramesAt(Flatten(Flatten(g, 6, 7), 4, 5), [i[0], i[1], i[2], i[3], m, l]);
  }

  /** The source of an index of the gathered tensor. */
  lemma {:induction false} GatheredSource(i: seq<nat>)
    requires |i| == 8
    ensures Permutation(packOrder) && |packOrder| == 8
    ensures Source(packOrder, [i[0], i[2], i[4], i[6], i[1], i[3], i[5], i[7]]) == i
  {
    OrdersAreInverse();
    SourceIsPick(packOrder, unpackOrder, [i[0], i[2], i[4], i[6], i[1], i[3], i[5], i[7]]);
    assert Pick([i[0], i[2], i[4], i[6], i[1], i[3], i[5], i[7]], unpackOrder) == i;
  }

  lemma {:induction false} GatheredAt<T>(g: Tensor<T>, i: seq<nat>)
    requires g.Valid() && |g.shape| == 8 && InRange(g.shape, i)
    ensures var j := [i[0], i[2], i[4], i[6], i[1], i[3], i[5], i[7]];
            InRange(Gathered(g).shape, j) && At(Gathered(g), j) == At(g, i)
  {
    GatheredSource(i);
    PermuteAt(g, packOrder, [i[0], i[2], i[4], i[6], i[1], i[3], i[5], i[7]]);
  }

  lemma {:induction false} FeatureAt<T>(g: Tensor<T>, i: seq<nat>)
    requires g.Valid() && |g.shape| == 8 && InRange(g.shape, i)
    ensures var (s, t) := (g.shape, Flatten(g, 4, 7));
            var j := [i[0], i[1], i[2], i[3], Ravel([s[4], s[5], s[6], s[7]], [i[4], i[5], i[6], i[7]])];
            && t.Valid() && t.shape == [s[0], s[1], s[2], s[3], Product([s[4], s[5], s[6], s[7]])]
            && InRange(t.shape, j) && At(t, j) == At(g, i)
  {
    var s := g.shape;
    FlattenAt(g, 4, 7, i);
    assert s[4..8] == [s[4], s[5], s[6], s[7]] && i[4..8] == [i[4], i[5], i[6], i[7]];
    assert i[..4] + [Ravel(s[4..8], i[4..8])] + i[8..]
        == [i[0], i[1], i[2], i[3], Ravel([s[4], s[5], s[6], s[7]], [i[4], i[5], i[6], i[7]])];
  }

  lemma {:induction false} TokenAt<T>(g: Tensor<T>, i: seq<nat>)
    requires g.Valid() && |g.shape| == 5 && InRange(g.shape, i)
    ensures var (s, t) := (g.shape, Flatten(g, 1, 3));
            var j := [i[0], Ravel([s[1], s[2], s[3]], [i[1], i[2], i[3]]), i[4]];
            t.Valid() && InRange(t.shape, j) && At(t, j) == At(g, i)
  {
    var s := g.shape;
    FlattenAt(g, 1, 3, i);
    assert s[1..4] == [s[1], s[2], s[3]] && i[1..4] == [i[1], i[2], i[3]];
    assert i[..1] + [Ravel(s[1..4], i[1..4])] + i[4..] == [i[0], Ravel([s[1], s[2], s[3]], [i[1], i[2], i[3]]), i[4]];
  }

  lemma {:induction false} TokensAt<T>(g: Tensor<T>, i: seq<nat>)
    requires g.Valid() && |g.shape| == 8 && InRange(g.shape, i)
    ensures var s := g.shape;
            var token := [i[0], Ravel([s[1], s[2], s[3]], [i[1], i[2], i[3]]), Ravel([s[4], s[5], s[6], s[7]], [i[4], i[5], i[6], i[7]])];
            InRange(Tokens(g).shape, token) && At(Tokens(g), token) == At(g, i)
  {
    var s := g.shape;
    FeatureAt(g, i);
    TokenAt(Flatten(g, 4, 7), [i[0], i[1], i[2], i[3], Ravel([s[4], s[5], s[6], s[7]], [i[4], i[5], i[6], i[7]])]);
  }
}
