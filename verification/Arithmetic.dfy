/** Products of sizes and division of naturals: the facts the index arithmetic rests on. */
module Arithmetic {
  predicate Positive(sizes: seq<nat>) {
    forall i | 0 <= i < |sizes| :: sizes[i] > 0
  }

  function Product(sizes: seq<nat>): (p: nat)
    ensures Positive(sizes) ==> p > 0
  {
    if sizes == [] then 1
    else
      var rest := Product(sizes[1..]);
      ProductOfPositives(sizes[0], rest);
      sizes[0] * rest
  }

  lemma {:induction false} ProductOfPositives(a: nat, b: nat)
    ensures a > 0 && b > 0 ==> a * b > 0
  {}

  lemma {:induction false} Larger(n: nat, q: nat, p: nat)
    requires q < p
    ensures n * q + n <= n * p
  {
    if q + 1 < p { Larger(n, q, p - 1); }
    NextMultiple(n, p - 1);
  }

  lemma {:induction false} NextMultiple(n: nat, q: nat)
    ensures n * (q + 1) == n * q + n
  {}

  /** Quotient and remainder are determined by their equation. */
  lemma {:induction false} DivMod(n: nat, q: nat, r: nat)
    requires r < n
    ensures (n * q + r) / n == q && (n * q + r) % n == r
  {
    var x := n * q + r;
    var (d, m) := (x / n, x % n);
    assert x == n * d + m;
    if d < q { Larger(n, d, q); }
    if q < d { Larger(n, q, d); }
  }

  /** A number has one quotient and one remainder. */
  lemma {:induction false} SameNumeral(n: nat, q: nat, r: nat, q': nat, r': nat)
    requires r < n && r' < n
    ensures n * q + r == n * q' + r' <==> q == q' && r == r'
  {
    DivMod(n, q, r);
    DivMod(n, q', r');
  }

  lemma {:induction false} Division(x: nat, n: nat)
    requires n > 0
    ensures x == n * (x / n) + x % n && x % n < n
  {}

  lemma {:induction false} Associate(a: nat, b: nat, c: nat)
    ensures a * (b * c) == (a * b) * c
  {}

  lemma {:induction false} Distribute(a: nat, b: nat, c: nat)
    ensures a * (b + c) == a * b + a * c
  {}

  lemma {:induction false} QuotientBelow(r: nat, n: nat, p: nat)
    requires n > 0 && r < n * p
    ensures r / n < p
  {
    assert r == n * (r / n) + r % n;
    if r / n >= p {
      if p < r / n { Larger(n, p, r / n); }
    }
  }

  predicate InRange(sizes: seq<nat>, coords: seq<nat>) {
    |coords| == |sizes| && forall i | 0 <= i < |coords| :: coords[i] < sizes[i]
  }

  lemma {:induction false} ProductOfOne(n: nat)
    ensures Product([n]) == n
  {
    assert Product([n]) == n * Product([n][1..]);
  }

  lemma {:induction false} ProductOfTwo(a: nat, b: nat)
    ensures Product([a, b]) == a * b
  {
    ProductOfOne(b);
    assert [a, b][1..] == [b];
  }

  lemma {:induction false} ProductSplit(low: seq<nat>, high: seq<nat>)
    ensures Product(low + high) == Product(low) * Product(high)
  {
    if low == [] {
      assert low + high == high;
    } else {
      ProductSplit(low[1..], high);
      assert (low + high)[1..] == low[1..] + high;
      Associate(low[0], Product(low[1..]), Product(high));
    }
  }

  lemma {:induction false} Commute(a: nat, b: nat)
    ensures a * b == b * a
  {}

  lemma {:induction false} ProductMonotone(n: nat, a: nat, b: nat)
    ensures a <= b ==> n * a <= n * b
  {
    if a <= b { Distribute(n, a, b - a); }
  }

  lemma {:induction false} SmallQuotient(x: nat, n: nat)
    requires x < n
    ensures x / n == 0
  {}

  /** `n` computes allow `m` skips each. */
  function Budget(m: nat, n: nat): nat {
    if n == 0 then 0 else Budget(m, n - 1) + m
  }

  lemma {:induction false} BudgetIsProduct(m: nat, n: nat)
    ensures Budget(m, n) == m * n
  {
    if n > 0 {
      BudgetIsProduct(m, n - 1);
      assert m * n == m * (n - 1) + m;
    }
  }
}
