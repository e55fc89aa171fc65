/** Flat tensors over the reals, as the cache controllers and their clients use them. */
module Tensors {
  import opened Wrappers

  type Tensor = seq<real>

  /** A layout signature. */
  type Layout = int

  function Add(a: Tensor, b: Tensor): (c: Tensor)
    requires |a| == |b|
    ensures |c| == |a| && forall i | 0 <= i < |a| :: c[i] == a[i] + b[i]
  {
    seq(|a|, i requires 0 <= i < |a| => a[i] + b[i])
  }

  function Sub(a: Tensor, b: Tensor): (c: Tensor)
    requires |a| == |b|
    ensures |c| == |a| && forall i | 0 <= i < |a| :: c[i] == a[i] - b[i]
  {
    seq(|a|, i requires 0 <= i < |a| => a[i] - b[i])
  }

  function Scale(a: Tensor, k: real): (c: Tensor)
    ensures |c| == |a| && forall i | 0 <= i < |a| :: c[i] == a[i] * k
  {
    seq(|a|, i requires 0 <= i < |a| => a[i] * k)
  }

  function Abs(x: real): (y: real)
    ensures y >= 0.0
  {
    if x < 0.0 then -x else x
  }

  function AbsSum(a: Tensor): (s: real)
    ensures s >= 0.0
  {
    if a == [] then 0.0 else AbsSum(a[..|a| - 1]) + Abs(a[|a| - 1])
  }

  lemma {:induction false} AbsSumAppend(a: Tensor, b: Tensor)
    ensures AbsSum(a + b) == AbsSum(a) + AbsSum(b)
  {
    if b == [] {
      assert a + b == a;
    } else {
      AbsSumAppend(a, b[..|b| - 1]);
      assert (a + b)[..|a + b| - 1] == a + b[..|b| - 1];
    }
  }

  function AtLeastTiny(x: real): (y: real)
    ensures y > 0.0
  {
    if x > 0.000000000001 then x else 0.000000000001
  }

  /** `relative_l1` without a group; a changed shape raises. */
  function RelativeL1(current: Tensor, previous: Tensor): Result<real> {
    if |current| != |previous| then Err
    else Ok(AbsSum(Sub(current, previous)) / AtLeastTiny(AbsSum(previous)))
  }

  /** `_evaluate_polynomial`, highest coefficient first. */
  function Polynomial(coefficients: seq<real>, x: real): real {
    if coefficients == [] then 0.0
    else Polynomial(coefficients[..|coefficients| - 1], x) * x + coefficients[|coefficients| - 1]
  }

  // ---- The same sums, written out ---------------------------------------------------------

  /** |a_0 - b_0| + ... + |a_(n-1) - b_(n-1)|. */
  function Apart(a: Tensor, b: Tensor, n: nat): (sum: real)
    requires n <= |a| == |b|
    ensures sum >= 0.0
  {
    if n == 0 then 0.0
    else Apart(a, b, n - 1) + if a[n - 1] >= b[n - 1] then a[n - 1] - b[n - 1] else b[n - 1] - a[n - 1]
  }

  /** |b_0| + ... + |b_(n-1)|. */
  function Size(b: Tensor, n: nat): (sum: real)
    requires n <= |b|
    ensures sum >= 0.0
  {
    if n == 0 then 0.0 else Size(b, n - 1) + if b[n - 1] >= 0.0 then b[n - 1] else 0.0 - b[n - 1]
  }

  /** What a distance is divided by. */
  function Scaled(b: Tensor): (m: real)
    ensures m > 0.0
  {
    if Size(b, |b|) > 0.000000000001 then Size(b, |b|) else 0.000000000001
  }

  lemma {:induction false} AbsSumUpTo(c: Tensor, a: Tensor, b: Tensor, n: nat)
    requires n <= |a| == |b| == |c| && forall i | 0 <= i < |a| :: c[i] == a[i] - b[i]
    ensures AbsSum(c[..n]) == Apart(a, b, n)
  {
    if n > 0 {
      AbsSumUpTo(c, a, b, n - 1);
      assert c[..n][..n - 1] == c[..n - 1];
    }
  }

  lemma {:induction false} AbsSumIsSize(b: Tensor, n: nat)
    requires n <= |b|
    ensures AbsSum(b[..n]) == Size(b, n)
  {
    if n > 0 {
      AbsSumIsSize(b, n - 1);
      assert b[..n][..n - 1] == b[..n - 1];
    }
  }

  lemma {:induction false} RatioBelow(x: real, m: real, t: real)
    requires m > 0.0
    ensures x / m < t <==> x < t * m
  {
    var q := x / m;
    assert q * m == x;
    if q < t { RealProduct(q, t, m); }
    if t <= q { RealProductLeq(t, q, m); }
  }

  lemma {:induction false} RealProduct(a: real, b: real, m: real)
    requires a < b && m > 0.0
    ensures a * m < b * m
  {}

  lemma {:induction false} RealProductLeq(a: real, b: real, m: real)
    requires a <= b && m > 0.0
    ensures a * m <= b * m
  {}

  /** The relative distance of two tensors, in these sums. */
  lemma {:induction false} RelativeL1IsQuotient(a: Tensor, b: Tensor)
    ensures |a| != |b| ==> RelativeL1(a, b) == Err
    ensures |a| == |b| ==> RelativeL1(a, b) == Ok(Apart(a, b, |a|) / Scaled(b))
  {
    if |a| == |b| {
      AbsSumUpTo(Sub(a, b), a, b, |a|);
      AbsSumIsSize(b, |b|);
      assert Sub(a, b)[..|a|] == Sub(a, b) && b[..|b|] == b;
    }
  }

  function Power(x: real, n: nat): real {
    if n == 0 then 1.0 else Power(x, n - 1) * x
  }

  /** c_0 x^(m-1) + c_1 x^(m-2) + ..., the first `n` terms of `m`. */
  function Terms(coefficients: seq<real>, x: real, m: nat, n: nat): real
    requires n <= |coefficients| && n <= m
  {
    if n == 0 then 0.0 else Terms(coefficients, x, m, n - 1) + coefficients[n - 1] * Power(x, m - n)
  }

  lemma {:induction false} TermsTimes(coefficients: seq<real>, x: real, m: nat, n: nat)
    requires n <= |coefficients| && n <= m
    ensures Terms(coefficients, x, m + 1, n) == Terms(coefficients, x, m, n) * x
  {
    if n > 0 {
      TermsTimes(coefficients, x, m, n - 1);
      var (t, c, w) := (Terms(coefficients, x, m, n - 1), coefficients[n - 1], Power(x, m - n));
      assert Power(x, m + 1 - n) == w * x;
      TimesSum(t, c, w, x);
    }
  }

  lemma {:induction false} TimesSum(t: real, c: real, w: real, x: real)
    ensures (t + c * w) * x == t * x + c * (w * x)
  {}

  lemma {:induction false} SameTerms(a: seq<real>, b: seq<real>, x: real, m: nat, n: nat)
    requires n <= |a| && n <= |b| && n <= m && forall i | 0 <= i < n :: a[i] == b[i]
    ensures Terms(a, x, m, n) == Terms(b, x, m, n)
  {
    if n > 0 { SameTerms(a, b, x, m, n - 1); }
  }

  /** Highest coefficient first. */
  lemma {:induction false} PolynomialIsSum(coefficients: seq<real>, x: real)
    ensures Polynomial(coefficients, x) == Terms(coefficients, x, |coefficients|, |coefficients|)
  {
    if coefficients != [] {
      var n := |coefficients| - 1;
      PolynomialIsSum(coefficients[..n], x);
      SameTerms(coefficients[..n], coefficients, x, n, n);
      TermsTimes(coefficients, x, n, n);
      assert Power(x, 0) == 1.0;
    }
  }
}
