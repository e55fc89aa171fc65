/**
 * The residual predictor of the EraserDiT controllers: it learns a velocity from
 * two real computes under one layout, and extrapolates over at most one interval.
 */
module Forecast {
  import opened Wrappers
  import opened Tensors

  datatype State = State(
    step: Option<int>,
    layout: Option<Layout>,
    interval: int,
    velocity: Option<Tensor>,
    predictedSteps: nat)

  function Fresh(): State {
    State(None, None, 0, None, 0)
  }

  function Slope(previous: Tensor, residual: Tensor, interval: int): (v: Tensor)
    requires |previous| == |residual| && interval > 0
    ensures |v| == |residual|
  {
    seq(|residual|, i requires 0 <= i < |residual| => (residual[i] - previous[i]) / interval as real)
  }

  /** `broken` says that the compute was forced by a changed layout or a gap in the steps. */
  predicate CanLearn(f: State, linear: bool, step: int, previous: Option<Tensor>, residual: Tensor, broken: bool, layout: Layout) {
    && linear && previous.Some? && f.step.Some? && step > f.step.value
    && f.layout == Some(layout) && |previous.value| == |residual| && !broken
  }

  function Learn(f: State, linear: bool, step: int, previous: Option<Tensor>, residual: Tensor, broken: bool, layout: Layout): State {
    var forgotten := f.(velocity := None, step := Some(step), layout := Some(layout));
    if CanLearn(f, linear, step, previous, residual, broken, layout)
    then forgotten.(interval := step - f.step.value,
                    velocity := Some(Slope(previous.value, residual, step - f.step.value)))
    else forgotten
  }

  function Horizon(f: State, step: int): int
    requires f.step.Some?
  {
    if step - f.step.value < f.interval then step - f.step.value else f.interval
  }

  /** The forecast for a reused residual; shapes that do not fit raise. */
  function Predict(f: State, step: int, output: Tensor): Result<Tensor> {
    if f.velocity.None? then Ok(output)
    else if f.step.None? || |f.velocity.value| != |output| then Err
    else Ok(Add(output, Scale(f.velocity.value, Horizon(f, step) as real)))
  }

  function AfterPredict(f: State): State {
    if f.velocity.Some? then f.(predictedSteps := f.predictedSteps + 1) else f
  }

  // ---- What the predictor knows -----------------------------------------------

  /** A real compute the predictor was shown. */
  datatype Compute = Compute(step: int, layout: Layout, residual: Tensor)

  /** The velocity, if any, is the slope between the last two computes, which share their layout. */
  predicate Learned(f: State, computes: seq<Compute>) {
    && (if computes == [] then f.step.None? && f.layout.None?
        else f.step == Some(computes[|computes| - 1].step) && f.layout == Some(computes[|computes| - 1].layout))
    && (f.velocity.Some? ==>
          && |computes| >= 2
          && var (a, b) := (computes[|computes| - 2], computes[|computes| - 1]);
          && a.layout == b.layout && a.step < b.step && |a.residual| == |b.residual|
          && f.interval == b.step - a.step
          && f.velocity.value == Slope(a.residual, b.residual, f.interval))
  }

  lemma {:induction false} LearnKeeps(f: State, computes: seq<Compute>, linear: bool, step: int, previous: Option<Tensor>,
                                      residual: Tensor, broken: bool, layout: Layout)
    requires Learned(f, computes)
    requires previous.Some? ==> computes != [] && previous.value == computes[|computes| - 1].residual
    ensures Learned(Learn(f, linear, step, previous, residual, broken, layout), computes + [Compute(step, layout, residual)])
  {}

  lemma {:induction false} DivisionBack(d: real, n: real)
    requires n > 0.0
    ensures (d / n) * n == d
  {}

  lemma {:induction false} PartOfChange(d: real, n: real, h: real)
    requires 0.0 <= h <= n && n > 0.0
    ensures Abs((d / n) * h) <= Abs(d)
  {
    var v := d / n;
    DivisionBack(d, n);
    assert v * n == d;
    if v >= 0.0 {
      assert 0.0 <= v * h <= v * n;
    } else {
      assert v * n <= v * h <= 0.0;
    }
  }

  /** A prediction differs from the last real residual by at most the last observed change. */
  lemma {:induction false} PredictionIsBounded(f: State, computes: seq<Compute>, step: int, hidden: Tensor)
    requires Learned(f, computes) && f.velocity.Some? && step > f.step.value
    requires |hidden| == |computes[|computes| - 1].residual|
    ensures var (a, b) := (computes[|computes| - 2].residual, computes[|computes| - 1].residual);
            var predicted := Predict(f, step, Add(hidden, b));
            && predicted.Ok? && |predicted.value| == |hidden|
            && forall i | 0 <= i < |hidden| ::
                 Abs(predicted.value[i] - (hidden[i] + b[i])) <= Abs(b[i] - a[i])
  {
    var (a, b) := (computes[|computes| - 2].residual, computes[|computes| - 1].residual);
    var predicted := Predict(f, step, Add(hidden, b));
    forall i | 0 <= i < |hidden| ensures Abs(predicted.value[i] - (hidden[i] + b[i])) <= Abs(b[i] - a[i]) {
      PartOfChange(b[i] - a[i], f.interval as real, Horizon(f, step) as real);
    }
  }

  /** A reuse of the last residual after what the predictor has learned; sealed. */
  ghost predicate ReusesLast(f: State, computes: seq<Compute>, step: int, hidden: Tensor, plain: Tensor) {
    forall key | Ask(key) ::
      && Learned(f, computes) && computes != []
      && |hidden| == |computes[|computes| - 1].residual| && step > computes[|computes| - 1].step
      && plain == Add(hidden, computes[|computes| - 1].residual)
  }

  /** Plain reuse without a velocity, and else no farther from it than the last observed change. */
  predicate WithinLastChange(f: State, computes: seq<Compute>, plain: Tensor, predicted: Result<Tensor>) {
    && predicted.Ok?
    && (f.velocity.None? ==> predicted.value == plain)
    && (f.velocity.Some? ==>
          && |computes| >= 2
          && var (a, b) := (computes[|computes| - 2], computes[|computes| - 1]);
          && a.layout == b.layout && |a.residual| == |b.residual| == |plain| == |predicted.value|
          && forall i | 0 <= i < |plain| :: Abs(predicted.value[i] - plain[i]) <= Abs(b.residual[i] - a.residual[i]))
  }

  /** With or without a velocity, a forecast is defined and close to plain reuse. */
  lemma {:induction false} BoundedForecast(f: State, computes: seq<Compute>, step: int, hidden: Tensor, plain: Tensor)
    requires ReusesLast(f, computes, step, hidden, plain)
    ensures WithinLastChange(f, computes, plain, Predict(f, step, plain))
  {
    assert Ask(true);
    if f.velocity.Some? { PredictionIsBounded(f, computes, step, hidden); }
  }

  /** Over a gap as long as the observed interval or longer, the forecast is exactly one more observed change. */
  lemma {:induction false} LongGapIsOneChange(f: State, computes: seq<Compute>, step: int, hidden: Tensor)
    requires Learned(f, computes) && f.velocity.Some?
    requires step - computes[|computes| - 1].step >= computes[|computes| - 1].step - computes[|computes| - 2].step
    requires |hidden| == |computes[|computes| - 1].residual|
    ensures var (a, b) := (computes[|computes| - 2].residual, computes[|computes| - 1].residual);
            Predict(f, step, Add(hidden, b)) == Ok(Add(hidden, Add(b, Sub(b, a))))
  {
    var (a, b) := (computes[|computes| - 2].residual, computes[|computes| - 1].residual);
    var predicted := Predict(f, step, Add(hidden, b)).value;
    assert Horizon(f, step) == f.interval;
    forall i | 0 <= i < |hidden| ensures predicted[i] == Add(hidden, Add(b, Sub(b, a)))[i] {
      DivisionBack(b[i] - a[i], f.interval as real);
    }
    assert predicted == Add(hidden, Add(b, Sub(b, a)));
  }

  lemma {:induction false} PartOfInterval(d: real, n: real, h: real)
    requires n > 0.0
    ensures (d / n) * h == d * (h / n)
  {
    assert (d / n) * h == d * h / n;
  }

  /** Over a shorter gap it is the part of that change which the gap is of the interval. */
  lemma {:induction false} ShortGapIsAPart(f: State, computes: seq<Compute>, step: int, hidden: Tensor)
    requires Learned(f, computes) && f.velocity.Some?
    requires step - computes[|computes| - 1].step < computes[|computes| - 1].step - computes[|computes| - 2].step
    requires |hidden| == |computes[|computes| - 1].residual|
    ensures var (a, b) := (computes[|computes| - 2], computes[|computes| - 1]);
            var part := (step - b.step) as real / (b.step - a.step) as real;
            Predict(f, step, Add(hidden, b.residual)) == Ok(Add(hidden, Add(b.residual, Scale(Sub(b.residual, a.residual), part))))
  {
    var (a, b) := (computes[|computes| - 2], computes[|computes| - 1]);
    var part := (step - b.step) as real / (b.step - a.step) as real;
    var predicted := Predict(f, step, Add(hidden, b.residual)).value;
    var expected := Add(hidden, Add(b.residual, Scale(Sub(b.residual, a.residual), part)));
    var (d, gap, interval) := (Sub(b.residual, a.residual), (step - b.step) as real, (b.step - a.step) as real);
    assert Horizon(f, step) == step - b.step;
    forall i | 0 <= i < |hidden| ensures predicted[i] == expected[i] {
      assert f.velocity.value[i] == d[i] / interval;
      assert predicted[i] == hidden[i] + b.residual[i] + (d[i] / interval) * gap;
      PartOfInterval(d[i], interval, gap);
    }
    assert predicted == expected;
  }

  /** The forecast adds to the last residual `b` the part of `b - a` that the gap is of the interval, at most all of it. */
  predicate IsPartOfChange(f: State, computes: seq<Compute>, step: int, hidden: Tensor, predicted: Result<Tensor>) {
    && computes != [] && |computes[|computes| - 1].residual| == |hidden|
    && var b := computes[|computes| - 1];
       if f.velocity.None? then predicted == Ok(Add(hidden, b.residual))
       else
         && |computes| >= 2
         && var a := computes[|computes| - 2];
         && a.step < b.step < step && a.layout == b.layout && |a.residual| == |b.residual|
         && predicted == if step - b.step >= b.step - a.step then Ok(Add(hidden, Add(b.residual, Sub(b.residual, a.residual))))
                         else Ok(Add(hidden, Add(b.residual, Scale(Sub(b.residual, a.residual),
                                                                   (step - b.step) as real / (b.step - a.step) as real))))
  }

  lemma {:induction false} PredictionIsPartOfChange(f: State, computes: seq<Compute>, step: int, hidden: Tensor, plain: Tensor)
    requires ReusesLast(f, computes, step, hidden, plain)
    ensures IsPartOfChange(f, computes, step, hidden, Predict(f, step, plain))
  {
    assert Ask(true);
    if f.velocity.Some? {
      if step - computes[|computes| - 1].step >= computes[|computes| - 1].step - computes[|computes| - 2].step {
        LongGapIsOneChange(f, computes, step, hidden);
      } else {
        ShortGapIsAPart(f, computes, step, hidden);
      }
    }
  }

  /** Does this compute follow the last one without a break, under its layout and with its shape? */
  predicate Continues(computes: seq<Compute>, next: Compute, broken: bool) {
    && computes != [] && !broken
    && var last := computes[|computes| - 1];
    && next.step > last.step && next.layout == last.layout && |next.residual| == |last.residual|
  }

  /** In linear mode a compute leaves a velocity if and only if it continues the one before, which is still kept. */
  lemma {:induction false} VelocityIsLearned(f: State, computes: seq<Compute>, linear: bool, previous: Option<Tensor>,
                                             next: Compute, broken: bool)
    requires Learned(f, computes)
    requires previous.Some? ==> computes != [] && previous.value == computes[|computes| - 1].residual
    ensures var after := Learn(f, linear, next.step, previous, next.residual, broken, next.layout);
            && (after.velocity.Some? <==> linear && previous.Some? && Continues(computes, next, broken))
            && (after.velocity.None? ==> forall step, plain :: Predict(after, step, plain) == Ok(plain))
  {}

  /** Residuals that move at a constant rate per step. */
  predicate OnLine(base: Tensor, rate: Tensor, step: int, residual: Tensor) {
    && |base| == |rate| == |residual|
    && forall i | 0 <= i < |residual| :: residual[i] == base[i] + rate[i] * step as real
  }

  lemma {:induction false} LineSlope(base: real, rate: real, a: int, b: int, step: int)
    requires a < b
    ensures var d := (base + rate * b as real) - (base + rate * a as real);
            base + rate * b as real + (d / (b - a) as real) * (step - b) as real == base + rate * step as real
  {
    var d := (base + rate * b as real) - (base + rate * a as real);
    var n := (b - a) as real;
    assert d == rate * n;
    assert d / n == rate;
  }

  /** On an affine trajectory the prediction is exact as long as the gap fits the observed interval. */
  lemma {:induction false} AffineIsExact(f: State, computes: seq<Compute>, step: int, hidden: Tensor,
                                         base: Tensor, rate: Tensor, truth: Tensor)
    requires Learned(f, computes) && f.velocity.Some? && 0 < step - f.step.value <= f.interval
    requires |hidden| == |computes[|computes| - 1].residual|
    requires OnLine(base, rate, computes[|computes| - 2].step, computes[|computes| - 2].residual)
    requires OnLine(base, rate, computes[|computes| - 1].step, computes[|computes| - 1].residual)
    requires OnLine(base, rate, step, truth)
    ensures Predict(f, step, Add(hidden, computes[|computes| - 1].residual)) == Ok(Add(hidden, truth))
  {
    var (a, b) := (computes[|computes| - 2], computes[|computes| - 1]);
    var predicted := Predict(f, step, Add(hidden, b.residual));
    forall i | 0 <= i < |hidden| ensures predicted.value[i] == Add(hidden, truth)[i] {
      LineSlope(base[i], rate[i], a.step, b.step, step);
      assert Horizon(f, step) == step - b.step;
      assert f.velocity.value[i] == (b.residual[i] - a.residual[i]) / (b.step - a.step) as real;
      assert predicted.value[i] == hidden[i] + b.residual[i] + f.velocity.value[i] * (step - b.step) as real;
    }
    assert predicted.value == Add(hidden, truth);
  }

  /** All computes and the true residual of a step lie on one line; sealed. */
  ghost predicate OnOneLine(computes: seq<Compute>, base: Tensor, rate: Tensor, step: int, truth: Tensor) {
    forall key | Ask(key) ::
      OnLine(base, rate, step, truth) && forall e | e in computes :: OnLine(base, rate, e.step, e.residual)
  }

  lemma {:induction false} ExactForecast(f: State, computes: seq<Compute>, step: int, hidden: Tensor, plain: Tensor,
                                         base: Tensor, rate: Tensor, truth: Tensor)
    requires ReusesLast(f, computes, step, hidden, plain) && OnOneLine(computes, base, rate, step, truth)
    requires f.velocity.Some? && f.step.Some? && step - f.step.value <= f.interval
    ensures |truth| == |hidden|
    ensures Predict(f, step, plain) == Ok(Add(hidden, truth))
  {
    assert Ask(true);
    assert computes[|computes| - 2] in computes && computes[|computes| - 1] in computes;
    AffineIsExact(f, computes, step, hidden, base, rate, truth);
  }
}
