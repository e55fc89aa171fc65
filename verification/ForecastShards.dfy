/** The residual predictors of a sequence-parallel group: each holds its shard of one predictor's velocity. */
module ForecastShards {
  import opened Wrappers
  import opened Tensors
  import opened Consensus
  import opened Shards
  import F = Forecast

  // ---- Shards of velocities -----------------------------------------------------------

  function SlopeAll(previous: seq<Tensor>, residuals: seq<Tensor>, interval: int): (slopes: seq<Tensor>)
    requires SameShapes(previous, residuals) && interval > 0
    ensures |slopes| == |residuals|
  {
    seq(|residuals|, k requires 0 <= k < |residuals| => F.Slope(previous[k], residuals[k], interval))
  }

  function ScaleAll(parts: seq<Tensor>, factor: real): (scaled: seq<Tensor>)
    ensures |scaled| == |parts|
  {
    seq(|parts|, k requires 0 <= k < |parts| => Scale(parts[k], factor))
  }

  lemma {:induction false} SlopeOfAppend(a: Tensor, b: Tensor, c: Tensor, d: Tensor, interval: int)
    requires |a| == |c| && |b| == |d| && interval > 0
    ensures F.Slope(a + b, c + d, interval) == F.Slope(a, c, interval) + F.Slope(b, d, interval)
  {}

  lemma {:induction false} ConcatSlope(previous: seq<Tensor>, residuals: seq<Tensor>, interval: int)
    requires SameShapes(previous, residuals) && interval > 0
    ensures |Concat(previous)| == |Concat(residuals)|
    ensures F.Slope(Concat(previous), Concat(residuals), interval) == Concat(SlopeAll(previous, residuals, interval))
  {
    if residuals != [] {
      var last := |residuals| - 1;
      ConcatSlope(previous[..last], residuals[..last], interval);
      assert SlopeAll(previous, residuals, interval)[..last] == SlopeAll(previous[..last], residuals[..last], interval);
      SlopeOfAppend(Concat(previous[..last]), previous[last], Concat(residuals[..last]), residuals[last], interval);
    }
  }

  lemma {:induction false} ScaleOfAppend(a: Tensor, b: Tensor, factor: real)
    ensures Scale(a + b, factor) == Scale(a, factor) + Scale(b, factor)
  {
    var (x, y) := (Scale(a + b, factor), Scale(a, factor) + Scale(b, factor));
    forall i | 0 <= i < |x| ensures x[i] == y[i] {
      assert i < |a| ==> (a + b)[i] == a[i];
      assert i >= |a| ==> (a + b)[i] == b[i - |a|];
    }
  }

  lemma {:induction false} ConcatScale(parts: seq<Tensor>, factor: real)
    ensures Scale(Concat(parts), factor) == Concat(ScaleAll(parts, factor))
  {
    if parts != [] {
      var last := |parts| - 1;
      ConcatScale(parts[..last], factor);
      assert ScaleAll(parts, factor)[..last] == ScaleAll(parts[..last], factor);
      ScaleOfAppend(Concat(parts[..last]), parts[last], factor);
    }
  }

  // ---- Predictors in step ---------------------------------------------------------------

  predicate SameForecast(split: Split, whole: F.State, part: F.State, k: nat) {
    && part.step == whole.step && part.interval == whole.interval && part.predictedSteps == whole.predictedSteps
    && SameLayout(split, whole.layout, part.layout, k)
    && part.velocity.Some? == whole.velocity.Some?
  }

  function Velocities(parts: seq<F.State>): (vs: seq<Tensor>)
    ensures |vs| == |parts|
  {
    seq(|parts|, k requires 0 <= k < |parts| => if parts[k].velocity.Some? then parts[k].velocity.value else [])
  }

  /** Rank `k`'s predictor is the shard of the one predictor. */
  predicate ForecastsInStep(split: Split, whole: F.State, parts: seq<F.State>) {
    && |parts| == split.ranks
    && (forall k | 0 <= k < |parts| :: SameForecast(split, whole, parts[k], k))
    && HoldsShards(split, whole.layout, whole.velocity, Velocities(parts))
    && (whole.step.Some? <==> whole.layout.Some?) && (whole.velocity.Some? ==> whole.step.Some?)
  }

  lemma {:induction false} ForecastsStart(split: Split)
    ensures ForecastsInStep(split, F.Fresh(), seq(split.ranks, _ => F.Fresh()))
  {}

  function Values(tensors: seq<Option<Tensor>>): (values: seq<Tensor>)
    ensures |values| == |tensors|
  {
    seq(|tensors|, k requires 0 <= k < |tensors| => if tensors[k].Some? then tensors[k].value else [])
  }

  function LearnAll(split: Split, parts: seq<F.State>, linear: bool, step: int, previous: seq<Option<Tensor>>,
                    residuals: seq<Tensor>, broken: bool, layout: Layout): (after: seq<F.State>)
    requires |parts| == |previous| == |residuals|
    ensures |after| == |parts|
  {
    seq(|parts|, k requires 0 <= k < |parts| =>
      F.Learn(parts[k], linear, step, previous[k], residuals[k], broken, split.rankLayout(k, layout)))
  }

  /** What the ranks keep and are shown are the shards of what the one predictor's controller keeps and is shown. */
  ghost predicate ShardsShown(split: Split, f: F.State, parts: seq<F.State>, previous: Option<Tensor>,
                              previousParts: seq<Option<Tensor>>, residuals: seq<Tensor>, layout: Layout)
  {
    && ValidSplit(split) && ForecastsInStep(split, f, parts)
    && |previousParts| == split.ranks && ShardedAs(split, layout, residuals)
    && (forall k | 0 <= k < |previousParts| :: previousParts[k].Some? == previous.Some?)
    && (previous.Some? && f.layout == Some(layout) ==>
          ShardedAs(split, layout, Values(previousParts)) && previous.value == Concat(Values(previousParts)))
  }

  lemma {:induction false} SameLayouts(split: Split, whole: Option<Layout>, part: Option<Layout>, k: nat, layout: Layout)
    requires ValidSplit(split) && SameLayout(split, whole, part, k)
    ensures part == Some(split.rankLayout(k, layout)) <==> whole == Some(layout)
  {
    if whole.Some? && split.rankLayout(k, whole.value) == split.rankLayout(k, layout) {
      assert whole.value == layout;
    }
  }

  /** All ranks can learn, or none. */
  lemma {:induction false} LearnTogether(split: Split, f: F.State, parts: seq<F.State>, linear: bool, step: int,
                                         previous: Option<Tensor>, previousParts: seq<Option<Tensor>>, residuals: seq<Tensor>,
                                         broken: bool, layout: Layout)
    requires ShardsShown(split, f, parts, previous, previousParts, residuals, layout)
    ensures f.layout == Some(layout) && previous.Some? ==>
              SameShapes(Values(previousParts), residuals) && |previous.value| == |Concat(residuals)|
    ensures forall k | 0 <= k < |parts| ::
              F.CanLearn(parts[k], linear, step, previousParts[k], residuals[k], broken, split.rankLayout(k, layout))
              <==> F.CanLearn(f, linear, step, previous, Concat(residuals), broken, layout)
  {
    if f.layout == Some(layout) && previous.Some? {
      ShardsAlike(split, layout, Values(previousParts), residuals);
    }
    forall k | 0 <= k < |parts|
      ensures F.CanLearn(parts[k], linear, step, previousParts[k], residuals[k], broken, split.rankLayout(k, layout))
              <==> F.CanLearn(f, linear, step, previous, Concat(residuals), broken, layout)
    {
      assert SameForecast(split, f, parts[k], k);
      SameLayouts(split, f.layout, parts[k].layout, k, layout);
      assert f.layout == Some(layout) && previous.Some? ==> |Values(previousParts)[k]| == |residuals[k]|;
    }
  }

  /** Learning from shards keeps the predictors in step. */
  lemma {:induction false} LearnInStep(split: Split, f: F.State, parts: seq<F.State>, linear: bool, step: int,
                                       previous: Option<Tensor>, previousParts: seq<Option<Tensor>>, residuals: seq<Tensor>,
                                       broken: bool, layout: Layout)
    requires ShardsShown(split, f, parts, previous, previousParts, residuals, layout)
    ensures ForecastsInStep(split, F.Learn(f, linear, step, previous, Concat(residuals), broken, layout),
                            LearnAll(split, parts, linear, step, previousParts, residuals, broken, layout))
  {
    LearnTogether(split, f, parts, linear, step, previous, previousParts, residuals, broken, layout);
    var (after, all) := (F.Learn(f, linear, step, previous, Concat(residuals), broken, layout),
                         LearnAll(split, parts, linear, step, previousParts, residuals, broken, layout));
    forall k | 0 <= k < |all| ensures SameForecast(split, after, all[k], k) {
      assert SameForecast(split, f, parts[k], k);
    }
    if F.CanLearn(f, linear, step, previous, Concat(residuals), broken, layout) {
      LearnedShards(split, f, parts, linear, step, previous, previousParts, residuals, broken, layout);
    }
  }

  lemma {:induction false} LearnedShards(split: Split, f: F.State, parts: seq<F.State>, linear: bool, step: int,
                                         previous: Option<Tensor>, previousParts: seq<Option<Tensor>>, residuals: seq<Tensor>,
                                         broken: bool, layout: Layout)
    requires ShardsShown(split, f, parts, previous, previousParts, residuals, layout)
    requires F.CanLearn(f, linear, step, previous, Concat(residuals), broken, layout)
    ensures var (after, all) := (F.Learn(f, linear, step, previous, Concat(residuals), broken, layout),
                                 LearnAll(split, parts, linear, step, previousParts, residuals, broken, layout));
            HoldsShards(split, after.layout, after.velocity, Velocities(all))
  {
    LearnTogether(split, f, parts, linear, step, previous, previousParts, residuals, broken, layout);
    var all := LearnAll(split, parts, linear, step, previousParts, residuals, broken, layout);
    var interval := step - f.step.value;
    ConcatSlope(Values(previousParts), residuals, interval);
    forall k | 0 <= k < |all| ensures Velocities(all)[k] == F.Slope(Values(previousParts)[k], residuals[k], interval) {
      assert SameForecast(split, f, parts[k], k);
    }
    assert Velocities(all) == SlopeAll(Values(previousParts), residuals, interval);
  }

  // ---- Predictions ------------------------------------------------------------------------

  function PredictAll(parts: seq<F.State>, step: int, outputs: seq<Tensor>): (predicted: seq<Result<Tensor>>)
    requires |parts| == |outputs|
    ensures |predicted| == |parts|
  {
    seq(|parts|, k requires 0 <= k < |parts| => F.Predict(parts[k], step, outputs[k]))
  }

  function AfterPredictAll(parts: seq<F.State>): (after: seq<F.State>)
    ensures |after| == |parts|
  {
    seq(|parts|, k requires 0 <= k < |parts| => F.AfterPredict(parts[k]))
  }

  predicate AllSucceed(results: seq<Result<Tensor>>) {
    forall k | 0 <= k < |results| :: results[k].Ok?
  }

  function Oks(results: seq<Result<Tensor>>): (values: seq<Tensor>)
    requires AllSucceed(results)
    ensures |values| == |results|
  {
    seq(|results|, k requires 0 <= k < |results| => results[k].value)
  }

  /** The ranks' forecasts are the shards of the one forecast, and raise on none or all. */
  lemma {:induction false} PredictInStep(split: Split, f: F.State, parts: seq<F.State>, step: int, layout: Layout, outputs: seq<Tensor>)
    requires ForecastsInStep(split, f, parts) && ShardedAs(split, layout, outputs)
    requires f.layout.Some? ==> f.layout == Some(layout)
    ensures F.Predict(f, step, Concat(outputs)).Ok?
    ensures AllSucceed(PredictAll(parts, step, outputs))
    ensures Concat(Oks(PredictAll(parts, step, outputs))) == F.Predict(f, step, Concat(outputs)).value
    ensures ForecastsInStep(split, F.AfterPredict(f), AfterPredictAll(parts))
  {
    forall k | 0 <= k < |parts| ensures SameForecast(split, F.AfterPredict(f), AfterPredictAll(parts)[k], k) {
      assert SameForecast(split, f, parts[k], k);
    }
    assert Velocities(AfterPredictAll(parts)) == Velocities(parts);
    forall k | 0 <= k < |parts| ensures SameForecast(split, f, parts[k], k) {}
    if f.velocity.Some? {
      PredictShards(split, f, parts, step, layout, outputs);
    } else {
      assert Oks(PredictAll(parts, step, outputs)) == outputs;
    }
  }

  lemma {:induction false} PredictShards(split: Split, f: F.State, parts: seq<F.State>, step: int, layout: Layout, outputs: seq<Tensor>)
    requires ForecastsInStep(split, f, parts) && ShardedAs(split, layout, outputs)
    requires f.velocity.Some? && f.layout == Some(layout)
    ensures F.Predict(f, step, Concat(outputs)).Ok?
    ensures AllSucceed(PredictAll(parts, step, outputs))
    ensures Concat(Oks(PredictAll(parts, step, outputs))) == F.Predict(f, step, Concat(outputs)).value
  {
    var (vs, factor) := (Velocities(parts), F.Horizon(f, step) as real);
    ShardsAlike(split, layout, outputs, vs);
    ConcatScale(vs, factor);
    ConcatAdd(outputs, ScaleAll(vs, factor));
    forall k | 0 <= k < |parts|
      ensures PredictAll(parts, step, outputs)[k] == Ok(Add(outputs[k], ScaleAll(vs, factor)[k]))
    {
      assert SameForecast(split, f, parts[k], k) && |vs[k]| == |outputs[k]|;
    }
    assert Oks(PredictAll(parts, step, outputs)) == AddAll(outputs, ScaleAll(vs, factor));
  }
}
