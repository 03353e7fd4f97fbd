/** Walk-forward validation: a sequence of train/test windows over a price
    series, a forecasting model asked once per window, the pooled
    out-of-sample predictions and their directional accuracy, and the split
    of those predictions into trending and sideways market regimes.

    The model is an oracle `forecast(testStart)`: the outcome of fitting on
    the window's training rows and predicting its test rows. sklearn's rmse,
    mae and r2 are not computed here (they need square roots and are given
    as inputs where they are used). */
module WalkForward {
  import opened Common

  datatype WalkForwardConfig = WalkForwardConfig(
    initialTrainSize: nat, testSize: nat, stepSize: nat, minTrainSize: nat)

  function DefaultConfig(): WalkForwardConfig
  {
    WalkForwardConfig(252, 30, 15, 100)
  }

  /** What fitting and predicting one window gives: one prediction per test
      row, a dictionary carrying a single predicted price, a dictionary
      without one or a model without `predict` (both fall back to the last
      training price), or an exception. */
  datatype Forecast = Values(values: seq<real>) | PointPrice(price: real) | Fallback | Raised

  /** The pooled output of the successful windows. */
  datatype Harvest = Harvest(predictions: seq<real>, actuals: seq<real>, indices: seq<nat>)

  function Join(a: Harvest, b: Harvest): Harvest
  {
    Harvest(a.predictions + b.predictions, a.actuals + b.actuals, a.indices + b.indices)
  }

  lemma JoinAssociative(a: Harvest, b: Harvest, c: Harvest)
    ensures Join(Join(a, b), c) == Join(a, Join(b, c))
  {
    assert (a.predictions + b.predictions) + c.predictions == a.predictions + (b.predictions + c.predictions);
    assert (a.actuals + b.actuals) + c.actuals == a.actuals + (b.actuals + c.actuals);
    assert (a.indices + b.indices) + c.indices == a.indices + (b.indices + c.indices);
  }

  lemma JoinEmpty(a: Harvest)
    ensures Join(a, Harvest([], [], [])) == a
    ensures Join(Harvest([], [], []), a) == a
  {
    assert a.predictions + [] == a.predictions == [] + a.predictions;
    assert a.actuals + [] == a.actuals == [] + a.actuals;
    assert a.indices + [] == a.indices == [] + a.indices;
  }

  datatype WalkForwardResult =
    | NoPredictions
    | Completed(predictions: seq<real>, actuals: seq<real>, indices: seq<nat>,
                totalFolds: nat, directionalAccuracy: real)

  /** Training rows of the window testing from `testStart`: the rows before
      `testStart - 1` (one row short of the test window). For `testStart = 0`
      the slice `[:-1]` takes all rows but the last. */
  function TrainLength(testStart: nat, n: nat): nat
  {
    if testStart >= 1 then testStart - 1 else if n >= 1 then n - 1 else 0
  }

  function Repeat(x: real, count: nat): (r: seq<real>)
    ensures |r| == count && forall i :: 0 <= i < count ==> r[i] == x
  {
    if count == 0 then [] else [x] + Repeat(x, count - 1)
  }

  /** The predictions of the window testing from `t`, or None when it is
      skipped for too little training data or its fit/predict fails. The
      fallback repeats the last training price and fails when there is none. */
  function FoldPredictions(series: seq<real>, cfg: WalkForwardConfig, forecast: nat -> Forecast, t: nat)
    : Option<seq<real>>
  {
    var trainLength := TrainLength(t, |series|);
    if trainLength < cfg.minTrainSize then None
    else match forecast(t)
      case Values(v) => Some(v)
      case PointPrice(x) => Some(Repeat(x, cfg.testSize))
      case Fallback =>
        if trainLength == 0 || trainLength > |series| then None
        else Some(Repeat(series[trainLength - 1], cfg.testSize))
      case Raised => None
  }

  /** Each forecast of one value per test row (the predictor's contract). */
  ghost predicate RowForecasts(cfg: WalkForwardConfig, forecast: nat -> Forecast)
  {
    forall u :: forecast(u).Values? ==> |forecast(u).values| == cfg.testSize
  }

  /** What the window testing from `t` adds to the pooled output: nothing,
      or its predictions with the test rows' actual values and indices. */
  function FoldHarvest(series: seq<real>, cfg: WalkForwardConfig, forecast: nat -> Forecast, t: nat): (h: Harvest)
    requires t + cfg.testSize < |series| && RowForecasts(cfg, forecast)
    ensures |h.predictions| == |h.actuals| == |h.indices|
    ensures h.indices != [] ==> |h.indices| == cfg.testSize
    ensures forall k :: 0 <= k < |h.indices| ==> h.indices[k] == t + k && h.actuals[k] == series[t + k]
  {
    match FoldPredictions(series, cfg, forecast, t)
    case None => Harvest([], [], [])
    case Some(p) =>
      RangeIndices(t, t + cfg.testSize);
      Harvest(p, series[t..t + cfg.testSize], Range(t, t + cfg.testSize))
  }

  /** The pooled output of the windows testing from `t` onwards. */
  function CollectFrom(series: seq<real>, cfg: WalkForwardConfig, forecast: nat -> Forecast, t: nat): (h: Harvest)
    requires RowForecasts(cfg, forecast)
    ensures |h.predictions| == |h.actuals| == |h.indices|
    decreases |series| - t
  {
    if t + cfg.testSize >= |series| || cfg.stepSize == 0 then Harvest([], [], [])
    else Join(FoldHarvest(series, cfg, forecast, t), CollectFrom(series, cfg, forecast, t + cfg.stepSize))
  }

  /** The number of windows testing from `t` onwards. */
  function WindowCount(n: nat, cfg: WalkForwardConfig, t: nat): nat
    decreases n - t
  {
    if t + cfg.testSize >= n || cfg.stepSize == 0 then 0 else 1 + WindowCount(n, cfg, t + cfg.stepSize)
  }

  /** The window loop runs while `t + testSize < n`: the last window tests
      from t + (count - 1)·stepSize and fits, the next one would not. */
  lemma {:induction false} WindowCountBounds(n: nat, cfg: WalkForwardConfig, t: nat)
    requires cfg.stepSize > 0
    ensures var c := WindowCount(n, cfg, t);
      (c == 0 <==> t + cfg.testSize >= n) &&
      (c > 0 ==> t + (c - 1) * cfg.stepSize + cfg.testSize < n <= t + c * cfg.stepSize + cfg.testSize)
    decreases n - t
  {
    if t + cfg.testSize < n {
      WindowCountBounds(n, cfg, t + cfg.stepSize);
      var c := WindowCount(n, cfg, t + cfg.stepSize);
      assert t + cfg.stepSize + c * cfg.stepSize == t + (c + 1) * cfg.stepSize;
      if c > 0 {
        assert t + cfg.stepSize + (c - 1) * cfg.stepSize == t + c * cfg.stepSize;
      }
    }
  }

  /** The default configuration on 300 rows gives two windows, testing from
      rows 252 and 267. */
  lemma DefaultWindowsOn300Rows()
    ensures WindowCount(300, DefaultConfig(), 252) == 2
  {
  }

  /** Every actual value is the series value at its index, and every index
      lies at or after `lo` and before the last row of the series. */
  predicate Shaped(h: Harvest, series: seq<real>, lo: nat)
  {
    |h.actuals| == |h.indices| &&
    forall k :: 0 <= k < |h.indices| ==>
      lo <= h.indices[k] && h.indices[k] + 1 < |series| && h.actuals[k] == series[h.indices[k]]
  }

  lemma JoinShaped(a: Harvest, b: Harvest, series: seq<real>, lo: nat, hi: nat)
    requires lo <= hi && Shaped(a, series, lo) && Shaped(b, series, hi)
    ensures Shaped(Join(a, b), series, lo)
  {
    var h := Join(a, b);
    forall k | 0 <= k < |h.indices|
      ensures lo <= h.indices[k] && h.indices[k] + 1 < |series| && h.actuals[k] == series[h.indices[k]]
    {
      if k >= |a.indices| {
        assert h.indices[k] == b.indices[k - |a.indices|];
        assert h.actuals[k] == b.actuals[k - |a.indices|];
      }
    }
  }

  /** Every pooled actual value is the series value at its pooled index, and
      every index lies in a test window: at or after the first test row and
      before the last row of the series. */
  lemma {:induction false} HarvestShape(series: seq<real>, cfg: WalkForwardConfig, forecast: nat -> Forecast, t: nat)
    requires RowForecasts(cfg, forecast)
    ensures Shaped(CollectFrom(series, cfg, forecast, t), series, t)
    decreases |series| - t
  {
    if t + cfg.testSize < |series| && cfg.stepSize > 0 {
      HarvestShape(series, cfg, forecast, t + cfg.stepSize);
      var f := FoldHarvest(series, cfg, forecast, t);
      assert Shaped(f, series, t);
      JoinShaped(f, CollectFrom(series, cfg, forecast, t + cfg.stepSize), series, t, t + cfg.stepSize);
    }
  }

  /** Every pooled prediction comes from a window that was not skipped: the
      window testing from `t` contributes exactly when its training length
      reaches `minTrainSize` and its forecast succeeds. */
  lemma SkippedWindowContributesNothing(series: seq<real>, cfg: WalkForwardConfig,
                                        forecast: nat -> Forecast, t: nat)
    requires t + cfg.testSize < |series| && RowForecasts(cfg, forecast)
    requires TrainLength(t, |series|) < cfg.minTrainSize || forecast(t).Raised?
    ensures FoldHarvest(series, cfg, forecast, t) == Harvest([], [], [])
  {
  }

  // ---------------------------------------------------------------------
  // Directional accuracy

  /** The number of steps i (0 <= i < |p| - 1) where the predicted and the
      actual series move in the same direction (flat matching flat). */
  function DirectionalMatches(p: seq<real>, a: seq<real>): (m: nat)
    requires |p| == |a|
    ensures m <= if |p| > 0 then |p| - 1 else 0
  {
    if |p| <= 1 then 0
    else (if Sign(p[1] - p[0]) == Sign(a[1] - a[0]) then 1 else 0) + DirectionalMatches(p[1..], a[1..])
  }

  /** The fraction of matching directions; 0 for one point or none. */
  function DirectionalAccuracy(p: seq<real>, a: seq<real>): (acc: real)
    requires |p| == |a|
    ensures 0.0 <= acc <= 1.0
  {
    if |p| > 1 then (DirectionalMatches(p, a) as real) / ((|p| - 1) as real) else 0.0
  }

  lemma {:induction false} MatchesOfSelf(a: seq<real>)
    ensures DirectionalMatches(a, a) == if |a| > 0 then |a| - 1 else 0
  {
    if |a| > 1 {
      MatchesOfSelf(a[1..]);
    }
  }

  /** A forecast that follows the actual series exactly scores 1. */
  lemma PerfectForecastAccuracy(a: seq<real>)
    requires |a| > 1
    ensures DirectionalAccuracy(a, a) == 1.0
  {
    MatchesOfSelf(a);
  }

  /** A forecast whose every step goes the other way round (on a series
      that never stays flat) scores 0. */
  lemma {:induction false} MirroredForecastAccuracy(a: seq<real>)
    requires forall i :: 0 <= i < |a| - 1 ==> a[i] != a[i + 1]
    ensures DirectionalMatches(Negated(a), a) == 0
  {
    if |a| > 1 {
      assert forall i :: 0 <= i < |a[1..]| - 1 ==> a[1..][i] != a[1..][i + 1];
      MirroredForecastAccuracy(a[1..]);
      assert Negated(a)[1..] == Negated(a[1..]);
    }
  }

  function Negated(a: seq<real>): (r: seq<real>)
    ensures |r| == |a| && forall i :: 0 <= i < |a| ==> r[i] == -a[i]
  {
    if |a| == 0 then [] else [-a[0]] + Negated(a[1..])
  }

  // ---------------------------------------------------------------------
  // The window loop

  /** The body of the window loop for the window testing from `testStart`:
      the fit/predict step (the source's `try`), and on success the
      predictions, actual test values and test indices appended to the
      pooled lists. */
  method RunFold(series: seq<real>, cfg: WalkForwardConfig, forecast: nat -> Forecast, testStart: nat,
                 pooled: Harvest)
    returns (next: Harvest)
    requires testStart + cfg.testSize < |series| && RowForecasts(cfg, forecast)
    ensures next == Join(pooled, FoldHarvest(series, cfg, forecast, testStart))
  {
    var trainLength := if testStart >= 1 then testStart - 1 else if |series| >= 1 then |series| - 1 else 0;
    var pred: Option<seq<real>>;
    if trainLength < cfg.minTrainSize {
      pred := None;
    } else {
      match forecast(testStart) {
        case Values(v) => pred := Some(v);
        case PointPrice(x) => pred := Some(Repeat(x, cfg.testSize));
        case Fallback =>
          if trainLength == 0 || trainLength > |series| {
            pred := None;
          } else {
            pred := Some(Repeat(series[trainLength - 1], cfg.testSize));
          }
        case Raised => pred := None;
      }
    }
    assert pred == FoldPredictions(series, cfg, forecast, testStart);
    next := pooled;
    if pred.Some? {
      next := Harvest(pooled.predictions + pred.value,
                      pooled.actuals + series[testStart..testStart + cfg.testSize],
                      pooled.indices + Range(testStart, testStart + cfg.testSize));
    } else {
      JoinEmpty(pooled);
    }
  }

  /** Unfolding the pooled output by one window, regrouped to keep a
      running total in front. */
  lemma FoldStep(series: seq<real>, cfg: WalkForwardConfig, forecast: nat -> Forecast, t: nat, before: Harvest)
    requires t + cfg.testSize < |series| && cfg.stepSize > 0 && RowForecasts(cfg, forecast)
    ensures Join(Join(before, FoldHarvest(series, cfg, forecast, t)), CollectFrom(series, cfg, forecast, t + cfg.stepSize))
         == Join(before, CollectFrom(series, cfg, forecast, t))
    ensures WindowCount(|series|, cfg, t) == 1 + WindowCount(|series|, cfg, t + cfg.stepSize)
  {
    JoinAssociative(before, FoldHarvest(series, cfg, forecast, t), CollectFrom(series, cfg, forecast, t + cfg.stepSize));
  }

  /** Once a window no longer fits, nothing is left to pool or count. */
  lemma LoopExit(series: seq<real>, cfg: WalkForwardConfig, forecast: nat -> Forecast, t: nat, pooled: Harvest)
    requires t + cfg.testSize >= |series| && RowForecasts(cfg, forecast)
    ensures Join(pooled, CollectFrom(series, cfg, forecast, t)) == pooled
    ensures WindowCount(|series|, cfg, t) == 0
  {
    JoinEmpty(pooled);
  }

  /** The window loop: pools the output of every window from the initial
      training size on, and counts the windows, skipped and failed ones
      included. */
  method RunWindows(series: seq<real>, cfg: WalkForwardConfig, forecast: nat -> Forecast)
    returns (pooled: Harvest, fold: nat)
    requires cfg.stepSize > 0 || cfg.initialTrainSize + cfg.testSize >= |series|
    requires RowForecasts(cfg, forecast)
    ensures pooled == CollectFrom(series, cfg, forecast, cfg.initialTrainSize)
    ensures fold == WindowCount(|series|, cfg, cfg.initialTrainSize)
  {
    var n := |series|;
    pooled := Harvest([], [], []);
    var testStart := cfg.initialTrainSize;
    fold := 0;
    JoinEmpty(CollectFrom(series, cfg, forecast, testStart));
    while testStart + cfg.testSize < n
      invariant cfg.stepSize > 0 || testStart + cfg.testSize >= n
      invariant fold + WindowCount(n, cfg, testStart) == WindowCount(n, cfg, cfg.initialTrainSize)
      invariant Join(pooled, CollectFrom(series, cfg, forecast, testStart))
                == CollectFrom(series, cfg, forecast, cfg.initialTrainSize)
      decreases n - testStart
    {
      fold := fold + 1;
      FoldStep(series, cfg, forecast, testStart, pooled);
      pooled := RunFold(series, cfg, forecast, testStart, pooled);
      testStart := testStart + cfg.stepSize;
    }
    LoopExit(series, cfg, forecast, testStart, pooled);
  }

  /** Runs the windows in order, pooling the predictions, actual values and
      row indices of every window that is not skipped and does not fail.
      `fold` counts every window, skipped and failed ones included. */
  method Run(series: seq<real>, cfg: WalkForwardConfig, forecast: nat -> Forecast)
    returns (result: WalkForwardResult)
    requires cfg.stepSize > 0 || cfg.initialTrainSize + cfg.testSize >= |series|
    requires RowForecasts(cfg, forecast)
    ensures var h := CollectFrom(series, cfg, forecast, cfg.initialTrainSize);
      if h.predictions == [] then result == NoPredictions
      else result == Completed(h.predictions, h.actuals, h.indices,
                               WindowCount(|series|, cfg, cfg.initialTrainSize),
                               DirectionalAccuracy(h.predictions, h.actuals))
  {
    var pooled, fold := RunWindows(series, cfg, forecast);
    if |pooled.predictions| == 0 {
      result := NoPredictions;
    } else {
      result := Completed(pooled.predictions, pooled.actuals, pooled.indices, fold,
                          DirectionalAccuracy(pooled.predictions, pooled.actuals));
    }
  }

  // ---------------------------------------------------------------------
  // Market regimes

  datatype Regime = Trending | Sideways
  datatype Direction = Up | Down | Flat

  /** The 20-step change of the pooled actual values at position i is more
      than 10% in size. Undefined changes (the first 20 positions, 0/0) are
      not; x/0 with x != 0 is infinite and is. */
  function RegimeAt(a: seq<real>, i: nat): Regime
    requires i < |a|
  {
    if i < 20 then Sideways
    else if a[i - 20] == 0.0 then (if a[i] != 0.0 then Trending else Sideways)
    else if Abs(a[i] / a[i - 20] - 1.0) > 0.10 then Trending
    else Sideways
  }

  /** Up or down when the 20-step change is above 10% or below -10%. */
  function DirectionAt(a: seq<real>, i: nat): Direction
    requires i < |a|
  {
    if i < 20 then Flat
    else if a[i - 20] == 0.0 then
      (if a[i] > 0.0 then Up else if a[i] < 0.0 then Down else Flat)
    else if a[i] / a[i - 20] - 1.0 > 0.10 then Up
    else if a[i] / a[i - 20] - 1.0 < -0.10 then Down
    else Flat
  }

  /** A position has a direction exactly when it is trending. */
  lemma DirectionMatchesRegime(a: seq<real>, i: nat)
    requires i < |a|
    ensures DirectionAt(a, i) != Flat <==> RegimeAt(a, i) == Trending
  {
  }

  /** The predictions and actual values at positions k.. of the given regime. */
  function Pick(p: seq<real>, a: seq<real>, regime: Regime, k: nat): (r: (seq<real>, seq<real>))
    requires |p| == |a| && k <= |a|
    ensures |r.0| == |r.1| <= |a| - k
    decreases |a| - k
  {
    if k == |a| then ([], [])
    else
      var rest := Pick(p, a, regime, k + 1);
      if RegimeAt(a, k) == regime then ([p[k]] + rest.0, [a[k]] + rest.1) else rest
  }

  /** Every position is in exactly one regime. */
  lemma {:induction false} RegimesPartition(p: seq<real>, a: seq<real>, k: nat)
    requires |p| == |a| && k <= |a|
    ensures |Pick(p, a, Trending, k).0| + |Pick(p, a, Sideways, k).0| == |a| - k
    decreases |a| - k
  {
    if k < |a| {
      RegimesPartition(p, a, k + 1);
    }
  }

  /** The first 20 positions are sideways, so at most |a| - 20 are trending. */
  lemma {:induction false} TrendingNeedsHistory(p: seq<real>, a: seq<real>, k: nat)
    requires |p| == |a| && k <= |a|
    ensures |Pick(p, a, Trending, k).0| <= if |a| >= 20 && k <= 20 then |a| - 20 else |a| - k
    decreases |a| - k
  {
    if k < |a| {
      TrendingNeedsHistory(p, a, k + 1);
    }
  }

  datatype RegimeMetrics = RegimeMetrics(count: nat, directionalAccuracy: real)

  datatype RegimeAnalysis = RegimeAnalysis(
    trending: Option<RegimeMetrics>, sideways: Option<RegimeMetrics>)

  function MetricsOf(picked: (seq<real>, seq<real>)): Option<RegimeMetrics>
    requires |picked.0| == |picked.1|
  {
    if |picked.0| > 0 then Some(RegimeMetrics(|picked.0|, DirectionalAccuracy(picked.0, picked.1)))
    else None
  }

  /** Per-regime counts and directional accuracy; nothing without predictions. */
  function AnalyzeMarketRegimes(result: WalkForwardResult): (r: Option<RegimeAnalysis>)
    requires result.Completed? ==> |result.predictions| == |result.actuals|
    ensures r.None? <==> result.NoPredictions? || |result.indices| == 0
  {
    if result.NoPredictions? || |result.indices| == 0 then None
    else
      var p, a := result.predictions, result.actuals;
      Some(RegimeAnalysis(MetricsOf(Pick(p, a, Trending, 0)), MetricsOf(Pick(p, a, Sideways, 0))))
  }

  /** The regimes present split the predictions between them, and each
      regime's directional accuracy lies in [0, 1]. */
  lemma RegimeAnalysisCounts(result: WalkForwardResult)
    requires result.Completed? && |result.predictions| == |result.actuals| && |result.indices| > 0
    ensures var r := AnalyzeMarketRegimes(result);
      r.Some? &&
      (if r.value.trending.Some? then r.value.trending.value.count else 0) +
      (if r.value.sideways.Some? then r.value.sideways.value.count else 0) == |result.actuals|
    ensures var r := AnalyzeMarketRegimes(result);
      r.Some? &&
      (r.value.trending.Some? ==> 0.0 <= r.value.trending.value.directionalAccuracy <= 1.0) &&
      (r.value.sideways.Some? ==> 0.0 <= r.value.sideways.value.directionalAccuracy <= 1.0)
  {
    RegimesPartition(result.predictions, result.actuals, 0);
  }
}
