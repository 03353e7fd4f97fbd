/** Confidence analysis of pooled out-of-sample predictions and the risk
    manager's position sizing, exit levels, exit classification and report.

    sklearn's r2, rmse and mae and numpy's standard deviation of the errors
    need square roots or library code and are given as inputs
    (`FitStatistics`); everything the module computes from them is here. */
module RiskManagement {
  import opened Common
  import WalkForward
  import StressTesting

  datatype RiskMetricsConfig = RiskMetricsConfig(
    directionalAccuracyThreshold: real, maxDrawdownThreshold: real,
    stopLossPct: real, takeProfitPct: real)

  function DefaultRiskConfig(): RiskMetricsConfig
  {
    RiskMetricsConfig(0.65, 0.05, 0.03, 0.05)
  }

  // ---------------------------------------------------------------------
  // Confidence analysis

  /** The library statistics of a prediction run. */
  datatype FitStatistics = FitStatistics(r2: real, rmse: real, mae: real, errorStd: real)

  datatype ConfidenceMetrics = ConfidenceMetrics(
    r2: real, directionalAccuracy: real, rmse: real, mae: real, nrmse: real,
    maxError: real, maxErrorPct: real, errorStd: real, confidenceScore: real)

  /** The stability term divides the error spread by the mean of a default
      list [100000], because the metrics never carry the actual values. */
  const StabilityScale: real := 100000.0

  /** The composite score: 30 points for a positive r2, 40 for directional
      accuracy, 20 for a normalised rmse below 1 and 10 for an error spread
      below the stability scale, capped at 100. */
  function ConfidenceScore(r2: real, directionalAccuracy: real, nrmse: real, errorStd: real): (score: real)
    ensures score <= 100.0
    ensures 0.0 <= directionalAccuracy ==> 0.0 <= score
    ensures 0.0 <= directionalAccuracy && r2 <= 1.0 && directionalAccuracy <= 1.0 &&
            0.0 <= nrmse && 0.0 <= errorStd ==>
              score == 30.0 * Max(0.0, r2) + 40.0 * directionalAccuracy +
                       20.0 * Max(0.0, 1.0 - nrmse) + 10.0 * Max(0.0, 1.0 - errorStd / StabilityScale)
  {
    var total := Max(0.0, r2) * 30.0 + directionalAccuracy * 40.0 + Max(0.0, 1.0 - nrmse) * 20.0
                 + Max(0.0, 1.0 - errorStd / StabilityScale) * 10.0;
    Min(100.0, total)
  }

  /** A perfect fit (r2 = 1, every direction right, no error) scores 100. */
  lemma PerfectFitScoresFull()
    ensures ConfidenceScore(1.0, 1.0, 0.0, 0.0) == 100.0
  {
  }

  /** The score never decreases as directional accuracy improves. */
  lemma ScoreMonotoneInAccuracy(r2: real, d1: real, d2: real, nrmse: real, errorStd: real)
    requires d1 <= d2
    ensures ConfidenceScore(r2, d1, nrmse, errorStd) <= ConfidenceScore(r2, d2, nrmse, errorStd)
  {
  }

  function Mean(s: seq<real>): real
    requires |s| > 0
  {
    Sum(s) / (|s| as real)
  }

  /** The largest absolute difference of two equally long non-empty series. */
  function MaxAbsError(actual: seq<real>, predicted: seq<real>): (m: real)
    requires |actual| == |predicted| > 0
    ensures forall i :: 0 <= i < |actual| ==> Abs(actual[i] - predicted[i]) <= m
    ensures exists i :: 0 <= i < |actual| && Abs(actual[i] - predicted[i]) == m
  {
    if |actual| == 1 then Abs(actual[0] - predicted[0])
    else
      var rest := MaxAbsError(actual[1..], predicted[1..]);
      assert forall i :: 1 <= i < |actual| ==> actual[i] == actual[1..][i - 1] && predicted[i] == predicted[1..][i - 1];
      var i :| 0 <= i < |actual| - 1 && Abs(actual[1..][i] - predicted[1..][i]) == rest;
      assert Abs(actual[i + 1] - predicted[i + 1]) == rest;
      Max(Abs(actual[0] - predicted[0]), rest)
  }

  /** The confidence metrics of predictions against actual values. numpy
      raises on empty or unequal inputs: None. Normalised rmse and the
      percentage maximum error fall back to 0 when the mean actual is 0. */
  function CalculateMetrics(actual: seq<real>, predicted: seq<real>, stats: FitStatistics)
    : (r: Option<ConfidenceMetrics>)
    ensures r.Some? <==> |actual| == |predicted| > 0
    ensures r.Some? ==>
      0.0 <= r.value.directionalAccuracy <= 1.0 &&
      r.value.confidenceScore <= 100.0 && 0.0 <= r.value.confidenceScore &&
      r.value.r2 == stats.r2 && r.value.rmse == stats.rmse && r.value.mae == stats.mae &&
      r.value.errorStd == stats.errorStd &&
      (forall i :: 0 <= i < |actual| ==> Abs(actual[i] - predicted[i]) <= r.value.maxError)
    ensures r.Some? ==>
      r.value.directionalAccuracy == WalkForward.DirectionalAccuracy(predicted, actual) &&
      r.value.maxError == MaxAbsError(actual, predicted) &&
      r.value.nrmse == (if Mean(actual) != 0.0 then stats.rmse / Mean(actual) else 0.0) &&
      r.value.maxErrorPct == (if Mean(actual) != 0.0 then r.value.maxError / Mean(actual) * 100.0 else 0.0) &&
      r.value.confidenceScore ==
        ConfidenceScore(stats.r2, r.value.directionalAccuracy, r.value.nrmse, stats.errorStd)
  {
    if |actual| != |predicted| || |actual| == 0 then None
    else
      var dir := WalkForward.DirectionalAccuracy(predicted, actual);
      var meanY := Mean(actual);
      var nrmse := if meanY != 0.0 then stats.rmse / meanY else 0.0;
      var maxError := MaxAbsError(actual, predicted);
      var maxErrorPct := if meanY != 0.0 then maxError / meanY * 100.0 else 0.0;
      Some(ConfidenceMetrics(stats.r2, dir, stats.rmse, stats.mae, nrmse, maxError, maxErrorPct,
                             stats.errorStd, ConfidenceScore(stats.r2, dir, nrmse, stats.errorStd)))
  }

  // ---------------------------------------------------------------------
  // Risk manager

  const BasePosition: real := 0.02
  const MaxPositionRatio: real := 0.10

  /** Volatility scaling of the position: 0.05/volatility, at most 1; 1 when
      the volatility is not positive. */
  function VolAdjustment(volatility: real): (adj: real)
    ensures 0.0 < adj <= 1.0
  {
    if volatility > 0.0 then Min(1.0, 0.05 / volatility) else 1.0
  }

  /** Suggested position: the account value times a ratio of 2%, scaled by
      the confidence score (out of 100) and the volatility adjustment, capped
      at 10%. */
  function PositionSize(accountValue: real, confidenceScore: real, volatility: real): (size: real)
    ensures volatility <= 0.05 ==>
      size == accountValue * Min(MaxPositionRatio, BasePosition * (confidenceScore / 100.0))
  {
    assert 0.0 < volatility <= 0.05 ==> 0.05 / volatility >= 1.0;
    accountValue * PositionRatio(confidenceScore, volatility)
  }

  function PositionRatio(confidenceScore: real, volatility: real): real
  {
    Min(MaxPositionRatio, BasePosition * (confidenceScore / 100.0) * VolAdjustment(volatility))
  }

  lemma ScaleMonotone(k: real, x: real, y: real)
    requires 0.0 <= k && x <= y
    ensures k * x <= k * y
  {
  }

  /** The position never exceeds 10% of the account, and is not negative
      for a non-negative score. */
  lemma PositionBounds(accountValue: real, confidenceScore: real, volatility: real)
    requires 0.0 <= accountValue
    ensures PositionSize(accountValue, confidenceScore, volatility) <= accountValue * MaxPositionRatio
    ensures 0.0 <= confidenceScore ==> 0.0 <= PositionSize(accountValue, confidenceScore, volatility)
  {
    var ratio := PositionRatio(confidenceScore, volatility);
    ScaleMonotone(accountValue, ratio, MaxPositionRatio);
    if 0.0 <= confidenceScore {
      ScaleMonotone(BasePosition * (confidenceScore / 100.0), 0.0, VolAdjustment(volatility));
      ScaleMonotone(accountValue, 0.0, ratio);
    }
  }

  /** Higher volatility never enlarges the position. */
  lemma PositionShrinksWithVolatility(accountValue: real, confidenceScore: real, v1: real, v2: real)
    requires 0.0 <= accountValue && 0.0 <= confidenceScore && 0.0 < v1 <= v2
    ensures PositionSize(accountValue, confidenceScore, v2) <= PositionSize(accountValue, confidenceScore, v1)
  {
    assert 0.05 / v2 <= 0.05 / v1;
    var f := BasePosition * (confidenceScore / 100.0);
    ScaleMonotone(f, VolAdjustment(v2), VolAdjustment(v1));
    ScaleMonotone(accountValue, PositionRatio(confidenceScore, v2), PositionRatio(confidenceScore, v1));
  }

  /** Stop-loss and take-profit prices. A positive volatility scales the
      stop-loss fraction by min(2, 100·volatility): the stop is wider than the
      fixed one above a volatility of 0.01 and narrower below it (see
      StopVolatilityEffect); the take-profit price never depends on it. A
      missing or zero volatility is falsy and keeps the fixed stop. */
  function StopLevels(cfg: RiskMetricsConfig, entryPrice: real, volatility: Option<real>): (levels: (real, real))
    ensures levels.1 == entryPrice * (1.0 + cfg.takeProfitPct)
    ensures (volatility.None? || volatility.value <= 0.0) ==> levels.0 == entryPrice * (1.0 - cfg.stopLossPct)
    ensures volatility.Some? && volatility.value >= 0.02 ==> levels.0 == entryPrice * (1.0 - 2.0 * cfg.stopLossPct)
    ensures volatility.Some? && 0.0 < volatility.value < 0.02 ==>
      levels.0 == entryPrice * (1.0 - cfg.stopLossPct * (100.0 * volatility.value))
  {
    var takeProfit := entryPrice * (1.0 + cfg.takeProfitPct);
    if volatility.Some? && volatility.value > 0.0 then
      (entryPrice * (1.0 - cfg.stopLossPct * Min(2.0, volatility.value * 100.0)), takeProfit)
    else
      (entryPrice * (1.0 - cfg.stopLossPct), takeProfit)
  }

  /** With a non-negative stop fraction and a positive entry the stop-loss
      price never exceeds the entry, and the stop is never wider than twice
      the fixed one. */
  lemma StopBelowEntry(cfg: RiskMetricsConfig, entryPrice: real, volatility: Option<real>)
    requires 0.0 < entryPrice && 0.0 <= cfg.stopLossPct
    ensures entryPrice * (1.0 - 2.0 * cfg.stopLossPct) <= StopLevels(cfg, entryPrice, volatility).0 <= entryPrice
  {
    var sl := cfg.stopLossPct;
    if volatility.Some? && volatility.value > 0.0 {
      var k := Min(2.0, volatility.value * 100.0);
      WidenedBound(sl, k);
      StopBetween(entryPrice, sl, sl * k);
      assert StopLevels(cfg, entryPrice, volatility).0 == entryPrice * (1.0 - sl * k);
    } else {
      StopBetween(entryPrice, sl, sl);
      assert StopLevels(cfg, entryPrice, volatility).0 == entryPrice * (1.0 - sl);
    }
  }

  /** Against the fixed stop, a positive volatility moves the stop-loss price
      down (a wider stop) exactly when it exceeds 0.01, leaves it in place at
      0.01 and moves it up (a narrower stop) below 0.01. */
  lemma StopVolatilityEffect(cfg: RiskMetricsConfig, entryPrice: real, v: real)
    requires 0.0 < entryPrice && 0.0 < cfg.stopLossPct && 0.0 < v
    ensures var scaled, fixed := StopLevels(cfg, entryPrice, Some(v)).0, StopLevels(cfg, entryPrice, None).0;
      (scaled < fixed <==> v > 0.01) && (scaled == fixed <==> v == 0.01) && (scaled > fixed <==> v < 0.01)
  {
    var sl := cfg.stopLossPct;
    var k := Min(2.0, v * 100.0);
    var scaled, fixed := StopLevels(cfg, entryPrice, Some(v)).0, StopLevels(cfg, entryPrice, None).0;
    assert scaled == entryPrice * (1.0 - sl * k);
    ScaledStopOrder(entryPrice, sl, k, scaled, fixed);
    assert k > 1.0 <==> v > 0.01;
    assert k == 1.0 <==> v == 0.01;
  }

  /** Scaling the stop fraction by k moves the stop below the fixed one
      exactly when k > 1. */
  lemma ScaledStopOrder(e: real, sl: real, k: real, scaled: real, fixed: real)
    requires 0.0 < e && 0.0 < sl
    requires scaled == e * (1.0 - sl * k) && fixed == e * (1.0 - sl)
    ensures scaled < fixed <==> k > 1.0
    ensures scaled == fixed <==> k == 1.0
    ensures scaled > fixed <==> k < 1.0
  {
    assert scaled - fixed == e * sl * (1.0 - k);
    assert e * sl > 0.0;
    if k > 1.0 {
      assert e * sl * (1.0 - k) < 0.0;
    } else if k < 1.0 {
      assert e * sl * (1.0 - k) > 0.0;
    }
  }

  lemma WidenedBound(sl: real, k: real)
    requires 0.0 <= sl && 0.0 < k <= 2.0
    ensures 0.0 <= sl * k <= 2.0 * sl
  {
    ScaleMonotone(sl, 0.0, k);
    ScaleMonotone(sl, k, 2.0);
  }

  lemma StopBetween(entryPrice: real, sl: real, w: real)
    requires 0.0 < entryPrice && 0.0 <= w <= 2.0 * sl
    ensures entryPrice * (1.0 - 2.0 * sl) <= entryPrice * (1.0 - w) <= entryPrice
  {
    ScaleMonotone(entryPrice, 0.0, w);
    ScaleMonotone(entryPrice, w, 2.0 * sl);
    assert entryPrice * (1.0 - w) == entryPrice - entryPrice * w;
    assert entryPrice * (1.0 - 2.0 * sl) == entryPrice - entryPrice * (2.0 * sl);
  }

  datatype RiskAction = StopLoss | TakeProfit | Hold

  datatype RiskStatus = RiskStatus(
    pnlPct: real, drawdownPct: real, stopLossTriggered: bool, takeProfitReached: bool, action: RiskAction)

  /** The position's state at the current price. Python's float division by
      a zero entry price raises: None. */
  function CheckRiskLimit(cfg: RiskMetricsConfig, currentPrice: real, entryPrice: real, stopLossPrice: real)
    : (r: Option<RiskStatus>)
    ensures r.None? <==> entryPrice == 0.0
    ensures r.Some? ==>
      (r.value.stopLossTriggered <==> currentPrice <= stopLossPrice) &&
      (r.value.takeProfitReached <==> currentPrice >= entryPrice * (1.0 + cfg.takeProfitPct)) &&
      (r.value.action == StopLoss <==> currentPrice <= stopLossPrice) &&
      (r.value.action == TakeProfit <==>
         currentPrice > stopLossPrice && currentPrice >= entryPrice * (1.0 + cfg.takeProfitPct)) &&
      (r.value.action == Hold <==>
         currentPrice > stopLossPrice && currentPrice < entryPrice * (1.0 + cfg.takeProfitPct))
    ensures r.Some? ==>
      r.value.pnlPct == (currentPrice - entryPrice) / entryPrice * 100.0 &&
      r.value.drawdownPct == (if currentPrice < entryPrice then r.value.pnlPct else 0.0)
  {
    if entryPrice == 0.0 then None
    else
      var pnl := (currentPrice - entryPrice) / entryPrice * 100.0;
      var stop := currentPrice <= stopLossPrice;
      var take := currentPrice >= entryPrice * (1.0 + cfg.takeProfitPct);
      var drawdown := if currentPrice < entryPrice then (currentPrice - entryPrice) / entryPrice * 100.0 else 0.0;
      Some(RiskStatus(pnl, drawdown, stop, take, if stop then StopLoss else if take then TakeProfit else Hold))
  }

  /** For a long position at a positive entry price the drawdown is the loss
      part of the profit-and-loss, never positive. */
  lemma DrawdownIsLossPart(cfg: RiskMetricsConfig, currentPrice: real, entryPrice: real, stopLossPrice: real)
    requires 0.0 < entryPrice
    ensures var r := CheckRiskLimit(cfg, currentPrice, entryPrice, stopLossPrice);
      r.Some? && r.value.drawdownPct == Min(r.value.pnlPct, 0.0) && r.value.drawdownPct <= 0.0
  {
    if currentPrice < entryPrice {
      assert (currentPrice - entryPrice) / entryPrice < 0.0;
    } else {
      assert (currentPrice - entryPrice) / entryPrice >= 0.0;
    }
  }

  /** With the default configuration, exits taken from the fixed levels:
      below the stop the position is cut, at +5% the profit is taken. */
  lemma DefaultExitsAtFixedLevels(entryPrice: real, currentPrice: real)
    requires 0.0 < entryPrice
    ensures var (stop, take) := StopLevels(DefaultRiskConfig(), entryPrice, None);
      var r := CheckRiskLimit(DefaultRiskConfig(), currentPrice, entryPrice, stop);
      r.Some? &&
      (currentPrice <= 0.97 * entryPrice ==> r.value.action == StopLoss) &&
      (currentPrice >= 1.05 * entryPrice ==> r.value.action == TakeProfit) &&
      (0.97 * entryPrice < currentPrice < 1.05 * entryPrice ==> r.value.action == Hold)
  {
  }

  // ---------------------------------------------------------------------
  // Risk report

  /** The verdict lines of the report; the number formatting is left out. */
  datatype ReportLine =
    | ConfidenceHeader
    | R2Value(r2: real)
    | R2Caution
    | DirectionValue(accuracy: real)
    | DirectionExcellent
    | DirectionGood
    | DirectionPoor
    | StressHeader
    | WorstScenario(lossPct: real)
    | ExtremeRisk
    | HighRisk
    | RiskControllable
    | AdviceHeader
    | StopLossAdvice(pct: real)
    | TakeProfitAdvice(pct: real)
    | MaxPositionAdvice
    | ScaleInAdvice

  /** The confidence lines: the R² value, the caution when R² is above 0.6,
      the directional accuracy and its verdict, excellent from 0.65, good from
      0.55 and poor below. */
  function ConfidenceSection(metrics: Option<ConfidenceMetrics>): (lines: seq<ReportLine>)
    ensures metrics.None? ==> lines == []
    ensures metrics.Some? ==>
      |lines| >= 3 && lines[0] == R2Value(metrics.value.r2) &&
      lines[|lines| - 2] == DirectionValue(metrics.value.directionalAccuracy) &&
      lines[|lines| - 1] ==
        (if metrics.value.directionalAccuracy >= 0.65 then DirectionExcellent
         else if metrics.value.directionalAccuracy >= 0.55 then DirectionGood
         else DirectionPoor)
  {
    match metrics
    case None => []
    case Some(m) =>
      [R2Value(m.r2)] + (if m.r2 > 0.6 then [R2Caution] else []) +
      [DirectionValue(m.directionalAccuracy)] +
      [if m.directionalAccuracy >= 0.65 then DirectionExcellent
       else if m.directionalAccuracy >= 0.55 then DirectionGood
       else DirectionPoor]
  }

  function StressSection(stress: Option<StressTesting.StressSummary>): (lines: seq<ReportLine>)
    ensures stress.None? ==> lines == []
  {
    match stress
    case None => []
    case Some(s) =>
      [WorstScenario(Abs(s.worstChangePct)),
       if Abs(s.worstChangePct) > 20.0 then ExtremeRisk
       else if Abs(s.worstChangePct) > 10.0 then HighRisk
       else RiskControllable]
  }

  /** The report: confidence, stress test and advice sections, in this
      order, each section present only for the results given. */
  function RiskReport(cfg: RiskMetricsConfig, metrics: Option<ConfidenceMetrics>,
                      stress: Option<StressTesting.StressSummary>): (rep: seq<ReportLine>)
    ensures |rep| >= 7 && rep[0] == ConfidenceHeader
    ensures rep[|rep| - 5..] == [AdviceHeader, StopLossAdvice(cfg.stopLossPct * 100.0),
                                 TakeProfitAdvice(cfg.takeProfitPct * 100.0), MaxPositionAdvice, ScaleInAdvice]
  {
    [ConfidenceHeader] + ConfidenceSection(metrics) +
    [StressHeader] + StressSection(stress) +
    [AdviceHeader, StopLossAdvice(cfg.stopLossPct * 100.0), TakeProfitAdvice(cfg.takeProfitPct * 100.0),
     MaxPositionAdvice, ScaleInAdvice]
  }

  /** The report always has its three headers in order and its advice
      lines; the stress verdict is the top two tiers of the stress ladder,
      the lower two merged into "controllable". */
  lemma RiskReportLayout(cfg: RiskMetricsConfig, metrics: Option<ConfidenceMetrics>,
                         stress: Option<StressTesting.StressSummary>)
    ensures var rep := RiskReport(cfg, metrics, stress);
      var c := |ConfidenceSection(metrics)|;
      var s := |StressSection(stress)|;
      |rep| == c + s + 7 &&
      rep[0] == ConfidenceHeader && rep[c + 1] == StressHeader && rep[c + s + 2] == AdviceHeader &&
      rep[|rep| - 4] == StopLossAdvice(cfg.stopLossPct * 100.0)
    ensures stress.Some? ==>
      var verdict := StressSection(stress)[1];
      var tier := StressTesting.TierOf(stress.value.worstChangePct);
      (verdict == ExtremeRisk <==> tier == StressTesting.Extreme) &&
      (verdict == HighRisk <==> tier == StressTesting.High) &&
      (verdict == RiskControllable <==> tier.Rank() <= 1)
    ensures metrics.Some? ==>
      (R2Caution in ConfidenceSection(metrics) <==> metrics.value.r2 > 0.6) &&
      |ConfidenceSection(metrics)| == if metrics.value.r2 > 0.6 then 4 else 3
  {
  }
}
