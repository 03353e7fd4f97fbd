/** The validation pipeline that strings the pieces together: walk-forward
    testing, the regime analysis of its predictions, the stress scenarios on
    a base prediction, the confidence metrics and the risk report. */
module ModelValidation {
  import opened Common
  import WalkForward
  import StressTesting
  import RiskManagement

  datatype ValidationResults = ValidationResults(
    walkForward: WalkForward.WalkForwardResult,
    regimeAnalysis: Option<WalkForward.RegimeAnalysis>,
    stressTest: Option<StressTesting.StressSummary>,
    confidence: Option<RiskManagement.ConfidenceMetrics>,
    riskReport: seq<RiskManagement.ReportLine>)

  /** The walk-forward result the window loop produces. */
  function WalkForwardOutcome(series: seq<real>, cfg: WalkForward.WalkForwardConfig,
                              forecast: nat -> WalkForward.Forecast): (r: WalkForward.WalkForwardResult)
    requires WalkForward.RowForecasts(cfg, forecast)
    ensures r.Completed? ==> |r.predictions| == |r.actuals| == |r.indices| > 0
  {
    var h := WalkForward.CollectFrom(series, cfg, forecast, cfg.initialTrainSize);
    if h.predictions == [] then WalkForward.NoPredictions
    else WalkForward.Completed(h.predictions, h.actuals, h.indices,
                               WalkForward.WindowCount(|series|, cfg, cfg.initialTrainSize),
                               WalkForward.DirectionalAccuracy(h.predictions, h.actuals))
  }

  /** A validator holding the configuration of each stage; a missing
      configuration is replaced by the stage's default. */
  class ModelValidator {
    const walkForwardConfig: WalkForward.WalkForwardConfig
    const stressConfig: StressTesting.StressConfig
    const riskConfig: RiskManagement.RiskMetricsConfig

    constructor(walkForwardConfig: Option<WalkForward.WalkForwardConfig>,
                stressConfig: Option<StressTesting.StressConfig>,
                riskConfig: Option<RiskManagement.RiskMetricsConfig>)
      ensures this.walkForwardConfig ==
        if walkForwardConfig.Some? then walkForwardConfig.value else WalkForward.DefaultConfig()
      ensures this.stressConfig ==
        if stressConfig.Some? then stressConfig.value else StressTesting.DefaultStressConfig()
      ensures this.riskConfig ==
        if riskConfig.Some? then riskConfig.value else RiskManagement.DefaultRiskConfig()
    {
      this.walkForwardConfig :=
        if walkForwardConfig.Some? then walkForwardConfig.value else WalkForward.DefaultConfig();
      this.stressConfig :=
        if stressConfig.Some? then stressConfig.value else StressTesting.DefaultStressConfig();
      this.riskConfig :=
        if riskConfig.Some? then riskConfig.value else RiskManagement.DefaultRiskConfig();
    }

    /** The full validation. The regime analysis and the confidence metrics
        exist exactly when some window produced predictions; the stress test
        runs exactly when a non-zero base prediction is given (zero is falsy);
        the risk report is always produced from whatever the earlier stages
        gave. None when the stress test raises (no known supply shock). */
    method Validate(series: seq<real>, forecast: nat -> WalkForward.Forecast,
                    stats: RiskManagement.FitStatistics, basePrediction: Option<real>)
      returns (results: Option<ValidationResults>)
      requires walkForwardConfig.stepSize > 0 ||
               walkForwardConfig.initialTrainSize + walkForwardConfig.testSize >= |series|
      requires WalkForward.RowForecasts(walkForwardConfig, forecast)
      ensures var runsStress := basePrediction.Some? && basePrediction.value != 0.0;
        results.None? <==> runsStress && StressTesting.StressOutcome(stressConfig, basePrediction.value).None?
      ensures results.Some? ==>
        var r := results.value;
        var wf := WalkForwardOutcome(series, walkForwardConfig, forecast);
        r.walkForward == wf &&
        (r.regimeAnalysis.Some? <==> wf.Completed?) &&
        r.regimeAnalysis == (if wf.Completed? then WalkForward.AnalyzeMarketRegimes(wf) else None) &&
        (r.confidence.Some? <==> wf.Completed?) &&
        (r.stressTest.Some? <==> basePrediction.Some? && basePrediction.value != 0.0) &&
        (r.stressTest.Some? ==> r.stressTest == StressTesting.StressOutcome(stressConfig, basePrediction.value)) &&
        (r.confidence.Some? ==>
           r.confidence == RiskManagement.CalculateMetrics(wf.actuals, wf.predictions, stats) &&
           0.0 <= r.confidence.value.confidenceScore <= 100.0) &&
        r.riskReport == RiskManagement.RiskReport(riskConfig, r.confidence, r.stressTest)
    {
      var wf := WalkForward.Run(series, walkForwardConfig, forecast);
      assert wf == WalkForwardOutcome(series, walkForwardConfig, forecast);
      var regimes: Option<WalkForward.RegimeAnalysis> := None;
      if wf.Completed? {
        regimes := WalkForward.AnalyzeMarketRegimes(wf);
      }
      var stress: Option<StressTesting.StressSummary> := None;
      if basePrediction.Some? && basePrediction.value != 0.0 {
        stress := StressTesting.RunAllStressTests(stressConfig, basePrediction.value);
        if stress.None? {
          return None;
        }
      }
      var confidence: Option<RiskManagement.ConfidenceMetrics> := None;
      if wf.Completed? {
        confidence := RiskManagement.CalculateMetrics(wf.actuals, wf.predictions, stats);
      }
      var report := RiskManagement.RiskReport(riskConfig, confidence, stress);
      results := Some(ValidationResults(wf, regimes, stress, confidence, report));
    }
  }

  /** With the default stress configuration the pipeline never raises: the
      default supply shocks are known. */
  lemma DefaultStressNeverRaises(base: real)
    ensures StressTesting.StressOutcome(StressTesting.DefaultStressConfig(), base).Some?
  {
    StressTesting.DefaultWorstCase(base);
  }
}
