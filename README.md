# Copper price prediction: risk, validation, alerting, backtest, indicators and price model

This project is a Dafny model of the decision logic in the copper price prediction system.
It covers the following parts.

- **Three-tier risk monitor.** Per-indicator threshold checks produce level-2 and level-3
  signals. It also has the four-condition squeeze scenario and the aggregation ladder that turns
  a list of signals into one alert level. The monitor object stores the latest signals and
  level. Last comes the fifteen-item automatic checklist with its pass-rate summary.
- **Validation pipeline.**
  - Walk-forward windows over a price series, with a possibly failing fit/predict oracle. It
    produces pooled predictions, their directional accuracy, and a split into trending and
    sideways regimes.
  - Stress scenarios with a four-tier risk ladder and a combined worst case.
  - A composite confidence score.
  - The risk manager's position sizing, stop/take-profit levels, exit classification and report.
  - The validator that sequences all of these.
- **Real-time alert engine.** Rules are held by id. A sweep honours the active flag and the
  cooldown, appends one history record per firing rule and stamps the rule. The default rule
  set and the history query are included.
- **Long/short backtest engine** with its three signal rules and its summary metrics, and the
  weighted ensemble of forecasting models.
- **Technical indicators:**
  - OBV, true range and ATR, Bollinger bands, EMA/MACD, KDJ and RSI;
  - the in-place ADX directional-movement masking;
  - the derived flags;
  - the edge-triggered signal table with its five-way vote.
- **Three-layer heuristic price model:**
  - five factor scores;
  - short, medium and long term projections;
  - regime detection and advice ladders;
  - the scenario stress test.

Floating-point quantities are modelled as `real`. Several quantities that the system obtains
from pandas, numpy or sklearn are given as inputs instead of computed. These are the rolling
standard deviations and volatilities, r2, rmse, mae, and the standard deviation of the errors.
The wall clock is an explicit `now` parameter in seconds. The forecasting models are oracles.
Where Python would raise ZeroDivisionError, the model either takes a precondition or returns
`None`, and each member's contract says which.

## Model

| member | source | states |
|---|---|---|
| RiskMonitor.LevelPresentationDistinct | CodeBuddy/20260227142050/copper_prediction_v2/models/risk_alert_system.py:16-49 | Distinct alert levels have distinct ranks, colours, emoji and labels. |
| RiskMonitor.Escalate | CodeBuddy/20260227142050/copper_prediction_v2/models/risk_alert_system.py:159-189 | One tiered check emits at most one signal, for its own indicator and at the given time. The signal is level 3 when the magnitude exceeds the level-3 threshold, otherwise level 2 when it exceeds the level-2 threshold, otherwise nothing. |
| RiskMonitor.PriceBehaviorChecks | CodeBuddy/20260227142050/copper_prediction_v2/models/risk_alert_system.py:139-259 | Fewer than 20 rows give no signals. Otherwise there are at most 3 signals, at most one per indicator: volatility (only above 20 rows, since the 20-day std of returns is undefined at exactly 20), \|deviation\| and \|gap\|. Each is tiered with level 3 taking precedence. |
| RiskMonitor.PriceVolatilityReport | CodeBuddy/20260227142050/copper_prediction_v2/models/risk_alert_system.py:154-189 | With at least 20 rows, the volatility signal is tiered against the volatility thresholds and carries the volatility as its value. |
| RiskMonitor.PriceDeviationReport | CodeBuddy/20260227142050/copper_prediction_v2/models/risk_alert_system.py:191-223 | With at least 20 rows, the deviation signal is tiered on \|deviation\| and reports the signed deviation. |
| RiskMonitor.PriceGapReport | CodeBuddy/20260227142050/copper_prediction_v2/models/risk_alert_system.py:225-257 | With at least 20 rows, the gap signal is tiered on \|gap\| and reports the signed gap. |
| RiskMonitor.PriceShape | CodeBuddy/20260227142050/copper_prediction_v2/models/risk_alert_system.py:149-259 | With at least 20 rows, the price checks give at most three signals, one per indicator, all stamped with the price-behaviour category and the check time. |
| RiskMonitor.TermStructureSignals | CodeBuddy/20260227142050/copper_prediction_v2/models/risk_alert_system.py:261-311 | The placeholder spread yields one level-2 signal exactly when it lies outside [contango, backwardation]. Its threshold is the side that was crossed. |
| RiskMonitor.TermStructureQuietByDefault | CodeBuddy/20260227142050/copper_prediction_v2/models/risk_alert_system.py:52-96 | Under the default thresholds the term-structure check never signals. |
| RiskMonitor.InventorySignals | CodeBuddy/20260227142050/copper_prediction_v2/models/risk_alert_system.py:313-364 | No warrant-cancel ratio gives no signal. A ratio above level 3 gives one level-3 signal, a ratio in (level 2, level 3] gives one level-2 signal, and anything else gives nothing. |
| RiskMonitor.SqueezeConditions | CodeBuddy/20260227142050/copper_prediction_v2/models/risk_alert_system.py:383-394 | Four conditions: spread above the backwardation threshold, registered inventory present and below 5.0 and below its previous value when that is known, cancel ratio above its threshold, concentration above its threshold. A missing spread, ratio or concentration counts as 0; a missing inventory never meets its condition. |
| RiskMonitor.CheckSqueeze | CodeBuddy/20260227142050/copper_prediction_v2/models/risk_alert_system.py:366-413 | A signal is returned exactly when at least 3 of the 4 conditions hold. It is level 3, scenario category, squeeze indicator, with value equal to the number of conditions met and threshold 3. |
| RiskMonitor.SqueezeSilentOnMissingData | CodeBuddy/20260227142050/copper_prediction_v2/models/risk_alert_system.py:383-394 | With empty term and inventory data no condition holds, so no squeeze signal is raised (for non-negative squeeze thresholds). |
| RiskMonitor.SqueezeIgnoresInventoryThreshold | CodeBuddy/20260227142050/copper_prediction_v2/models/risk_alert_system.py:391 | The squeeze verdict does not depend on the configured inventory-squeeze threshold, because the inventory condition uses the literal 5.0. |
| RiskMonitor.Aggregate | CodeBuddy/20260227142050/copper_prediction_v2/models/risk_alert_system.py:431-432 | An empty signal list aggregates to Normal. |
| RiskMonitor.AggregateLadder | CodeBuddy/20260227142050/copper_prediction_v2/models/risk_alert_system.py:415-451 | The ladder is stated as four iff-clauses over the level counts (n3, n2, n1). Level 3 iff n3 > 0 or n2 >= 2. Level 2 iff n3 = 0 and (n2 = 1, or n2 = 0 and n1 >= 3). Level 1 iff no level-3/2 signals and 1 <= n1 <= 2. Normal iff there are no signals of any level. |
| RiskMonitor.LadderMonotone | CodeBuddy/20260227142050/copper_prediction_v2/models/risk_alert_system.py:436-451 | Raising any of the three counts never lowers the ladder's level. |
| RiskMonitor.AggregateMonotone | CodeBuddy/20260227142050/copper_prediction_v2/models/risk_alert_system.py:433-451 | Concatenating more signals, before or after, never lowers the aggregated level. |
| RiskMonitor.AggregateDominates | CodeBuddy/20260227142050/copper_prediction_v2/models/risk_alert_system.py:433-451 | The aggregated level is at least the level of every signal in the list. |
| RiskMonitor.AggregateOrderIndependent | CodeBuddy/20260227142050/copper_prediction_v2/models/risk_alert_system.py:433-435 | Two lists with the same multiset of levels aggregate to the same level. |
| RiskMonitor.MonitoringSignalsSevere | CodeBuddy/20260227142050/copper_prediction_v2/models/risk_alert_system.py:475-503 | Every signal that full monitoring produces is level 2 or level 3. |
| RiskMonitor.NormalIffNoSignals | CodeBuddy/20260227142050/copper_prediction_v2/models/risk_alert_system.py:501-503 | Full monitoring reports Normal exactly when it produced no signal. |
| RiskMonitor.SqueezeForcesLevel3 | CodeBuddy/20260227142050/copper_prediction_v2/models/risk_alert_system.py:492-503 | When term and inventory data are both present and the squeeze fires, the overall level is level 3. |
| RiskMonitor.CopperRiskMonitor.constructor | CodeBuddy/20260227142050/copper_prediction_v2/models/risk_alert_system.py:128-137 | The monitor takes the given thresholds or the defaults. It starts with no alerts and level Normal. |
| RiskMonitor.CopperRiskMonitor.PriceBehaviorAlerts | CodeBuddy/20260227142050/copper_prediction_v2/models/risk_alert_system.py:139-259 | The list built by appending tiered checks is the price-behaviour signal list under the monitor's thresholds. |
| RiskMonitor.CopperRiskMonitor.TermStructureAlerts | CodeBuddy/20260227142050/copper_prediction_v2/models/risk_alert_system.py:261-311 | The list built by appending is the term-structure signal list. |
| RiskMonitor.CopperRiskMonitor.InventoryAlerts | CodeBuddy/20260227142050/copper_prediction_v2/models/risk_alert_system.py:313-364 | The list built by appending is the inventory signal list. |
| RiskMonitor.CopperRiskMonitor.RunFullMonitoring | CodeBuddy/20260227142050/copper_prediction_v2/models/risk_alert_system.py:453-517 | The stored alerts are price, term, inventory and squeeze signals in that order, with the squeeze checked only when both data sets are present. The stored level is their aggregate. The report carries level, alerts, summary and time. |
| RiskMonitor.CopperRiskMonitor.GenerateSummary | CodeBuddy/20260227142050/copper_prediction_v2/models/risk_alert_system.py:519-530 | The summary is the all-clear text exactly when the level is Normal. Otherwise it has one line per alert, in order, with the alert's emoji and indicator. |
| RiskMonitor.SummaryLines | CodeBuddy/20260227142050/copper_prediction_v2/models/risk_alert_system.py:524-530 | One summary line per signal, in order, carrying that signal's emoji and indicator. |
| RiskChecklist.CheckInventoryUpdate | CodeBuddy/20260227142050/copper_prediction_v2/models/risk_alert_system.py:676-690 | Passed iff the inventory data has the LME inventory, otherwise a warning. Never failed. |
| RiskChecklist.CheckVolatility | CodeBuddy/20260227142050/copper_prediction_v2/models/risk_alert_system.py:715-742 | Warning iff fewer than 20 rows. Failed iff more than 20 rows and the volatility exceeds the level-2 threshold. |
| RiskChecklist.CheckTermStructure | CodeBuddy/20260227142050/copper_prediction_v2/models/risk_alert_system.py:744-769 | Never a warning. Failed iff the spread (given, or 50 by default) lies outside [contango, backwardation]. |
| RiskChecklist.CheckCrossMarket | CodeBuddy/20260227142050/copper_prediction_v2/models/risk_alert_system.py:771-796 | Never a warning. Failed iff the placeholder ratio 8.1 lies outside the Shanghai/London band. |
| RiskChecklist.CheckGap | CodeBuddy/20260227142050/copper_prediction_v2/models/risk_alert_system.py:816-841 | Warning iff fewer than 2 rows. Failed iff there are at least 2 rows and \|gap\| exceeds the level-2 threshold. |
| RiskChecklist.CheckDeviation | CodeBuddy/20260227142050/copper_prediction_v2/models/risk_alert_system.py:843-869 | Warning iff fewer than 20 rows. Failed iff there are at least 20 rows and \|deviation\| exceeds the level-2 threshold. |
| RiskChecklist.CheckWarrantCancel | CodeBuddy/20260227142050/copper_prediction_v2/models/risk_alert_system.py:871-895 | Warning iff the ratio is missing. Failed iff it is present and above the level-2 threshold. |
| RiskChecklist.CheckConcentration | CodeBuddy/20260227142050/copper_prediction_v2/models/risk_alert_system.py:897-916 | Never a warning. Failed iff the placeholder concentration 25 exceeds the fund-concentration threshold. |
| RiskChecklist.CountPassedBound | CodeBuddy/20260227142050/copper_prediction_v2/models/risk_alert_system.py:655 | The passed count is at most the number of results, and equals it iff every result passed. |
| RiskChecklist.PassRateRounding | CodeBuddy/20260227142050/copper_prediction_v2/models/risk_alert_system.py:656-663 | The integer pass rate in tenths is within 0.05 of passed/15·100. It is at most 100% and equals 100% iff all 15 checks pass. |
| RiskChecklist.AutoExecuteChecklist | CodeBuddy/20260227142050/copper_prediction_v2/models/risk_alert_system.py:567-674 | The report holds 8 daily and 7 realtime results. The first three realtime entries copy the daily volatility, term and spread statuses under their own names. The summary has total 15, passed equal to the count of passed items, failed = 15 − passed, and the rounded pass rate. |
| RiskChecklist.RunDailyChecks | CodeBuddy/20260227142050/copper_prediction_v2/models/risk_alert_system.py:593-623 | The eight appends build exactly the daily checklist, and the three results kept for reuse are the volatility, term-structure and cross-market checks. |
| RiskChecklist.RunRealtimeChecks | CodeBuddy/20260227142050/copper_prediction_v2/models/risk_alert_system.py:626-653 | The seven appends build exactly the intraday checklist, starting from renamed copies of the three reused daily results. |
| RiskChecklist.EmptyDataChecklist | CodeBuddy/20260227142050/copper_prediction_v2/models/risk_alert_system.py:567-674 | With default thresholds and no data, exactly 9 of the 15 checks pass. |
| WalkForward.FoldHarvest | CodeBuddy/20260227142050/copper_prediction_v2/models/model_validation.py:99-150 | One window contributes either nothing or exactly test_size rows. The indices run from test_start in order and the actuals are the series at those indices. |
| WalkForward.CollectFrom | CodeBuddy/20260227142050/copper_prediction_v2/models/model_validation.py:96-152 | The pooled predictions, actuals and indices of all windows from a start position have equal lengths. |
| WalkForward.WindowCountBounds | CodeBuddy/20260227142050/copper_prediction_v2/models/model_validation.py:96-152 | The loop runs zero times iff start + test_size >= N. Otherwise its last window still satisfies the strict loop condition and the next one would not. |
| WalkForward.DefaultWindowsOn300Rows | CodeBuddy/20260227142050/copper_prediction_v2/models/model_validation.py:20-25 | With the default configuration, a 300-row series gives exactly two windows. |
| WalkForward.HarvestShape | CodeBuddy/20260227142050/copper_prediction_v2/models/model_validation.py:96-152 | Every pooled index lies at or after the start and before the last row, and its actual value is the series value there. |
| WalkForward.SkippedWindowContributesNothing | CodeBuddy/20260227142050/copper_prediction_v2/models/model_validation.py:110-150 | A window whose training slice (test_start − 1 rows) is shorter than min_train_size, or whose fit/predict raises, adds no predictions. |
| WalkForward.DirectionalMatches | CodeBuddy/20260227142050/copper_prediction_v2/models/model_validation.py:168-171 | The number of matching step directions is at most the number of steps. |
| WalkForward.DirectionalAccuracy | CodeBuddy/20260227142050/copper_prediction_v2/models/model_validation.py:167-173 | Directional accuracy, the share of matching step directions, lies in [0, 1]. |
| WalkForward.PerfectForecastAccuracy | CodeBuddy/20260227142050/copper_prediction_v2/models/model_validation.py:167-173 | Predicting the actual series itself scores accuracy 1. |
| WalkForward.MirroredForecastAccuracy | CodeBuddy/20260227142050/copper_prediction_v2/models/model_validation.py:167-173 | A negated forecast of a series with no flat steps matches no direction. |
| WalkForward.RunFold | CodeBuddy/20260227142050/copper_prediction_v2/models/model_validation.py:99-150 | One loop body extends the pooled lists by exactly that window's harvest. |
| WalkForward.FoldStep | CodeBuddy/20260227142050/copper_prediction_v2/models/model_validation.py:96-152 | Pooling one window and then the rest equals pooling everything from that window on. This is the loop invariant of the run. |
| WalkForward.RunWindows | CodeBuddy/20260227142050/copper_prediction_v2/models/model_validation.py:94-153 | The window loop pools exactly what every window from the initial training size onwards contributes, and runs once per window that fits. |
| WalkForward.Run | CodeBuddy/20260227142050/copper_prediction_v2/models/model_validation.py:65-192 | The result is "no predictions" iff no window contributed. Otherwise it holds the pooled predictions, actuals and indices, the number of loop iterations and their directional accuracy. |
| WalkForward.DirectionMatchesRegime | CodeBuddy/20260227142050/copper_prediction_v2/models/model_validation.py:232-245 | A row has an up or down trend direction exactly when it is classed as trending. |
| WalkForward.Pick | CodeBuddy/20260227142050/copper_prediction_v2/models/model_validation.py:251-257 | The rows selected for a regime come in equal-length prediction/actual pairs and never outnumber the remaining rows. |
| WalkForward.RegimesPartition | CodeBuddy/20260227142050/copper_prediction_v2/models/model_validation.py:234-257 | Every row is either trending or sideways: the two selections together have exactly as many rows as the input. |
| WalkForward.TrendingNeedsHistory | CodeBuddy/20260227142050/copper_prediction_v2/models/model_validation.py:229-237 | At most N − 20 rows can be classed as trending, since the first 20 rows have no 20-step return. |
| WalkForward.RegimeAnalysisCounts | CodeBuddy/20260227142050/copper_prediction_v2/models/model_validation.py:199-290 | On a non-empty result, the regime counts add up to the number of predictions and each regime's accuracy lies in [0, 1]. |
| WalkForward.AnalyzeMarketRegimes | CodeBuddy/20260227142050/copper_prediction_v2/models/model_validation.py:199-290 | There is no regime analysis iff the walk-forward run produced no predictions (no completed result, or no predicted rows). |
| StressTesting.TierOf | CodeBuddy/20260227142050/copper_prediction_v2/models/model_validation.py:330-337 | Four iff-clauses: extreme for \|pct\| > 20, high for (10, 20], medium for (5, 10], low for at most 5. |
| StressTesting.TierMonotone | CodeBuddy/20260227142050/copper_prediction_v2/models/model_validation.py:330-337 | A larger absolute change never gets a lower tier. |
| StressTesting.MakeStressConfig | CodeBuddy/20260227142050/copper_prediction_v2/models/model_validation.py:29-43 | The configuration keeps its fields, and missing supply-shock types become [chile_earthquake, panama_drought]. |
| StressTesting.Shock | CodeBuddy/20260227142050/copper_prediction_v2/models/model_validation.py:318-337 | A shock of impact i gives pct = 100·i, shocked price = base·(1+i), and the tier of that pct. |
| StressTesting.DefaultDemandShock | CodeBuddy/20260227142050/copper_prediction_v2/models/model_validation.py:298-349 | The default 30% demand drop gives −21%, 0.79·base and the extreme tier. |
| StressTesting.DemandShock | CodeBuddy/20260227142050/copper_prediction_v2/models/model_validation.py:298-349 | The demand shock changes the price by drop·elasticity·100 percent: the shocked price is base·(1 + change/100) and the tier is the tier of that change. |
| StressTesting.UsdScenario | CodeBuddy/20260227142050/copper_prediction_v2/models/model_validation.py:368-383 | Scenario 2022-09 spikes 5% and drops 20%. Every other name, 2020-03 included, spikes 8% and drops 30%. |
| StressTesting.UsdShock | CodeBuddy/20260227142050/copper_prediction_v2/models/model_validation.py:385-423 | The USD impact is the larger (less negative) of −0.7·spike and the copper drop. |
| StressTesting.DefaultUsdShock | CodeBuddy/20260227142050/copper_prediction_v2/models/model_validation.py:351-423 | The default scenario gives −5.6%, 0.944·base and the medium tier. |
| StressTesting.SupplyResults | CodeBuddy/20260227142050/copper_prediction_v2/models/model_validation.py:444-477 | There is at most one supply result per requested type, since unknown types are skipped. Each result is the known shock of its type. |
| StressTesting.KnownShock | CodeBuddy/20260227142050/copper_prediction_v2/models/model_validation.py:444-477 | A known supply shock raises the price by \|drop\|·elasticity: the change is \|drop\|·elasticity·100 percent and the shocked price is base·(1 + change/100). |
| StressTesting.SupplyResultsComplete | CodeBuddy/20260227142050/copper_prediction_v2/models/model_validation.py:444-477 | The supply results are exactly the known shocks of the requested known types: each result is the known shock of a requested known type, and every requested known type has its known shock among the results. |
| StressTesting.SupplyShocksRaisePrice | CodeBuddy/20260227142050/copper_prediction_v2/models/model_validation.py:444-477 | Every supply result comes from a requested, known shock type and raises the price. |
| StressTesting.WorstOf | CodeBuddy/20260227142050/copper_prediction_v2/models/model_validation.py:480 | The worst supply scenario is one of the results and has the largest price change. |
| StressTesting.WorstOfIsFirst | CodeBuddy/20260227142050/copper_prediction_v2/models/model_validation.py:480 | Among ties, the worst scenario is the first one with the maximal change, as Python's max returns. |
| StressTesting.SupplyShock | CodeBuddy/20260227142050/copper_prediction_v2/models/model_validation.py:425-486 | The loop collects the known shocks in order. With none, max() raises and the result is None. Otherwise the result holds them all with the first maximal one as worst. |
| StressTesting.DefaultSupplyShocks | CodeBuddy/20260227142050/copper_prediction_v2/models/model_validation.py:444-480 | The default types give +14% and +4.5%, and the earthquake is the worst case. |
| StressTesting.WorstCaseIsWorst | CodeBuddy/20260227142050/copper_prediction_v2/models/model_validation.py:522-529 | The combined worst change is the minimum of the three scenario changes, attained by one of them, and worst price = base·(1 + worst/100). |
| StressTesting.DefaultWorstCase | CodeBuddy/20260227142050/copper_prediction_v2/models/model_validation.py:488-546 | With the defaults the worst case is −21% at 0.79·base. |
| StressTesting.RunAllStressTests | CodeBuddy/20260227142050/copper_prediction_v2/models/model_validation.py:488-546 | Running all scenarios gives the combined stress outcome, or None when the supply test raises. |
| RiskManagement.ConfidenceScore | CodeBuddy/20260227142050/copper_prediction_v2/models/model_validation.py:643-673 | The score is at most 100 and non-negative for non-negative accuracy. On in-range inputs it is the uncapped sum 30·max(0,r2) + 40·acc + 20·max(0,1−nrmse) + 10·max(0,1−std/100000). |
| RiskManagement.PerfectFitScoresFull | CodeBuddy/20260227142050/copper_prediction_v2/models/model_validation.py:643-673 | A perfect fit (r2 1, accuracy 1, no error) scores exactly 100. |
| RiskManagement.ScoreMonotoneInAccuracy | CodeBuddy/20260227142050/copper_prediction_v2/models/model_validation.py:659-661 | Higher directional accuracy never lowers the score. |
| RiskManagement.MaxAbsError | CodeBuddy/20260227142050/copper_prediction_v2/models/model_validation.py:617 | The maximum absolute error bounds every error and is attained by one of them. |
| RiskManagement.CalculateMetrics | CodeBuddy/20260227142050/copper_prediction_v2/models/model_validation.py:554-641 | Metrics exist iff the series are non-empty and of equal length. Directional accuracy is the walk-forward direction hit rate, in [0, 1]. The max error is the largest absolute error and bounds every error. nrmse is rmse/mean and max_error_pct is max_error/mean·100, both 0 for a zero mean. The score is the confidence score of r2, accuracy, nrmse and error std, in [0, 100]. The library statistics are passed through. |
| RiskManagement.VolAdjustment | CodeBuddy/20260227142050/copper_prediction_v2/models/model_validation.py:703 | The volatility adjustment lies in (0, 1]. |
| RiskManagement.PositionSize | CodeBuddy/20260227142050/copper_prediction_v2/models/model_validation.py:682-711 | At a volatility of at most 5% the volatility adjustment is 1, so the position is the account times 2%·score/100, capped at 10%. |
| RiskManagement.PositionBounds | CodeBuddy/20260227142050/copper_prediction_v2/models/model_validation.py:682-711 | The position never exceeds 10% of the account, and is non-negative for a non-negative score. |
| RiskManagement.PositionShrinksWithVolatility | CodeBuddy/20260227142050/copper_prediction_v2/models/model_validation.py:700-711 | Higher positive volatility never enlarges the position. |
| RiskManagement.StopLevels | CodeBuddy/20260227142050/copper_prediction_v2/models/model_validation.py:713-736 | Take-profit is entry·(1+tp) regardless of volatility. Stop is entry·(1−sl) without a positive volatility, entry·(1−sl·100·v) for 0 < v < 2%, and entry·(1−2·sl) once volatility reaches 2%. |
| RiskManagement.StopVolatilityEffect | CodeBuddy/20260227142050/copper_prediction_v2/models/model_validation.py:725-733 | For a positive entry and stop fraction, the volatility-scaled stop lies below the fixed stop (a wider stop) iff the volatility exceeds 0.01, equals it iff the volatility is 0.01, and lies above it iff the volatility is below 0.01. |
| RiskManagement.StopBelowEntry | CodeBuddy/20260227142050/copper_prediction_v2/models/model_validation.py:725-736 | For a positive entry the stop lies between entry·(1−2·sl) and the entry. |
| RiskManagement.CheckRiskLimit | CodeBuddy/20260227142050/copper_prediction_v2/models/model_validation.py:738-773 | A zero entry price raises (None). Otherwise stop-loss iff current <= stop, take-profit iff above stop and current >= entry·(1+tp), hold otherwise. The triggered flags are the two comparisons. The P&L percent is (current − entry)/entry·100, and the drawdown is that P&L when the price is below entry, else 0. |
| RiskManagement.DrawdownIsLossPart | CodeBuddy/20260227142050/copper_prediction_v2/models/model_validation.py:751-764 | The drawdown is the negative part of the P&L percentage, so it is never positive. |
| RiskManagement.DefaultExitsAtFixedLevels | CodeBuddy/20260227142050/copper_prediction_v2/models/model_validation.py:46-56 | With the default config and no volatility: exit at a loss at or below 0.97·entry, take profit at or above 1.05·entry, hold strictly between. |
| RiskManagement.ConfidenceSection | CodeBuddy/20260227142050/copper_prediction_v2/models/model_validation.py:794-807 | Without metrics the confidence section is empty. With metrics it has at least three lines: the r2 value first, then the direction value and, last, the direction verdict: excellent at 0.65 or more, good at 0.55 or more, otherwise poor. |
| RiskManagement.StressSection | CodeBuddy/20260227142050/copper_prediction_v2/models/model_validation.py:809-821 | Without stress results the stress section is empty. |
| RiskManagement.RiskReportLayout | CodeBuddy/20260227142050/copper_prediction_v2/models/model_validation.py:775-832 | The report has the fixed section order: confidence, stress, then advice, with the stop-loss advice line fourth from the end. The stress verdict follows the worst-case tier (extreme, high, or controllable for medium and low). The r2 caution appears iff r2 > 0.6. |
| RiskManagement.RiskReport | CodeBuddy/20260227142050/copper_prediction_v2/models/model_validation.py:775-832 | The report opens with the confidence header and ends with the five advice lines: the header, the stop-loss and take-profit percentages, the position cap and the scale-in advice. |
| ModelValidation.WalkForwardOutcome | CodeBuddy/20260227142050/copper_prediction_v2/models/model_validation.py:65-192 | A completed walk-forward result has equal, non-zero numbers of predictions, actuals and indices. |
| ModelValidation.ModelValidator.constructor | CodeBuddy/20260227142050/copper_prediction_v2/models/model_validation.py:839-845 | Each configuration is the given one or its default. |
| ModelValidation.ModelValidator.Validate | CodeBuddy/20260227142050/copper_prediction_v2/models/model_validation.py:847-907 | The walk-forward result is the run's outcome. The regime analysis is the regime analysis of that result when it completed, and absent otherwise. The confidence metrics are present iff walk-forward produced predictions, and are those of the pooled series. Stress results are present iff there is a non-zero base prediction, and are the stress outcome. The report is built from what is present. The whole call fails (None) only when the stress test raises. |
| ModelValidation.DefaultStressNeverRaises | CodeBuddy/20260227142050/copper_prediction_v2/models/model_validation.py:29-43 | With the default stress configuration the stress tests always produce a result. |
| AlertEngine.NewAlertRule | copper_prediction_v2/alerts/alert_system.py:22-37 | A new rule keeps its fields and symbol (CU by default), is active, never triggered, has a 60-minute cooldown unless one is given, and notifies the console unless channels are given. |
| AlertEngine.ConditionHolds | copper_prediction_v2/alerts/alert_system.py:87-124 | A condition holds only for the four known rule types and their known conditions (crossings for price rules only). An indicator rule needs an indicator value, and a volatility rule holds only for "above" with a known volatility past the threshold. |
| AlertEngine.Fires | copper_prediction_v2/alerts/alert_system.py:68-80 | A firing rule is active, its condition holds, and its cooldown has elapsed since its last trigger. A rule never triggered fires iff it is active and its condition holds. |
| AlertEngine.CrossingConditions | copper_prediction_v2/alerts/alert_system.py:87-100 | cross_up holds iff previous <= threshold < current, and cross_down iff previous >= threshold > current. With a single row neither holds. A cross_up excludes cross_down and implies above. |
| AlertEngine.ChangePctConditions | copper_prediction_v2/alerts/alert_system.py:102-107 | For a change_pct rule, above holds iff the percent change exceeds the threshold and below iff it is under −threshold. Any other condition never holds. |
| AlertEngine.CooldownAfterFiring | copper_prediction_v2/alerts/alert_system.py:69-79 | A rule stamped at t0 cannot fire before t0 + cooldown. From then on it fires iff it is active and its condition holds. |
| AlertEngine.FiredRecords | copper_prediction_v2/alerts/alert_system.py:68-85 | A sweep appends at most one record per rule. |
| AlertEngine.Stamped | copper_prediction_v2/alerts/alert_system.py:68-85 | A sweep never adds or removes rule ids. |
| AlertEngine.StampedEffect | copper_prediction_v2/alerts/alert_system.py:68-85 | After a sweep, a rule that fired carries the check time as its last trigger, and every other rule is unchanged. |
| AlertEngine.StampedKeepsIds | copper_prediction_v2/alerts/alert_system.py:51-54 | The sweep keeps every table entry's id equal to its key. |
| AlertEngine.RecordsComeFromFiringRules | copper_prediction_v2/alerts/alert_system.py:78-85 | Every appended record is stamped with the check time and is the record of a swept rule that fired. |
| AlertEngine.OneRecordPerFiringRule | copper_prediction_v2/alerts/alert_system.py:78-85 | The number of records appended equals the number of rules that fired. |
| AlertEngine.FiringIds | copper_prediction_v2/alerts/alert_system.py:68-81 | The firing ids are exactly the swept ids whose rule is active, outside its cooldown and whose condition holds. |
| AlertEngine.Without | copper_prediction_v2/alerts/alert_system.py:56-60 | Removing an id from the order keeps every other id and no copy of it, and keeps ids distinct. An absent id leaves the order unchanged; in a distinct order the one occurrence is cut out and the ids before and after it keep their order. |
| AlertEngine.After | copper_prediction_v2/alerts/alert_system.py:235-239 | The history query returns exactly the records strictly after the cutoff, and no more records than the history holds. |
| AlertEngine.AfterAppend | copper_prediction_v2/alerts/alert_system.py:235-239 | The query keeps the original order: filtering a concatenation is the concatenation of the filtered parts. |
| AlertEngine.AlertEngine.constructor | copper_prediction_v2/alerts/alert_system.py:43-49 | A new engine has no rules, no history and no cached data. |
| AlertEngine.AlertEngine.AddRule | copper_prediction_v2/alerts/alert_system.py:51-54 | The rule is inserted or replaces the one with the same id. A new id goes to the end of the iteration order. History and cache are unchanged. |
| AlertEngine.AlertEngine.RemoveRule | copper_prediction_v2/alerts/alert_system.py:56-60 | The id is removed if present, and removing an absent id changes nothing. A present id is cut out of the registration order at its position, the others keeping their order. History and cache are unchanged. |
| AlertEngine.AlertEngine.CheckRule | copper_prediction_v2/alerts/alert_system.py:69-85 | One loop step: a firing rule is stamped with the check time and its record appended. A rule that does not fire (inactive, cooling down or condition false) leaves rules and history unchanged. |
| AlertEngine.AlertEngine.CheckAlerts | copper_prediction_v2/alerts/alert_system.py:62-85 | The sweep caches the data, stamps exactly the firing rules and appends their records in rule order. The history is only extended. |
| AlertEngine.PriceBreakout | copper_prediction_v2/alerts/alert_system.py:265-277 | The breakout template has id price_breakout, the given symbol and threshold (70000 by default), a 30-minute cooldown, and the console channel. |
| AlertEngine.PriceSupport | copper_prediction_v2/alerts/alert_system.py:279-291 | The support template has id price_support, the given symbol and threshold (65000 by default), a 30-minute cooldown, and the console channel. |
| AlertEngine.BigMovement | copper_prediction_v2/alerts/alert_system.py:293-305 | The movement template has id big_movement, the given symbol and threshold (3% by default), a 15-minute cooldown, and the console channel. |
| AlertEngine.RsiOverbought | copper_prediction_v2/alerts/alert_system.py:307-319 | The overbought template has id rsi_overbought, the given symbol and threshold (80 by default), a 60-minute cooldown, and the console channel. |
| AlertEngine.RsiOversold | copper_prediction_v2/alerts/alert_system.py:321-333 | The oversold template has id rsi_oversold, the given symbol and threshold (20 by default), a 60-minute cooldown, and the console channel. |
| AlertEngine.HighVolatility | copper_prediction_v2/alerts/alert_system.py:335-347 | The volatility template has id high_volatility, the given symbol and threshold (5% by default), a 120-minute cooldown, and the console channel. |
| AlertEngine.TemplateConditions | copper_prediction_v2/alerts/alert_system.py:87-124 | Breakout holds iff the last close is above the threshold, and support iff it is below. Movement holds iff the day-over-day change exceeds the threshold (for a non-zero previous close). The RSI rules compare the indicator value filed under the rule's name, and the volatility rule compares the volatility. |
| AlertEngine.DefaultRulesShape | copper_prediction_v2/alerts/alert_system.py:261-360 | The default rule set has six rules with distinct ids, all active, never triggered and notifying the console. |
| AlertEngine.CreateDefaultAlertSystem | copper_prediction_v2/alerts/alert_system.py:350-362 | The default engine holds the six default rules in insertion order and has an empty history. |
| Backtest.TrendSignal | copper_prediction_v2/models/copper_model_v2.py:473-479 | 1 iff pred > 0.01, −1 iff pred < −0.01, 0 iff pred lies in [−0.01, 0.01]. |
| Backtest.MeanReversionSignal | copper_prediction_v2/models/copper_model_v2.py:481-488 | The signal is in {−1, 0, 1}. A buy needs a positive prediction and a sell a negative one, and both need a defined mean. |
| Backtest.MeanReversionBands | copper_prediction_v2/models/copper_model_v2.py:481-488 | For a positive mean m: buy iff price < 0.98·m and pred > 0; sell iff price > 1.02·m and pred < 0. |
| Backtest.TargetPositionSignal | copper_prediction_v2/models/copper_model_v2.py:490-494 | The signal is the sign of the prediction when \|pred\| > 0.005, and 0 otherwise. |
| Backtest.SignalsFollowPrediction | copper_prediction_v2/models/copper_model_v2.py:473-494 | A zero prediction gives no signal. Any non-zero signal of the three rules has the prediction's sign. |
| Backtest.TrendImpliesTarget | copper_prediction_v2/models/copper_model_v2.py:473-494 | Whenever the trend rule signals, the target-position rule gives the same signal. |
| Backtest.SignalAt | copper_prediction_v2/models/copper_model_v2.py:429-437 | The signal of a day under any strategy is in {−1, 0, 1}. |
| Backtest.FallbackPredictions | copper_prediction_v2/models/copper_model_v2.py:409-420 | The fallback gives one prediction per price, and 0 for the first 20 days. |
| Backtest.FallbackFollowsMean | copper_prediction_v2/models/copper_model_v2.py:411-419 | From day 20 on, the fallback prediction is positive iff the price is above its 20-day mean, and negative iff below. |
| Backtest.SimulateShape | copper_prediction_v2/models/copper_model_v2.py:400-469 | The portfolio values start at the initial capital with one entry per simulated day after the lookback. Earlier trades are kept as a prefix. |
| Backtest.Step | copper_prediction_v2/models/copper_model_v2.py:439-469 | One trading day appends exactly one portfolio value, the capital plus the position at today's price, and at most one trade. Earlier values and trades are kept. |
| Backtest.Simulate | copper_prediction_v2/models/copper_model_v2.py:400-469 | The simulated portfolio values start with the initial capital. |
| Backtest.TradingDays | copper_prediction_v2/models/copper_model_v2.py:426-469 | The imperative day loop produces the same portfolio values and trades as the simulation over the same days. |
| Backtest.CapitalNeverNegative | copper_prediction_v2/models/copper_model_v2.py:440-457 | With commission + slippage at most 1 and non-negative starting capital, capital never goes negative. |
| Backtest.StepKeepsCapital | copper_prediction_v2/models/copper_model_v2.py:440-465 | One trading day keeps capital non-negative. |
| Backtest.PositionTransitions | copper_prediction_v2/models/copper_model_v2.py:440-465 | An open position is kept, with capital unchanged, under any non-zero signal. It is closed by a zero signal. Being flat with a zero signal changes nothing. |
| Backtest.TradingDay | copper_prediction_v2/models/copper_model_v2.py:439-469 | The imperative day updates capital, position, values and trades exactly as one step of the simulation. |
| Backtest.BacktestEngine.constructor | copper_prediction_v2/models/copper_model_v2.py:385-388 | The engine takes the given config or the default, and starts with no trades. |
| Backtest.BacktestEngine.Run | copper_prediction_v2/models/copper_model_v2.py:390-471 | The run uses the model's predictions or the moving-average fallback, and simulates from the lookback to the last day. The engine's trades are the previous trades plus the new ones, never cleared. The metrics are those of the resulting values. |
| Backtest.Peak | copper_prediction_v2/models/copper_model_v2.py:509 | The running peak is at least every value so far and equals one of them. |
| Backtest.DrawdownBounds | copper_prediction_v2/models/copper_model_v2.py:510 | Each drawdown against the running peak is at most 0, and at least −1 for non-negative values. |
| Backtest.MaxDrawdownBounds | copper_prediction_v2/models/copper_model_v2.py:509-511 | The maximum drawdown is at most 0, and at least −1 when all values are non-negative. |
| Backtest.ReturnCounts | copper_prediction_v2/models/copper_model_v2.py:499-517 | The number of positive returns is at most the number of defined returns, which is fewer than the number of values (at most one per step). A 0→0 step is NaN and dropped, as pandas drops it. |
| Backtest.ReturnsPerStep | copper_prediction_v2/models/copper_model_v2.py:499-517 | When no portfolio value is 0, every step has a defined return, so there is exactly one return per step. |
| Backtest.CalculateMetrics | copper_prediction_v2/models/copper_model_v2.py:496-538 | Metrics are undefined (None) iff there is no price at the lookback index, where the benchmark starts. |
| Backtest.MetricsConsistent | copper_prediction_v2/models/copper_model_v2.py:496-538 | Alpha is total return minus benchmark return. The max drawdown is at most 0. The final capital is the last value. The win rate lies in [0, 100]. |
| Backtest.DefaultRunShape | copper_prediction_v2/models/copper_model_v2.py:400-469 | With the default config and n >= 62 prices: n − 60 portfolio values starting at 1,000,000, non-negative capital, defined metrics and a non-positive drawdown. |
| Ensemble.Predicting | copper_prediction_v2/models/copper_model_v2.py:356-359 | No more members predict than were listed, and each predicting member is a listed member that has predict. |
| Ensemble.PredictingMembers | copper_prediction_v2/models/copper_model_v2.py:356-359 | Every listed member that has predict takes part, and a list without duplicates gives predictors without duplicates. |
| Ensemble.WeightedPrediction | copper_prediction_v2/models/copper_model_v2.py:362-366 | The weighted prediction has one entry per requested row. |
| Ensemble.TotalWeight | copper_prediction_v2/models/copper_model_v2.py:362 | With non-negative weights the total weight is non-negative, and with positive weights on at least one member it is positive. |
| Ensemble.WeightedPredictionReadsNames | copper_prediction_v2/models/copper_model_v2.py:365-366 | The weighted prediction depends only on the outputs of the predicting members. |
| Ensemble.EnsembleOutcome | copper_prediction_v2/models/copper_model_v2.py:352-379 | The outcome is undefined iff some member predicts and the total weight is 0. Otherwise prediction and variance have one entry per row, with zero variance for one predicting member or none. |
| Ensemble.ConfidenceInterval | copper_prediction_v2/models/copper_model_v2.py:375-378 | The interval has one lower and one upper bound per row: the prediction minus and plus 1.96 times that row's standard deviation. |
| Ensemble.IntervalSymmetric | copper_prediction_v2/models/copper_model_v2.py:375-378 | The interval is symmetric about the prediction. It contains the prediction for a non-negative std and collapses to it for a zero std. |
| Ensemble.AgreeingForecasts | copper_prediction_v2/models/copper_model_v2.py:362-366 | When all members predict c at a row, the weighted prediction there is c·(their weight)/total. |
| Ensemble.UnanimousEnsemble | copper_prediction_v2/models/copper_model_v2.py:352-379 | If every member predicts and agrees on c at a row, with a non-zero total weight, the ensemble predicts c there. |
| Ensemble.OutcomeWhenAllPredict | copper_prediction_v2/models/copper_model_v2.py:352-379 | When every member predicts, the ensemble prediction is the weighted average of all of them. |
| Ensemble.VarianceBounds | copper_prediction_v2/models/copper_model_v2.py:369 | The variance of the members' predictions is non-negative, and zero when they all agree. |
| Ensemble.Variance | copper_prediction_v2/models/copper_model_v2.py:369 | The population variance of the members' predictions is never negative. |
| Ensemble.CollectPredictions | copper_prediction_v2/models/copper_model_v2.py:354-359 | The collection loop gathers the members with predict, in order, and maps each to its output. |
| Ensemble.Combine | copper_prediction_v2/models/copper_model_v2.py:362-366 | The accumulation loop yields the weighted prediction. |
| Ensemble.EnsembleModel.constructor | copper_prediction_v2/models/copper_model_v2.py:333-336 | A new ensemble has no members or weights. |
| Ensemble.EnsembleModel.AddModel | copper_prediction_v2/models/copper_model_v2.py:338-341 | The member and its weight are inserted or replaced. A new name goes to the end of the iteration order. |
| Ensemble.EnsembleModel.Predict | copper_prediction_v2/models/copper_model_v2.py:352-379 | Prediction gives the ensemble outcome of the current members, weights and outputs. |
| Indicators.ObvSeries | copper_prediction_v2/features/technical_indicators.py:141-154 | OBV has one value per close. |
| Indicators.ObvSteps | copper_prediction_v2/features/technical_indicators.py:145-152 | OBV starts at 0. Each step adds the volume on a rise, subtracts it on a fall and is 0 otherwise. |
| Indicators.ObvMonotone | copper_prediction_v2/features/technical_indicators.py:145-152 | With non-negative volume, OBV never falls on a day the close does not fall, and stays put on an unchanged close. |
| Indicators.Obv | copper_prediction_v2/models/copper_model_v2.py:187-195 | The accumulation loop yields the OBV series. An empty close series (where the list [0] would not fit the index) gives None. |
| Indicators.TrueRange | copper_prediction_v2/features/technical_indicators.py:129-135 | The true range is at least high − low and both gaps to the previous close, and equals one of them. |
| Indicators.TrueRanges | copper_prediction_v2/features/technical_indicators.py:129-135 | There is one true range per row. |
| Indicators.AtrNonNegative | copper_prediction_v2/features/technical_indicators.py:124-138 | ATR is defined exactly once the window is full, and is non-negative when high >= low. |
| Indicators.Atr | copper_prediction_v2/features/technical_indicators.py:124-138 | The ATR at a row is defined iff the period is positive and the window of that many true ranges is full. |
| Indicators.BollingerBands | copper_prediction_v2/features/technical_indicators.py:79-105 | upper − middle = middle − lower = num_std·std. Bandwidth is undefined iff the middle is 0, and otherwise is (upper − lower)/middle. %B is undefined iff the bands coincide, and otherwise is (close − lower)/(upper − lower). |
| Indicators.BollingerOrdered | copper_prediction_v2/features/technical_indicators.py:91-97 | lower <= middle <= upper for a non-negative width, and %B lies in [0, 1] iff the close lies within the bands. |
| Indicators.Ema | copper_prediction_v2/features/technical_indicators.py:26-29 | The exponential average has one value per input. |
| Indicators.EmaBounds | copper_prediction_v2/features/technical_indicators.py:26-29 | With a smoothing factor in [0, 1], the exponential average stays within any bounds of its input. |
| Indicators.SpanAlphaRange | copper_prediction_v2/features/technical_indicators.py:26-29 | The smoothing factor 2/(span+1) lies in (0, 1], and equals 1 for span 1. |
| Indicators.Macd | copper_prediction_v2/features/technical_indicators.py:17-36 | The MACD, signal and histogram lines each have one value per close. MACD is the fast EMA minus the slow EMA, the signal line is the EMA of MACD, and the histogram is MACD minus the signal line. |
| Indicators.MacdOfFlatClose | copper_prediction_v2/features/technical_indicators.py:26-30 | A constant close gives MACD, signal and histogram identically zero. |
| Indicators.WindowMin | copper_prediction_v2/features/technical_indicators.py:49 | The rolling minimum is at most every value in its window and is one of them. |
| Indicators.WindowMax | copper_prediction_v2/features/technical_indicators.py:50 | The rolling maximum is at least every value in its window and is one of them. |
| Indicators.RsvInRange | copper_prediction_v2/features/technical_indicators.py:49-52 | When each close lies within its day's range, a defined RSV lies in [0, 100]. |
| Indicators.Rsv | copper_prediction_v2/features/technical_indicators.py:49-52 | RSV is undefined iff the window is flat. A close at the lowest low gives 0 and a close at the highest high gives 100. |
| Indicators.Kdj | copper_prediction_v2/features/technical_indicators.py:54-56 | K, D and J have one value per RSV. |
| Indicators.KdjBounds | copper_prediction_v2/features/technical_indicators.py:52-56 | For RSV in [0, 100]: K and D lie in [0, 100], J lies in [−200, 300], and J − K = 2(K − D), i.e. J = 3K − 2D. |
| Indicators.RsiIsGainShare | copper_prediction_v2/features/technical_indicators.py:69-76 | With some movement, RSI = 100·gain/(gain+loss), which lies in [0, 100]. |
| Indicators.Rsi | copper_prediction_v2/features/technical_indicators.py:65-77 | For non-negative averages the RSI is undefined iff there is neither gain nor loss. A gain with no loss gives 100, and a loss with no gain gives 0. |
| Indicators.MaskedMovementExclusive | copper_prediction_v2/features/technical_indicators.py:174-181 | After clipping and masking, +DM and −DM are non-negative and never both positive. +DM > 0 iff up > 0 and up > down; −DM > 0 iff down > 0 and down >= up. |
| Indicators.DirectionalMovement | copper_prediction_v2/features/technical_indicators.py:173-181 | The in-place clip-and-mask sequence leaves, at each index, the masked +DM and −DM of that day's moves. |
| Indicators.ClippedMovement | copper_prediction_v2/features/technical_indicators.py:174-178 | The first differences of the high and of the negated low, one per day after the first, with every negative movement set to 0. |
| Indicators.ClipInPlace | copper_prediction_v2/features/technical_indicators.py:177-178 | Every negative entry is set to 0 and the rest are kept. |
| Indicators.MaskInPlace | copper_prediction_v2/features/technical_indicators.py:180-181 | Every entry not above its counterpart is set to 0 and the rest are kept. |
| Indicators.MacdCross | copper_prediction_v2/features/technical_indicators.py:338-341 | The cross flag is the sign of the MACD-minus-signal spread. |
| Indicators.MacdCrossIsHistogramSign | copper_prediction_v2/features/technical_indicators.py:338-341 | The cross flag at every row is the sign of the MACD histogram. |
| Indicators.MaBullish | copper_prediction_v2/features/technical_indicators.py:348-352 | The bullish-alignment flag is 1 iff ma5 > ma10 > ma20 > ma60, and 0 otherwise. |
| Indicators.DerivedFlagsConsistent | copper_prediction_v2/features/technical_indicators.py:343-352 | A bullish alignment implies ma5 > ma60. KDJ cannot be overbought and oversold at once. |
| TechnicalSignals.Cross | copper_prediction_v2/features/technical_indicators.py:376-382 | A crossing signal is in {−1, 0, 1}. |
| TechnicalSignals.MacdSignal | copper_prediction_v2/features/technical_indicators.py:376-382 | The MACD signal is in {−1, 0, 1}. It is a buy iff MACD has just crossed above the signal line (above today, at or below on the previous row), and a sell iff it has just crossed below. The first row never signals. |
| TechnicalSignals.MaSignal | copper_prediction_v2/features/technical_indicators.py:409-415 | The MA signal is in {−1, 0, 1}. It is a buy iff the close has just crossed above its 20-day average, and a sell iff it has just crossed below. The first row never signals. |
| TechnicalSignals.CrossIsSignChange | copper_prediction_v2/features/technical_indicators.py:376-382 | +1 iff the spread is positive now and was not positive on the previous row. −1 iff it is negative now and was not negative before. The first row has no previous row. |
| TechnicalSignals.KdjSignal | copper_prediction_v2/features/technical_indicators.py:385-391 | The KDJ signal is in {−1, 0, 1}. It is a buy iff K has just crossed above D (K > D today, K <= D on the previous row) with K < 30, and a sell iff K has just crossed below D with K > 70. The first row never signals. |
| TechnicalSignals.RsiSignal | copper_prediction_v2/features/technical_indicators.py:394-400 | The RSI signal is in {−1, 0, 1}. It is a buy iff the RSI is below 30 and the previous row's was at least 30, and a sell iff it is above 70 and the previous row's was at most 70. The first row never signals. |
| TechnicalSignals.BollingerSignal | copper_prediction_v2/features/technical_indicators.py:403-406 | The Bollinger signal is a buy iff the close is below the lower band, a sell iff it is above the upper band (and not below the lower one), and 0 whenever the close lies within the bands. |
| TechnicalSignals.Vote | copper_prediction_v2/features/technical_indicators.py:421-422 | The vote is 1 iff the sum >= 2, −1 iff it is <= −2, and 0 iff it lies strictly between. |
| TechnicalSignals.SignalsAt | copper_prediction_v2/features/technical_indicators.py:369-422 | The composite signal of a row is in {−1, 0, 1}. |
| TechnicalSignals.GenerateSignals | copper_prediction_v2/features/technical_indicators.py:369-424 | The signal table has one entry per row, each being that row's signals. |
| TechnicalSignals.ComponentsInRange | copper_prediction_v2/features/technical_indicators.py:376-415 | Each of the five component signals is in {−1, 0, 1}. |
| TechnicalSignals.SumBoundedByCounts | copper_prediction_v2/features/technical_indicators.py:418-419 | A sum of votes in [−1, 1] is at most the number of +1 votes and at least minus the number of −1 votes. |
| TechnicalSignals.CompositeNeedsTwoVotes | copper_prediction_v2/features/technical_indicators.py:418-422 | A composite buy needs at least two component buys, and a composite sell at least two component sells. |
| TechnicalSignals.FirstRowQuiet | copper_prediction_v2/features/technical_indicators.py:376-422 | On the first row the shifted values are NaN, so only the Bollinger signal can fire and the composite is 0. |
| TechnicalSignals.EdgeTriggered | copper_prediction_v2/features/technical_indicators.py:376-415 | The MACD, KDJ, RSI and MA signals fire on the crossing row only: a non-zero signal is never repeated on the next row. |
| PriceModel.InventoryScoreValue | copper_price_model.py:148-165 | The inventory score with its fixed change rates is −0.64. Each component is at least −1, and at most 0 for a non-negative rate. |
| PriceModel.MaVotes | copper_price_model.py:171-177 | Each moving average votes +1 if the price is above it, else −1. |
| PriceModel.TechnicalScore | copper_price_model.py:167-188 | The technical score lies in [−1, 1]. |
| PriceModel.TechnicalScoreAlignment | copper_price_model.py:167-188 | With ma20 > ma60: a price above every average scores above 0.6, and a price at or below every average and below ma60 scores below −0.6. |
| PriceModel.FundamentalScore | copper_price_model.py:190-226 | The fundamental score lies in [−1, 1]. |
| PriceModel.SentimentScore | copper_price_model.py:228-261 | The sentiment score lies in [−1, 1]. |
| PriceModel.MacroScore | copper_price_model.py:263-302 | The macro score lies in [−1, 1]. |
| PriceModel.ScoresOf | copper_price_model.py:319-323 | All five factor scores lie in [−1, 1]. |
| PriceModel.CombineInUnit | copper_price_model.py:310-338 | With factor scores in [−1, 1], both the short-term and the medium-term weighted combinations lie in [−1, 1]. |
| PriceModel.ShortLadder | copper_price_model.py:705-714 | Short advice: range trading iff \|r\| < 1, buy dips iff r > 1, otherwise wait or reduce (r <= −1 or r = 1 exactly). |
| PriceModel.ShortTermProjection | copper_price_model.py:346-392 | The short-term trend is rising iff the predicted change is positive, and the advice is the short ladder's. |
| PriceModel.ShortTermLevels | copper_price_model.py:352-368 | For a positive price: support2 < support1 < price < resistance1 < resistance2. The predicted price is above the current one iff rising, and below iff the change is negative. |
| PriceModel.PredictShortTerm | copper_price_model.py:304-392 | For a positive price the support and resistance levels bracket the price in order, and the predicted price is above the current one iff the trend is rising. |
| PriceModel.ShortTermThreshold | copper_price_model.py:326-345 | The total score is amplified by 1.3 exactly when LME inventory is below 50000. |
| PriceModel.ShortTermBound | copper_price_model.py:326-349 | When the leading adjustment lies in [−1, 1], the predicted change is at most 0.026·\|days\| in size. |
| PriceModel.RegimeCharacterised | copper_price_model.py:654-668 | For positive ma60 the regime is trend iff price > 1.03·ma60 and price > ma20 > ma60. |
| PriceModel.DetectRegime | copper_price_model.py:654-668 | A trend regime needs the price above ma20 and ma20 above ma60. |
| PriceModel.MediumLadder | copper_price_model.py:705-726 | Medium advice: build longs iff r > 3, light long iff 1 < r <= 3, cautious iff r < −2, range-bound iff −2 <= r <= 1. |
| PriceModel.MediumTermProjection | copper_price_model.py:434-476 | The medium-term trend is rising iff the change is positive, the regime is kept, and the advice is the medium ladder's. |
| PriceModel.MediumSeasonalBoost | copper_price_model.py:416-431 | Horizons of at most 3 months add 0.3 to the score. Longer horizons add nothing. |
| PriceModel.MediumTermRange | copper_price_model.py:438-461 | The target range runs from exactly 0.95 to 1.05 of the predicted price, is 10% of it wide, and contains a positive prediction. Away from the 3- and 6-month corrections, the price is above the current one iff rising. |
| PriceModel.PredictMediumTerm | copper_price_model.py:394-476 | The medium-term forecast reports the detected regime, and its target range runs from exactly 0.95 to 1.05 of the predicted price, a width of 10% of it. |
| PriceModel.LongTermGrowthClosedForm | copper_price_model.py:493-502 | The annual growth rate is 0.072 + 0.018·years. |
| PriceModel.PredictLongTerm | copper_price_model.py:478-563 | The long-term forecast reports that growth rate. |
| PriceModel.LongTermGrowsWithHorizon | copper_price_model.py:493-510 | For a positive price, one more year always gives a higher predicted price, and a higher cost support when the cost is positive. |
| PriceModel.StressEntryOf | copper_price_model.py:751-757 | A stress entry records its impact. |
| PriceModel.StressResultsSpec | copper_price_model.py:736-760 | The results hold exactly the requested known scenarios, each with its entry. Unknown names are skipped. |
| PriceModel.StressTest | copper_price_model.py:728-762 | The result has an entry exactly for each requested (or default) scenario that is known, and that entry is the scenario's stress entry. |
| PriceModel.StressEntryMeaning | copper_price_model.py:751-757 | For a positive price, the stressed price is above it iff the impact is positive, and moves by price·impact/100. The risk is high iff \|impact\| > 10. |
| PriceModel.DefaultStressTest | copper_price_model.py:728-762 | The default run has the three scenarios. Demand drop and dollar crisis are high risk and lower the price, and the supply shock is not high risk and raises it. |
| PriceModel.DefaultModelFacts | copper_price_model.py:16-146 | The built-in inputs avoid every division by zero, with three leading indicators. Their technical score is 1 and their regime is consolidation. |

## Left out

- Printing, console banners, notification channels (console, email, webhook stubs), the
  background monitoring thread, JSON rule import/export, and every message, action list,
  timestamp string and record-id text. These are output formatting or I/O.
- Rolling pandas statistics are inputs throughout. This covers the risk monitor's volatility,
  deviation and gap, the checklist's readings, Bollinger's rolling std, and the alert engine's
  indicator values and volatility. NaN propagation of rolling windows is modelled only where
  it changes a verdict: volatility at exactly 20 rows, the first row of crossing signals, and
  ATR/RSV before the window fills.
- The ADX smoothing (rolling +DI, −DI, DX and ADX) is not modelled; only its +DM/−DM masking
  is. The ichimoku and volume profile indicators, moving_averages and create_all_features'
  joins are not part of this model.
- EMA smoothing uses pandas' adjust=False recursion. KDJ's com = m − 1 is the factor 1/3. RSI is
  modelled from its average gain and loss. A flat window (no gain and no loss) is None, where
  pandas gives NaN.
- Indicators.Obv: the volume series is required to have the close series' length. The source
  indexes volume by position and does not check this.
- sklearn's r2, rmse and mae and numpy's error std are inputs (`FitStatistics`). The walk-forward
  run's own rmse/mae/r2 and the per-regime rmse/mae are not computed: the walk-forward result and
  the regime metrics carry only the predictions, counts and directional accuracies.
- The forecasting model is an oracle per window: values, a single predicted price, a fallback,
  or an exception. Its NaN-dropping before `fit` and the alignment of features with data are
  not modelled.
- WalkForward.Run requires a positive step (or no window at all), since a zero step loops
  forever in the source. It also requires each values-forecast to have test_size entries
  (RowForecasts).
- RiskManagement.ConfidenceScore states the exact sum only for in-range inputs. Outside them
  it states the cap at 100 and non-negativity.
- RiskManagement: positions, stops and reports use `real` and no rounding. The report's
  number formatting is left out; only its line sequence is kept.
- Backtest.BacktestEngine.Run requires positive prices and a positive initial capital. The
  annual return, volatility, Sharpe and Calmar ratios need powers and square roots and are not
  computed. Reported figures are not rounded. Trade dates are row indices.
- Ensemble: the uncertainty is kept as the variance of the members' predictions, since the
  square root is not available over reals here. Its interval is stated over a given std. A
  total weight of 0 (the source divides by it) gives None. Training the members is not
  modelled.
- AlertEngine: the 'indicator' and 'volatility' rule types read values given with the market
  data, instead of computing pandas indicators. A change_pct rule with a previous close of 0
  follows the IEEE result (±inf, or NaN for 0/0).
- PriceModel: the inputs are a record of the constants set at construction. ZeroDivisionError
  cases are excluded by `ScoresDefined`/`MediumDefined` (a zero exchange rate, ma20 − ma60 +
  0.01 = 0, or ma60 = 0). The confidence strings, market assessment and factor analysis are
  fixed texts and are not modelled. Results are not rounded to 2 or 3 decimals. The period
  labels and trend strings are left out, and so is the long-term horizon's fixed advice text.
  PredictLongTerm takes a natural number of years. The stress-test map does not keep the
  dictionary's insertion order.
- StressTesting.UsdShock: follows the code. The impact is the max (the milder) of the dollar
  and copper figures, although the comment beside it calls it the worse case.
- WalkForward: the train slice ends at test_start − 1 (one row before the test window). The
  loop runs while test_start + test_size < N (strict). Both follow the code.
- AlertEngine.AlertEngine.CheckAlerts requires at least one closing price. The source reads the
  last close with `iloc[-1]` and raises IndexError on an empty frame; that error path is not
  modelled.
- AlertEngine.ConditionHolds: indicator values are looked up under the rule's name in the given
  data. The source picks RSI, MACD, K or %B by a substring of the lower-cased name and computes it.
- AlertEngine: rules are values held in the engine's table. A sweep stamps the table's copy of a
  fired rule, so a caller that kept an `AlertRule` value from before does not see its last trigger
  time change. In the source the rule object is shared, so every holder sees the update. That
  aliasing is not modelled.
- AlertEngine.CooldownAfterFiring: a rule may fire again at exactly t0 + cooldown, as the
  code's strict comparison allows.
