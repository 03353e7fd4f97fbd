/** The risk monitor's automatic checklist: eight daily checks and seven
    intraday checks, each classified as passed, warning or failed, and a
    summary with the number passed and the pass rate rounded to one
    decimal. Several checks read fixed placeholder values of the source
    (cross-market ratio 8.1, position concentration 25.0, spread 50.0). */
module RiskChecklist {
  import opened Common
  import opened RiskMonitor

  datatype CheckStatus = Passed | Warning | Failed

  /** A check result: the checklist item and its status (messages and
      timestamps are left out). */
  datatype CheckResult = CheckResult(item: string, status: CheckStatus)

  const InventoryItem: string := "检查三地库存数据更新（LME/COMEX/SHFE）"
  const CftcItem: string := "复核CFTC持仓变化"
  const CalendarItem: string := "确认宏观日历（中国PMI、美联储议息、LME库存报告）"
  const VolatilityItem: string := "检查价格波动率是否突破阈值"
  const TermItem: string := "检查期限结构异动（Cash-3M急变）"
  const SpreadItem: string := "检查跨市场基差异常（沪伦比、内外盘倒挂）"
  const ExposureItem: string := "更新风险敞口估值"
  const NewsItem: string := "扫描新闻舆情，补充定性风险点"
  const VolatilityRealtimeItem: string := "价格波动率突破阈值"
  const TermRealtimeItem: string := "期限结构异动（Cash-3M急变）"
  const SpreadRealtimeItem: string := "跨市场基差异常（沪伦比、内外盘倒挂）"
  const GapItem: string := "跳空缺口检测"
  const DeviationItem: string := "价格偏离均线程度"
  const WarrantItem: string := "LME注销仓单占比变化"
  const ConcentrationItem: string := "持仓集中度变化"

  /** Placeholder readings of the source. */
  const MockShLondonRatio: real := 8.1
  const MockConcentration: real := 25.0
  const DefaultTermSpread: real := 50.0

  // ---------------------------------------------------------------------
  // Classifiers

  /** Passed when the inventory data carries the LME inventory, otherwise a warning. */
  function CheckInventoryUpdate(inventory: map<string, real>): (r: CheckResult)
    ensures r.item == InventoryItem
    ensures r.status == Passed <==> "lme_inventory" in inventory
    ensures r.status != Failed
  {
    if |inventory| > 0 && "lme_inventory" in inventory then CheckResult(InventoryItem, Passed)
    else CheckResult(InventoryItem, Warning)
  }

  /** The CFTC, calendar, exposure and news checks have no data source and always pass. */
  function CheckCftcPosition(): CheckResult { CheckResult(CftcItem, Passed) }
  function CheckMacroCalendar(): CheckResult { CheckResult(CalendarItem, Passed) }
  function CheckRiskExposure(): CheckResult { CheckResult(ExposureItem, Passed) }
  function CheckNewsSentiment(): CheckResult { CheckResult(NewsItem, Passed) }

  /** Warning below 20 rows; failed when the volatility exceeds the level-2
      threshold; with exactly 20 rows the volatility is undefined and the
      check passes. */
  function CheckVolatility(th: Thresholds, price: PriceReadings): (r: CheckResult)
    ensures r.item == VolatilityItem
    ensures r.status == Warning <==> price.rows < 20
    ensures r.status == Failed <==> price.rows > 20 && price.volatility > th.volatilityLevel2
  {
    if price.rows < 20 then CheckResult(VolatilityItem, Warning)
    else if price.rows > 20 && price.volatility > th.volatilityLevel2 then CheckResult(VolatilityItem, Failed)
    else CheckResult(VolatilityItem, Passed)
  }

  /** The spread checked: the term data's `cash_3m_spread` when term data is
      present, else the placeholder 50. */
  function TermSpread(term: map<string, real>): real
  {
    if |term| > 0 then GetOr(term, "cash_3m_spread", DefaultTermSpread) else DefaultTermSpread
  }

  /** Failed when the spread lies outside [contango, backwardation]. */
  function CheckTermStructure(th: Thresholds, term: map<string, real>): (r: CheckResult)
    ensures r.item == TermItem
    ensures r.status != Warning
    ensures r.status == Failed <==>
      TermSpread(term) < th.cashSpreadContango || TermSpread(term) > th.cashSpreadBackwardation
  {
    var spread := TermSpread(term);
    if spread < th.cashSpreadContango then CheckResult(TermItem, Failed)
    else if spread > th.cashSpreadBackwardation then CheckResult(TermItem, Failed)
    else CheckResult(TermItem, Passed)
  }

  /** Failed when the placeholder Shanghai/London ratio leaves its band. */
  function CheckCrossMarket(th: Thresholds): (r: CheckResult)
    ensures r.item == SpreadItem && r.status != Warning
    ensures r.status == Failed <==>
      MockShLondonRatio < th.shLondonRatioLow || MockShLondonRatio > th.shLondonRatioHigh
  {
    if MockShLondonRatio < th.shLondonRatioLow then CheckResult(SpreadItem, Failed)
    else if MockShLondonRatio > th.shLondonRatioHigh then CheckResult(SpreadItem, Failed)
    else CheckResult(SpreadItem, Passed)
  }

  /** Warning below 2 rows; failed when |gap| exceeds the level-2 threshold. */
  function CheckGap(th: Thresholds, price: PriceReadings): (r: CheckResult)
    ensures r.item == GapItem
    ensures r.status == Warning <==> price.rows < 2
    ensures r.status == Failed <==> price.rows >= 2 && Abs(price.gap) > th.gapLevel2
  {
    if price.rows < 2 then CheckResult(GapItem, Warning)
    else if Abs(price.gap) > th.gapLevel2 then CheckResult(GapItem, Failed)
    else CheckResult(GapItem, Passed)
  }

  /** Warning below 20 rows; failed when |deviation| exceeds the level-2 threshold. */
  function CheckDeviation(th: Thresholds, price: PriceReadings): (r: CheckResult)
    ensures r.item == DeviationItem
    ensures r.status == Warning <==> price.rows < 20
    ensures r.status == Failed <==> price.rows >= 20 && Abs(price.deviation) > th.priceDeviationLevel2
  {
    if price.rows < 20 then CheckResult(DeviationItem, Warning)
    else if Abs(price.deviation) > th.priceDeviationLevel2 then CheckResult(DeviationItem, Failed)
    else CheckResult(DeviationItem, Passed)
  }

  /** Warning without the cancelled-warrant ratio; failed above the level-2 threshold. */
  function CheckWarrantCancel(th: Thresholds, inventory: map<string, real>): (r: CheckResult)
    ensures r.item == WarrantItem
    ensures r.status == Warning <==> WarrantCancelKey !in inventory
    ensures r.status == Failed <==>
      WarrantCancelKey in inventory && inventory[WarrantCancelKey] > th.warrantCancelLevel2
  {
    if |inventory| > 0 && WarrantCancelKey in inventory then
      if inventory[WarrantCancelKey] > th.warrantCancelLevel2 then CheckResult(WarrantItem, Failed)
      else CheckResult(WarrantItem, Passed)
    else CheckResult(WarrantItem, Warning)
  }

  /** Failed when the placeholder concentration exceeds the fund-concentration threshold. */
  function CheckConcentration(th: Thresholds): (r: CheckResult)
    ensures r.item == ConcentrationItem && r.status != Warning
    ensures r.status == Failed <==> MockConcentration > th.fundConcentration
  {
    if MockConcentration > th.fundConcentration then CheckResult(ConcentrationItem, Failed)
    else CheckResult(ConcentrationItem, Passed)
  }

  // ---------------------------------------------------------------------
  // Summary

  function CountPassed(results: seq<CheckResult>): nat
  {
    if |results| == 0 then 0
    else (if results[0].status == Passed then 1 else 0) + CountPassed(results[1..])
  }

  lemma {:induction false} CountPassedBound(results: seq<CheckResult>)
    ensures CountPassed(results) <= |results|
    ensures CountPassed(results) == |results| <==> forall i :: 0 <= i < |results| ==> results[i].status == Passed
  {
    if |results| > 0 {
      CountPassedBound(results[1..]);
      if CountPassed(results) == |results| {
        assert forall i :: 1 <= i < |results| ==> results[i] == results[1..][i - 1];
      }
      if forall i :: 0 <= i < |results| ==> results[i].status == Passed {
        assert forall i :: 0 <= i < |results| - 1 ==> results[1..][i] == results[i + 1];
      }
    }
  }

  lemma {:induction false} CountPassedConcat(a: seq<CheckResult>, b: seq<CheckResult>)
    ensures CountPassed(a + b) == CountPassed(a) + CountPassed(b)
  {
    if |a| > 0 {
      assert (a + b)[1..] == a[1..] + b;
      CountPassedConcat(a[1..], b);
    } else {
      assert a + b == b;
    }
  }

  /** `round(passed / 15 * 100, 1)` in tenths of a percent. The exact value
      200·passed/3 tenths is never halfway between two integers, so rounding
      to nearest is the floor of value + 1/2. */
  function PassRateTenths(passed: nat): nat
  {
    (400 * passed + 3) / 6
  }

  /** The rounded rate is within half a tenth of the exact rate, and is 100%
      exactly when all 15 checks pass. */
  lemma PassRateRounding(passed: nat)
    requires passed <= 15
    ensures var exact := (passed as real) * 100.0 / 15.0;
      var rounded := (PassRateTenths(passed) as real) / 10.0;
      rounded - exact <= 0.05 && exact - rounded <= 0.05
    ensures PassRateTenths(passed) <= 1000
    ensures PassRateTenths(passed) == 1000 <==> passed == 15
  {
    var t := PassRateTenths(passed);
    assert 6 * t <= 400 * passed + 3 < 6 * t + 6;
    assert (t as real) * 6.0 <= (passed as real) * 400.0 + 3.0;
    assert (passed as real) * 400.0 + 3.0 < (t as real) * 6.0 + 6.0;
  }

  datatype ChecklistSummary = ChecklistSummary(total: nat, passed: nat, failed: int, passRateTenths: nat)

  datatype ChecklistReport = ChecklistReport(
    daily: seq<CheckResult>, realtime: seq<CheckResult>, summary: ChecklistSummary)

  /** The eight daily checks, in their fixed order. */
  function DailyChecks(th: Thresholds, price: PriceReadings, inventory: map<string, real>,
                       term: map<string, real>): seq<CheckResult>
  {
    [CheckInventoryUpdate(inventory), CheckCftcPosition(), CheckMacroCalendar(),
     CheckVolatility(th, price), CheckTermStructure(th, term), CheckCrossMarket(th),
     CheckRiskExposure(), CheckNewsSentiment()]
  }

  /** The seven intraday checks; the first three reuse the daily volatility,
      term-structure and cross-market results under intraday item names. */
  function RealtimeChecks(th: Thresholds, price: PriceReadings, inventory: map<string, real>,
                          term: map<string, real>): seq<CheckResult>
  {
    [CheckVolatility(th, price).(item := VolatilityRealtimeItem),
     CheckTermStructure(th, term).(item := TermRealtimeItem),
     CheckCrossMarket(th).(item := SpreadRealtimeItem),
     CheckGap(th, price), CheckDeviation(th, price), CheckWarrantCancel(th, inventory),
     CheckConcentration(th)]
  }

  /** Runs the fifteen checks and summarises them. The intraday copies carry
      the daily statuses, while the daily entries keep their own names. */
  method AutoExecuteChecklist(th: Thresholds, price: PriceReadings,
                              inventory: map<string, real>, term: map<string, real>)
    returns (report: ChecklistReport)
    ensures report.daily == DailyChecks(th, price, inventory, term)
    ensures report.realtime == RealtimeChecks(th, price, inventory, term)
    ensures |report.daily| == 8 && |report.realtime| == 7
    ensures report.daily[3].item == VolatilityItem && report.realtime[0].item == VolatilityRealtimeItem
    ensures report.realtime[0].status == report.daily[3].status
    ensures report.realtime[1].status == report.daily[4].status
    ensures report.realtime[2].status == report.daily[5].status
    ensures report.summary.total == 15
    ensures report.summary.passed == CountPassed(report.daily + report.realtime) <= 15
    ensures report.summary.failed == 15 - report.summary.passed
    ensures report.summary.passRateTenths == PassRateTenths(report.summary.passed)
  {
    var daily, volatilityCheck, termCheck, spreadCheck := RunDailyChecks(th, price, inventory, term);
    var realtime := RunRealtimeChecks(th, price, inventory, term, volatilityCheck, termCheck, spreadCheck);
    assert realtime[0].status == volatilityCheck.status == daily[3].status;

    var passed := CountPassed(daily + realtime);
    CountPassedBound(daily + realtime);
    var total := |daily| + |realtime|;
    report := ChecklistReport(daily, realtime,
                              ChecklistSummary(total, passed, total - passed, PassRateTenths(passed)));
  }

  /** The eight daily checks in the order they are appended, with the three
      results the intraday list reuses. */
  method RunDailyChecks(th: Thresholds, price: PriceReadings,
                        inventory: map<string, real>, term: map<string, real>)
    returns (daily: seq<CheckResult>, volatilityCheck: CheckResult, termCheck: CheckResult, spreadCheck: CheckResult)
    ensures daily == DailyChecks(th, price, inventory, term)
    ensures volatilityCheck == CheckVolatility(th, price) && termCheck == CheckTermStructure(th, term)
    ensures spreadCheck == CheckCrossMarket(th)
  {
    daily := [];
    daily := daily + [CheckInventoryUpdate(inventory)];
    daily := daily + [CheckCftcPosition()];
    daily := daily + [CheckMacroCalendar()];
    volatilityCheck := CheckVolatility(th, price);
    daily := daily + [volatilityCheck];
    termCheck := CheckTermStructure(th, term);
    daily := daily + [termCheck];
    spreadCheck := CheckCrossMarket(th);
    daily := daily + [spreadCheck];
    daily := daily + [CheckRiskExposure()];
    daily := daily + [CheckNewsSentiment()];
  }

  /** The seven intraday checks in the order they are appended. */
  method RunRealtimeChecks(th: Thresholds, price: PriceReadings,
                           inventory: map<string, real>, term: map<string, real>,
                           volatilityCheck: CheckResult, termCheck: CheckResult, spreadCheck: CheckResult)
    returns (realtime: seq<CheckResult>)
    requires volatilityCheck == CheckVolatility(th, price) && termCheck == CheckTermStructure(th, term)
    requires spreadCheck == CheckCrossMarket(th)
    ensures realtime == RealtimeChecks(th, price, inventory, term)
  {
    realtime := [];
    realtime := realtime + [volatilityCheck.(item := VolatilityRealtimeItem)];
    realtime := realtime + [termCheck.(item := TermRealtimeItem)];
    realtime := realtime + [spreadCheck.(item := SpreadRealtimeItem)];
    realtime := realtime + [CheckGap(th, price)];
    realtime := realtime + [CheckDeviation(th, price)];
    realtime := realtime + [CheckWarrantCancel(th, inventory)];
    realtime := realtime + [CheckConcentration(th)];
  }

  /** With the default thresholds and no data at all, 9 of the 15 checks
      pass: the inventory, volatility, gap, deviation and warrant checks warn
      for lack of data (volatility twice). */
  lemma EmptyDataChecklist()
    ensures var price := PriceReadings(0, 0.0, 0.0, 0.0);
      CountPassed(DailyChecks(DefaultThresholds(), price, map[], map[])
                  + RealtimeChecks(DefaultThresholds(), price, map[], map[])) == 9
  {
    var price := PriceReadings(0, 0.0, 0.0, 0.0);
    var d := DailyChecks(DefaultThresholds(), price, map[], map[]);
    var r := RealtimeChecks(DefaultThresholds(), price, map[], map[]);
    CountPassedConcat(d, r);
    assert CountPassed(d[7..]) == 1;
    assert CountPassed(d[4..]) == 4;
    assert CountPassed(d) == 6;
    assert CountPassed(r[6..]) == 1;
    assert CountPassed(r[5..]) == 1;
    assert CountPassed(r[4..]) == 1;
    assert CountPassed(r[3..]) == 1;
    assert CountPassed(r[2..]) == 2;
    assert CountPassed(r[1..]) == 3;
    assert CountPassed(r) == 3;
  }
}
