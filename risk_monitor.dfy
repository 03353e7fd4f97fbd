/** The three-tier copper risk monitor: per-indicator threshold checks that
    emit level-2 or level-3 signals, the four-condition squeeze scenario, the
    aggregation ladder that turns a list of signals into one alert level, and
    the monitor object that keeps the latest signals and level.

    Market readings that the source derives with pandas rolling windows (the
    annualised 20-day volatility, the deviation from the 20-day mean, the
    opening gap) are given as inputs; the clock is the `now` parameter. */
module RiskMonitor {
  import opened Common

  datatype AlertLevel = Normal | Level1 | Level2 | Level3
  {
    /** Severity order of the levels. */
    function Rank(): nat
    {
      match this
      case Normal => 0
      case Level1 => 1
      case Level2 => 2
      case Level3 => 3
    }

    function Color(): string
    {
      match this
      case Normal => "#22c55e"
      case Level1 => "#f59e0b"
      case Level2 => "#f97316"
      case Level3 => "#dc2626"
    }

    function Emoji(): string
    {
      match this
      case Normal => "🟢"
      case Level1 => "🟡"
      case Level2 => "🟠"
      case Level3 => "🔴"
    }

    function Label(): string
    {
      match this
      case Normal => "正常"
      case Level1 => "一级预警（关注级）"
      case Level2 => "二级预警（警戒级）"
      case Level3 => "三级预警（紧急级）"
    }
  }

  /** Each level has its own rank, colour, emoji and label. */
  lemma LevelPresentationDistinct(a: AlertLevel, b: AlertLevel)
    requires a != b
    ensures a.Rank() != b.Rank()
    ensures a.Color() != b.Color() && a.Emoji() != b.Emoji() && a.Label() != b.Label()
  {
  }

  /** The thresholds the monitor reads (the configuration record also lists
      thresholds that no check consults; they are not part of this model). */
  datatype Thresholds = Thresholds(
    volatilityLevel2: real, volatilityLevel3: real,
    priceDeviationLevel2: real, priceDeviationLevel3: real,
    gapLevel2: real, gapLevel3: real,
    cashSpreadContango: real, cashSpreadBackwardation: real,
    shLondonRatioLow: real, shLondonRatioHigh: real,
    warrantCancelLevel2: real, warrantCancelLevel3: real,
    fundConcentration: real,
    backwardationSqueeze: real, inventorySqueeze: real,
    warrantCancelSqueeze: real, positionConcentrationSqueeze: real)

  function DefaultThresholds(): Thresholds
  {
    Thresholds(35.0, 50.0, 8.0, 15.0, 2.0, 4.0, -100.0, 150.0, 7.5, 8.5,
               50.0, 70.0, 40.0, 200.0, 3.0, 60.0, 40.0)
  }

  datatype Category = PriceBehavior | TermStructure | Inventory | Scenario

  datatype Indicator =
    IntradayVolatility | PriceDeviation | OpeningGap | CashSpread | WarrantCancelRatio | SqueezeRisk

  /** A signal: its level, category, indicator, observed value, the threshold
      it crossed and when it was raised (message and action texts are left out). */
  datatype AlertSignal = AlertSignal(
    level: AlertLevel, category: Category, indicator: Indicator,
    currentValue: real, threshold: real, timestamp: int)

  /** Readings taken from the latest rows of the price table: the number of
      rows, the annualised volatility of the last 20 returns, the percentage
      deviation of the close from its 20-day mean and the percentage gap
      between today's open and yesterday's close. */
  datatype PriceReadings = PriceReadings(rows: nat, volatility: real, deviation: real, gap: real)

  /** The LME cash-3M spread is a fixed placeholder value in the monitor. */
  const MockCashSpread: real := 50.0

  // ---------------------------------------------------------------------
  // Tiered signals

  /** `signals` reports `indicator` exactly when `magnitude` passes a tier
      (and the check is enabled); the report carries the reading and the
      highest tier passed, level 3 taking precedence over level 2. */
  ghost predicate TieredReport(signals: seq<AlertSignal>, indicator: Indicator, enabled: bool,
                               magnitude: real, current: real, level2: real, level3: real)
  {
    ((exists i :: 0 <= i < |signals| && signals[i].indicator == indicator) <==>
       enabled && (magnitude > level3 || magnitude > level2))
    && forall i :: 0 <= i < |signals| && signals[i].indicator == indicator ==>
         signals[i].currentValue == current &&
         if magnitude > level3 then signals[i].level == Level3 && signals[i].threshold == level3
         else signals[i].level == Level2 && signals[i].threshold == level2
  }

  /** At most one signal per indicator. */
  ghost predicate OnePerIndicator(signals: seq<AlertSignal>)
  {
    forall i, j :: 0 <= i < j < |signals| ==> signals[i].indicator != signals[j].indicator
  }

  /** Every signal is of the given category, raised at `now`, at level 2 or 3. */
  ghost predicate RaisedAt(signals: seq<AlertSignal>, category: Category, now: int)
  {
    forall i :: 0 <= i < |signals| ==>
      signals[i].category == category && signals[i].timestamp == now &&
      (signals[i].level == Level2 || signals[i].level == Level3)
  }

  /** No signal of `signals` is about `indicator`. */
  ghost predicate Silent(signals: seq<AlertSignal>, indicator: Indicator)
  {
    forall i :: 0 <= i < |signals| ==> signals[i].indicator != indicator
  }

  /** One indicator's two-tier check, level 3 first. */
  function Escalate(category: Category, indicator: Indicator, magnitude: real, current: real,
                    level2: real, level3: real, now: int): (r: seq<AlertSignal>)
    ensures |r| <= 1 && RaisedAt(r, category, now)
    ensures TieredReport(r, indicator, true, magnitude, current, level2, level3)
    ensures forall i :: 0 <= i < |r| ==> r[i].indicator == indicator
  {
    var r := if magnitude > level3 then [AlertSignal(Level3, category, indicator, current, level3, now)]
      else if magnitude > level2 then [AlertSignal(Level2, category, indicator, current, level2, now)]
      else [];
    assert r != [] ==> r[0].indicator == indicator;
    r
  }

  /** A report about one indicator survives concatenation with signals
      about other indicators, on either side. */
  lemma TieredFrame(x: seq<AlertSignal>, y: seq<AlertSignal>, indicator: Indicator, enabled: bool,
                    magnitude: real, current: real, level2: real, level3: real)
    requires TieredReport(x, indicator, enabled, magnitude, current, level2, level3)
    requires Silent(y, indicator)
    ensures TieredReport(x + y, indicator, enabled, magnitude, current, level2, level3)
    ensures TieredReport(y + x, indicator, enabled, magnitude, current, level2, level3)
  {
    assert forall i :: 0 <= i < |x| ==> (x + y)[i] == x[i] && (y + x)[|y| + i] == x[i];
    assert forall i :: |x| <= i < |x| + |y| ==> (x + y)[i] == y[i - |x|];
    assert forall i :: 0 <= i < |y| ==> (y + x)[i] == y[i];
  }

  lemma OnePerIndicatorConcat(x: seq<AlertSignal>, y: seq<AlertSignal>)
    requires OnePerIndicator(x) && OnePerIndicator(y)
    requires forall i :: 0 <= i < |x| ==> Silent(y, x[i].indicator)
    ensures OnePerIndicator(x + y)
  {
    var r := x + y;
    forall i, j | 0 <= i < j < |r| ensures r[i].indicator != r[j].indicator {
      if j < |x| {
        assert r[i] == x[i] && r[j] == x[j];
      } else if i < |x| {
        assert r[i] == x[i] && r[j] == y[j - |x|];
      } else {
        assert r[i] == y[i - |x|] && r[j] == y[j - |x|];
      }
    }
  }

  lemma RaisedAtConcat(x: seq<AlertSignal>, y: seq<AlertSignal>, category: Category, now: int)
    requires RaisedAt(x, category, now) && RaisedAt(y, category, now)
    ensures RaisedAt(x + y, category, now)
  {
    assert forall i :: |x| <= i < |x| + |y| ==> (x + y)[i] == y[i - |x|];
  }

  /** The volatility check; with exactly 20 rows the rolling volatility
      window still contains the undefined first return, so its comparisons
      are false. */
  function VolatilitySignals(th: Thresholds, p: PriceReadings, now: int): seq<AlertSignal>
  {
    if p.rows > 20
    then Escalate(PriceBehavior, IntradayVolatility, p.volatility, p.volatility,
                  th.volatilityLevel2, th.volatilityLevel3, now)
    else []
  }

  function DeviationSignals(th: Thresholds, p: PriceReadings, now: int): seq<AlertSignal>
  {
    Escalate(PriceBehavior, PriceDeviation, Abs(p.deviation), p.deviation,
             th.priceDeviationLevel2, th.priceDeviationLevel3, now)
  }

  function GapSignals(th: Thresholds, p: PriceReadings, now: int): seq<AlertSignal>
  {
    if p.rows >= 2
    then Escalate(PriceBehavior, OpeningGap, Abs(p.gap), p.gap, th.gapLevel2, th.gapLevel3, now)
    else []
  }

  /** Signals of the price-behaviour checks, in the order volatility,
      deviation, gap; nothing below 20 rows. */
  function PriceBehaviorSignals(th: Thresholds, p: PriceReadings, now: int): seq<AlertSignal>
  {
    if p.rows < 20 then []
    else VolatilitySignals(th, p, now) + DeviationSignals(th, p, now) + GapSignals(th, p, now)
  }

  /** The price-behaviour checks raise nothing below 20 rows; otherwise at
      most one signal for each of volatility, |deviation| and |gap|, each at
      the highest tier its reading passes. */
  lemma PriceBehaviorChecks(th: Thresholds, p: PriceReadings, now: int)
    ensures var r := PriceBehaviorSignals(th, p, now);
      && (p.rows < 20 ==> r == [])
      && |r| <= 3 && OnePerIndicator(r) && RaisedAt(r, PriceBehavior, now)
      && TieredReport(r, IntradayVolatility, p.rows > 20, p.volatility, p.volatility,
                      th.volatilityLevel2, th.volatilityLevel3)
      && TieredReport(r, PriceDeviation, p.rows >= 20, Abs(p.deviation), p.deviation,
                      th.priceDeviationLevel2, th.priceDeviationLevel3)
      && TieredReport(r, OpeningGap, p.rows >= 20, Abs(p.gap), p.gap, th.gapLevel2, th.gapLevel3)
  {
    if p.rows >= 20 {
      PriceVolatilityReport(th, p, now);
      PriceDeviationReport(th, p, now);
      PriceGapReport(th, p, now);
      PriceShape(th, p, now);
    }
  }

  lemma PriceVolatilityReport(th: Thresholds, p: PriceReadings, now: int)
    requires p.rows >= 20
    ensures TieredReport(PriceBehaviorSignals(th, p, now), IntradayVolatility, p.rows > 20,
                         p.volatility, p.volatility, th.volatilityLevel2, th.volatilityLevel3)
  {
    var vol, dev, gap := VolatilitySignals(th, p, now), DeviationSignals(th, p, now), GapSignals(th, p, now);
    SilentConcat(dev, gap, IntradayVolatility);
    TieredFrame(vol, dev + gap, IntradayVolatility, p.rows > 20, p.volatility, p.volatility,
                th.volatilityLevel2, th.volatilityLevel3);
    assert vol + dev + gap == vol + (dev + gap);
  }

  lemma PriceDeviationReport(th: Thresholds, p: PriceReadings, now: int)
    requires p.rows >= 20
    ensures TieredReport(PriceBehaviorSignals(th, p, now), PriceDeviation, true,
                         Abs(p.deviation), p.deviation, th.priceDeviationLevel2, th.priceDeviationLevel3)
  {
    var vol, dev, gap := VolatilitySignals(th, p, now), DeviationSignals(th, p, now), GapSignals(th, p, now);
    TieredFrame(dev, vol, PriceDeviation, true, Abs(p.deviation), p.deviation,
                th.priceDeviationLevel2, th.priceDeviationLevel3);
    TieredFrame(vol + dev, gap, PriceDeviation, true, Abs(p.deviation), p.deviation,
                th.priceDeviationLevel2, th.priceDeviationLevel3);
  }

  lemma PriceGapReport(th: Thresholds, p: PriceReadings, now: int)
    requires p.rows >= 20
    ensures TieredReport(PriceBehaviorSignals(th, p, now), OpeningGap, true,
                         Abs(p.gap), p.gap, th.gapLevel2, th.gapLevel3)
  {
    var vol, dev, gap := VolatilitySignals(th, p, now), DeviationSignals(th, p, now), GapSignals(th, p, now);
    SilentConcat(vol, dev, OpeningGap);
    TieredFrame(gap, vol + dev, OpeningGap, true, Abs(p.gap), p.gap, th.gapLevel2, th.gapLevel3);
  }

  lemma PriceShape(th: Thresholds, p: PriceReadings, now: int)
    requires p.rows >= 20
    ensures var r := PriceBehaviorSignals(th, p, now);
      |r| <= 3 && OnePerIndicator(r) && RaisedAt(r, PriceBehavior, now)
  {
    var vol, dev, gap := VolatilitySignals(th, p, now), DeviationSignals(th, p, now), GapSignals(th, p, now);
    RaisedAtConcat(vol, dev, PriceBehavior, now);
    RaisedAtConcat(vol + dev, gap, PriceBehavior, now);
    OnePerIndicatorConcat(vol, dev);
    assert forall i :: 0 <= i < |vol + dev| ==>
      (vol + dev)[i].indicator == IntradayVolatility || (vol + dev)[i].indicator == PriceDeviation;
    OnePerIndicatorConcat(vol + dev, gap);
  }

  lemma SilentConcat(x: seq<AlertSignal>, y: seq<AlertSignal>, indicator: Indicator)
    requires Silent(x, indicator) && Silent(y, indicator)
    ensures Silent(x + y, indicator)
  {
    assert forall i :: |x| <= i < |x| + |y| ==> (x + y)[i] == y[i - |x|];
  }

  /** Signal of the term-structure check, on the placeholder spread. */
  function TermStructureSignals(th: Thresholds, now: int): (r: seq<AlertSignal>)
    ensures |r| <= 1 && RaisedAt(r, TermStructure, now)
    ensures r != [] <==> MockCashSpread < th.cashSpreadContango || MockCashSpread > th.cashSpreadBackwardation
    ensures forall i :: 0 <= i < |r| ==>
      r[i].level == Level2 && r[i].indicator == CashSpread && r[i].currentValue == MockCashSpread &&
      r[i].threshold == if MockCashSpread < th.cashSpreadContango then th.cashSpreadContango
                        else th.cashSpreadBackwardation
  {
    if MockCashSpread < th.cashSpreadContango then
      [AlertSignal(Level2, TermStructure, CashSpread, MockCashSpread, th.cashSpreadContango, now)]
    else if MockCashSpread > th.cashSpreadBackwardation then
      [AlertSignal(Level2, TermStructure, CashSpread, MockCashSpread, th.cashSpreadBackwardation, now)]
    else []
  }

  /** With the default thresholds the placeholder spread raises nothing. */
  lemma TermStructureQuietByDefault(now: int)
    ensures TermStructureSignals(DefaultThresholds(), now) == []
  {
  }

  const WarrantCancelKey: string := "lme_warrant_cancel_ratio"

  /** Signal of the inventory check on the cancelled-warrant ratio. */
  function InventorySignals(th: Thresholds, inventory: map<string, real>, now: int): (r: seq<AlertSignal>)
    ensures |r| <= 1 && RaisedAt(r, Inventory, now)
    ensures WarrantCancelKey !in inventory ==> r == []
    ensures WarrantCancelKey in inventory && inventory[WarrantCancelKey] > th.warrantCancelLevel3 ==>
      r == [AlertSignal(Level3, Inventory, WarrantCancelRatio, inventory[WarrantCancelKey],
                        th.warrantCancelLevel3, now)]
    ensures (WarrantCancelKey in inventory && !(inventory[WarrantCancelKey] > th.warrantCancelLevel3)
             && inventory[WarrantCancelKey] > th.warrantCancelLevel2) ==>
      r == [AlertSignal(Level2, Inventory, WarrantCancelRatio, inventory[WarrantCancelKey],
                        th.warrantCancelLevel2, now)]
    ensures (WarrantCancelKey in inventory && inventory[WarrantCancelKey] <= th.warrantCancelLevel3
             && inventory[WarrantCancelKey] <= th.warrantCancelLevel2) ==> r == []
  {
    if WarrantCancelKey in inventory then
      Escalate(Inventory, WarrantCancelRatio, inventory[WarrantCancelKey], inventory[WarrantCancelKey],
               th.warrantCancelLevel2, th.warrantCancelLevel3, now)
    else []
  }

  // ---------------------------------------------------------------------
  // Squeeze scenario

  /** The four squeeze conditions. A missing key takes the source's default:
      spread, ratios and concentration 0, registered inventory (and its
      previous value) +infinity, written here as None. The inventory
      condition compares with the literal 5.0, not with `inventorySqueeze`. */
  function SqueezeConditions(th: Thresholds, term: map<string, real>, inventory: map<string, real>): (c: seq<bool>)
    ensures |c| == 4
    ensures c[0] <==> if "cash_3m_spread" in term then term["cash_3m_spread"] > th.backwardationSqueeze
                      else th.backwardationSqueeze < 0.0
    ensures c[1] <==> "registered_inventory" in inventory && inventory["registered_inventory"] < 5.0 &&
                      ("registered_inventory_prev" in inventory ==>
                         inventory["registered_inventory"] < inventory["registered_inventory_prev"])
    ensures c[2] <==> if "warrant_cancel_ratio" in inventory then inventory["warrant_cancel_ratio"] > th.warrantCancelSqueeze
                      else th.warrantCancelSqueeze < 0.0
    ensures c[3] <==> if "position_concentration" in inventory
                      then inventory["position_concentration"] > th.positionConcentrationSqueeze
                      else th.positionConcentrationSqueeze < 0.0
  {
    var registered: Option<real> :=
      if "registered_inventory" in inventory then Some(inventory["registered_inventory"]) else None;
    var previous: Option<real> :=
      if "registered_inventory_prev" in inventory then Some(inventory["registered_inventory_prev"]) else None;
    [ GetOr(term, "cash_3m_spread", 0.0) > th.backwardationSqueeze,
      registered.Some? && registered.value < 5.0 && (previous.None? || registered.value < previous.value),
      GetOr(inventory, "warrant_cancel_ratio", 0.0) > th.warrantCancelSqueeze,
      GetOr(inventory, "position_concentration", 0.0) > th.positionConcentrationSqueeze ]
  }

  /** The squeeze scenario: a level-3 signal exactly when at least three of
      the four conditions hold, carrying the number that hold. */
  function CheckSqueeze(th: Thresholds, term: map<string, real>, inventory: map<string, real>, now: int)
    : (r: Option<AlertSignal>)
    ensures r.Some? <==> CountTrue(SqueezeConditions(th, term, inventory)) >= 3
    ensures r.Some? ==>
      r.value.level == Level3 && r.value.category == Scenario && r.value.indicator == SqueezeRisk &&
      r.value.currentValue == CountTrue(SqueezeConditions(th, term, inventory)) as real &&
      r.value.threshold == 3.0 && r.value.timestamp == now
  {
    var met := CountTrue(SqueezeConditions(th, term, inventory));
    if met >= 3 then Some(AlertSignal(Level3, Scenario, SqueezeRisk, met as real, 3.0, now)) else None
  }

  /** With every key missing no condition holds (for non-negative thresholds),
      so the scenario stays silent. */
  lemma SqueezeSilentOnMissingData(th: Thresholds, now: int)
    requires th.backwardationSqueeze >= 0.0 && th.warrantCancelSqueeze >= 0.0
    requires th.positionConcentrationSqueeze >= 0.0
    ensures CountTrue(SqueezeConditions(th, map[], map[])) == 0
    ensures CheckSqueeze(th, map[], map[], now) == None
  {
    var c := SqueezeConditions(th, map[], map[]);
    assert !c[0] && !c[1] && !c[2] && !c[3];
    assert CountTrue(c) == CountTrue(c[1..]) == CountTrue(c[2..]) == CountTrue(c[3..]);
  }

  /** The configured inventory threshold plays no part in the scenario. */
  lemma SqueezeIgnoresInventoryThreshold(th: Thresholds, term: map<string, real>,
                                         inventory: map<string, real>, x: real, now: int)
    ensures CheckSqueeze(th.(inventorySqueeze := x), term, inventory, now) == CheckSqueeze(th, term, inventory, now)
  {
  }

  // ---------------------------------------------------------------------
  // Aggregation ladder

  function CountLevel(signals: seq<AlertSignal>, level: AlertLevel): nat
  {
    if |signals| == 0 then 0
    else (if signals[0].level == level then 1 else 0) + CountLevel(signals[1..], level)
  }

  /** The ladder on the three counts. */
  function Ladder(n3: nat, n2: nat, n1: nat): AlertLevel
  {
    if n3 > 0 then Level3
    else if n2 >= 2 then Level3
    else if n2 >= 1 then Level2
    else if n1 >= 3 then Level2
    else if n1 >= 1 then Level1
    else Normal
  }

  /** The overall level of a list of signals. */
  function Aggregate(signals: seq<AlertSignal>): (level: AlertLevel)
    ensures signals == [] ==> level == Normal
  {
    if |signals| == 0 then Normal
    else Ladder(CountLevel(signals, Level3), CountLevel(signals, Level2), CountLevel(signals, Level1))
  }

  /** The ladder, stated level by level on the counts of each level. */
  lemma AggregateLadder(signals: seq<AlertSignal>)
    ensures var n3, n2, n1 := CountLevel(signals, Level3), CountLevel(signals, Level2), CountLevel(signals, Level1);
      && (Aggregate(signals) == Level3 <==> n3 > 0 || n2 >= 2)
      && (Aggregate(signals) == Level2 <==> n3 == 0 && (n2 == 1 || (n2 == 0 && n1 >= 3)))
      && (Aggregate(signals) == Level1 <==> n3 == 0 && n2 == 0 && 1 <= n1 <= 2)
      && (Aggregate(signals) == Normal <==> n3 == 0 && n2 == 0 && n1 == 0)
  {
  }

  lemma {:induction false} CountLevelConcat(a: seq<AlertSignal>, b: seq<AlertSignal>, level: AlertLevel)
    ensures CountLevel(a + b, level) == CountLevel(a, level) + CountLevel(b, level)
  {
    if |a| > 0 {
      assert (a + b)[1..] == a[1..] + b;
      CountLevelConcat(a[1..], b, level);
    } else {
      assert a + b == b;
    }
  }

  lemma {:induction false} CountLevelPositive(signals: seq<AlertSignal>, i: nat)
    requires i < |signals|
    ensures CountLevel(signals, signals[i].level) >= 1
  {
    if i > 0 {
      CountLevelPositive(signals[1..], i - 1);
    }
  }

  lemma LadderMonotone(n3: nat, n2: nat, n1: nat, m3: nat, m2: nat, m1: nat)
    requires n3 <= m3 && n2 <= m2 && n1 <= m1
    ensures Ladder(n3, n2, n1).Rank() <= Ladder(m3, m2, m1).Rank()
  {
  }

  /** Adding signals never lowers the overall level: the level of a
      concatenation is at least the level of each part. */
  lemma {:induction false} AggregateMonotone(a: seq<AlertSignal>, b: seq<AlertSignal>)
    ensures Aggregate(a + b).Rank() >= Aggregate(a).Rank()
    ensures Aggregate(a + b).Rank() >= Aggregate(b).Rank()
  {
    CountLevelConcat(a, b, Level3);
    CountLevelConcat(a, b, Level2);
    CountLevelConcat(a, b, Level1);
    if |a| > 0 {
      LadderMonotone(CountLevel(a, Level3), CountLevel(a, Level2), CountLevel(a, Level1),
                     CountLevel(a + b, Level3), CountLevel(a + b, Level2), CountLevel(a + b, Level1));
    }
    if |b| > 0 {
      LadderMonotone(CountLevel(b, Level3), CountLevel(b, Level2), CountLevel(b, Level1),
                     CountLevel(a + b, Level3), CountLevel(a + b, Level2), CountLevel(a + b, Level1));
    }
  }

  /** The overall level is at least the level of every signal in the list. */
  lemma {:induction false} AggregateDominates(signals: seq<AlertSignal>, i: nat)
    requires i < |signals|
    ensures Aggregate(signals).Rank() >= signals[i].level.Rank()
  {
    CountLevelPositive(signals, i);
  }

  function LevelsOf(signals: seq<AlertSignal>): seq<AlertLevel>
  {
    if |signals| == 0 then [] else [signals[0].level] + LevelsOf(signals[1..])
  }

  lemma {:induction false} CountIsMultiplicity(signals: seq<AlertSignal>, level: AlertLevel)
    ensures CountLevel(signals, level) == multiset(LevelsOf(signals))[level]
  {
    if |signals| > 0 {
      CountIsMultiplicity(signals[1..], level);
    }
  }

  /** The overall level depends only on how many signals there are of each
      level, not on their order or on anything else they carry. */
  lemma AggregateOrderIndependent(a: seq<AlertSignal>, b: seq<AlertSignal>)
    requires multiset(LevelsOf(a)) == multiset(LevelsOf(b))
    ensures Aggregate(a) == Aggregate(b)
  {
    CountIsMultiplicity(a, Level3); CountIsMultiplicity(b, Level3);
    CountIsMultiplicity(a, Level2); CountIsMultiplicity(b, Level2);
    CountIsMultiplicity(a, Level1); CountIsMultiplicity(b, Level1);
    if |a| == 0 || |b| == 0 {
      assert |LevelsOf(a)| == |multiset(LevelsOf(a))| == |multiset(LevelsOf(b))| == |LevelsOf(b)|;
      LevelsOfLength(a);
      LevelsOfLength(b);
    }
  }

  lemma {:induction false} LevelsOfLength(signals: seq<AlertSignal>)
    ensures |LevelsOf(signals)| == |signals|
  {
    if |signals| > 0 {
      LevelsOfLength(signals[1..]);
    }
  }

  // ---------------------------------------------------------------------
  // Full monitoring run

  /** The signals of one monitoring run, in the order price behaviour, term
      structure, inventory (only with inventory data), squeeze scenario
      (only with both term and inventory data). An empty dictionary counts
      as absent data. */
  function MonitoringSignals(th: Thresholds, price: PriceReadings, inventory: map<string, real>,
                             term: map<string, real>, now: int): seq<AlertSignal>
  {
    PriceBehaviorSignals(th, price, now) + TermStructureSignals(th, now)
    + (if |inventory| > 0 then InventorySignals(th, inventory, now) else [])
    + (if |term| > 0 && |inventory| > 0 then
         match CheckSqueeze(th, term, inventory, now)
         case Some(s) => [s]
         case None => []
       else [])
  }

  /** Every signal a run produces is at level 2 or 3. */
  lemma MonitoringSignalsSevere(th: Thresholds, price: PriceReadings, inventory: map<string, real>,
                                term: map<string, real>, now: int, i: nat)
    requires i < |MonitoringSignals(th, price, inventory, term, now)|
    ensures MonitoringSignals(th, price, inventory, term, now)[i].level.Rank() >= 2
  {
    var p := PriceBehaviorSignals(th, price, now);
    var t := TermStructureSignals(th, now);
    var v := if |inventory| > 0 then InventorySignals(th, inventory, now) else [];
    var s := MonitoringSignals(th, price, inventory, term, now);
    var rest := s[|p| + |t| + |v|..];
    assert s == p + t + v + rest;
    if i < |p| {
      assert s[i] == p[i];
    } else if i < |p| + |t| {
      assert s[i] == t[i - |p|];
    } else if i < |p| + |t| + |v| {
      assert s[i] == v[i - |p| - |t|];
    } else {
      assert s[i] == rest[i - |p| - |t| - |v|];
    }
  }

  /** A run is at the normal level exactly when it raised no signal. */
  lemma NormalIffNoSignals(th: Thresholds, price: PriceReadings, inventory: map<string, real>,
                           term: map<string, real>, now: int)
    ensures Aggregate(MonitoringSignals(th, price, inventory, term, now)) == Normal
            <==> MonitoringSignals(th, price, inventory, term, now) == []
  {
    var s := MonitoringSignals(th, price, inventory, term, now);
    if s != [] {
      MonitoringSignalsSevere(th, price, inventory, term, now, 0);
      AggregateDominates(s, 0);
    }
  }

  /** When both dictionaries are present and the squeeze scenario fires, the
      run is at level 3 whatever else was raised. */
  lemma SqueezeForcesLevel3(th: Thresholds, price: PriceReadings, inventory: map<string, real>,
                            term: map<string, real>, now: int)
    requires |term| > 0 && |inventory| > 0
    requires CheckSqueeze(th, term, inventory, now).Some?
    ensures Aggregate(MonitoringSignals(th, price, inventory, term, now)) == Level3
  {
    var s := MonitoringSignals(th, price, inventory, term, now);
    var i := |s| - 1;
    assert s[i] == CheckSqueeze(th, term, inventory, now).value;
    AggregateDominates(s, i);
  }

  datatype SummaryLine = SummaryLine(emoji: string, indicator: Indicator)

  /** The text summary: the fixed "all indicators normal" sentence, or one
      line per signal (its level's emoji and indicator; the message text is
      left out). */
  datatype Summary = AllClear | Lines(lines: seq<SummaryLine>)

  datatype MonitoringReport = MonitoringReport(
    currentLevel: AlertLevel, alerts: seq<AlertSignal>, summary: Summary, timestamp: int)

  /** The monitor keeps its thresholds, the signals of the latest run and
      their overall level. */
  class CopperRiskMonitor {
    const thresholds: Thresholds
    var alerts: seq<AlertSignal>
    var currentLevel: AlertLevel

    /** No thresholds given means the defaults. */
    constructor (thresholds: Option<Thresholds>)
      ensures this.thresholds == if thresholds.Some? then thresholds.value else DefaultThresholds()
      ensures alerts == [] && currentLevel == Normal
    {
      this.thresholds := if thresholds.Some? then thresholds.value else DefaultThresholds();
      alerts := [];
      currentLevel := Normal;
    }

    /** The price-behaviour checks; fewer than 20 rows raise nothing. */
    method PriceBehaviorAlerts(price: PriceReadings, now: int) returns (signals: seq<AlertSignal>)
      ensures signals == PriceBehaviorSignals(thresholds, price, now)
    {
      signals := [];
      if price.rows < 20 {
        return;
      }
      if price.rows > 20 {
        if price.volatility > thresholds.volatilityLevel3 {
          signals := signals + [AlertSignal(Level3, PriceBehavior, IntradayVolatility, price.volatility,
                                            thresholds.volatilityLevel3, now)];
        } else if price.volatility > thresholds.volatilityLevel2 {
          signals := signals + [AlertSignal(Level2, PriceBehavior, IntradayVolatility, price.volatility,
                                            thresholds.volatilityLevel2, now)];
        }
      }
      assert signals == VolatilitySignals(thresholds, price, now);
      if Abs(price.deviation) > thresholds.priceDeviationLevel3 {
        signals := signals + [AlertSignal(Level3, PriceBehavior, PriceDeviation, price.deviation,
                                          thresholds.priceDeviationLevel3, now)];
      } else if Abs(price.deviation) > thresholds.priceDeviationLevel2 {
        signals := signals + [AlertSignal(Level2, PriceBehavior, PriceDeviation, price.deviation,
                                          thresholds.priceDeviationLevel2, now)];
      }
      assert signals == VolatilitySignals(thresholds, price, now) + DeviationSignals(thresholds, price, now);
      if price.rows >= 2 {
        if Abs(price.gap) > thresholds.gapLevel3 {
          signals := signals + [AlertSignal(Level3, PriceBehavior, OpeningGap, price.gap,
                                            thresholds.gapLevel3, now)];
        } else if Abs(price.gap) > thresholds.gapLevel2 {
          signals := signals + [AlertSignal(Level2, PriceBehavior, OpeningGap, price.gap,
                                            thresholds.gapLevel2, now)];
        }
      }
    }

    method TermStructureAlerts(now: int) returns (signals: seq<AlertSignal>)
      ensures signals == TermStructureSignals(thresholds, now)
    {
      signals := [];
      var spread := MockCashSpread;
      if spread < thresholds.cashSpreadContango {
        signals := signals + [AlertSignal(Level2, TermStructure, CashSpread, spread,
                                          thresholds.cashSpreadContango, now)];
      } else if spread > thresholds.cashSpreadBackwardation {
        signals := signals + [AlertSignal(Level2, TermStructure, CashSpread, spread,
                                          thresholds.cashSpreadBackwardation, now)];
      }
    }

    method InventoryAlerts(inventory: map<string, real>, now: int) returns (signals: seq<AlertSignal>)
      ensures signals == InventorySignals(thresholds, inventory, now)
    {
      signals := [];
      if WarrantCancelKey in inventory {
        var ratio := inventory[WarrantCancelKey];
        if ratio > thresholds.warrantCancelLevel3 {
          signals := signals + [AlertSignal(Level3, Inventory, WarrantCancelRatio, ratio,
                                            thresholds.warrantCancelLevel3, now)];
        } else if ratio > thresholds.warrantCancelLevel2 {
          signals := signals + [AlertSignal(Level2, Inventory, WarrantCancelRatio, ratio,
                                            thresholds.warrantCancelLevel2, now)];
        }
      }
    }

    /** One monitoring run: replaces the stored signals with this run's and
        the stored level with their aggregate. */
    method RunFullMonitoring(price: PriceReadings, inventory: map<string, real>,
                             term: map<string, real>, now: int) returns (report: MonitoringReport)
      modifies this
      ensures alerts == MonitoringSignals(thresholds, price, inventory, term, now)
      ensures currentLevel == Aggregate(alerts)
      ensures report == MonitoringReport(currentLevel, alerts, GenerateSummary(), now)
    {
      var priceAlerts := PriceBehaviorAlerts(price, now);
      var termAlerts := TermStructureAlerts(now);
      var inventoryAlerts := [];
      if |inventory| > 0 {
        inventoryAlerts := InventoryAlerts(inventory, now);
      }
      var scenarioAlerts := [];
      if |term| > 0 && |inventory| > 0 {
        var squeeze := CheckSqueeze(thresholds, term, inventory, now);
        if squeeze.Some? {
          scenarioAlerts := scenarioAlerts + [squeeze.value];
        }
      }
      alerts := priceAlerts + termAlerts + inventoryAlerts + scenarioAlerts;
      currentLevel := Aggregate(alerts);
      report := MonitoringReport(currentLevel, alerts, GenerateSummary(), now);
    }

    /** The summary of the stored state: the all-clear sentence exactly when
        the stored level is normal, otherwise one line per stored signal. */
    function GenerateSummary(): (s: Summary)
      reads this
      ensures s.AllClear? <==> currentLevel == Normal
      ensures s.Lines? ==> (|s.lines| == |alerts| &&
        forall i :: 0 <= i < |alerts| ==>
          s.lines[i] == SummaryLine(alerts[i].level.Emoji(), alerts[i].indicator))
    {
      if currentLevel == Normal then AllClear
      else Lines(SummaryLines(alerts))
    }
  }

  function SummaryLines(signals: seq<AlertSignal>): (lines: seq<SummaryLine>)
    ensures |lines| == |signals|
    ensures forall i :: 0 <= i < |signals| ==>
      lines[i] == SummaryLine(signals[i].level.Emoji(), signals[i].indicator)
  {
    if |signals| == 0 then []
    else [SummaryLine(signals[0].level.Emoji(), signals[0].indicator)] + SummaryLines(signals[1..])
  }
}
