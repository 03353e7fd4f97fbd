/** The three-layer heuristic copper price model: five factor scores in
    [-1, 1], short, medium and long term projections built from weighted
    combinations of them, the trend/consolidation regime, the advice ladders
    and the scenario stress test.

    The model's inputs are constants set once when it is built and never
    changed; they are a record here, and every operation is a function of
    it. Divisions by an input the source divides by are guarded by
    preconditions (the source raises ZeroDivisionError there). */
module PriceModel {
  import opened Common

  datatype MovingAverages = MovingAverages(ma5: real, ma10: real, ma20: real, ma60: real)

  /** A leading indicator: its latest value (percent growth) and its
      correlation with the copper price. */
  datatype LeadingIndicator = LeadingIndicator(value: real, correlation: real)

  /** The inputs the scores and projections read. */
  datatype CopperPriceModel = CopperPriceModel(
    currentPrice: real, exchangeRate: real, lmeInventory: real, ma: MovingAverages,
    // supply and demand, cost curve, mine disruption, treatment charges
    inventoryChangeRate: real, c1Cost: real, chileIndex: real, peruIndex: real,
    gradeDecline: real, tcCurrent: real, tc5yAvg: real,
    // macro factors
    dollarIndex: real, dollarCorrelation: real, pmiManufacturing: real, m1Growth: real,
    usTips: real, spread3m: real,
    // high-frequency factors
    nonCommercialNet: real, monthlyInflow: real, shLmeRatio: real, ratioMean: real,
    scrapSpread: real, scrapSpreadAvg: real,
    leading: seq<LeadingIndicator>)

  /** The values the model is built with. */
  function DefaultModel(): CopperPriceModel
  {
    CopperPriceModel(
      103040.0, 7.78, 249650.0, MovingAverages(102800.0, 102500.0, 101800.0, 100500.0),
      0.032, 8500.0, 0.92, 0.88, 0.02, 15.2, 45.5,
      106.5, -0.72, 50.6, 5.8, 1.85, 126.5,
      28950.0, 5200.0, 7.78, 7.75, 6540.0, 8500.0,
      [LeadingIndicator(5.8, 0.65), LeadingIndicator(15.2, 0.58), LeadingIndicator(-12.5, -0.42)])
  }

  /** The denominators the factor scores divide by are non-zero. */
  predicate ScoresDefined(m: CopperPriceModel)
  {
    m.exchangeRate != 0.0 && m.ma.ma20 - m.ma.ma60 + 0.01 != 0.0
  }

  function Unit(x: real): (r: real)
    ensures -1.0 <= r <= 1.0
  {
    Clamp(x, -1.0, 1.0)
  }

  // ---------------------------------------------------------------------
  // Factor scores

  /** An inventory change rate as a bearish score: -rate / 5%, capped at
      -1 from below only. */
  function InventoryComponent(rate: real): real
  {
    -Min(rate / 0.05, 1.0)
  }

  /** The mean of the LME and SHFE components, for the fixed change rates
      +2.6% and +3.8%. */
  function InventoryScore(): real
  {
    (InventoryComponent(0.026) + InventoryComponent(0.038)) / 2.0
  }

  /** Growing stocks are bearish: the inventory score is -0.64, and no
      component ever falls below -1. */
  lemma InventoryScoreValue(rate: real)
    ensures InventoryScore() == -0.64
    ensures InventoryComponent(rate) >= -1.0
    ensures rate >= 0.0 ==> InventoryComponent(rate) <= 0.0
  {
    assert 0.026 / 0.05 == 0.52;
    assert 0.038 / 0.05 == 0.76;
  }

  /** One vote per moving average, in order: +1 when the price is above
      it, -1 otherwise. */
  function MaVotes(current: real, mas: seq<real>): (r: seq<real>)
    ensures |r| == |mas|
    ensures forall i :: 0 <= i < |mas| ==> r[i] == if current > mas[i] then 1.0 else -1.0
  {
    if mas == [] then []
    else MaVotes(current, mas[..|mas| - 1]) + [if current > mas[|mas| - 1] then 1.0 else -1.0]
  }

  function Averages(ma: MovingAverages): seq<real>
  {
    [ma.ma5, ma.ma10, ma.ma20, ma.ma60]
  }

  /** The price's place between the 60- and 20-day averages, clamped. */
  function PositionScore(m: CopperPriceModel): real
    requires ScoresDefined(m)
  {
    Unit((m.currentPrice - m.ma.ma60) / (m.ma.ma20 - m.ma.ma60 + 0.01))
  }

  /** 60% the mean vote over the four averages, 40% the position score. */
  function TechnicalScore(m: CopperPriceModel): (s: real)
    requires ScoresDefined(m)
    ensures -1.0 <= s <= 1.0
  {
    var votes := MaVotes(m.currentPrice, Averages(m.ma));
    MeanOfVotes(votes);
    Sum(votes) / 4.0 * 0.6 + PositionScore(m) * 0.4
  }

  /** A sum of terms in [lo, hi] lies between |xs| * lo and |xs| * hi. */
  lemma {:induction false} SumBetween(xs: seq<real>, lo: real, hi: real)
    requires forall i :: 0 <= i < |xs| ==> lo <= xs[i] <= hi
    ensures (|xs| as real) * lo <= Sum(xs) <= (|xs| as real) * hi
  {
    if |xs| > 0 {
      SumBetween(xs[1..], lo, hi);
      assert xs[0] == xs[0];
    }
  }

  lemma MeanOfVotes(votes: seq<real>)
    requires |votes| == 4 && forall i :: 0 <= i < 4 ==> -1.0 <= votes[i] <= 1.0
    ensures -1.0 <= Sum(votes) / 4.0 <= 1.0
  {
    SumBetween(votes, -1.0, 1.0);
  }

  /** With the price above all four averages and the 20-day above the
      60-day, the technical score is above 0.6; with it below all four,
      below -0.6. */
  lemma TechnicalScoreAlignment(m: CopperPriceModel)
    requires ScoresDefined(m) && m.ma.ma20 > m.ma.ma60
    ensures (forall a :: a in Averages(m.ma) ==> m.currentPrice > a) ==> TechnicalScore(m) > 0.6
    ensures (forall a :: a in Averages(m.ma) ==> m.currentPrice <= a) && m.currentPrice < m.ma.ma60 ==>
      TechnicalScore(m) < -0.6
  {
    var votes := MaVotes(m.currentPrice, Averages(m.ma));
    var d := m.ma.ma20 - m.ma.ma60 + 0.01;
    var q := (m.currentPrice - m.ma.ma60) / d;
    assert q * d == m.currentPrice - m.ma.ma60;
    if forall a :: a in Averages(m.ma) ==> m.currentPrice > a {
      assert forall i :: 0 <= i < 4 ==> Averages(m.ma)[i] in Averages(m.ma);
      SumConstant(votes, 1.0);
      ProductSign(q, d);
    }
    if (forall a :: a in Averages(m.ma) ==> m.currentPrice <= a) && m.currentPrice < m.ma.ma60 {
      assert forall i :: 0 <= i < 4 ==> Averages(m.ma)[i] in Averages(m.ma);
      SumConstant(votes, -1.0);
      ProductSign(q, d);
    }
  }

  /** Supply and demand (25%), cost support (30%), mine supply constraint
      (30%) and treatment charges (15%), each clamped to [-1, 1]. */
  function FundamentalScore(m: CopperPriceModel): (s: real)
    requires m.exchangeRate != 0.0
    ensures -1.0 <= s <= 1.0
  {
    var inventory := Unit(-m.inventoryChangeRate / 0.10);
    var costSupport := Unit((m.currentPrice / m.exchangeRate - m.c1Cost) / 2000.0);
    var supply := Unit((1.0 - m.chileIndex) * 0.5 + (1.0 - m.peruIndex) * 0.3 + m.gradeDecline * 0.2);
    var tc := Unit((m.tc5yAvg - m.tcCurrent) / 50.0);
    inventory * 0.25 + costSupport * 0.30 + supply * 0.30 + tc * 0.15
  }

  /** Speculative positioning (35%), ETF flows (30%), the Shanghai/London
      ratio (20%) and the refined/scrap spread (15%), each clamped. */
  function SentimentScore(m: CopperPriceModel): (s: real)
    ensures -1.0 <= s <= 1.0
  {
    var nonCommercial := Unit(m.nonCommercialNet / 50000.0);
    var etf := Unit(m.monthlyInflow / 10000.0);
    var ratio := Unit((m.shLmeRatio - m.ratioMean) * 2.0);
    var scrap := Unit((m.scrapSpreadAvg - m.scrapSpread) / 2000.0);
    nonCommercial * 0.35 + etf * 0.30 + ratio * 0.20 + scrap * 0.15
  }

  /** Dollar (30%), PMI (25%), M1 credit (20%), real rates (15%) and the
      term structure (10%), each clamped. */
  function MacroScore(m: CopperPriceModel): (s: real)
    ensures -1.0 <= s <= 1.0
  {
    var dollar := Unit(-m.dollarCorrelation * (m.dollarIndex - 100.0) / 20.0);
    var pmi := Unit((m.pmiManufacturing - 50.0) / 10.0);
    var m1 := Unit((m.m1Growth - 5.0) / 10.0);
    var rate := Unit(-m.usTips / 3.0);
    var spread := Unit(m.spread3m / 200.0);
    dollar * 0.30 + pmi * 0.25 + m1 * 0.20 + rate * 0.15 + spread * 0.10
  }

  datatype Scores = Scores(inventory: real, technical: real, fundamental: real, sentiment: real, macro: real)

  datatype Weights = Weights(inventory: real, technical: real, fundamental: real, sentiment: real, macro: real)

  function ShortWeights(): Weights { Weights(0.15, 0.25, 0.20, 0.25, 0.15) }

  function MediumWeights(): Weights { Weights(0.15, 0.15, 0.30, 0.15, 0.25) }

  predicate InUnit(s: Scores)
  {
    -1.0 <= s.inventory <= 1.0 && -1.0 <= s.technical <= 1.0 && -1.0 <= s.fundamental <= 1.0 &&
    -1.0 <= s.sentiment <= 1.0 && -1.0 <= s.macro <= 1.0
  }

  function ScoresOf(m: CopperPriceModel): (s: Scores)
    requires ScoresDefined(m)
    ensures InUnit(s)
  {
    InventoryScoreValue(0.0);
    Scores(InventoryScore(), TechnicalScore(m), FundamentalScore(m), SentimentScore(m), MacroScore(m))
  }

  function Combine(s: Scores, w: Weights): real
  {
    s.inventory * w.inventory + s.technical * w.technical + s.fundamental * w.fundamental +
    s.sentiment * w.sentiment + s.macro * w.macro
  }

  /** Both weightings are non-negative and sum to 1, so they combine unit
      scores into a unit score. */
  lemma CombineInUnit(s: Scores)
    requires InUnit(s)
    ensures -1.0 <= Combine(s, ShortWeights()) <= 1.0
    ensures -1.0 <= Combine(s, MediumWeights()) <= 1.0
  {
  }

  // ---------------------------------------------------------------------
  // Short term

  /** The leading indicators' correlation-weighted values, in percent
      points, summed in order. */
  function LeadingSum(ls: seq<LeadingIndicator>): real
  {
    if ls == [] then 0.0
    else LeadingSum(ls[..|ls| - 1]) + ls[|ls| - 1].correlation * ls[|ls| - 1].value / 100.0
  }

  function LeadingAdjustment(ls: seq<LeadingIndicator>): real
    requires |ls| > 0
  {
    LeadingSum(ls) / (|ls| as real)
  }

  /** The short-term score: 85% the weighted factors, 15% the leading
      adjustment, amplified by 1.3 while LME stocks are below 50000 t. */
  function ShortTermTotal(m: CopperPriceModel): real
    requires ScoresDefined(m) && |m.leading| > 0
  {
    Amplified(ShortTermBase(m), m.lmeInventory)
  }

  function ShortTermBase(m: CopperPriceModel): real
    requires ScoresDefined(m) && |m.leading| > 0
  {
    Combine(ScoresOf(m), ShortWeights()) * 0.85 + LeadingAdjustment(m.leading) * 0.15
  }

  function Amplified(score: real, lmeInventory: real): real
  {
    if lmeInventory < 50000.0 then score * 1.3 else score
  }

  datatype ShortAdvice = RangeTrading | BuyDips | WaitOrReduce

  /** The short-term advice ladder. */
  function ShortRecommendation(r: real): ShortAdvice
  {
    if Abs(r) < 1.0 then RangeTrading
    else if r > 1.0 then BuyDips
    else WaitOrReduce
  }

  /** Range trading exactly for a move under 1% either way, buying dips
      exactly above +1%; a move of exactly +1% falls through to the
      cautious advice, as does any fall of 1% or more. */
  lemma ShortLadder(r: real)
    ensures ShortRecommendation(r) == RangeTrading <==> -1.0 < r < 1.0
    ensures ShortRecommendation(r) == BuyDips <==> r > 1.0
    ensures ShortRecommendation(r) == WaitOrReduce <==> r <= -1.0 || r == 1.0
  {
  }

  datatype ShortTermForecast = ShortTermForecast(
    predictedPrice: real, predictedChange: real, rising: bool,
    support1: real, support2: real, resistance1: real, resistance2: real,
    advice: ShortAdvice)

  /** The projection `days` ahead from price p and score t: a 0.02% daily
      move per unit of score. */
  function ShortTermProjection(p: real, t: real, days: int): (f: ShortTermForecast)
    ensures f.rising <==> f.predictedChange > 0.0
    ensures f.advice == ShortRecommendation(f.predictedChange)
  {
    var r := t * 0.02 * (days as real);
    ShortTermForecast(p * (1.0 + r / 100.0), r, r > 0.0,
                      p * 0.98, p * 0.96, p * 1.02, p * 1.04, ShortRecommendation(r))
  }

  /** The short-term forecast of the model's current price over `days`
      trading days. */
  function PredictShortTerm(m: CopperPriceModel, days: int): (f: ShortTermForecast)
    requires ScoresDefined(m) && |m.leading| > 0
    ensures m.currentPrice > 0.0 ==>
      f.support2 < f.support1 < m.currentPrice < f.resistance1 < f.resistance2 &&
      (f.predictedPrice > m.currentPrice <==> f.rising)
  {
    var f := ShortTermProjection(m.currentPrice, ShortTermTotal(m), days);
    assert m.currentPrice > 0.0 ==>
      f.support2 < f.support1 < m.currentPrice < f.resistance1 < f.resistance2 &&
      (f.predictedPrice > m.currentPrice <==> f.rising) by {
      if m.currentPrice > 0.0 {
        ShortTermLevels(m.currentPrice, ShortTermTotal(m), days);
      }
    }
    f
  }

  /** For a positive price the levels are strictly ordered around it, and
      the projected price is above today's exactly when the trend says
      rising. */
  lemma ShortTermLevels(p: real, t: real, days: int)
    requires p > 0.0
    ensures var f := ShortTermProjection(p, t, days);
      f.support2 < f.support1 < p < f.resistance1 < f.resistance2 &&
      (f.predictedPrice > p <==> f.rising) &&
      (f.predictedPrice < p <==> f.predictedChange < 0.0)
  {
    var f := ShortTermProjection(p, t, days);
    assert f.predictedPrice - p == p * (f.predictedChange / 100.0);
    ProductSign(f.predictedChange / 100.0, p);
  }

  /** The low-stock threshold effect: below 50000 t the score is 1.3 times
      the weighted score, from 50000 t up it is the weighted score itself. */
  lemma ShortTermThreshold(m: CopperPriceModel)
    requires ScoresDefined(m) && |m.leading| > 0
    ensures m.lmeInventory < 50000.0 ==> ShortTermTotal(m) == 1.3 * ShortTermBase(m)
    ensures m.lmeInventory >= 50000.0 ==> ShortTermTotal(m) == ShortTermBase(m)
  {
  }

  /** With a leading adjustment of at most 1 in size, the projected move
      is at most 0.026% per day either way. */
  lemma ShortTermBound(m: CopperPriceModel, days: int)
    requires ScoresDefined(m) && |m.leading| > 0 && -1.0 <= LeadingAdjustment(m.leading) <= 1.0
    ensures Abs(PredictShortTerm(m, days).predictedChange) <= 0.026 * Abs(days as real)
  {
    CombineInUnit(ScoresOf(m));
    ProjectionBound(ShortTermTotal(m), days);
  }

  /** A score of at most 1.3 in size moves the price by at most 0.026% a
      day. */
  lemma ProjectionBound(t: real, days: int)
    requires -1.3 <= t <= 1.3
    ensures Abs(ShortTermProjection(0.0, t, days).predictedChange) <= 0.026 * Abs(days as real)
  {
    DailyMoveBound(t, days as real);
  }

  lemma DailyMoveBound(t: real, d: real)
    requires -1.3 <= t <= 1.3
    ensures Abs(t * 0.02 * d) <= 0.026 * Abs(d)
  {
    AbsProduct(t * 0.02, d);
    var a := Abs(t * 0.02);
    assert a <= 0.026;
    var ad := Abs(d);
    assert (0.026 - a) * ad >= 0.0;
  }

  lemma AbsProduct(x: real, y: real)
    ensures Abs(x * y) == Abs(x) * Abs(y)
  {
    if x < 0.0 && y >= 0.0 { assert x * y == -((-x) * y); }
    if x >= 0.0 && y < 0.0 { assert x * y == -(x * (-y)); }
    if x < 0.0 && y < 0.0 { assert x * y == (-x) * (-y); }
  }

  // ---------------------------------------------------------------------
  // Regime

  datatype Regime = Trend | Consolidation

  /** A trend when the price is more than 3% from the 60-day average and
      the price, the 20-day and the 60-day averages are stacked upwards. */
  function DetectRegime(p: real, ma20: real, ma60: real): (r: Regime)
    requires ma60 != 0.0
    ensures r == Trend ==> p > ma20 > ma60
  {
    if Abs(p - ma60) / ma60 > 0.03 && p > ma20 && ma20 > ma60 then Trend else Consolidation
  }

  /** For a positive 60-day average: a trend exactly when the price is
      above 103% of it and stacked above the 20-day, which is above it. */
  lemma RegimeCharacterised(p: real, ma20: real, ma60: real)
    requires ma60 > 0.0
    ensures DetectRegime(p, ma20, ma60) == Trend <==> p > 1.03 * ma60 && p > ma20 && ma20 > ma60
  {
    if p > ma20 && ma20 > ma60 {
      var q := (p - ma60) / ma60;
      assert q * ma60 == p - ma60;
      assert Abs(p - ma60) / ma60 == q;
      var e := q - 0.03;
      assert e * ma60 == q * ma60 - 0.03 * ma60;
      assert e * ma60 == p - 1.03 * ma60;
      ProductSign(e, ma60);
      assert e > 0.0 <==> p - 1.03 * ma60 > 0.0;
      assert DetectRegime(p, ma20, ma60) == Trend <==> q > 0.03;
    }
  }

  // ---------------------------------------------------------------------
  // Medium term

  predicate MediumDefined(m: CopperPriceModel)
  {
    ScoresDefined(m) && m.ma.ma60 != 0.0
  }

  function RegimeOf(m: CopperPriceModel): Regime
    requires m.ma.ma60 != 0.0
  {
    DetectRegime(m.currentPrice, m.ma.ma20, m.ma.ma60)
  }

  /** The medium-term score: the weighted factors scaled by 1.2 in a trend
      and 0.8 in consolidation, plus a 0.3 seasonal boost for horizons of
      up to three months. */
  function MediumTermTotal(m: CopperPriceModel, months: int): real
    requires MediumDefined(m)
  {
    var factor := if RegimeOf(m) == Trend then 1.2 else 0.8;
    Combine(ScoresOf(m), MediumWeights()) * factor + (if months <= 3 then 0.3 else 0.0)
  }

  datatype MediumAdvice = BuildLongs | LightLong | Cautious | RangeBound

  function MediumRecommendation(r: real): MediumAdvice
  {
    if r > 3.0 then BuildLongs
    else if r > 1.0 then LightLong
    else if r < -2.0 then Cautious
    else RangeBound
  }

  /** The medium-term advice partitions the moves at 3%, 1% and -2%. */
  lemma MediumLadder(r: real)
    ensures MediumRecommendation(r) == BuildLongs <==> r > 3.0
    ensures MediumRecommendation(r) == LightLong <==> 1.0 < r <= 3.0
    ensures MediumRecommendation(r) == Cautious <==> r < -2.0
    ensures MediumRecommendation(r) == RangeBound <==> -2.0 <= r <= 1.0
  {
  }

  datatype MediumTermForecast = MediumTermForecast(
    predictedPrice: real, predictedChange: real, rising: bool, regime: Regime,
    rangeLow: real, rangeHigh: real, advice: MediumAdvice)

  /** The seasonal price correction: a 3% premium at three months, a 3%
      pullback at six. */
  function SeasonalFactor(months: int): real
  {
    if months == 3 then 1.03 else if months == 6 then 0.97 else 1.0
  }

  /** The projection `months` ahead from price p and score t: a 0.05% move
      per unit of score and month, corrected for the season, with a band
      of 5% either side. */
  function MediumTermProjection(p: real, t: real, regime: Regime, months: int): (f: MediumTermForecast)
    ensures f.rising <==> f.predictedChange > 0.0
    ensures f.regime == regime
    ensures f.advice == MediumRecommendation(f.predictedChange)
  {
    var r := t * (0.05 * (months as real));
    var price := p * (1.0 + r / 100.0) * SeasonalFactor(months);
    MediumTermForecast(price, r, r > 0.0, regime, price * 0.95, price * 1.05, MediumRecommendation(r))
  }

  /** The medium-term forecast of the model's current price `months`
      ahead, tagged with the market regime. */
  function PredictMediumTerm(m: CopperPriceModel, months: int): (f: MediumTermForecast)
    requires MediumDefined(m)
    ensures f.regime == RegimeOf(m)
    ensures f.predictedPrice > 0.0 ==> f.rangeLow < f.predictedPrice < f.rangeHigh
    ensures f.rangeHigh - f.rangeLow == 0.1 * f.predictedPrice
    ensures f.rangeLow == 0.95 * f.predictedPrice && f.rangeHigh == 1.05 * f.predictedPrice
  {
    MediumTermRange(m.currentPrice, MediumTermTotal(m, months), RegimeOf(m), months);
    MediumTermProjection(m.currentPrice, MediumTermTotal(m, months), RegimeOf(m), months)
  }

  /** The season adds exactly 0.3 to the score up to three months ahead
      and nothing beyond. */
  lemma MediumSeasonalBoost(m: CopperPriceModel, months: int)
    requires MediumDefined(m)
    ensures months <= 3 ==> MediumTermTotal(m, months) == MediumTermTotal(m, 4) + 0.3
    ensures months > 3 ==> MediumTermTotal(m, months) == MediumTermTotal(m, 4)
  {
  }

  /** A positive projected price lies strictly inside its band, which is
      10% of it wide; away from the seasonal corrections the projected
      price is above today's exactly when the trend says rising. */
  lemma MediumTermRange(p: real, t: real, regime: Regime, months: int)
    ensures var f := MediumTermProjection(p, t, regime, months);
      (f.predictedPrice > 0.0 ==> f.rangeLow < f.predictedPrice < f.rangeHigh) &&
      f.rangeHigh - f.rangeLow == 0.1 * f.predictedPrice &&
      f.rangeLow == 0.95 * f.predictedPrice && f.rangeHigh == 1.05 * f.predictedPrice &&
      (p > 0.0 && months != 3 && months != 6 ==> (f.predictedPrice > p <==> f.rising))
  {
    var f := MediumTermProjection(p, t, regime, months);
    if months != 3 && months != 6 {
      assert f.predictedPrice - p == p * (f.predictedChange / 100.0);
      if p > 0.0 {
        ProductSign(f.predictedChange / 100.0, p);
      }
    }
  }

  // ---------------------------------------------------------------------
  // Long term

  function Pow(x: real, n: nat): real
  {
    if n == 0 then 1.0 else x * Pow(x, n - 1)
  }

  /** The annual growth rate for a horizon of `years`: 8% adjusted up for
      the rising new-energy share (25% + 5% a year) and for the falling
      real-estate share (40% - 8% a year). */
  function LongTermGrowth(years: int): real
  {
    var newEnergy := 0.25 + (years as real) * 0.05;
    var realEstate := 0.40 - (years as real) * 0.08;
    0.08 + (newEnergy - 0.25) * 0.2 - (realEstate - 0.32) * 0.1
  }

  /** The growth rate is 7.2% plus 1.8% per year of horizon. */
  lemma LongTermGrowthClosedForm(years: int)
    ensures LongTermGrowth(years) == 0.072 + 0.018 * (years as real)
  {
  }

  datatype LongTermForecast = LongTermForecast(predictedPrice: real, annualGrowth: real, costSupport: real)

  /** The price compounded at the horizon's growth rate, and the cost
      support: the 90th percentile C1 cost in local currency, rising 5% a
      year. */
  function PredictLongTerm(m: CopperPriceModel, years: nat): (f: LongTermForecast)
    ensures f.annualGrowth == LongTermGrowth(years)
  {
    var g := LongTermGrowth(years);
    LongTermForecast(m.currentPrice * Pow(1.0 + g, years), g,
                     m.c1Cost * m.exchangeRate * (1.0 + 0.05 * (years as real)))
  }

  lemma {:induction false} PowAtLeastOne(x: real, n: nat)
    requires x >= 1.0
    ensures Pow(x, n) >= 1.0
  {
    if n > 0 {
      PowAtLeastOne(x, n - 1);
      MulAtLeastOne(x, Pow(x, n - 1));
    }
  }

  lemma MulAtLeastOne(a: real, b: real)
    requires a >= 1.0 && b >= 1.0
    ensures a * b >= b
  {
    assert (a - 1.0) * b >= 0.0;
  }

  /** Powers are monotone in the base above 1. */
  lemma {:induction false} PowMonotoneBase(a: real, b: real, n: nat)
    requires 1.0 <= a <= b
    ensures Pow(a, n) <= Pow(b, n)
  {
    if n > 0 {
      PowMonotoneBase(a, b, n - 1);
      PowAtLeastOne(a, n - 1);
      var pa, pb := Pow(a, n - 1), Pow(b, n - 1);
      assert a * pa <= b * pa by {
        assert (b - a) * pa >= 0.0;
      }
      assert b * pa <= b * pb by {
        assert b * (pb - pa) >= 0.0;
      }
    }
  }

  /** For a positive price the long-term projection grows strictly with
      the horizon, as does the cost support for a positive cost. */
  lemma LongTermGrowsWithHorizon(m: CopperPriceModel, years: nat)
    requires m.currentPrice > 0.0
    ensures PredictLongTerm(m, years + 1).predictedPrice > PredictLongTerm(m, years).predictedPrice
    ensures m.c1Cost * m.exchangeRate > 0.0 ==>
      PredictLongTerm(m, years + 1).costSupport > PredictLongTerm(m, years).costSupport
  {
    var g0, g1 := LongTermGrowth(years), LongTermGrowth(years + 1);
    LongTermGrowthClosedForm(years);
    LongTermGrowthClosedForm(years + 1);
    var a, b := 1.0 + g0, 1.0 + g1;
    PowMonotoneBase(a, b, years);
    PowAtLeastOne(b, years);
    var pa, pb := Pow(a, years), Pow(b, years);
    assert Pow(b, years + 1) == b * pb;
    assert b * pb > pb by {
      assert (b - 1.0) * pb > 0.0;
    }
    assert Pow(b, years + 1) > pa;
    ProductSign(Pow(b, years + 1) - pa, m.currentPrice);
    var c := m.c1Cost * m.exchangeRate;
    if c > 0.0 {
      assert c * (1.0 + 0.05 * ((years + 1) as real)) - c * (1.0 + 0.05 * (years as real)) == c * 0.05;
    }
  }

  // ---------------------------------------------------------------------
  // Stress test

  /** The price impact of a named scenario, in percent; None for a name
      the model does not know. */
  function ScenarioImpact(name: string): Option<real>
  {
    if name == "china_demand_drop" then Some(-15.0)
    else if name == "dollar_crisis" then Some(-12.0)
    else if name == "supply_shock" then Some(8.0)
    else None
  }

  function DefaultScenarios(): seq<string>
  {
    ["china_demand_drop", "dollar_crisis", "supply_shock"]
  }

  datatype StressEntry = StressEntry(impactPct: real, stressedPrice: real, highRisk: bool)

  /** A scenario's result: the price moved by the impact, high risk for an
      impact of more than 10% either way. */
  function StressEntryOf(p: real, impact: real): (e: StressEntry)
    ensures e.impactPct == impact
  {
    StressEntry(impact, p * (1.0 + impact / 100.0), Abs(impact) > 10.0)
  }

  /** The results of the scenarios in order; unknown names are skipped and
      a repeated name writes the same entry again. */
  function StressResults(p: real, scenarios: seq<string>): map<string, StressEntry>
  {
    if scenarios == [] then map[]
    else
      var r := StressResults(p, scenarios[..|scenarios| - 1]);
      var name := scenarios[|scenarios| - 1];
      match ScenarioImpact(name)
      case None => r
      case Some(impact) => r[name := StressEntryOf(p, impact)]
  }

  /** The stress test of the given scenarios, or of the three default ones
      when none are given. */
  function StressTest(m: CopperPriceModel, scenarios: Option<seq<string>>): (r: map<string, StressEntry>)
    ensures var asked := if scenarios.None? then DefaultScenarios() else scenarios.value;
      forall k :: k in r <==> k in asked && ScenarioImpact(k).Some?
    ensures forall k :: k in r ==> r[k] == StressEntryOf(m.currentPrice, ScenarioImpact(k).value)
  {
    StressResultsSpec(m.currentPrice, if scenarios.None? then DefaultScenarios() else scenarios.value);
    StressResults(m.currentPrice, if scenarios.None? then DefaultScenarios() else scenarios.value)
  }

  /** The results hold exactly the known scenarios asked for, each with its
      own entry. */
  lemma {:induction false} StressResultsSpec(p: real, scenarios: seq<string>)
    ensures forall k :: k in StressResults(p, scenarios) <==> k in scenarios && ScenarioImpact(k).Some?
    ensures forall k :: k in StressResults(p, scenarios) ==>
      StressResults(p, scenarios)[k] == StressEntryOf(p, ScenarioImpact(k).value)
  {
    if scenarios != [] {
      var init := scenarios[..|scenarios| - 1];
      StressResultsSpec(p, init);
      assert forall k :: k in scenarios <==> k in init || k == scenarios[|scenarios| - 1];
    }
  }

  /** For a positive price a scenario raises the price exactly when its
      impact is positive, and its stressed price is the impact's share of
      the price away from it. */
  lemma StressEntryMeaning(p: real, impact: real)
    requires p > 0.0
    ensures StressEntryOf(p, impact).stressedPrice > p <==> impact > 0.0
    ensures StressEntryOf(p, impact).stressedPrice - p == p * impact / 100.0
    ensures StressEntryOf(p, impact).highRisk <==> impact > 10.0 || impact < -10.0
  {
    ProductSign(impact / 100.0, p);
  }

  /** The default stress test: three entries, the two demand and dollar
      shocks high risk and below the price, the supply shock medium risk
      and above it. */
  lemma DefaultStressTest(m: CopperPriceModel)
    requires m.currentPrice > 0.0
    ensures var r := StressTest(m, None);
      r.Keys == {"china_demand_drop", "dollar_crisis", "supply_shock"} &&
      r["china_demand_drop"].highRisk && r["china_demand_drop"].stressedPrice < m.currentPrice &&
      r["dollar_crisis"].highRisk && r["dollar_crisis"].stressedPrice < m.currentPrice &&
      !r["supply_shock"].highRisk && r["supply_shock"].stressedPrice > m.currentPrice
  {
    StressResultsSpec(m.currentPrice, DefaultScenarios());
    StressEntryMeaning(m.currentPrice, -15.0);
    StressEntryMeaning(m.currentPrice, -12.0);
    StressEntryMeaning(m.currentPrice, 8.0);
  }

  // ---------------------------------------------------------------------
  // The default model

  /** The default inputs: all projections are defined, the price is above
      every average so the technical score is maximal, yet it is only 2.5%
      above the 60-day average, so the regime is consolidation. */
  lemma DefaultModelFacts()
    ensures MediumDefined(DefaultModel()) && |DefaultModel().leading| == 3
    ensures TechnicalScore(DefaultModel()) == 1.0
    ensures RegimeOf(DefaultModel()) == Consolidation
  {
    var m := DefaultModel();
    var q := (m.currentPrice - m.ma.ma60) / (m.ma.ma20 - m.ma.ma60 + 0.01);
    assert q * 1300.01 == 2540.0;
    var votes := MaVotes(m.currentPrice, Averages(m.ma));
    SumConstant(votes, 1.0);
    RegimeCharacterised(m.currentPrice, m.ma.ma20, m.ma.ma60);
  }
}
