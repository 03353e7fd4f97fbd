/** The long/short backtest: three trading-signal rules over a predicted
    return, an engine that walks the price series opening a 30% position on
    a signal when flat and closing it when the signal goes quiet, and the
    summary metrics of the resulting portfolio values.

    Prices and the initial capital are positive. The annualised return,
    volatility, Sharpe and Calmar ratios need powers and square roots and
    are not computed; the rounding of the reported figures is left out. */
module Backtest {
  import opened Common

  // ---------------------------------------------------------------------
  // Signal rules

  /** Long above +1% predicted return, short below -1%. */
  function TrendSignal(predReturn: real): (s: int)
    ensures s == 1 <==> predReturn > 0.01
    ensures s == -1 <==> predReturn < -0.01
    ensures s == 0 <==> -0.01 <= predReturn <= 0.01
  {
    if predReturn > 0.01 then 1 else if predReturn < -0.01 then -1 else 0
  }

  /** Long when the price sits more than 2% below its mean and a rise is
      predicted, short when more than 2% above and a fall is predicted.
      `ma` is None when the averaging window is empty (numpy's NaN mean).
      A zero mean makes the deviation infinite in the direction of the price
      (undefined for a zero price). */
  function MeanReversionSignal(predReturn: real, price: real, ma: Option<real>): (s: int)
    ensures -1 <= s <= 1
    ensures s == 1 ==> predReturn > 0.0 && ma.Some?
    ensures s == -1 ==> predReturn < 0.0 && ma.Some?
  {
    match ma
    case None => 0
    case Some(m) =>
      if m == 0.0 then
        if price < 0.0 && predReturn > 0.0 then 1
        else if price > 0.0 && predReturn < 0.0 then -1
        else 0
      else
        var deviation := (price - m) / m;
        if deviation < -0.02 && predReturn > 0.0 then 1
        else if deviation > 0.02 && predReturn < 0.0 then -1
        else 0
  }

  /** For a positive mean the 2% deviation bands are the prices below 98%
      and above 102% of the mean. */
  lemma MeanReversionBands(predReturn: real, price: real, m: real)
    requires m > 0.0
    ensures MeanReversionSignal(predReturn, price, Some(m)) == 1 <==> price < 0.98 * m && predReturn > 0.0
    ensures MeanReversionSignal(predReturn, price, Some(m)) == -1 <==> price > 1.02 * m && predReturn < 0.0
  {
    var deviation := (price - m) / m;
    assert deviation * m == price - m;
    assert deviation < -0.02 <==> price < 0.98 * m;
    assert deviation > 0.02 <==> price > 1.02 * m;
  }

  /** The direction of the predicted return once it exceeds 0.5% in size. */
  function TargetPositionSignal(predReturn: real): (s: int)
    ensures s == (if Abs(predReturn) > 0.005 then Sign(predReturn) else 0)
  {
    if Abs(predReturn) > 0.005 then (if predReturn > 0.0 then 1 else -1) else 0
  }

  /** Every signal rule stays silent on a zero prediction, and each agrees
      with the sign of the prediction when it speaks. */
  lemma SignalsFollowPrediction(predReturn: real, price: real, ma: Option<real>)
    ensures TrendSignal(0.0) == 0 && TargetPositionSignal(0.0) == 0 && MeanReversionSignal(0.0, price, ma) == 0
    ensures TrendSignal(predReturn) != 0 ==> TrendSignal(predReturn) == Sign(predReturn)
    ensures TargetPositionSignal(predReturn) != 0 ==> TargetPositionSignal(predReturn) == Sign(predReturn)
    ensures MeanReversionSignal(predReturn, price, ma) != 0 ==>
      MeanReversionSignal(predReturn, price, ma) == Sign(predReturn)
  {
  }

  /** A trend signal implies a target-position signal in the same direction:
      the trend threshold is the stricter. */
  lemma TrendImpliesTarget(predReturn: real)
    ensures TrendSignal(predReturn) != 0 ==> TargetPositionSignal(predReturn) == TrendSignal(predReturn)
  {
  }

  datatype Strategy = TrendFollowing | MeanReversion | TargetPosition

  /** The strategy named by its string; any other name selects the
      target-position rule. */
  function StrategyOf(name: string): Strategy
  {
    if name == "trend_following" then TrendFollowing
    else if name == "mean_reversion" then MeanReversion
    else TargetPosition
  }

  /** The mean of the (up to) 20 prices before index i; None when there are
      none. */
  function TrailingMean(prices: seq<real>, i: nat): Option<real>
    requires i <= |prices|
  {
    var lo := if i >= 20 then i - 20 else 0;
    if i == lo then None else Some(Sum(prices[lo..i]) / ((i - lo) as real))
  }

  function SignalAt(strategy: Strategy, prices: seq<real>, predictions: seq<real>, i: nat): (s: int)
    requires i < |prices|
    ensures -1 <= s <= 1
  {
    var predReturn := if i < |predictions| then predictions[i] else 0.0;
    match strategy
    case TrendFollowing => TrendSignal(predReturn)
    case MeanReversion => MeanReversionSignal(predReturn, prices[i], TrailingMean(prices, i))
    case TargetPosition => TargetPositionSignal(predReturn)
  }

  /** The fallback forecast when there is no model: 10 times the relative
      distance of the price above its 20-day mean from index 20 on, 0
      before. A zero mean, where numpy would give an infinite or NaN
      forecast, gives 0 here; it cannot occur on the positive prices a run
      requires. */
  function FallbackPredictions(prices: seq<real>): (p: seq<real>)
    ensures |p| == |prices|
    ensures forall i :: 0 <= i < |prices| && i < 20 ==> p[i] == 0.0
  {
    seq(|prices|, i requires 0 <= i < |prices| =>
      if i < 20 then 0.0
      else
        var ma := Sum(prices[i - 19..i + 1]) / 20.0;
        if ma == 0.0 then 0.0 else (prices[i] / ma - 1.0) * 10.0)
  }

  /** On positive prices, the fallback forecast is positive exactly when the
      price is above its 20-day mean and negative exactly when below. */
  lemma FallbackFollowsMean(prices: seq<real>, i: nat)
    requires PositivePrices(prices) && 20 <= i < |prices|
    ensures var ma := Sum(prices[i - 19..i + 1]) / 20.0;
      (FallbackPredictions(prices)[i] > 0.0 <==> prices[i] > ma) &&
      (FallbackPredictions(prices)[i] < 0.0 <==> prices[i] < ma)
  {
    var window := prices[i - 19..i + 1];
    SumPositive(window);
    var ma := Sum(window) / 20.0;
    var q := prices[i] / ma;
    assert q * ma == prices[i];
    assert (q - 1.0) * ma == prices[i] - ma;
    ProductSign(q - 1.0, ma);
    assert q - 1.0 > 0.0 <==> prices[i] > ma;
    assert q - 1.0 < 0.0 <==> prices[i] < ma;
    assert FallbackPredictions(prices)[i] == (q - 1.0) * 10.0;
  }

  // ---------------------------------------------------------------------
  // The engine

  datatype BacktestConfig = BacktestConfig(
    initialCapital: real, commissionRate: real, slippage: real, lookbackWindow: nat)

  function DefaultBacktestConfig(): BacktestConfig
  {
    BacktestConfig(1000000.0, 0.0002, 0.0001, 60)
  }

  /** Costs that keep a round trip from creating or destroying more than the
      traded amount: commission and slippage are fractions summing to at
      most 1. */
  predicate SaneCosts(cfg: BacktestConfig)
  {
    0.0 <= cfg.commissionRate && 0.0 <= cfg.slippage && cfg.commissionRate + cfg.slippage <= 1.0
  }

  /** Every price is positive. */
  predicate PositivePrices(prices: seq<real>)
  {
    forall i :: 0 <= i < |prices| ==> prices[i] > 0.0
  }

  datatype TradeAction = Buy | Sell | Close

  /** A trade; `shares` for an opening, `pnl` for a closing. */
  datatype Trade = Trade(index: nat, action: TradeAction, price: real, shares: real, pnl: real)

  /** The engine's state between two days. */
  datatype Book = Book(capital: real, position: real, values: seq<real>, trades: seq<Trade>)

  /** The shares a new position buys: 30% of the cash at the day's price. */
  function OpenShares(capital: real, price: real): real
    requires price > 0.0
  {
    capital * 0.3 / price
  }

  /** What opening costs, commission and slippage included. */
  function OpenCost(cfg: BacktestConfig, shares: real, price: real): real
  {
    shares * price * (1.0 + cfg.commissionRate + cfg.slippage)
  }

  /** What closing a position brings in, net of commission and slippage. */
  function CloseProceeds(cfg: BacktestConfig, position: real, price: real): real
  {
    Abs(position) * price * (1.0 - cfg.commissionRate - cfg.slippage)
  }

  /** The entry price of the position being closed: the price of the last
      trade in the log (the day's price if there is none). */
  function EntryPrice(trades: seq<Trade>, price: real): real
  {
    if |trades| > 0 then trades[|trades| - 1].price else price
  }

  /** The profit of a closing: the net proceeds less the entry value. */
  function RealisedPnl(proceeds: real, position: real, entryPrice: real): real
  {
    proceeds - Abs(position) * entryPrice
  }

  /** The portfolio value: the cash plus the marked-to-market position. */
  function Valuation(capital: real, position: real, price: real): real
  {
    if position != 0.0 then capital + position * price else capital
  }

  /** One day of the backtest at index i: open when flat on a signal and
      affordable, close when holding and the signal is 0, otherwise hold;
      then record the portfolio value. */
  function Step(cfg: BacktestConfig, b: Book, i: nat, price: real, signal: int): (r: Book)
    requires price > 0.0
    ensures |r.values| == |b.values| + 1 && r.values[..|b.values|] == b.values
    ensures r.values[|b.values|] == Valuation(r.capital, r.position, price)
    ensures |b.trades| <= |r.trades| <= |b.trades| + 1 && r.trades[..|b.trades|] == b.trades
  {
    if signal != 0 && b.position == 0.0 then
      var shares := OpenShares(b.capital, price);
      var cost := OpenCost(cfg, shares, price);
      if cost <= b.capital then
        var position := shares * (signal as real);
        var capital := b.capital - Abs(cost);
        var trade := Trade(i, if signal > 0 then Buy else Sell, price, Abs(shares), 0.0);
        Book(capital, position, b.values + [Valuation(capital, position, price)], b.trades + [trade])
      else
        Book(b.capital, b.position, b.values + [b.capital], b.trades)
    else if b.position != 0.0 && signal == 0 then
      var proceeds := CloseProceeds(cfg, b.position, price);
      var trade := Trade(i, Close, price, 0.0, RealisedPnl(proceeds, b.position, EntryPrice(b.trades, price)));
      Book(b.capital + proceeds, 0.0, b.values + [b.capital + proceeds], b.trades + [trade])
    else
      Book(b.capital, b.position, b.values + [Valuation(b.capital, b.position, price)], b.trades)
  }

  /** The state after the days lookbackWindow, ..., k - 1. */
  function Simulate(cfg: BacktestConfig, strategy: Strategy, prices: seq<real>, predictions: seq<real>,
                    trades0: seq<Trade>, k: nat): (r: Book)
    requires k < |prices| || k <= cfg.lookbackWindow
    requires PositivePrices(prices)
    ensures |r.values| >= 1 && r.values[0] == cfg.initialCapital
    decreases k
  {
    if k <= cfg.lookbackWindow then Book(cfg.initialCapital, 0.0, [cfg.initialCapital], trades0)
    else
      Step(cfg, Simulate(cfg, strategy, prices, predictions, trades0, k - 1), k - 1, prices[k - 1],
           SignalAt(strategy, prices, predictions, k - 1))
  }

  /** One value per simulated day after the initial one, and the trade log
      only grows. */
  lemma {:induction false} SimulateShape(cfg: BacktestConfig, strategy: Strategy, prices: seq<real>,
                                         predictions: seq<real>, trades0: seq<Trade>, k: nat)
    requires k < |prices| || k <= cfg.lookbackWindow
    requires PositivePrices(prices)
    ensures var b := Simulate(cfg, strategy, prices, predictions, trades0, k);
      |b.values| == 1 + (if k > cfg.lookbackWindow then k - cfg.lookbackWindow else 0) &&
      b.values[0] == cfg.initialCapital &&
      |b.trades| >= |trades0| && b.trades[..|trades0|] == trades0
    decreases k
  {
    if k > cfg.lookbackWindow {
      SimulateShape(cfg, strategy, prices, predictions, trades0, k - 1);
      var b := Simulate(cfg, strategy, prices, predictions, trades0, k - 1);
      var b' := Simulate(cfg, strategy, prices, predictions, trades0, k);
      assert b'.trades[..|trades0|] == b'.trades[..|b.trades|][..|trades0|];
    }
  }

  /** Cash never goes negative when prices and the starting capital are
      positive and the costs are sane: an opening is paid only when
      affordable and a closing brings in a non-negative amount. */
  lemma {:induction false} CapitalNeverNegative(cfg: BacktestConfig, strategy: Strategy, prices: seq<real>,
                                                predictions: seq<real>, trades0: seq<Trade>, k: nat)
    requires k < |prices| || k <= cfg.lookbackWindow
    requires PositivePrices(prices)
    requires SaneCosts(cfg) && 0.0 <= cfg.initialCapital
    requires PositivePrices(prices)
    ensures Simulate(cfg, strategy, prices, predictions, trades0, k).capital >= 0.0
    decreases k
  {
    if k > cfg.lookbackWindow {
      CapitalNeverNegative(cfg, strategy, prices, predictions, trades0, k - 1);
      StepKeepsCapital(cfg, Simulate(cfg, strategy, prices, predictions, trades0, k - 1), k - 1, prices[k - 1],
                       SignalAt(strategy, prices, predictions, k - 1));
    }
  }

  lemma MulNonNegative(x: real, y: real)
    requires 0.0 <= x && 0.0 <= y
    ensures 0.0 <= x * y
  {
  }

  /** One day keeps the cash non-negative. */
  lemma StepKeepsCapital(cfg: BacktestConfig, b: Book, i: nat, price: real, signal: int)
    requires SaneCosts(cfg) && price > 0.0 && b.capital >= 0.0
    ensures Step(cfg, b, i, price, signal).capital >= 0.0
  {
    if signal != 0 && b.position == 0.0 {
      var shares := OpenShares(b.capital, price);
      MulNonNegative(b.capital * 0.3, 1.0 / price);
      assert shares == b.capital * 0.3 * (1.0 / price);
      MulNonNegative(shares, price);
      MulNonNegative(shares * price, 1.0 + cfg.commissionRate + cfg.slippage);
    } else if b.position != 0.0 && signal == 0 {
      MulNonNegative(Abs(b.position), price);
      MulNonNegative(Abs(b.position) * price, 1.0 - cfg.commissionRate - cfg.slippage);
    }
  }

  /** A position only changes by opening from flat or closing to flat: an
      opposite signal while holding leaves it unchanged. */
  lemma PositionTransitions(cfg: BacktestConfig, b: Book, i: nat, price: real, signal: int)
    requires price > 0.0
    ensures var b' := Step(cfg, b, i, price, signal);
      (b.position != 0.0 && signal != 0 ==> b'.position == b.position && b'.capital == b.capital) &&
      (b.position != 0.0 && signal == 0 ==> b'.position == 0.0) &&
      (b.position == 0.0 && signal == 0 ==> b' .position == 0.0 && b'.capital == b.capital)
  {
  }

  /** One day of the loop on the engine's variables: the cash, the signed
      position, the portfolio values and the trade log. */
  method TradingDay(cfg: BacktestConfig, capital: real, position: real, values: seq<real>, trades: seq<Trade>,
                    i: nat, price: real, signal: int)
    returns (capital': real, position': real, values': seq<real>, trades': seq<Trade>)
    requires price > 0.0
    ensures Book(capital', position', values', trades') ==
            Step(cfg, Book(capital, position, values, trades), i, price, signal)
  {
    capital', position', trades' := capital, position, trades;
    if signal != 0 && position == 0.0 {
      var shares := OpenShares(capital, price);
      var cost := OpenCost(cfg, shares, price);
      if cost <= capital {
        position' := shares * (signal as real);
        capital' := capital - Abs(cost);
        trades' := trades + [Trade(i, if signal > 0 then Buy else Sell, price, Abs(shares), 0.0)];
      }
    } else if position != 0.0 && signal == 0 {
      var proceeds := CloseProceeds(cfg, position, price);
      capital' := capital + proceeds;
      var entryPrice := EntryPrice(trades, price);
      trades' := trades + [Trade(i, Close, price, 0.0, RealisedPnl(proceeds, position, entryPrice))];
      position' := 0.0;
    }
    values' := values + [Valuation(capital', position', price)];
  }

  class BacktestEngine {
    const config: BacktestConfig
    /** Every trade of every run of this engine, oldest first. */
    var trades: seq<Trade>

    constructor(config: Option<BacktestConfig>)
      ensures this.config == if config.Some? then config.value else DefaultBacktestConfig()
      ensures trades == []
    {
      this.config := if config.Some? then config.value else DefaultBacktestConfig();
      trades := [];
    }

    /** Runs the strategy over the days lookbackWindow .. |prices| - 2 and
        reports the metrics of the portfolio values. The trades of the run
        are appended to the engine's log, which is never cleared. */
    method Run(prices: seq<real>, modelPredictions: Option<seq<real>>, strategy: Strategy)
      returns (metrics: Option<Metrics>)
      requires PositivePrices(prices) && config.initialCapital > 0.0
      modifies this
      ensures var n := |prices|;
        var predictions := if modelPredictions.Some? then modelPredictions.value else FallbackPredictions(prices);
        var last := if n >= 1 && n - 1 > config.lookbackWindow then n - 1 else config.lookbackWindow;
        var b := Simulate(config, strategy, prices, predictions, old(trades), last);
        |b.values| > 0 && b.values[0] > 0.0 &&
        trades == b.trades &&
        metrics == CalculateMetrics(b.values, prices, config.lookbackWindow, |trades|)
    {
      var predictions := if modelPredictions.Some? then modelPredictions.value else FallbackPredictions(prices);
      var last := if |prices| >= 1 && |prices| - 1 > config.lookbackWindow then |prices| - 1 else config.lookbackWindow;
      ghost var trades0 := trades;
      var portfolioValues;
      portfolioValues, trades := TradingDays(config, strategy, prices, predictions, trades, last);
      SimulateShape(config, strategy, prices, predictions, trades0, last);
      metrics := CalculateMetrics(portfolioValues, prices, config.lookbackWindow, |trades|);
    }
  }

  /** The day loop of a run over the days lookbackWindow .. last - 1, on the
      cash, the position, the portfolio values and the trade log. */
  method TradingDays(cfg: BacktestConfig, strategy: Strategy, prices: seq<real>, predictions: seq<real>,
                     trades0: seq<Trade>, last: nat)
    returns (values: seq<real>, trades: seq<Trade>)
    requires PositivePrices(prices)
    requires cfg.lookbackWindow <= last && (last == cfg.lookbackWindow || last < |prices|)
    ensures var b := Simulate(cfg, strategy, prices, predictions, trades0, last);
      values == b.values && trades == b.trades
  {
    var capital := cfg.initialCapital;
    var position := 0.0;
    values, trades := [capital], trades0;
    var i := cfg.lookbackWindow;
    while i < last
      invariant cfg.lookbackWindow <= i <= last
      invariant Book(capital, position, values, trades) == Simulate(cfg, strategy, prices, predictions, trades0, i)
      decreases last - i
    {
      ghost var before := Book(capital, position, values, trades);
      var signal := SignalAt(strategy, prices, predictions, i);
      capital, position, values, trades := TradingDay(cfg, capital, position, values, trades, i, prices[i], signal);
      assert Book(capital, position, values, trades) == Step(cfg, before, i, prices[i], signal);
      i := i + 1;
    }
  }

  // ---------------------------------------------------------------------
  // Metrics

  datatype Metrics = Metrics(
    totalReturnPct: real, maxDrawdownPct: real, winRatePct: Option<real>,
    benchmarkReturnPct: real, alphaPct: real, finalCapital: real, numTrades: nat)

  /** The running peak of the values up to index i. */
  function Peak(values: seq<real>, i: nat): (p: real)
    requires i < |values|
    ensures values[i] <= p
    ensures forall j :: 0 <= j <= i ==> values[j] <= p
    ensures exists j :: 0 <= j <= i && values[j] == p
  {
    if i == 0 then values[0] else Max(Peak(values, i - 1), values[i])
  }

  /** The relative fall of the value at index i below the running peak. */
  function Drawdown(values: seq<real>, i: nat): real
    requires i < |values| && values[0] > 0.0
  {
    var p := Peak(values, i);
    assert values[0] <= p;
    (values[i] - p) / p
  }

  /** A drawdown is never positive, and no deeper than -1 for a
      non-negative value. */
  lemma DrawdownBounds(values: seq<real>, i: nat)
    requires i < |values| && values[0] > 0.0
    ensures Drawdown(values, i) <= 0.0
    ensures values[i] >= 0.0 ==> Drawdown(values, i) >= -1.0
  {
    var p := Peak(values, i);
    assert values[0] <= p;
    QuotientSign(values[i] - p, p);
    if values[i] >= 0.0 {
      RatioBounds(values[i] - p, p);
    }
  }

  /** The deepest drawdown over the indices 0 .. i. */
  function MinDrawdown(values: seq<real>, i: nat): real
    requires i < |values| && values[0] > 0.0
  {
    if i == 0 then Drawdown(values, 0) else Min(MinDrawdown(values, i - 1), Drawdown(values, i))
  }

  /** The maximum drawdown is never positive, and no worse than -100% while
      the values stay non-negative. */
  lemma {:induction false} MaxDrawdownBounds(values: seq<real>, i: nat)
    requires i < |values| && values[0] > 0.0
    ensures MinDrawdown(values, i) <= 0.0
    ensures (forall j :: 0 <= j <= i ==> values[j] >= 0.0) ==> MinDrawdown(values, i) >= -1.0
  {
    DrawdownBounds(values, i);
    if i > 0 {
      MaxDrawdownBounds(values, i - 1);
    }
  }

  /** Daily returns that are defined (a 0 to 0 step is NaN and dropped) and
      how many of them are gains. A step up from 0 is an infinite gain. */
  function ReturnCounts(values: seq<real>): (c: (nat, nat))
    ensures c.1 <= c.0 < |values| || (|values| == 0 && c == (0, 0))
  {
    if |values| <= 1 then (0, 0)
    else
      var rest := ReturnCounts(values[1..]);
      var prev, cur := values[0], values[1];
      var defined := !(prev == 0.0 && cur == 0.0);
      var gain := if prev == 0.0 then cur > 0.0 else cur / prev - 1.0 > 0.0;
      ((if defined then 1 else 0) + rest.0, (if defined && gain then 1 else 0) + rest.1)
  }

  /** Only a 0→0 step is undefined, so a portfolio that never touches 0
      has exactly one return per step. */
  lemma {:induction false} ReturnsPerStep(values: seq<real>)
    requires |values| > 0 && forall k :: 0 <= k < |values| ==> values[k] != 0.0
    ensures ReturnCounts(values).0 == |values| - 1
  {
    if |values| > 1 {
      assert values[0] != 0.0;
      ReturnsPerStep(values[1..]);
    }
  }

  lemma QuotientSign(x: real, p: real)
    requires p > 0.0
    ensures x <= 0.0 ==> x / p <= 0.0
    ensures x >= 0.0 ==> x / p >= 0.0
  {
    var q := x / p;
    assert q * p == x;
  }

  /** A quotient of a numerator no larger than the positive denominator. */
  lemma RatioBounds(x: real, p: real)
    requires p > 0.0 && -p <= x <= p
    ensures -1.0 <= x / p <= 1.0
  {
    var q := x / p;
    assert q * p == x;
  }

  /** The reported metrics; None when the benchmark start index is past the
      end of the prices (pandas raises). The win rate is NaN (None) without
      a defined return. */
  function CalculateMetrics(values: seq<real>, prices: seq<real>, lookbackWindow: nat, numTrades: nat)
    : (m: Option<Metrics>)
    requires |values| > 0 && values[0] > 0.0 && PositivePrices(prices)
    ensures m.None? <==> lookbackWindow >= |prices|
  {
    if lookbackWindow >= |prices| then None
    else
      var totalReturn := (values[|values| - 1] / values[0] - 1.0) * 100.0;
      var (defined, gains) := ReturnCounts(values);
      var winRate := if defined == 0 then None else Some((gains as real) / (defined as real) * 100.0);
      var benchmark := (prices[|prices| - 1] / prices[lookbackWindow] - 1.0) * 100.0;
      Some(Metrics(totalReturn, MinDrawdown(values, |values| - 1) * 100.0, winRate, benchmark,
                   totalReturn - benchmark, values[|values| - 1], numTrades))
  }

  /** The metrics agree with each other: the alpha is the return over the
      benchmark, the drawdown is never positive, the win rate is a
      percentage. */
  lemma MetricsConsistent(values: seq<real>, prices: seq<real>, lookbackWindow: nat, numTrades: nat)
    requires |values| > 0 && values[0] > 0.0 && PositivePrices(prices) && lookbackWindow < |prices|
    ensures var m := CalculateMetrics(values, prices, lookbackWindow, numTrades).value;
      m.alphaPct == m.totalReturnPct - m.benchmarkReturnPct &&
      m.maxDrawdownPct <= 0.0 &&
      m.finalCapital == values[|values| - 1] &&
      (m.winRatePct.Some? ==> 0.0 <= m.winRatePct.value <= 100.0)
  {
    MaxDrawdownBounds(values, |values| - 1);
    var (defined, gains) := ReturnCounts(values);
    if defined > 0 {
      RatioBounds(gains as real, defined as real);
      MulNonNegative((gains as real) / (defined as real), 100.0);
    }
  }

  /** With the default configuration and at least 62 prices, the portfolio
      has one value per trading day after the 60-day lookback, plus the
      initial one, and the metrics exist. */
  lemma DefaultRunShape(strategy: Strategy, prices: seq<real>, predictions: seq<real>, trades0: seq<Trade>)
    requires |prices| >= 62 && PositivePrices(prices)
    ensures var b := Simulate(DefaultBacktestConfig(), strategy, prices, predictions, trades0, |prices| - 1);
      |b.values| == |prices| - 60 && b.values[0] == 1000000.0 &&
      b.capital >= 0.0 &&
      CalculateMetrics(b.values, prices, 60, |b.trades|).Some? &&
      CalculateMetrics(b.values, prices, 60, |b.trades|).value.maxDrawdownPct <= 0.0
  {
    SimulateShape(DefaultBacktestConfig(), strategy, prices, predictions, trades0, |prices| - 1);
    CapitalNeverNegative(DefaultBacktestConfig(), strategy, prices, predictions, trades0, |prices| - 1);
    var b := Simulate(DefaultBacktestConfig(), strategy, prices, predictions, trades0, |prices| - 1);
    MetricsConsistent(b.values, prices, 60, |b.trades|);
  }
}
