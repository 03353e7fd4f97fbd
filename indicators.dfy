/** Technical indicators over daily series: on-balance volume, true range
    and its average, Bollinger bands, exponential averages with MACD and
    KDJ built on them, RSI, the ADX directional-movement masking, and the
    derived flags built from them.

    Rolling standard deviations are inputs; rolling means, minima and
    maxima are taken over full windows only (pandas gives NaN before the
    window fills). */
module Indicators {
  import opened Common

  // ---------------------------------------------------------------------
  // On-balance volume

  /** The OBV change on day i: the day's volume when the close rose, minus
      it when the close fell, nothing when it was unchanged. */
  function ObvDelta(close: seq<real>, volume: seq<real>, i: nat): real
    requires 0 < i < |close| && |volume| == |close|
  {
    if close[i] > close[i - 1] then volume[i]
    else if close[i] < close[i - 1] then -volume[i]
    else 0.0
  }

  /** The running OBV of the first |close| days. */
  function ObvSeries(close: seq<real>, volume: seq<real>): (r: seq<real>)
    requires |close| > 0 && |volume| == |close|
    ensures |r| == |close|
    decreases |close|
  {
    if |close| == 1 then [0.0]
    else
      var n := |close|;
      var prev := ObvSeries(close[..n - 1], volume[..n - 1]);
      prev + [prev[n - 2] + ObvDelta(close, volume, n - 1)]
  }

  /** The OBV series starts at 0 and moves by exactly the day's signed
      volume. */
  lemma {:induction false} ObvSteps(close: seq<real>, volume: seq<real>)
    requires |close| > 0 && |volume| == |close|
    ensures ObvSeries(close, volume)[0] == 0.0
    ensures forall i :: 0 < i < |close| ==>
      ObvSeries(close, volume)[i] - ObvSeries(close, volume)[i - 1] == ObvDelta(close, volume, i)
    decreases |close|
  {
    if |close| > 1 {
      var n := |close|;
      ObvSteps(close[..n - 1], volume[..n - 1]);
      forall i | 0 < i < n - 1
        ensures ObvDelta(close[..n - 1], volume[..n - 1], i) == ObvDelta(close, volume, i)
      {
      }
    }
  }

  /** On a flat close the OBV stays at 0; on a close that never falls with
      non-negative volumes it never decreases. */
  lemma ObvMonotone(close: seq<real>, volume: seq<real>, i: nat)
    requires |close| > 0 && |volume| == |close| && 0 < i < |close|
    requires close[i] >= close[i - 1] && volume[i] >= 0.0
    ensures ObvSeries(close, volume)[i] >= ObvSeries(close, volume)[i - 1]
    ensures close[i] == close[i - 1] ==> ObvSeries(close, volume)[i] == ObvSeries(close, volume)[i - 1]
  {
    ObvSteps(close, volume);
  }

  /** The OBV loop. An empty close series has no OBV: the one-element list
      the loop starts from cannot be indexed by an empty series (pandas
      raises). */
  method Obv(close: seq<real>, volume: seq<real>) returns (r: Option<seq<real>>)
    requires |volume| == |close|
    ensures r.None? <==> |close| == 0
    ensures r.Some? ==> r.value == ObvSeries(close, volume)
  {
    var obv := [0.0];
    if |close| == 0 {
      return None;
    }
    for i := 1 to |close|
      invariant |obv| == i
      invariant obv == ObvSeries(close[..i], volume[..i])
    {
      assert close[..i + 1][..i] == close[..i] && volume[..i + 1][..i] == volume[..i];
      assert ObvDelta(close[..i + 1], volume[..i + 1], i) == ObvDelta(close, volume, i);
      if close[i] > close[i - 1] {
        obv := obv + [obv[|obv| - 1] + volume[i]];
      } else if close[i] < close[i - 1] {
        obv := obv + [obv[|obv| - 1] - volume[i]];
      } else {
        obv := obv + [obv[|obv| - 1]];
      }
    }
    assert close[..|close|] == close && volume[..|volume|] == volume;
    r := Some(obv);
  }

  // ---------------------------------------------------------------------
  // True range and ATR

  /** The largest of the day's range and the gaps from the previous close
      to the high and to the low. Without a previous close (the first day)
      the gaps are NaN and skipped, leaving the day's range. */
  function TrueRange(high: real, low: real, prevClose: Option<real>): (tr: real)
    ensures tr >= high - low
    ensures prevClose.Some? ==> tr >= Abs(high - prevClose.value) && tr >= Abs(low - prevClose.value)
    ensures tr == high - low || (prevClose.Some? && (tr == Abs(high - prevClose.value) || tr == Abs(low - prevClose.value)))
  {
    match prevClose
    case None => high - low
    case Some(pc) => Max(Max(high - low, Abs(high - pc)), Abs(low - pc))
  }

  /** The true range of every day. */
  function TrueRanges(high: seq<real>, low: seq<real>, close: seq<real>): (tr: seq<real>)
    requires |high| == |low| == |close|
    ensures |tr| == |close|
  {
    seq(|close|, i requires 0 <= i < |close| =>
      TrueRange(high[i], low[i], if i == 0 then None else Some(close[i - 1])))
  }

  /** The average true range on day i: the mean of the last `period` true
      ranges, None until the window is full. */
  function Atr(high: seq<real>, low: seq<real>, close: seq<real>, period: nat, i: nat): (r: Option<real>)
    requires |high| == |low| == |close| && i < |close|
    ensures r.Some? <==> 0 < period <= i + 1
  {
    if period == 0 || i + 1 < period then None
    else Some(Sum(TrueRanges(high, low, close)[i + 1 - period..i + 1]) / (period as real))
  }

  /** With highs never below lows, every true range and hence every ATR is
      non-negative. */
  lemma AtrNonNegative(high: seq<real>, low: seq<real>, close: seq<real>, period: nat, i: nat)
    requires |high| == |low| == |close| && i < |close|
    requires forall k :: 0 <= k < |close| ==> high[k] >= low[k]
    ensures Atr(high, low, close, period, i).Some? <==> 0 < period <= i + 1
    ensures Atr(high, low, close, period, i).Some? ==> Atr(high, low, close, period, i).value >= 0.0
  {
    if 0 < period <= i + 1 {
      var window := TrueRanges(high, low, close)[i + 1 - period..i + 1];
      SumNonNegative(window);
    }
  }

  // ---------------------------------------------------------------------
  // Bollinger bands

  datatype Bands = Bands(middle: real, upper: real, lower: real, bandwidth: Option<real>, percentB: Option<real>)

  /** The bands num_std rolling deviations either side of the rolling mean;
      the bandwidth and %B are None where their denominator is 0 (pandas
      gives inf or NaN). */
  function BollingerBands(close: real, middle: real, std: real, numStd: real): (b: Bands)
    ensures b.middle == middle
    ensures b.upper - b.middle == b.middle - b.lower == std * numStd
    ensures b.bandwidth.None? <==> middle == 0.0
    ensures b.percentB.None? <==> b.upper == b.lower
    ensures middle != 0.0 ==> b.bandwidth == Some((b.upper - b.lower) / middle)
    ensures b.upper != b.lower ==> b.percentB == Some((close - b.lower) / (b.upper - b.lower))
  {
    var upper := middle + std * numStd;
    var lower := middle - std * numStd;
    Bands(middle, upper, lower,
          if middle == 0.0 then None else Some((upper - lower) / middle),
          if upper == lower then None else Some((close - lower) / (upper - lower)))
  }

  /** The bands are ordered for a non-negative width, and %B lies in [0, 1]
      exactly when the close lies between them. */
  lemma BollingerOrdered(close: real, middle: real, std: real, numStd: real)
    ensures var b := BollingerBands(close, middle, std, numStd);
      (std * numStd >= 0.0 ==> b.lower <= b.middle <= b.upper) &&
      (std * numStd > 0.0 ==> (0.0 <= b.percentB.value <= 1.0 <==> b.lower <= close <= b.upper))
  {
    var b := BollingerBands(close, middle, std, numStd);
    if std * numStd > 0.0 {
      var width := b.upper - b.lower;
      var q := (close - b.lower) / width;
      assert q * width == close - b.lower;
      assert 0.0 <= q <==> b.lower <= close by {
        if q < 0.0 { assert q * width < 0.0; }
        if close < b.lower { assert q * width < 0.0; }
      }
      assert q <= 1.0 <==> close <= b.upper by {
        if q > 1.0 { assert (q - 1.0) * width > 0.0; }
        if close > b.upper { assert (q - 1.0) * width > 0.0; }
      }
    }
  }

  // ---------------------------------------------------------------------
  // Exponential averages, MACD and KDJ

  /** pandas' `ewm(adjust=False).mean()`: the first value, then
      alpha * x + (1 - alpha) * previous. */
  function Ema(xs: seq<real>, alpha: real): (r: seq<real>)
    ensures |r| == |xs|
    decreases |xs|
  {
    if |xs| == 0 then []
    else if |xs| == 1 then [xs[0]]
    else
      var prev := Ema(xs[..|xs| - 1], alpha);
      prev + [alpha * xs[|xs| - 1] + (1.0 - alpha) * prev[|xs| - 2]]
  }

  /** A weighted mix of two values in [lo, hi] stays in [lo, hi]. */
  lemma Convex(alpha: real, x: real, e: real, lo: real, hi: real)
    requires 0.0 <= alpha <= 1.0 && lo <= x <= hi && lo <= e <= hi
    ensures lo <= alpha * x + (1.0 - alpha) * e <= hi
  {
    assert alpha * (x - lo) >= 0.0;
    assert (1.0 - alpha) * (e - lo) >= 0.0;
    assert alpha * (hi - x) >= 0.0;
    assert (1.0 - alpha) * (hi - e) >= 0.0;
  }

  /** An exponential average of values in [lo, hi] stays in [lo, hi]; in
      particular the average of a constant series is that constant. */
  lemma {:induction false} EmaBounds(xs: seq<real>, alpha: real, lo: real, hi: real)
    requires 0.0 <= alpha <= 1.0
    requires forall k :: 0 <= k < |xs| ==> lo <= xs[k] <= hi
    ensures forall k :: 0 <= k < |xs| ==> lo <= Ema(xs, alpha)[k] <= hi
    decreases |xs|
  {
    if |xs| > 1 {
      var n := |xs|;
      EmaBounds(xs[..n - 1], alpha, lo, hi);
      var prev := Ema(xs[..n - 1], alpha);
      Convex(alpha, xs[n - 1], prev[n - 2], lo, hi);
    }
  }

  /** The smoothing factor of a span of at least 1 (pandas refuses
      smaller spans): 2 / (span + 1). */
  function SpanAlpha(span: nat): real
    requires span >= 1
  {
    2.0 / ((span + 1) as real)
  }

  lemma SpanAlphaRange(span: nat)
    requires span >= 1
    ensures 0.0 < SpanAlpha(span) <= 1.0
    ensures span == 1 ==> SpanAlpha(span) == 1.0
  {
    var d := (span + 1) as real;
    var a := 2.0 / d;
    assert a * d == 2.0;
  }

  datatype MacdLines = MacdLines(macd: seq<real>, signal: seq<real>, histogram: seq<real>)

  /** MACD with spans 12, 26 and 9 by default. */
  function Macd(close: seq<real>, fast: nat, slow: nat, signalSpan: nat): (m: MacdLines)
    requires fast >= 1 && slow >= 1 && signalSpan >= 1
    ensures |m.macd| == |m.signal| == |m.histogram| == |close|
    ensures forall i :: 0 <= i < |close| ==>
      m.macd[i] == Ema(close, SpanAlpha(fast))[i] - Ema(close, SpanAlpha(slow))[i]
    ensures m.signal == Ema(m.macd, SpanAlpha(signalSpan))
    ensures forall i :: 0 <= i < |close| ==> m.histogram[i] == m.macd[i] - m.signal[i]
  {
    var emaFast := Ema(close, SpanAlpha(fast));
    var emaSlow := Ema(close, SpanAlpha(slow));
    var macd := seq(|close|, i requires 0 <= i < |close| => emaFast[i] - emaSlow[i]);
    var signal := Ema(macd, SpanAlpha(signalSpan));
    MacdLines(macd, signal, seq(|close|, i requires 0 <= i < |close| => macd[i] - signal[i]))
  }

  /** A flat close gives flat MACD, signal and histogram lines at 0. */
  lemma MacdOfFlatClose(close: seq<real>, c: real, fast: nat, slow: nat, signalSpan: nat)
    requires fast >= 1 && slow >= 1 && signalSpan >= 1
    requires forall k :: 0 <= k < |close| ==> close[k] == c
    ensures var m := Macd(close, fast, slow, signalSpan);
      forall k :: 0 <= k < |close| ==> m.macd[k] == 0.0 && m.signal[k] == 0.0 && m.histogram[k] == 0.0
  {
    SpanAlphaRange(fast);
    SpanAlphaRange(slow);
    SpanAlphaRange(signalSpan);
    EmaBounds(close, SpanAlpha(fast), c, c);
    EmaBounds(close, SpanAlpha(slow), c, c);
    var m := Macd(close, fast, slow, signalSpan);
    EmaBounds(m.macd, SpanAlpha(signalSpan), 0.0, 0.0);
  }

  /** The raw stochastic value: where the close sits between the window's
      lowest low and highest high, in percent; None for a flat window
      (pandas gives NaN or inf). */
  function Rsv(close: real, lowestLow: real, highestHigh: real): (r: Option<real>)
    ensures r.None? <==> highestHigh == lowestLow
    ensures r.Some? && close == lowestLow ==> r.value == 0.0
    ensures r.Some? && close == highestHigh ==> r.value == 100.0
  {
    if highestHigh == lowestLow then None
    else
      var span := highestHigh - lowestLow;
      assert close == highestHigh ==> (close - lowestLow) / span == 1.0;
      Some((close - lowestLow) / span * 100.0)
  }

  function WindowMin(xs: seq<real>): (m: real)
    requires |xs| > 0
    ensures forall k :: 0 <= k < |xs| ==> m <= xs[k]
    ensures exists k :: 0 <= k < |xs| && m == xs[k]
  {
    if |xs| == 1 then xs[0] else Min(xs[0], WindowMin(xs[1..]))
  }

  function WindowMax(xs: seq<real>): (m: real)
    requires |xs| > 0
    ensures forall k :: 0 <= k < |xs| ==> xs[k] <= m
    ensures exists k :: 0 <= k < |xs| && m == xs[k]
  {
    if |xs| == 1 then xs[0] else Max(xs[0], WindowMax(xs[1..]))
  }

  /** The RSV of day i over an n-day window, None before the window fills. */
  function RsvAt(high: seq<real>, low: seq<real>, close: seq<real>, n: nat, i: nat): Option<real>
    requires |high| == |low| == |close| && i < |close|
  {
    if n == 0 || i + 1 < n then None
    else Rsv(close[i], WindowMin(low[i + 1 - n..i + 1]), WindowMax(high[i + 1 - n..i + 1]))
  }

  /** When every close lies within its day's range the RSV lies in
      [0, 100]. */
  lemma RsvInRange(high: seq<real>, low: seq<real>, close: seq<real>, n: nat, i: nat)
    requires |high| == |low| == |close| && i < |close|
    requires forall k :: 0 <= k < |close| ==> low[k] <= close[k] <= high[k]
    ensures RsvAt(high, low, close, n, i).Some? ==> 0.0 <= RsvAt(high, low, close, n, i).value <= 100.0
  {
    if 0 < n <= i + 1 {
      var ll := WindowMin(low[i + 1 - n..i + 1]);
      var hh := WindowMax(high[i + 1 - n..i + 1]);
      WindowBracketsClose(high, low, close, n, i);
      if hh != ll {
        UnitRatio(close[i] - ll, hh - ll);
      }
    }
  }

  /** The window's lowest low and highest high bracket the day's close. */
  lemma WindowBracketsClose(high: seq<real>, low: seq<real>, close: seq<real>, n: nat, i: nat)
    requires |high| == |low| == |close| && 0 < n <= i + 1 && i < |close|
    requires low[i] <= close[i] <= high[i]
    ensures WindowMin(low[i + 1 - n..i + 1]) <= close[i] <= WindowMax(high[i + 1 - n..i + 1])
  {
    assert low[i + 1 - n..i + 1][n - 1] == low[i];
    assert high[i + 1 - n..i + 1][n - 1] == high[i];
  }

  /** x / w lies in [0, 1] for 0 <= x <= w, w > 0. */
  lemma UnitRatio(x: real, w: real)
    requires 0.0 <= x <= w && w > 0.0
    ensures 0.0 <= x / w <= 1.0
    ensures 0.0 <= x / w * 100.0 <= 100.0
  {
    var q := x / w;
    assert q * w == x;
  }

  datatype KdjLines = KdjLines(k: seq<real>, d: seq<real>, j: seq<real>)

  /** K smooths the RSV, D smooths K (both with com = 2, i.e. alpha 1/3),
      and J = 3K - 2D. The RSV series is the part after the window fills. */
  function Kdj(rsv: seq<real>): (r: KdjLines)
    ensures |r.k| == |r.d| == |r.j| == |rsv|
  {
    var k := Ema(rsv, 1.0 / 3.0);
    var d := Ema(k, 1.0 / 3.0);
    KdjLines(k, d, seq(|rsv|, i requires 0 <= i < |rsv| => 3.0 * k[i] - 2.0 * d[i]))
  }

  /** For RSV values in [0, 100], K and D stay in [0, 100], J in
      [-200, 300], and J leads K by twice K's lead over D. */
  lemma KdjBounds(rsv: seq<real>)
    requires forall i :: 0 <= i < |rsv| ==> 0.0 <= rsv[i] <= 100.0
    ensures var r := Kdj(rsv);
      forall i :: 0 <= i < |rsv| ==>
        0.0 <= r.k[i] <= 100.0 && 0.0 <= r.d[i] <= 100.0 && -200.0 <= r.j[i] <= 300.0 &&
        r.j[i] - r.k[i] == 2.0 * (r.k[i] - r.d[i])
  {
    var k := Ema(rsv, 1.0 / 3.0);
    EmaBounds(rsv, 1.0 / 3.0, 0.0, 100.0);
    EmaBounds(k, 1.0 / 3.0, 0.0, 100.0);
  }

  // ---------------------------------------------------------------------
  // RSI

  /** The RSI from the average gain and loss of the window: 100 - 100 /
      (1 + gain / loss). A zero loss makes the ratio infinite and the RSI
      100; a zero gain and loss leave it undefined (None). */
  function Rsi(avgGain: real, avgLoss: real): (r: Option<real>)
    ensures avgGain >= 0.0 && avgLoss >= 0.0 ==> (r.None? <==> avgGain == 0.0 && avgLoss == 0.0)
    ensures avgLoss == 0.0 && avgGain != 0.0 ==> r == Some(100.0)
    ensures avgGain == 0.0 && avgLoss > 0.0 ==> r == Some(0.0)
  {
    if avgLoss == 0.0 then (if avgGain == 0.0 then None else Some(100.0))
    else
      var rs := avgGain / avgLoss;
      if 1.0 + rs == 0.0 then None
      else Some(100.0 - 100.0 / (1.0 + rs))
  }

  /** For non-negative averages the RSI is the gain's share of the total
      movement, in percent, hence in [0, 100]. */
  lemma RsiIsGainShare(avgGain: real, avgLoss: real)
    requires avgGain >= 0.0 && avgLoss >= 0.0 && avgGain + avgLoss > 0.0
    ensures Rsi(avgGain, avgLoss) == Some(100.0 * avgGain / (avgGain + avgLoss))
    ensures 0.0 <= Rsi(avgGain, avgLoss).value <= 100.0
  {
    var total := avgGain + avgLoss;
    var share := 100.0 * avgGain / total;
    assert share * total == 100.0 * avgGain;
    if avgLoss == 0.0 {
      Cancel(share, 100.0, total);
    } else {
      var rs := avgGain / avgLoss;
      assert rs * avgLoss == avgGain;
      assert 1.0 + rs > 0.0 by {
        if rs < 0.0 { assert rs * avgLoss < 0.0; }
      }
      var inv := 100.0 / (1.0 + rs);
      assert inv * (1.0 + rs) == 100.0;
      assert (1.0 + rs) * avgLoss == total;
      assert inv * total == 100.0 * avgLoss by {
        assert inv * total == inv * ((1.0 + rs) * avgLoss);
        assert inv * ((1.0 + rs) * avgLoss) == (inv * (1.0 + rs)) * avgLoss;
      }
      assert (100.0 - inv) * total == 100.0 * avgGain;
      Cancel(100.0 - inv, share, total);
    }
    UnitRatio(avgGain, total);
    assert share == avgGain / total * 100.0;
  }

  /** Equal multiples of a positive number have equal factors. */
  lemma Cancel(a: real, b: real, t: real)
    requires t > 0.0 && a * t == b * t
    ensures a == b
  {
    assert (a - b) * t == 0.0;
  }

  // ---------------------------------------------------------------------
  // ADX directional movement

  function ClipNegative(x: real): real
  {
    if x < 0.0 then 0.0 else x
  }

  /** +DM after masking: the clipped rise of the high, kept only when it
      beats the clipped fall of the low. */
  function MaskedPlus(up: real, down: real): real
  {
    var p, m := ClipNegative(up), ClipNegative(down);
    if p <= m then 0.0 else p
  }

  /** -DM after masking, compared against the already masked +DM. */
  function MaskedMinus(up: real, down: real): real
  {
    var m := ClipNegative(down);
    if m <= MaskedPlus(up, down) then 0.0 else m
  }

  /** Both movements are non-negative, never both positive, and each is
      positive exactly when its side moved further, and by a positive
      amount. */
  lemma MaskedMovementExclusive(up: real, down: real)
    ensures MaskedPlus(up, down) >= 0.0 && MaskedMinus(up, down) >= 0.0
    ensures !(MaskedPlus(up, down) > 0.0 && MaskedMinus(up, down) > 0.0)
    ensures MaskedPlus(up, down) > 0.0 <==> up > 0.0 && up > down
    ensures MaskedMinus(up, down) > 0.0 <==> down > 0.0 && down >= up
  {
  }

  /** The day-over-day movements of days 1 .. n-1 (the first difference is
      NaN and left out): the rise of the high and the fall of the low, then
      masked in place in the source's order. */
  method DirectionalMovement(high: seq<real>, low: seq<real>) returns (plusDm: array<real>, minusDm: array<real>)
    requires |high| == |low| > 0
    ensures fresh(plusDm) && fresh(minusDm) && plusDm != minusDm
    ensures plusDm.Length == minusDm.Length == |high| - 1
    ensures forall j :: 0 <= j < plusDm.Length ==>
      plusDm[j] == MaskedPlus(high[j + 1] - high[j], low[j] - low[j + 1]) &&
      minusDm[j] == MaskedMinus(high[j + 1] - high[j], low[j] - low[j + 1])
  {
    plusDm, minusDm := ClippedMovement(high, low);
    MaskInPlace(plusDm, minusDm);
    assert forall j :: 0 <= j < plusDm.Length ==>
      plusDm[j] == MaskedPlus(high[j + 1] - high[j], low[j] - low[j + 1]) &&
      minusDm[j] == ClipNegative(low[j] - low[j + 1]);
    MaskInPlace(minusDm, plusDm);
  }

  /** The rise of the high and the fall of the low, each clipped at 0. */
  method ClippedMovement(high: seq<real>, low: seq<real>) returns (plusDm: array<real>, minusDm: array<real>)
    requires |high| == |low| > 0
    ensures fresh(plusDm) && fresh(minusDm) && plusDm != minusDm
    ensures plusDm.Length == minusDm.Length == |high| - 1
    ensures forall j :: 0 <= j < plusDm.Length ==>
      plusDm[j] == ClipNegative(high[j + 1] - high[j]) && minusDm[j] == ClipNegative(low[j] - low[j + 1])
  {
    var n := |high| - 1;
    plusDm := new real[n](j requires 0 <= j < n => high[j + 1] - high[j]);
    minusDm := new real[n](j requires 0 <= j < n => low[j] - low[j + 1]);
    ClipInPlace(plusDm);
    ClipInPlace(minusDm);
  }

  /** Sets every negative element to 0. */
  method ClipInPlace(a: array<real>)
    modifies a
    ensures forall k :: 0 <= k < a.Length ==> a[k] == ClipNegative(old(a[k]))
  {
    for j := 0 to a.Length
      invariant forall k :: 0 <= k < j ==> a[k] == ClipNegative(old(a[k]))
      invariant forall k :: j <= k < a.Length ==> a[k] == old(a[k])
    {
      if a[j] < 0.0 {
        a[j] := 0.0;
      }
    }
  }

  /** Sets to 0 every element of a no larger than the element of b at the
      same place; b is left as it is. */
  method MaskInPlace(a: array<real>, b: array<real>)
    requires a != b && a.Length == b.Length
    modifies a
    ensures forall k :: 0 <= k < a.Length ==> a[k] == if old(a[k]) <= b[k] then 0.0 else old(a[k])
  {
    for j := 0 to a.Length
      invariant forall k :: 0 <= k < j ==> a[k] == if old(a[k]) <= b[k] then 0.0 else old(a[k])
      invariant forall k :: j <= k < a.Length ==> a[k] == old(a[k])
    {
      if a[j] <= b[j] {
        a[j] := 0.0;
      }
    }
  }

  // ---------------------------------------------------------------------
  // Derived flags

  /** +1 above the signal line, -1 below, 0 on it. */
  function MacdCross(macd: real, signal: real): (c: int)
    ensures c == Sign(macd - signal)
  {
    if macd > signal then 1 else if macd < signal then -1 else 0
  }

  /** The cross flag is the sign of the MACD histogram. */
  lemma MacdCrossIsHistogramSign(close: seq<real>, fast: nat, slow: nat, signalSpan: nat, i: nat)
    requires fast >= 1 && slow >= 1 && signalSpan >= 1 && i < |close|
    ensures var m := Macd(close, fast, slow, signalSpan);
      MacdCross(m.macd[i], m.signal[i]) == Sign(m.histogram[i])
  {
  }

  /** Both K and D above 80. */
  predicate KdjOverbought(k: real, d: real) { k > 80.0 && d > 80.0 }

  /** Both K and D below 20. */
  predicate KdjOversold(k: real, d: real) { k < 20.0 && d < 20.0 }

  /** 1 when the 5, 10, 20 and 60-day averages are stacked in decreasing
      order, else 0. */
  function MaBullish(ma5: real, ma10: real, ma20: real, ma60: real): (b: int)
    ensures b == 0 || b == 1
    ensures b == 1 <==> ma5 > ma10 > ma20 > ma60
  {
    if ma5 > ma10 && ma10 > ma20 && ma20 > ma60 then 1 else 0
  }

  /** A bullish stack puts the shortest average above the longest; the two
      KDJ extremes exclude each other. */
  lemma DerivedFlagsConsistent(ma5: real, ma10: real, ma20: real, ma60: real, k: real, d: real)
    ensures MaBullish(ma5, ma10, ma20, ma60) == 1 ==> ma5 > ma60
    ensures !(KdjOverbought(k, d) && KdjOversold(k, d))
  {
  }
}
