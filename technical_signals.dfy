/** The trading signals generated from a table of indicator rows: five
    component signals (MACD, KDJ, RSI, Bollinger, MA20), each +1 (buy), -1
    (sell) or 0, and a composite vote over them.

    The crossing signals compare each row with the previous one; on the
    first row the previous values are NaN, every comparison with them is
    false, and the previous row is None here. */
module TechnicalSignals {
  import opened Common

  /** One row of the indicator table: the columns the signals read. */
  datatype Row = Row(macd: real, signal: real, k: real, d: real, rsi: real,
                     close: real, lower: real, upper: real, ma20: real)

  datatype Signals = Signals(macd: int, kdj: int, rsi: int, bb: int, ma: int, composite: int)

  /** +1 when x has just crossed above y (x > y today, x <= y yesterday),
      -1 when it has just crossed below, 0 otherwise. */
  function Cross(x: real, y: real, prev: Option<(real, real)>): (s: int)
    ensures -1 <= s <= 1
  {
    if x > y && prev.Some? && prev.value.0 <= prev.value.1 then 1
    else if x < y && prev.Some? && prev.value.0 >= prev.value.1 then -1
    else 0
  }

  /** A cross is a change of sign of the spread x - y: positive today and
      not positive yesterday for +1, negative today and not negative
      yesterday for -1. */
  lemma CrossIsSignChange(x: real, y: real, prev: Option<(real, real)>)
    ensures Cross(x, y, prev) == 1 <==>
      Sign(x - y) == 1 && prev.Some? && Sign(prev.value.0 - prev.value.1) <= 0
    ensures Cross(x, y, prev) == -1 <==>
      Sign(x - y) == -1 && prev.Some? && Sign(prev.value.0 - prev.value.1) >= 0
  {
  }

  /** The MACD golden (+1) and death (-1) cross of the signal line. */
  function MacdSignal(rows: seq<Row>, i: nat): (s: int)
    requires i < |rows|
    ensures -1 <= s <= 1
    ensures s == 1 <==>
      i > 0 && rows[i].macd > rows[i].signal && rows[i - 1].macd <= rows[i - 1].signal
    ensures s == -1 <==>
      i > 0 && rows[i].macd < rows[i].signal && rows[i - 1].macd >= rows[i - 1].signal
  {
    Cross(rows[i].macd, rows[i].signal, if i == 0 then None else Some((rows[i - 1].macd, rows[i - 1].signal)))
  }

  /** A K-over-D cross counts as a buy only while K is below 30, a cross
      under D as a sell only while K is above 70. */
  function KdjSignal(rows: seq<Row>, i: nat): (s: int)
    requires i < |rows|
    ensures -1 <= s <= 1
    ensures s == 1 <==>
      i > 0 && rows[i].k > rows[i].d && rows[i - 1].k <= rows[i - 1].d && rows[i].k < 30.0
    ensures s == -1 <==>
      i > 0 && rows[i].k < rows[i].d && rows[i - 1].k >= rows[i - 1].d && rows[i].k > 70.0
  {
    var c := Cross(rows[i].k, rows[i].d, if i == 0 then None else Some((rows[i - 1].k, rows[i - 1].d)));
    if c == 1 && rows[i].k < 30.0 then 1
    else if c == -1 && rows[i].k > 70.0 then -1
    else 0
  }

  /** +1 when the RSI has just fallen below 30, -1 when it has just risen
      above 70. */
  function RsiSignal(rows: seq<Row>, i: nat): (s: int)
    requires i < |rows|
    ensures -1 <= s <= 1
    ensures s == 1 <==> i > 0 && rows[i].rsi < 30.0 && rows[i - 1].rsi >= 30.0
    ensures s == -1 <==> i > 0 && rows[i].rsi > 70.0 && rows[i - 1].rsi <= 70.0
  {
    var r := rows[i].rsi;
    if r < 30.0 && i > 0 && rows[i - 1].rsi >= 30.0 then 1
    else if r > 70.0 && i > 0 && rows[i - 1].rsi <= 70.0 then -1
    else 0
  }

  /** +1 below the lower band, -1 above the upper band. */
  function BollingerSignal(row: Row): (s: int)
    ensures -1 <= s <= 1
    ensures row.lower <= row.close <= row.upper ==> s == 0
    ensures s == 1 <==> row.close < row.lower
    ensures s == -1 <==> row.lower <= row.close && row.close > row.upper
  {
    if row.close < row.lower then 1
    else if row.close > row.upper then -1
    else 0
  }

  /** The close crossing its 20-day average. */
  function MaSignal(rows: seq<Row>, i: nat): (s: int)
    requires i < |rows|
    ensures -1 <= s <= 1
    ensures s == 1 <==>
      i > 0 && rows[i].close > rows[i].ma20 && rows[i - 1].close <= rows[i - 1].ma20
    ensures s == -1 <==>
      i > 0 && rows[i].close < rows[i].ma20 && rows[i - 1].close >= rows[i - 1].ma20
  {
    Cross(rows[i].close, rows[i].ma20, if i == 0 then None else Some((rows[i - 1].close, rows[i - 1].ma20)))
  }

  /** The vote: buy on a net of at least two buys, sell on a net of at
      least two sells. */
  function Vote(total: int): (s: int)
    ensures s == 1 <==> total >= 2
    ensures s == -1 <==> total <= -2
    ensures s == 0 <==> -2 < total < 2
  {
    if total >= 2 then 1 else if total <= -2 then -1 else 0
  }

  function IntSum(xs: seq<int>): int
  {
    if xs == [] then 0 else IntSum(xs[..|xs| - 1]) + xs[|xs| - 1]
  }

  function CountOf(xs: seq<int>, v: int): nat
  {
    if xs == [] then 0 else CountOf(xs[..|xs| - 1], v) + (if xs[|xs| - 1] == v then 1 else 0)
  }

  /** The signals of row i. */
  function SignalsAt(rows: seq<Row>, i: nat): (s: Signals)
    requires i < |rows|
    ensures -1 <= s.composite <= 1
  {
    var m, k, r, b, a := MacdSignal(rows, i), KdjSignal(rows, i), RsiSignal(rows, i),
                         BollingerSignal(rows[i]), MaSignal(rows, i);
    Signals(m, k, r, b, a, Vote(m + k + r + b + a))
  }

  function Components(s: Signals): seq<int>
  {
    [s.macd, s.kdj, s.rsi, s.bb, s.ma]
  }

  /** The signal table, one entry per row. */
  function GenerateSignals(rows: seq<Row>): (t: seq<Signals>)
    ensures |t| == |rows|
    ensures forall i :: 0 <= i < |rows| ==> t[i] == SignalsAt(rows, i)
  {
    seq(|rows|, i requires 0 <= i < |rows| => SignalsAt(rows, i))
  }

  /** Every component signal is -1, 0 or +1. */
  lemma ComponentsInRange(rows: seq<Row>, i: nat)
    requires i < |rows|
    ensures forall c :: c in Components(SignalsAt(rows, i)) ==> -1 <= c <= 1
  {
  }

  /** For votes in [-1, 1] the total is at most the number of buys and at
      least minus the number of sells. */
  lemma {:induction false} SumBoundedByCounts(xs: seq<int>)
    requires forall c :: c in xs ==> -1 <= c <= 1
    ensures IntSum(xs) <= CountOf(xs, 1)
    ensures IntSum(xs) >= -(CountOf(xs, -1) as int)
  {
    if xs != [] {
      var init := xs[..|xs| - 1];
      assert forall c :: c in init ==> c in xs;
      assert xs[|xs| - 1] in xs;
      SumBoundedByCounts(init);
    }
  }

  /** A composite buy needs at least two component buys, a composite sell
      at least two component sells. */
  lemma CompositeNeedsTwoVotes(rows: seq<Row>, i: nat)
    requires i < |rows|
    ensures var s := SignalsAt(rows, i);
      (s.composite == 1 ==> CountOf(Components(s), 1) >= 2) &&
      (s.composite == -1 ==> CountOf(Components(s), -1) >= 2)
  {
    var s := SignalsAt(rows, i);
    ComponentsInRange(rows, i);
    SumOfFive(s.macd, s.kdj, s.rsi, s.bb, s.ma);
    SumBoundedByCounts(Components(s));
  }

  lemma SumOfFive(a: int, b: int, c: int, d: int, e: int)
    ensures IntSum([a, b, c, d, e]) == a + b + c + d + e
  {
    assert [a][..0] == [];
    assert IntSum([a]) == a;
    assert [a, b][..1] == [a];
    assert IntSum([a, b]) == a + b;
    assert [a, b, c][..2] == [a, b];
    assert IntSum([a, b, c]) == a + b + c;
    assert [a, b, c, d][..3] == [a, b, c];
    assert IntSum([a, b, c, d]) == a + b + c + d;
    assert [a, b, c, d, e][..4] == [a, b, c, d];
  }

  /** On the first row no crossing can be seen, so only the Bollinger
      signal can be non-zero and the vote is always 0. */
  lemma FirstRowQuiet(rows: seq<Row>)
    requires |rows| > 0
    ensures var s := SignalsAt(rows, 0);
      s.macd == 0 && s.kdj == 0 && s.rsi == 0 && s.ma == 0 && s.composite == 0
  {
  }

  /** The crossing signals fire on the day of the cross only: a buy (or
      sell) is never followed by another buy (or sell) of the same signal
      on the next row. */
  lemma EdgeTriggered(rows: seq<Row>, i: nat)
    requires 0 < i < |rows|
    ensures MacdSignal(rows, i) != 0 ==> MacdSignal(rows, i) != MacdSignal(rows, i - 1)
    ensures KdjSignal(rows, i) != 0 ==> KdjSignal(rows, i) != KdjSignal(rows, i - 1)
    ensures RsiSignal(rows, i) != 0 ==> RsiSignal(rows, i) != RsiSignal(rows, i - 1)
    ensures MaSignal(rows, i) != 0 ==> MaSignal(rows, i) != MaSignal(rows, i - 1)
  {
  }
}
