/** What the curve says, told from the rows alone: which price values a holding, which cash counts. */
module Valuation {
  import opened Prelude
  import opened Execution
  import opened EquityCurve

  /** Row i is at or before t, and no later row is. */
  ghost predicate LastAt<T>(rows: seq<T>, time: T -> Time, t: Time, i: nat) {
    i < |rows| && time(rows[i]) <= t && forall k :: i < k < |rows| ==> time(rows[k]) > t
  }

  /** Bar i of series j is the symbol's last by t. */
  ghost predicate IsLastBar(series: seq<Series>, s: Symbol, t: Time, j: nat, i: nat) {
    j < |series| && series[j].symbol == s && LastAt(series[j].bars, BarTime, t, i)
  }

  /** Trade i is the symbol's last by t. */
  ghost predicate IsLastTrade(trades: seq<Trade>, s: Symbol, t: Time, i: nat) {
    && i < |trades| && trades[i].symbol == s && trades[i].time <= t
    && forall k :: i < k < |trades| && trades[k].symbol == s ==> trades[k].time > t
  }

  /** A bar of the symbol has closed by t. */
  ghost predicate HasClosed(series: seq<Series>, s: Symbol, t: Time) {
    exists j: nat, i: nat :: IsLastBar(series, s, t, j, i)
  }

  /** The close of the last bar by t; when no bar has closed yet, the price of the last trade. */
  ghost predicate IsPriceOf(price: real, series: seq<Series>, trades: seq<Trade>, s: Symbol, t: Time) {
    if HasClosed(series, s, t)
    then exists j: nat, i: nat :: IsLastBar(series, s, t, j, i) && price == series[j].bars[i].close
    else exists i: nat :: IsLastTrade(trades, s, t, i) && price == trades[i].price
  }

  // --------------------------------------------------------------------- last rows

  lemma {:induction false} LastOfUpTo<T>(rows: seq<T>, time: T -> Time, t: Time, i: nat)
    requires LastAt(rows, time, t, i)
    ensures UpTo(rows, time, t) != [] && UpTo(rows, time, t)[|UpTo(rows, time, t)| - 1] == rows[i]
  {
    if i < |rows| - 1 {
      var front := rows[..|rows| - 1];
      assert time(rows[|rows| - 1]) > t;
      LastOfUpTo(front, time, t, i);
      assert UpTo(front, time, t) + [] == UpTo(front, time, t);
    }
  }

  lemma {:induction false} LastRowExists<T>(rows: seq<T>, time: T -> Time, t: Time) returns (i: nat)
    requires UpTo(rows, time, t) != []
    ensures LastAt(rows, time, t, i)
  {
    i := |rows| - 1;
    if time(rows[i]) > t {
      var front := rows[..i];
      assert UpTo(front, time, t) + [] == UpTo(front, time, t);
      i := LastRowExists(front, time, t);
      assert forall k :: 0 <= k < |front| ==> front[k] == rows[k];
    }
  }

  lemma {:induction false} MarkIsLastClose(series: seq<Series>, s: Symbol, t: Time, j: nat, i: nat)
    requires DistinctSymbols(series) && IsLastBar(series, s, t, j, i)
    ensures s in Marks(series, t) && Marks(series, t)[s] == series[j].bars[i].close
  {
    var n := |series| - 1;
    if j == n {
      LastOfUpTo(series[n].bars, BarTime, t, i);
    } else {
      assert series[n].symbol != s;
      MarkIsLastClose(series[..n], s, t, j, i);
    }
  }

  lemma {:induction false} MarkedHasClosed(series: seq<Series>, s: Symbol, t: Time)
    requires s in Marks(series, t)
    ensures HasClosed(series, s, t)
  {
    var n := |series| - 1;
    if s in Marks(series[..n], t) {
      MarkedHasClosed(series[..n], s, t);
      var j: nat, i: nat :| IsLastBar(series[..n], s, t, j, i);
      assert IsLastBar(series, s, t, j, i);
    } else {
      var i := LastRowExists(series[n].bars, BarTime, t);
      assert IsLastBar(series, s, t, n, i);
    }
  }

  lemma {:induction false} LastPriceIsLastTrade(trades: seq<Trade>, s: Symbol, i: nat)
    requires i < |trades| && trades[i].symbol == s && forall k :: i < k < |trades| ==> trades[k].symbol != s
    ensures s in LastPrices(trades) && LastPrices(trades)[s] == trades[i].price
  {
    if i < |trades| - 1 { LastPriceIsLastTrade(trades[..|trades| - 1], s, i); }
  }

  lemma {:induction false} HeldWasTraded(trades: seq<Trade>, s: Symbol) returns (i: nat)
    requires s in Holdings(trades)
    ensures i < |trades| && trades[i].symbol == s && forall k :: i < k < |trades| ==> trades[k].symbol != s
  {
    i := |trades| - 1;
    if trades[i].symbol != s { i := HeldWasTraded(trades[..i], s); }
  }

  /** The last trade among those behind the cursor is the last by t. */
  lemma {:induction false} LastTradeIsBehindCursor(trades: seq<Trade>, s: Symbol, t: Time, n: nat, i: nat)
    requires InOrder(trades, TradeTime) && n <= |trades| && StandsAt(trades, TradeTime, t, n)
    ensures IsLastTrade(trades, s, t, i) <==>
            i < n && trades[i].symbol == s && forall k :: i < k < n ==> trades[k].symbol != s
  {
    forall k | 0 <= k < |trades| ensures trades[k].time <= t <==> k < n {
      if k < n {
        assert TradeTime(trades[k]) <= TradeTime(trades[n - 1]);
      } else {
        assert TradeTime(trades[n]) <= TradeTime(trades[k]);
      }
    }
  }

  // ---------------------------------------------------------------- one symbol's worth

  /** Among these prices is the one that counts: the mark, or without one the trade price. */
  predicate Counts(price: real, s: Symbol, marks: map<Symbol, real>, prices: map<Symbol, real>) {
    if s in marks then marks[s] == price else s in prices && prices[s] == price
  }

  lemma {:induction false} PriceCounts(series: seq<Series>, trades: seq<Trade>, s: Symbol, t: Time, n: nat, price: real)
    requires DistinctSymbols(series) && InOrder(trades, TradeTime)
    requires n <= |trades| && StandsAt(trades, TradeTime, t, n) && IsPriceOf(price, series, trades, s, t)
    ensures Counts(price, s, Marks(series, t), LastPrices(trades[..n]))
  {
    if HasClosed(series, s, t) {
      var j: nat, i: nat :| IsLastBar(series, s, t, j, i) && price == series[j].bars[i].close;
      MarkIsLastClose(series, s, t, j, i);
    } else {
      var i: nat :| IsLastTrade(trades, s, t, i) && price == trades[i].price;
      LastTradeIsBehindCursor(trades, s, t, n, i);
      LastPriceIsLastTrade(trades[..n], s, i);
      if s in Marks(series, t) { MarkedHasClosed(series, s, t); }
    }
  }

  lemma {:induction false} WorthAtPrice(s: Symbol, qty: real, price: real, marks: map<Symbol, real>,
                                        prices: map<Symbol, real>)
    requires Counts(price, s, marks, prices)
    ensures Worth(s, qty, marks, prices) == qty * price
  {
  }

  /** Everything held has a price. */
  lemma {:induction false} HeldHasPrice(series: seq<Series>, trades: seq<Trade>, s: Symbol, t: Time, n: nat)
    returns (price: real)
    requires InOrder(trades, TradeTime) && n <= |trades| && StandsAt(trades, TradeTime, t, n)
    requires s in Holdings(trades[..n])
    ensures IsPriceOf(price, series, trades, s, t)
  {
    if HasClosed(series, s, t) {
      var j: nat, i: nat :| IsLastBar(series, s, t, j, i);
      price := series[j].bars[i].close;
    } else {
      var i := HeldWasTraded(trades[..n], s);
      LastTradeIsBehindCursor(trades, s, t, n, i);
      price := trades[i].price;
    }
  }

  // -------------------------------------------------------------------- the whole sum

  function Same(v: real): real { v }

  /** The values of the listed symbols, as a table. */
  function Among(symbols: seq<Symbol>, values: map<Symbol, real>): map<Symbol, real> {
    map s | s in values && s in symbols :: values[s]
  }

  lemma {:induction false} AmongGrows(front: seq<Symbol>, s: Symbol, values: map<Symbol, real>)
    requires s !in front && s in values
    ensures Among(front + [s], values) == Among(front, values)[s := values[s]]
    ensures s !in Among(front, values)
  {
  }

  /** The values are what the sweep takes the listed holdings to be worth. */
  ghost predicate Worths(symbols: seq<Symbol>, held: map<Symbol, real>, marks: map<Symbol, real>,
                         prices: map<Symbol, real>, values: map<Symbol, real>)
  {
    forall s :: s in symbols ==> s in held && s in values && values[s] == Worth(s, held[s], marks, prices)
  }

  lemma {:induction false} SumGrows(front: seq<Symbol>, s: Symbol, values: map<Symbol, real>)
    requires s !in front && s in values
    ensures SumMap(Among(front + [s], values), Same) == SumMap(Among(front, values), Same) + values[s]
  {
    AmongGrows(front, s, values);
    SumMapAfterWrite(Among(front, values), Same, s, values[s]);
  }

  lemma {:induction false} MarketWorthGrows(front: seq<Symbol>, s: Symbol, held: map<Symbol, real>,
                                            marks: map<Symbol, real>, prices: map<Symbol, real>)
    requires s in held
    ensures MarketWorth(front + [s], held, marks, prices)
         == MarketWorth(front, held, marks, prices) + Worth(s, held[s], marks, prices)
  {
    assert (front + [s])[..|front|] == front;
  }

  lemma {:induction false} PrefixGrows(symbols: seq<Symbol>, k: nat)
    requires k < |symbols| && forall i, j :: 0 <= i < j < |symbols| ==> symbols[i] < symbols[j]
    ensures symbols[..k + 1] == symbols[..k] + [symbols[k]] && symbols[k] !in symbols[..k]
  {
  }

  lemma {:induction false} MarketWorthIsSum(symbols: seq<Symbol>, held: map<Symbol, real>, marks: map<Symbol, real>,
                                            prices: map<Symbol, real>, values: map<Symbol, real>)
    requires forall i, j :: 0 <= i < j < |symbols| ==> symbols[i] < symbols[j]
    requires Worths(symbols, held, marks, prices, values)
    ensures MarketWorth(symbols, held, marks, prices) == SumMap(Among(symbols, values), Same)
  {
    assert Among(symbols[..0], values) == map[];
    for k := 0 to |symbols|
      invariant MarketWorth(symbols[..k], held, marks, prices) == SumMap(Among(symbols[..k], values), Same)
    {
      PrefixGrows(symbols, k);
      SumGrows(symbols[..k], symbols[k], values);
      MarketWorthGrows(symbols[..k], symbols[k], held, marks, prices);
    }
    assert symbols[..|symbols|] == symbols;
  }

  /** A quantity of a symbol at its price at t. */
  ghost predicate IsValueOf(value: real, qty: real, series: seq<Series>, trades: seq<Trade>, s: Symbol, t: Time) {
    exists price: real :: IsPriceOf(price, series, trades, s, t) && value == qty * price
  }

  /** What is held at t, each symbol at its quantity times its price. */
  ghost predicate ValuesHoldings(values: map<Symbol, real>, held: map<Symbol, real>, series: seq<Series>,
                                 trades: seq<Trade>, t: Time)
  {
    && values.Keys == held.Keys
    && forall s :: s in held ==> IsValueOf(values[s], held[s], series, trades, s, t)
  }

  lemma {:induction false} ValueIsWorth(series: seq<Series>, trades: seq<Trade>, s: Symbol, t: Time, n: nat,
                                        value: real, qty: real)
    requires DistinctSymbols(series) && InOrder(trades, TradeTime)
    requires n <= |trades| && StandsAt(trades, TradeTime, t, n) && IsValueOf(value, qty, series, trades, s, t)
    ensures value == Worth(s, qty, Marks(series, t), LastPrices(trades[..n]))
  {
    var price: real :| IsPriceOf(price, series, trades, s, t) && value == qty * price;
    PriceCounts(series, trades, s, t, n, price);
    WorthAtPrice(s, qty, price, Marks(series, t), LastPrices(trades[..n]));
  }

  lemma {:induction false} HeldWorthIsSum(held: map<Symbol, real>, marks: map<Symbol, real>, prices: map<Symbol, real>,
                                          values: map<Symbol, real>)
    requires values.Keys == held.Keys && forall s :: s in held ==> values[s] == Worth(s, held[s], marks, prices)
    ensures HeldWorth(held, marks, prices) == SumMap(values, Same)
  {
    var symbols := SortedKeys(held.Keys);
    AmongAll(symbols, values);
    MarketWorthIsSum(symbols, held, marks, prices, values);
  }

  lemma {:induction false} AmongAll(symbols: seq<Symbol>, values: map<Symbol, real>)
    requires forall s :: s in values ==> s in symbols
    ensures Among(symbols, values) == values
  {
  }

  lemma {:induction false} HoldingsAreWorthTheirSum(series: seq<Series>, trades: seq<Trade>, t: Time, n: nat,
                                                    values: map<Symbol, real>, held: map<Symbol, real>,
                                                    marks: map<Symbol, real>, prices: map<Symbol, real>)
    requires DistinctSymbols(series) && InOrder(trades, TradeTime)
    requires n <= |trades| && StandsAt(trades, TradeTime, t, n) && ValuesHoldings(values, held, series, trades, t)
    requires marks == Marks(series, t) && prices == LastPrices(trades[..n])
    ensures HeldWorth(held, marks, prices) == SumMap(values, Same)
  {
    forall s | s in held ensures values[s] == Worth(s, held[s], marks, prices) {
      ValueIsWorth(series, trades, s, t, n, values[s], held[s]);
    }
    HeldWorthIsSum(held, marks, prices, values);
  }

  /** Equity is the latest cash plus, over everything held, quantity times the close of the last
      bar by then, or the price of the last trade while no bar has closed. */
  lemma {:induction false} EquityIsCashPlusHoldings(series: seq<Series>, snapshots: seq<Snapshot>, trades: seq<Trade>,
                                                    t: Time, c: nat, n: nat, values: map<Symbol, real>)
    requires Sorted(series, snapshots, trades)
    requires LastAt(snapshots, SnapshotTime, t, c) && n <= |trades| && StandsAt(trades, TradeTime, t, n)
    requires ValuesHoldings(values, Holdings(trades[..n]), series, trades, t)
    ensures EquityAt(series, snapshots, trades, t) == Some(snapshots[c].total + SumMap(values, Same))
  {
    var held, marks, prices := Holdings(trades[..n]), Marks(series, t), LastPrices(trades[..n]);
    HoldingsAreWorthTheirSum(series, trades, t, n, values, held, marks, prices);
    EquityOfParts(series, snapshots, trades, t, c, n, held, marks, prices, SumMap(values, Same));
  }

  lemma {:induction false} EquityOfParts(series: seq<Series>, snapshots: seq<Snapshot>, trades: seq<Trade>, t: Time,
                                         c: nat, n: nat, held: map<Symbol, real>, marks: map<Symbol, real>,
                                         prices: map<Symbol, real>, worth: real)
    requires Sorted(series, snapshots, trades) && LastAt(snapshots, SnapshotTime, t, c)
    requires n <= |trades| && StandsAt(trades, TradeTime, t, n) && marks == Marks(series, t)
    requires held == Holdings(trades[..n]) && prices == LastPrices(trades[..n])
    requires worth == HeldWorth(held, marks, prices)
    ensures EquityAt(series, snapshots, trades, t) == Some(snapshots[c].total + worth)
  {
    LastOfUpTo(snapshots, SnapshotTime, t, c);
    CursorCuts(trades, TradeTime, t, n);
    EquityFrom(series, snapshots, trades, t, UpTo(snapshots, SnapshotTime, t), held, marks, prices,
               snapshots[c].total + worth);
  }

  lemma {:induction false} HeldHasValue(series: seq<Series>, trades: seq<Trade>, s: Symbol, t: Time, n: nat)
    returns (value: real)
    requires InOrder(trades, TradeTime) && n <= |trades| && StandsAt(trades, TradeTime, t, n)
    requires s in Holdings(trades[..n])
    ensures IsValueOf(value, Holdings(trades[..n])[s], series, trades, s, t)
  {
    var price := HeldHasPrice(series, trades, s, t, n);
    value := Holdings(trades[..n])[s] * price;
  }

  lemma {:induction false} ValuesExist(series: seq<Series>, trades: seq<Trade>, t: Time, n: nat,
                                       held: map<Symbol, real>, symbols: seq<Symbol>)
    returns (values: map<Symbol, real>)
    requires InOrder(trades, TradeTime) && n <= |trades| && StandsAt(trades, TradeTime, t, n)
    requires held == Holdings(trades[..n]) && forall s :: s in symbols ==> s in held
    ensures forall s :: s in values <==> s in symbols
    ensures forall s :: s in symbols ==> IsValueOf(values[s], held[s], series, trades, s, t)
  {
    if symbols == [] {
      values := map[];
    } else {
      var s := symbols[|symbols| - 1];
      values := ValuesExist(series, trades, t, n, held, symbols[..|symbols| - 1]);
      var value := HeldHasValue(series, trades, s, t, n);
      values := values[s := value];
    }
  }

  /** Such a valuation always exists. */
  lemma {:induction false} HoldingsHaveValues(series: seq<Series>, trades: seq<Trade>, t: Time, n: nat)
    returns (values: map<Symbol, real>)
    requires InOrder(trades, TradeTime) && n <= |trades| && StandsAt(trades, TradeTime, t, n)
    ensures ValuesHoldings(values, Holdings(trades[..n]), series, trades, t)
  {
    var held := Holdings(trades[..n]);
    values := ValuesExist(series, trades, t, n, held, SortedKeys(held.Keys));
  }

  // ------------------------------------------------------------------- the whole curve

  lemma {:induction false} AllTimesAreBarTimes(series: seq<Series>, t: Time)
    ensures t in AllTimes(series) <==>
            exists j, i :: 0 <= j < |series| && 0 <= i < |series[j].bars| && series[j].bars[i].endTime == t
  {
    if series != [] {
      var front, last := series[..|series| - 1], series[|series| - 1];
      AllTimesAreBarTimes(front, t);
      assert forall j :: 0 <= j < |front| ==> front[j] == series[j];
    }
  }

  lemma {:induction false} RebasedPoints(points: seq<Point>, baseline: real)
    ensures |WithBaseline(points, baseline)| == |points|
    ensures forall i :: 0 <= i < |points| ==> WithBaseline(points, baseline)[i] == points[i].(baseline := baseline)
  {
    if points != [] { RebasedPoints(points[..|points| - 1], baseline); }
  }

  lemma {:induction false} CashPointsAreSnapshots(snapshots: seq<Snapshot>, baseline: real)
    ensures |CashPoints(snapshots, baseline)| == |snapshots|
    ensures forall i :: 0 <= i < |snapshots| ==>
      CashPoints(snapshots, baseline)[i] == Point(snapshots[i].time, snapshots[i].total, baseline)
  {
    if snapshots != [] { CashPointsAreSnapshots(snapshots[..|snapshots| - 1], baseline); }
  }

  /** Some bar ends at t. */
  ghost predicate EndsABar(series: seq<Series>, t: Time) {
    exists j, i :: 0 <= j < |series| && 0 <= i < |series[j].bars| && series[j].bars[i].endTime == t
  }

  /** There is a point for each of these times, and for no other. */
  ghost predicate PointsAt(points: seq<Point>, times: Time -> bool) {
    && (forall i :: 0 <= i < |points| ==> times(points[i].time))
    && (forall t: Time :: times(t) ==> exists i :: 0 <= i < |points| && points[i].time == t)
  }

  /** The curve: its times are the ends of bars from the first snapshot on, each once and in
      order, its values the equity then, its baseline the first value. Without any bar it
      is the snapshots themselves. */
  ghost predicate TellsTheCurve(points: seq<Point>, series: seq<Series>, snapshots: seq<Snapshot>, trades: seq<Trade>)
  {
    if snapshots == [] then points == []
    else if forall t: Time :: !EndsABar(series, t) then
      |points| == |snapshots| && forall i :: 0 <= i < |points| ==>
        points[i] == Point(snapshots[i].time, snapshots[i].total, snapshots[0].total)
    else OneEach(points, series, snapshots, trades)
  }

  ghost predicate OneEach(points: seq<Point>, series: seq<Series>, snapshots: seq<Snapshot>, trades: seq<Trade>)
    requires snapshots != []
  {
    && (forall i, j :: 0 <= i < j < |points| ==> points[i].time < points[j].time)
    && PointsAt(points, t => EndsABar(series, t) && snapshots[0].time <= t)
    && (forall i :: 0 <= i < |points| ==>
          EquityAt(series, snapshots, trades, points[i].time) == Some(points[i].value)
          && points[i].baseline == points[0].value)
  }

  lemma {:induction false} CurveIsEquityOverTime(series: seq<Series>, snapshots: seq<Snapshot>, trades: seq<Trade>)
    requires InOrder(snapshots, SnapshotTime)
    ensures TellsTheCurve(Curve(series, snapshots, trades), series, snapshots, trades)
  {
    forall t: Time ensures t in AllTimes(series) <==> EndsABar(series, t) { AllTimesAreBarTimes(series, t); }
    if snapshots != [] {
      var timeline := Timeline(AllTimes(series));
      if timeline == [] {
        assert forall t: Time :: EndsABar(series, t) ==> t in timeline;
        CashPointsAreSnapshots(snapshots, snapshots[0].total);
      } else {
        assert timeline[0] in AllTimes(series);
        BarsGiveOnePointEach(series, snapshots, trades, timeline);
      }
    }
  }

  lemma {:induction false} BarsGiveOnePointEach(series: seq<Series>, snapshots: seq<Snapshot>, trades: seq<Trade>,
                                                timeline: seq<Time>)
    requires snapshots != [] && InOrder(snapshots, SnapshotTime) && timeline == Timeline(AllTimes(series))
    requires timeline != [] && forall t: Time :: t in AllTimes(series) <==> EndsABar(series, t)
    ensures OneEach(Curve(series, snapshots, trades), series, snapshots, trades)
  {
    var over, first := EquityOver(series, snapshots, trades), snapshots[0].total;
    OnePointPerInstant(series, snapshots, trades, timeline, first);
    var swept := Points(over, timeline, first);
    if swept != [] { RebasedPoints(swept, swept[0].value); }
    RebasedOneEach(series, snapshots, trades, timeline, over, swept, Curve(series, snapshots, trades));
  }

  lemma {:induction false} RebasedOneEach(series: seq<Series>, snapshots: seq<Snapshot>, trades: seq<Trade>,
                                          timeline: seq<Time>, over: Time -> Option<real>, swept: seq<Point>,
                                          points: seq<Point>)
    requires snapshots != [] && over == EquityOver(series, snapshots, trades) && Follows(swept, over, timeline)
    requires forall t :: over(t).Some? <==> snapshots[0].time <= t
    requires forall t: Time :: t in timeline <==> EndsABar(series, t)
    requires |points| == |swept|
    requires forall i :: 0 <= i < |points| ==> points[i] == swept[i].(baseline := swept[0].value)
    ensures OneEach(points, series, snapshots, trades)
  {
    forall t: Time | EndsABar(series, t) && snapshots[0].time <= t
      ensures exists i :: 0 <= i < |points| && points[i].time == t
    {
      assert over(t).Some?;
      var i :| 0 <= i < |swept| && swept[i].time == t;
      assert points[i].time == t;
    }
    forall i | 0 <= i < |points|
      ensures EndsABar(series, points[i].time) && snapshots[0].time <= points[i].time
      ensures EquityAt(series, snapshots, trades, points[i].time) == Some(points[i].value)
    {
      assert swept[i].time in timeline && over(swept[i].time) == Some(swept[i].value);
      assert over(swept[i].time).Some?;
    }
  }

  // ------------------------------------------------------------------ what is held

  /** Bought less sold of a symbol over the first k trades. */
  function Net(trades: seq<Trade>, s: Symbol, k: nat): real
    requires k <= |trades|
  {
    if k == 0 then 0.0
    else
      var f := trades[k - 1];
      Net(trades, s, k - 1) + if f.symbol != s then 0.0 else if f.side == Buy then f.qty else -f.qty
  }

  function QtyHeld(trades: seq<Trade>, s: Symbol): real {
    if s in Holdings(trades) then Holdings(trades)[s] else 0.0
  }

  lemma {:induction false} NetOfPrefix(trades: seq<Trade>, s: Symbol, n: nat, k: nat)
    requires k <= n <= |trades|
    ensures Net(trades[..n], s, k) == Net(trades, s, k)
  {
    if k > 0 { NetOfPrefix(trades, s, n, k - 1); }
  }

  lemma {:induction false} HeldAfterOne(trades: seq<Trade>, s: Symbol)
    requires trades != []
    ensures
      var n := |trades| - 1;
      QtyHeld(trades, s) == MaxReal(0.0, QtyHeld(trades[..n], s) + Net(trades, s, n + 1) - Net(trades, s, n))
    ensures QtyHeld(trades[..|trades| - 1], s) >= 0.0 ==> QtyHeld(trades, s) >= 0.0
  {
    var n := |trades| - 1;
    HeldIsNotNegative(trades[..n], s);
    if trades[n].symbol == s { assert QtyHeld(trades, s) >= 0.0; }
  }

  lemma {:induction false} HeldIsNotNegative(trades: seq<Trade>, s: Symbol)
    ensures s in Holdings(trades) ==> Holdings(trades)[s] > 0.0
  {
    if trades != [] { HeldIsNotNegative(trades[..|trades| - 1], s); }
  }

  /** What is held of a symbol is what has come in on balance since the balance was last at its lowest:
      selling more than is held starts again from nothing. */
  lemma {:induction false} HeldSinceLowest(trades: seq<Trade>, s: Symbol)
    ensures forall k :: 0 <= k <= |trades| ==> QtyHeld(trades, s) >= Net(trades, s, |trades|) - Net(trades, s, k)
    ensures exists k :: 0 <= k <= |trades| && QtyHeld(trades, s) == Net(trades, s, |trades|) - Net(trades, s, k)
  {
    var n := |trades|;
    if n == 0 {
      assert QtyHeld(trades, s) == Net(trades, s, 0) - Net(trades, s, 0);
    } else {
      HeldSinceLowest(trades[..n - 1], s);
      HeldAfterOne(trades, s);
      NetOfPrefix(trades, s, n - 1, n - 1);
      forall k | 0 <= k <= n ensures QtyHeld(trades, s) >= Net(trades, s, n) - Net(trades, s, k) {
        if k < n { NetOfPrefix(trades, s, n - 1, k); }
      }
      if QtyHeld(trades, s) == 0.0 {
        assert QtyHeld(trades, s) == Net(trades, s, n) - Net(trades, s, n);
      } else {
        var k :| 0 <= k <= n - 1
                 && QtyHeld(trades[..n - 1], s) == Net(trades[..n - 1], s, n - 1) - Net(trades[..n - 1], s, k);
        NetOfPrefix(trades, s, n - 1, k);
        assert QtyHeld(trades, s) == Net(trades, s, n) - Net(trades, s, k);
      }
    }
  }
}
