/** The equity curve: one sweep over sorted rows with a cursor into each of them. */
module EquityCurve {
  import opened Prelude
  import opened Execution
  import opened Costs
  import opened Ledger
  import opened LedgerRuns

  datatype Snapshot = Snapshot(time: Time, total: real)
  datatype Trade = Trade(time: Time, side: Side, symbol: Symbol, qty: real, price: real)
  datatype Bar = Bar(endTime: Time, close: real)
  datatype Series = Series(symbol: Symbol, bars: seq<Bar>)
  datatype Point = Point(time: Time, value: real, baseline: real)

  // -------------------------------------------------- the curve, instant by instant

  function SnapshotTime(s: Snapshot): Time { s.time }
  function TradeTime(f: Trade): Time { f.time }
  function BarTime(b: Bar): Time { b.endTime }

  /** The rows at or before t. */
  function UpTo<T>(rows: seq<T>, time: T -> Time, t: Time): seq<T> {
    if rows == [] then []
    else
      var last := rows[|rows| - 1];
      UpTo(rows[..|rows| - 1], time, t) + if time(last) <= t then [last] else []
  }

  predicate InOrder<T>(rows: seq<T>, time: T -> Time) {
    forall i, j :: 0 <= i < j < |rows| ==> time(rows[i]) <= time(rows[j])
  }

  /** One trade on the held quantities: a quantity that falls to zero or below is dropped. */
  function Hold(held: map<Symbol, real>, f: Trade): map<Symbol, real> {
    var before := if f.symbol in held then held[f.symbol] else 0.0;
    var after := if f.side == Buy then before + f.qty else before - f.qty;
    if after <= 0.0 then held - {f.symbol} else held[f.symbol := after]
  }

  function Holdings(trades: seq<Trade>): map<Symbol, real> {
    if trades == [] then map[] else Hold(Holdings(trades[..|trades| - 1]), trades[|trades| - 1])
  }

  function LastPrices(trades: seq<Trade>): map<Symbol, real> {
    if trades == [] then map[]
    else LastPrices(trades[..|trades| - 1])[trades[|trades| - 1].symbol := trades[|trades| - 1].price]
  }

  /** The last close at or before t of each symbol that has one. */
  function Marks(series: seq<Series>, t: Time): map<Symbol, real> {
    if series == [] then map[]
    else
      var before, s := Marks(series[..|series| - 1], t), series[|series| - 1];
      var seen := UpTo(s.bars, BarTime, t);
      if seen == [] then before else before[s.symbol := seen[|seen| - 1].close]
  }

  /** A held symbol is worth its last close, or else its last trade price, or else nothing. */
  function Worth(s: Symbol, qty: real, marks: map<Symbol, real>, prices: map<Symbol, real>): real {
    if s in marks then qty * marks[s] else if s in prices then qty * prices[s] else 0.0
  }

  function MarketWorth(symbols: seq<Symbol>, held: map<Symbol, real>, marks: map<Symbol, real>,
                       prices: map<Symbol, real>): real {
    if symbols == [] then 0.0
    else
      var s := symbols[|symbols| - 1];
      MarketWorth(symbols[..|symbols| - 1], held, marks, prices)
      + if s in held then Worth(s, held[s], marks, prices) else 0.0
  }

  function HeldWorth(held: map<Symbol, real>, marks: map<Symbol, real>, prices: map<Symbol, real>): real {
    MarketWorth(SortedKeys(held.Keys), held, marks, prices)
  }

  /** Equity at an instant, computed afresh: the latest cash at or before it, and everything
      held by then at its worth by then. None before the first snapshot. */
  function EquityAt(series: seq<Series>, snapshots: seq<Snapshot>, trades: seq<Trade>, t: Time): Option<real> {
    var cash := UpTo(snapshots, SnapshotTime, t);
    var done := UpTo(trades, TradeTime, t);
    if cash == [] then None
    else Some(cash[|cash| - 1].total + HeldWorth(Holdings(done), Marks(series, t), LastPrices(done)))
  }

  function EquityOver(series: seq<Series>, snapshots: seq<Snapshot>, trades: seq<Trade>): Time -> Option<real> {
    t => EquityAt(series, snapshots, trades, t)
  }

  /** One point per instant that has an equity. */
  function Points(equity: Time -> Option<real>, timeline: seq<Time>, baseline: real): seq<Point> {
    if timeline == [] then []
    else
      var t := timeline[|timeline| - 1];
      Points(equity, timeline[..|timeline| - 1], baseline)
      + if equity(t).Some? then [Point(t, equity(t).value, baseline)] else []
  }

  function WithBaseline(points: seq<Point>, baseline: real): seq<Point> {
    if points == [] then []
    else WithBaseline(points[..|points| - 1], baseline) + [points[|points| - 1].(baseline := baseline)]
  }

  function CashPoints(snapshots: seq<Snapshot>, baseline: real): seq<Point> {
    if snapshots == [] then []
    else
      var s := snapshots[|snapshots| - 1];
      CashPoints(snapshots[..|snapshots| - 1], baseline) + [Point(s.time, s.total, baseline)]
  }

  function BarTimes(bars: seq<Bar>): set<Time> { set i | 0 <= i < |bars| :: bars[i].endTime }

  function AllTimes(series: seq<Series>): set<Time> {
    if series == [] then {} else AllTimes(series[..|series| - 1]) + BarTimes(series[|series| - 1].bars)
  }

  lemma {:induction false} AnyOf<T>(s: set<T>) returns (x: T)
    requires s != {}
    ensures x in s
  {
    x :| x in s;
  }

  lemma {:induction false} EarliestExists(times: set<Time>)
    requires times != {}
    ensures exists t :: t in times && forall x :: x in times ==> t <= x
    decreases times
  {
    var x := AnyOf(times);
    if times - {x} == {} {
      assert times == {x};
    } else {
      EarliestExists(times - {x});
      var t :| t in times - {x} && forall y :: y in times - {x} ==> t <= y;
      var least := if t <= x then t else x;
      assert forall y :: y in times ==> y == x || y in times - {x};
      assert least in times && forall y :: y in times ==> least <= y;
    }
  }

  function Earliest(times: set<Time>): (t: Time)
    requires times != {}
    ensures t in times && forall x :: x in times ==> t <= x
  {
    EarliestExists(times);
    var t :| t in times && forall x :: x in times ==> t <= x;
    t
  }

  /** The instants of the curve, each once, in order. */
  function Timeline(times: set<Time>): (s: seq<Time>)
    ensures forall t :: t in s <==> t in times
    ensures forall i, j :: 0 <= i < j < |s| ==> s[i] < s[j]
    decreases times
  {
    if times == {} then []
    else
      var t := Earliest(times);
      [t] + Timeline(times - {t})
  }

  function Curve(series: seq<Series>, snapshots: seq<Snapshot>, trades: seq<Trade>): seq<Point> {
    if snapshots == [] then []
    else
      var timeline := Timeline(AllTimes(series));
      if timeline == [] then CashPoints(snapshots, snapshots[0].total)
      else
        var points := Points(EquityOver(series, snapshots, trades), timeline, snapshots[0].total);
        if points == [] then [] else WithBaseline(points, points[0].value)
  }

  // -------------------------------------------------------------- cursors and prefixes

  /** The cursor stands behind the last row at or before t. */
  predicate StandsAt<T>(rows: seq<T>, time: T -> Time, t: Time, cursor: nat) {
    && cursor <= |rows|
    && (cursor > 0 ==> time(rows[cursor - 1]) <= t)
    && (cursor < |rows| ==> time(rows[cursor]) > t)
  }

  lemma {:induction false} UpToNone<T>(rows: seq<T>, time: T -> Time, t: Time)
    requires forall i :: 0 <= i < |rows| ==> time(rows[i]) > t
    ensures UpTo(rows, time, t) == []
  {
    if rows != [] { UpToNone(rows[..|rows| - 1], time, t); }
  }

  lemma {:induction false} UpToAll<T>(rows: seq<T>, time: T -> Time, t: Time)
    requires forall i :: 0 <= i < |rows| ==> time(rows[i]) <= t
    ensures UpTo(rows, time, t) == rows
  {
    if rows != [] {
      UpToAll(rows[..|rows| - 1], time, t);
      assert rows == rows[..|rows| - 1] + [rows[|rows| - 1]];
    }
  }

  lemma {:induction false} UpToOfBoth<T>(a: seq<T>, b: seq<T>, time: T -> Time, t: Time)
    ensures UpTo(a + b, time, t) == UpTo(a, time, t) + UpTo(b, time, t)
  {
    if b == [] {
      assert a + b == a;
    } else {
      UpToOfBoth(a, b[..|b| - 1], time, t);
      assert (a + b)[..|a + b| - 1] == a + b[..|b| - 1];
    }
  }

  /** In sorted rows, what is at or before t is what lies before the cursor. */
  lemma {:induction false} CursorCuts<T>(rows: seq<T>, time: T -> Time, t: Time, cursor: nat)
    requires InOrder(rows, time) && cursor <= |rows| && StandsAt(rows, time, t, cursor)
    ensures UpTo(rows, time, t) == rows[..cursor]
  {
    var a, b := rows[..cursor], rows[cursor..];
    assert rows == a + b;
    forall i | 0 <= i < |a| ensures time(a[i]) <= t {
      if i < cursor - 1 { assert time(rows[i]) <= time(rows[cursor - 1]); }
    }
    forall i | 0 <= i < |b| ensures time(b[i]) > t {
      if i > 0 { assert time(rows[cursor]) <= time(rows[cursor + i]); }
    }
    UpToAll(a, time, t);
    UpToNone(b, time, t);
    UpToOfBoth(a, b, time, t);
    assert a + [] == a;
  }

  predicate Within(series: seq<Series>, cursors: seq<nat>) {
    |cursors| == |series| && forall j :: 0 <= j < |series| ==> cursors[j] <= |series[j].bars|
  }

  /** The marks the bar cursors have passed. */
  function CursorMarks(series: seq<Series>, cursors: seq<nat>): map<Symbol, real>
    requires Within(series, cursors)
  {
    if series == [] then map[]
    else
      var n := |series| - 1;
      var before := CursorMarks(series[..n], cursors[..n]);
      if cursors[n] == 0 then before else before[series[n].symbol := series[n].bars[cursors[n] - 1].close]
  }

  predicate DistinctSymbols(series: seq<Series>) {
    forall i, j :: 0 <= i < j < |series| ==> series[i].symbol != series[j].symbol
  }

  lemma {:induction false} MarksOfCursors(series: seq<Series>, cursors: seq<nat>, t: Time)
    requires Within(series, cursors)
    requires forall j :: 0 <= j < |series| ==>
      InOrder(series[j].bars, BarTime) && StandsAt(series[j].bars, BarTime, t, cursors[j])
    ensures CursorMarks(series, cursors) == Marks(series, t)
  {
    if series != [] {
      var n := |series| - 1;
      MarksOfCursors(series[..n], cursors[..n], t);
      CursorCuts(series[n].bars, BarTime, t, cursors[n]);
    }
  }

  /** Moving one cursor sets the mark of its symbol and no other. */
  lemma {:induction false} OneCursorMoves(series: seq<Series>, cursors: seq<nat>, j: nat, cursor: nat)
    requires Within(series, cursors)
    requires DistinctSymbols(series) && j < |series| && cursors[j] <= cursor <= |series[j].bars| && cursor > 0
    ensures CursorMarks(series, cursors[j := cursor])
         == CursorMarks(series, cursors)[series[j].symbol := series[j].bars[cursor - 1].close]
  {
    var n := |series| - 1;
    var moved := cursors[j := cursor];
    if j < n {
      assert moved[..n] == cursors[..n][j := cursor];
      OneCursorMoves(series[..n], cursors[..n], j, cursor);
    } else {
      assert moved[..n] == cursors[..n];
    }
  }

  // ------------------------------------------------------------------- the sweep

  predicate Sorted(series: seq<Series>, snapshots: seq<Snapshot>, trades: seq<Trade>) {
    && InOrder(snapshots, SnapshotTime) && InOrder(trades, TradeTime) && DistinctSymbols(series)
    && forall j :: 0 <= j < |series| ==> InOrder(series[j].bars, BarTime)
  }

  /** Cursors that have not gone past t. */
  predicate NotPast(series: seq<Series>, cursors: seq<nat>, t: Time) {
    && Within(series, cursors)
    && forall j :: 0 <= j < |series| ==> cursors[j] > 0 ==> series[j].bars[cursors[j] - 1].endTime <= t
  }

  method AdvanceSnapshots(snapshots: seq<Snapshot>, from: nat, t: Time) returns (snapshotIndex: nat)
    requires from < |snapshots| && (from > 0 ==> snapshots[from].time <= t)
    ensures snapshotIndex < |snapshots| && (snapshotIndex > 0 ==> snapshots[snapshotIndex].time <= t)
    ensures snapshotIndex + 1 < |snapshots| ==> snapshots[snapshotIndex + 1].time > t
  {
    snapshotIndex := from;
    while snapshotIndex + 1 < |snapshots| && snapshots[snapshotIndex + 1].time <= t
      invariant snapshotIndex < |snapshots| && (snapshotIndex > 0 ==> snapshots[snapshotIndex].time <= t)
    {
      snapshotIndex := snapshotIndex + 1;
    }
  }

  method ConsumeTrades(trades: seq<Trade>, from: nat, t: Time, held0: map<Symbol, real>, prices0: map<Symbol, real>)
    returns (fillIndex: nat, held: map<Symbol, real>, prices: map<Symbol, real>)
    requires from <= |trades| && (from > 0 ==> trades[from - 1].time <= t)
    requires held0 == Holdings(trades[..from]) && prices0 == LastPrices(trades[..from])
    ensures fillIndex <= |trades| && StandsAt(trades, TradeTime, t, fillIndex)
    ensures held == Holdings(trades[..fillIndex]) && prices == LastPrices(trades[..fillIndex])
  {
    fillIndex, held, prices := from, held0, prices0;
    while fillIndex < |trades| && trades[fillIndex].time <= t
      invariant fillIndex <= |trades| && (fillIndex > 0 ==> trades[fillIndex - 1].time <= t)
      invariant held == Holdings(trades[..fillIndex]) && prices == LastPrices(trades[..fillIndex])
    {
      var f := trades[fillIndex];
      assert trades[..fillIndex + 1][..fillIndex] == trades[..fillIndex];
      var current := if f.symbol in held then held[f.symbol] else 0.0;
      held := held[f.symbol := if f.side == Buy then current + f.qty else current - f.qty];
      if held[f.symbol] <= 0.0 {
        held := held - {f.symbol};
      }
      prices := prices[f.symbol := f.price];
      fillIndex := fillIndex + 1;
    }
  }

  method AdvanceMarks(series: seq<Series>, cursors0: seq<nat>, marks0: map<Symbol, real>, t: Time)
    returns (cursors: seq<nat>, marks: map<Symbol, real>)
    requires DistinctSymbols(series) && NotPast(series, cursors0, t) && marks0 == CursorMarks(series, cursors0)
    ensures NotPast(series, cursors, t) && marks == CursorMarks(series, cursors)
    ensures forall j :: 0 <= j < |series| ==> StandsAt(series[j].bars, BarTime, t, cursors[j])
  {
    cursors, marks := cursors0, marks0;
    for j := 0 to |series|
      invariant NotPast(series, cursors, t) && marks == CursorMarks(series, cursors)
      invariant forall i :: 0 <= i < j ==> StandsAt(series[i].bars, BarTime, t, cursors[i])
    {
      var bars, barIndex := series[j].bars, cursors[j];
      ghost var before := marks;
      while barIndex < |bars| && bars[barIndex].endTime <= t
        invariant cursors[j] <= barIndex <= |bars| && (barIndex > 0 ==> bars[barIndex - 1].endTime <= t)
        invariant marks == if barIndex == cursors[j] then before
          else before[series[j].symbol := bars[barIndex - 1].close]
      {
        marks := marks[series[j].symbol := bars[barIndex].close];
        barIndex := barIndex + 1;
      }
      if barIndex > cursors[j] {
        OneCursorMoves(series, cursors, j, barIndex);
      } else {
        assert cursors[j := barIndex] == cursors;
      }
      cursors := cursors[j := barIndex];
    }
  }

  method ValueHoldings(held: map<Symbol, real>, marks: map<Symbol, real>, prices: map<Symbol, real>)
    returns (value: real)
    ensures value == HeldWorth(held, marks, prices)
  {
    value := ValueListed(SortedKeys(held.Keys), held, marks, prices);
  }

  method ValueListed(symbols: seq<Symbol>, held: map<Symbol, real>, marks: map<Symbol, real>, prices: map<Symbol, real>)
    returns (value: real)
    requires forall s :: s in symbols ==> s in held
    ensures value == MarketWorth(symbols, held, marks, prices)
  {
    value := 0.0;
    for k := 0 to |symbols|
      invariant value == MarketWorth(symbols[..k], held, marks, prices)
    {
      assert symbols[..k + 1][..k] == symbols[..k];
      var s := symbols[k];
      var price := if s in marks then Some(marks[s]) else if s in prices then Some(prices[s]) else None;
      if price.None? { continue; }
      value := value + held[s] * price.value;
    }
    assert symbols[..|symbols|] == symbols;
  }

  /** What the sweep carries from one instant to the next. */
  datatype Carried = Carried(
    snapshotIndex: nat,
    fillIndex: nat,
    cursors: seq<nat>,
    held: map<Symbol, real>,
    prices: map<Symbol, real>,
    marks: map<Symbol, real>)

  /** Nothing carried comes from after t. */
  ghost predicate UpToDate(series: seq<Series>, snapshots: seq<Snapshot>, trades: seq<Trade>, c: Carried, t: Time) {
    && c.snapshotIndex < |snapshots| && (c.snapshotIndex > 0 ==> snapshots[c.snapshotIndex].time <= t)
    && c.fillIndex <= |trades| && (c.fillIndex > 0 ==> trades[c.fillIndex - 1].time <= t)
    && c.held == Holdings(trades[..c.fillIndex]) && c.prices == LastPrices(trades[..c.fillIndex])
    && NotPast(series, c.cursors, t) && c.marks == CursorMarks(series, c.cursors)
  }

  lemma {:induction false} UpToDateLater(series: seq<Series>, snapshots: seq<Snapshot>, trades: seq<Trade>, c: Carried,
                                         t: Time, later: Time)
    requires UpToDate(series, snapshots, trades, c, t) && t <= later
    ensures UpToDate(series, snapshots, trades, c, later)
  {
    assert NotPast(series, c.cursors, later);
  }

  /** One instant of the sweep: every cursor catches up, then cash and holdings are valued. */
  method ValueInstant(series: seq<Series>, snapshots: seq<Snapshot>, trades: seq<Trade>, c: Carried, t: Time)
    returns (c': Carried, equity: Option<real>)
    requires Sorted(series, snapshots, trades) && UpToDate(series, snapshots, trades, c, t)
    ensures UpToDate(series, snapshots, trades, c', t)
    ensures equity == EquityAt(series, snapshots, trades, t)
  {
    var snapshotIndex := AdvanceSnapshots(snapshots, c.snapshotIndex, t);
    if snapshots[snapshotIndex].time > t {
      NothingBefore(series, snapshots, trades, t);
      return c.(snapshotIndex := snapshotIndex), None;
    }
    var fillIndex, held, prices := ConsumeTrades(trades, c.fillIndex, t, c.held, c.prices);
    var cursors, marks := AdvanceMarks(series, c.cursors, c.marks, t);
    var holdings := ValueHoldings(held, marks, prices);
    var value := snapshots[snapshotIndex].total + holdings;
    EquityAtCursors(series, snapshots, trades, t, snapshotIndex, fillIndex, cursors, held, marks, prices, value);
    return Carried(snapshotIndex, fillIndex, cursors, held, prices, marks), Some(value);
  }

  /** The sweep computes the curve: every point is what an afresh computation gives. */
  method Sweep(series: seq<Series>, snapshots: seq<Snapshot>, trades: seq<Trade>, timeline: seq<Time>)
    returns (points: seq<Point>)
    requires snapshots != [] && Sorted(series, snapshots, trades)
    requires forall i, j :: 0 <= i < j < |timeline| ==> timeline[i] < timeline[j]
    ensures points == Points(EquityOver(series, snapshots, trades), timeline, snapshots[0].total)
  {
    points := [];
    var baseline := snapshots[0].total;
    ghost var over := EquityOver(series, snapshots, trades);
    var carried := Carried(0, 0, seq(|series|, i => 0), map[], map[], map[]);
    NoCursorMarks(series, carried.cursors);
    ghost var last := if timeline == [] then 0 else timeline[0];
    for k := 0 to |timeline|
      invariant points == Points(over, timeline[..k], baseline)
      invariant UpToDate(series, snapshots, trades, carried, last)
      invariant k < |timeline| ==> last <= timeline[k]
    {
      var t := timeline[k];
      UpToDateLater(series, snapshots, trades, carried, last, t);
      var equity;
      carried, equity := ValueInstant(series, snapshots, trades, carried, t);
      PointsGrow(over, timeline, k, baseline);
      if equity.Some? {
        points := points + [Point(t, equity.value, baseline)];
      }
      last := t;
    }
    assert timeline[..|timeline|] == timeline;
  }

  lemma {:induction false} PointsGrow(equity: Time -> Option<real>, timeline: seq<Time>, k: nat, baseline: real)
    requires k < |timeline|
    ensures Points(equity, timeline[..k + 1], baseline)
         == Points(equity, timeline[..k], baseline)
            + if equity(timeline[k]).Some? then [Point(timeline[k], equity(timeline[k]).value, baseline)] else []
  {
    assert timeline[..k + 1][..k] == timeline[..k];
  }

  lemma {:induction false} NoCursorMarks(series: seq<Series>, cursors: seq<nat>)
    requires Within(series, cursors) && forall j :: 0 <= j < |series| ==> cursors[j] == 0
    ensures CursorMarks(series, cursors) == map[]
  {
    if series != [] { NoCursorMarks(series[..|series| - 1], cursors[..|series| - 1]); }
  }

  lemma {:induction false} NothingBefore(series: seq<Series>, snapshots: seq<Snapshot>, trades: seq<Trade>, t: Time)
    requires snapshots != [] && InOrder(snapshots, SnapshotTime) && snapshots[0].time > t
    ensures EquityAt(series, snapshots, trades, t).None?
  {
    forall i | 0 <= i < |snapshots| ensures SnapshotTime(snapshots[i]) > t {
      if i > 0 { assert SnapshotTime(snapshots[0]) <= SnapshotTime(snapshots[i]); }
    }
    UpToNone(snapshots, SnapshotTime, t);
  }

  lemma {:induction false} EquityFrom(series: seq<Series>, snapshots: seq<Snapshot>, trades: seq<Trade>, t: Time,
                                      cash: seq<Snapshot>, held: map<Symbol, real>, marks: map<Symbol, real>,
                                      prices: map<Symbol, real>, value: real)
    requires cash == UpTo(snapshots, SnapshotTime, t) && cash != [] && marks == Marks(series, t)
    requires held == Holdings(UpTo(trades, TradeTime, t)) && prices == LastPrices(UpTo(trades, TradeTime, t))
    requires value == cash[|cash| - 1].total + HeldWorth(held, marks, prices)
    ensures EquityAt(series, snapshots, trades, t) == Some(value)
  {
  }

  lemma {:induction false} EquityAtCursors(series: seq<Series>, snapshots: seq<Snapshot>, trades: seq<Trade>, t: Time,
                                           snapshotIndex: nat, fillIndex: nat, cursors: seq<nat>,
                                           held: map<Symbol, real>, marks: map<Symbol, real>, prices: map<Symbol, real>,
                                           value: real)
    requires Sorted(series, snapshots, trades) && Within(series, cursors)
    requires snapshotIndex < |snapshots| && StandsAt(snapshots, SnapshotTime, t, snapshotIndex + 1)
    requires fillIndex <= |trades| && StandsAt(trades, TradeTime, t, fillIndex)
    requires forall j :: 0 <= j < |series| ==> StandsAt(series[j].bars, BarTime, t, cursors[j])
    requires held == Holdings(trades[..fillIndex]) && prices == LastPrices(trades[..fillIndex])
    requires marks == CursorMarks(series, cursors)
      && value == snapshots[snapshotIndex].total + HeldWorth(held, marks, prices)
    ensures EquityAt(series, snapshots, trades, t) == Some(value)
  {
    CursorCuts(snapshots, SnapshotTime, t, snapshotIndex + 1);
    CursorCuts(trades, TradeTime, t, fillIndex);
    MarksOfCursors(series, cursors, t);
    EquityFrom(series, snapshots, trades, t, snapshots[..snapshotIndex + 1], held, marks, prices, value);
  }

  method BuildEquityCurve(series: seq<Series>, snapshots: seq<Snapshot>, trades: seq<Trade>)
    returns (points: seq<Point>)
    requires Sorted(series, snapshots, trades)
    ensures points == Curve(series, snapshots, trades)
  {
    if snapshots == [] {
      return [];
    }
    var timeline := Timeline(AllTimes(series));
    if timeline == [] {
      return CashPoints(snapshots, snapshots[0].total);
    }
    points := Sweep(series, snapshots, trades, timeline);
    if points != [] {
      points := Rebase(points, points[0].value);
    }
  }

  /** Sets every point's baseline. */
  method Rebase(swept: seq<Point>, first: real) returns (points: seq<Point>)
    ensures points == WithBaseline(swept, first)
  {
    points := swept;
    for k := 0 to |swept|
      invariant |points| == |swept|
      invariant points[..k] == WithBaseline(swept[..k], first) && points[k..] == swept[k..]
    {
      assert swept[..k + 1][..k] == swept[..k];
      points := points[k := points[k].(baseline := first)];
    }
    assert swept[..|swept|] == swept && points[..|points|] == points;
  }

  // ------------------------------------------------------------ what the curve says

  lemma {:induction false} SomethingBefore(snapshots: seq<Snapshot>, t: Time)
    requires snapshots != [] && snapshots[0].time <= t
    ensures UpTo(snapshots, SnapshotTime, t) != []
  {
    if |snapshots| > 1 { SomethingBefore(snapshots[..|snapshots| - 1], t); }
  }

  /** Points in order, each at an instant and its equity, and none missing. */
  ghost predicate Follows(points: seq<Point>, equity: Time -> Option<real>, timeline: seq<Time>) {
    && (forall i, j :: 0 <= i < j < |points| ==> points[i].time < points[j].time)
    && (forall i :: 0 <= i < |points| ==> points[i].time in timeline && equity(points[i].time) == Some(points[i].value))
    && (forall t :: t in timeline && equity(t).Some? ==> exists i :: 0 <= i < |points| && points[i].time == t)
  }

  lemma {:induction false} FollowsFurther(before: seq<Point>, points: seq<Point>,
                                          equity: Time -> Option<real>, front: seq<Time>, t: Time, baseline: real)
    requires Follows(before, equity, front) && forall x :: x in front ==> x < t
    requires points == before + if equity(t).Some? then [Point(t, equity(t).value, baseline)] else []
    ensures Follows(points, equity, front + [t])
  {
    forall x | x in front + [t] && equity(x).Some? ensures exists i :: 0 <= i < |points| && points[i].time == x {
      if x == t {
        assert points[|before|].time == t;
      } else {
        var i :| 0 <= i < |before| && before[i].time == x;
        assert points[i].time == x;
      }
    }
  }

  lemma {:induction false} PointsFollowTheTimeline(equity: Time -> Option<real>, timeline: seq<Time>, baseline: real)
    requires forall i, j :: 0 <= i < j < |timeline| ==> timeline[i] < timeline[j]
    ensures Follows(Points(equity, timeline, baseline), equity, timeline)
  {
    if timeline != [] {
      var front, t := timeline[..|timeline| - 1], timeline[|timeline| - 1];
      assert timeline == front + [t];
      PointsFollowTheTimeline(equity, front, baseline);
      FollowsFurther(Points(equity, front, baseline), Points(equity, timeline, baseline), equity, front, t, baseline);
    }
  }

  /** One point for every instant from the first snapshot on, in order, and no other. */
  lemma {:induction false} OnePointPerInstant(series: seq<Series>, snapshots: seq<Snapshot>, trades: seq<Trade>,
                                              timeline: seq<Time>, baseline: real)
    requires snapshots != [] && InOrder(snapshots, SnapshotTime)
    requires forall i, j :: 0 <= i < j < |timeline| ==> timeline[i] < timeline[j]
    ensures Follows(Points(EquityOver(series, snapshots, trades), timeline, baseline),
      EquityOver(series, snapshots, trades), timeline)
    ensures forall t :: EquityOver(series, snapshots, trades)(t).Some? <==> snapshots[0].time <= t
  {
    var over := EquityOver(series, snapshots, trades);
    PointsFollowTheTimeline(over, timeline, baseline);
    forall t: Time ensures over(t).Some? <==> snapshots[0].time <= t {
      if snapshots[0].time <= t {
        SomethingBefore(snapshots, t);
      } else {
        NothingBefore(series, snapshots, trades, t);
      }
    }
  }

  function TradesOf(es: seq<FillEvent>): seq<Trade> {
    if es == [] then []
    else
      var f := es[|es| - 1].fill;
      TradesOf(es[..|es| - 1]) + [Trade(f.fillTime, f.side, f.symbol, f.qty, f.price)]
  }

  ghost predicate HeldIn(held: map<Symbol, real>, positions: map<Symbol, Position>) {
    forall s: Symbol :: (s in held <==> s in positions && positions[s].qty > 0.0)
      && (s in held ==> held[s] == positions[s].qty)
  }

  lemma {:induction false} HoldFollowsBooking(before: Portfolio, after: Portfolio, e: FillEvent,
                                              held: map<Symbol, real>, f: Trade)
    requires HeldIn(held, before.positions) && QuantitiesMoved(before, after, e) && ValidPortfolio(before)
    requires f.symbol == e.fill.symbol && f.side == e.fill.side && f.qty == e.fill.qty
    requires after.positions[e.fill.symbol].qty >= 0.0
    ensures HeldIn(Hold(held, f), after.positions)
  {
    forall s: Symbol | s != e.fill.symbol
      ensures s in after.positions <==> s in before.positions
      ensures s in after.positions ==> after.positions[s] == before.positions[s]
    {
      assert Get(after.positions, s) == Get(before.positions, s);
    }
    if e.fill.symbol in before.positions {
      assert ValidPosition(before.positions[e.fill.symbol]);
    }
  }

  /** What the curve holds is what the ledger holds, whenever the ledger accepts the fills. */
  lemma {:induction false} HoldingsFollowTheLedger(pf: Portfolio, es: seq<FillEvent>)
    requires Unopened(pf) && ValidFillEvents(es) && BookAll(pf, es).Ok?
    ensures HeldIn(Holdings(TradesOf(es)), BookAll(pf, es).value.positions)
  {
    if es != [] {
      var front, e := es[..|es| - 1], es[|es| - 1];
      HoldingsFollowTheLedger(pf, front);
      var before, after := BookAll(pf, front).value, BookAll(pf, es).value;
      BookMovesQuantities(before, e);
      var f := Trade(e.fill.fillTime, e.fill.side, e.fill.symbol, e.fill.qty, e.fill.price);
      assert TradesOf(es)[..|TradesOf(front)|] == TradesOf(front);
      assert ValidPosition(after.positions[e.fill.symbol]);
      HoldFollowsBooking(before, after, e, Holdings(TradesOf(front)), f);
    }
  }
}
