/** The baseline momentum strategy: threshold entries, a trailing stop and a momentum exit. */
module Baseline {
  import opened Prelude

  datatype MarketDay = MarketDay(tradeDate: int, previousClose: real)
  datatype Bar = Bar(symbol: Symbol, close: real, actionable: bool, market: Option<MarketDay>)

  datatype Parameters = Parameters(
    target: real,
    entryThreshold: real,
    exitThreshold: real,
    lookback: nat,
    minUpBars: nat,
    strongThreshold: real,
    reducedRatio: real,
    trailingStop: real)

  /** What the constructor accepts. */
  predicate ValidParameters(c: Parameters) {
    && c.target > 0.0 && 0.0 <= c.entryThreshold < 1.0 && -1.0 < c.exitThreshold < 1.0
    && c.exitThreshold <= c.entryThreshold && c.lookback >= 2 && 1 <= c.minUpBars <= c.lookback - 1
    && c.entryThreshold <= c.strongThreshold < 1.0 && 0.0 < c.reducedRatio <= 1.0 && 0.0 < c.trailingStop < 1.0
  }

  function ReducedTarget(c: Parameters): real { c.target * c.reducedRatio }

  datatype SymbolState = SymbolState(history: seq<real>, target: real, entryPrice: Option<real>, peak: Option<real>)

  const Flat := SymbolState([], 0.0, None, None)

  datatype Signal = Exit | Rebalance(target: real)

  // --------------------------------------------------------- what the bars say

  /** Bars the strategy looks at. */
  predicate Usable(b: Bar) { b.actionable && b.market.Some? && b.market.value.previousClose > 0.0 }

  function Momentum(b: Bar): real
    requires Usable(b)
  {
    (b.close - b.market.value.previousClose) / b.market.value.previousClose
  }

  function TrendReturn(history: seq<real>): real
    requires history != []
  {
    if history[0] <= 0.0 then 0.0 else (history[|history| - 1] - history[0]) / history[0]
  }

  function PositiveChanges(history: seq<real>): nat {
    if |history| < 2 then 0
    else PositiveChanges(history[..|history| - 1]) + if history[|history| - 1] > history[|history| - 2] then 1 else 0
  }

  predicate TrendConfirmed(c: Parameters, history: seq<real>)
    requires history != []
  {
    TrendReturn(history) > 0.0 && PositiveChanges(history) >= c.minUpBars
  }

  function StopPrice(c: Parameters, peak: real): real { peak * (1.0 - c.trailingStop) }

  function Peak(before: Option<real>, close: real): real {
    if before.Some? then MaxReal(before.value, close) else close
  }

  /** The target an entry asks for: reduced unless the momentum is strong. */
  function EntryTarget(c: Parameters, momentum: real): real {
    if momentum < c.strongThreshold then ReducedTarget(c) else c.target
  }

  // ------------------------------------------------------------------- one bar

  /** One usable bar past the warm-up, with its close already in the history. */
  function Decide(c: Parameters, s: SymbolState, close: real, momentum: real, confirmed: bool)
    : (SymbolState, Option<Signal>) {
    var held := s.target > 0.0;
    var peak := if held then Some(Peak(s.peak, close)) else s.peak;
    if held && close <= StopPrice(c, peak.value) then (Flat.(history := s.history), Some(Exit))
    else if held && momentum <= c.exitThreshold then (Flat.(history := s.history), Some(Exit))
    else if momentum >= c.entryThreshold && confirmed then
      var target := EntryTarget(c, momentum);
      (SymbolState(s.history, target, if held then s.entryPrice else Some(close),
                   Some(if held then Peak(peak, close) else close)),
       Some(Rebalance(target)))
    else if held then (s.(peak := peak), Some(Rebalance(s.target)))
    else (s, None)
  }

  function OnBar(c: Parameters, s: SymbolState, b: Bar): (SymbolState, Option<Signal>)
    requires ValidParameters(c)
  {
    if !Usable(b) then (s, None)
    else
      var history := LastOf(s.history + [b.close], c.lookback);
      var seen := s.(history := history);
      if |history| < c.lookback then (seen, None)
      else Decide(c, seen, b.close, Momentum(b), TrendConfirmed(c, history))
  }

  /** The strategy object: one state per symbol, built on first use. */
  class BaselineMomentumStrategy {
    const parameters: Parameters
    var states: map<Symbol, SymbolState>

    function StateOf(symbol: Symbol): SymbolState
      reads this
    {
      if symbol in states then states[symbol] else Flat
    }

    constructor (c: Parameters)
      requires ValidParameters(c)
      ensures parameters == c && states == map[]
    {
      parameters, states := c, map[];
    }

    method Process(b: Bar) returns (signal: Option<Signal>)
      requires ValidParameters(parameters)
      modifies this`states
      ensures signal == OnBar(parameters, old(StateOf(b.symbol)), b).1
      ensures StateOf(b.symbol) == OnBar(parameters, old(StateOf(b.symbol)), b).0
      ensures forall x :: x != b.symbol ==> StateOf(x) == old(StateOf(x))
    {
      if !b.actionable || b.market.None? || b.market.value.previousClose <= 0.0 {
        return None;
      }
      var s := StateOf(b.symbol);
      s := s.(history := LastOf(s.history + [b.close], parameters.lookback));
      var momentum := Momentum(b);
      if |s.history| < parameters.lookback {
        states := states[b.symbol := s];
        return None;
      }
      var confirmed := TrendConfirmed(parameters, s.history);
      if s.target > 0.0 {
        s := s.(peak := Some(Peak(s.peak, b.close)));
        if b.close <= StopPrice(parameters, s.peak.value) {
          states := states[b.symbol := Flat.(history := s.history)];
          return Some(Exit);
        }
      }
      if s.target > 0.0 && momentum <= parameters.exitThreshold {
        states := states[b.symbol := Flat.(history := s.history)];
        return Some(Exit);
      }
      if momentum >= parameters.entryThreshold && confirmed {
        var target := EntryTarget(parameters, momentum);
        if s.target <= 0.0 {
          s := s.(entryPrice := Some(b.close), peak := Some(b.close));
        } else {
          s := s.(peak := Some(Peak(s.peak, b.close)));
        }
        states := states[b.symbol := s.(target := target)];
        return Some(Rebalance(target));
      }
      states := states[b.symbol := s];
      return if s.target > 0.0 then Some(Rebalance(s.target)) else None;
    }
  }

  // ---------------------------------------------------------------------- runs
  // The bars of one symbol, in the order they arrive.

  function StateAfter(c: Parameters, bars: seq<Bar>): SymbolState
    requires ValidParameters(c)
  {
    if bars == [] then Flat else OnBar(c, StateAfter(c, bars[..|bars| - 1]), bars[|bars| - 1]).0
  }

  function SignalAt(c: Parameters, bars: seq<Bar>): Option<Signal>
    requires ValidParameters(c) && bars != []
  {
    OnBar(c, StateAfter(c, bars[..|bars| - 1]), bars[|bars| - 1]).1
  }

  /** The closes signalled on since the last exit: the bars the position has been held for. */
  function HeldCloses(c: Parameters, bars: seq<Bar>): seq<real>
    requires ValidParameters(c)
  {
    if bars == [] then []
    else
      match SignalAt(c, bars)
      case None => HeldCloses(c, bars[..|bars| - 1])
      case Some(Exit) => []
      case Some(Rebalance(_)) => HeldCloses(c, bars[..|bars| - 1]) + [bars[|bars| - 1].close]
  }

  ghost predicate IsMaximum(m: real, xs: seq<real>) {
    m in xs && forall x :: x in xs ==> x <= m
  }

  /** What the state of a symbol tells about the bars it has seen. */
  ghost predicate Tells(c: Parameters, s: SymbolState, held: seq<real>) {
    && s.target in {0.0, ReducedTarget(c), c.target}
    && (s.target == 0.0 <==> held == [])
    && (held == [] ==> s.entryPrice.None? && s.peak.None?)
    && (held != [] ==> s.entryPrice == Some(held[0]) && s.peak.Some? && IsMaximum(s.peak.value, held)
                       && s.peak.value > 0.0 && held[|held| - 1] > StopPrice(c, s.peak.value))
  }

  predicate PositiveCloses(bars: seq<Bar>) { forall i :: 0 <= i < |bars| ==> bars[i].close > 0.0 }

  lemma {:induction false} TargetsArePositive(c: Parameters)
    requires ValidParameters(c)
    ensures 0.0 < ReducedTarget(c) <= c.target
  {
    assert c.target * (1.0 - c.reducedRatio) >= 0.0;
  }

  lemma {:induction false} StopIsBelowPeak(c: Parameters, peak: real)
    requires ValidParameters(c) && peak > 0.0
    ensures 0.0 < StopPrice(c, peak) < peak
  {
    assert peak * c.trailingStop > 0.0;
    assert peak * (1.0 - c.trailingStop) > 0.0;
  }

  lemma {:induction false} MaximumGrows(m: real, xs: seq<real>, x: real)
    requires IsMaximum(m, xs)
    ensures IsMaximum(MaxReal(m, x), xs + [x])
  {
    assert forall y :: y in xs + [x] <==> y in xs || y == x;
  }

  lemma {:induction false} DecideTells(c: Parameters, s: SymbolState, close: real, momentum: real, confirmed: bool,
                                       held: seq<real>)
    requires ValidParameters(c) && Tells(c, s, held) && close > 0.0
    ensures
      var (s', signal) := Decide(c, s, close, momentum, confirmed);
      Tells(c, s', match signal case None => held case Some(Exit) => [] case Some(Rebalance(_)) => held + [close])
  {
    TargetsArePositive(c);
    if held != [] {
      MaximumGrows(s.peak.value, held, close);
    } else {
      StopIsBelowPeak(c, close);
      assert IsMaximum(close, [close]);
    }
  }

  /** Run invariant: the target is none, reduced or full; while something is targeted the
      peak is the highest close since entry and the entry price the first, and the last
      close held for is strictly above the trailing stop. */
  lemma {:induction false} StateTellsTheBars(c: Parameters, bars: seq<Bar>)
    requires ValidParameters(c) && PositiveCloses(bars)
    ensures Tells(c, StateAfter(c, bars), HeldCloses(c, bars))
  {
    if bars != [] {
      var front, b := bars[..|bars| - 1], bars[|bars| - 1];
      StateTellsTheBars(c, front);
      var s := StateAfter(c, front);
      if Usable(b) {
        var history := LastOf(s.history + [b.close], c.lookback);
        if |history| >= c.lookback {
          DecideTells(c, s.(history := history), b.close, Momentum(b), TrendConfirmed(c, history),
            HeldCloses(c, front));
        }
      }
    }
  }

  lemma {:induction false} MaximumIsUnique(m: real, n: real, xs: seq<real>)
    requires IsMaximum(m, xs) && IsMaximum(n, xs)
    ensures m == n
  {
  }

  /** A usable bar with the look-back filled. */
  predicate PastWarmUp(c: Parameters, bars: seq<Bar>)
    requires ValidParameters(c)
  {
    bars != [] && Usable(bars[|bars| - 1]) && |StateAfter(c, bars).history| >= c.lookback
  }

  lemma {:induction false} WarmStateDecides(c: Parameters, bars: seq<Bar>)
    requires ValidParameters(c) && PastWarmUp(c, bars)
    ensures
      var s, b := StateAfter(c, bars[..|bars| - 1]), bars[|bars| - 1];
      var history := LastOf(s.history + [b.close], c.lookback);
      && |history| == c.lookback && StateAfter(c, bars).history == history
      && SignalAt(c, bars) == Decide(c, s.(history := history), b.close, Momentum(b), TrendConfirmed(c, history)).1
  {
  }

  /** While held, the strategy leaves exactly when the close is at or below the trailing stop
      of the highest close since entry, this bar's included, or momentum is at or below the
      exit threshold. */
  lemma {:induction false} ExitsAreExact(c: Parameters, bars: seq<Bar>, highest: real)
    requires ValidParameters(c) && PositiveCloses(bars) && PastWarmUp(c, bars)
    requires HeldCloses(c, bars[..|bars| - 1]) != []
    requires IsMaximum(highest, HeldCloses(c, bars[..|bars| - 1]) + [bars[|bars| - 1].close])
    ensures
      var b := bars[|bars| - 1];
      SignalAt(c, bars) == Some(Exit) <==> b.close <= StopPrice(c, highest) || Momentum(b) <= c.exitThreshold
  {
    var front, b := bars[..|bars| - 1], bars[|bars| - 1];
    StateTellsTheBars(c, front);
    TargetsArePositive(c);
    WarmStateDecides(c, bars);
    var held := HeldCloses(c, front);
    MaximumGrows(StateAfter(c, front).peak.value, held, b.close);
    MaximumIsUnique(highest, MaxReal(StateAfter(c, front).peak.value, b.close), held + [b.close]);
  }

  /** While flat, it enters exactly when momentum reaches the entry threshold with the trend
      confirmed over the look-back, at full size exactly when momentum is strong. */
  lemma {:induction false} EntriesAreExact(c: Parameters, bars: seq<Bar>)
    requires ValidParameters(c) && PositiveCloses(bars) && PastWarmUp(c, bars)
    requires HeldCloses(c, bars[..|bars| - 1]) == []
    ensures StateAfter(c, bars).history != []
    ensures
      var b := bars[|bars| - 1];
      && (SignalAt(c, bars).Some? <==>
            Momentum(b) >= c.entryThreshold && TrendConfirmed(c, StateAfter(c, bars).history))
      && (SignalAt(c, bars).Some? ==>
            SignalAt(c, bars)
            == Some(Rebalance(if Momentum(b) >= c.strongThreshold then c.target else ReducedTarget(c))))
  {
    StateTellsTheBars(c, bars[..|bars| - 1]);
    WarmStateDecides(c, bars);
    var b, history := bars[|bars| - 1], StateAfter(c, bars).history;
    FlatDecides(c, StateAfter(c, bars[..|bars| - 1]).(history := history), b.close, Momentum(b),
      TrendConfirmed(c, history));
  }

  lemma {:induction false} FlatDecides(c: Parameters, s: SymbolState, close: real, momentum: real, confirmed: bool)
    requires s.target == 0.0
    ensures
      var signal := Decide(c, s, close, momentum, confirmed).1;
      && (signal.Some? <==> momentum >= c.entryThreshold && confirmed)
      && (signal.Some? ==>
            signal == Some(Rebalance(if momentum >= c.strongThreshold then c.target else ReducedTarget(c))))
  {
  }

  /** A bar that holds or enters has momentum above the exit threshold, with one exception:
      an entry on a momentum that is at once the entry and the exit threshold. */
  lemma {:induction false} HeldBarsHaveMomentum(c: Parameters, bars: seq<Bar>)
    requires ValidParameters(c) && PositiveCloses(bars) && bars != []
    requires SignalAt(c, bars).Some? && SignalAt(c, bars).value.Rebalance?
    ensures
      var b := bars[|bars| - 1];
      && Usable(b)
      && (Momentum(b) > c.exitThreshold
          <==> !(StateAfter(c, bars[..|bars| - 1]).target == 0.0 && Momentum(b) == c.entryThreshold == c.exitThreshold))
  {
    StateTellsTheBars(c, bars[..|bars| - 1]);
    TargetsArePositive(c);
  }

  /** Entering where the two thresholds meet: the bar holds with no momentum to spare. */
  lemma {:induction false} EntryAtExitThreshold()
    ensures
      var c := Parameters(400.0, 0.0, 0.0, 2, 1, 0.1, 0.5, 0.01);
      var bars := [Bar(1, 9.0, true, Some(MarketDay(0, 10.0))), Bar(1, 10.0, true, Some(MarketDay(0, 10.0)))];
      ValidParameters(c) && SignalAt(c, bars) == Some(Rebalance(200.0)) && Usable(bars[1])
        && Momentum(bars[1]) == c.exitThreshold
  {
    var c := Parameters(400.0, 0.0, 0.0, 2, 1, 0.1, 0.5, 0.01);
    var bars := [Bar(1, 9.0, true, Some(MarketDay(0, 10.0))), Bar(1, 10.0, true, Some(MarketDay(0, 10.0)))];
    assert bars[..1] == [bars[0]] && bars[..1][..0] == [];
    assert StateAfter(c, []) == Flat && Flat.history + [9.0] == [9.0];
    var s := StateAfter(c, bars[..1]);
    assert s == OnBar(c, Flat, bars[0]).0;
    assert s == SymbolState([9.0], 0.0, None, None);
    assert s.history + [10.0] == [9.0, 10.0];
    assert [9.0, 10.0][..1] == [9.0];
    assert TrendReturn([9.0, 10.0]) > 0.0 && PositiveChanges([9.0, 10.0]) == 1;
  }

  // ------------------------------------------------------- the signals, in prices

  /** The closes of the bars that count: actionable, with a positive previous close. */
  function CountedCloses(bars: seq<Bar>): seq<real> {
    if bars == [] then []
    else
      var b := bars[|bars| - 1];
      CountedCloses(bars[..|bars| - 1])
      + if b.actionable && b.market.Some? && b.market.value.previousClose > 0.0 then [b.close] else []
  }

  /** The history is the last closes of the bars that count, whatever was signalled on them. */
  lemma {:induction false} HistoryIsTheLookback(c: Parameters, bars: seq<Bar>)
    requires ValidParameters(c)
    ensures StateAfter(c, bars).history == LastOf(CountedCloses(bars), c.lookback)
  {
    if bars != [] {
      HistoryIsTheLookback(c, bars[..|bars| - 1]);
      var closes := CountedCloses(bars[..|bars| - 1]);
      WindowSlides(closes, bars[|bars| - 1].close, c.lookback);
      assert closes + [] == closes;
    }
  }

  /** Momentum reaches a threshold when the close is that much above the previous close. */
  lemma {:induction false} MomentumInPrices(b: Bar, threshold: real)
    requires Usable(b)
    ensures
      var previous := b.market.value.previousClose;
      && (Momentum(b) >= threshold <==> b.close >= previous * (1.0 + threshold))
      && (Momentum(b) <= threshold <==> b.close <= previous * (1.0 + threshold))
  {
    var previous := b.market.value.previousClose;
    var momentum := Momentum(b);
    assert momentum * previous == b.close - previous;
    ScalingKeepsOrder(momentum, threshold, previous);
    assert previous * (1.0 + threshold) == previous + threshold * previous;
  }

  /** The bars of the window that closed above the one before. */
  function Rises(h: seq<real>): set<int> { set i | 1 <= i < |h| && Rose(h, i) }

  predicate Rose(h: seq<real>, i: int) { 1 <= i < |h| && h[i - 1] < h[i] }

  lemma {:induction false} RisesGrow(h: seq<real>, n: nat)
    requires |h| == n + 1 && n > 0
    ensures n !in Rises(h[..n])
    ensures Rises(h) == if h[n - 1] < h[n] then Rises(h[..n]) + {n} else Rises(h[..n])
  {
    forall i ensures i in Rises(h) <==> i in Rises(h[..n]) || (i == n && h[n - 1] < h[n]) {
      assert i in Rises(h) <==> Rose(h, i);
      assert i in Rises(h[..n]) <==> Rose(h[..n], i);
    }
  }

  lemma {:induction false} ChangesAreRises(h: seq<real>)
    ensures PositiveChanges(h) == |Rises(h)|
  {
    if |h| >= 2 {
      var n := |h| - 1;
      ChangesAreRises(h[..n]);
      RisesGrow(h, n);
    } else {
      assert forall i :: !Rose(h, i);
      assert Rises(h) == {};
    }
  }

  lemma {:induction false} TrendInPrices(h: seq<real>)
    requires h != []
    ensures TrendReturn(h) > 0.0 <==> 0.0 < h[0] < h[|h| - 1]
  {
    if h[0] > 0.0 {
      var trend := TrendReturn(h);
      assert trend * h[0] == h[|h| - 1] - h[0];
      ScalingKeepsOrder(0.0, trend, h[0]);
    }
  }

  /** The bar closed at or below this share over the previous close. */
  predicate ClosedBelow(b: Bar, share: real) {
    b.market.Some? && b.close <= b.market.value.previousClose * (1.0 + share)
  }

  /** The bar closed at or below the highest close less the trailing stop. */
  predicate StoppedOut(c: Parameters, close: real, highest: real) { close <= highest * (1.0 - c.trailingStop) }

  lemma {:induction false} ClosedBelowIsMomentum(b: Bar, share: real)
    requires Usable(b)
    ensures Momentum(b) <= share <==> ClosedBelow(b, share)
  {
    MomentumInPrices(b, share);
  }

  lemma {:induction false} StoppedOutIsBelowStop(c: Parameters, close: real, highest: real)
    ensures StoppedOut(c, close, highest) <==> close <= StopPrice(c, highest)
  {
  }

  /** The exit signal, once it is known whether the bar is stopped out or without momentum. */
  lemma {:induction false} ExitSignal(c: Parameters, bars: seq<Bar>, highest: real, stopped: bool, below: bool)
    requires ValidParameters(c) && PositiveCloses(bars) && PastWarmUp(c, bars)
    requires HeldCloses(c, bars[..|bars| - 1]) != []
    requires IsMaximum(highest, HeldCloses(c, bars[..|bars| - 1]) + [bars[|bars| - 1].close])
    requires stopped <==> bars[|bars| - 1].close <= StopPrice(c, highest)
    requires below <==> Momentum(bars[|bars| - 1]) <= c.exitThreshold
    ensures SignalAt(c, bars) == Some(Exit) <==> stopped || below
  {
    ExitsAreExact(c, bars, highest);
  }

  /** The position is left exactly at or below the highest close since entry less the trailing stop,
      or at or below the previous close plus the exit threshold. */
  lemma {:induction false} ExitsInPrices(c: Parameters, bars: seq<Bar>, b: Bar, highest: real)
    requires ValidParameters(c) && PositiveCloses(bars) && bars != [] && b == bars[|bars| - 1] && Usable(b)
    requires |CountedCloses(bars)| >= c.lookback && HeldCloses(c, bars[..|bars| - 1]) != []
    requires IsMaximum(highest, HeldCloses(c, bars[..|bars| - 1]) + [b.close])
    ensures SignalAt(c, bars) == Some(Exit) <==> StoppedOut(c, b.close, highest) || ClosedBelow(b, c.exitThreshold)
  {
    HistoryIsTheLookback(c, bars);
    StoppedOutIsBelowStop(c, b.close, highest);
    ClosedBelowIsMomentum(b, c.exitThreshold);
    ExitSignal(c, bars, highest, StoppedOut(c, b.close, highest), ClosedBelow(b, c.exitThreshold));
  }

  /** The window ends above where it began, and rose on enough of its bars. */
  predicate Rising(c: Parameters, h: seq<real>) {
    h != [] && 0.0 < h[0] < h[|h| - 1] && |Rises(h)| >= c.minUpBars
  }

  /** The bar closed at least this share above the previous close. */
  predicate ClosedAbove(b: Bar, share: real) {
    b.market.Some? && b.close >= b.market.value.previousClose * (1.0 + share)
  }

  lemma {:induction false} RisingIsConfirmed(c: Parameters, h: seq<real>)
    requires h != []
    ensures TrendConfirmed(c, h) <==> Rising(c, h)
  {
    ChangesAreRises(h);
    TrendInPrices(h);
  }

  lemma {:induction false} ClosedAboveIsMomentum(b: Bar, share: real)
    requires Usable(b)
    ensures Momentum(b) >= share <==> ClosedAbove(b, share)
  {
    MomentumInPrices(b, share);
  }

  /** The signal of a flat strategy, once it is known whether momentum and trend call for one. */
  lemma {:induction false} EntrySignal(c: Parameters, bars: seq<Bar>, h: seq<real>, above: bool, strong: bool,
                                       rising: bool)
    requires ValidParameters(c) && PositiveCloses(bars) && PastWarmUp(c, bars)
    requires HeldCloses(c, bars[..|bars| - 1]) == [] && h == StateAfter(c, bars).history && h != []
    requires above <==> Momentum(bars[|bars| - 1]) >= c.entryThreshold
    requires strong <==> Momentum(bars[|bars| - 1]) >= c.strongThreshold
    requires rising <==> TrendConfirmed(c, h)
    ensures SignalAt(c, bars)
         == if above && rising then Some(Rebalance(if strong then c.target else ReducedTarget(c))) else None
  {
    EntriesAreExact(c, bars);
  }

  /** A flat strategy enters exactly when the close is the entry threshold above the previous one and
      the window is rising; at full size exactly from the strong threshold on, at the reduced size
      below it. */
  lemma {:induction false} EntriesInPrices(c: Parameters, bars: seq<Bar>, b: Bar, h: seq<real>)
    requires ValidParameters(c) && PositiveCloses(bars) && bars != [] && b == bars[|bars| - 1] && Usable(b)
    requires |CountedCloses(bars)| >= c.lookback && h == LastOf(CountedCloses(bars), c.lookback)
    requires HeldCloses(c, bars[..|bars| - 1]) == []
    ensures SignalAt(c, bars)
         == if ClosedAbove(b, c.entryThreshold) && Rising(c, h)
            then Some(Rebalance(if ClosedAbove(b, c.strongThreshold) then c.target else ReducedTarget(c)))
            else None
  {
    HistoryIsTheLookback(c, bars);
    ClosedAboveIsMomentum(b, c.entryThreshold);
    ClosedAboveIsMomentum(b, c.strongThreshold);
    RisingIsConfirmed(c, h);
    var above, strong, rising := ClosedAbove(b, c.entryThreshold), ClosedAbove(b, c.strongThreshold), Rising(c, h);
    EntrySignal(c, bars, h, above, strong, rising);
  }
}
