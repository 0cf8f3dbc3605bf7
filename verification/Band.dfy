/** The moving-average band strategy: enter below the band, leave above it, never on the entry date. */
module Band {
  import opened Prelude
  import opened Baseline

  datatype BandParameters = BandParameters(window: nat, buyBelow: real, sellAbove: real, target: real)

  predicate ValidBand(c: BandParameters) {
    c.window >= 2 && 0.0 <= c.buyBelow < 1.0 && 0.0 <= c.sellAbove < 1.0 && c.target > 0.0
  }

  datatype BandState = BandState(history: seq<real>, target: real, entryDate: Option<int>)

  const Out := BandState([], 0.0, None)

  datatype BandSignal = BandEntry | BandExit

  // ------------------------------------------------------------------- one bar

  function Total(closes: seq<real>): real {
    if closes == [] then 0.0 else Total(closes[..|closes| - 1]) + closes[|closes| - 1]
  }

  function Mean(c: BandParameters, closes: seq<real>): real
    requires c.window > 0
  {
    Total(closes) / (c.window as real)
  }

  function BuyTrigger(c: BandParameters, closes: seq<real>): real
    requires c.window > 0
  {
    Mean(c, closes) * (1.0 - c.buyBelow)
  }

  function SellTrigger(c: BandParameters, closes: seq<real>): real
    requires c.window > 0
  {
    Mean(c, closes) * (1.0 + c.sellAbove)
  }

  function TradeDate(b: Bar): Option<int> { if b.market.Some? then Some(b.market.value.tradeDate) else None }

  /** One bar past the warm-up, with its close already in the history. */
  function DecideBand(c: BandParameters, s: BandState, b: Bar): (BandState, Option<BandSignal>)
    requires c.window > 0
  {
    if s.target <= 0.0 && b.close <= BuyTrigger(c, s.history) then
      (s.(target := c.target, entryDate := TradeDate(b)), Some(BandEntry))
    else if s.target > 0.0 && b.market.Some? && s.entryDate == TradeDate(b) then (s, None)
    else if s.target > 0.0 && b.close >= SellTrigger(c, s.history) then
      (s.(target := 0.0, entryDate := None), Some(BandExit))
    else (s, None)
  }

  function OnBandBar(c: BandParameters, s: BandState, b: Bar): (BandState, Option<BandSignal>)
    requires ValidBand(c)
  {
    if !b.actionable then (s, None)
    else
      var seen := s.(history := LastOf(s.history + [b.close], c.window));
      if |seen.history| < c.window then (seen, None) else DecideBand(c, seen, b)
  }

  class MovingAverageBandStrategy {
    const parameters: BandParameters
    var states: map<Symbol, BandState>

    function StateOf(symbol: Symbol): BandState
      reads this
    {
      if symbol in states then states[symbol] else Out
    }

    constructor (c: BandParameters)
      requires ValidBand(c)
      ensures parameters == c && states == map[]
    {
      parameters, states := c, map[];
    }

    method Process(b: Bar) returns (signal: Option<BandSignal>)
      requires ValidBand(parameters)
      modifies this`states
      ensures signal == OnBandBar(parameters, old(StateOf(b.symbol)), b).1
      ensures StateOf(b.symbol) == OnBandBar(parameters, old(StateOf(b.symbol)), b).0
      ensures forall x :: x != b.symbol ==> StateOf(x) == old(StateOf(x))
    {
      if !b.actionable {
        return None;
      }
      var s := StateOf(b.symbol);
      s := s.(history := LastOf(s.history + [b.close], parameters.window));
      if |s.history| < parameters.window {
        states := states[b.symbol := s];
        return None;
      }
      if s.target <= 0.0 && b.close <= BuyTrigger(parameters, s.history) {
        s := s.(target := parameters.target);
        states := states[b.symbol := s.(entryDate := TradeDate(b))];
        return Some(BandEntry);
      }
      if s.target > 0.0 && b.market.Some? && s.entryDate == TradeDate(b) {
        states := states[b.symbol := s];
        return None;
      }
      if s.target > 0.0 && b.close >= SellTrigger(parameters, s.history) {
        s := s.(target := 0.0);
        states := states[b.symbol := s.(entryDate := None)];
        return Some(BandExit);
      }
      states := states[b.symbol := s];
      return None;
    }
  }

  // ---------------------------------------------------------------------- runs
  // The bars of one symbol, in the order they arrive.

  function BandAfter(c: BandParameters, bars: seq<Bar>): BandState
    requires ValidBand(c)
  {
    if bars == [] then Out else OnBandBar(c, BandAfter(c, bars[..|bars| - 1]), bars[|bars| - 1]).0
  }

  function BandSignalAt(c: BandParameters, bars: seq<Bar>): Option<BandSignal>
    requires ValidBand(c) && bars != []
  {
    OnBandBar(c, BandAfter(c, bars[..|bars| - 1]), bars[|bars| - 1]).1
  }

  /** The signals of a run with the bars they were given on. */
  function BandSignals(c: BandParameters, bars: seq<Bar>): seq<(BandSignal, Bar)>
    requires ValidBand(c)
  {
    if bars == [] then []
    else
      var signal := BandSignalAt(c, bars);
      BandSignals(c, bars[..|bars| - 1]) + if signal.Some? then [(signal.value, bars[|bars| - 1])] else []
  }

  /** Entry, exit, entry, exit, ...; and no exit on the known date of the entry before it. */
  ghost predicate Alternates(signals: seq<(BandSignal, Bar)>) {
    && (forall i :: 0 <= i < |signals| ==> signals[i].0 == if i % 2 == 0 then BandEntry else BandExit)
    && (forall i :: 0 < i < |signals| && signals[i].0 == BandExit ==>
          TradeDate(signals[i].1).None? || TradeDate(signals[i].1) != TradeDate(signals[i - 1].1))
  }

  /** Held exactly when the last signal is an entry, and then since that entry's date. */
  ghost predicate BandTells(c: BandParameters, s: BandState, signals: seq<(BandSignal, Bar)>) {
    && s.target == (if |signals| % 2 == 1 then c.target else 0.0)
    && (|signals| % 2 == 1 ==> s.entryDate == TradeDate(signals[|signals| - 1].1))
    && Alternates(signals)
  }

  lemma {:induction false} DecideBandTells(c: BandParameters, s: BandState, b: Bar, signals: seq<(BandSignal, Bar)>)
    requires ValidBand(c) && BandTells(c, s, signals)
    ensures
      var (s', signal) := DecideBand(c, s, b);
      BandTells(c, s', signals + if signal.Some? then [(signal.value, b)] else [])
  {
    var signal := DecideBand(c, s, b).1;
    if signal.Some? {
      var after := signals + [(signal.value, b)];
      assert forall i :: 0 <= i < |signals| ==> after[i] == signals[i];
      assert |after| % 2 == 1 - |signals| % 2;
    } else {
      assert signals + [] == signals;
    }
  }

  /** Over any bars the strategy strictly alternates entries and exits, starting with an
      entry, and never exits on the entry's trade date when both dates are known. */
  lemma {:induction false} EntriesAndExitsAlternate(c: BandParameters, bars: seq<Bar>)
    requires ValidBand(c)
    ensures BandTells(c, BandAfter(c, bars), BandSignals(c, bars))
  {
    if bars != [] {
      var front, b := bars[..|bars| - 1], bars[|bars| - 1];
      EntriesAndExitsAlternate(c, front);
      var s := BandAfter(c, front);
      var history := LastOf(s.history + [b.close], c.window);
      if b.actionable && |history| >= c.window {
        DecideBandTells(c, s.(history := history), b, BandSignals(c, front));
      } else {
        assert BandSignals(c, front) + [] == BandSignals(c, front);
      }
    }
  }

  // --------------------------------------------------------------- the band itself

  function ClosesOf(bars: seq<Bar>): seq<real> {
    if bars == [] then []
    else ClosesOf(bars[..|bars| - 1]) + if bars[|bars| - 1].actionable then [bars[|bars| - 1].close] else []
  }

  /** The history is the last window closes of actionable bars, whatever was signalled. */
  lemma {:induction false} HistoryIsTheWindow(c: BandParameters, bars: seq<Bar>)
    requires ValidBand(c)
    ensures BandAfter(c, bars).history == LastOf(ClosesOf(bars), c.window)
  {
    if bars != [] {
      HistoryIsTheWindow(c, bars[..|bars| - 1]);
      var closes := ClosesOf(bars[..|bars| - 1]);
      WindowSlides(closes, bars[|bars| - 1].close, c.window);
      assert closes + [] == closes;
    }
  }

  /** With the window filled by this bar's close: out of the market, the strategy enters exactly
      at or below the lower edge of the band around the window's mean; in the market, it leaves
      exactly at or above the upper edge on any date but the entry's. */
  lemma {:induction false} BandSignalsAreExact(c: BandParameters, bars: seq<Bar>)
    requires ValidBand(c) && bars != [] && bars[|bars| - 1].actionable && |ClosesOf(bars)| >= c.window
    ensures
      var closes, b, s := LastOf(ClosesOf(bars), c.window), bars[|bars| - 1], BandAfter(c, bars[..|bars| - 1]);
      var onEntryDate := b.market.Some? && s.entryDate == TradeDate(b);
      && (BandSignalAt(c, bars) == Some(BandEntry) <==> s.target == 0.0 && b.close <= BuyTrigger(c, closes))
      && (BandSignalAt(c, bars) == Some(BandExit) <==>
            s.target != 0.0 && !onEntryDate && b.close >= SellTrigger(c, closes))
  {
    HistoryIsTheWindow(c, bars);
    EntriesAndExitsAlternate(c, bars[..|bars| - 1]);
  }

  /** Before the window is filled nothing is signalled. */
  lemma {:induction false} WarmUpIsSilent(c: BandParameters, bars: seq<Bar>)
    requires ValidBand(c) && bars != [] && |ClosesOf(bars)| < c.window
    ensures BandSignalAt(c, bars).None?
  {
    HistoryIsTheWindow(c, bars);
  }

  /** A close against a share of the mean is the close times the window against that share of the sum. */
  lemma {:induction false} MeanInSums(c: BandParameters, closes: seq<real>, close: real, share: real)
    requires ValidBand(c)
    ensures close <= Mean(c, closes) * share <==> close * c.window as real <= Total(closes) * share
    ensures close >= Mean(c, closes) * share <==> close * c.window as real >= Total(closes) * share
  {
    var n, mean := c.window as real, Mean(c, closes);
    assert mean * n == Total(closes);
    ScalingKeepsOrder(close, mean * share, n);
    ScalingKeepsOrder(mean * share, close, n);
    assert mean * share * n == mean * n * share;
  }

  /** The close against the mean of the window, in sums. */
  predicate UnderBand(c: BandParameters, closes: seq<real>, close: real) {
    close * c.window as real <= Total(closes) * (1.0 - c.buyBelow)
  }

  predicate OverBand(c: BandParameters, closes: seq<real>, close: real) {
    close * c.window as real >= Total(closes) * (1.0 + c.sellAbove)
  }

  lemma {:induction false} TriggersInSums(c: BandParameters, closes: seq<real>, close: real)
    requires ValidBand(c)
    ensures close <= BuyTrigger(c, closes) <==> UnderBand(c, closes, close)
    ensures close >= SellTrigger(c, closes) <==> OverBand(c, closes, close)
  {
    MeanInSums(c, closes, close, 1.0 - c.buyBelow);
    MeanInSums(c, closes, close, 1.0 + c.sellAbove);
  }

  lemma {:induction false} BandSignalsBy(c: BandParameters, bars: seq<Bar>, under: bool, over: bool)
    requires ValidBand(c) && bars != [] && bars[|bars| - 1].actionable && |ClosesOf(bars)| >= c.window
    requires under <==> bars[|bars| - 1].close <= BuyTrigger(c, LastOf(ClosesOf(bars), c.window))
    requires over <==> bars[|bars| - 1].close >= SellTrigger(c, LastOf(ClosesOf(bars), c.window))
    ensures
      var b, s := bars[|bars| - 1], BandAfter(c, bars[..|bars| - 1]);
      && (BandSignalAt(c, bars) == Some(BandEntry) <==> s.target == 0.0 && under)
      && (BandSignalAt(c, bars) == Some(BandExit) <==>
            s.target != 0.0 && over && (b.market.None? || s.entryDate != Some(b.market.value.tradeDate)))
  {
    BandSignalsAreExact(c, bars);
  }

  /** The band in prices alone: with the window of closes ending in this bar's, the entry is where the
      close is buyBelow under their mean, the exit where it is sellAbove over it, on another date. */
  lemma {:induction false} BandSignalsInPrices(c: BandParameters, bars: seq<Bar>, b: Bar, closes: seq<real>)
    requires ValidBand(c) && bars != [] && b == bars[|bars| - 1] && b.actionable && |ClosesOf(bars)| >= c.window
    requires closes == LastOf(ClosesOf(bars), c.window)
    ensures
      var s := BandAfter(c, bars[..|bars| - 1]);
      && (BandSignalAt(c, bars) == Some(BandEntry) <==> s.target == 0.0 && UnderBand(c, closes, b.close))
      && (BandSignalAt(c, bars) == Some(BandExit) <==>
            s.target != 0.0 && OverBand(c, closes, b.close)
            && (b.market.None? || s.entryDate != Some(b.market.value.tradeDate)))
  {
    TriggersInSums(c, closes, b.close);
    BandSignalsBy(c, bars, UnderBand(c, closes, b.close), OverBand(c, closes, b.close));
  }
}
