/** What holds of the ledger after every accepted sequence of fills. */
module LedgerRuns {
  import opened Prelude
  import opened Execution
  import opened Costs
  import opened Ledger

  /** Event times do not go backwards. */
  predicate InTimeOrder(es: seq<FillEvent>) {
    forall i, j :: 0 <= i < j < |es| ==> es[i].eventTime <= es[j].eventTime
  }

  /** A portfolio that has not traded yet. */
  predicate Unopened(pf: Portfolio) { ValidPortfolio(pf) && pf.positions == map[] }

  /** The position as it stands on a trade date, whatever releases have been written. */
  function AsOf(p: Position, d: int): Position {
    p.(sellableQty := if DateOf(p.updatedAt) < d then p.qty else p.sellableQty, updatedAt := 0)
  }

  // ------------------------------------------------------------ T+1 exactness

  /** The quantity of one symbol traded on one side on dates before d. */
  ghost function TradedBefore(es: seq<FillEvent>, s: Symbol, side: Side, d: int): real {
    if es == [] then 0.0
    else
      var e := es[|es| - 1];
      TradedBefore(es[..|es| - 1], s, side, d)
      + if e.fill.symbol == s && e.fill.side == side && DateOf(e.eventTime) < d then e.fill.qty else 0.0
  }

  ghost function TradedOn(es: seq<FillEvent>, s: Symbol, side: Side, d: int): real {
    TradedBefore(es, s, side, d + 1) - TradedBefore(es, s, side, d)
  }

  /** The position of s carries exactly the trades of es, the shares bought on its
      last trade date are the locked ones, and no trade of s is later than that date. */
  ghost predicate PositionTells(pf: Portfolio, es: seq<FillEvent>, s: Symbol) {
    if s in pf.positions then
      var p := pf.positions[s];
      var d := DateOf(p.updatedAt);
      && p.qty == TradedBefore(es, s, Buy, d + 1) - TradedBefore(es, s, Sell, d + 1)
      && p.qty - p.sellableQty == TradedOn(es, s, Buy, d)
      && forall x, side :: x > d ==> TradedBefore(es, s, side, x) == TradedBefore(es, s, side, d + 1)
    else
      forall x, side :: TradedBefore(es, s, side, x) == 0.0
  }

  /** What a booked fill does to quantities, leaving prices and cash aside. */
  ghost predicate QuantitiesMoved(before: Portfolio, after: Portfolio, e: FillEvent) {
    var s, d := e.fill.symbol, DateOf(e.eventTime);
    var signed := if e.fill.side == Buy then e.fill.qty else -e.fill.qty;
    var qty := if s in before.positions then before.positions[s].qty else 0.0;
    var sellable := if s in before.positions then AsOf(before.positions[s], d).sellableQty else 0.0;
    && s in after.positions
    && after.positions[s].updatedAt == e.eventTime
    && after.positions[s].qty == qty + signed
    && after.positions[s].sellableQty == sellable + (if e.fill.side == Buy then 0.0 else signed)
    && forall x :: x != s ==> Get(after.positions, x) == Get(before.positions, x)
  }

  lemma {:induction false} BookMovesQuantities(pf: Portfolio, e: FillEvent)
    requires ValidPortfolio(pf) && ValidFillEvent(e) && Book(pf, e).Ok?
    ensures QuantitiesMoved(pf, Book(pf, e).value, e)
  {
  }

  lemma {:induction false} TradedBeforeGrows(es: seq<FillEvent>, e: FillEvent, s: Symbol, side: Side, d: int)
    ensures TradedBefore(es + [e], s, side, d)
         == TradedBefore(es, s, side, d)
            + if e.fill.symbol == s && e.fill.side == side && DateOf(e.eventTime) < d then e.fill.qty else 0.0
  {
    assert (es + [e])[..|es|] == es;
  }

  lemma {:induction false} BookedPositionTells(before: Portfolio, after: Portfolio, es: seq<FillEvent>, e: FillEvent,
                                               s: Symbol)
    requires QuantitiesMoved(before, after, e)
    requires PositionTells(before, es, s)
    requires s in before.positions ==> DateOf(before.positions[s].updatedAt) <= DateOf(e.eventTime)
    ensures PositionTells(after, es + [e], s)
  {
    forall side, x: int { TradedBeforeGrows(es, e, s, side, x); }
    assert Get(after.positions, s).Some? <==> s in after.positions;
    if e.fill.symbol == s {
      var d := DateOf(e.eventTime);
      if s in before.positions {
        var d0 := DateOf(before.positions[s].updatedAt);
        assert TradedBefore(es, s, Buy, d + 1) == TradedBefore(es, s, Buy, d0 + 1);
        assert TradedBefore(es, s, Sell, d + 1) == TradedBefore(es, s, Sell, d0 + 1);
        assert d0 < d ==> TradedBefore(es, s, Buy, d) == TradedBefore(es, s, Buy, d0 + 1);
      }
    } else {
      assert Get(after.positions, s) == Get(before.positions, s);
    }
  }

  /** T+1 exactness: in every reachable state the locked quantity of a symbol is what
      was bought on the date of its last fill, no more and no less. */
  lemma {:induction false} LockedIsBoughtOnLastDate(pf: Portfolio, es: seq<FillEvent>, s: Symbol)
    requires Unopened(pf) && ValidFillEvents(es) && InTimeOrder(es)
    requires BookAll(pf, es).Ok?
    ensures PositionTells(BookAll(pf, es).value, es, s)
    ensures s in BookAll(pf, es).value.positions && es != [] ==>
              BookAll(pf, es).value.positions[s].updatedAt <= es[|es| - 1].eventTime
  {
    if es != [] {
      var front, e := es[..|es| - 1], es[|es| - 1];
      LockedIsBoughtOnLastDate(pf, front, s);
      var before := BookAll(pf, front).value;
      if s in before.positions {
        assert front != [];
        DateOfIsMonotone(before.positions[s].updatedAt, e.eventTime);
      }
      BookMovesQuantities(before, e);
      BookedPositionTells(before, BookAll(pf, es).value, front, e, s);
      assert front + [e] == es;
    }
  }

  /** What is sold by the end of any date never exceeds what was bought strictly before it. */
  lemma {:induction false} NeverSellsSharesOfTheDay(pf: Portfolio, es: seq<FillEvent>, s: Symbol, d: int)
    requires Unopened(pf) && ValidFillEvents(es) && InTimeOrder(es)
    requires BookAll(pf, es).Ok?
    ensures TradedBefore(es, s, Sell, d + 1) <= TradedBefore(es, s, Buy, d)
  {
    LockedIsBoughtOnLastDate(pf, es, s);
    var after := BookAll(pf, es).value;
    if es != [] && DateOf(es[|es| - 1].eventTime) > d {
      NeverSellsSharesOfTheDay(pf, es[..|es| - 1], s, d);
    } else if s in after.positions {
      var p := after.positions[s];
      DateOfIsMonotone(p.updatedAt, es[|es| - 1].eventTime);
      assert ValidPosition(p);
    }
  }

  // ------------------------------------------------------ accounting identity

  function CostBasis(p: Position): real {
    if p.avgEntryPrice.Some? then p.qty * p.avgEntryPrice.value else 0.0
  }

  function MarketValue(p: Position): real {
    if p.markPrice.Some? then p.qty * p.markPrice.value else 0.0
  }

  function RealizedPnl(p: Position): real { p.realizedPnl }
  function UnrealizedPnl(p: Position): real { p.unrealizedPnl }

  function Cash(pf: Portfolio): real { if CNY in pf.balances then pf.balances[CNY].total else 0.0 }

  /** An open position is marked, and its unrealized P&L is the gap to its cost basis. */
  predicate Marked(p: Position) {
    && (p.qty != 0.0 ==> p.markPrice.Some?)
    && MarketValue(p) == CostBasis(p) + p.unrealizedPnl
  }

  predicate AllMarked(pf: Portfolio) { forall s :: s in pf.positions ==> Marked(pf.positions[s]) }

  lemma {:induction false} ReleaseKeepsValue(p: Position, d: int, at: Time)
    ensures var r := Release(p, d, at);
      CostBasis(r) == CostBasis(p) && RealizedPnl(r) == RealizedPnl(p) && r.qty == p.qty
  {
  }

  /** A buy turns cash into cost basis and pays its fee out of realized P&L. */
  lemma {:induction false} BuyConserves(e: FillEvent, current: Option<Position>)
    requires ValidFillEvent(e) && e.fill.side == Buy
    requires current.Some? ==> ValidPosition(current.value)
    ensures
      var p := ApplyBuy(e, current).0;
      && e.cost.netCashFlow + CostBasis(p) - (if current.Some? then CostBasis(current.value) else 0.0)
         == RealizedPnl(p) - (if current.Some? then RealizedPnl(current.value) else 0.0)
      && Marked(p)
  {
    var p := ApplyBuy(e, current).0;
    var qty := if current.Some? then current.value.qty else 0.0;
    var avg := if current.Some? && current.value.avgEntryPrice.Some?
               then current.value.avgEntryPrice.value else 0.0;
    AverageTimesQuantity(qty * avg + Notional(e.fill), qty + e.fill.qty);
    assert CostBasis(p) == qty * avg + Notional(e.fill);
    assert (e.fill.price - p.avgEntryPrice.value) * p.qty
        == p.qty * e.fill.price - p.qty * p.avgEntryPrice.value;
  }

  /** A sell turns cost basis into cash and books the difference as realized P&L. */
  lemma {:induction false} SellConserves(e: FillEvent, current: Option<Position>)
    requires ValidFillEvent(e) && e.fill.side == Sell
    requires current.Some? ==> ValidPosition(current.value)
    requires ApplySell(e, current).Ok?
    ensures
      var p := ApplySell(e, current).value.0;
      && e.cost.netCashFlow + CostBasis(p) - CostBasis(current.value)
         == RealizedPnl(p) - RealizedPnl(current.value)
      && Marked(p)
  {
    var p, avg := current.value, current.value.avgEntryPrice.value;
    assert (e.fill.price - avg) * e.fill.qty == e.fill.qty * e.fill.price - e.fill.qty * avg;
    var remaining := p.qty - e.fill.qty;
    assert remaining * avg == p.qty * avg - e.fill.qty * avg;
    assert (e.fill.price - avg) * remaining == remaining * e.fill.price - remaining * avg;
  }

  /** Cash plus cost basis minus realized P&L, over every symbol. */
  ghost function BookedCapital(pf: Portfolio): real {
    Cash(pf) + SumMap(pf.positions, CostBasis) - SumMap(pf.positions, RealizedPnl)
  }

  lemma {:induction false} BookConservesCapital(pf: Portfolio, e: FillEvent)
    requires ValidPortfolio(pf) && ValidFillEvent(e) && e.cost.currency == CNY
    requires AllMarked(pf) && Book(pf, e).Ok?
    ensures BookedCapital(Book(pf, e).value) == BookedCapital(pf)
    ensures AllMarked(Book(pf, e).value)
  {
    var s := e.fill.symbol;
    var current := Get(pf.positions, s);
    var released := if current.Some?
                    then Some(Release(current.value, DateOf(e.eventTime), e.eventTime)) else None;
    if current.Some? { ReleaseKeepsValue(current.value, DateOf(e.eventTime), e.eventTime); }
    if e.fill.side == Buy { BuyConserves(e, released); } else { SellConserves(e, released); }
    var after := Book(pf, e).value;
    SumMapAfterWrite(pf.positions, CostBasis, s, after.positions[s]);
    SumMapAfterWrite(pf.positions, RealizedPnl, s, after.positions[s]);
  }

  /** Capital is conserved by every accepted fill sequence. */
  lemma {:induction false} CapitalIsConserved(pf: Portfolio, es: seq<FillEvent>)
    requires ValidPortfolio(pf) && AllMarked(pf) && ValidFillEvents(es) && BookAll(pf, es).Ok?
    requires forall i :: 0 <= i < |es| ==> es[i].cost.currency == CNY
    ensures BookedCapital(BookAll(pf, es).value) == BookedCapital(pf)
    ensures AllMarked(BookAll(pf, es).value)
  {
    if es != [] {
      CapitalIsConserved(pf, es[..|es| - 1]);
      BookConservesCapital(BookAll(pf, es[..|es| - 1]).value, es[|es| - 1]);
    }
  }

  lemma {:induction false} SumsSplit(m: map<Symbol, Position>)
    requires forall s :: s in m ==> Marked(m[s])
    ensures SumMap(m, MarketValue) == SumMap(m, CostBasis) + SumMap(m, UnrealizedPnl)
    decreases m.Keys
  {
    if m.Keys != {} {
      SumsSplit(m - {Least(m.Keys)});
    }
  }

  lemma {:induction false} FlatPositionsCostNothing(m: map<Symbol, Position>)
    requires forall s :: s in m ==> m[s].qty == 0.0
    ensures SumMap(m, CostBasis) == 0.0
    decreases m.Keys
  {
    if m.Keys != {} {
      FlatPositionsCostNothing(m - {Least(m.Keys)});
    }
  }

  /** The accounting identity: from an account that has not traded, equity at the marks
      is the initial cash plus all realized and unrealized P&L; once every position is
      flat, the realized P&L is the change in cash. */
  lemma {:induction false} EquityIsInitialCashPlusPnl(pf: Portfolio, es: seq<FillEvent>)
    requires Unopened(pf) && ValidFillEvents(es) && BookAll(pf, es).Ok?
    requires forall i :: 0 <= i < |es| ==> es[i].cost.currency == CNY
    ensures
      var after := BookAll(pf, es).value;
      && Cash(after) + SumMap(after.positions, CostBasis)
         == Cash(pf) + SumMap(after.positions, RealizedPnl)
      && Cash(after) + SumMap(after.positions, MarketValue)
         == Cash(pf) + SumMap(after.positions, RealizedPnl) + SumMap(after.positions, UnrealizedPnl)
      && ((forall s :: s in after.positions ==> after.positions[s].qty == 0.0) ==>
            SumMap(after.positions, RealizedPnl) == Cash(after) - Cash(pf))
  {
    CapitalIsConserved(pf, es);
    var after := BookAll(pf, es).value;
    SumsSplit(after.positions);
    if forall s :: s in after.positions ==> after.positions[s].qty == 0.0 {
      FlatPositionsCostNothing(after.positions);
    }
  }

  // ---------------------------------------------------- release insensitivity

  predicate SameAsOf(p: Option<Position>, q: Option<Position>, d: int) {
    (p.Some? <==> q.Some?) && (p.Some? ==> AsOf(p.value, d) == AsOf(q.value, d))
  }

  /** Releasing for a date changes nothing as of that date or a later one. */
  lemma {:induction false} ReleaseIsInvisible(p: Position, tradeDate: int, at: Time, d: int)
    requires ValidPosition(p) && tradeDate <= d
    ensures AsOf(Release(p, tradeDate, at), d) == AsOf(p, d)
  {
  }

  /** Positions that agree on one date agree on every later one. */
  lemma {:induction false} SameAsOfLater(p: Position, q: Position, d: int, later: int)
    requires d <= later && DateOf(p.updatedAt) <= d && DateOf(q.updatedAt) <= d
    requires AsOf(p, d) == AsOf(q, d)
    ensures AsOf(p, later) == AsOf(q, later)
  {
    assert AsOf(p, d).qty == p.qty && AsOf(q, d).qty == q.qty;
    assert AsOf(p, later) == AsOf(p, d).(sellableQty := AsOf(p, later).sellableQty);
    assert AsOf(q, later) == AsOf(q, d).(sellableQty := AsOf(q, later).sellableQty);
  }

  lemma {:induction false} TradesIgnoreStamps(e: FillEvent, p: Position, q: Position)
    requires ValidFillEvent(e) && ValidPosition(p) && ValidPosition(q)
    requires q == p.(updatedAt := q.updatedAt)
    ensures ApplyBuy(e, Some(p)) == ApplyBuy(e, Some(q))
    ensures ApplySell(e, Some(p)) == ApplySell(e, Some(q))
  {
    var x, y := ApplyBuy(e, Some(p)).0, ApplyBuy(e, Some(q)).0;
    assert x.avgEntryPrice == y.avgEntryPrice && x.unrealizedPnl == y.unrealizedPnl;
  }

  /** A fill cannot tell two such positions apart: same refusal or same result. */
  lemma {:induction false} FillCannotTellReleases(e: FillEvent, p: Option<Position>, q: Option<Position>,
                               balance: Option<BalanceSnapshot>)
    requires ValidFillEvent(e)
    requires p.Some? ==> ValidPosition(p.value)
    requires q.Some? ==> ValidPosition(q.value)
    requires SameAsOf(p, q, DateOf(e.eventTime))
    ensures
      var a, b := ApplyFill(e, p, balance), ApplyFill(e, q, balance);
      && (a.Ok? <==> b.Ok?)
      && (a.Ok? ==> a.value.position == b.value.position && a.value.balance == b.value.balance)
      && (a.Error? ==> a == b)
  {
    if p.Some? {
      var d := DateOf(e.eventTime);
      var rp, rq := Release(p.value, d, e.eventTime), Release(q.value, d, e.eventTime);
      assert rp.(updatedAt := 0) == AsOf(p.value, d) == AsOf(q.value, d) == rq.(updatedAt := 0);
      assert rq == rq.(updatedAt := 0).(updatedAt := rq.updatedAt);
      TradesIgnoreStamps(e, rp, rq);
    }
  }

  datatype LedgerStep = BookFill(event: FillEvent) | ReleaseStep(symbol: Symbol, tradeDate: int, at: Time)

  /** The date a step belongs to: a fill's own, a release's stamp or the date released for,
      whichever is later. */
  function StepDate(s: LedgerStep): int {
    if s.BookFill? then DateOf(s.event.eventTime) else MaxInt(s.tradeDate, DateOf(s.at))
  }

  /** Dates do not go backwards. */
  ghost predicate WellTimed(steps: seq<LedgerStep>) {
    && (forall i, j :: 0 <= i < j < |steps| ==> StepDate(steps[i]) <= StepDate(steps[j]))
    && (forall i :: 0 <= i < |steps| ==> steps[i].BookFill? ==> ValidFillEvent(steps[i].event))
  }

  function RunStep(pf: Portfolio, s: LedgerStep): (r: Result<Portfolio, LedgerError>)
    requires ValidPortfolio(pf) && (s.BookFill? ==> ValidFillEvent(s.event))
    ensures r.Ok? ==> ValidPortfolio(r.value)
  {
    match s
    case BookFill(e) => Book(pf, e)
    case ReleaseStep(symbol, d, at) =>
      if symbol in pf.positions
      then Ok(pf.(positions := pf.positions[symbol := Release(pf.positions[symbol], d, at)]))
      else Ok(pf)
  }

  ghost function RunSteps(pf: Portfolio, steps: seq<LedgerStep>): (r: Result<Portfolio, LedgerError>)
    requires ValidPortfolio(pf) && WellTimed(steps)
    ensures r.Ok? ==> ValidPortfolio(r.value)
  {
    if steps == [] then Ok(pf)
    else
      var before :- RunSteps(pf, steps[..|steps| - 1]);
      RunStep(before, steps[|steps| - 1])
  }

  /** The fills of a run, its releases left out. */
  function FillsOf(steps: seq<LedgerStep>): seq<FillEvent> {
    if steps == [] then []
    else
      var s := steps[|steps| - 1];
      FillsOf(steps[..|steps| - 1]) + if s.BookFill? then [s.event] else []
  }

  ghost predicate SamePositionsAsOf(a: map<Symbol, Position>, b: map<Symbol, Position>, d: int) {
    forall s :: SameAsOf(Get(a, s), Get(b, s), d)
  }

  ghost predicate SamePortfolioAsOf(a: Portfolio, b: Portfolio, d: int) {
    a.balances == b.balances && SamePositionsAsOf(a.positions, b.positions, d)
  }

  ghost predicate DatedBy(pf: Portfolio, d: int) {
    forall s :: s in pf.positions ==> DateOf(pf.positions[s].updatedAt) <= d
  }

  lemma {:induction false} FillsOfAreValid(steps: seq<LedgerStep>)
    requires WellTimed(steps)
    ensures ValidFillEvents(FillsOf(steps))
  {
    if steps != [] { FillsOfAreValid(steps[..|steps| - 1]); }
  }

  lemma {:induction false} SamePortfolioLater(a: Portfolio, b: Portfolio, d: int, later: int)
    requires d <= later && DatedBy(a, d) && DatedBy(b, d) && SamePortfolioAsOf(a, b, d)
    ensures DatedBy(a, later) && DatedBy(b, later) && SamePortfolioAsOf(a, b, later)
  {
    forall s ensures SameAsOf(Get(a.positions, s), Get(b.positions, s), later) {
      assert SameAsOf(Get(a.positions, s), Get(b.positions, s), d);
      if s in a.positions {
        SameAsOfLater(a.positions[s], b.positions[s], d, later);
      }
    }
  }

  /** Release steps anywhere in a run leave the ledger, as of the last date, where the
      fills alone leave it, and the run is refused exactly when the fills alone are. */
  lemma {:induction false} ReleasesAreInvisible(pf: Portfolio, steps: seq<LedgerStep>, start: int)
    requires ValidPortfolio(pf) && WellTimed(steps) && DatedBy(pf, start)
    requires steps != [] ==> start <= StepDate(steps[0])
    ensures ValidFillEvents(FillsOf(steps))
    ensures
      var today := if steps == [] then start else StepDate(steps[|steps| - 1]);
      var mixed, plain := RunSteps(pf, steps), BookAll(pf, FillsOf(steps));
      && (mixed.Ok? <==> plain.Ok?)
      && (mixed.Ok? ==> SamePortfolioAsOf(mixed.value, plain.value, today)
                        && DatedBy(mixed.value, today) && DatedBy(plain.value, today))
  {
    FillsOfAreValid(steps);
    if steps != [] {
      var front, last := steps[..|steps| - 1], steps[|steps| - 1];
      ReleasesAreInvisible(pf, front, start);
      var mixed, plain := RunSteps(pf, front), BookAll(pf, FillsOf(front));
      var d := if front == [] then start else StepDate(front[|front| - 1]);
      if mixed.Ok? {
        SamePortfolioLater(mixed.value, plain.value, d, StepDate(last));
        StepKeepsAgreement(mixed.value, plain.value, last);
      }
      if last.BookFill? {
        assert FillsOf(steps)[..|FillsOf(steps)| - 1] == FillsOf(front);
      } else {
        assert FillsOf(steps) == FillsOf(front);
      }
    }
  }

  /** One more step on both sides: the fill on both, a release only on the first. */
  lemma {:induction false} StepKeepsAgreement(a: Portfolio, b: Portfolio, s: LedgerStep)
    requires ValidPortfolio(a) && ValidPortfolio(b)
    requires s.BookFill? ==> ValidFillEvent(s.event)
    requires SamePortfolioAsOf(a, b, StepDate(s)) && DatedBy(a, StepDate(s)) && DatedBy(b, StepDate(s))
    ensures
      var a', b' := RunStep(a, s), if s.BookFill? then Book(b, s.event) else Ok(b);
      && (a'.Ok? <==> b'.Ok?)
      && (a'.Ok? ==> SamePortfolioAsOf(a'.value, b'.value, StepDate(s))
                     && DatedBy(a'.value, StepDate(s)) && DatedBy(b'.value, StepDate(s)))
  {
    if s.BookFill? {
      BookKeepsAgreement(a, b, s.event);
    } else if s.symbol in a.positions {
      ReleaseIsInvisible(a.positions[s.symbol], s.tradeDate, s.at, StepDate(s));
      var after := Release(a.positions[s.symbol], s.tradeDate, s.at);
      assert SameAsOf(Get(a.positions, s.symbol), Get(b.positions, s.symbol), StepDate(s));
      WriteKeepsAgreement(a.positions, b.positions, s.symbol, after, b.positions[s.symbol], StepDate(s));
      assert b.positions[s.symbol := b.positions[s.symbol]] == b.positions;
    }
  }

  lemma {:induction false} WriteKeepsAgreement(a: map<Symbol, Position>, b: map<Symbol, Position>, s: Symbol,
                            p: Position, q: Position, d: int)
    requires SamePositionsAsOf(a, b, d) && AsOf(p, d) == AsOf(q, d)
    ensures SamePositionsAsOf(a[s := p], b[s := q], d)
  {
    var a', b' := a[s := p], b[s := q];
    forall x: Symbol ensures SameAsOf(Get(a', x), Get(b', x), d) {
      assert SameAsOf(Get(a, x), Get(b, x), d);
    }
  }

  /** The portfolio a booking leaves, given the update the ledger computed. */
  ghost predicate Writes(pf: Portfolio, e: FillEvent, u: Result<PortfolioUpdate, LedgerError>,
                         after: Result<Portfolio, LedgerError>) {
    && (u.Ok? <==> after.Ok?)
    && (u.Ok? ==> u.value.position.updatedAt == e.eventTime)
    && (u.Ok? ==> after.value == Portfolio(pf.positions[e.fill.symbol := u.value.position],
                                           pf.balances[u.value.balance.asset := u.value.balance]))
  }

  lemma {:induction false} BookWrites(pf: Portfolio, e: FillEvent)
    requires ValidPortfolio(pf) && ValidFillEvent(e)
    ensures Writes(pf, e, ApplyFill(e, Get(pf.positions, e.fill.symbol), Get(pf.balances, e.cost.currency)),
                   Book(pf, e))
  {
  }

  lemma {:induction false} SameUpdateKeepsAgreement(a: Portfolio, b: Portfolio, e: FillEvent,
                                 u: Result<PortfolioUpdate, LedgerError>, v: Result<PortfolioUpdate, LedgerError>,
                                 a': Result<Portfolio, LedgerError>, b': Result<Portfolio, LedgerError>)
    requires Writes(a, e, u, a') && Writes(b, e, v, b')
    requires SamePortfolioAsOf(a, b, DateOf(e.eventTime))
    requires DatedBy(a, DateOf(e.eventTime)) && DatedBy(b, DateOf(e.eventTime))
    requires u.Ok? <==> v.Ok?
    requires u.Ok? ==> u.value.position == v.value.position && u.value.balance == v.value.balance
    ensures a'.Ok? <==> b'.Ok?
    ensures a'.Ok? ==> SamePortfolioAsOf(a'.value, b'.value, DateOf(e.eventTime))
                       && DatedBy(a'.value, DateOf(e.eventTime)) && DatedBy(b'.value, DateOf(e.eventTime))
  {
    if u.Ok? {
      WriteKeepsAgreement(a.positions, b.positions, e.fill.symbol, u.value.position, v.value.position,
                          DateOf(e.eventTime));
    }
  }

  lemma {:induction false} BookKeepsAgreement(a: Portfolio, b: Portfolio, e: FillEvent)
    requires ValidPortfolio(a) && ValidPortfolio(b) && ValidFillEvent(e)
    requires SamePortfolioAsOf(a, b, DateOf(e.eventTime))
    requires DatedBy(a, DateOf(e.eventTime)) && DatedBy(b, DateOf(e.eventTime))
    ensures
      var a', b' := Book(a, e), Book(b, e);
      && (a'.Ok? <==> b'.Ok?)
      && (a'.Ok? ==> SamePortfolioAsOf(a'.value, b'.value, DateOf(e.eventTime))
                     && DatedBy(a'.value, DateOf(e.eventTime)) && DatedBy(b'.value, DateOf(e.eventTime)))
  {
    var p, q := Get(a.positions, e.fill.symbol), Get(b.positions, e.fill.symbol);
    var balance := Get(a.balances, e.cost.currency);
    assert SameAsOf(p, q, DateOf(e.eventTime));
    FillCannotTellReleases(e, p, q, balance);
    BookWrites(a, e);
    BookWrites(b, e);
    SameUpdateKeepsAgreement(a, b, e, ApplyFill(e, p, balance), ApplyFill(e, q, balance), Book(a, e), Book(b, e));
  }
}
