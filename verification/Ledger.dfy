/** The portfolio ledger: what one fill does to a position and to cash. */
module Ledger {
  import opened Prelude
  import opened Execution
  import opened Costs

  datatype PositionStatus = Open | Closed

  datatype Position = Position(
    symbol: Symbol,
    qty: real,
    sellableQty: real,
    avgEntryPrice: Option<real>,
    markPrice: Option<real>,
    unrealizedPnl: real,
    realizedPnl: real,
    status: PositionStatus,
    updatedAt: Time)

  datatype BalanceSnapshot = BalanceSnapshot(
    asset: Asset,
    total: real,
    available: real,
    locked: real,
    snapshotTime: Time,
    createdAt: Time)

  datatype FillEvent = FillEvent(fill: Fill, cost: CostBreakdown, eventTime: Time)

  datatype LedgerError =
    | PositionMismatch
    | NoOpenPosition
    | SellExceedsPosition
    | SellExceedsSellable
    | AssetMismatch
    | NoBalanceToDebit
    | NegativeCash

  datatype PortfolioUpdate = PortfolioUpdate(
    position: Position,
    balance: BalanceSnapshot,
    releasedQty: real,
    realizedPnlDelta: real,
    cashDelta: real)

  predicate ValidPosition(p: Position) {
    && 0.0 <= p.sellableQty <= p.qty
    && Positive(p.avgEntryPrice) && Positive(p.markPrice)
    && (p.qty == 0.0 ==> p.status == Closed && p.avgEntryPrice.None? && p.unrealizedPnl == 0.0)
    && (p.qty != 0.0 ==> p.status == Open && p.avgEntryPrice.Some?)
  }

  predicate ValidBalance(b: BalanceSnapshot) {
    && b.total >= 0.0 && b.available >= 0.0 && b.locked >= 0.0
    && b.available + b.locked == b.total
    && b.snapshotTime <= b.createdAt
  }

  /** What the fill and fill-event validators accept, with a breakdown from the cost model. */
  predicate ValidFillEvent(e: FillEvent) {
    && e.fill.qty > 0.0 && e.fill.price > 0.0 && e.fill.fee >= 0.0
    && e.cost.grossNotional == Notional(e.fill)
    && e.cost.totalFee == e.fill.fee
    && Settles(e.cost, e.fill.side)
    && e.fill.fillTime <= e.eventTime
  }

  // ------------------------------------------------------------- the T+1 rule

  /** Shares bought on an earlier trade date become sellable. */
  function Release(p: Position, tradeDate: int, at: Time): (r: Position)
    ensures ValidPosition(p) ==> ValidPosition(r)
  {
    if p.qty == 0.0 || p.sellableQty == p.qty || DateOf(p.updatedAt) >= tradeDate then p
    else p.(sellableQty := p.qty, updatedAt := at)
  }

  predicate Released(p: Position, tradeDate: int) {
    p.qty == 0.0 || p.sellableQty == p.qty || DateOf(p.updatedAt) >= tradeDate
  }

  // ----------------------------------------------------------------- one fill

  /** The cost per share after adding shares to a holding. */
  function BlendedAverage(qty: real, avg: real, notional: real, newQty: real): real
    requires newQty != 0.0
  {
    (qty * avg + notional) / newQty
  }

  function Gain(price: real, avg: real, qty: real): real { (price - avg) * qty }

  function ApplyBuy(e: FillEvent, current: Option<Position>): (Position, real)
    requires ValidFillEvent(e)
    requires current.Some? ==> ValidPosition(current.value)
  {
    var qty := if current.Some? then current.value.qty else 0.0;
    var sellable := if current.Some? then current.value.sellableQty else 0.0;
    var realized := if current.Some? then current.value.realizedPnl else 0.0;
    var avg := if current.Some? && current.value.avgEntryPrice.Some?
               then current.value.avgEntryPrice.value else 0.0;
    var newQty := qty + e.fill.qty;
    var newAvg := BlendedAverage(qty, avg, Notional(e.fill), newQty);
    (Position(e.fill.symbol, newQty, sellable, Some(newAvg), Some(e.fill.price),
              Gain(e.fill.price, newAvg, newQty), realized - e.cost.totalFee, Open, e.eventTime),
     -e.cost.totalFee)
  }

  function ApplySell(e: FillEvent, current: Option<Position>): (r: Result<(Position, real), LedgerError>)
  {
    if current.None? || current.value.qty == 0.0 || current.value.avgEntryPrice.None? then
      Error(NoOpenPosition)
    else if e.fill.qty > current.value.qty then Error(SellExceedsPosition)
    else if e.fill.qty > current.value.sellableQty then Error(SellExceedsSellable)
    else
      var p := current.value;
      var avg := p.avgEntryPrice.value;
      var delta := Gain(e.fill.price, avg, e.fill.qty) - e.cost.totalFee;
      var remaining := p.qty - e.fill.qty;
      if remaining == 0.0 then
        Ok((Position(p.symbol, 0.0, 0.0, None, None, 0.0, p.realizedPnl + delta, Closed, e.eventTime), delta))
      else
        Ok((Position(p.symbol, remaining, p.sellableQty - e.fill.qty, Some(avg), Some(e.fill.price),
                     Gain(e.fill.price, avg, remaining), p.realizedPnl + delta, Open, e.eventTime), delta))
  }

  function ApplyCashFlow(e: FillEvent, current: Option<BalanceSnapshot>): (r: Result<BalanceSnapshot, LedgerError>)
  {
    var delta := e.cost.netCashFlow;
    if current.Some? && current.value.asset != e.cost.currency then Error(AssetMismatch)
    else if current.None? && delta < 0.0 then Error(NoBalanceToDebit)
    else
      var total := if current.Some? then current.value.total else 0.0;
      var available := if current.Some? then current.value.available else 0.0;
      var locked := if current.Some? then current.value.locked else 0.0;
      if total + delta < 0.0 || available + delta < 0.0 then Error(NegativeCash)
      else Ok(BalanceSnapshot(e.cost.currency, total + delta, available + delta, locked, e.eventTime, e.eventTime))
  }

  /** One fill onto the latest position of its symbol and the latest balance. */
  function ApplyFill(e: FillEvent, position: Option<Position>, balance: Option<BalanceSnapshot>)
      : (r: Result<PortfolioUpdate, LedgerError>)
    requires ValidFillEvent(e)
    requires position.Some? ==> ValidPosition(position.value)
  {
    if position.Some? && position.value.symbol != e.fill.symbol then Error(PositionMismatch)
    else
      var released := if position.Some?
                      then Some(Release(position.value, DateOf(e.eventTime), e.eventTime)) else None;
      var releasedQty := if position.Some? then released.value.sellableQty - position.value.sellableQty else 0.0;
      var traded :- if e.fill.side == Buy then Ok(ApplyBuy(e, released)) else ApplySell(e, released);
      var nextBalance :- ApplyCashFlow(e, balance);
      Ok(PortfolioUpdate(traded.0, nextBalance, releasedQty, traded.1, e.cost.netCashFlow))
  }

  /** Dividing the carried cost back out loses nothing. */
  lemma {:induction false} AverageTimesQuantity(cost: real, qty: real)
    requires qty != 0.0
    ensures qty * (cost / qty) == cost
  {
  }

  lemma {:induction false} BuyAverageIsPositive(qty: real, avg: real, fillQty: real, price: real)
    requires qty >= 0.0 && avg >= 0.0 && fillQty > 0.0 && price > 0.0
    ensures BlendedAverage(qty, avg, fillQty * price, qty + fillQty) > 0.0
  {
    assert qty * avg >= 0.0 && fillQty * price > 0.0;
  }

  /** An accepted fill leaves a valid position, stamped with the event time. */
  lemma {:induction false} ApplyFillKeepsPositionsValid(e: FillEvent, position: Option<Position>,
                                                        balance: Option<BalanceSnapshot>)
    requires ValidFillEvent(e)
    requires position.Some? ==> ValidPosition(position.value)
    requires ApplyFill(e, position, balance).Ok?
    ensures
      var p := ApplyFill(e, position, balance).value.position;
      ValidPosition(p) && p.symbol == e.fill.symbol && p.updatedAt == e.eventTime
  {
    if e.fill.side == Buy {
      var qty := if position.Some? then position.value.qty else 0.0;
      var avg := if position.Some? && position.value.avgEntryPrice.Some?
                 then position.value.avgEntryPrice.value else 0.0;
      BuyAverageIsPositive(qty, avg, e.fill.qty, e.fill.price);
    }
  }

  /** An accepted fill moves the balance by the net cash flow and leaves it valid. */
  lemma {:induction false} ApplyFillMovesCash(e: FillEvent, position: Option<Position>,
                                              balance: Option<BalanceSnapshot>)
    requires ValidFillEvent(e)
    requires position.Some? ==> ValidPosition(position.value)
    requires balance.Some? ==> ValidBalance(balance.value)
    requires ApplyFill(e, position, balance).Ok?
    ensures
      var b := ApplyFill(e, position, balance).value.balance;
      && ValidBalance(b) && b.snapshotTime == e.eventTime && b.asset == e.cost.currency
      && b.total == (if balance.Some? then balance.value.total else 0.0) + e.cost.netCashFlow
      && b.locked == (if balance.Some? then balance.value.locked else 0.0)
  {
  }

  // ---------------------------------------------------------- the whole ledger

  datatype Portfolio = Portfolio(positions: map<Symbol, Position>, balances: map<Asset, BalanceSnapshot>)

  function Get<K, V>(m: map<K, V>, k: K): Option<V> { if k in m then Some(m[k]) else None }

  predicate ValidPortfolio(pf: Portfolio) {
    && (forall s :: s in pf.positions ==> ValidPosition(pf.positions[s]) && pf.positions[s].symbol == s)
    && (forall a :: a in pf.balances ==> ValidBalance(pf.balances[a]) && pf.balances[a].asset == a)
  }

  /** Books one fill event onto the position of its symbol and the balance of its currency. */
  function Book(pf: Portfolio, e: FillEvent): (r: Result<Portfolio, LedgerError>)
    requires ValidPortfolio(pf) && ValidFillEvent(e)
    ensures r.Ok? ==> ValidPortfolio(r.value)
  {
    var position := Get(pf.positions, e.fill.symbol);
    var balance := Get(pf.balances, e.cost.currency);
    var u :- ApplyFill(e, position, balance);
    ApplyFillKeepsPositionsValid(e, position, balance);
    ApplyFillMovesCash(e, position, balance);
    Ok(Portfolio(pf.positions[e.fill.symbol := u.position], pf.balances[u.balance.asset := u.balance]))
  }

  predicate ValidFillEvents(es: seq<FillEvent>) {
    forall i :: 0 <= i < |es| ==> ValidFillEvent(es[i])
  }

  /** The fold of the ledger over fill events, stopping at the first refusal. */
  function BookAll(pf: Portfolio, es: seq<FillEvent>): (r: Result<Portfolio, LedgerError>)
    requires ValidPortfolio(pf) && ValidFillEvents(es)
    ensures r.Ok? ==> ValidPortfolio(r.value)
  {
    if es == [] then Ok(pf)
    else
      var before :- BookAll(pf, es[..|es| - 1]);
      Book(before, es[|es| - 1])
  }

  // --------------------------------------------------------- which fills are taken

  /** What the position lets be sold at the fill's time: locked shares only if they are of an earlier date. */
  function SellableThen(p: Position, at: Time): real {
    if DateOf(p.updatedAt) < DateOf(at) then p.qty else p.sellableQty
  }

  predicate SharesSuffice(e: FillEvent, position: Option<Position>) {
    && (position.Some? ==> position.value.symbol == e.fill.symbol)
    && (e.fill.side == Sell ==> position.Some? && e.fill.qty <= SellableThen(position.value, e.eventTime))
  }

  predicate CashSuffices(e: FillEvent, balance: Option<BalanceSnapshot>) {
    if balance.None? then e.cost.netCashFlow >= 0.0
    else
      && balance.value.asset == e.cost.currency
      && balance.value.total + e.cost.netCashFlow >= 0.0 && balance.value.available + e.cost.netCashFlow >= 0.0
  }

  /** The ledger takes a fill exactly when it is of the position's symbol, sells no more than may be
      sold by then, and leaves no negative cash. */
  lemma {:induction false} FillIsTakenExactly(e: FillEvent, position: Option<Position>,
                                              balance: Option<BalanceSnapshot>)
    requires ValidFillEvent(e)
    requires position.Some? ==> ValidPosition(position.value)
    ensures ApplyFill(e, position, balance).Ok? <==> SharesSuffice(e, position) && CashSuffices(e, balance)
    ensures ApplyFill(e, position, balance).Ok? ==>
      var p := ApplyFill(e, position, balance).value.position;
      var qty := if position.Some? then position.value.qty else 0.0;
      var sellable := if position.Some? then SellableThen(position.value, e.eventTime) else 0.0;
      && p.qty == (if e.fill.side == Buy then qty + e.fill.qty else qty - e.fill.qty)
      && p.sellableQty == (if e.fill.side == Buy then sellable else sellable - e.fill.qty)
      && p.markPrice == if p.qty == 0.0 then None else Some(e.fill.price)
  {
  }
}
