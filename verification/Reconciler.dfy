/** The batch reconciler: replays persisted fills and compares with the persisted state. */
module Reconciler {
  import opened Prelude
  import opened Sorting
  import opened Execution
  import opened Costs
  import opened Ledger

  datatype Facts = Facts(
    intents: seq<OrderIntent>,
    orders: seq<Order>,
    fills: seq<Fill>,
    positions: seq<Position>,
    balances: seq<BalanceSnapshot>,
    tradeDate: int)

  datatype Issue =
    | OrderIntentMissing(order: OrderId)
    | OrderIntentDrift(order: OrderId)
    | OrderFilledQtyDrift(order: OrderId)
    | OrderOverfilled(order: OrderId)
    | OrderAvgFillPriceDrift(order: OrderId)
    | OrderStatusDrift(order: OrderId, expected: OrderStatus)
    | FillFeeDrift(fill: FillId)
    | FillOrderMissing(fill: FillId)
    | FillLedgerReplayFailed(fill: FillId)
    | PositionUnbackedByFills(symbol: Symbol)
    | PositionMissing(symbol: Symbol)
    | PositionStateDrift(symbol: Symbol)
    | BalanceUnbackedByLedger(asset: Asset)
    | BalanceSnapshotMissing(asset: Asset)
    | BalanceStateDrift(asset: Asset)
    | BalanceSnapshotStale(asset: Asset)

  predicate ValidFill(f: Fill) {
    f.qty > 0.0 && f.price > 0.0 && f.fee >= 0.0 && f.fillTime <= f.createdAt
  }

  /** What the record validators guarantee of rows read back. */
  predicate ValidFacts(facts: Facts) {
    && (forall i :: 0 <= i < |facts.fills| ==> ValidFill(facts.fills[i]))
    && (forall i :: 0 <= i < |facts.balances| ==> ValidBalance(facts.balances[i]))
  }

  // ------------------------------------------------------------------ sort keys

  predicate IdBefore(a: FillId, b: FillId) {
    a.order.intent < b.order.intent || (a.order == b.order && a.index < b.index)
  }

  /** Fills by fill time, then creation time, then id. */
  predicate FillBefore(a: Fill, b: Fill) {
    a.fillTime < b.fillTime
    || (a.fillTime == b.fillTime
        && (a.createdAt < b.createdAt || (a.createdAt == b.createdAt && IdBefore(a.id, b.id))))
  }

  /** Snapshots by asset, then snapshot time, then creation time. */
  predicate SnapshotBefore(a: BalanceSnapshot, b: BalanceSnapshot) {
    a.asset < b.asset
    || (a.asset == b.asset
        && (a.snapshotTime < b.snapshotTime || (a.snapshotTime == b.snapshotTime && a.createdAt < b.createdAt)))
  }

  lemma {:induction false} KeysAreOrders()
    ensures KeyOrder(FillBefore) && KeyOrder(SnapshotBefore)
  {
  }

  // ---------------------------------------------------------------- order checks

  function FilledQty(fills: seq<Fill>, o: OrderId): real {
    if fills == [] then 0.0
    else
      var f := fills[|fills| - 1];
      FilledQty(fills[..|fills| - 1], o) + if f.orderId == o then f.qty else 0.0
  }

  function FilledNotional(fills: seq<Fill>, o: OrderId): real {
    if fills == [] then 0.0
    else
      var f := fills[|fills| - 1];
      FilledNotional(fills[..|fills| - 1], o) + if f.orderId == o then Notional(f) else 0.0
  }

  predicate SameInstruction(o: Order, i: OrderIntent) {
    o.symbol == i.symbol && o.side == i.side && o.orderType == i.orderType && o.qty == i.qty && o.price == i.price
  }

  /** The status the fills ask for, when the order's own status contradicts them. */
  function ExpectedStatus(o: Order, filled: real): Option<OrderStatus> {
    if filled == 0.0 then if o.status in {PartiallyFilled, Filled} then Some(Ack) else None
    else if filled == o.qty then if o.status != Filled then Some(Filled) else None
    else if o.status !in {PartiallyFilled, Canceled} then Some(PartiallyFilled)
    else None
  }

  function When(c: bool, i: Issue): seq<Issue> { if c then [i] else [] }

  /** The issues of one order, against its intent and the totals of its fills. */
  function OrderIssues(o: Order, intent: Option<OrderIntent>, filled: real, notional: real): seq<Issue> {
    var expected := ExpectedStatus(o, filled);
    (if intent.None? then [OrderIntentMissing(o.id)]
     else When(!SameInstruction(o, intent.value), OrderIntentDrift(o.id)))
    + When(filled != o.filledQty, OrderFilledQtyDrift(o.id))
    + When(filled > o.qty, OrderOverfilled(o.id))
    + When(filled > 0.0 && o.avgFillPrice != Some(notional / filled), OrderAvgFillPriceDrift(o.id))
    + if expected.Some? then [OrderStatusDrift(o.id, expected.value)] else []
  }

  /** Rows by key; a later row of the same key wins. */
  function Index<K, V>(rows: seq<V>, key: V -> K): map<K, V> {
    if rows == [] then map[]
    else Index(rows[..|rows| - 1], key)[key(rows[|rows| - 1]) := rows[|rows| - 1]]
  }

  function IntentKey(i: OrderIntent): IntentId { i.id }
  function OrderKey(o: Order): OrderId { o.id }
  function PositionKey(p: Position): Symbol { p.symbol }

  function IntentMap(intents: seq<OrderIntent>): map<IntentId, OrderIntent> { Index(intents, IntentKey) }
  function OrderMap(orders: seq<Order>): map<OrderId, Order> { Index(orders, OrderKey) }
  function PositionMap(positions: seq<Position>): map<Symbol, Position> { Index(positions, PositionKey) }

  function AllOrderIssues(orders: seq<Order>, intents: map<IntentId, OrderIntent>, fills: seq<Fill>): seq<Issue> {
    if orders == [] then []
    else
      var o := orders[|orders| - 1];
      AllOrderIssues(orders[..|orders| - 1], intents, fills)
      + OrderIssues(o, Get(intents, o.intentId), FilledQty(fills, o.id), FilledNotional(fills, o.id))
  }

  // ---------------------------------------------------------------------- replay

  datatype FeeTotals = FeeTotals(commission: real, transferFee: real, stampDuty: real, totalFee: real,
                                 netCashFlow: real)

  function AddCosts(t: FeeTotals, c: CostBreakdown): FeeTotals {
    FeeTotals(t.commission + c.commission, t.transferFee + c.transferFee, t.stampDuty + c.stampDuty,
              t.totalFee + c.totalFee, t.netCashFlow + c.netCashFlow)
  }

  datatype Replay = Replay(portfolio: Portfolio, totals: FeeTotals, count: nat, issues: seq<Issue>)

  lemma {:induction false} NotionalIsPositive(f: Fill)
    requires ValidFill(f)
    ensures Notional(f) > 0.0
  {
  }

  /** The reconciler's own rounding: up from the middle between two grid points. */
  function RoundFee(value: real): real {
    var scaled := value * 10000.0;
    var below := scaled.Floor as real;
    (if scaled - below >= 0.5 then below + 1.0 else below) / 10000.0
  }

  lemma {:induction false} RoundFeeIsQuantizeFee(value: real)
    requires value >= 0.0
    ensures RoundFee(value) == QuantizeFee(value)
  {
    var below := (value * 10000.0).Floor;
    assert OnGrid(below as real / 10000.0) && OnGrid((below as real + 1.0) / 10000.0) by {
      assert (below as real / 10000.0) * 10000.0 == below as real;
      assert ((below as real + 1.0) / 10000.0) * 10000.0 == (below + 1) as real;
    }
    QuantizeFeeIsUnique(value, RoundFee(value));
  }

  function RebuiltComponent(gross: real, rate: real): real { RoundFee(gross * rate) }

  /** The breakdown rebuilt from a persisted fill and the cost model. */
  function FillCost(f: Fill, m: CostModel): (c: CostBreakdown)
    ensures c.currency == CNY && c.grossNotional == Notional(f) && Settles(c, f.side)
  {
    var gross := Notional(f);
    var commission := RebuiltComponent(gross, m.commission);
    var transferFee := RebuiltComponent(gross, m.transferFee);
    var stampDuty := if f.side == Sell then RebuiltComponent(gross, m.stampDutySell) else 0.0;
    var total := commission + transferFee + stampDuty;
    CostBreakdown(CNY, gross, commission, transferFee, stampDuty, total,
                  if f.side == Sell then gross - total else -(gross + total))
  }

  /** The envelope a persisted fill is replayed in. */
  function ReplayEvent(f: Fill, m: CostModel): (e: FillEvent)
    requires ValidFill(f) && ValidCostModel(m)
    ensures f.fee == FillCost(f, m).totalFee ==> ValidFillEvent(e)
  {
    FillEvent(f, FillCost(f, m), f.fillTime)
  }

  function ReplayFill(r: Replay, f: Fill, orders: map<OrderId, Order>, m: CostModel): (r': Replay)
    requires ValidPortfolio(r.portfolio) && ValidFill(f) && ValidCostModel(m)
    ensures ValidPortfolio(r'.portfolio)
  {
    var cost := FillCost(f, m);
    var totals := AddCosts(r.totals, cost);
    var issues := r.issues + When(f.fee != cost.totalFee, FillFeeDrift(f.id));
    if f.orderId !in orders then
      r.(totals := totals, issues := issues + [FillOrderMissing(f.id)])
    else if f.fee != cost.totalFee then
      r.(totals := totals, issues := issues + [FillLedgerReplayFailed(f.id)])
    else
      var booked := Book(r.portfolio, ReplayEvent(f, m));
      if booked.Error? then r.(totals := totals, issues := issues + [FillLedgerReplayFailed(f.id)])
      else Replay(booked.value, totals, r.count + 1, issues)
  }

  predicate ValidFills(fills: seq<Fill>) { forall i :: 0 <= i < |fills| ==> ValidFill(fills[i]) }

  function ReplayAll(start: Portfolio, fills: seq<Fill>, orders: map<OrderId, Order>, m: CostModel): (r: Replay)
    requires ValidPortfolio(start) && ValidFills(fills) && ValidCostModel(m)
    ensures ValidPortfolio(r.portfolio)
  {
    if fills == [] then Replay(start, FeeTotals(0.0, 0.0, 0.0, 0.0, 0.0), 0, [])
    else ReplayFill(ReplayAll(start, fills[..|fills| - 1], orders, m), fills[|fills| - 1], orders, m)
  }

  // ---------------------------------------------------------- state comparisons

  predicate Flat(p: Position) {
    && p.qty == 0.0 && p.sellableQty == 0.0 && p.status == Closed
    && p.avgEntryPrice.None? && p.markPrice.None? && p.unrealizedPnl == 0.0
  }

  predicate SamePositionFields(p: Position, q: Position) {
    && p.qty == q.qty && p.sellableQty == q.sellableQty && p.avgEntryPrice == q.avgEntryPrice
    && p.markPrice == q.markPrice && p.unrealizedPnl == q.unrealizedPnl
    && p.realizedPnl == q.realizedPnl && p.status == q.status
  }

  function PositionIssues(s: Symbol, persisted: Option<Position>, replayed: Option<Position>): seq<Issue> {
    if replayed.None? then
      if persisted.None? then [] else When(!Flat(persisted.value), PositionUnbackedByFills(s))
    else if persisted.None? then [PositionMissing(s)]
    else When(!SamePositionFields(persisted.value, replayed.value), PositionStateDrift(s))
  }

  function AllPositionIssues(symbols: seq<Symbol>, persisted: map<Symbol, Position>, replayed: map<Symbol, Position>)
      : seq<Issue>
  {
    if symbols == [] then []
    else
      var s := symbols[|symbols| - 1];
      AllPositionIssues(symbols[..|symbols| - 1], persisted, replayed)
      + PositionIssues(s, Get(persisted, s), Get(replayed, s))
  }

  predicate SameBalanceFields(p: BalanceSnapshot, q: BalanceSnapshot) {
    p.total == q.total && p.available == q.available && p.locked == q.locked
  }

  function BalanceIssues(a: Asset, persisted: Option<BalanceSnapshot>, replayed: Option<BalanceSnapshot>): seq<Issue> {
    if replayed.None? then if persisted.None? then [] else [BalanceUnbackedByLedger(a)]
    else if persisted.None? then [BalanceSnapshotMissing(a)]
    else
      When(!SameBalanceFields(persisted.value, replayed.value), BalanceStateDrift(a))
      + When(persisted.value.snapshotTime < replayed.value.snapshotTime, BalanceSnapshotStale(a))
  }

  function AllBalanceIssues(assets: seq<Asset>, persisted: map<Asset, BalanceSnapshot>,
                            replayed: map<Asset, BalanceSnapshot>): seq<Issue>
  {
    if assets == [] then []
    else
      var a := assets[|assets| - 1];
      AllBalanceIssues(assets[..|assets| - 1], persisted, replayed)
      + BalanceIssues(a, Get(persisted, a), Get(replayed, a))
  }

  /** The last snapshot of each asset in a sorted listing. */
  function LatestByAsset(balances: seq<BalanceSnapshot>): map<Asset, BalanceSnapshot> {
    if balances == [] then map[]
    else LatestByAsset(balances[..|balances| - 1])[balances[|balances| - 1].asset := balances[|balances| - 1]]
  }

  /** The first snapshot of each asset in a sorted listing. */
  function BaselineByAsset(balances: seq<BalanceSnapshot>): map<Asset, BalanceSnapshot> {
    if balances == [] then map[]
    else
      var before, b := BaselineByAsset(balances[..|balances| - 1]), balances[|balances| - 1];
      if b.asset in before then before else before[b.asset := b]
  }

  lemma {:induction false} BaselineIsValid(balances: seq<BalanceSnapshot>)
    requires forall i :: 0 <= i < |balances| ==> ValidBalance(balances[i])
    ensures ValidPortfolio(Portfolio(map[], BaselineByAsset(balances)))
  {
    if balances != [] { BaselineIsValid(balances[..|balances| - 1]); }
  }

  /** The account before any fill: no positions, each asset at its first snapshot. */
  function Baseline(balances: seq<BalanceSnapshot>): (pf: Portfolio)
    requires forall i :: 0 <= i < |balances| ==> ValidBalance(balances[i])
    ensures ValidPortfolio(pf)
  {
    BaselineIsValid(balances);
    Portfolio(map[], BaselineByAsset(balances))
  }

  function ReleaseAll(positions: map<Symbol, Position>, tradeDate: int, at: Time): map<Symbol, Position> {
    map s | s in positions :: Release(positions[s], tradeDate, at)
  }

  lemma {:induction false} SortedFactsAreValid(facts: Facts)
    requires ValidFacts(facts)
    ensures ValidFills(SortBy(facts.fills, FillBefore))
    ensures forall i :: 0 <= i < |SortBy(facts.balances, SnapshotBefore)| ==>
              ValidBalance(SortBy(facts.balances, SnapshotBefore)[i])
  {
    KeysAreOrders();
    SortSorts(facts.fills, FillBefore);
    SortSorts(facts.balances, SnapshotBefore);
    forall i | 0 <= i < |SortBy(facts.fills, FillBefore)| ensures ValidFill(SortBy(facts.fills, FillBefore)[i]) {
      assert SortBy(facts.fills, FillBefore)[i] in multiset(facts.fills);
    }
    var sorted := SortBy(facts.balances, SnapshotBefore);
    forall i | 0 <= i < |sorted| ensures ValidBalance(sorted[i]) {
      assert sorted[i] in multiset(facts.balances);
    }
  }

  function FactsBaseline(facts: Facts): (pf: Portfolio)
    requires ValidFacts(facts)
    ensures ValidPortfolio(pf)
  {
    SortedFactsAreValid(facts);
    Baseline(SortBy(facts.balances, SnapshotBefore))
  }

  /** The replay of the persisted fills from the baseline balances. */
  function FactsReplay(facts: Facts, m: CostModel): (r: Replay)
    requires ValidFacts(facts) && ValidCostModel(m)
    ensures ValidPortfolio(r.portfolio)
  {
    SortedFactsAreValid(facts);
    ReplayAll(FactsBaseline(facts), SortBy(facts.fills, FillBefore), OrderMap(facts.orders), m)
  }

  /** Everything the reconciler reports. */
  function ExpectedIssues(facts: Facts, m: CostModel, at: Time): seq<Issue>
    requires ValidFacts(facts) && ValidCostModel(m)
  {
    var replay := FactsReplay(facts, m);
    var persisted := PositionMap(facts.positions);
    var replayed := ReleaseAll(replay.portfolio.positions, facts.tradeDate, at);
    var latest := LatestByAsset(SortBy(facts.balances, SnapshotBefore));
    Concat4(
      AllOrderIssues(facts.orders, IntentMap(facts.intents), facts.fills),
      replay.issues,
      AllPositionIssues(SortedKeys(persisted.Keys + replayed.Keys), persisted, replayed),
      AllBalanceIssues(SortedKeys(latest.Keys + replay.portfolio.balances.Keys), latest, replay.portfolio.balances))
  }

  function Concat4(a: seq<Issue>, b: seq<Issue>, c: seq<Issue>, d: seq<Issue>): (r: seq<Issue>)
    ensures r == [] <==> a == [] && b == [] && c == [] && d == []
  {
    a + b + c + d
  }

  // ----------------------------------------------------------- what clean means

  /** An order tells its intent's instruction and its fills' total, average and status. */
  predicate OrderConsistent(o: Order, intent: Option<OrderIntent>, filled: real, notional: real) {
    && intent.Some? && SameInstruction(o, intent.value)
    && o.filledQty == filled && filled <= o.qty
    && (filled > 0.0 ==> o.avgFillPrice == Some(notional / filled))
    && (o.status in {PartiallyFilled, Filled} ==> filled != 0.0)
    && (filled != 0.0 && filled == o.qty ==> o.status == Filled)
    && (filled != 0.0 && filled != o.qty ==> o.status in {PartiallyFilled, Canceled})
  }

  /** The persisted fee is the cost model's. */
  predicate Charged(f: Fill, m: CostModel)
    requires ValidFill(f) && ValidCostModel(m)
  {
    f.fee == FillCost(f, m).totalFee
  }

  predicate AllCharged(fills: seq<Fill>, m: CostModel)
    requires ValidFills(fills) && ValidCostModel(m)
  {
    forall i :: 0 <= i < |fills| ==> Charged(fills[i], m)
  }

  predicate AllOrdered(fills: seq<Fill>, orders: map<OrderId, Order>) {
    forall i :: 0 <= i < |fills| ==> fills[i].orderId in orders
  }

  function Events(fills: seq<Fill>, m: CostModel): (es: seq<FillEvent>)
    requires ValidFills(fills) && ValidCostModel(m) && AllCharged(fills, m)
    ensures |es| == |fills| && ValidFillEvents(es)
  {
    if fills == [] then []
    else Events(fills[..|fills| - 1], m) + [ReplayEvent(fills[|fills| - 1], m)]
  }

  /** Where the ledger arrives when it books charged fills one after the other. */
  function Booked(start: Portfolio, fills: seq<Fill>, m: CostModel): (r: Result<Portfolio, LedgerError>)
    requires ValidPortfolio(start) && ValidFills(fills) && ValidCostModel(m) && AllCharged(fills, m)
    ensures r.Ok? ==> ValidPortfolio(r.value)
  {
    BookAll(start, Events(fills, m))
  }

  predicate PositionAgrees(persisted: Option<Position>, booked: Option<Position>) {
    if booked.Some? then persisted.Some? && SamePositionFields(persisted.value, booked.value)
    else persisted.Some? ==> Flat(persisted.value)
  }

  predicate BalanceAgrees(persisted: Option<BalanceSnapshot>, booked: Option<BalanceSnapshot>) {
    && (persisted.Some? <==> booked.Some?)
    && (persisted.Some? ==> SameBalanceFields(persisted.value, booked.value)
                            && booked.value.snapshotTime <= persisted.value.snapshotTime)
  }

  ghost predicate OrdersConsistent(orders: seq<Order>, intents: map<IntentId, OrderIntent>, fills: seq<Fill>) {
    forall i :: 0 <= i < |orders| ==>
      OrderConsistent(orders[i], Get(intents, orders[i].intentId),
                      FilledQty(fills, orders[i].id), FilledNotional(fills, orders[i].id))
  }

  ghost predicate PositionsAgree(persisted: map<Symbol, Position>, booked: map<Symbol, Position>) {
    forall s: Symbol :: PositionAgrees(Get(persisted, s), Get(booked, s))
  }

  ghost predicate BalancesAgree(persisted: map<Asset, BalanceSnapshot>, booked: map<Asset, BalanceSnapshot>) {
    forall a: Asset :: BalanceAgrees(Get(persisted, a), Get(booked, a))
  }

  /** The persisted state is what booking the persisted fills gives. */
  ghost predicate StateConsistent(facts: Facts, booked: Portfolio, at: Time) {
    && PositionsAgree(PositionMap(facts.positions), ReleaseAll(booked.positions, facts.tradeDate, at))
    && BalancesAgree(LatestByAsset(SortBy(facts.balances, SnapshotBefore)), booked.balances)
  }

  /** The fills book, in time order, onto the baseline. */
  ghost predicate FillsBook(facts: Facts, m: CostModel)
    requires ValidFacts(facts) && ValidCostModel(m)
  {
    SortedFactsAreValid(facts);
    var fills, orders := SortBy(facts.fills, FillBefore), OrderMap(facts.orders);
    AllOrdered(fills, orders) && AllCharged(fills, m) && Booked(FactsBaseline(facts), fills, m).Ok?
  }

  ghost function BookedFacts(facts: Facts, m: CostModel): Portfolio
    requires ValidFacts(facts) && ValidCostModel(m) && FillsBook(facts, m)
  {
    SortedFactsAreValid(facts);
    Booked(FactsBaseline(facts), SortBy(facts.fills, FillBefore), m).value
  }

  /** What it means for persisted facts to agree with each other. */
  ghost predicate Consistent(facts: Facts, m: CostModel, at: Time)
    requires ValidFacts(facts) && ValidCostModel(m)
  {
    && OrdersConsistent(facts.orders, IntentMap(facts.intents), facts.fills)
    && FillsBook(facts, m)
    && StateConsistent(facts, BookedFacts(facts, m), at)
  }

  lemma {:induction false} FilledQtyIsNonNegative(fills: seq<Fill>, o: OrderId)
    requires ValidFills(fills)
    ensures FilledQty(fills, o) >= 0.0
  {
    if fills != [] { FilledQtyIsNonNegative(fills[..|fills| - 1], o); }
  }

  lemma {:induction false} OrderIssuesAreExact(o: Order, intent: Option<OrderIntent>, filled: real, notional: real)
    requires filled >= 0.0
    ensures OrderIssues(o, intent, filled, notional) == [] <==> OrderConsistent(o, intent, filled, notional)
  {
  }

  lemma {:induction false} AllOrderIssuesAreExact(orders: seq<Order>, intents: map<IntentId, OrderIntent>,
                                                  fills: seq<Fill>)
    requires ValidFills(fills)
    ensures AllOrderIssues(orders, intents, fills) == [] <==> OrdersConsistent(orders, intents, fills)
  {
    if orders != [] {
      var n := |orders| - 1;
      AllOrderIssuesAreExact(orders[..n], intents, fills);
      FilledQtyIsNonNegative(fills, orders[n].id);
      OrderIssuesAreExact(orders[n], Get(intents, orders[n].intentId),
                          FilledQty(fills, orders[n].id), FilledNotional(fills, orders[n].id));
    }
  }

  lemma {:induction false} ReplayFillIsExact(r: Replay, f: Fill, orders: map<OrderId, Order>, m: CostModel)
    requires ValidPortfolio(r.portfolio) && ValidFill(f) && ValidCostModel(m)
    ensures
      var r' := ReplayFill(r, f, orders, m);
      && (r'.issues == [] <==> r.issues == [] && f.orderId in orders && Charged(f, m)
                               && Book(r.portfolio, ReplayEvent(f, m)).Ok?)
      && (r'.issues == [] ==>
            && r'.portfolio == Book(r.portfolio, ReplayEvent(f, m)).value && r'.count == r.count + 1
            && CashOf(r'.portfolio) - r'.totals.netCashFlow == CashOf(r.portfolio) - r.totals.netCashFlow)
  {
    if Charged(f, m) {
      BookMovesCash(r.portfolio, ReplayEvent(f, m));
    }
  }

  lemma {:induction false} BookedGrows(start: Portfolio, front: seq<Fill>, f: Fill, m: CostModel)
    requires ValidPortfolio(start) && ValidFills(front) && ValidFill(f) && ValidCostModel(m)
    requires AllCharged(front, m) && Charged(f, m)
    ensures AllCharged(front + [f], m)
    ensures
      var before, after := Booked(start, front, m), Booked(start, front + [f], m);
      after == if before.Error? then before else Book(before.value, ReplayEvent(f, m))
  {
    var fills := front + [f];
    assert fills[..|fills| - 1] == front;
    assert AllCharged(fills, m);
    var es := Events(fills, m);
    assert es[..|es| - 1] == Events(front, m);
  }

  /** The replay is silent exactly when every fill books; then it is the ledger's own fold,
      and its cash-flow total is the change in cash. */
  lemma {:induction false} ReplayIsExact(start: Portfolio, fills: seq<Fill>, orders: map<OrderId, Order>, m: CostModel)
    requires ValidPortfolio(start) && ValidFills(fills) && ValidCostModel(m)
    ensures
      var r := ReplayAll(start, fills, orders, m);
      && (r.issues == [] <==> AllOrdered(fills, orders) && AllCharged(fills, m) && Booked(start, fills, m).Ok?)
      && (r.issues == [] ==> r.portfolio == Booked(start, fills, m).value && r.count == |fills|
                             && CashOf(r.portfolio) == CashOf(start) + r.totals.netCashFlow)
  {
    if fills != [] {
      var front, f := fills[..|fills| - 1], fills[|fills| - 1];
      assert fills == front + [f];
      ReplayIsExact(start, front, orders, m);
      ReplayFillIsExact(ReplayAll(start, front, orders, m), f, orders, m);
      AllOfBoth(front, f, orders, m);
      if AllCharged(front, m) && Charged(f, m) {
        BookedGrows(start, front, f, m);
      }
    }
  }

  lemma {:induction false} AllOfBoth(front: seq<Fill>, f: Fill, orders: map<OrderId, Order>, m: CostModel)
    requires ValidFills(front) && ValidFill(f) && ValidCostModel(m)
    ensures AllCharged(front + [f], m) <==> AllCharged(front, m) && Charged(f, m)
    ensures AllOrdered(front + [f], orders) <==> AllOrdered(front, orders) && f.orderId in orders
  {
    var fills := front + [f];
    assert fills[|front|] == f && forall i :: 0 <= i < |front| ==> fills[i] == front[i];
  }

  function CashOf(pf: Portfolio): real { if CNY in pf.balances then pf.balances[CNY].total else 0.0 }

  lemma {:induction false} BookMovesCash(pf: Portfolio, e: FillEvent)
    requires ValidPortfolio(pf) && ValidFillEvent(e) && e.cost.currency == CNY
    ensures Book(pf, e).Ok? ==> CashOf(Book(pf, e).value) == CashOf(pf) + e.cost.netCashFlow
  {
    if Book(pf, e).Ok? {
      ApplyFillMovesCash(e, Get(pf.positions, e.fill.symbol), Get(pf.balances, CNY));
    }
  }

  lemma {:induction false} PositionIssuesAreExact(s: Symbol, persisted: Option<Position>, replayed: Option<Position>)
    ensures PositionIssues(s, persisted, replayed) == [] <==> PositionAgrees(persisted, replayed)
  {
  }

  lemma {:induction false} AllPositionIssuesAreExact(symbols: seq<Symbol>, persisted: map<Symbol, Position>,
                                                     replayed: map<Symbol, Position>)
    ensures AllPositionIssues(symbols, persisted, replayed) == [] <==>
      forall s :: s in symbols ==> PositionAgrees(Get(persisted, s), Get(replayed, s))
  {
    if symbols != [] {
      var front, s := symbols[..|symbols| - 1], symbols[|symbols| - 1];
      AllPositionIssuesAreExact(front, persisted, replayed);
      PositionIssuesAreExact(s, Get(persisted, s), Get(replayed, s));
      assert forall x :: x in symbols <==> x in front || x == s;
    }
  }

  lemma {:induction false} BalanceIssuesAreExact(a: Asset, persisted: Option<BalanceSnapshot>,
                                                 replayed: Option<BalanceSnapshot>)
    ensures BalanceIssues(a, persisted, replayed) == [] <==> BalanceAgrees(persisted, replayed)
  {
  }

  lemma {:induction false} AllBalanceIssuesAreExact(assets: seq<Asset>, persisted: map<Asset, BalanceSnapshot>,
                                                    replayed: map<Asset, BalanceSnapshot>)
    ensures AllBalanceIssues(assets, persisted, replayed) == [] <==>
      forall a :: a in assets ==> BalanceAgrees(Get(persisted, a), Get(replayed, a))
  {
    if assets != [] {
      var front, a := assets[..|assets| - 1], assets[|assets| - 1];
      AllBalanceIssuesAreExact(front, persisted, replayed);
      BalanceIssuesAreExact(a, Get(persisted, a), Get(replayed, a));
      assert forall x :: x in assets <==> x in front || x == a;
    }
  }

  lemma {:induction false} PositionComparisonIsExact(persisted: map<Symbol, Position>, replayed: map<Symbol, Position>)
    ensures AllPositionIssues(SortedKeys(persisted.Keys + replayed.Keys), persisted, replayed) == []
      <==> PositionsAgree(persisted, replayed)
  {
    AllPositionIssuesAreExact(SortedKeys(persisted.Keys + replayed.Keys), persisted, replayed);
  }

  lemma {:induction false} BalanceComparisonIsExact(persisted: map<Asset, BalanceSnapshot>,
                                                    replayed: map<Asset, BalanceSnapshot>)
    ensures AllBalanceIssues(SortedKeys(persisted.Keys + replayed.Keys), persisted, replayed) == []
      <==> BalancesAgree(persisted, replayed)
  {
    AllBalanceIssuesAreExact(SortedKeys(persisted.Keys + replayed.Keys), persisted, replayed);
  }

  /** The reconciler is exact: it reports nothing if and only if every order tells its
      fills, every fill books, and the persisted positions and balances are the result. */
  lemma {:induction false} ReconcilerIsExact(facts: Facts, m: CostModel, at: Time)
    requires ValidFacts(facts) && ValidCostModel(m)
    ensures ExpectedIssues(facts, m, at) == [] <==> Consistent(facts, m, at)
  {
    SortedFactsAreValid(facts);
    var replay := FactsReplay(facts, m);
    AllOrderIssuesAreExact(facts.orders, IntentMap(facts.intents), facts.fills);
    ReplayIsExact(FactsBaseline(facts), SortBy(facts.fills, FillBefore), OrderMap(facts.orders), m);
    PositionComparisonIsExact(PositionMap(facts.positions),
      ReleaseAll(replay.portfolio.positions, facts.tradeDate, at));
    BalanceComparisonIsExact(LatestByAsset(SortBy(facts.balances, SnapshotBefore)), replay.portfolio.balances);
  }

  /** A clean result also accounts for every yuan: replayed cash is the baseline plus the
      reported net cash flow. */
  lemma {:induction false} CleanReplayAccountsForCash(facts: Facts, m: CostModel, at: Time)
    requires ValidFacts(facts) && ValidCostModel(m) && ExpectedIssues(facts, m, at) == []
    ensures
      var replay := FactsReplay(facts, m);
      && CashOf(replay.portfolio) == CashOf(FactsBaseline(facts)) + replay.totals.netCashFlow
      && replay.count == |facts.fills|
  {
    SortedFactsAreValid(facts);
    KeysAreOrders();
    SortSorts(facts.fills, FillBefore);
    var fills := SortBy(facts.fills, FillBefore);
    assert |fills| == |multiset(fills)| == |multiset(facts.fills)|;
    ReplayIsExact(FactsBaseline(facts), fills, OrderMap(facts.orders), m);
  }

  // ------------------------------------------------------------- what is compared

  /** An order has its intent's instruction exactly when, with its progress wiped out, it is the order
      the intent would be given. */
  lemma {:induction false} InstructionIsExact(o: Order, i: OrderIntent)
    requires o.id == OrderId(i.id) && o.intentId == i.id
    ensures SameInstruction(o, i) <==>
            CreateOrderFromIntent(i, o.submittedAt)
            == o.(filledQty := 0.0, avgFillPrice := None, status := New, updatedAt := o.submittedAt)
  {
  }

  /** Two positions compare equal exactly when they differ in nothing but their symbol and when they
      were updated, two balances when they differ in nothing but asset and times; flat is what a fully
      sold position looks like, whatever it earned. */
  lemma {:induction false} ComparisonsAreExact(p: Position, q: Position, a: BalanceSnapshot, b: BalanceSnapshot)
    ensures SamePositionFields(p, q) <==> p == q.(symbol := p.symbol, updatedAt := p.updatedAt)
    ensures SameBalanceFields(a, b) <==>
            a == b.(asset := a.asset, snapshotTime := a.snapshotTime, createdAt := a.createdAt)
    ensures Flat(p) <==> p == Position(p.symbol, 0.0, 0.0, None, None, 0.0, p.realizedPnl, Closed, p.updatedAt)
  {
  }
}
