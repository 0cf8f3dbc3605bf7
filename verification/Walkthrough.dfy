/** Concrete calls, computed through: one stock at a price of ten, an account of ten thousand
    and no fees. */
module Walkthrough {
  import opened Prelude
  import opened Execution
  import opened Costs
  import opened Ledger
  import opened LedgerRuns
  import opened PaperAdapter
  import opened Planner
  import opened RiskGate
  import opened Store
  import opened Oms
  import opened Reconciler
  import opened LedgerAgreement
  import opened OrderAgreement
  import opened Reports
  import opened Submissions
  import opened Runs
  import opened Protection
  import opened Exposure
  import opened Pending

  // --------------------------------------------------------------------- the setting

  function ShareRule(): SymbolRule { SymbolRule(100.0, 1.0, 0.01, 100.0, true) }
  function OpenMarket(tradeDate: int): MarketState { MarketState(tradeDate, 10.0, 11.0, 9.0, true, true) }

  /** At most 4500 in one symbol and 5000 in all; no fees. */
  function Setting(): Config {
    Config(Policy(4500.0, 5000.0, 100.0, 120, 60), CostModel(0.0, 0.0, 0.0), 10000.0)
  }

  /** A call at a time, by the stock's one market of that date. */
  function CallAt(signal: Signal, control: ControlState, at: Time, newIntent: IntentId): Submission {
    Submission(signal, Some(ShareRule()), Some(10.0), Some(OpenMarket(DateOf(at))), OrderType.Market, None,
               control, true, at, newIntent, None, at)
  }

  lemma {:induction false} SettingIsValid(signal: Signal, control: ControlState, at: Time, newIntent: IntentId)
    requires signal.targetPosition >= 0.0
    ensures ValidConfig(Setting()) && ValidRule(ShareRule()) && ValidSubmission(CallAt(signal, control, at, newIntent))
  {
    var rule := ShareRule();
    assert rule.minQty / rule.qtyStep == 100.0;
  }

  function BuyPlan(target: real, qty: real, sellable: real): Plan {
    Plan(Some(Buy), target - qty, target, qty, sellable, target - qty, false, false, None)
  }

  function SellPlan(target: real, qty: real, sellable: real): Plan {
    Plan(Some(Sell), sellable, target, qty, sellable, target - qty, true, false, None)
  }

  /** Whole hundreds are traded as they are. */
  lemma {:induction false} HundredsArePlanned(target: real, qty: real, sellable: real, n: int)
    requires (target - qty == n as real * 100.0 && n > 0)
      || (qty - target >= sellable == n as real * 100.0 && n > 0)
    ensures ValidRule(ShareRule())
    ensures BuildPlan(target, ShareRule(), qty, sellable)
         == if target > qty then BuyPlan(target, qty, sellable) else SellPlan(target, qty, sellable)
    ensures WholeSteps(n as real * 100.0, 1.0)
  {
    var rule, size := ShareRule(), n as real * 100.0;
    assert rule.minQty / rule.qtyStep == 100.0;
    assert size / 1.0 == size && size == (n * 100) as real;
  }

  /** The gate has nothing against an order of whole hundreds that duplicates no other, stays
      within the limits and, under a protective state, reduces. */
  lemma {:induction false} GatePassesHundreds(c: Context, policy: Policy, p: Plan, market: MarketState)
    requires c.decisionPrice == Some(10.0) && c.rule == Some(ShareRule()) && c.market == Some(market)
      && c.plan == Some(p)
    requires market.active && market.continuousAuction && PriceWithinLimits(10.0, market)
    requires c.orderType == OrderType.Market && !MarketStale(c, policy) && policy == Setting().policy
    requires Actionable(p) && p.qty >= 100.0 && WholeSteps(p.qty, 1.0)
    requires p.side == Some(Sell) ==> p.qty <= p.currentSellable && p.currentSellable >= 100.0
    requires Protective(c.control) ==> TrueReduction(c.position, p)
    requires forall i :: 0 <= i < |c.recentIntents| ==> !Duplicates(c.recentIntents[i], c, p)
    requires ResultingNotional(p, 10.0) <= 4500.0
    requires TotalNotional(c.openPositions, c.signal.symbol, ResultingNotional(p, 10.0)) ==
      Some(ResultingNotional(p, 10.0))
    ensures Evaluate(c, policy) == Allow(Allowed)
  {
    MultipleIsWhole(p.qty, 1.0);
    GateIsExact(c, policy);
  }

  lemma {:induction false} RecentAreRows(ids: seq<IntentId>, t: Tables, symbol: Symbol, after: Time)
    ensures forall i :: i in RecentAmong(ids, t, symbol, after) ==> i in t.intents.Values
  {
    if ids != [] {
      RecentAreRows(ids[..|ids| - 1], t, symbol, after);
      var id := ids[|ids| - 1];
      if id in t.intents { assert t.intents[id] in t.intents.Values; }
    }
  }

  // ------------------------------------------------------------------ one execution

  lemma {:induction false} FreeTrade(m: CostModel, side: Side, qty: real, price: real)
    requires m == CostModel(0.0, 0.0, 0.0) && qty > 0.0 && price > 0.0
    ensures BuildCostBreakdown(m, side, qty, price).totalFee == 0.0
  {
    assert (qty * price) * 0.0 == 0.0;
  }

  /** Shares bought at ten, whatever was held before. */
  function AtTen(qty: real, sellable: real, at: Time): Position {
    Position(1, qty, sellable, Some(10.0), Some(10.0), 0.0, 0.0, Open, at)
  }

  lemma {:induction false} BlendOfTens(held: real, bought: real)
    requires held >= 0.0 && bought > 0.0
    ensures BlendedAverage(held, 10.0, bought * 10.0, held + bought) == 10.0
  {
    assert held * 10.0 + bought * 10.0 == (held + bought) * 10.0;
  }

  /** What an account holds of the one stock: nothing yet, or so many shares. */
  function Held(qty: real, sellable: real, at: Time): Option<Position> {
    if qty == 0.0 then None else Some(AtTen(qty, sellable, at))
  }

  lemma {:induction false} BuyAtTen(e: FillEvent, qty: real, sellable: real, at: Time, b: BalanceSnapshot)
    requires ValidFillEvent(e) && e.fill.side == Buy && e.fill.symbol == 1 && e.fill.price == 10.0
    requires e.cost.totalFee == 0.0 && e.cost.currency == b.asset
    requires 0.0 <= sellable <= qty && (qty == sellable || DateOf(at) == DateOf(e.eventTime))
    requires e.fill.qty * 10.0 <= b.total && e.fill.qty * 10.0 <= b.available
    ensures
      var r := ApplyFill(e, Held(qty, sellable, at), Some(b));
      && r.Ok? && r.value.position == AtTen(qty + e.fill.qty, sellable, e.eventTime)
      && r.value.balance == BalanceSnapshot(b.asset, b.total - e.fill.qty * 10.0,
                                            b.available - e.fill.qty * 10.0, b.locked,
                                            e.eventTime, e.eventTime)
  {
    BlendOfTens(qty, e.fill.qty);
    if qty != 0.0 {
      assert Release(AtTen(qty, sellable, at), DateOf(e.eventTime), e.eventTime) == AtTen(qty, sellable, at);
    }
  }

  // ------------------------------------------------------------------- a whole launch

  /** The tables a launched order leaves once it is filled. */
  function Launched(t: Tables, i: OrderIntent, o: Order, e: FillEvent, u: PortfolioUpdate): Tables {
    Tables(t.signals, t.intents[i.id := i.(status := IntentSubmitted)], t.intentBySignal[i.signalId := i.id],
           t.orders[o.id := o], t.fills + [e.fill], t.positions[e.fill.symbol := u.position], t.balances + [u.balance])
  }

  lemma {:induction false} FillLeaves(t: Tables, e: FillEvent, u: PortfolioUpdate)
    requires ValidTables(t) && ValidFillEvent(e) && !HasFill(t, e.fill.id) && e.cost.currency == CNY
    requires ApplyFill(e, Get(t.positions, e.fill.symbol), LatestBalance(t, CNY)) == Ok(u)
    requires u.position.symbol == e.fill.symbol && !HasSnapshotAt(t.balances, u.balance.asset, u.balance.snapshotTime)
    ensures CommitAll(t, FillWrites(t, e).writes)
         == t.(fills := t.fills + [e.fill], positions := t.positions[e.fill.symbol := u.position],
               balances := t.balances + [u.balance])
  {
    ThreeWrites(t, e.fill, u.position, u.balance);
    assert FillWrites(t, e).writes == [WFill(e.fill), WPosition(u.position), WBalance(u.balance)];
  }

  lemma {:induction false} ReportLeaves(t: Tables, o: Order, i: OrderIntent, m: CostModel, at: Time,
                                        report: ExecutionReport, u: PortfolioUpdate)
    requires ValidTables(t) && Fresh(o) && ValidIntent(i) && ValidCostModel(m) && o.orderType == i.orderType
    requires o.price == i.price && o.submittedAt <= at && o.id in t.orders && t.orders[o.id] == o
    requires ContractViolation(o, i).None? && !HasFill(t, FillId(o.id, 1))
    requires SubmitOrder(o, i, m, None, at) == Ok(report) && ValidFillEvents(report.fills)
    requires ApplyFill(SoleExecution(o, i, m, at), Get(t.positions, o.symbol), LatestBalance(t, CNY)) == Ok(u)
    requires u.position.symbol == o.symbol && !HasSnapshotAt(t.balances, u.balance.asset, u.balance.snapshotTime)
    ensures
      var e, final := SoleExecution(o, i, m, at), FinalOrder(o, DefaultScenario(o, i), DefaultPrice(o, i), at);
      CommitAll(t, ReportWrites(t, o, report).writes)
      == t.(orders := t.orders[o.id := final], fills := t.fills + [e.fill],
            positions := t.positions[o.symbol := u.position], balances := t.balances + [u.balance])
  {
    DefaultReportIs(o, i, m, at);
    ReportIsAccepted(o, DefaultScenario(o, i), DefaultPrice(o, i), at);
    UpdatesAreSaved(t, o, report.updates);
    var w := UpdateWrites(t, o, report.updates).writes;
    WritesKeepTablesValid(t, w);
    var t1 := CommitAll(t, w);
    OneFill(t1, report.fills);
    FillLeaves(t1, SoleExecution(o, i, m, at), u);
    CommitAllConcat(t, w, AllFillWrites(t1, report.fills).writes);
  }

  lemma {:induction false} HandedThenFilled(t: Tables, i: OrderIntent, o: Order, final: Order, e: FillEvent,
                                            u: PortfolioUpdate)
    requires final.id == o.id
    ensures
      var t2 := HandedTables(t, o, i);
      t2.(orders := t2.orders[o.id := final], fills := t2.fills + [e.fill],
          positions := t2.positions[e.fill.symbol := u.position], balances := t2.balances + [u.balance])
      == Launched(t, i, final, e, u)
  {
    assert t.orders[o.id := o][o.id := final] == t.orders[o.id := final];
  }

  lemma {:induction false} LaunchLeaves(t: Tables, i: OrderIntent, s: Submission, m: CostModel, u: PortfolioUpdate)
    requires ValidTables(t) && ValidIntent(i) && ValidCostModel(m) && s.scenario.None? && Executable(t, i, s, m)
    requires
      var e := SoleExecution(CreateOrderFromIntent(i, s.receivedAt), i, m, s.venueTime);
      ApplyFill(e, Get(t.positions, i.symbol), LatestBalance(t, CNY)) == Ok(u)
    requires u.position.symbol == i.symbol && !HasSnapshotAt(t.balances, u.balance.asset, u.balance.snapshotTime)
    ensures
      var o := CreateOrderFromIntent(i, s.receivedAt);
      var final := FinalOrder(o, DefaultScenario(o, i), DefaultPrice(o, i), s.venueTime);
      CommitAll(t, Launch(t, i, s, m).writes) == Launched(t, i, final, SoleExecution(o, i, m, s.venueTime), u)
  {
    var o := CreateOrderFromIntent(i, s.receivedAt);
    DefaultReportIs(o, i, m, s.venueTime);
    var report := SubmitOrder(o, i, m, None, s.venueTime).value;
    LaunchReports(t, i, s, o, m, report);
    ReportLeaves(HandedTables(t, o, i), o, i, m, s.venueTime, report, u);
    HandedThenFilled(t, i, o, FinalOrder(o, DefaultScenario(o, i), DefaultPrice(o, i), s.venueTime),
                     SoleExecution(o, i, m, s.venueTime), u);
  }

  // --------------------------------------------------------------------- an account

  /** An account of the one stock: shares held and sellable, last stamped at a time; cash, as
      the newest snapshot has it. */
  ghost predicate Account(t: Tables, qty: real, sellable: real, at: Time, cash: real, newest: Time) {
    && ValidTables(t) && 0.0 <= sellable <= qty
    && t.positions.Keys <= {1} && Get(t.positions, 1) == Held(qty, sellable, at)
    && t.balances != [] && LatestBalance(t, CNY) == Some(t.balances[|t.balances| - 1])
    && (var b := t.balances[|t.balances| - 1];
        b.asset == CNY && b.total == cash && b.available == cash && b.snapshotTime == newest)
    && (forall i :: 0 <= i < |t.balances| ==> t.balances[i].snapshotTime <= newest)
    && forall i :: 0 <= i < |t.fills| ==> t.fills[i].id.order in t.orders
  }

  lemma {:induction false} OnlyStockCounts(t: Tables, resulting: real)
    requires ValidTables(t) && t.positions.Keys <= {1} && AllHeldAreMarked(t.positions)
    ensures TotalNotional(OpenPositions(t), 1, resulting) == Some(resulting)
    ensures OthersValue(t, 1) == 0.0
  {
    assert t.positions - {1} == map[];
    GateCountsEverything(t, 1, resulting);
  }

  /** What the account's caps come to. */
  lemma {:induction false} AccountValue(t: Tables, qty: real, sellable: real, at: Time, cash: real, newest: Time)
    requires Account(t, qty, sellable, at, cash, newest)
    ensures AllHeldAreMarked(t.positions) && QtyOf(t, 1) == qty
    ensures WithinCaps(t, Setting().policy) <==> qty * 10.0 <= 4500.0
  {
    if qty == 0.0 {
      assert t.positions == map[];
    } else {
      SumMapTakesAnyRow(t.positions, MarketValue, 1);
      assert t.positions - {1} == map[];
    }
  }

  lemma {:induction false} AccountTotal(t: Tables, qty: real, sellable: real, at: Time, cash: real, newest: Time,
                                        resulting: real)
    requires Account(t, qty, sellable, at, cash, newest)
    ensures TotalNotional(OpenPositions(t), 1, resulting) == Some(resulting)
  {
    AccountValue(t, qty, sellable, at, cash, newest);
    OnlyStockCounts(t, resulting);
  }

  /** What saving the signal and releasing the position leaves. */
  function AdmittedRows(t: Tables, s: Submission): Tables {
    t.(signals := if s.signal.id in t.signals then t.signals else t.signals[s.signal.id := s.signal],
       positions := if ReleasedPosition(t, s).Some? then t.positions[s.signal.symbol := ReleasedPosition(t, s).value]
                    else t.positions)
  }

  lemma {:induction false} ReleaseLeaves(t: Tables, p: Position, tradeDate: int, at: Time)
    requires p.symbol in t.positions && t.positions[p.symbol] == p && ValidPosition(p)
    ensures CommitAll(t, ReleaseWrites(Some(p), Some(Release(p, tradeDate, at))))
         == t.(positions := t.positions[p.symbol := Release(p, tradeDate, at)])
  {
    var released := Release(p, tradeDate, at);
    CommitOne(t, WPosition(released));
    if released == p {
      assert t.positions[p.symbol := p] == t.positions;
    }
  }

  lemma {:induction false} AdmissionLeaves(t: Tables, s: Submission, policy: Policy)
    requires ValidTables(t) && ValidSubmission(s) && s.market.Some?
    ensures AdmittedTables(t, s, policy) == AdmittedRows(t, s)
  {
    var before, after := Get(t.positions, s.signal.symbol), ReleasedPosition(t, s);
    CommitOne(t, WSignal(s.signal));
    CommitAllConcat(t, [WSignal(s.signal)], ReleaseWrites(before, after));
    if before.Some? {
      ReleaseLeaves(Commit(t, WSignal(s.signal)), before.value, s.market.value.tradeDate, s.receivedAt);
    }
  }

  lemma {:induction false} AccountReleased(t: Tables, t0: Tables, s: Submission, qty: real, sellable: real, at: Time,
                                           released: real, stamp: Time, cash: real, newest: Time)
    requires Account(t, qty, sellable, at, cash, newest) && 0.0 <= released <= qty && s.signal.symbol == 1
    requires ReleasedPosition(t, s) == Held(qty, released, stamp) && t0 == AdmittedRows(t, s) && ValidTables(t0)
    ensures Account(t0, qty, released, stamp, cash, newest)
  {
  }

  /** Nothing else in the tables asks for the same. */
  ghost predicate AsksForNew(t: Tables, p: Plan) {
    forall i :: i in t.intents.Values ==> i.qty != p.qty || Some(i.side) != p.side
  }

  lemma {:induction false} NoDuplicates(t: Tables, c: Context, p: Plan, after: Time)
    requires AsksForNew(t, p) && c.recentIntents == RecentActiveIntents(t, 1, after)
    ensures forall i :: 0 <= i < |c.recentIntents| ==> !Duplicates(c.recentIntents[i], c, p)
  {
    RecentAreRows(SortedKeys(t.intents.Keys), t, 1, after);
    forall i | 0 <= i < |c.recentIntents| ensures !Duplicates(c.recentIntents[i], c, p) {
      assert c.recentIntents[i] in t.intents.Values;
    }
  }

  /** What a plan has to meet in this setting: whole hundreds, within the caps, and under a
      protective state a sell of what is sellable. */
  predicate Passes(p: Plan, control: ControlState, qty: real, sellable: real) {
    && Actionable(p) && p.qty >= 100.0 && WholeSteps(p.qty, 1.0) && ResultingNotional(p, 10.0) <= 4500.0
    && p.currentQty == qty && p.currentSellable == sellable
    && (p.side == Some(Sell) ==> p.qty <= sellable && sellable >= 100.0)
    && (Protective(control) ==> p.side == Some(Sell))
  }

  /** What the gate is told about such a call. */
  lemma {:induction false} CallContext(t: Tables, s: Submission, p: Plan, held: Option<Position>, c: Context)
    requires s == CallAt(s.signal, s.control, s.receivedAt, s.newIntentId) && s.signal.symbol == 1 && Actionable(p)
    requires s.receivedAt - 120_000_000 <= s.signal.eventTime <= s.receivedAt
    requires c == GateContext(t, s, Setting().policy, s.signal, held, Some(p))
    ensures c.openPositions == OpenPositions(t)
    ensures c.recentIntents == RecentActiveIntents(t, 1, s.receivedAt - Seconds(Setting().policy.duplicateWindow))
    ensures !MarketStale(c, Setting().policy)
  {
  }

  lemma {:induction false} SellReduces(p: Plan, control: ControlState, qty: real, sellable: real, at: Time)
    requires Passes(p, control, qty, sellable) && p.side == Some(Sell) && sellable <= qty
    ensures TrueReduction(Held(qty, sellable, at), p)
  {
  }

  lemma {:induction false} GatePassesCall(t: Tables, s: Submission, p: Plan, qty: real, sellable: real, at: Time,
                                          cash: real, newest: Time, c: Context)
    requires s == CallAt(s.signal, s.control, s.receivedAt, s.newIntentId) && s.signal.symbol == 1
    requires s.receivedAt - 120_000_000 <= s.signal.eventTime <= s.receivedAt
    requires c == GateContext(t, s, Setting().policy, s.signal, Held(qty, sellable, at), Some(p))
    requires Account(t, qty, sellable, at, cash, newest) && Passes(p, s.control, qty, sellable) && AsksForNew(t, p)
    ensures Evaluate(c, Setting().policy) == Allow(Allowed)
  {
    AccountTotal(t, qty, sellable, at, cash, newest, ResultingNotional(p, 10.0));
    CallContext(t, s, p, Held(qty, sellable, at), c);
    NoDuplicates(t, c, p, s.receivedAt - Seconds(Setting().policy.duplicateWindow));
    if p.side == Some(Sell) { SellReduces(p, s.control, qty, sellable, at); }
    GatePassesHundreds(c, Setting().policy, p, OpenMarket(DateOf(s.receivedAt)));
  }

  /** A call for the one stock gets through, whatever its admission releases. */
  lemma {:induction false} CallIsAdmitted(t: Tables, s: Submission, p: Plan, qty: real, sellable: real, at: Time,
                                          released: real, stamp: Time, cash: real, newest: Time)
    requires s == CallAt(s.signal, s.control, s.receivedAt, s.newIntentId) && s.signal.symbol == 1
    requires ValidSubmission(s) && SubmittedSignal(t, s) == s.signal
    requires s.receivedAt - 120_000_000 <= s.signal.eventTime <= s.receivedAt
    requires Account(t, qty, sellable, at, cash, newest) && 0.0 <= released <= qty
    requires ReleasedPosition(t, s) == Held(qty, released, stamp)
    requires p == BuildPlan(s.signal.targetPosition, ShareRule(), qty, released)
    requires Passes(p, s.control, qty, released) && AsksForNew(t, p)
    ensures Admitted(t, s, Setting().policy) && Admit(t, s, Setting().policy).plan == Some(p)
    ensures Admit(t, s, Setting().policy).signal == s.signal
    ensures AdmittedTables(t, s, Setting().policy) == AdmittedRows(t, s)
    ensures Account(AdmittedRows(t, s), qty, released, stamp, cash, newest)
  {
    AdmissionLeaves(t, s, Setting().policy);
    AccountReleased(t, AdmittedRows(t, s), s, qty, sellable, at, released, stamp, cash, newest);
    GatePassesCall(AdmittedRows(t, s), s, p, qty, released, stamp, cash, newest,
                   GateContext(AdmittedRows(t, s), s, Setting().policy, s.signal, Held(qty, released, stamp), Some(p)));
  }

  // ----------------------------------------------------------------- a call that buys

  /** A buy at the market of the one stock, not yet submitted and not yet an order. */
  predicate PlainBuy(t: Tables, i: OrderIntent, tradeDate: int) {
    && ValidIntent(i) && i.symbol == 1 && i.side == Buy && i.orderType == OrderType.Market && i.decisionPrice == 10.0
    && i.status == IntentNew && i.market == Some(OpenMarket(tradeDate)) && OrderId(i.id) !in t.orders
  }

  lemma {:induction false} NewestIsLatest(balances: seq<BalanceSnapshot>, b: BalanceSnapshot)
    requires b.asset == CNY && forall i :: 0 <= i < |balances| ==> balances[i].snapshotTime < b.snapshotTime
    ensures LatestSnapshot(balances + [b], CNY) == Some(b)
  {
    assert (balances + [b])[..|balances|] == balances;
    LatestSnapshotIsARow(balances, CNY);
  }

  /** The account after a buy: shares bought are locked, and paid for. */
  lemma {:induction false} AccountAfterBuy(t: Tables, t': Tables, i: OrderIntent, o: Order, e: FillEvent,
                                           u: PortfolioUpdate, qty: real, sellable: real, at: Time, cash: real,
                                           newest: Time, newQty: real, left: real)
    requires Account(t, qty, sellable, at, cash, newest) && t' == Launched(t, i, o, e, u) && ValidTables(t')
    requires e.fill.symbol == 1 && e.fill.id.order == o.id && qty < newQty && newest < e.eventTime
    requires u.position == AtTen(newQty, sellable, e.eventTime)
    requires u.balance.asset == CNY && u.balance.total == u.balance.available == left
    requires u.balance.snapshotTime == e.eventTime
    ensures Account(t', newQty, sellable, e.eventTime, left, e.eventTime)
  {
    NewestIsLatest(t.balances, u.balance);
  }

  /** The ledger takes the one execution of a buy the account can pay for. */
  lemma {:induction false} ExecutionBuys(t: Tables, i: OrderIntent, s: Submission, tradeDate: int, qty: real,
                                         sellable: real, at: Time, cash: real, newest: Time, e: FillEvent)
    returns (u: PortfolioUpdate)
    requires Account(t, qty, sellable, at, cash, newest) && PlainBuy(t, i, tradeDate) && i.qty * 10.0 <= cash
    requires e == SoleExecution(CreateOrderFromIntent(i, s.receivedAt), i, Setting().costs, s.venueTime)
    requires qty == sellable || DateOf(at) == DateOf(e.eventTime)
    ensures ApplyFill(e, Get(t.positions, 1), LatestBalance(t, CNY)) == Ok(u)
    ensures u.position == AtTen(qty + i.qty, sellable, e.eventTime)
    ensures u.balance.asset == CNY && u.balance.total == u.balance.available == cash - i.qty * 10.0
    ensures u.balance.snapshotTime == e.eventTime
  {
    var b := t.balances[|t.balances| - 1];
    FreeTrade(Setting().costs, Buy, i.qty, 10.0);
    assert Notional(e.fill) == i.qty * 10.0;
    BuyAtTen(e, qty, sellable, at, b);
    u := ApplyFill(e, Held(qty, sellable, at), Some(b)).value;
  }

  /** What a call that buys leaves, but for the account. */
  ghost predicate BoughtBy(t0: Tables, t': Tables, i: OrderIntent) {
    && t'.signals == t0.signals && t'.intents == t0.intents[i.id := i.(status := IntentSubmitted)]
    && t'.intentBySignal == t0.intentBySignal[i.signalId := i.id] && t'.orders.Keys == t0.orders.Keys + {OrderId(i.id)}
  }

  lemma {:induction false} LaunchBuys(t: Tables, i: OrderIntent, s: Submission, tradeDate: int, qty: real,
                                      sellable: real, at: Time, cash: real, newest: Time, newQty: real, sold: Time,
                                      left: real)
    requires Account(t, qty, sellable, at, cash, newest) && PlainBuy(t, i, tradeDate) && i.qty * 10.0 <= cash
    requires s.scenario.None? && s.receivedAt <= s.venueTime && newest < sold == s.venueTime + Seconds(1)
    requires (qty == sellable || DateOf(at) == DateOf(sold)) && newQty == qty + i.qty && left == cash - i.qty * 10.0
    ensures Executable(t, i, s, Setting().costs)
    ensures BoughtBy(t, CommitAll(t, Launch(t, i, s, Setting().costs).writes), i)
    ensures Account(CommitAll(t, Launch(t, i, s, Setting().costs).writes), newQty, sellable, sold, left, sold)
  {
    var m, o := Setting().costs, CreateOrderFromIntent(i, s.receivedAt);
    var e := SoleExecution(o, i, m, s.venueTime);
    var u := ExecutionBuys(t, i, s, tradeDate, qty, sellable, at, cash, newest, e);
    LaunchLeaves(t, i, s, m, u);
    var t' := CommitAll(t, Launch(t, i, s, m).writes);
    WritesKeepTablesValid(t, Launch(t, i, s, m).writes);
    AccountAfterBuy(t, t', i, FinalOrder(o, DefaultScenario(o, i), DefaultPrice(o, i), s.venueTime), e, u,
                    qty, sellable, at, cash, newest, newQty, left);
  }

  /** The tables a call's intent is launched in differ from the admitted ones in intents only. */
  ghost predicate IntentSaved(t0: Tables, t1: Tables, i: OrderIntent) {
    && t1 == t0.(intents := t1.intents, intentBySignal := t1.intentBySignal)
    && t1.intents[i.id := i.(status := IntentSubmitted)] == t0.intents[i.id := i.(status := IntentSubmitted)]
    && t1.intentBySignal[i.signalId := i.id] == t0.intentBySignal[i.signalId := i.id]
  }

  lemma {:induction false} SavedOrFound(t0: Tables, i: OrderIntent)
    ensures IntentSaved(t0, Commit(t0, WIntent(i)), i)
    ensures i.signalId in t0.intentBySignal && t0.intentBySignal[i.signalId] == i.id ==> IntentSaved(t0, t0, i)
  {
    var submitted := i.(status := IntentSubmitted);
    assert t0.intents[i.id := i][i.id := submitted] == t0.intents[i.id := submitted];
    assert t0.intentBySignal[i.signalId := i.id][i.signalId := i.id] == t0.intentBySignal[i.signalId := i.id];
    if i.signalId in t0.intentBySignal && t0.intentBySignal[i.signalId] == i.id {
      assert t0.intentBySignal[i.signalId := i.id] == t0.intentBySignal;
    }
  }

  lemma {:induction false} LaunchTablesSaved(t: Tables, s: Submission, policy: Policy)
    requires ValidTables(t) && ValidSubmission(s) && Plans(t, s, policy)
    requires Admit(t, s, policy).signal.id == CallIntent(t, s, policy).signalId
    ensures IntentSaved(AdmittedTables(t, s, policy), LaunchTables(t, s, policy), CallIntent(t, s, policy))
  {
    AdmissionKeepsValues(t, s, policy);
    SavedOrFound(AdmittedTables(t, s, policy), CallIntent(t, s, policy));
  }

  lemma {:induction false} AccountWithIntent(t0: Tables, t1: Tables, i: OrderIntent, qty: real, sellable: real,
                                             at: Time, cash: real, newest: Time)
    requires Account(t0, qty, sellable, at, cash, newest) && IntentSaved(t0, t1, i) && ValidTables(t1)
    ensures Account(t1, qty, sellable, at, cash, newest)
  {
  }

  /** An admitted call whose intent is such a buy executes it. */
  lemma {:induction false} CallBuys(t: Tables, s: Submission, i: OrderIntent, t0: Tables, tradeDate: int, qty: real,
                                    sellable: real, at: Time, cash: real, newest: Time, newQty: real, sold: Time,
                                    left: real)
    requires ValidTables(t) && ValidSubmission(s) && ValidConfig(Setting()) && Plans(t, s, Setting().policy)
    requires i == CallIntent(t, s, Setting().policy) && Admit(t, s, Setting().policy).signal.id == i.signalId
    requires t0 == AdmittedTables(t, s, Setting().policy) && PlainBuy(t0, i, tradeDate) && i.qty * 10.0 <= cash
    requires Account(t0, qty, sellable, at, cash, newest)
    requires s.scenario.None? && s.receivedAt <= s.venueTime && newest < sold == s.venueTime + Seconds(1)
    requires (qty == sellable || DateOf(at) == DateOf(sold)) && newQty == qty + i.qty && left == cash - i.qty * 10.0
    ensures Executes(t, s, Setting()) && BoughtBy(t0, AfterCall(t, s, Setting()), i)
    ensures Account(AfterCall(t, s, Setting()), newQty, sellable, sold, left, sold)
  {
    var t1 := LaunchTables(t, s, Setting().policy);
    LaunchTablesSaved(t, s, Setting().policy);
    AccountWithIntent(t0, t1, i, qty, sellable, at, cash, newest);
    CallLaunches(t, s, Setting());
    LaunchedIffExecutable(t, s, Setting());
    LaunchBuys(t1, i, s, tradeDate, qty, sellable, at, cash, newest, newQty, sold, left);
  }

  // ---------------------------------------------------------------- a new signal to buy

  /** A new signal of the one stock that asks for whole hundreds more than are held. */
  ghost predicate NewBuy(t: Tables, s: Submission, qty: real, n: int) {
    && s == CallAt(s.signal, Normal, s.receivedAt, s.newIntentId) && s.signal.symbol == 1
    && s.signal.eventTime == s.receivedAt && s.signal.id !in t.signals && s.signal.id !in t.intentBySignal
    && n > 0 && s.signal.targetPosition == qty + n as real * 100.0 && s.signal.targetPosition <= 450.0
    && (forall i :: i in t.intents.Values ==> i.qty != n as real * 100.0) && OrderId(s.newIntentId) !in t.orders
  }

  function NewIntent(s: Submission, qty: real): OrderIntent {
    OrderIntent(s.newIntentId, s.signal.id, 1, Buy, OrderType.Market, s.signal.targetPosition - qty, None, 10.0, false,
                Some(OpenMarket(DateOf(s.receivedAt))), IntentNew, s.receivedAt)
  }

  lemma {:induction false} NewBuyPasses(s: Submission, qty: real, released: real, n: int)
    requires n > 0 && s.signal.targetPosition == qty + n as real * 100.0 && s.signal.targetPosition <= 450.0
    requires 0.0 <= released <= qty
    ensures ValidRule(ShareRule())
    ensures BuildPlan(s.signal.targetPosition, ShareRule(), qty, released) ==
      BuyPlan(s.signal.targetPosition, qty, released)
    ensures Passes(BuyPlan(s.signal.targetPosition, qty, released), Normal, qty, released)
  {
    HundredsArePlanned(s.signal.targetPosition, qty, released, n);
    assert ResultingQty(BuyPlan(s.signal.targetPosition, qty, released)) == s.signal.targetPosition;
  }

  lemma {:induction false} NewIntentIsUsed(t: Tables, s: Submission, policy: Policy, p: Plan, i: OrderIntent)
    requires ValidTables(t) && ValidSubmission(s) && Admitted(t, s, policy) && s.decisionPrice.Some?
    requires Admit(t, s, policy).plan == Some(p) && Admit(t, s, policy).signal == s.signal && p.side.Some?
    requires i == IntentFor(p, s.signal, s) && ValidIntent(i) && s.signal.id !in t.intentBySignal
    ensures Plans(t, s, policy) && CallIntent(t, s, policy) == i && IntentOf(t, s.signal.id).None?
  {
  }

  lemma {:induction false} NewBuyIsAdmitted(t: Tables, s: Submission, qty: real, sellable: real, at: Time,
                                            released: real, stamp: Time, cash: real, newest: Time, n: int)
    requires Account(t, qty, sellable, at, cash, newest) && NewBuy(t, s, qty, n) && 0.0 <= released <= qty
    requires ReleasedPosition(t, s) == Held(qty, released, stamp)
    ensures ValidSubmission(s) && ValidConfig(Setting()) && Plans(t, s, Setting().policy)
    ensures CallIntent(t, s, Setting().policy) == NewIntent(s, qty) && IntentOf(t, s.signal.id).None?
    ensures Admit(t, s, Setting().policy).signal == s.signal
    ensures Admit(t, s, Setting().policy).plan == Some(BuyPlan(s.signal.targetPosition, qty, released))
    ensures AdmittedTables(t, s, Setting().policy) == AdmittedRows(t, s)
    ensures Account(AdmittedRows(t, s), qty, released, stamp, cash, newest)
  {
    var p := BuyPlan(s.signal.targetPosition, qty, released);
    SettingIsValid(s.signal, Normal, s.receivedAt, s.newIntentId);
    NewBuyPasses(s, qty, released, n);
    CallIsAdmitted(t, s, p, qty, sellable, at, released, stamp, cash, newest);
    NewIntentIsUsed(t, s, Setting().policy, p, NewIntent(s, qty));
  }

  lemma {:induction false} NewIntentIsPlain(t: Tables, t0: Tables, s: Submission, qty: real, n: int)
    requires NewBuy(t, s, qty, n) && t0.orders == t.orders
    ensures PlainBuy(t0, NewIntent(s, qty), DateOf(s.receivedAt))
    ensures NewIntent(s, qty).qty * 10.0 == n as real * 1000.0
  {
  }

  /** It is bought. */
  lemma {:induction false} NewBuyIsBooked(t: Tables, s: Submission, qty: real, sellable: real, at: Time, released: real,
                                          stamp: Time, cash: real, newest: Time, n: int)
    requires Account(t, qty, sellable, at, cash, newest) && NewBuy(t, s, qty, n) && 0.0 <= released <= qty
    requires ReleasedPosition(t, s) == Held(qty, released, stamp) && n as real * 1000.0 <= cash
    requires newest < s.receivedAt + Seconds(1)
      && (qty == released || DateOf(stamp) == DateOf(s.receivedAt + Seconds(1)))
    ensures ValidSubmission(s) && ValidConfig(Setting()) && SubmitSignal(t, s, Setting()).outcome == Done
    ensures BoughtBy(AdmittedRows(t, s), AfterCall(t, s, Setting()), NewIntent(s, qty))
    ensures Account(AfterCall(t, s, Setting()), s.signal.targetPosition, released, s.receivedAt + Seconds(1),
                    cash - n as real * 1000.0, s.receivedAt + Seconds(1))
  {
    var i, t0 := NewIntent(s, qty), AdmittedRows(t, s);
    NewIntentIsPlain(t, t0, s, qty, n);
    NewBuyIsAdmitted(t, s, qty, sellable, at, released, stamp, cash, newest, n);
    CallBuys(t, s, i, t0, DateOf(s.receivedAt), qty, released, stamp, cash, newest, s.signal.targetPosition,
             s.receivedAt + Seconds(1), cash - n as real * 1000.0);
    ExecutedCallIsDone(t, s, Setting());
  }
}
