/** The order management service as runs of committed writes: what each operation writes,
    in order, and how it ends. A crash leaves a prefix of the writes. */
module Oms {
  import opened Prelude
  import opened Execution
  import opened Costs
  import opened Ledger
  import opened PaperAdapter
  import opened Planner
  import opened RiskGate
  import opened Store

  datatype Config = Config(policy: Policy, costs: CostModel, initialCash: real)

  predicate ValidConfig(c: Config) {
    ValidPolicy(c.policy) && ValidCostModel(c.costs) && c.initialCash > 0.0
  }

  /** What the record validators guarantee of every table. */
  predicate ValidTables(t: Tables) {
    && (forall s :: s in t.positions ==> ValidPosition(t.positions[s]) && t.positions[s].symbol == s)
    && (forall i :: 0 <= i < |t.balances| ==> ValidBalance(t.balances[i]))
    && (forall id :: id in t.orders ==> ValidOrder(t.orders[id]) && t.orders[id].id == id)
    && (forall id :: id in t.intents ==> ValidIntent(t.intents[id]) && t.intents[id].id == id)
  }

  predicate ValidWrite(w: Write) {
    match w
    case WIntent(i) => ValidIntent(i)
    case WOrder(o) => ValidOrder(o)
    case WPosition(p) => ValidPosition(p)
    case WBalance(b) => ValidBalance(b)
    case _ => true
  }

  predicate ValidWrites(ws: seq<Write>) { forall i :: 0 <= i < |ws| ==> ValidWrite(ws[i]) }

  lemma {:induction false} WritesKeepTablesValid(t: Tables, ws: seq<Write>)
    requires ValidTables(t) && ValidWrites(ws)
    ensures ValidTables(CommitAll(t, ws))
  {
    if ws != [] { WritesKeepTablesValid(t, ws[..|ws| - 1]); }
  }

  // ----------------------------------------------------------- applying a report

  datatype OrderTrace = OrderTrace(writes: seq<Write>, order: Order, raised: bool)

  /** The order rows written by a report's updates, one per update. */
  function UpdateWrites(t: Tables, o: Order, us: seq<OrderUpdate>): (r: OrderTrace)
    ensures ValidWrites(r.writes)
  {
    if us == [] then OrderTrace([], o, false)
    else
      var before := UpdateWrites(t, o, us[..|us| - 1]);
      if before.raised then before
      else
        var next := ApplyOrderUpdate(before.order, us[|us| - 1]);
        if next.Error? || !MaySaveOrder(CommitAll(t, before.writes), next.value) then before.(raised := true)
        else OrderTrace(before.writes + [WOrder(next.value)], next.value, false)
  }

  datatype Trace = Trace(writes: seq<Write>, raised: bool)

  lemma {:induction false} LatestSnapshotIsARow(balances: seq<BalanceSnapshot>, asset: Asset)
    ensures LatestSnapshot(balances, asset).Some? ==> LatestSnapshot(balances, asset).value in balances
  {
    if balances != [] { LatestSnapshotIsARow(balances[..|balances| - 1], asset); }
  }

  /** One fill event: the fill row, then the position, then the balance. A fill row that
      is already there is skipped; a refusal of the ledger leaves the fill row behind. */
  function FillWrites(t: Tables, e: FillEvent): (r: Trace)
    requires ValidTables(t) && ValidFillEvent(e)
    ensures ValidWrites(r.writes)
  {
    if HasFill(t, e.fill.id) then Trace([], false)
    else
      var position, balance := Get(t.positions, e.fill.symbol), LatestBalance(t, e.cost.currency);
      LatestSnapshotIsARow(t.balances, e.cost.currency);
      var u := ApplyFill(e, position, balance);
      if u.Error? then Trace([WFill(e.fill)], true)
      else
        ApplyFillKeepsPositionsValid(e, position, balance);
        ApplyFillMovesCash(e, position, balance);
        Trace([WFill(e.fill), WPosition(u.value.position), WBalance(u.value.balance)], false)
  }

  function AllFillWrites(t: Tables, es: seq<FillEvent>): (r: Trace)
    requires ValidTables(t) && ValidFillEvents(es)
    ensures ValidWrites(r.writes)
  {
    if es == [] then Trace([], false)
    else
      var before := AllFillWrites(t, es[..|es| - 1]);
      if before.raised then before
      else
        WritesKeepTablesValid(t, before.writes);
        var last := FillWrites(CommitAll(t, before.writes), es[|es| - 1]);
        Trace(before.writes + last.writes, last.raised)
  }

  /** All order updates of a report come before its first fill. */
  function ReportWrites(t: Tables, o: Order, report: ExecutionReport): (r: Trace)
    requires ValidTables(t) && ValidFillEvents(report.fills)
    ensures ValidWrites(r.writes)
  {
    var orders := UpdateWrites(t, o, report.updates);
    if orders.raised then Trace(orders.writes, true)
    else
      WritesKeepTablesValid(t, orders.writes);
      var fills := AllFillWrites(CommitAll(t, orders.writes), report.fills);
      Trace(orders.writes + fills.writes, fills.raised)
  }

  // ------------------------------------------------------------ submitting a signal

  datatype Submission = Submission(
    signal: Signal,
    rule: Option<SymbolRule>,
    decisionPrice: Option<real>,
    market: Option<MarketState>,
    orderType: OrderType,
    price: Option<real>,
    control: ControlState,
    leaseHeld: bool,               // no guard, or the guard's lease is valid
    receivedAt: Time,
    newIntentId: IntentId,         // the random id an intent created by this call gets
    scenario: Option<Scenario>,    // what a custom resolver answers, if there is one
    venueTime: Time)               // the adapter's clock

  predicate ValidSubmission(s: Submission) {
    && (s.rule.Some? ==> ValidRule(s.rule.value))
    && s.signal.targetPosition >= 0.0
  }

  datatype Outcome =
    | LeaseNotHeld
    | RiskRejected(reason: Reason)
    | NothingToDo
    | AlreadySubmitted
    | GatewayFailed
    | Raised
    | Done

  datatype Call = Call(writes: seq<Write>, outcome: Outcome)

  /** Everything decided before an order intent exists. */
  datatype Admission = Admission(
    writes: seq<Write>,
    signal: Signal,
    position: Option<Position>,
    plan: Option<Plan>,
    decision: Decision,
    raised: bool)

  function SubmittedSignal(t: Tables, s: Submission): Signal {
    if s.signal.id in t.signals then t.signals[s.signal.id] else s.signal
  }

  /** Shares of earlier dates are released, in the table too, before the order is sized. */
  function ReleasedPosition(t: Tables, s: Submission): Option<Position> {
    if s.signal.symbol in t.positions then
      Some(if s.market.Some? then Release(t.positions[s.signal.symbol], s.market.value.tradeDate, s.receivedAt)
           else t.positions[s.signal.symbol])
    else None
  }

  function ReleaseWrites(before: Option<Position>, after: Option<Position>): seq<Write> {
    if after.Some? && before.Some? && after.value.sellableQty > before.value.sellableQty
    then [WPosition(after.value)] else []
  }

  function GateContext(t: Tables, s: Submission, policy: Policy, signal: Signal, position: Option<Position>,
                       plan: Option<Plan>): Context
  {
    var consult := plan.Some? && Actionable(plan.value);
    Context(signal, s.decisionPrice, s.receivedAt, s.rule, s.market, position,
            if consult then OpenPositions(t) else [],
            if consult
            then RecentActiveIntents(t, signal.symbol, s.receivedAt - Seconds(policy.duplicateWindow)) else [],
            plan, s.orderType, s.price, s.control)
  }

  function Admit(t: Tables, s: Submission, policy: Policy): (a: Admission)
    requires ValidTables(t) && ValidSubmission(s)
    ensures ValidWrites(a.writes)
  {
    var signal := SubmittedSignal(t, s);
    var position := ReleasedPosition(t, s);
    var writes := [WSignal(s.signal)] + ReleaseWrites(Get(t.positions, s.signal.symbol), position);
    var sized := s.market.Some? && s.rule.Some? && s.decisionPrice.Some? && s.decisionPrice.value > 0.0;
    var plan :=
      if sized then Some(BuildPlan(signal.targetPosition, s.rule.value,
                                   if position.Some? then position.value.qty else 0.0,
                                   if position.Some? then position.value.sellableQty else 0.0))
      else None;
    var decision := Evaluate(GateContext(CommitAll(t, writes), s, policy, signal, position, plan), policy);
    Admission(writes, signal, position, plan, decision,
              sized && position.Some? && position.value.symbol != signal.symbol)
  }

  function IntentFor(p: Plan, signal: Signal, s: Submission): OrderIntent
    requires p.side.Some? && s.decisionPrice.Some?
  {
    OrderIntent(s.newIntentId, signal.id, signal.symbol, p.side.value, s.orderType, p.qty, s.price,
                s.decisionPrice.value, p.reduceOnly, s.market, IntentNew, s.receivedAt)
  }

  /** Persists the order, hands it to the venue, marks the intent submitted, books the report. */
  function Launch(t: Tables, intent: OrderIntent, s: Submission, costs: CostModel): (c: Call)
    requires ValidTables(t) && ValidIntent(intent) && ValidCostModel(costs)
    ensures ValidWrites(c.writes)
  {
    var order := CreateOrderFromIntent(intent, s.receivedAt);
    if !MaySaveOrder(t, order) then Call([], Raised)
    else
      var report := SubmitOrder(order, intent, costs, s.scenario, s.venueTime);
      if report.Error? then Call([WOrder(order), WOrder(order)], GatewayFailed)
      else
        var handed := [WOrder(order), WIntent(intent.(status := IntentSubmitted))];
        WritesKeepTablesValid(t, handed);
        var booked := ReportWrites(CommitAll(t, handed), order, report.value);
        Call(handed + booked.writes, if booked.raised then Raised else Done)
  }

  /** From an admitted plan on. The intent a retry finds under the signal's key wins over
      the one just planned. */
  function Execute(t: Tables, plan: Plan, signal: Signal, s: Submission, costs: CostModel): (c: Call)
    requires ValidTables(t) && Actionable(plan) && s.decisionPrice.Some? && ValidCostModel(costs)
    ensures ValidWrites(c.writes)
  {
    var planned := IntentFor(plan, signal, s);
    if !ValidIntent(planned) then Call([], Raised)
    else
      var found := IntentOf(t, signal.id);
      var intent := if found.Some? then found.value else planned;
      var saved := if found.Some? then [] else [WIntent(planned)];
      WritesKeepTablesValid(t, saved);
      var t' := CommitAll(t, saved);
      if intent.status == IntentSubmitted then
        var order := CreateOrderFromIntent(intent, s.receivedAt);
        Call(saved + if order.id in t'.orders then [] else [WOrder(order)], AlreadySubmitted)
      else
        var launched := Launch(t', intent, s, costs);
        Call(saved + launched.writes, launched.outcome)
  }

  function SubmitSignal(t: Tables, s: Submission, cfg: Config): (c: Call)
    requires ValidTables(t) && ValidSubmission(s) && ValidConfig(cfg)
    ensures ValidWrites(c.writes)
  {
    if !s.leaseHeld then Call([], LeaseNotHeld)
    else
      var a := Admit(t, s, cfg.policy);
      if a.raised then Call(a.writes, Raised)
      else if a.decision.Reject? then Call(a.writes, RiskRejected(a.decision.reason))
      else if a.plan.None? || !Actionable(a.plan.value) then Call(a.writes, NothingToDo)
      else
        WritesKeepTablesValid(t, a.writes);
        var executed := Execute(CommitAll(t, a.writes), a.plan.value, a.signal, s, cfg.costs);
        Call(a.writes + executed.writes, executed.outcome)
  }

  // -------------------------------------------------------- cancelling, recovering

  /** The rows written by cancelling one order. */
  function CancelWrites(t: Tables, id: OrderId, at: Time): OrderTrace
    requires id in t.orders
  {
    UpdateWrites(t, t.orders[id], CancelOrder(t.orders[id], at).updates)
  }

  /** Protective states keep active reduce-only orders alive. */
  predicate Spared(t: Tables, o: Order, control: ControlState) {
    Protective(control) && o.intentId in t.intents && t.intents[o.intentId].reduceOnly
  }

  datatype CancelTrace = CancelTrace(writes: seq<Write>, cancelled: nat, skipped: nat, raised: bool)

  /** Cancels the listed orders one after the other. */
  function CancelEach(t: Tables, ids: seq<OrderId>, control: ControlState, at: Time): (r: CancelTrace)
    ensures ValidWrites(r.writes)
  {
    if ids == [] then CancelTrace([], 0, 0, false)
    else
      var before, id := CancelEach(t, ids[..|ids| - 1], control, at), ids[|ids| - 1];
      if before.raised then before
      else
        var t1 := CommitAll(t, before.writes);
        if id !in t1.orders || Spared(t1, t1.orders[id], control) then before.(skipped := before.skipped + 1)
        else
          var r := CancelWrites(t1, id, at);
          var writes := before.writes + r.writes;
          if r.raised then before.(writes := writes, raised := true)
          else if r.order.status == Canceled then before.(writes := writes, cancelled := before.cancelled + 1)
          else before.(writes := writes, skipped := before.skipped + 1)
  }

  /** A pristine account gets its initial cash, dated at the start of the trade date. */
  function SeedWrites(t: Tables, tradeDate: int, at: Time, cash: real): (ws: seq<Write>)
    requires cash > 0.0
    ensures ValidWrites(ws)
  {
    if t.balances != [] || (exists id :: id in t.orders && Active(t.orders[id])) || OpenPositions(t) != []
      || t.fills != []
    then []
    else
      var dayStart := StartOfDate(tradeDate);
      [WBalance(BalanceSnapshot(CNY, cash, cash, 0.0, dayStart, if at >= dayStart then at else dayStart))]
  }

  function ReleaseEach(positions: seq<Position>, tradeDate: int, at: Time): (ws: seq<Write>)
    requires forall i :: 0 <= i < |positions| ==> ValidPosition(positions[i])
    ensures ValidWrites(ws)
  {
    if positions == [] then []
    else
      var p := positions[|positions| - 1];
      ReleaseEach(positions[..|positions| - 1], tradeDate, at)
      + ReleaseWrites(Some(p), Some(Release(p, tradeDate, at)))
  }

  lemma {:induction false} OpenPositionsAreValid(symbols: seq<Symbol>, positions: map<Symbol, Position>)
    requires forall s :: s in positions ==> ValidPosition(positions[s])
    ensures forall i :: 0 <= i < |OpenAmong(symbols, positions)| ==> ValidPosition(OpenAmong(symbols, positions)[i])
  {
    if symbols != [] { OpenPositionsAreValid(symbols[..|symbols| - 1], positions); }
  }

  /** Startup recovery: seed a pristine account, release every open position. */
  function RecoverAccount(t: Tables, tradeDate: int, at: Time, cash: real): (ws: seq<Write>)
    requires ValidTables(t) && cash > 0.0
    ensures ValidWrites(ws)
  {
    OpenPositionsAreValid(SortedKeys(t.positions.Keys), t.positions);
    SeedWrites(t, tradeDate, at, cash) + ReleaseEach(OpenPositions(t), tradeDate, at)
  }
}
