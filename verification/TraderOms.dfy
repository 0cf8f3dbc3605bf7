/** The order management service as it runs: tables saved row by row, in place. */
module TraderOms {
  import opened Prelude
  import opened Execution
  import opened Costs
  import opened Ledger
  import opened PaperAdapter
  import opened Planner
  import opened RiskGate
  import opened Store
  import opened Oms
  import opened ControlPlane
  import opened Submissions

  class TraderOmsService {
    const controlStore: ControlStore
    var signals: map<SignalId, Signal>
    var intents: map<IntentId, OrderIntent>
    var intentBySignal: map<SignalId, IntentId>
    var orders: map<OrderId, Order>
    var fills: seq<Fill>
    var positions: map<Symbol, Position>
    var balances: seq<BalanceSnapshot>

    function View(): Tables
      reads this
    {
      Tables(signals, intents, intentBySignal, orders, fills, positions, balances)
    }

    constructor (controlStore: ControlStore)
      ensures View() == EmptyTables && this.controlStore == controlStore
    {
      this.controlStore := controlStore;
      signals, intents, intentBySignal, orders := map[], map[], map[], map[];
      fills, positions, balances := [], map[], [];
    }

    // ------------------------------------------------------------------- saves

    method SaveSignal(s: Signal) returns (saved: Signal)
      modifies this`signals
      ensures View() == Commit(old(View()), WSignal(s))
      ensures saved == if s.id in old(signals) then old(signals)[s.id] else s
    {
      if s.id in signals {
        return signals[s.id];
      }
      signals := signals[s.id := s];
      return s;
    }

    /** Inserts under the idempotency key, or answers the intent already there. */
    method SaveNewIntent(i: OrderIntent) returns (saved: OrderIntent)
      modifies this`intents, this`intentBySignal
      ensures IntentOf(old(View()), i.signalId).Some? ==>
        saved == IntentOf(old(View()), i.signalId).value && View() == old(View())
      ensures IntentOf(old(View()), i.signalId).None? ==> saved == i && View() == Commit(old(View()), WIntent(i))
    {
      if i.signalId in intentBySignal && intentBySignal[i.signalId] in intents {
        return intents[intentBySignal[i.signalId]];
      }
      intents := intents[i.id := i];
      intentBySignal := intentBySignal[i.signalId := i.id];
      return i;
    }

    method SaveIntent(i: OrderIntent)
      modifies this`intents, this`intentBySignal
      ensures View() == Commit(old(View()), WIntent(i))
    {
      intents := intents[i.id := i];
      intentBySignal := intentBySignal[i.signalId := i.id];
    }

    /** Refuses a row that would leave the order lifecycle. */
    method SaveOrder(o: Order) returns (saved: bool)
      modifies this`orders
      ensures saved == MaySaveOrder(old(View()), o)
      ensures View() == if saved then Commit(old(View()), WOrder(o)) else old(View())
    {
      if o.id in orders && !CanTransition(orders[o.id].status, o.status) {
        return false;
      }
      orders := orders[o.id := o];
      return true;
    }

    method SaveFill(f: Fill) returns (inserted: bool)
      modifies this`fills
      ensures inserted == !HasFill(old(View()), f.id) && View() == Commit(old(View()), WFill(f))
    {
      for k := 0 to |fills|
        invariant fills == old(fills) && forall i :: 0 <= i < k ==> fills[i].id != f.id
      {
        if fills[k].id == f.id {
          return false;
        }
      }
      fills := fills + [f];
      return true;
    }

    method SavePosition(p: Position)
      modifies this`positions
      ensures View() == Commit(old(View()), WPosition(p))
    {
      positions := positions[p.symbol := p];
    }

    method SaveBalance(b: BalanceSnapshot)
      modifies this`balances
      ensures View() == Commit(old(View()), WBalance(b))
    {
      for k := 0 to |balances|
        invariant balances == old(balances)
        invariant forall i :: 0 <= i < k ==>
          !(balances[i].asset == b.asset && balances[i].snapshotTime == b.snapshotTime)
      {
        if balances[k].asset == b.asset && balances[k].snapshotTime == b.snapshotTime {
          return;
        }
      }
      balances := balances + [b];
    }

    method GetLatestBalance(asset: Asset) returns (latest: Option<BalanceSnapshot>)
      ensures latest == LatestBalance(View(), asset)
    {
      latest := None;
      for k := 0 to |balances|
        invariant latest == LatestSnapshot(balances[..k], asset)
      {
        assert balances[..k + 1][..k] == balances[..k];
        if balances[k].asset == asset && (latest.None? || latest.value.snapshotTime < balances[k].snapshotTime) {
          latest := Some(balances[k]);
        }
      }
      assert balances[..|balances|] == balances;
    }

    // ------------------------------------------------------- applying a report

    method ApplyUpdates(o: Order, updates: seq<OrderUpdate>) returns (current: Order, raised: bool)
      modifies this`orders
      ensures
        var r := UpdateWrites(old(View()), o, updates);
        View() == CommitAll(old(View()), r.writes) && current == r.order && raised == r.raised
    {
      ghost var t := View();
      current, raised := o, false;
      for k := 0 to |updates|
        invariant !UpdateWrites(t, o, updates[..k]).raised && current == UpdateWrites(t, o, updates[..k]).order
        invariant View() == CommitAll(t, UpdateWrites(t, o, updates[..k]).writes)
      {
        assert updates[..k + 1][..k] == updates[..k];
        var next := ApplyOrderUpdate(current, updates[k]);
        if next.Error? {
          UpdatesStopped(t, o, updates, k + 1);
          return current, true;
        }
        var saved := SaveOrder(next.value);
        if !saved {
          UpdatesStopped(t, o, updates, k + 1);
          return current, true;
        }
        current := next.value;
        assert UpdateWrites(t, o, updates[..k + 1]).writes[..|UpdateWrites(t, o, updates[..k]).writes|]
            == UpdateWrites(t, o, updates[..k]).writes;
      }
      assert updates[..|updates|] == updates;
    }

    method ApplyFillEvent(e: FillEvent) returns (raised: bool)
      requires ValidTables(View()) && ValidFillEvent(e)
      modifies this`fills, this`positions, this`balances
      ensures ValidTables(View())
      ensures
        var r := FillWrites(old(View()), e);
        View() == CommitAll(old(View()), r.writes) && raised == r.raised
    {
      ghost var t := View();
      WritesKeepTablesValid(t, FillWrites(t, e).writes);
      var inserted := SaveFill(e.fill);
      if !inserted {
        return false;
      }
      var balance := GetLatestBalance(e.cost.currency);
      LatestSnapshotIsARow(t.balances, e.cost.currency);
      var u := ApplyFill(e, Get(positions, e.fill.symbol), balance);
      CommitOne(t, WFill(e.fill));
      if u.Error? {
        return true;
      }
      SavePosition(u.value.position);
      SaveBalance(u.value.balance);
      ThreeCommits(t, WFill(e.fill), WPosition(u.value.position), WBalance(u.value.balance));
      return false;
    }

    method ApplyFillEvents(es: seq<FillEvent>) returns (raised: bool)
      requires ValidTables(View()) && ValidFillEvents(es)
      modifies this`fills, this`positions, this`balances
      ensures ValidTables(View())
      ensures
        var r := AllFillWrites(old(View()), es);
        View() == CommitAll(old(View()), r.writes) && raised == r.raised
    {
      ghost var t := View();
      for k := 0 to |es|
        invariant ValidTables(View())
        invariant !AllFillWrites(t, es[..k]).raised && View() == CommitAll(t, AllFillWrites(t, es[..k]).writes)
      {
        assert es[..k + 1][..k] == es[..k];
        ghost var before, now := AllFillWrites(t, es[..k]), View();
        raised := ApplyFillEvent(es[k]);
        CommitAllConcat(t, before.writes, FillWrites(now, es[k]).writes);
        if raised {
          FillsStopped(t, es, k + 1);
          return true;
        }
      }
      assert es[..|es|] == es;
      return false;
    }

    /** Order updates first, then fill by fill: the fill, the position, the balance. */
    method ApplyExecutionReport(o: Order, report: ExecutionReport) returns (current: Order, raised: bool)
      requires ValidTables(View()) && ValidFillEvents(report.fills)
      modifies this
      ensures ValidTables(View())
      ensures
        var r := ReportWrites(old(View()), o, report);
        View() == CommitAll(old(View()), r.writes) && raised == r.raised
    {
      ghost var t := View();
      WritesKeepTablesValid(t, UpdateWrites(t, o, report.updates).writes);
      current, raised := ApplyUpdates(o, report.updates);
      if raised {
        return;
      }
      ghost var t1 := View();
      raised := ApplyFillEvents(report.fills);
      CommitAllConcat(t, UpdateWrites(t, o, report.updates).writes, AllFillWrites(t1, report.fills).writes);
    }
  
    // ------------------------------------------------------ submitting a signal

    /** T+1: shares of earlier dates are released before the order is sized. */
    method ReleasePositionForTradeDate(p: Position, tradeDate: int, at: Time) returns (released: Position)
      modifies this`positions
      ensures released == Release(p, tradeDate, at)
      ensures View() == CommitAll(old(View()), ReleaseWrites(Some(p), Some(Release(p, tradeDate, at))))
    {
      released := Release(p, tradeDate, at);
      CommitOne(View(), WPosition(released));
      if released.sellableQty > p.sellableQty {
        SavePosition(released);
      }
    }

    /** Saves the signal and brings the position it trades up to the trade date. */
    method SaveAndRelease(s: Submission) returns (signal: Signal, position: Option<Position>)
      modifies this`signals, this`positions
      ensures signal == SubmittedSignal(old(View()), s) && position == ReleasedPosition(old(View()), s)
      ensures View() ==
        CommitAll(old(View()), [WSignal(s.signal)] + ReleaseWrites(Get(old(positions), s.signal.symbol), position))
    {
      ghost var t := View();
      signal := SaveSignal(s.signal);
      CommitOne(t, WSignal(s.signal));
      position := Get(positions, s.signal.symbol);
      ghost var before := position;
      if position.Some? && s.market.Some? {
        var released := ReleasePositionForTradeDate(position.value, s.market.value.tradeDate, s.receivedAt);
        position := Some(released);
      }
      CommitAllConcat(t, [WSignal(s.signal)], ReleaseWrites(before, position));
    }

    /** Everything decided before an order intent exists. */
    method AdmitSignal(s: Submission, policy: Policy)
      returns (signal: Signal, plan: Option<Plan>, decision: Decision, raised: bool)
      requires ValidTables(View()) && ValidSubmission(s)
      modifies this`signals, this`positions
      ensures
        var a := Admit(old(View()), s, policy);
        && View() == CommitAll(old(View()), a.writes)
        && signal == a.signal && plan == a.plan && decision == a.decision && raised == a.raised
    {
      var position;
      signal, position := SaveAndRelease(s);
      plan, raised := None, false;
      if s.market.Some? && s.rule.Some? && s.decisionPrice.Some? && s.decisionPrice.value > 0.0 {
        plan := Some(BuildPlan(signal.targetPosition, s.rule.value,
                               if position.Some? then position.value.qty else 0.0,
                               if position.Some? then position.value.sellableQty else 0.0));
        raised := position.Some? && position.value.symbol != signal.symbol;
      }
      decision := EvaluateOrder(GateContext(View(), s, policy, signal, position, plan), policy);
    }

    /** Persists the order, hands it to the venue, marks the intent submitted, books the report.
        A venue that fails engages protection mode. */
    method LaunchOrder(intent: OrderIntent, s: Submission, costs: CostModel) returns (outcome: Outcome)
      requires ValidTables(View()) && ValidIntent(intent) && ValidCostModel(costs)
      modifies this, controlStore`protectionModeActive
      ensures controlStore.protectionModeActive == (old(controlStore.protectionModeActive) || outcome == GatewayFailed)
      ensures
        var c := Launch(old(View()), intent, s, costs);
        View() == CommitAll(old(View()), c.writes) && outcome == c.outcome
    {
      ghost var t := View();
      var order := CreateOrderFromIntent(intent, s.receivedAt);
      var saved := SaveOrder(order);
      if !saved {
        return Raised;
      }
      CommitTwo(t, WOrder(order), WOrder(order));
      var report := SubmitOrder(order, intent, costs, s.scenario, s.venueTime);
      if report.Error? {
        controlStore.SetProtectionMode(true);
        saved := SaveOrder(order);
        return GatewayFailed;
      }
      SaveIntent(intent.(status := IntentSubmitted));
      ghost var handed := [WOrder(order), WIntent(intent.(status := IntentSubmitted))];
      CommitTwo(t, handed[0], handed[1]);
      WritesKeepTablesValid(t, handed);
      ghost var t1 := View();
      VenueReports(order, intent, costs, s);
      var current, raised := ApplyExecutionReport(order, report.value);
      CommitAllConcat(t, handed, ReportWrites(t1, order, report.value).writes);
      return if raised then Raised else Done;
    }

    method ExecutePlan(plan: Plan, signal: Signal, s: Submission, costs: CostModel) returns (outcome: Outcome)
      requires ValidTables(View()) && Actionable(plan) && s.decisionPrice.Some? && ValidCostModel(costs)
      modifies this, controlStore`protectionModeActive
      ensures controlStore.protectionModeActive == (old(controlStore.protectionModeActive) || outcome == GatewayFailed)
      ensures
        var c := Execute(old(View()), plan, signal, s, costs);
        View() == CommitAll(old(View()), c.writes) && outcome == c.outcome
    {
      ghost var t := View();
      var planned := IntentFor(plan, signal, s);
      if !ValidIntent(planned) {
        return Raised;
      }
      var intent := SaveNewIntent(planned);
      ghost var saves := if IntentOf(t, signal.id).Some? then [] else [WIntent(planned)];
      CommitOne(t, WIntent(planned));
      WritesKeepTablesValid(t, saves);
      ghost var t1 := View();
      assert t1 == CommitAll(t, saves);
      if intent.status == IntentSubmitted {
        var order := CreateOrderFromIntent(intent, s.receivedAt);
        CommitOne(t1, WOrder(order));
        CommitAllConcat(t, saves, if order.id in orders then [] else [WOrder(order)]);
        if order.id !in orders {
          var saved := SaveOrder(order);
        }
        return AlreadySubmitted;
      }
      outcome := LaunchOrder(intent, s, costs);
      CommitAllConcat(t, saves, Launch(t1, intent, s, costs).writes);
    }

    /** Signal, order intent, order, report: what is written, and in which order. */
    method Submit(s: Submission, cfg: Config) returns (outcome: Outcome)
      requires ValidTables(View()) && ValidSubmission(s) && ValidConfig(cfg)
      modifies this, controlStore`protectionModeActive
      ensures controlStore.protectionModeActive == (old(controlStore.protectionModeActive) || outcome == GatewayFailed)
      ensures
        var c := SubmitSignal(old(View()), s, cfg);
        View() == CommitAll(old(View()), c.writes) && outcome == c.outcome
    {
      ghost var t := View();
      if !s.leaseHeld {
        return LeaseNotHeld;
      }
      WritesKeepTablesValid(t, Admit(t, s, cfg.policy).writes);
      var signal, plan, decision, raised := AdmitSignal(s, cfg.policy);
      if raised {
        return Raised;
      }
      if decision.Reject? {
        return RiskRejected(decision.reason);
      }
      if plan.None? || !Actionable(plan.value) {
        return NothingToDo;
      }
      ghost var t1 := View();
      outcome := ExecutePlan(plan.value, signal, s, cfg.costs);
      CommitAllConcat(t, Admit(t, s, cfg.policy).writes, Execute(t1, plan.value, signal, s, cfg.costs).writes);
    }
  
    // ------------------------------------------------- cancelling and recovering

    /** Cancels an active order; answers the row as it then stands, if there is one. */
    method CancelOrderById(id: OrderId, at: Time) returns (current: Option<Order>, raised: bool)
      modifies this`orders
      ensures id !in old(orders) ==> View() == old(View()) && current.None? && !raised
      ensures id in old(orders) ==>
        var r := CancelWrites(old(View()), id, at);
        View() == CommitAll(old(View()), r.writes) && current == Some(r.order) && raised == r.raised
    {
      if id !in orders {
        return None, false;
      }
      var order := orders[id];
      var report := CancelOrder(order, at);
      if report == EmptyReport {
        return Some(order), false;
      }
      var after;
      after, raised := ApplyUpdates(order, report.updates);
      current := Some(after);
    }

    /** Cancels the active orders but for the reduce-only ones a protective state spares. */
    method CancelAllOrders(active: seq<OrderId>, control: ControlState, at: Time)
      returns (requested: nat, cancelled: nat, skipped: nat, raised: bool)
      modifies this`orders
      ensures
        var r := CancelEach(old(View()), active, control, at);
        && View() == CommitAll(old(View()), r.writes)
        && requested == |active| && cancelled == r.cancelled && skipped == r.skipped && raised == r.raised
    {
      ghost var t := View();
      requested, cancelled, skipped, raised := |active|, 0, 0, false;
      for k := 0 to |active|
        invariant var r := CancelEach(t, active[..k], control, at);
          View() == CommitAll(t, r.writes) && cancelled == r.cancelled && skipped == r.skipped && !r.raised
        invariant !raised
      {
        assert active[..k + 1][..k] == active[..k];
        ghost var before := View();
        var id := active[k];
        if id in orders && Spared(View(), orders[id], control) {
          skipped := skipped + 1;
          continue;
        }
        var current;
        current, raised := CancelOrderById(id, at);
        if id in before.orders {
          CommitAllConcat(t, CancelEach(t, active[..k], control, at).writes, CancelWrites(before, id, at).writes);
        }
        if raised {
          CancelsStopped(t, active, control, at, k + 1);
          return;
        }
        if current.None? || current.value.status != Canceled {
          skipped := skipped + 1;
          continue;
        }
        cancelled := cancelled + 1;
      }
      assert active[..|active|] == active;
    }

    method ReleaseListed(recovered: seq<Position>, tradeDate: int, at: Time)
      requires forall i :: 0 <= i < |recovered| ==> ValidPosition(recovered[i])
      modifies this`positions
      ensures View() == CommitAll(old(View()), ReleaseEach(recovered, tradeDate, at))
    {
      ghost var t := View();
      for k := 0 to |recovered|
        invariant View() == CommitAll(t, ReleaseEach(recovered[..k], tradeDate, at))
      {
        assert recovered[..k + 1][..k] == recovered[..k];
        var released := ReleasePositionForTradeDate(recovered[k], tradeDate, at);
        CommitAllConcat(t, ReleaseEach(recovered[..k], tradeDate, at),
          ReleaseWrites(Some(recovered[k]), Some(released)));
      }
      assert recovered[..|recovered|] == recovered;
    }

    /** Startup: a pristine account is seeded, every open position released. */
    method RecoverAccountState(tradeDate: int, at: Time, cash: real)
      requires ValidTables(View()) && cash > 0.0
      modifies this`positions, this`balances
      ensures View() == CommitAll(old(View()), RecoverAccount(old(View()), tradeDate, at, cash))
    {
      ghost var t := View();
      OpenPositionsAreValid(SortedKeys(t.positions.Keys), t.positions);
      var recovered, seed := OpenPositions(View()), SeedWrites(View(), tradeDate, at, cash);
      if seed != [] {
        CommitOne(t, seed[0]);
        assert seed == [seed[0]];
        SaveBalance(seed[0].balance);
      }
      ReleaseListed(recovered, tradeDate, at);
      CommitAllConcat(t, seed, ReleaseEach(recovered, tradeDate, at));
    }
  }

  lemma {:induction false} CancelsStopped(t: Tables, ids: seq<OrderId>, control: ControlState, at: Time, k: nat)
    requires k <= |ids| && CancelEach(t, ids[..k], control, at).raised
    ensures CancelEach(t, ids, control, at) == CancelEach(t, ids[..k], control, at)
  {
    if k == |ids| {
      assert ids[..k] == ids;
    } else {
      var front := ids[..|ids| - 1];
      assert front[..k] == ids[..k];
      CancelsStopped(t, front, control, at, k);
    }
  }

  lemma {:induction false} ThreeCommits(t: Tables, a: Write, b: Write, c: Write)
    ensures CommitAll(t, [a, b, c]) == Commit(Commit(Commit(t, a), b), c)
  {
    CommitTwo(t, a, b);
    assert [a, b, c][..2] == [a, b];
  }

  lemma {:induction false} UpdatesStopped(t: Tables, o: Order, updates: seq<OrderUpdate>, k: nat)
    requires k <= |updates| && UpdateWrites(t, o, updates[..k]).raised
    ensures UpdateWrites(t, o, updates) == UpdateWrites(t, o, updates[..k])
  {
    if k == |updates| {
      assert updates[..k] == updates;
    } else {
      var front := updates[..|updates| - 1];
      assert front[..k] == updates[..k];
      UpdatesStopped(t, o, front, k);
    }
  }

  lemma {:induction false} FillsStopped(t: Tables, es: seq<FillEvent>, k: nat)
    requires ValidTables(t) && ValidFillEvents(es) && k <= |es| && AllFillWrites(t, es[..k]).raised
    ensures AllFillWrites(t, es) == AllFillWrites(t, es[..k])
  {
    if k == |es| {
      assert es[..k] == es;
    } else {
      var front := es[..|es| - 1];
      assert front[..k] == es[..k];
      FillsStopped(t, front, k);
    }
  }
}
