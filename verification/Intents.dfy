/** What a persisted intent and its order carry over from the call that planned them. */
module Intents {
  import opened Prelude
  import opened Execution
  import opened Costs
  import opened Ledger
  import opened PaperAdapter
  import opened Planner
  import opened RiskGate
  import opened Store
  import opened Oms
  import opened OrderAgreement
  import opened Submissions
  import opened Runs
  import opened AtMostOnce
  import opened Protection

  // ------------------------------------------------------------- what writes carry

  /** The order asks for exactly what the intent asks for. */
  predicate Follows(o: Order, i: OrderIntent) {
    && o.id == OrderId(i.id) && o.intentId == i.id && o.symbol == i.symbol && o.side == i.side
    && o.orderType == i.orderType && o.qty == i.qty && o.price == i.price
  }

  predicate OrderFollows(t: Tables, o: Order) {
    o.intentId in t.intents && Follows(o, t.intents[o.intentId])
  }

  predicate FillFollows(t: Tables, f: Fill) {
    var id := f.orderId.intent;
    id in t.intents && f.symbol == t.intents[id].symbol && f.side == t.intents[id].side
  }

  /** A new intent is one that ok allows; an intent that is there is only marked submitted;
      orders and fills follow their intent, and an order row is only overwritten along its lifecycle. */
  predicate Carries(t: Tables, w: Write, ok: OrderIntent -> bool) {
    match w
    case WIntent(i) =>
      if i.id in t.intents then i == t.intents[i.id].(status := IntentSubmitted) else i.status == IntentNew && ok(i)
    case WOrder(o) => OrderFollows(t, o) && (o.id in t.orders ==> CanTransition(t.orders[o.id].status, o.status))
    case WFill(f) => FillFollows(t, f)
    case _ => true
  }

  function Carrying(ok: OrderIntent -> bool): (Tables, Write) -> bool { (t, w) => Carries(t, w, ok) }

  /** The intents of the tables, and orders and fills that follow them. */
  ghost predicate Faithful(t: Tables, ok: OrderIntent -> bool) {
    && (forall id :: id in t.intents ==> t.intents[id].id == id && ok(t.intents[id].(status := IntentNew))
                                         && t.intents[id].status in {IntentNew, IntentSubmitted})
    && (forall id :: id in t.orders ==> t.orders[id].id == id && OrderFollows(t, t.orders[id]))
    && (forall i :: 0 <= i < |t.fills| ==> FillFollows(t, t.fills[i]))
  }

  /** Intents are never changed but for being marked submitted, and orders stay in their stage as
      they are or come to a later one. */
  ghost predicate Advanced(t: Tables, t': Tables) {
    && (forall id :: id in t.intents ==>
          id in t'.intents && t'.intents[id] in {t.intents[id], t.intents[id].(status := IntentSubmitted)})
    && (forall id :: id in t.orders ==>
          && id in t'.orders && Stage(t.orders[id].status) <= Stage(t'.orders[id].status)
          && (Stage(t.orders[id].status) == Stage(t'.orders[id].status) ==>
                t.orders[id].status == t'.orders[id].status))
  }

  lemma {:induction false} IntentKeepsFaithful(t: Tables, i: OrderIntent, t': Tables, ok: OrderIntent -> bool)
    requires Faithful(t, ok) && Carries(t, WIntent(i), ok) && t' == Commit(t, WIntent(i))
    ensures Faithful(t', ok) && Advanced(t, t')
  {
    forall o | OrderFollows(t, o) ensures OrderFollows(t', o) {}
    forall f | FillFollows(t, f) ensures FillFollows(t', f) {}
  }

  lemma {:induction false} OrderKeepsFaithful(t: Tables, o: Order, t': Tables, ok: OrderIntent -> bool)
    requires Faithful(t, ok) && Carries(t, WOrder(o), ok) && t' == Commit(t, WOrder(o))
    ensures Faithful(t', ok) && Advanced(t, t')
  {
    assert t'.intents == t.intents && t'.fills == t.fills;
    if o.id in t.orders { TransitionsAreExact(t.orders[o.id].status, o.status); }
  }

  lemma {:induction false} FillKeepsFaithful(t: Tables, f: Fill, t': Tables, ok: OrderIntent -> bool)
    requires Faithful(t, ok) && FillFollows(t, f) && t' == Commit(t, WFill(f))
    ensures Faithful(t', ok)
  {
    assert t'.intents == t.intents && t'.orders == t.orders;
  }

  lemma {:induction false} CarriesKeepsFaithful(t: Tables, w: Write, ok: OrderIntent -> bool)
    requires Faithful(t, ok) && Carries(t, w, ok)
    ensures Faithful(Commit(t, w), ok) && Advanced(t, Commit(t, w))
  {
    match w
    case WIntent(i) => IntentKeepsFaithful(t, i, Commit(t, w), ok);
    case WOrder(o) => OrderKeepsFaithful(t, o, Commit(t, w), ok);
    case WFill(f) => FillKeepsFaithful(t, f, Commit(t, w), ok);
    case _ => assert Commit(t, w).intents == t.intents && Commit(t, w).orders == t.orders;
  }

  lemma {:induction false} AllCarryKeepsFaithful(t: Tables, ws: seq<Write>, ok: OrderIntent -> bool)
    requires Faithful(t, ok) && Every(Carrying(ok), t, ws)
    ensures Faithful(CommitAll(t, ws), ok) && Advanced(t, CommitAll(t, ws))
  {
    if ws != [] {
      AllCarryKeepsFaithful(t, ws[..|ws| - 1], ok);
      CarriesKeepsFaithful(CommitAll(t, ws[..|ws| - 1]), ws[|ws| - 1], ok);
    }
  }

  // ----------------------------------------------------------------- report writes

  lemma {:induction false} UpdatesCarry(t: Tables, o: Order, us: seq<OrderUpdate>, ok: OrderIntent -> bool)
    requires OrderFollows(t, o)
    ensures
      var r := UpdateWrites(t, o, us);
      && Every(Carrying(ok), t, r.writes) && CommitAll(t, r.writes).intents == t.intents && OrderFollows(t, r.order)
  {
    if us != [] {
      UpdatesCarry(t, o, us[..|us| - 1], ok);
      var before, r := UpdateWrites(t, o, us[..|us| - 1]), UpdateWrites(t, o, us);
      if r.writes != before.writes {
        assert r.writes[..|r.writes| - 1] == before.writes;
      }
    }
  }

  lemma {:induction false} FillCarries(t: Tables, e: FillEvent, ok: OrderIntent -> bool)
    requires ValidTables(t) && ValidFillEvent(e) && FillFollows(t, e.fill)
    ensures Every(Carrying(ok), t, FillWrites(t, e).writes)
      && CommitAll(t, FillWrites(t, e).writes).intents == t.intents
  {
    var ws := FillWrites(t, e).writes;
    if ws != [] {
      EveryOne(Carrying(ok), t, WFill(e.fill));
      CommitOne(t, WFill(e.fill));
      if |ws| == 3 {
        EveryThree(Carrying(ok), t, ws[0], ws[1], ws[2]);
        assert ws == [ws[0], ws[1], ws[2]];
      }
    }
  }

  lemma {:induction false} FillsCarry(t: Tables, es: seq<FillEvent>, ok: OrderIntent -> bool)
    requires ValidTables(t) && ValidFillEvents(es) && forall i :: 0 <= i < |es| ==> FillFollows(t, es[i].fill)
    ensures Every(Carrying(ok), t, AllFillWrites(t, es).writes)
      && CommitAll(t, AllFillWrites(t, es).writes).intents == t.intents
  {
    if es != [] {
      var before := AllFillWrites(t, es[..|es| - 1]).writes;
      FillsCarry(t, es[..|es| - 1], ok);
      FillWritesGrow(t, es);
      var t1 := CommitAll(t, before);
      assert FillFollows(t1, es[|es| - 1].fill);
      FillCarries(t1, es[|es| - 1], ok);
      EveryBoth(Carrying(ok), t, before, FillWrites(t1, es[|es| - 1]).writes);
      CommitAllConcat(t, before, FillWrites(t1, es[|es| - 1]).writes);
    }
  }

  lemma {:induction false} ReportCarries(t: Tables, o: Order, report: ExecutionReport, ok: OrderIntent -> bool)
    requires ValidTables(t) && ValidFillEvents(report.fills) && OrderFollows(t, o)
    requires forall i :: 0 <= i < |report.fills| ==> FillFollows(t, report.fills[i].fill)
    ensures Every(Carrying(ok), t, ReportWrites(t, o, report).writes)
  {
    var u := UpdateWrites(t, o, report.updates);
    UpdatesCarry(t, o, report.updates, ok);
    if !u.raised {
      WritesKeepTablesValid(t, u.writes);
      var t1 := CommitAll(t, u.writes);
      assert forall i :: 0 <= i < |report.fills| ==> FillFollows(t1, report.fills[i].fill);
      FillsCarry(t1, report.fills, ok);
      EveryBoth(Carrying(ok), t, u.writes, AllFillWrites(t1, report.fills).writes);
    }
  }

  // ---------------------------------------------------------------------- one call

  lemma {:induction false} VenueFillsFollow(t: Tables, i: OrderIntent, o: Order, m: CostModel, s: Submission)
    requires ValidIntent(i) && ValidOrder(o) && ValidCostModel(m) && Follows(o, i)
    requires i.id in t.intents && t.intents[i.id].symbol == i.symbol && t.intents[i.id].side == i.side
    ensures
      var r := SubmitOrder(o, i, m, s.scenario, s.venueTime);
      r.Ok? ==>
        && ValidFillEvents(r.value.fills)
        && forall j :: 0 <= j < |r.value.fills| ==> FillFollows(t, r.value.fills[j].fill)
  {
    VenueFillsNameTheOrder(o, i, m, s);
    VenueFillsTrade(o, i, m, s);
  }

  lemma {:induction false} LaunchCarries(t: Tables, i: OrderIntent, s: Submission, m: CostModel,
                                         ok: OrderIntent -> bool)
    requires ValidTables(t) && ValidIntent(i) && ValidCostModel(m) && i.id in t.intents && t.intents[i.id] == i
    ensures Every(Carrying(ok), t, Launch(t, i, s, m).writes)
  {
    var o := CreateOrderFromIntent(i, s.receivedAt);
    var handed := [WOrder(o), WIntent(i.(status := IntentSubmitted))];
    if MaySaveOrder(t, o) {
      EveryTwo(Carrying(ok), t, WOrder(o), WOrder(o));
      EveryTwo(Carrying(ok), t, handed[0], handed[1]);
    }
    WritesKeepTablesValid(t, handed);
    CommitTwo(t, handed[0], handed[1]);
    var t2 := CommitAll(t, handed);
    VenueFillsFollow(t2, i, o, m, s);
    var report := SubmitOrder(o, i, m, s.scenario, s.venueTime);
    if MaySaveOrder(t, o) && report.Ok? {
      ReportCarries(t2, o, report.value, ok);
      EveryBoth(Carrying(ok), t, handed, ReportWrites(t2, o, report.value).writes);
    }
  }

  lemma {:induction false} ExecuteCarries(t: Tables, plan: Plan, signal: Signal, s: Submission, m: CostModel,
                                          ok: OrderIntent -> bool)
    requires ValidTables(t) && ValidCostModel(m) && Actionable(plan) && s.decisionPrice.Some?
    requires s.newIntentId !in t.intents && ok(IntentFor(plan, signal, s))
    ensures Every(Carrying(ok), t, Execute(t, plan, signal, s, m).writes)
  {
    var planned := IntentFor(plan, signal, s);
    if ValidIntent(planned) {
      var found := IntentOf(t, signal.id);
      var intent := if found.Some? then found.value else planned;
      var saved := if found.Some? then [] else [WIntent(planned)];
      if found.None? { EveryOne(Carrying(ok), t, WIntent(planned)); }
      WritesKeepTablesValid(t, saved);
      CommitOne(t, WIntent(planned));
      var t1 := CommitAll(t, saved);
      ExecuteSavedCarries(t, saved, t1, intent, s, m, ok);
    }
  }

  lemma {:induction false} ExecuteSavedCarries(t: Tables, saved: seq<Write>, t1: Tables, intent: OrderIntent,
                                               s: Submission, m: CostModel, ok: OrderIntent -> bool)
    requires Every(Carrying(ok), t, saved) && t1 == CommitAll(t, saved) && ValidTables(t1)
    requires ValidCostModel(m) && ValidIntent(intent) && intent.id in t1.intents && t1.intents[intent.id] == intent
    ensures
      var o := CreateOrderFromIntent(intent, s.receivedAt);
      Every(Carrying(ok), t, saved + if o.id in t1.orders then [] else [WOrder(o)])
    ensures Every(Carrying(ok), t, saved + Launch(t1, intent, s, m).writes)
  {
    var o := CreateOrderFromIntent(intent, s.receivedAt);
    if o.id !in t1.orders { EveryOne(Carrying(ok), t1, WOrder(o)); }
    EveryBoth(Carrying(ok), t, saved, if o.id in t1.orders then [] else [WOrder(o)]);
    LaunchCarries(t1, intent, s, m, ok);
    EveryBoth(Carrying(ok), t, saved, Launch(t1, intent, s, m).writes);
  }

  /** Shares that may be sold on the call's trade date: all of them, if the position was last
      touched on an earlier date. */
  function SellableToday(t: Tables, s: Submission): real {
    if s.signal.symbol !in t.positions then 0.0
    else
      var p := t.positions[s.signal.symbol];
      if s.market.Some? && DateOf(p.updatedAt) < s.market.value.tradeDate then p.qty else p.sellableQty
  }

  function HeldQty(t: Tables, s: Submission): real {
    if s.signal.symbol in t.positions then t.positions[s.signal.symbol].qty else 0.0
  }

  /** The order takes the holding towards the target: it never passes it nor sells what is locked,
      and stops less than one step short, unless it sells out an odd lot. */
  predicate Approaches(i: OrderIntent, target: real, held: real, sellable: real, rule: SymbolRule) {
    if i.side == Buy then
      held + i.qty <= target < held + i.qty + rule.qtyStep && rule.minQty <= i.qty
    else
      && target <= held - i.qty && i.qty <= sellable
      && (if sellable < rule.lotSize && rule.allowOddLotSell && sellable <= held - target then i.qty == sellable
          else rule.minQty <= i.qty && MinReal(held - target, sellable) < i.qty + rule.qtyStep)
  }

  /** What a new intent carries over from the call and its signal: an earlier row of the signal wins. */
  predicate CarriesTheCall(i: OrderIntent, t: Tables, s: Submission) {
    var signal := if s.signal.id in t.signals then t.signals[s.signal.id] else s.signal;
    && i.id == s.newIntentId && i.signalId == signal.id && i.symbol == signal.symbol
    && i.orderType == s.orderType && i.price == s.price && Some(i.decisionPrice) == s.decisionPrice
    && i.market == s.market && i.createdAt == s.receivedAt && i.status == IntentNew
    && (i.reduceOnly <==> i.side == Sell)
    && s.rule.Some? && Approaches(i, signal.targetPosition, HeldQty(t, s), SellableToday(t, s), s.rule.value)
  }

  lemma {:induction false} PlanApproaches(target: real, rule: SymbolRule, qty: real, sellable: real, i: OrderIntent)
    requires ValidRule(rule) && 0.0 <= sellable <= qty && Actionable(BuildPlan(target, rule, qty, sellable))
    requires i.side == BuildPlan(target, rule, qty, sellable).side.value
    requires i.qty == BuildPlan(target, rule, qty, sellable).qty
    ensures Approaches(i, target, qty, sellable, rule)
    ensures BuildPlan(target, rule, qty, sellable).reduceOnly <==> i.side == Sell
  {
  }

  lemma {:induction false} PlannedIntentCarries(t: Tables, s: Submission, policy: Policy)
    requires ValidTables(t) && ValidSubmission(s)
    requires
      var a := Admit(t, s, policy);
      a.plan.Some? && Actionable(a.plan.value)
    ensures s.decisionPrice.Some?
    ensures
      var a := Admit(t, s, policy);
      CarriesTheCall(IntentFor(a.plan.value, a.signal, s), t, s)
  {
    var a := Admit(t, s, policy);
    var i := IntentFor(a.plan.value, a.signal, s);
    if s.signal.symbol in t.positions { assert ValidPosition(t.positions[s.signal.symbol]); }
    PlanApproaches(a.signal.targetPosition, s.rule.value, HeldQty(t, s), SellableToday(t, s), i);
  }

  lemma {:induction false} AdmissionCarries(t: Tables, s: Submission, policy: Policy, ok: OrderIntent -> bool)
    requires ValidTables(t) && ValidSubmission(s)
    ensures Every(Carrying(ok), t, Admit(t, s, policy).writes)
    ensures CommitAll(t, Admit(t, s, policy).writes).intents == t.intents
  {
    AdmissionShape(t, s, policy);
    var ws := Admit(t, s, policy).writes;
    EveryOne(Carrying(ok), t, ws[0]);
    CommitOne(t, ws[0]);
    if |ws| == 2 {
      assert ws == [ws[0], ws[1]];
      EveryTwo(Carrying(ok), t, ws[0], ws[1]);
      CommitTwo(t, ws[0], ws[1]);
    }
  }

  /** A new intent carries the call's signal, price, order type, decision price, market and time, is
      reduce-only exactly when it sells, and is sized towards the signal's target. The intent a retry
      finds is only marked submitted, and the call's order and fills follow the intent. */
  lemma {:induction false} NewIntentsCarryTheCall(t: Tables, s: Submission, cfg: Config, ok: OrderIntent -> bool)
    requires ValidTables(t) && ValidSubmission(s) && ValidConfig(cfg) && s.newIntentId !in t.intents
    requires forall i :: CarriesTheCall(i, t, s) ==> ok(i)
    ensures Every(Carrying(ok), t, SubmitSignal(t, s, cfg).writes)
  {
    var a := Admit(t, s, cfg.policy);
    AdmissionCarries(t, s, cfg.policy, ok);
    if s.leaseHeld && !a.raised && !a.decision.Reject? && a.plan.Some? && Actionable(a.plan.value) {
      WritesKeepTablesValid(t, a.writes);
      PlannedIntentCarries(t, s, cfg.policy);
      var t1 := CommitAll(t, a.writes);
      ExecuteCarries(t1, a.plan.value, a.signal, s, cfg.costs, ok);
      EveryBoth(Carrying(ok), t, a.writes, Execute(t1, a.plan.value, a.signal, s, cfg.costs).writes);
    }
  }

  // -------------------------------------------------------------------- other steps

  lemma {:induction false} CancelsCarry(t: Tables, ids: seq<OrderId>, control: ControlState, at: Time,
                                        ok: OrderIntent -> bool)
    requires Faithful(t, ok)
    ensures Every(Carrying(ok), t, CancelEach(t, ids, control, at).writes)
  {
    if ids != [] {
      var before, id := CancelEach(t, ids[..|ids| - 1], control, at).writes, ids[|ids| - 1];
      CancelsCarry(t, ids[..|ids| - 1], control, at, ok);
      CancelEachGrows(t, ids, control, at);
      AllCarryKeepsFaithful(t, before, ok);
      var t1 := CommitAll(t, before);
      if id in t1.orders {
        UpdatesCarry(t1, t1.orders[id], CancelOrder(t1.orders[id], at).updates, ok);
        EveryBoth(Carrying(ok), t, before, CancelWrites(t1, id, at).writes);
      }
    }
  }

  lemma {:induction false} OthersCarry(t: Tables, ws: seq<Write>, ok: OrderIntent -> bool)
    requires PositionsAndBalances(ws)
    ensures Every(Carrying(ok), t, ws)
  {
    if ws != [] { OthersCarry(t, ws[..|ws| - 1], ok); }
  }

  lemma {:induction false} RecoveryCarries(t: Tables, tradeDate: int, at: Time, cash: real, ok: OrderIntent -> bool)
    requires ValidTables(t) && cash > 0.0
    ensures Every(Carrying(ok), t, RecoverAccount(t, tradeDate, at, cash))
  {
    OpenPositionsAreValid(SortedKeys(t.positions.Keys), t.positions);
    ReleasesArePositions(OpenPositions(t), tradeDate, at);
    OthersCarry(t, RecoverAccount(t, tradeDate, at, cash), ok);
  }

  /** A sell is reduce-only, and nothing else is. */
  predicate SellsAreReduceOnly(i: OrderIntent) { i.reduceOnly <==> i.side == Sell }

  lemma {:induction false} StepCarries(t: Tables, step: Step, cfg: Config)
    requires Faithful(t, SellsAreReduceOnly) && ValidTables(t) && ValidConfig(cfg) && Enabled(t, step)
    ensures Every(Carrying(SellsAreReduceOnly), t, StepTrace(t, step, cfg).writes)
  {
    match step {
      case Submit(s) => NewIntentsCarryTheCall(t, s, cfg, SellsAreReduceOnly);
      case Cancel(id, at) =>
        UpdatesCarry(t, t.orders[id], CancelOrder(t.orders[id], at).updates, SellsAreReduceOnly);
      case CancelAll(ids, control, at) => CancelsCarry(t, ids, control, at, SellsAreReduceOnly);
      case Recover(tradeDate, at) => RecoveryCarries(t, tradeDate, at, cfg.initialCash, SellsAreReduceOnly);
    }
  }

  // ---------------------------------------------------------------------- over runs

  lemma {:induction false} StepKeepsFaithful(t: Tables, step: Step, k: nat, t': Tables, cfg: Config)
    requires ValidConfig(cfg) && Faithful(t, SellsAreReduceOnly) && Steps(t, step, k, t', cfg)
    ensures Faithful(t', SellsAreReduceOnly) && Advanced(t, t')
  {
    StepCarries(t, step, cfg);
    EveryPrefix(Carrying(SellsAreReduceOnly), t, StepTrace(t, step, cfg).writes, k);
    AllCarryKeepsFaithful(t, Written(t, step, k, cfg), SellsAreReduceOnly);
  }

  lemma {:induction false} AdvancedFurther(a: Tables, b: Tables, c: Tables)
    requires Advanced(a, b) && Advanced(b, c)
    ensures Advanced(a, c)
  {
  }

  lemma {:induction false} RunStaysFaithfulOnce(a: Tables, states: seq<Tables>, steps: seq<Step>, cuts: seq<nat>,
                                                cfg: Config, n: nat)
    requires ValidConfig(cfg) && AnyRun(states, steps, cuts, cfg) && n < |steps|
    requires Faithful(states[n], SellsAreReduceOnly) && Advanced(a, states[n])
    ensures Faithful(states[n + 1], SellsAreReduceOnly) && Advanced(a, states[n + 1])
  {
    StepKeepsFaithful(states[n], steps[n], cuts[n], states[n + 1], cfg);
    AdvancedFurther(a, states[n], states[n + 1]);
  }

  /** Over any run, cut off anywhere: every intent is reduce-only exactly when it sells and is never
      changed but for being marked submitted, orders and fills follow their intents, and no order
      falls back or leaves a closed status. */
  lemma {:induction false} RunsStayFaithful(states: seq<Tables>, steps: seq<Step>, cuts: seq<nat>, cfg: Config, i: nat,
                                            j: nat)
    requires ValidConfig(cfg) && AnyRun(states, steps, cuts, cfg) && i <= j <= |steps|
    requires Faithful(states[i], SellsAreReduceOnly)
    ensures Faithful(states[j], SellsAreReduceOnly) && Advanced(states[i], states[j])
  {
    var n := i;
    while n < j
      invariant i <= n <= j && Faithful(states[n], SellsAreReduceOnly) && Advanced(states[i], states[n])
    {
      RunStaysFaithfulOnce(states[i], states, steps, cuts, cfg, n);
      n := n + 1;
    }
  }

  lemma {:induction false} SparedAreSells(t: Tables, id: OrderId, control: ControlState)
    requires Faithful(t, SellsAreReduceOnly) && id in t.orders
    ensures Spared(t, t.orders[id], control) <==> control in {KillSwitch, ProtectionMode} && t.orders[id].side == Sell
  {
    assert OrderFollows(t, t.orders[id]);
    var i := t.intents[t.orders[id].intentId];
    assert SellsAreReduceOnly(i.(status := IntentNew));
  }

  /** Over any run from empty tables: cancel-all under the kill switch or protection mode leaves active
      exactly the active sells, and under any other state nothing. */
  lemma {:induction false} CancelAllLeavesExactlySells(states: seq<Tables>, steps: seq<Step>, cuts: seq<nat>,
                                                       cfg: Config, n: nat, ids: seq<OrderId>, control: ControlState,
                                                       at: Time)
    requires ValidConfig(cfg) && AnyRun(states, steps, cuts, cfg) && n <= |steps| && states[0] == EmptyTables
    requires ValidTables(states[n]) && ListsActive(states[n], ids)
    requires forall id :: id in ids ==> states[n].orders[id].submittedAt <= at
    ensures
      var t, t' := states[n], CommitAll(states[n], CancelEach(states[n], ids, control, at).writes);
      forall id :: id in t'.orders && Active(t'.orders[id]) <==>
                   id in t.orders && Active(t.orders[id]) && t.orders[id].side == Sell
                   && control in {KillSwitch, ProtectionMode}
  {
    RunsStayFaithful(states, steps, cuts, cfg, 0, n);
    CancelAllLeavesReduceOnly(states[n], ids, control, at);
    forall id | id in states[n].orders
      ensures Spared(states[n], states[n].orders[id], control) <==>
              control in {KillSwitch, ProtectionMode} && states[n].orders[id].side == Sell
    {
      SparedAreSells(states[n], id, control);
    }
  }

  /** Over any run, cut off anywhere: signals, fills and snapshots are never changed, nothing is
      erased, and no fill id and no snapshot time is there twice. */
  lemma {:induction false} RunsEraseNothing(states: seq<Tables>, steps: seq<Step>, cuts: seq<nat>, cfg: Config, i: nat,
                                            j: nat)
    requires ValidConfig(cfg) && AnyRun(states, steps, cuts, cfg) && i <= j <= |steps|
    ensures Grown(states[i], states[j])
    ensures Unrepeated(states[i]) ==> Unrepeated(states[j])
  {
    var n := i;
    while n < j
      invariant i <= n <= j && Grown(states[i], states[n]) && (Unrepeated(states[i]) ==> Unrepeated(states[n]))
    {
      assert Steps(states[n], steps[n], cuts[n], states[n + 1], cfg);
      WritesEraseNothing(states[n], Written(states[n], steps[n], cuts[n], cfg));
      GrownFurther(states[i], states[n], states[n + 1]);
      n := n + 1;
    }
  }
}
