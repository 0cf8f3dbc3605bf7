/** What a cut leaves torn stays reported, whatever happens later. */
module Unmasked {
  import opened Prelude
  import opened Sorting
  import opened Execution
  import opened Costs
  import opened Ledger
  import opened PaperAdapter
  import opened Planner
  import opened RiskGate
  import opened Store
  import opened Oms
  import opened Reconciler
  import opened LedgerAgreement
  import opened OrderAgreement
  import opened Agreement
  import opened Crashes
  import opened Reports
  import opened Submissions
  import opened Runs
  import opened AtMostOnce
  import opened Marks

  // ------------------------------------------------- an order row ahead of its fills

  /** A write that does not touch the order's intent, its fills, or what its row shows. */
  predicate LeavesAlone(t: Tables, w: Write, id: OrderId) {
    match w
    case WIntent(i) => i.id != id.intent
    case WOrder(o) => o.id == id ==> id in t.orders && o.filledQty == t.orders[id].filledQty
    case WFill(f) => ValidFill(f) && f.orderId != id
    case _ => true
  }

  function LeavingAlone(id: OrderId): (Tables, Write) -> bool { (t, w) => LeavesAlone(t, w, id) }

  lemma {:induction false} OtherFillKeepsTotal(fills: seq<Fill>, f: Fill, id: OrderId)
    requires f.orderId != id
    ensures FilledQty(fills + [f], id) == FilledQty(fills, id)
  {
    assert (fills + [f])[..|fills|] == fills;
  }

  lemma {:induction false} StaysAhead(t: Tables, w: Write, id: OrderId)
    requires Ahead(t, id) && LeavesAlone(t, w, id) && ValidWrite(w)
    ensures Ahead(Commit(t, w), id)
  {
    CommitOne(t, w);
    WritesKeepTablesValid(t, [w]);
    if w.WFill? { OtherFillKeepsTotal(t.fills, w.fill, id); }
  }

  lemma {:induction false} AllStayAhead(t: Tables, ws: seq<Write>, id: OrderId)
    requires Ahead(t, id) && Every(LeavingAlone(id), t, ws) && ValidWrites(ws)
    ensures Ahead(CommitAll(t, ws), id)
  {
    if ws != [] {
      AllStayAhead(t, ws[..|ws| - 1], id);
      assert LeavesAlone(CommitAll(t, ws[..|ws| - 1]), ws[|ws| - 1], id);
      StaysAhead(CommitAll(t, ws[..|ws| - 1]), ws[|ws| - 1], id);
    }
  }

  // ------------------------------------------------------------- what a call leaves alone

  lemma {:induction false} UpdatesLeaveAlone(t: Tables, o: Order, us: seq<OrderUpdate>, id: OrderId)
    requires o.id != id
    ensures Every(LeavingAlone(id), t, UpdateWrites(t, o, us).writes) && UpdateWrites(t, o, us).order.id == o.id
  {
    if us != [] {
      UpdatesLeaveAlone(t, o, us[..|us| - 1], id);
      var before, r := UpdateWrites(t, o, us[..|us| - 1]), UpdateWrites(t, o, us);
      if r.writes != before.writes {
        assert r.writes[..|r.writes| - 1] == before.writes;
      }
    }
  }

  /** Executions of another order. */
  ghost predicate Elsewhere(es: seq<FillEvent>, id: OrderId) {
    forall i :: 0 <= i < |es| ==> ValidFill(es[i].fill) && es[i].fill.orderId != id
  }

  lemma {:induction false} FillLeavesAlone(t: Tables, e: FillEvent, id: OrderId)
    requires ValidTables(t) && ValidFillEvent(e) && ValidFill(e.fill) && e.fill.orderId != id
    ensures Every(LeavingAlone(id), t, FillWrites(t, e).writes)
  {
    var ok, ws := LeavingAlone(id), FillWrites(t, e).writes;
    if ws != [] {
      EveryOne(ok, t, ws[0]);
      if |ws| == 3 {
        assert ws == [ws[0], ws[1], ws[2]];
        EveryThree(ok, t, ws[0], ws[1], ws[2]);
      }
    }
  }

  lemma {:induction false} FillsLeaveAlone(t: Tables, es: seq<FillEvent>, id: OrderId)
    requires ValidTables(t) && ValidFillEvents(es) && Elsewhere(es, id)
    ensures Every(LeavingAlone(id), t, AllFillWrites(t, es).writes)
  {
    if es != [] {
      var before := AllFillWrites(t, es[..|es| - 1]).writes;
      FillsLeaveAlone(t, es[..|es| - 1], id);
      FillWritesGrow(t, es);
      var t1 := CommitAll(t, before);
      FillLeavesAlone(t1, es[|es| - 1], id);
      EveryBoth(LeavingAlone(id), t, before, FillWrites(t1, es[|es| - 1]).writes);
    }
  }

  lemma {:induction false} ReportLeavesAlone(t: Tables, o: Order, report: ExecutionReport, id: OrderId)
    requires ValidTables(t) && ValidFillEvents(report.fills) && o.id != id && Elsewhere(report.fills, id)
    ensures Every(LeavingAlone(id), t, ReportWrites(t, o, report).writes)
  {
    var u := UpdateWrites(t, o, report.updates);
    UpdatesLeaveAlone(t, o, report.updates, id);
    if !u.raised {
      WritesKeepTablesValid(t, u.writes);
      var t1 := CommitAll(t, u.writes);
      FillsLeaveAlone(t1, report.fills, id);
      EveryBoth(LeavingAlone(id), t, u.writes, AllFillWrites(t1, report.fills).writes);
    }
  }

  lemma {:induction false} VenueFillsElsewhere(o: Order, i: OrderIntent, m: CostModel, s: Submission,
                                               report: ExecutionReport, id: OrderId)
    requires ValidOrder(o) && ValidCostModel(m) && SubmitOrder(o, i, m, s.scenario, s.venueTime) == Ok(report)
      && o.id != id
    ensures ValidFillEvents(report.fills) && Elsewhere(report.fills, id)
  {
    VenueReports(o, i, m, s);
    var sc, d := VenueScenario(o, i, s.scenario), DefaultPrice(o, i);
    if !sc.rejected {
      SliceEventsTell(o, m, sc.slices, d, s.venueTime, |sc.slices|);
      forall j | 0 <= j < |report.fills| ensures ValidFill(report.fills[j].fill) && report.fills[j].fill.orderId != id {
        assert TellsSlice(report.fills[j], o.id, m, s.venueTime, j);
      }
    }
  }

  lemma {:induction false} LaunchLeavesAlone(t: Tables, i: OrderIntent, s: Submission, m: CostModel, id: OrderId)
    requires ValidTables(t) && ValidIntent(i) && ValidCostModel(m) && i.id != id.intent
    ensures Every(LeavingAlone(id), t, Launch(t, i, s, m).writes)
  {
    var ok, o := LeavingAlone(id), CreateOrderFromIntent(i, s.receivedAt);
    EveryTwo(ok, t, WOrder(o), WOrder(o));
    var handed := [WOrder(o), WIntent(i.(status := IntentSubmitted))];
    EveryTwo(ok, t, handed[0], handed[1]);
    WritesKeepTablesValid(t, handed);
    if MaySaveOrder(t, o) && SubmitOrder(o, i, m, s.scenario, s.venueTime).Ok? {
      var report := SubmitOrder(o, i, m, s.scenario, s.venueTime).value;
      VenueFillsElsewhere(o, i, m, s, report, id);
      ReportLeavesAlone(CommitAll(t, handed), o, report, id);
      EveryBoth(ok, t, handed, ReportWrites(CommitAll(t, handed), o, report).writes);
    }
  }

  /** The intent a call works with is another one, or the order is there already. */
  lemma {:induction false} ExecuteLeavesAlone(t: Tables, plan: Plan, signal: Signal, s: Submission, m: CostModel,
                                              id: OrderId)
    requires Ahead(t, id) && ValidCostModel(m) && Actionable(plan) && s.decisionPrice.Some?
      && s.newIntentId !in t.intents
    ensures Every(LeavingAlone(id), t, Execute(t, plan, signal, s, m).writes)
  {
    var ok, planned := LeavingAlone(id), IntentFor(plan, signal, s);
    if ValidIntent(planned) {
      var found := IntentOf(t, signal.id);
      var intent := if found.Some? then found.value else planned;
      var saved := if found.Some? then [] else [WIntent(planned)];
      if found.None? { EveryOne(ok, t, WIntent(planned)); }
      WritesKeepTablesValid(t, saved);
      AllStayAhead(t, saved, id);
      var t1 := CommitAll(t, saved);
      if intent.status == IntentSubmitted {
        var o := CreateOrderFromIntent(intent, s.receivedAt);
        if o.id !in t1.orders { EveryOne(ok, t1, WOrder(o)); }
        EveryBoth(ok, t, saved, if o.id in t1.orders then [] else [WOrder(o)]);
      } else {
        LaunchLeavesAlone(t1, intent, s, m, id);
        EveryBoth(ok, t, saved, Launch(t1, intent, s, m).writes);
      }
    }
  }

  lemma {:induction false} AdmissionLeavesAlone(t: Tables, s: Submission, policy: Policy, id: OrderId)
    requires ValidTables(t) && ValidSubmission(s)
    ensures Every(LeavingAlone(id), t, Admit(t, s, policy).writes)
    ensures CommitAll(t, Admit(t, s, policy).writes).intents == t.intents
  {
    var ok := LeavingAlone(id);
    AdmissionShape(t, s, policy);
    var ws := Admit(t, s, policy).writes;
    EveryOne(ok, t, ws[0]);
    CommitOne(t, ws[0]);
    if |ws| == 2 {
      assert ws == [ws[0], ws[1]];
      EveryTwo(ok, t, ws[0], ws[1]);
      CommitTwo(t, ws[0], ws[1]);
    }
  }

  lemma {:induction false} CallLeavesAlone(t: Tables, s: Submission, cfg: Config, id: OrderId)
    requires Ahead(t, id) && ValidSubmission(s) && ValidConfig(cfg) && s.newIntentId !in t.intents
    ensures Every(LeavingAlone(id), t, SubmitSignal(t, s, cfg).writes)
  {
    var a := Admit(t, s, cfg.policy);
    AdmissionLeavesAlone(t, s, cfg.policy, id);
    if s.leaseHeld && !a.raised && !a.decision.Reject? && a.plan.Some? && Actionable(a.plan.value) {
      AllStayAhead(t, a.writes, id);
      var t1 := CommitAll(t, a.writes);
      ExecuteLeavesAlone(t1, a.plan.value, a.signal, s, cfg.costs, id);
      EveryBoth(LeavingAlone(id), t, a.writes, Execute(t1, a.plan.value, a.signal, s, cfg.costs).writes);
    }
  }

  // -------------------------------------------------------- what other steps leave alone

  lemma {:induction false} CancelLeavesAlone(t: Tables, order: OrderId, at: Time, id: OrderId)
    requires ValidTables(t) && order in t.orders && id in t.orders
    ensures Every(LeavingAlone(id), t, CancelWrites(t, order, at).writes)
  {
    CancelShape(t, order, at);
    var ws := CancelWrites(t, order, at).writes;
    if ws != [] { EveryOne(LeavingAlone(id), t, ws[0]); }
  }

  lemma {:induction false} CancelsLeaveAlone(t: Tables, ids: seq<OrderId>, control: ControlState, at: Time, id: OrderId)
    requires Ahead(t, id)
    ensures Every(LeavingAlone(id), t, CancelEach(t, ids, control, at).writes)
  {
    if ids != [] {
      var before, order := CancelEach(t, ids[..|ids| - 1], control, at).writes, ids[|ids| - 1];
      CancelsLeaveAlone(t, ids[..|ids| - 1], control, at, id);
      CancelEachGrows(t, ids, control, at);
      AllStayAhead(t, before, id);
      var t1 := CommitAll(t, before);
      if order in t1.orders {
        CancelLeavesAlone(t1, order, at, id);
        EveryBoth(LeavingAlone(id), t, before, CancelWrites(t1, order, at).writes);
      }
    }
  }

  lemma {:induction false} OthersLeaveAlone(t: Tables, ws: seq<Write>, id: OrderId)
    requires PositionsAndBalances(ws)
    ensures Every(LeavingAlone(id), t, ws)
  {
    if ws != [] { OthersLeaveAlone(t, ws[..|ws| - 1], id); }
  }

  lemma {:induction false} RecoveryLeavesAlone(t: Tables, tradeDate: int, at: Time, cash: real, id: OrderId)
    requires ValidTables(t) && cash > 0.0
    ensures Every(LeavingAlone(id), t, RecoverAccount(t, tradeDate, at, cash))
  {
    OpenPositionsAreValid(SortedKeys(t.positions.Keys), t.positions);
    ReleasesArePositions(OpenPositions(t), tradeDate, at);
    OthersLeaveAlone(t, RecoverAccount(t, tradeDate, at, cash), id);
  }

  lemma {:induction false} StepLeavesAlone(t: Tables, step: Step, cfg: Config, id: OrderId)
    requires Ahead(t, id) && ValidConfig(cfg) && Enabled(t, step)
    ensures Every(LeavingAlone(id), t, StepTrace(t, step, cfg).writes)
  {
    match step {
      case Submit(s) => CallLeavesAlone(t, s, cfg, id);
      case Cancel(order, at) => CancelLeavesAlone(t, order, at, id);
      case CancelAll(ids, control, at) => CancelsLeaveAlone(t, ids, control, at, id);
      case Recover(tradeDate, at) => RecoveryLeavesAlone(t, tradeDate, at, cfg.initialCash, id);
    }
  }

  // ------------------------------------------------------------------------- whole runs

  lemma {:induction false} StepStaysAhead(t: Tables, step: Step, k: nat, t': Tables, cfg: Config, id: OrderId)
    requires Ahead(t, id) && ValidConfig(cfg) && Steps(t, step, k, t', cfg)
    ensures Ahead(t', id)
  {
    var ws := StepTrace(t, step, cfg).writes;
    StepLeavesAlone(t, step, cfg, id);
    EveryPrefix(LeavingAlone(id), t, ws, k);
    AllStayAhead(t, ws[..k], id);
  }

  lemma {:induction false} RunStaysAheadOnce(states: seq<Tables>, steps: seq<Step>, cuts: seq<nat>, cfg: Config,
                                             id: OrderId, n: nat)
    requires ValidConfig(cfg) && AnyRun(states, steps, cuts, cfg) && n < |steps| && Ahead(states[n], id)
    ensures Ahead(states[n + 1], id)
  {
    assert Steps(states[n], steps[n], cuts[n], states[n + 1], cfg);
    StepStaysAhead(states[n], steps[n], cuts[n], states[n + 1], cfg, id);
  }

  lemma {:induction false} RunStaysAhead(states: seq<Tables>, steps: seq<Step>, cuts: seq<nat>, cfg: Config,
                                         id: OrderId, i: nat, j: nat)
    requires ValidConfig(cfg) && AnyRun(states, steps, cuts, cfg) && i <= j <= |steps| && Ahead(states[i], id)
    ensures Ahead(states[j], id)
  {
    var n := i;
    while n < j
      invariant i <= n <= j && Ahead(states[n], id)
    {
      RunStaysAheadOnce(states, steps, cuts, cfg, id, n);
      n := n + 1;
    }
  }

  /** Once an order row is ahead of its fills it stays so, and is reported, in every later state:
      whatever is submitted, cancelled or recovered, retries of its own signal included, at
      whatever times, and wherever each step is cut off. */
  lemma {:induction false} AheadStaysReported(states: seq<Tables>, steps: seq<Step>, cuts: seq<nat>, cfg: Config,
                                              id: OrderId, i: nat, j: nat)
    requires ValidConfig(cfg) && AnyRun(states, steps, cuts, cfg) && i <= j <= |steps| && Ahead(states[i], id)
    ensures Ahead(states[j], id) && Detected(states[j], cfg.costs)
  {
    RunStaysAhead(states, steps, cuts, cfg, id, i, j);
    OrderAheadIsReported(states[j], cfg.costs, id);
  }
}
