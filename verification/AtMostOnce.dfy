/** Submitting one signal any number of times, among other steps, each cut off anywhere. */
module AtMostOnce {
  import opened Prelude
  import opened Execution
  import opened Costs
  import opened Ledger
  import opened PaperAdapter
  import opened Planner
  import opened RiskGate
  import opened Store
  import opened Oms
  import opened OrderAgreement
  import opened Submissions
  import opened Runs

  // ------------------------------------------------------------- what stays true

  /** Keys lead to intents and back, orders belong to intents, and only submitted intents
      have fills. */
  ghost predicate Once(t: Tables) {
    && (forall s :: s in t.signals ==> t.signals[s].id == s)
    && IntentsIndexed(t)
    && (forall id :: id in t.orders ==>
          t.orders[id].id == id == OrderId(t.orders[id].intentId) && id.intent in t.intents)
    && (forall i :: 0 <= i < |t.fills| ==> Submitted(t, t.fills[i].orderId.intent))
  }

  /** Keys keep their intents, and a submitted intent stays submitted. */
  ghost predicate Evolves(t: Tables, t': Tables) {
    && (forall s :: s in t.intentBySignal ==> s in t'.intentBySignal && t'.intentBySignal[s] == t.intentBySignal[s])
    && (forall id :: id in t.intents ==> id in t'.intents && t'.intents[id].signalId == t.intents[id].signalId)
    && (forall id :: Submitted(t, id) ==> Submitted(t', id))
  }

  /** The writes that keep all this. */
  predicate May(t: Tables, w: Write) {
    match w
    case WIntent(i) =>
      if i.id in t.intents then
        && t.intents[i.id].signalId == i.signalId
        && (t.intents[i.id].status == IntentSubmitted ==> i.status == IntentSubmitted)
      else i.signalId !in t.intentBySignal
    case WOrder(o) => o.id == OrderId(o.intentId) && o.intentId in t.intents
    case WFill(f) => Submitted(t, f.orderId.intent)
    case _ => true
  }

  lemma {:induction false} IntentKeepsOnce(t: Tables, i: OrderIntent)
    requires Once(t) && May(t, WIntent(i))
    ensures Once(Commit(t, WIntent(i))) && Evolves(t, Commit(t, WIntent(i)))
  {
    var t' := Commit(t, WIntent(i));
    assert t'.fills == t.fills && t'.orders == t.orders && t'.signals == t.signals;
    assert forall id :: Submitted(t, id) ==> Submitted(t', id);
    assert IntentsIndexed(t');
  }

  lemma {:induction false} FillKeepsOnce(t: Tables, f: Fill)
    requires Once(t) && May(t, WFill(f))
    ensures Once(Commit(t, WFill(f))) && Evolves(t, Commit(t, WFill(f)))
  {
    var t' := Commit(t, WFill(f));
    assert t'.intents == t.intents && t'.intentBySignal == t.intentBySignal && t'.orders == t.orders;
    assert forall i :: 0 <= i < |t'.fills| ==> Submitted(t, t'.fills[i].orderId.intent);
  }

  lemma {:induction false} OrderKeepsOnce(t: Tables, o: Order)
    requires Once(t) && May(t, WOrder(o))
    ensures Once(Commit(t, WOrder(o))) && Evolves(t, Commit(t, WOrder(o)))
  {
    var t' := Commit(t, WOrder(o));
    assert t'.intents == t.intents && t'.intentBySignal == t.intentBySignal && t'.fills == t.fills;
  }

  lemma {:induction false} MayKeepsOnce(t: Tables, w: Write)
    requires Once(t) && May(t, w)
    ensures Once(Commit(t, w)) && Evolves(t, Commit(t, w))
  {
    match w
    case WIntent(i) => IntentKeepsOnce(t, i);
    case WFill(f) => FillKeepsOnce(t, f);
    case WOrder(o) => OrderKeepsOnce(t, o);
    case _ => assert Commit(t, w).intents == t.intents && Commit(t, w).fills == t.fills;
  }

  lemma {:induction false} EvolvesFurther(a: Tables, b: Tables, c: Tables)
    requires Evolves(a, b) && Evolves(b, c)
    ensures Evolves(a, c)
  {
  }

  lemma {:induction false} AllMayKeepsOnce(t: Tables, ws: seq<Write>)
    requires Once(t) && Every(May, t, ws)
    ensures Once(CommitAll(t, ws)) && Evolves(t, CommitAll(t, ws))
  {
    if ws != [] {
      var t1 := CommitAll(t, ws[..|ws| - 1]);
      AllMayKeepsOnce(t, ws[..|ws| - 1]);
      MayKeepsOnce(t1, ws[|ws| - 1]);
      EvolvesFurther(t, t1, CommitAll(t, ws));
    }
  }

  // ------------------------------------------------------------- report writes

  predicate NoFills(ws: seq<Write>) { forall i :: 0 <= i < |ws| ==> !ws[i].WFill? }

  lemma {:induction false} UpdatesMay(t: Tables, o: Order, us: seq<OrderUpdate>)
    requires o.id == OrderId(o.intentId) && o.intentId in t.intents
    ensures
      var r := UpdateWrites(t, o, us);
      && Every(May, t, r.writes) && NoFills(r.writes) && CommitAll(t, r.writes).intents == t.intents
      && r.order.id == o.id && r.order.intentId == o.intentId
  {
    if us != [] {
      UpdatesMay(t, o, us[..|us| - 1]);
      var before, r := UpdateWrites(t, o, us[..|us| - 1]), UpdateWrites(t, o, us);
      if r.writes != before.writes {
        assert r.writes[..|r.writes| - 1] == before.writes;
      }
    }
  }

  lemma {:induction false} FillMay(t: Tables, e: FillEvent)
    requires ValidTables(t) && ValidFillEvent(e) && Submitted(t, e.fill.orderId.intent)
    ensures Every(May, t, FillWrites(t, e).writes) && CommitAll(t, FillWrites(t, e).writes).intents == t.intents
  {
    var ws := FillWrites(t, e).writes;
    if ws != [] {
      EveryOne(May, t, WFill(e.fill));
      CommitOne(t, WFill(e.fill));
      if |ws| == 3 {
        EveryThree(May, t, ws[0], ws[1], ws[2]);
        assert ws == [ws[0], ws[1], ws[2]];
      }
    }
  }

  lemma {:induction false} FillsMay(t: Tables, es: seq<FillEvent>, id: IntentId)
    requires ValidTables(t) && ValidFillEvents(es) && Submitted(t, id)
    requires forall i :: 0 <= i < |es| ==> es[i].fill.orderId.intent == id
    ensures Every(May, t, AllFillWrites(t, es).writes) && CommitAll(t, AllFillWrites(t, es).writes).intents == t.intents
  {
    if es != [] {
      var before := AllFillWrites(t, es[..|es| - 1]).writes;
      FillsMay(t, es[..|es| - 1], id);
      FillWritesGrow(t, es);
      var t1 := CommitAll(t, before);
      FillMay(t1, es[|es| - 1]);
      EveryBoth(May, t, before, FillWrites(t1, es[|es| - 1]).writes);
      CommitAllConcat(t, before, FillWrites(t1, es[|es| - 1]).writes);
    }
  }

  /** Executions of one order, numbered from one. */
  ghost predicate Names(fills: seq<FillEvent>, o: OrderId) {
    forall j :: 0 <= j < |fills| ==> fills[j].fill.orderId == o && fills[j].fill.id == FillId(o, j + 1)
  }

  lemma {:induction false} ReportMay(t: Tables, o: Order, report: ExecutionReport)
    requires ValidTables(t) && ValidFillEvents(report.fills)
    requires o.id == OrderId(o.intentId) && Submitted(t, o.intentId)
    requires Names(report.fills, o.id)
    ensures Every(May, t, ReportWrites(t, o, report).writes)
  {
    var u := UpdateWrites(t, o, report.updates);
    UpdatesMay(t, o, report.updates);
    if !u.raised {
      WritesKeepTablesValid(t, u.writes);
      var t1 := CommitAll(t, u.writes);
      FillsMay(t1, report.fills, o.intentId);
      EveryBoth(May, t, u.writes, AllFillWrites(t1, report.fills).writes);
    }
  }

  // ------------------------------------------------------------- one call

  lemma {:induction false} PaperFillsNameTheOrder(o: Order, m: CostModel, s: Scenario, default: real, base: Time)
    requires ValidCostModel(m) && PaperReport(o, m, s, default, base).Ok?
    ensures Names(PaperReport(o, m, s, default, base).value.fills, o.id)
  {
    if !s.rejected {
      SliceEventsTell(o, m, s.slices, default, base, |s.slices|);
      var es := SliceEvents(o, m, s.slices, default, base, |s.slices|);
      forall j | 0 <= j < |es| ensures es[j].fill.orderId == o.id && es[j].fill.id == FillId(o.id, j + 1) {
        assert TellsSlice(es[j], o.id, m, base, j);
      }
    }
  }

  lemma {:induction false} VenueFillsNameTheOrder(o: Order, i: OrderIntent, m: CostModel, s: Submission)
    requires ValidOrder(o) && ValidCostModel(m)
    ensures
      var r := SubmitOrder(o, i, m, s.scenario, s.venueTime);
      r.Ok? ==> ValidFillEvents(r.value.fills) && Names(r.value.fills, o.id)
  {
    VenueReports(o, i, m, s);
    var r := SubmitOrder(o, i, m, s.scenario, s.venueTime);
    if r.Ok? { PaperFillsNameTheOrder(o, m, VenueScenario(o, i, s.scenario), DefaultPrice(o, i), s.venueTime); }
  }

  /** A submitted intent, of this signal. */
  predicate SubmittedFor(t: Tables, id: IntentId, signal: SignalId) {
    Submitted(t, id) && t.intents[id].signalId == signal
  }

  /** What is common to every stage of a call: its writes are permitted, and wherever they
      are cut, a fill is among them only if the intent has been submitted. */
  ghost predicate Orderly(t: Tables, ws: seq<Write>, id: IntentId, signal: SignalId) {
    Every(May, t, ws) && forall k :: 0 <= k <= |ws| ==> FillNeedsSubmitted(t, ws[..k], id, signal)
  }

  ghost predicate FillNeedsSubmitted(t: Tables, ws: seq<Write>, id: IntentId, signal: SignalId) {
    !NoFills(ws) ==> SubmittedFor(CommitAll(t, ws), id, signal)
  }

  lemma {:induction false} QuietIsOrderly(t: Tables, ws: seq<Write>, id: IntentId, signal: SignalId)
    requires Every(May, t, ws) && NoFills(ws)
    ensures Orderly(t, ws, id, signal)
  {
  }

  lemma {:induction false} OrderlyAfterQuiet(t: Tables, a: seq<Write>, t1: Tables, b: seq<Write>, id: IntentId,
                                             signal: SignalId)
    requires Every(May, t, a) && NoFills(a) && t1 == CommitAll(t, a) && Orderly(t1, b, id, signal)
    ensures Orderly(t, a + b, id, signal)
  {
    EveryBoth(May, t, a, b);
    forall k | 0 <= k <= |a + b| ensures FillNeedsSubmitted(t, (a + b)[..k], id, signal) {
      if k <= |a| {
        assert (a + b)[..k] == a[..k];
      } else {
        assert (a + b)[..k] == a + b[..k - |a|];
        CommitAllConcat(t, a, b[..k - |a|]);
        assert FillNeedsSubmitted(t1, b[..k - |a|], id, signal);
        NoFillsOfBoth(a, b[..k - |a|]);
      }
    }
  }

  lemma {:induction false} NoFillsOfBoth(a: seq<Write>, b: seq<Write>)
    ensures NoFills(a + b) <==> NoFills(a) && NoFills(b)
  {
    assert forall i :: 0 <= i < |a| ==> (a + b)[i] == a[i];
    assert forall i :: 0 <= i < |b| ==> (a + b)[|a| + i] == b[i];
  }

  /** After the intent has been submitted, permitted writes are orderly. */
  lemma {:induction false} OrderlyOnceSubmitted(t: Tables, ws: seq<Write>, id: IntentId, signal: SignalId)
    requires Once(t) && SubmittedFor(t, id, signal) && Every(May, t, ws)
    ensures Orderly(t, ws, id, signal)
  {
    forall k | 0 <= k <= |ws| ensures FillNeedsSubmitted(t, ws[..k], id, signal) {
      EveryPrefix(May, t, ws, k);
      AllMayKeepsOnce(t, ws[..k]);
    }
  }

  lemma {:induction false} LaunchOrderly(t: Tables, i: OrderIntent, s: Submission, m: CostModel)
    requires Once(t) && ValidTables(t) && ValidIntent(i) && ValidCostModel(m)
    requires i.id in t.intents && t.intents[i.id] == i
    ensures Orderly(t, Launch(t, i, s, m).writes, i.id, i.signalId)
  {
    var o := CreateOrderFromIntent(i, s.receivedAt);
    EveryOne(May, t, WOrder(o));
    CommitOne(t, WOrder(o));
    var t1 := Commit(t, WOrder(o));
    if !MaySaveOrder(t, o) {
      QuietIsOrderly(t, [], i.id, i.signalId);
    } else {
      VenueFillsNameTheOrder(o, i, m, s);
      var report := SubmitOrder(o, i, m, s.scenario, s.venueTime);
      if report.Error? {
        EveryOne(May, t1, WOrder(o));
        EveryBoth(May, t, [WOrder(o)], [WOrder(o)]);
        assert [WOrder(o)] + [WOrder(o)] == [WOrder(o), WOrder(o)];
        QuietIsOrderly(t, [WOrder(o), WOrder(o)], i.id, i.signalId);
      } else {
        LaunchedOrderly(t, i, o, report.value);
      }
    }
  }

  lemma {:induction false} LaunchedOrderly(t: Tables, i: OrderIntent, o: Order, report: ExecutionReport)
    requires Once(t) && ValidTables(t) && ValidIntent(i) && ValidOrder(o) && i.id in t.intents && t.intents[i.id] == i
    requires o.id == OrderId(i.id) && o.intentId == i.id && ValidFillEvents(report.fills)
    requires Names(report.fills, o.id)
    ensures
      var handed := [WOrder(o), WIntent(i.(status := IntentSubmitted))];
      && ValidTables(CommitAll(t, handed))
      && Orderly(t, handed + ReportWrites(CommitAll(t, handed), o, report).writes, i.id, i.signalId)
  {
    var a, b := WOrder(o), WIntent(i.(status := IntentSubmitted));
    EveryOne(May, t, a);
    CommitOne(t, a);
    EveryOne(May, Commit(t, a), b);
    CommitOne(Commit(t, a), b);
    EveryBoth(May, t, [a], [b]);
    CommitAllConcat(t, [a], [b]);
    assert [a] + [b] == [a, b];
    var t2 := CommitAll(t, [a, b]);
    WritesKeepTablesValid(t, [a, b]);
    AllMayKeepsOnce(t, [a, b]);
    ReportMay(t2, o, report);
    OrderlyOnceSubmitted(t2, ReportWrites(t2, o, report).writes, i.id, i.signalId);
    OrderlyAfterQuiet(t, [a, b], t2, ReportWrites(t2, o, report).writes, i.id, i.signalId);
  }

  /** The intent a call for this signal works with. */
  function IntentUsed(t: Tables, signal: SignalId, newId: IntentId): IntentId {
    if IntentOf(t, signal).Some? then IntentOf(t, signal).value.id else newId
  }

  lemma {:induction false} ExecuteOrderly(t: Tables, plan: Plan, signal: Signal, s: Submission, m: CostModel)
    requires Once(t) && ValidTables(t) && ValidCostModel(m) && s.newIntentId !in t.intents
    requires Actionable(plan) && s.decisionPrice.Some?
    ensures Orderly(t, Execute(t, plan, signal, s, m).writes, IntentUsed(t, signal.id, s.newIntentId), signal.id)
    ensures IntentOf(t, signal.id).Some? && IntentOf(t, signal.id).value.status == IntentSubmitted ==>
      NoFills(Execute(t, plan, signal, s, m).writes)
  {
    var planned := IntentFor(plan, signal, s);
    var id := IntentUsed(t, signal.id, s.newIntentId);
    if !ValidIntent(planned) {
      QuietIsOrderly(t, [], id, signal.id);
    } else {
      var found := IntentOf(t, signal.id);
      var intent := if found.Some? then found.value else planned;
      var saved := if found.Some? then [] else [WIntent(planned)];
      if found.None? { EveryOne(May, t, WIntent(planned)); }
      WritesKeepTablesValid(t, saved);
      AllMayKeepsOnce(t, saved);
      CommitOne(t, WIntent(planned));
      var t1 := CommitAll(t, saved);
      ExecuteSavedOrderly(t, saved, t1, intent, s, m);
    }
  }

  lemma {:induction false} ExecuteSavedOrderly(t: Tables, saved: seq<Write>, t1: Tables, intent: OrderIntent,
                                               s: Submission, m: CostModel)
    requires Every(May, t, saved) && NoFills(saved) && t1 == CommitAll(t, saved) && Once(t1) && ValidTables(t1)
    requires ValidCostModel(m) && ValidIntent(intent) && intent.id in t1.intents && t1.intents[intent.id] == intent
    ensures
      var o := CreateOrderFromIntent(intent, s.receivedAt);
      Orderly(t, saved + if o.id in t1.orders then [] else [WOrder(o)], intent.id, intent.signalId)
      && NoFills(saved + if o.id in t1.orders then [] else [WOrder(o)])
    ensures Orderly(t, saved + Launch(t1, intent, s, m).writes, intent.id, intent.signalId)
  {
    var o := CreateOrderFromIntent(intent, s.receivedAt);
    var rest := if o.id in t1.orders then [] else [WOrder(o)];
    EveryOne(May, t1, WOrder(o));
    EveryBoth(May, t, saved, rest);
    NoFillsOfBoth(saved, rest);
    QuietIsOrderly(t, saved + rest, intent.id, intent.signalId);
    LaunchOrderly(t1, intent, s, m);
    OrderlyAfterQuiet(t, saved, t1, Launch(t1, intent, s, m).writes, intent.id, intent.signalId);
  }

  lemma {:induction false} AdmissionIsQuiet(t: Tables, s: Submission, policy: Policy)
    requires ValidTables(t) && ValidSubmission(s)
    ensures
      var ws := Admit(t, s, policy).writes;
      var t1 := CommitAll(t, ws);
      && Every(May, t, ws) && NoFills(ws)
      && t1.intents == t.intents && t1.intentBySignal == t.intentBySignal
  {
    AdmissionShape(t, s, policy);
    var ws := Admit(t, s, policy).writes;
    EveryOne(May, t, ws[0]);
    CommitOne(t, ws[0]);
    if |ws| == 2 {
      CommitTwo(t, ws[0], ws[1]);
      assert ws[..1] == [ws[0]] && ws == [ws[0], ws[1]];
    }
  }

  lemma {:induction false} SubmitOrderly(t: Tables, s: Submission, cfg: Config)
    requires Once(t) && ValidTables(t) && ValidSubmission(s) && ValidConfig(cfg) && s.newIntentId !in t.intents
    ensures Orderly(t, SubmitSignal(t, s, cfg).writes, IntentUsed(t, s.signal.id, s.newIntentId), s.signal.id)
    ensures IntentOf(t, s.signal.id).Some? && IntentOf(t, s.signal.id).value.status == IntentSubmitted ==>
      NoFills(SubmitSignal(t, s, cfg).writes)
  {
    var id := IntentUsed(t, s.signal.id, s.newIntentId);
    var a := Admit(t, s, cfg.policy);
    AdmissionIsQuiet(t, s, cfg.policy);
    assert a.signal.id == s.signal.id;
    if !s.leaseHeld {
      QuietIsOrderly(t, [], id, s.signal.id);
    } else if a.raised || a.decision.Reject? || a.plan.None? || !Actionable(a.plan.value) {
      QuietIsOrderly(t, a.writes, id, s.signal.id);
    } else {
      WritesKeepTablesValid(t, a.writes);
      AllMayKeepsOnce(t, a.writes);
      var t1 := CommitAll(t, a.writes);
      assert IntentOf(t1, s.signal.id) == IntentOf(t, s.signal.id);
      ExecuteOrderly(t1, a.plan.value, a.signal, s, cfg.costs);
      var rest := Execute(t1, a.plan.value, a.signal, s, cfg.costs).writes;
      OrderlyAfterQuiet(t, a.writes, t1, rest, id, s.signal.id);
      NoFillsOfBoth(a.writes, rest);
    }
  }

  // ------------------------------------------------------------- the other steps

  lemma {:induction false} OrderIsOwned(t: Tables, id: OrderId)
    requires Once(t) && id in t.orders
    ensures t.orders[id].id == OrderId(t.orders[id].intentId) && t.orders[id].intentId in t.intents
  {
  }

  lemma {:induction false} CancelMay(t: Tables, id: OrderId, at: Time)
    requires Once(t) && id in t.orders
    ensures Every(May, t, CancelWrites(t, id, at).writes) && NoFills(CancelWrites(t, id, at).writes)
  {
    OrderIsOwned(t, id);
    UpdatesMay(t, t.orders[id], CancelOrder(t.orders[id], at).updates);
  }

  lemma {:induction false} CancelsMay(t: Tables, ids: seq<OrderId>, control: ControlState, at: Time)
    requires Once(t)
    ensures Every(May, t, CancelEach(t, ids, control, at).writes) && NoFills(CancelEach(t, ids, control, at).writes)
  {
    if ids != [] {
      var before, id := CancelEach(t, ids[..|ids| - 1], control, at).writes, ids[|ids| - 1];
      CancelsMay(t, ids[..|ids| - 1], control, at);
      CancelEachGrows(t, ids, control, at);
      AllMayKeepsOnce(t, before);
      var t1 := CommitAll(t, before);
      if id in t1.orders {
        CancelMay(t1, id, at);
        EveryBoth(May, t, before, CancelWrites(t1, id, at).writes);
        NoFillsOfBoth(before, CancelWrites(t1, id, at).writes);
      }
    }
  }

  predicate PositionsAndBalances(ws: seq<Write>) { forall i :: 0 <= i < |ws| ==> ws[i].WPosition? || ws[i].WBalance? }

  lemma {:induction false} OthersMay(t: Tables, ws: seq<Write>)
    requires PositionsAndBalances(ws)
    ensures Every(May, t, ws) && NoFills(ws)
  {
    if ws != [] { OthersMay(t, ws[..|ws| - 1]); }
  }

  lemma {:induction false} ReleasesArePositions(positions: seq<Position>, tradeDate: int, at: Time)
    requires forall i :: 0 <= i < |positions| ==> ValidPosition(positions[i])
    ensures PositionsAndBalances(ReleaseEach(positions, tradeDate, at))
  {
    if positions != [] { ReleasesArePositions(positions[..|positions| - 1], tradeDate, at); }
  }

  lemma {:induction false} RecoveryMay(t: Tables, tradeDate: int, at: Time, cash: real)
    requires ValidTables(t) && cash > 0.0
    ensures Every(May, t, RecoverAccount(t, tradeDate, at, cash)) && NoFills(RecoverAccount(t, tradeDate, at, cash))
  {
    OpenPositionsAreValid(SortedKeys(t.positions.Keys), t.positions);
    ReleasesArePositions(OpenPositions(t), tradeDate, at);
    OthersMay(t, RecoverAccount(t, tradeDate, at, cash));
  }

  /** Steps of any kind are permitted, and only submissions write fills. */
  lemma {:induction false} StepMay(t: Tables, step: Step, cfg: Config)
    requires Once(t) && ValidTables(t) && ValidConfig(cfg) && Enabled(t, step)
    ensures Every(May, t, StepTrace(t, step, cfg).writes)
    ensures !step.Submit? ==> NoFills(StepTrace(t, step, cfg).writes)
  {
    match step {
      case Submit(s) => SubmitOrderly(t, s, cfg);
      case Cancel(id, at) => CancelMay(t, id, at);
      case CancelAll(ids, control, at) => CancelsMay(t, ids, control, at);
      case Recover(tradeDate, at) => RecoveryMay(t, tradeDate, at, cfg.initialCash);
    }
  }

  // ------------------------------------------------------------- many steps

  /** What a step wrote before it was cut off, or ended. */
  ghost function Written(t: Tables, step: Step, k: nat, cfg: Config): seq<Write>
    requires ValidTables(t) && ValidConfig(cfg) && Enabled(t, step) && k <= |StepTrace(t, step, cfg).writes|
  {
    StepTrace(t, step, cfg).writes[..k]
  }

  lemma {:induction false} StepKeepsOnce(t: Tables, step: Step, k: nat, t': Tables, cfg: Config)
    requires ValidConfig(cfg) && Once(t) && Steps(t, step, k, t', cfg)
    ensures Once(t') && Evolves(t, t')
  {
    StepMay(t, step, cfg);
    EveryPrefix(May, t, StepTrace(t, step, cfg).writes, k);
    AllMayKeepsOnce(t, Written(t, step, k, cfg));
  }

  lemma {:induction false} FillsOnceSubmitted(t: Tables, s: Submission, k: nat, t': Tables, cfg: Config)
    requires ValidConfig(cfg) && Once(t) && Steps(t, Submit(s), k, t', cfg)
    requires !NoFills(Written(t, Submit(s), k, cfg))
    ensures exists id :: SubmittedFor(t', id, s.signal.id)
  {
    SubmitOrderly(t, s, cfg);
    assert FillNeedsSubmitted(t, Written(t, Submit(s), k, cfg), IntentUsed(t, s.signal.id, s.newIntentId), s.signal.id);
  }

  lemma {:induction false} NextKeepsOnce(states: seq<Tables>, steps: seq<Step>, cuts: seq<nat>, cfg: Config, n: nat)
    requires ValidConfig(cfg) && AnyRun(states, steps, cuts, cfg) && n < |steps| && Once(states[n])
    ensures Once(states[n + 1]) && Evolves(states[n], states[n + 1])
  {
    StepKeepsOnce(states[n], steps[n], cuts[n], states[n + 1], cfg);
  }

  lemma {:induction false} EvolvesNext(a: Tables, states: seq<Tables>, steps: seq<Step>, cuts: seq<nat>, cfg: Config,
                                       n: nat)
    requires ValidConfig(cfg) && AnyRun(states, steps, cuts, cfg) && n < |steps| && Once(states[n])
    requires Evolves(a, states[n])
    ensures Once(states[n + 1]) && Evolves(a, states[n + 1])
  {
    NextKeepsOnce(states, steps, cuts, cfg, n);
    EvolvesFurther(a, states[n], states[n + 1]);
  }

  lemma {:induction false} RunEvolves(states: seq<Tables>, steps: seq<Step>, cuts: seq<nat>, cfg: Config, i: nat,
                                      j: nat)
    requires ValidConfig(cfg) && AnyRun(states, steps, cuts, cfg) && i <= j <= |steps| && Once(states[i])
    ensures Once(states[j]) && Evolves(states[i], states[j])
  {
    var n := i;
    while n < j
      invariant i <= n <= j && Once(states[n]) && Evolves(states[i], states[n])
    {
      EvolvesNext(states[i], states, steps, cuts, cfg, n);
      n := n + 1;
    }
  }

  predicate SameSignal(t: Tables, a: IntentId, b: IntentId) {
    a in t.intents && b in t.intents && t.intents[a].signalId == t.intents[b].signalId
  }

  /** At most once: after any submissions, cancels and recoveries, cut off anywhere, a signal has
      at most one intent and at most one order, and fills only under a submitted intent. */
  lemma {:induction false} OneIntentOneOrder(states: seq<Tables>, steps: seq<Step>, cuts: seq<nat>, cfg: Config)
    requires ValidConfig(cfg) && AnyRun(states, steps, cuts, cfg) && Once(states[0])
    ensures
      var t := states[|steps|];
      && (forall a, b :: a in t.intents && b in t.intents && t.intents[a].signalId == t.intents[b].signalId ==> a == b)
      && (forall a :: a in t.orders ==> a.intent in t.intents)
      && (forall a, b :: a in t.orders && b in t.orders && SameSignal(t, a.intent, b.intent) ==> a == b)
      && (forall i :: 0 <= i < |t.fills| ==> Submitted(t, t.fills[i].orderId.intent))
  {
    RunEvolves(states, steps, cuts, cfg, 0, |steps|);
  }

  lemma {:induction false} SubmittedSignalIsQuiet(t: Tables, s: Submission, k: nat, t': Tables, cfg: Config,
                                                  id: IntentId)
    requires ValidConfig(cfg) && Once(t) && Steps(t, Submit(s), k, t', cfg) && SubmittedFor(t, id, s.signal.id)
    ensures NoFills(Written(t, Submit(s), k, cfg))
  {
    SubmitOrderly(t, s, cfg);
    var ws := SubmitSignal(t, s, cfg).writes;
    assert forall x :: 0 <= x < k ==> ws[..k][x] == ws[x];
  }

  /** Of all calls for one signal, whatever else happens between them, at most one ever writes
      a fill. */
  lemma {:induction false} OneCallBooks(states: seq<Tables>, steps: seq<Step>, cuts: seq<nat>, cfg: Config, i: nat,
                                        j: nat)
    requires ValidConfig(cfg) && AnyRun(states, steps, cuts, cfg) && Once(states[0])
    requires i < j < |steps| && steps[i].Submit? && steps[j].Submit?
    requires steps[i].submission.signal.id == steps[j].submission.signal.id
    requires Steps(states[i], steps[i], cuts[i], states[i + 1], cfg)
      && Steps(states[j], steps[j], cuts[j], states[j + 1], cfg)
    ensures NoFills(Written(states[i], steps[i], cuts[i], cfg)) || NoFills(Written(states[j], steps[j], cuts[j], cfg))
  {
    RunEvolves(states, steps, cuts, cfg, 0, i);
    RunEvolves(states, steps, cuts, cfg, i, i + 1);
    RunEvolves(states, steps, cuts, cfg, i + 1, j);
    if !NoFills(Written(states[i], steps[i], cuts[i], cfg)) {
      FillsOnceSubmitted(states[i], steps[i].submission, cuts[i], states[i + 1], cfg);
      var id :| SubmittedFor(states[i + 1], id, steps[i].submission.signal.id);
      SubmittedSignalIsQuiet(states[j], steps[j].submission, cuts[j], states[j + 1], cfg, id);
    }
  }

  // ------------------------------------------------------- one fill at a time

  /** Fill, position, balance, and again: every fill row is new, and is followed by the one
      position and the one balance it books, unless the ledger stopped at it. */
  ghost predicate BookedOneByOne(t: Tables, ws: seq<Write>) {
    && (forall j :: 0 <= j < |ws| ==>
          if j % 3 == 0 then ws[j].WFill? && !HasFill(t, ws[j].fill.id)
          else if j % 3 == 1 then ws[j].WPosition? else ws[j].WBalance?)
    && (forall i, j :: 0 <= i < j < |ws| && ws[i].WFill? && ws[j].WFill? ==> ws[i].fill.id != ws[j].fill.id)
  }

  lemma {:induction false} FillShape(t: Tables, e: FillEvent)
    requires ValidTables(t) && ValidFillEvent(e)
    ensures
      var r := FillWrites(t, e);
      && BookedOneByOne(t, r.writes)
      && (forall j :: 0 <= j < |r.writes| && r.writes[j].WFill? ==> r.writes[j].fill == e.fill)
      && (!r.raised ==> |r.writes| % 3 == 0)
  {
  }

  /** What the ledger makes of an event on these tables. */
  function Verdict(t: Tables, e: FillEvent): Result<PortfolioUpdate, LedgerError>
    requires ValidTables(t) && ValidFillEvent(e)
  {
    ApplyFill(e, Get(t.positions, e.fill.symbol), LatestBalance(t, e.cost.currency))
  }

  /** Three writes: the fill of an event, and the position and balance the ledger books it to. */
  ghost predicate Books(t: Tables, ws: seq<Write>, e: FillEvent) {
    && ValidTables(t) && ValidFillEvent(e) && Verdict(t, e).Ok?
    && ws == [WFill(e.fill), WPosition(Verdict(t, e).value.position), WBalance(Verdict(t, e).value.balance)]
  }

  /** A fill the ledger refuses, and nothing after it. */
  ghost predicate StopsAt(t: Tables, ws: seq<Write>, e: FillEvent) {
    ValidTables(t) && ValidFillEvent(e) && Verdict(t, e).Error? && ws == [WFill(e.fill)]
  }

  /** Each group of writes books an event on the tables as the groups before have left them. */
  ghost predicate BookedInTurn(t: Tables, ws: seq<Write>, es: seq<FillEvent>) {
    || ws == []
    || (|ws| >= 3 && BookedInTurn(t, ws[..|ws| - 3], es)
        && exists e :: e in es && Books(CommitAll(t, ws[..|ws| - 3]), ws[|ws| - 3..], e))
    || (BookedInTurn(t, ws[..|ws| - 1], es)
        && exists e :: e in es && StopsAt(CommitAll(t, ws[..|ws| - 1]), ws[|ws| - 1..], e))
  }

  lemma {:induction false} BookedAmongMore(t: Tables, ws: seq<Write>, es: seq<FillEvent>, e: FillEvent)
    requires BookedInTurn(t, ws, es)
    ensures BookedInTurn(t, ws, es + [e])
  {
    if ws != [] {
      if |ws| >= 3 && BookedInTurn(t, ws[..|ws| - 3], es)
         && exists x :: x in es && Books(CommitAll(t, ws[..|ws| - 3]), ws[|ws| - 3..], x) {
        BookedAmongMore(t, ws[..|ws| - 3], es, e);
        var x :| x in es && Books(CommitAll(t, ws[..|ws| - 3]), ws[|ws| - 3..], x);
        assert x in es + [e];
      } else {
        BookedAmongMore(t, ws[..|ws| - 1], es, e);
        var x :| x in es && StopsAt(CommitAll(t, ws[..|ws| - 1]), ws[|ws| - 1..], x);
        assert x in es + [e];
      }
    }
  }

  lemma {:induction false} BookedNext(t: Tables, ws: seq<Write>, last: seq<Write>, es: seq<FillEvent>, e: FillEvent)
    requires BookedInTurn(t, ws, es)
    requires last == [] || Books(CommitAll(t, ws), last, e) || StopsAt(CommitAll(t, ws), last, e)
    ensures BookedInTurn(t, ws + last, es + [e])
  {
    var all := ws + last;
    BookedAmongMore(t, ws, es, e);
    if last == [] {
      assert all == ws;
    } else {
      assert all[..|ws|] == ws && all[|ws|..] == last && e in es + [e];
      assert |ws| == |all| - |last|;
    }
  }

  lemma {:induction false} FillBooksOrStops(t: Tables, e: FillEvent)
    requires ValidTables(t) && ValidFillEvent(e)
    ensures
      var ws := FillWrites(t, e).writes;
      ws == [] || Books(t, ws, e) || StopsAt(t, ws, e)
  {
  }

  /** A report's fills are booked one by one: each fill row is new, and is followed by exactly
      the position and the balance the ledger books it to on the tables as they then stand,
      unless the ledger refuses it, which ends the report. */
  lemma {:induction false} FillsAreBookedOnce(t: Tables, es: seq<FillEvent>)
    requires ValidTables(t) && ValidFillEvents(es)
    ensures
      var r := AllFillWrites(t, es);
      BookedOneByOne(t, r.writes) && (!r.raised ==> |r.writes| % 3 == 0) && BookedInTurn(t, r.writes, es)
  {
    if es != [] {
      var front, e := es[..|es| - 1], es[|es| - 1];
      assert es == front + [e];
      var before := AllFillWrites(t, front);
      FillsAreBookedOnce(t, front);
      FillWritesGrow(t, es);
      if before.raised {
        BookedAmongMore(t, before.writes, front, e);
      } else {
        var t1 := CommitAll(t, before.writes);
        var last := FillWrites(t1, e);
        FillShape(t1, e);
        KeepsFills(t, before.writes);
        BookedFurther(t, before.writes, t1, last.writes);
        FillBooksOrStops(t1, e);
        BookedNext(t, before.writes, last.writes, front, e);
      }
    }
  }

  lemma {:induction false} WriteKeepsFills(t: Tables, w: Write)
    ensures forall id :: HasFill(t, id) ==> HasFill(Commit(t, w), id)
    ensures w.WFill? ==> HasFill(Commit(t, w), w.fill.id)
  {
    var t2 := Commit(t, w);
    forall id | HasFill(t, id) ensures HasFill(t2, id) {
      var i :| 0 <= i < |t.fills| && t.fills[i].id == id;
      assert t2.fills[i].id == id;
    }
    if w.WFill? && !HasFill(t, w.fill.id) { assert t2.fills[|t.fills|].id == w.fill.id; }
  }

  lemma {:induction false} KeepsFills(t: Tables, ws: seq<Write>)
    ensures forall id :: HasFill(t, id) ==> HasFill(CommitAll(t, ws), id)
    ensures forall j :: 0 <= j < |ws| && ws[j].WFill? ==> HasFill(CommitAll(t, ws), ws[j].fill.id)
  {
    if ws != [] {
      KeepsFills(t, ws[..|ws| - 1]);
      WriteKeepsFills(CommitAll(t, ws[..|ws| - 1]), ws[|ws| - 1]);
    }
  }

  lemma {:induction false} BookedFurther(t: Tables, a: seq<Write>, t1: Tables, b: seq<Write>)
    requires BookedOneByOne(t, a) && BookedOneByOne(t1, b) && |a| % 3 == 0
    requires forall id :: HasFill(t, id) ==> HasFill(t1, id)
    requires forall j :: 0 <= j < |a| && a[j].WFill? ==> HasFill(t1, a[j].fill.id)
    ensures BookedOneByOne(t, a + b) && (|b| % 3 == 0 ==> |a + b| % 3 == 0)
  {
    var ws := a + b;
    forall j | 0 <= j < |ws|
      ensures if j % 3 == 0 then ws[j].WFill? && !HasFill(t, ws[j].fill.id)
              else if j % 3 == 1 then ws[j].WPosition? else ws[j].WBalance?
    {
      if j >= |a| { assert ws[j] == b[j - |a|] && (j - |a|) % 3 == j % 3; }
    }
    forall i, j | 0 <= i < j < |ws| && ws[i].WFill? && ws[j].WFill? ensures ws[i].fill.id != ws[j].fill.id {
      if i >= |a| {
        assert ws[i] == b[i - |a|] && ws[j] == b[j - |a|];
      } else if j >= |a| {
        assert ws[j] == b[j - |a|] && (j - |a|) % 3 == 0;
      }
    }
  }
}
