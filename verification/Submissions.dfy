/** A submission cut off between any two writes: in agreement, or reported. */
module Submissions {
  import opened Prelude
  import opened Execution
  import opened Costs
  import opened Ledger
  import opened PaperAdapter
  import opened Planner
  import opened RiskGate
  import opened Store
  import opened Oms
  import opened Reconciler
  import opened LedgerAgreement
  import opened OrderAgreement
  import opened Agreement
  import opened Crashes
  import opened Reports
  import opened Marks

  // ------------------------------------------------------- one row at a time

  lemma {:induction false} SignalAgrees(t: Tables, s: Signal, m: CostModel, d: int)
    requires Agrees(t, m, d)
    ensures Agrees(Commit(t, WSignal(s)), m, d)
  {
    var t' := Commit(t, WSignal(s));
    AgreesWithoutOrders(t, t', m, d);
    forall id | id in t'.orders ensures OrderTellsFills(t', id) { assert OrderTellsFills(t, id); }
  }

  lemma {:induction false} PositionReleaseAgrees(t: Tables, s: Symbol, tradeDate: int, at: Time, m: CostModel, d: int)
    requires Agrees(t, m, d) && s in t.positions && tradeDate <= d && DateOf(at) <= d
    ensures Agrees(Commit(t, WPosition(Release(t.positions[s], tradeDate, at))), m, d)
  {
    ReleaseAgrees(t, s, tradeDate, at, m, d);
    var t' := Commit(t, WPosition(Release(t.positions[s], tradeDate, at)));
    forall id | id in t'.orders ensures OrderTellsFills(t', id) { assert OrderTellsFills(t, id); }
  }

  /** A new intent under a new key, or the same instruction again under its own key. */
  ghost predicate MayIndex(t: Tables, i: OrderIntent) {
    if i.id in t.intents then
      t.intents[i.id].signalId == i.signalId
      && i == t.intents[i.id].(status := i.status)
    else i.signalId !in t.intentBySignal
  }

  lemma {:induction false} IntentKeepsOrdersAgree(t: Tables, t': Tables, i: OrderIntent)
    requires OrdersAgree(t) && MayIndex(t, i) && t' == Commit(t, WIntent(i))
    ensures OrdersAgree(t')
  {
    forall id | id in t'.orders ensures OrderTellsFills(t', id) { assert OrderTellsFills(t, id); }
  }

  lemma {:induction false} IntentAgrees(t: Tables, i: OrderIntent, m: CostModel, d: int)
    requires Agrees(t, m, d) && ValidIntent(i) && MayIndex(t, i)
    ensures Agrees(Commit(t, WIntent(i)), m, d)
  {
    IntentKeepsOrdersAgree(t, Commit(t, WIntent(i)), i);
    AgreesWithoutOrders(t, Commit(t, WIntent(i)), m, d);
  }

  /** An order not yet executed, new or saved again, under its own intent. */
  ghost predicate MayOpen(t: Tables, o: Order) {
    && Fresh(o) && o.id == OrderId(o.intentId) && MaySaveOrder(t, o)
    && o.intentId in t.intents && SameInstruction(o, t.intents[o.intentId])
  }

  lemma {:induction false} OpenedOrderHasNoFills(t: Tables, o: Order)
    requires OrdersAgree(t) && ValidTables(t) && ValidFills(t.fills) && MayOpen(t, o)
    ensures NoFillsOf(t.fills, o.id)
  {
    if o.id in t.orders {
      assert OrderTellsFills(t, o.id);
      NoFillsNoTotals(t.fills, o.id);
    } else {
      assert forall i :: 0 <= i < |t.fills| ==> t.fills[i].orderId in t.orders;
    }
  }

  lemma {:induction false} OrderAgrees(t: Tables, o: Order, m: CostModel, d: int)
    requires Agrees(t, m, d) && MayOpen(t, o)
    ensures Agrees(Commit(t, WOrder(o)), m, d)
  {
    OpenedOrderHasNoFills(t, o);
    UntouchedRowAgrees(t, Commit(t, WOrder(o)), o);
    AgreesWithoutOrders(t, Commit(t, WOrder(o)), m, d);
  }

  // ------------------------------------------------------------- before an intent

  /** A date not before any the call releases for or stamps a release with. */
  predicate Reached(s: Submission, d: int) {
    DateOf(s.receivedAt) <= d && (s.market.Some? ==> s.market.value.tradeDate <= d)
  }

  /** A cut leaves the tables in agreement, or is reported by a mark that stays. */
  ghost predicate Sound(t: Tables, m: CostModel, d: int)
    requires ValidCostModel(m)
  {
    Agrees(t, m, d) || Lasting(t, m)
  }

  lemma {:induction false} CommitTwo(t: Tables, a: Write, b: Write)
    ensures CommitAll(t, [a, b]) == Commit(Commit(t, a), b)
  {
    assert [a, b][..1] == [a];
    CommitOne(t, a);
  }

  lemma {:induction false} SignalThenRelease(t: Tables, s: Submission, m: CostModel, d: int)
    requires Agrees(t, m, d) && Reached(s, d)
    ensures Agrees(Commit(t, WSignal(s.signal)), m, d)
    ensures s.signal.symbol in t.positions && s.market.Some? ==>
      var p := Release(t.positions[s.signal.symbol], s.market.value.tradeDate, s.receivedAt);
      Agrees(Commit(Commit(t, WSignal(s.signal)), WPosition(p)), m, d)
  {
    SignalAgrees(t, s.signal, m, d);
    var t1 := Commit(t, WSignal(s.signal));
    if s.signal.symbol in t.positions && s.market.Some? {
      PositionReleaseAgrees(t1, s.signal.symbol, s.market.value.tradeDate, s.receivedAt, m, d);
    }
  }

  /** The signal row, then the released position if the release changes it. */
  predicate Admitting(t: Tables, s: Submission, ws: seq<Write>) {
    || ws == [WSignal(s.signal)]
    || (s.signal.symbol in t.positions && s.market.Some?
        && ws == [WSignal(s.signal),
                  WPosition(Release(t.positions[s.signal.symbol], s.market.value.tradeDate, s.receivedAt))])
  }

  lemma {:induction false} AdmissionShape(t: Tables, s: Submission, policy: Policy)
    requires ValidTables(t) && ValidSubmission(s)
    ensures Admitting(t, s, Admit(t, s, policy).writes)
  {
  }

  lemma {:induction false} CutOfTwo(t: Tables, ws: seq<Write>, a: Write, b: Write, k: nat, t': Tables)
    requires (ws == [a] || ws == [a, b]) && k <= |ws| && t' == CommitAll(t, ws[..k])
    ensures t' == t || t' == Commit(t, a) || (ws == [a, b] && t' == Commit(Commit(t, a), b))
  {
    CommitOne(t, a);
    CommitTwo(t, a, b);
    assert ws[..0] == [] && ws[..1] == [a] && ws[..|ws|] == ws;
  }

  /** An admission writes signals and positions only. */
  lemma {:induction false} AdmissionKeepsRest(t: Tables, s: Submission, ws: seq<Write>, k: nat, t': Tables)
    requires Admitting(t, s, ws) && k <= |ws| && t' == CommitAll(t, ws[..k])
    ensures t'.intents == t.intents && t'.intentBySignal == t.intentBySignal && t'.balances == t.balances
  {
    CutOfTwo(t, ws, WSignal(s.signal), if |ws| == 2 then ws[1] else WSignal(s.signal), k, t');
  }

  /** Nothing is out of step before an order exists. */
  lemma {:induction false} AdmitCut(t: Tables, s: Submission, ws: seq<Write>, m: CostModel, d: int, k: nat, t': Tables)
    requires Agrees(t, m, d) && Reached(s, d) && Admitting(t, s, ws)
    requires k <= |ws| && t' == CommitAll(t, ws[..k])
    ensures Agrees(t', m, d)
  {
    CutOfTwo(t, ws, WSignal(s.signal), if |ws| == 2 then ws[1] else WSignal(s.signal), k, t');
    SignalThenRelease(t, s, m, d);
  }

  lemma {:induction false} AdmissionAgrees(t: Tables, s: Submission, ws: seq<Write>, m: CostModel, d: int, t1: Tables)
    requires Agrees(t, m, d) && Reached(s, d) && Admitting(t, s, ws) && t1 == CommitAll(t, ws)
    ensures Agrees(t1, m, d)
    ensures t1.intents == t.intents && t1.balances == t.balances
  {
    assert ws[..|ws|] == ws;
    AdmissionKeepsRest(t, s, ws, |ws|, t1);
    AdmitCut(t, s, ws, m, d, |ws|, t1);
  }

  // ------------------------------------------------------------------- launching

  /** The scenario a submitted order is worked under: a contract violation rejects it. */
  function VenueScenario(o: Order, i: OrderIntent, scenario: Option<Scenario>): Scenario
    requires ValidOrder(o)
  {
    if ContractViolation(o, i).Some? then Scenario([], false, true)
    else if scenario.Some? then scenario.value else DefaultScenario(o, i)
  }

  lemma {:induction false} VenueReports(o: Order, i: OrderIntent, m: CostModel, s: Submission)
    requires ValidOrder(o) && ValidCostModel(m)
    ensures
      var r := SubmitOrder(o, i, m, s.scenario, s.venueTime);
      && r == PaperReport(o, m, VenueScenario(o, i, s.scenario), DefaultPrice(o, i), s.venueTime)
      && (r.Ok? ==> ValidFillEvents(r.value.fills))
  {
  }

  lemma {:induction false} StillOpen(t: Tables, o: Order, t1: Tables, i: OrderIntent, t2: Tables)
    requires MayOpen(t, o) && t1 == Commit(t, WOrder(o)) && i.id in t.intents && t.intents[i.id] == i
    requires t2 == Commit(t1, WIntent(i.(status := IntentSubmitted)))
    ensures MayOpen(t1, o) && MayIndex(t1, i.(status := IntentSubmitted))
    ensures o.id in t2.orders && t2.orders[o.id] == o
  {
  }

  /** An intent as the tables have it, and the order made from it. */
  ghost predicate Launching(t: Tables, i: OrderIntent, s: Submission, o: Order) {
    && ValidIntent(i) && i.id in t.intents && t.intents[i.id] == i
    && o == CreateOrderFromIntent(i, s.receivedAt) && MaySaveOrder(t, o)
  }

  /** The first row of a launched order, and the state the venue is handed it in. */
  lemma {:induction false} HandOver(t: Tables, i: OrderIntent, s: Submission, o: Order, m: CostModel, d: int,
                                    t1: Tables, t2: Tables)
    requires Agrees(t, m, d) && Launching(t, i, s, o)
    requires t1 == Commit(t, WOrder(o)) && t2 == Commit(t1, WIntent(i.(status := IntentSubmitted)))
    ensures Agrees(t1, m, d) && MayOpen(t1, o) && Handed(t2, o, m, d)
  {
    assert MayOpen(t, o);
    StillOpen(t, o, t1, i, t2);
    OrderAgrees(t, o, m, d);
    IntentAgrees(t1, i.(status := IntentSubmitted), m, d);
  }

  lemma {:induction false} HandingOverKeepsBalances(t: Tables, o: Order, i: OrderIntent, t2: Tables)
    requires t2 == CommitAll(t, [WOrder(o), WIntent(i.(status := IntentSubmitted))])
    ensures t2.balances == t.balances
  {
    CommitTwo(t, WOrder(o), WIntent(i.(status := IntentSubmitted)));
  }

  /** A cut that falls into the report. */
  lemma {:induction false} AfterHandOverCut(t: Tables, handed: seq<Write>, i: OrderIntent, s: Submission, o: Order,
                                            m: CostModel, d: int, report: ExecutionReport, t2: Tables, w: Trace,
                                            k: nat, t': Tables)
    requires t2 == CommitAll(t, handed) && Handed(t2, o, m, d)
    requires SubmitOrder(o, i, m, s.scenario, s.venueTime) == Ok(report) && ValidFillEvents(report.fills)
    requires w == ReportWrites(t2, o, report) && FillsAfter(w.writes, Horizon(t2), d)
    requires |handed| <= k <= |handed + w.writes| && t' == CommitAll(t, (handed + w.writes)[..k])
    ensures Sound(t', m, d)
    ensures k == |handed| + |w.writes| && !w.raised ==> Agrees(t', m, d)
  {
    JoinedCut(t, handed, t2, w.writes, k, t');
    VenueReports(o, i, m, s);
    ReportCut(t2, o, m, VenueScenario(o, i, s.scenario), DefaultPrice(o, i), s.venueTime, d, report, w, k - |handed|,
      t');
  }

  /** A cut before the venue is asked. */
  lemma {:induction false} BeforeHandOverCut(t: Tables, handed: seq<Write>, a: Write, b: Write, rest: seq<Write>,
                                             m: CostModel, d: int, k: nat, t': Tables)
    requires handed == [a, b] && Agrees(t, m, d) && Agrees(Commit(t, a), m, d)
    requires k < 2 && t' == CommitAll(t, (handed + rest)[..k])
    ensures Agrees(t', m, d)
  {
    assert (handed + rest)[..k] == [a][..k];
    CutOfTwo(t, [a], a, b, k, t');
  }

  /** The writes of a launched order: two rows, then the report's. */
  lemma {:induction false} LaunchedCut(t: Tables, i: OrderIntent, s: Submission, o: Order, m: CostModel, d: int,
                                       report: ExecutionReport, handed: seq<Write>, t2: Tables, w: Trace, k: nat,
                                       t': Tables)
    requires Agrees(t, m, d) && Launching(t, i, s, o)
    requires SubmitOrder(o, i, m, s.scenario, s.venueTime) == Ok(report) && ValidFillEvents(report.fills)
    requires handed == [WOrder(o), WIntent(i.(status := IntentSubmitted))] && t2 == CommitAll(t, handed)
    requires ValidTables(t2) && w == ReportWrites(t2, o, report) && FillsAfter(handed + w.writes, Horizon(t), d)
    requires k <= |handed + w.writes| && t' == CommitAll(t, (handed + w.writes)[..k])
    ensures Sound(t', m, d)
    ensures k == 2 + |w.writes| && !w.raised ==> Agrees(t', m, d)
  {
    var a, b := WOrder(o), WIntent(i.(status := IntentSubmitted));
    HandingOverKeepsBalances(t, o, i, t2);
    CommitTwo(t, a, b);
    HandOver(t, i, s, o, m, d, Commit(t, a), t2);
    if k < 2 {
      BeforeHandOverCut(t, handed, a, b, w.writes, m, d, k, t');
    } else {
      LaterFillsAfter(t, handed, t2, w.writes, d);
      AfterHandOverCut(t, handed, i, s, o, m, d, report, t2, w, k, t');
    }
  }

  /** What a call's cut comes to: never torn in silence, and whole if the call completed. */
  ghost predicate CallVerdict(t: Tables, c: Call, k: nat, m: CostModel, d: int)
    requires ValidCostModel(m)
  {
    Sound(t, m, d) && (k == |c.writes| && c.outcome != Raised ==> Agrees(t, m, d))
  }

  /** The venue has failed: the order row is all there is, and is saved a second time. */
  lemma {:induction false} RefusedLaunchCut(t: Tables, i: OrderIntent, s: Submission, o: Order, m: CostModel, d: int,
                                            ws: seq<Write>, k: nat, t': Tables)
    requires Agrees(t, m, d) && Launching(t, i, s, o)
    requires ws == [WOrder(o), WOrder(o)] && k <= |ws| && t' == CommitAll(t, ws[..k])
    ensures Agrees(t', m, d)
  {
    CutOfTwo(t, ws, WOrder(o), WOrder(o), k, t');
    assert MayOpen(t, o);
    OrderAgrees(t, o, m, d);
    OrderAgrees(Commit(t, WOrder(o)), o, m, d);
  }

  lemma {:induction false} HandedIsValid(i: OrderIntent, o: Order)
    requires ValidIntent(i) && ValidOrder(o)
    ensures ValidWrites([WOrder(o), WIntent(i.(status := IntentSubmitted))])
  {
  }

  lemma {:induction false} LaunchCut(t: Tables, i: OrderIntent, s: Submission, m: CostModel, d: int, c: Call, k: nat,
                                     t': Tables)
    requires Agrees(t, m, d) && ValidIntent(i) && i.id in t.intents && t.intents[i.id] == i
    requires c == Launch(t, i, s, m) && FillsAfter(c.writes, Horizon(t), d)
    requires k <= |c.writes| && t' == CommitAll(t, c.writes[..k])
    ensures CallVerdict(t', c, k, m, d)
  {
    var o := CreateOrderFromIntent(i, s.receivedAt);
    if !MaySaveOrder(t, o) {
      assert c.writes[..k] == [];
    } else {
      var report := SubmitOrder(o, i, m, s.scenario, s.venueTime);
      VenueReports(o, i, m, s);
      if report.Error? {
        RefusedLaunchCut(t, i, s, o, m, d, c.writes, k, t');
      } else {
        var handed := [WOrder(o), WIntent(i.(status := IntentSubmitted))];
        HandedIsValid(i, o);
        WritesKeepTablesValid(t, handed);
        var t2 := CommitAll(t, handed);
        LaunchedCut(t, i, s, o, m, d, report.value, handed, t2, ReportWrites(t2, o, report.value), k, t');
      }
    }
  }

  // ------------------------------------------------------- from an admitted plan on

  /** The saves that make an intent the one its key leads to: none if there is one already. */
  ghost predicate Saving(t: Tables, planned: OrderIntent, saved: seq<Write>, t1: Tables) {
    if saved == [] then t1 == t else saved == [WIntent(planned)] && t1 == Commit(t, WIntent(planned))
  }

  /** The intent a call works with is, once saved, the one its key leads to. */
  lemma {:induction false} SavedIntent(t: Tables, planned: OrderIntent, m: CostModel, d: int)
    requires Agrees(t, m, d) && ValidIntent(planned) && planned.id !in t.intents
    ensures
      var found := IntentOf(t, planned.signalId);
      var intent := if found.Some? then found.value else planned;
      var t1 := if found.Some? then t else Commit(t, WIntent(planned));
      && Agrees(t1, m, d) && intent.id in t1.intents && t1.intents[intent.id] == intent && ValidIntent(intent)
  {
    if IntentOf(t, planned.signalId).None? { IntentAgrees(t, planned, m, d); }
  }

  lemma {:induction false} SavingCommits(t: Tables, planned: OrderIntent, saved: seq<Write>, t1: Tables)
    requires Saving(t, planned, saved, t1)
    ensures CommitAll(t, saved) == t1 && t1.balances == t.balances
  {
    CommitOne(t, WIntent(planned));
    assert CommitAll(t, []) == t;
  }

  lemma {:induction false} CutBeforeSaving(t: Tables, planned: OrderIntent, saved: seq<Write>, t1: Tables,
                                           rest: seq<Write>, k: nat, t': Tables)
    requires Saving(t, planned, saved, t1) && k < |saved| && t' == CommitAll(t, (saved + rest)[..k])
    ensures t' == t
  {
    assert (saved + rest)[..k] == [];
  }

  lemma {:induction false} OnlyCommit(t: Tables, w: Write, ws: seq<Write>, k: nat, t': Tables)
    requires (ws == [] || ws == [w]) && 0 < k <= |ws| && t' == CommitAll(t, ws[..k])
    ensures ws == [w] && t' == Commit(t, w)
  {
    CommitOne(t, w);
    assert ws[..k] == ws;
  }

  lemma {:induction false} ResubmittedCut(t: Tables, planned: OrderIntent, saved: seq<Write>, t1: Tables, o: Order,
                                          m: CostModel, d: int, rest: seq<Write>, k: nat, t': Tables)
    requires Saving(t, planned, saved, t1) && Agrees(t1, m, d)
    requires rest == (if o.id in t1.orders then [] else [WOrder(o)]) && (rest != [] ==> MayOpen(t1, o))
    requires |saved| <= k <= |saved + rest| && t' == CommitAll(t, (saved + rest)[..k])
    ensures Agrees(t', m, d)
  {
    SavingCommits(t, planned, saved, t1);
    JoinedCut(t, saved, t1, rest, k, t');
    ReopenedCut(t1, o, m, d, rest, k - |saved|, t');
  }

  lemma {:induction false} ReopenedCut(t: Tables, o: Order, m: CostModel, d: int, rest: seq<Write>, k: nat, t': Tables)
    requires Agrees(t, m, d) && rest == if o.id in t.orders then [] else [WOrder(o)]
    requires rest != [] ==> MayOpen(t, o)
    requires k <= |rest| && t' == CommitAll(t, rest[..k])
    ensures Agrees(t', m, d)
  {
    if k == 0 {
      assert rest[..0] == [];
    } else {
      OnlyCommit(t, WOrder(o), rest, k, t');
      OrderAgrees(t, o, m, d);
    }
  }

  lemma {:induction false} SavedLaunchCut(t: Tables, planned: OrderIntent, saved: seq<Write>, t1: Tables,
                                          intent: OrderIntent, s: Submission, m: CostModel, d: int, launched: Call,
                                          c: Call, k: nat, t': Tables)
    requires Saving(t, planned, saved, t1) && Agrees(t1, m, d)
    requires ValidIntent(intent) && intent.id in t1.intents && t1.intents[intent.id] == intent
    requires launched == Launch(t1, intent, s, m) && c == Call(saved + launched.writes, launched.outcome)
    requires FillsAfter(launched.writes, Horizon(t1), d)
    requires |saved| <= k <= |c.writes| && t' == CommitAll(t, c.writes[..k])
    ensures CallVerdict(t', c, k, m, d)
  {
    SavingCommits(t, planned, saved, t1);
    JoinedCut(t, saved, t1, launched.writes, k, t');
    LaunchCut(t1, intent, s, m, d, launched, k - |saved|, t');
  }

  lemma {:induction false} ExecuteCut(t: Tables, plan: Plan, signal: Signal, s: Submission, m: CostModel, d: int,
                                      c: Call, k: nat, t': Tables)
    requires Agrees(t, m, d) && s.newIntentId !in t.intents
    requires Actionable(plan) && s.decisionPrice.Some? && c == Execute(t, plan, signal, s, m)
    requires FillsAfter(c.writes, Horizon(t), d)
    requires k <= |c.writes| && t' == CommitAll(t, c.writes[..k])
    ensures CallVerdict(t', c, k, m, d)
  {
    var planned := IntentFor(plan, signal, s);
    if !ValidIntent(planned) {
      assert c.writes[..k] == [];
    } else {
      var found := IntentOf(t, signal.id);
      var intent := if found.Some? then found.value else planned;
      var saved := if found.Some? then [] else [WIntent(planned)];
      var t1 := if found.Some? then t else Commit(t, WIntent(planned));
      SavedIntent(t, planned, m, d);
      SavingCommits(t, planned, saved, t1);
      var o := CreateOrderFromIntent(intent, s.receivedAt);
      var launched := Launch(t1, intent, s, m);
      var rest := if intent.status != IntentSubmitted then launched.writes
                  else if o.id in t1.orders then [] else [WOrder(o)];
      LaterFillsAfter(t, saved, t1, rest, d);
      if k < |saved| {
        CutBeforeSaving(t, planned, saved, t1, rest, k, t');
      } else if intent.status == IntentSubmitted {
        ResubmittedCut(t, planned, saved, t1, o, m, d, rest, k, t');
      } else {
        SavedLaunchCut(t, planned, saved, t1, intent, s, m, d, launched, c, k, t');
      }
    }
  }

  // ----------------------------------------------------------------- the whole call

  lemma {:induction false} ExecutedCut(t: Tables, a: seq<Write>, s: Submission, m: CostModel, d: int, t1: Tables,
                                       plan: Plan, signal: Signal, executed: Call, c: Call, k: nat, t': Tables)
    requires t1 == CommitAll(t, a) && Agrees(t1, m, d)
    requires s.newIntentId !in t1.intents && Actionable(plan) && s.decisionPrice.Some?
    requires executed == Execute(t1, plan, signal, s, m) && c == Call(a + executed.writes, executed.outcome)
    requires FillsAfter(executed.writes, Horizon(t1), d)
    requires |a| <= k <= |c.writes| && t' == CommitAll(t, c.writes[..k])
    ensures CallVerdict(t', c, k, m, d)
  {
    JoinedCut(t, a, t1, executed.writes, k, t');
    var j := k - |a|;
    assert j <= |executed.writes| && t' == CommitAll(t1, executed.writes[..j]);
    ExecuteCut(t1, plan, signal, s, m, d, executed, j, t');
  }

  lemma {:induction false} AdmittedCut(t: Tables, s: Submission, m: CostModel, d: int, a: seq<Write>, t1: Tables,
                                       plan: Plan, signal: Signal, executed: Call, c: Call, k: nat, t': Tables)
    requires Agrees(t, m, d) && Reached(s, d) && s.newIntentId !in t.intents && Admitting(t, s, a)
    requires t1 == CommitAll(t, a) && ValidTables(t1) && Actionable(plan) && s.decisionPrice.Some?
    requires executed == Execute(t1, plan, signal, s, m) && c == Call(a + executed.writes, executed.outcome)
    requires FillsAfter(c.writes, Horizon(t), d)
    requires k <= |c.writes| && t' == CommitAll(t, c.writes[..k])
    ensures CallVerdict(t', c, k, m, d)
  {
    if k < |a| {
      JoinedCut(t, a, t1, executed.writes, k, t');
      AdmitCut(t, s, a, m, d, k, t');
    } else {
      AdmissionAgrees(t, s, a, m, d, t1);
      LaterFillsAfter(t, a, t1, executed.writes, d);
      ExecutedCut(t, a, s, m, d, t1, plan, signal, executed, c, k, t');
    }
  }

  /** No submission tears the tables in silence. As long as its fills are dated later than
      everything booked before them, wherever its writes are cut off the tables agree or the
      reconciler reports; and a call that ran to its end leaves them in agreement. */
  lemma {:induction false} SubmissionCut(t: Tables, s: Submission, cfg: Config, d: int, c: Call, k: nat, t': Tables)
    requires Agrees(t, cfg.costs, d) && ValidSubmission(s) && ValidConfig(cfg) && Reached(s, d)
    requires s.newIntentId !in t.intents
    requires c == SubmitSignal(t, s, cfg) && FillsAfter(c.writes, Horizon(t), d)
    requires k <= |c.writes| && t' == CommitAll(t, c.writes[..k])
    ensures CallVerdict(t', c, k, cfg.costs, d)
  {
    if !s.leaseHeld {
      assert c.writes[..k] == [];
    } else {
      var a := Admit(t, s, cfg.policy);
      AdmissionShape(t, s, cfg.policy);
      if a.raised || a.decision.Reject? || a.plan.None? || !Actionable(a.plan.value) {
        AdmitCut(t, s, a.writes, cfg.costs, d, k, t');
      } else {
        WritesKeepTablesValid(t, a.writes);
        var t1 := CommitAll(t, a.writes);
        var executed := Execute(t1, a.plan.value, a.signal, s, cfg.costs);
        AdmittedCut(t, s, cfg.costs, d, a.writes, t1, a.plan.value, a.signal, executed, c, k, t');
      }
    }
  }
}
