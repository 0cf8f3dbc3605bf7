/** An intent left behind unsubmitted: what a retry of its signal does with it. */
module Pending {
  import opened Prelude
  import opened Execution
  import opened Costs
  import opened Ledger
  import opened LedgerRuns
  import opened PaperAdapter
  import opened Planner
  import opened RiskGate
  import opened Store
  import opened Oms
  import opened OrderAgreement
  import opened Reports
  import opened Submissions
  import opened Protection
  import opened Exposure

  /** A retry executes the stored instruction, whatever plan has just been admitted. */
  lemma {:induction false} RetryIgnoresThePlan(t: Tables, p: Plan, q: Plan, signal: Signal, s: Submission, m: CostModel)
    requires ValidTables(t) && ValidCostModel(m) && s.decisionPrice.Some? && Actionable(p) && Actionable(q)
    requires ValidIntent(IntentFor(p, signal, s)) && ValidIntent(IntentFor(q, signal, s))
    requires IntentOf(t, signal.id).Some?
    ensures Execute(t, p, signal, s, m) == Execute(t, q, signal, s, m)
    ensures !NotPending(t, signal.id) ==> Execute(t, p, signal, s, m) == Launch(t, IntentOf(t, signal.id).value, s, m)
  {
    assert CommitAll(t, []) == t;
    var launched := Launch(t, IntentOf(t, signal.id).value, s, m);
    assert [] + launched.writes == launched.writes;
  }

  /** The one execution of an order under the default scenario. */
  function SoleExecution(o: Order, i: OrderIntent, m: CostModel, at: Time): FillEvent
    requires ValidOrder(o) && ValidIntent(i) && ValidCostModel(m) && o.orderType == i.orderType && o.price == i.price
  {
    FillEventFor(o, m, o.qty, ExecutionPrice(i), 1, at + Seconds(1))
  }

  lemma {:induction false} DefaultSlice(o: Order, i: OrderIntent)
    requires Fresh(o) && ValidIntent(i) && o.orderType == i.orderType && o.price == i.price
    ensures
      var sc, d := DefaultScenario(o, i), DefaultPrice(o, i);
      && |sc.slices| == 1 && sc.slices[0].qty == o.qty && SlicePrice(sc.slices[0], d) == ExecutionPrice(i)
      && SliceError(sc.slices, o.qty, d, 0).None? && FirstError(sc.slices, o.qty, d, 1).None?
  {
    var sc, d := DefaultScenario(o, i), DefaultPrice(o, i);
    assert CumQty(sc.slices, 1) == CumQty(sc.slices, 0) + o.qty;
  }

  lemma {:induction false} OneSlice(o: Order, m: CostModel, slices: seq<FillSlice>, default: real, at: Time,
                                    e: FillEvent)
    requires ValidCostModel(m) && |slices| == 1 && SliceError(slices, o.qty, default, 0).None?
    requires FirstError(slices, o.qty, default, 1).None?
    requires e == SliceEvent(o, m, slices, default, at, 0)
    ensures SliceEvents(o, m, slices, default, at, 1) == [e]
  {
    assert SliceEvents(o, m, slices, default, at, 0) + [e] == [e];
  }

  lemma {:induction false} DefaultReportIs(o: Order, i: OrderIntent, m: CostModel, at: Time)
    requires Fresh(o) && ValidIntent(i) && ValidCostModel(m) && o.orderType == i.orderType && o.price == i.price
    requires ContractViolation(o, i).None?
    ensures
      var sc, d := DefaultScenario(o, i), DefaultPrice(o, i);
      && Acceptable(sc.slices, o.qty, d)
      && SubmitOrder(o, i, m, None, at)
         == Ok(ExecutionReport(PaperUpdates(o, sc, d, at), [SoleExecution(o, i, m, at)]))
  {
    var sc, d := DefaultScenario(o, i), DefaultPrice(o, i);
    DefaultSlice(o, i);
    OneSlice(o, m, sc.slices, d, at, SliceEvent(o, m, sc.slices, d, at, 0));
  }

  /** The tables in which the venue reports on a launched order. */
  function HandedTables(t: Tables, o: Order, i: OrderIntent): Tables {
    t.(orders := t.orders[o.id := o], intents := t.intents[i.id := i.(status := IntentSubmitted)],
       intentBySignal := t.intentBySignal[i.signalId := i.id])
  }

  /** A launch the venue answers: order and intent row, then the report's writes. */
  lemma {:induction false} LaunchReports(t: Tables, i: OrderIntent, s: Submission, o: Order, m: CostModel,
                                         report: ExecutionReport)
    requires ValidTables(t) && ValidIntent(i) && ValidCostModel(m)
    requires o == CreateOrderFromIntent(i, s.receivedAt) && MaySaveOrder(t, o)
    requires SubmitOrder(o, i, m, s.scenario, s.venueTime) == Ok(report)
    ensures ValidTables(HandedTables(t, o, i)) && ValidFillEvents(report.fills)
    ensures
      var c, r := Launch(t, i, s, m), ReportWrites(HandedTables(t, o, i), o, report);
      CommitAll(t, c.writes) == CommitAll(HandedTables(t, o, i), r.writes)
        && c.outcome == if r.raised then Raised else Done
  {
    var a, b := WOrder(o), WIntent(i.(status := IntentSubmitted));
    CommitTwo(t, a, b);
    WritesKeepTablesValid(t, [a, b]);
    VenueReports(o, i, m, s);
    CommitAllConcat(t, [a, b], ReportWrites(HandedTables(t, o, i), o, report).writes);
  }

  /** Launched, accepted by the venue and by the ledger, an intent moves its position. */
  lemma {:induction false} LaunchBooks(t: Tables, i: OrderIntent, s: Submission, o: Order, m: CostModel,
                                       u: PortfolioUpdate)
    requires ValidTables(t) && ValidIntent(i) && ValidCostModel(m) && s.scenario.None? && s.receivedAt <= s.venueTime
    requires o == CreateOrderFromIntent(i, s.receivedAt) && MaySaveOrder(t, o) && ContractViolation(o, i).None?
    requires !HasFill(t, FillId(o.id, 1))
    requires ApplyFill(SoleExecution(o, i, m, s.venueTime), Get(t.positions, i.symbol), LatestBalance(t, CNY)) == Ok(u)
    ensures Launch(t, i, s, m).outcome == Done
    ensures CommitAll(t, Launch(t, i, s, m).writes).positions == t.positions[i.symbol := u.position]
  {
    DefaultReportIs(o, i, m, s.venueTime);
    var report := SubmitOrder(o, i, m, None, s.venueTime).value;
    LaunchReports(t, i, s, o, m, report);
    ReportBooks(HandedTables(t, o, i), o, i, m, s.venueTime, report, u);
  }

  lemma {:induction false} ReportBooks(t: Tables, o: Order, i: OrderIntent, m: CostModel, at: Time,
                                       report: ExecutionReport, u: PortfolioUpdate)
    requires ValidTables(t) && Fresh(o) && ValidIntent(i) && ValidCostModel(m) && o.orderType == i.orderType
      && o.price == i.price
    requires o.symbol == i.symbol && o.submittedAt <= at && o.id in t.orders && t.orders[o.id] == o
      && ContractViolation(o, i).None?
    requires SubmitOrder(o, i, m, None, at) == Ok(report) && ValidFillEvents(report.fills)
      && !HasFill(t, FillId(o.id, 1))
    requires ApplyFill(SoleExecution(o, i, m, at), Get(t.positions, i.symbol), LatestBalance(t, CNY)) == Ok(u)
    ensures !ReportWrites(t, o, report).raised
    ensures CommitAll(t, ReportWrites(t, o, report).writes).positions == t.positions[i.symbol := u.position]
  {
    DefaultReportIs(o, i, m, at);
    var sc, d := DefaultScenario(o, i), DefaultPrice(o, i);
    ReportIsAccepted(o, sc, d, at);
    UpdatesAreSaved(t, o, report.updates);
    var w := UpdateWrites(t, o, report.updates).writes;
    WritesKeepTablesValid(t, w);
    var t1 := CommitAll(t, w);
    OneFill(t1, report.fills);
    FillBooks(t1, SoleExecution(o, i, m, at), u);
    CommitAllConcat(t, w, AllFillWrites(t1, report.fills).writes);
  }

  lemma {:induction false} FillBooks(t: Tables, e: FillEvent, u: PortfolioUpdate)
    requires ValidTables(t) && ValidFillEvent(e) && !HasFill(t, e.fill.id) && e.cost.currency == CNY
    requires ApplyFill(e, Get(t.positions, e.fill.symbol), LatestBalance(t, CNY)) == Ok(u)
    ensures !FillWrites(t, e).raised
    ensures CommitAll(t, FillWrites(t, e).writes).positions == t.positions[e.fill.symbol := u.position]
  {
    LatestSnapshotIsARow(t.balances, CNY);
    ApplyFillKeepsPositionsValid(e, Get(t.positions, e.fill.symbol), LatestBalance(t, CNY));
    var ws := FillWrites(t, e).writes;
    assert ws == [WFill(e.fill), WPosition(u.position), WBalance(u.balance)];
    CommitTwo(t, ws[0], ws[1]);
    CommitAllConcat(t, [ws[0], ws[1]], [ws[2]]);
    CommitOne(CommitAll(t, [ws[0], ws[1]]), ws[2]);
    assert ws == [ws[0], ws[1]] + [ws[2]];
  }

  // --------------------------------------------------- what a call executes, exactly

  /** The venue and the ledger accept the one execution of the intent. */
  ghost predicate Executable(t: Tables, i: OrderIntent, s: Submission, m: CostModel)
    requires ValidTables(t) && ValidIntent(i) && ValidCostModel(m)
  {
    var o := CreateOrderFromIntent(i, s.receivedAt);
    && s.receivedAt <= s.venueTime
    && MaySaveOrder(t, o) && ContractViolation(o, i).None? && !HasFill(t, FillId(o.id, 1))
    && ApplyFill(SoleExecution(o, i, m, s.venueTime), Get(t.positions, i.symbol), LatestBalance(t, CNY)).Ok?
  }

  /** The symbol of the intent stands filled, at the execution price, and no other has moved. */
  ghost predicate Moved(t: Tables, t': Tables, i: OrderIntent)
    requires ValidIntent(i)
  {
    && i.symbol in t'.positions && t'.positions[i.symbol].qty == FilledTo(t, i)
    && t'.positions[i.symbol].markPrice == (if FilledTo(t, i) == 0.0 then None else Some(ExecutionPrice(i)))
    && forall x: Symbol :: x != i.symbol ==> SameValue(t, t', x)
  }

  lemma {:induction false} FilledPositionMoves(t: Tables, t': Tables, i: OrderIntent, p: Position)
    requires ValidIntent(i) && t'.positions == t.positions[i.symbol := p]
    requires p.qty == FilledTo(t, i) && p.markPrice == (if p.qty == 0.0 then None else Some(ExecutionPrice(i)))
    ensures Moved(t, t', i)
  {
  }

  lemma {:induction false} LaunchMovesQuantity(t: Tables, i: OrderIntent, s: Submission, m: CostModel)
    requires ValidTables(t) && ValidIntent(i) && ValidCostModel(m) && s.scenario.None? && Executable(t, i, s, m)
    ensures Launch(t, i, s, m).outcome == Done && Moved(t, CommitAll(t, Launch(t, i, s, m).writes), i)
  {
    var o := CreateOrderFromIntent(i, s.receivedAt);
    var e := SoleExecution(o, i, m, s.venueTime);
    var position, balance := Get(t.positions, i.symbol), LatestBalance(t, CNY);
    FillSetsMark(e, position, balance);
    var u := ApplyFill(e, position, balance).value;
    LaunchBooks(t, i, s, o, m, u);
    FilledPositionMoves(t, CommitAll(t, Launch(t, i, s, m).writes), i, u.position);
  }

  /** A refused execution leaves at most its fill row behind. */
  lemma {:induction false} RefusedFillIdles(t: Tables, e: FillEvent)
    requires ValidTables(t) && ValidFillEvent(e) && e.cost.currency == CNY
    requires HasFill(t, e.fill.id) || ApplyFill(e, Get(t.positions, e.fill.symbol), LatestBalance(t, CNY)).Error?
    ensures CommitAll(t, FillWrites(t, e).writes).positions == t.positions
  {
    CommitOne(t, WFill(e.fill));
  }

  lemma {:induction false} RefusedReportIdles(t: Tables, o: Order, i: OrderIntent, m: CostModel, at: Time,
                                              report: ExecutionReport)
    requires ValidTables(t) && Fresh(o) && ValidIntent(i) && ValidCostModel(m) && o.orderType == i.orderType
    requires o.price == i.price && o.symbol == i.symbol && o.submittedAt <= at && ContractViolation(o, i).None?
    requires SubmitOrder(o, i, m, None, at) == Ok(report) && ValidFillEvents(report.fills)
    requires HasFill(t, FillId(o.id, 1))
      || ApplyFill(SoleExecution(o, i, m, at), Get(t.positions, i.symbol), LatestBalance(t, CNY)).Error?
    ensures CommitAll(t, ReportWrites(t, o, report).writes).positions == t.positions
  {
    DefaultReportIs(o, i, m, at);
    var u := UpdateWrites(t, o, report.updates);
    UpdatesAreOrderRows(t, o, report.updates);
    OrdersTouchOrdersOnly(t, u.writes);
    if !u.raised {
      WritesKeepTablesValid(t, u.writes);
      var t1 := CommitAll(t, u.writes);
      OneFill(t1, report.fills);
      RefusedFillIdles(t1, SoleExecution(o, i, m, at));
      CommitAllConcat(t, u.writes, AllFillWrites(t1, report.fills).writes);
    }
  }

  /** The report of an intent that is not executable moves no position. */
  lemma {:induction false} ReportIdles(t: Tables, o: Order, i: OrderIntent, s: Submission, m: CostModel,
                                       report: ExecutionReport)
    requires ValidTables(t) && Fresh(o) && ValidIntent(i) && ValidCostModel(m) && o.orderType == i.orderType
    requires o.price == i.price && o.symbol == i.symbol && o.submittedAt == s.receivedAt
    requires SubmitOrder(o, i, m, None, s.venueTime) == Ok(report) && ValidFillEvents(report.fills)
    requires s.venueTime < s.receivedAt || ContractViolation(o, i).Some? || HasFill(t, FillId(o.id, 1))
      || ApplyFill(SoleExecution(o, i, m, s.venueTime), Get(t.positions, i.symbol), LatestBalance(t, CNY)).Error?
    ensures CommitAll(t, ReportWrites(t, o, report).writes).positions == t.positions
  {
    if s.venueTime < s.receivedAt {
      RefusedAtOnce(t, o, report.updates);
      assert CommitAll(t, []) == t;
    } else if ContractViolation(o, i).Some? {
      var u := UpdateWrites(t, o, report.updates);
      UpdatesAreOrderRows(t, o, report.updates);
      OrdersTouchOrdersOnly(t, u.writes);
      assert u.writes + [] == u.writes;
    } else {
      RefusedReportIdles(t, o, i, m, s.venueTime, report);
    }
  }

  /** An intent that is not executable moves no position. */
  lemma {:induction false} LaunchIdles(t: Tables, i: OrderIntent, s: Submission, m: CostModel)
    requires ValidTables(t) && ValidIntent(i) && ValidCostModel(m) && s.scenario.None? && !Executable(t, i, s, m)
    ensures CommitAll(t, Launch(t, i, s, m).writes).positions == t.positions
  {
    var o := CreateOrderFromIntent(i, s.receivedAt);
    CommitTwo(t, WOrder(o), WOrder(o));
    if MaySaveOrder(t, o) && SubmitOrder(o, i, m, None, s.venueTime).Ok? {
      var report := SubmitOrder(o, i, m, None, s.venueTime).value;
      LaunchReports(t, i, s, o, m, report);
      ReportIdles(HandedTables(t, o, i), o, i, s, m, report);
    }
  }

  lemma {:induction false} ExecuteLaunches(t: Tables, plan: Plan, signal: Signal, s: Submission, m: CostModel,
                                           t1: Tables)
    requires ValidTables(t) && ValidCostModel(m) && Actionable(plan) && s.decisionPrice.Some?
    requires ValidIntent(IntentFor(plan, signal, s)) && UsedIntent(t, plan, signal, s).status != IntentSubmitted
    requires t1 == if IntentOf(t, signal.id).Some? then t else Commit(t, WIntent(IntentFor(plan, signal, s)))
    requires ValidTables(t1) && ValidIntent(UsedIntent(t, plan, signal, s))
    ensures
      var c, launched := Execute(t, plan, signal, s, m), Launch(t1, UsedIntent(t, plan, signal, s), s, m);
      CommitAll(t, c.writes) == CommitAll(t1, launched.writes) && c.outcome == launched.outcome
  {
    var saved := if IntentOf(t, signal.id).Some? then [] else [WIntent(IntentFor(plan, signal, s))];
    CommitOne(t, WIntent(IntentFor(plan, signal, s)));
    assert CommitAll(t, []) == t;
    CommitAllConcat(t, saved, Launch(t1, UsedIntent(t, plan, signal, s), s, m).writes);
  }

  // -------------------------------------------------------------------- one call

  /** The tables once a call has saved its signal and released its position. */
  function AdmittedTables(t: Tables, s: Submission, policy: Policy): (t1: Tables)
    requires ValidTables(t) && ValidSubmission(s)
    ensures ValidTables(t1)
  {
    WritesKeepTablesValid(t, Admit(t, s, policy).writes);
    CommitAll(t, Admit(t, s, policy).writes)
  }

  /** The call gets as far as an intent that passes its validator. */
  predicate Plans(t: Tables, s: Submission, policy: Policy)
    requires ValidTables(t) && ValidSubmission(s)
  {
    var a := Admit(t, s, policy);
    Admitted(t, s, policy) && s.decisionPrice.Some? && ValidIntent(IntentFor(a.plan.value, a.signal, s))
  }

  /** The intent the call works with: the one stored under the signal's key, or the planned one. */
  function CallIntent(t: Tables, s: Submission, policy: Policy): (i: OrderIntent)
    requires ValidTables(t) && ValidSubmission(s) && Plans(t, s, policy)
    ensures ValidIntent(i)
  {
    UsedIntent(t, Admit(t, s, policy).plan.value, Admit(t, s, policy).signal, s)
  }

  /** The call executes: it gets as far as an intent not yet submitted, which the venue and
      the ledger accept. */
  ghost predicate Executes(t: Tables, s: Submission, cfg: Config)
    requires ValidTables(t) && ValidSubmission(s) && ValidConfig(cfg)
  {
    && Plans(t, s, cfg.policy) && CallIntent(t, s, cfg.policy).status != IntentSubmitted
    && Executable(AdmittedTables(t, s, cfg.policy), CallIntent(t, s, cfg.policy), s, cfg.costs)
  }

  /** The tables after a call that is not cut off. */
  function AfterCall(t: Tables, s: Submission, cfg: Config): Tables
    requires ValidTables(t) && ValidSubmission(s) && ValidConfig(cfg)
  {
    CommitAll(t, SubmitSignal(t, s, cfg).writes)
  }

  /** The tables in which an intent is launched: admitted, and the intent saved. */
  function LaunchTables(t: Tables, s: Submission, policy: Policy): (t1: Tables)
    requires ValidTables(t) && ValidSubmission(s) && Plans(t, s, policy)
    ensures ValidTables(t1)
  {
    var t0, i := AdmittedTables(t, s, policy), CallIntent(t, s, policy);
    if IntentOf(t, Admit(t, s, policy).signal.id).Some? then t0
    else Commit(t0, WIntent(i))
  }

  lemma {:induction false} SubmitExecutes(t: Tables, s: Submission, cfg: Config)
    requires ValidTables(t) && ValidSubmission(s) && ValidConfig(cfg) && Admitted(t, s, cfg.policy)
      && s.decisionPrice.Some?
    ensures
      var a, t0 := Admit(t, s, cfg.policy), AdmittedTables(t, s, cfg.policy);
      var c, executed := SubmitSignal(t, s, cfg), Execute(t0, a.plan.value, a.signal, s, cfg.costs);
      CommitAll(t, c.writes) == CommitAll(t0, executed.writes) && c.outcome == executed.outcome
  {
    var a, t0 := Admit(t, s, cfg.policy), AdmittedTables(t, s, cfg.policy);
    CommitAllConcat(t, a.writes, Execute(t0, a.plan.value, a.signal, s, cfg.costs).writes);
  }

  /** Admitting changes no quantity and no price, and no intent. */
  lemma {:induction false} AdmissionKeepsValues(t: Tables, s: Submission, policy: Policy)
    requires ValidTables(t) && ValidSubmission(s)
    ensures
      var t0 := AdmittedTables(t, s, policy);
      && t0.intents == t.intents && t0.intentBySignal == t.intentBySignal
      && forall x: Symbol :: SameValue(t, t0, x)
  {
    AdmissionReprices(t, s, policy, 0, 0.0, 0.0);
  }

  lemma {:induction false} LaunchTablesAreAdmitted(t: Tables, s: Submission, policy: Policy)
    requires ValidTables(t) && ValidSubmission(s) && Plans(t, s, policy)
    ensures
      var t0, t1 := AdmittedTables(t, s, policy), LaunchTables(t, s, policy);
      t1.positions == t0.positions && t1.orders == t0.orders && t1.fills == t0.fills && t1.balances == t0.balances
  {
  }

  lemma {:induction false} ExecutableIgnoresIntents(t0: Tables, t1: Tables, i: OrderIntent, s: Submission, m: CostModel)
    requires ValidTables(t0) && ValidTables(t1) && ValidIntent(i) && ValidCostModel(m)
    requires t1.positions == t0.positions && t1.orders == t0.orders && t1.fills == t0.fills
      && t1.balances == t0.balances
    ensures Executable(t1, i, s, m) <==> Executable(t0, i, s, m)
  {
  }

  /** A call that plans works on as if its intent had been launched. */
  lemma {:induction false} CallLaunches(t: Tables, s: Submission, cfg: Config)
    requires ValidTables(t) && ValidSubmission(s) && ValidConfig(cfg) && Plans(t, s, cfg.policy)
    requires CallIntent(t, s, cfg.policy).status != IntentSubmitted
    ensures
      var t1, i := LaunchTables(t, s, cfg.policy), CallIntent(t, s, cfg.policy);
      && AfterCall(t, s, cfg) == CommitAll(t1, Launch(t1, i, s, cfg.costs).writes)
      && SubmitSignal(t, s, cfg).outcome == Launch(t1, i, s, cfg.costs).outcome
  {
    var a, t0 := Admit(t, s, cfg.policy), AdmittedTables(t, s, cfg.policy);
    AdmissionKeepsValues(t, s, cfg.policy);
    assert IntentOf(t0, a.signal.id) == IntentOf(t, a.signal.id);
    SubmitExecutes(t, s, cfg);
    ExecuteLaunches(t0, a.plan.value, a.signal, s, cfg.costs, LaunchTables(t, s, cfg.policy));
  }

  lemma {:induction false} LaunchedIffExecutable(t: Tables, s: Submission, cfg: Config)
    requires ValidTables(t) && ValidSubmission(s) && ValidConfig(cfg) && Plans(t, s, cfg.policy)
    ensures
      var t0, t1, i := AdmittedTables(t, s, cfg.policy), LaunchTables(t, s, cfg.policy), CallIntent(t, s, cfg.policy);
      t1.positions == t0.positions && (Executable(t1, i, s, cfg.costs) <==> Executable(t0, i, s, cfg.costs))
  {
    LaunchTablesAreAdmitted(t, s, cfg.policy);
    ExecutableIgnoresIntents(AdmittedTables(t, s, cfg.policy), LaunchTables(t, s, cfg.policy),
      CallIntent(t, s, cfg.policy),
                             s, cfg.costs);
  }

  /** A call that executes moves the symbol of its intent, and no other. */
  lemma {:induction false} ExecutedCallMoves(t: Tables, s: Submission, cfg: Config)
    requires ValidTables(t) && ValidSubmission(s) && ValidConfig(cfg) && s.scenario.None? && Executes(t, s, cfg)
    ensures SubmitSignal(t, s, cfg).outcome == Done
    ensures Moved(t, AfterCall(t, s, cfg), CallIntent(t, s, cfg.policy))
  {
    var t0, t1, i := AdmittedTables(t, s, cfg.policy), LaunchTables(t, s, cfg.policy), CallIntent(t, s, cfg.policy);
    AdmissionKeepsValues(t, s, cfg.policy);
    CallLaunches(t, s, cfg);
    LaunchedIffExecutable(t, s, cfg);
    LaunchMovesQuantity(t1, i, s, cfg.costs);
    assert SameValue(t, t0, i.symbol) && FilledTo(t1, i) == FilledTo(t, i);
    forall x: Symbol | x != i.symbol ensures SameValue(t, AfterCall(t, s, cfg), x) {
      assert SameValue(t, t0, x) && SameValue(t1, AfterCall(t, s, cfg), x);
    }
  }

  lemma {:induction false} ExecutedCallIsDone(t: Tables, s: Submission, cfg: Config)
    requires ValidTables(t) && ValidSubmission(s) && ValidConfig(cfg) && s.scenario.None? && Executes(t, s, cfg)
    ensures SubmitSignal(t, s, cfg).outcome == Done
  {
    ExecutedCallMoves(t, s, cfg);
  }

  lemma {:induction false} ResubmissionIdles(t: Tables, plan: Plan, signal: Signal, s: Submission, m: CostModel)
    requires ValidTables(t) && ValidCostModel(m) && Actionable(plan) && s.decisionPrice.Some?
    requires ValidIntent(IntentFor(plan, signal, s)) ==> UsedIntent(t, plan, signal, s).status == IntentSubmitted
    ensures CommitAll(t, Execute(t, plan, signal, s, m).writes).positions == t.positions
  {
    assert CommitAll(t, []) == t;
    var ws := Execute(t, plan, signal, s, m).writes;
    OrdersTouchOrdersOnly(t, ws);
  }

  lemma {:induction false} SamePositionsSameValues(t: Tables, t0: Tables, t': Tables)
    requires (forall x: Symbol :: SameValue(t, t0, x)) && t'.positions == t0.positions
    ensures forall x: Symbol :: SameValue(t, t', x)
  {
    forall x: Symbol ensures SameValue(t, t', x) {
      assert SameValue(t, t0, x);
    }
  }

  lemma {:induction false} IdlePlanMovesNothing(t: Tables, s: Submission, cfg: Config)
    requires ValidTables(t) && ValidSubmission(s) && ValidConfig(cfg) && s.scenario.None? && !Executes(t, s, cfg)
    requires Plans(t, s, cfg.policy) && CallIntent(t, s, cfg.policy).status != IntentSubmitted
    ensures AfterCall(t, s, cfg).positions == AdmittedTables(t, s, cfg.policy).positions
  {
    CallLaunches(t, s, cfg);
    LaunchedIffExecutable(t, s, cfg);
    LaunchIdles(LaunchTables(t, s, cfg.policy), CallIntent(t, s, cfg.policy), s, cfg.costs);
  }

  lemma {:induction false} AdmittedIdleMovesNothing(t: Tables, s: Submission, cfg: Config)
    requires ValidTables(t) && ValidSubmission(s) && ValidConfig(cfg) && s.scenario.None? && !Executes(t, s, cfg)
    requires Admitted(t, s, cfg.policy)
    ensures AfterCall(t, s, cfg).positions == AdmittedTables(t, s, cfg.policy).positions
  {
    var a, t0 := Admit(t, s, cfg.policy), AdmittedTables(t, s, cfg.policy);
    GatePasses(GateContext(t0, s, cfg.policy, a.signal, a.position, a.plan), cfg.policy);
    if Plans(t, s, cfg.policy) && CallIntent(t, s, cfg.policy).status != IntentSubmitted {
      IdlePlanMovesNothing(t, s, cfg);
    } else {
      AdmissionKeepsValues(t, s, cfg.policy);
      SubmitExecutes(t, s, cfg);
      ResubmissionIdles(t0, a.plan.value, a.signal, s, cfg.costs);
    }
  }

  /** A call that does not execute moves no symbol. */
  lemma {:induction false} IdleCallMovesNothing(t: Tables, s: Submission, cfg: Config)
    requires ValidTables(t) && ValidSubmission(s) && ValidConfig(cfg) && s.scenario.None? && !Executes(t, s, cfg)
    ensures forall x: Symbol :: SameValue(t, AfterCall(t, s, cfg), x)
  {
    var t0 := AdmittedTables(t, s, cfg.policy);
    AdmissionKeepsValues(t, s, cfg.policy);
    assert CommitAll(t, []) == t;
    if Admitted(t, s, cfg.policy) {
      AdmittedIdleMovesNothing(t, s, cfg);
      SamePositionsSameValues(t, t0, AfterCall(t, s, cfg));
    }
  }

  // ------------------------------------------------------ protection, exactly

  lemma {:induction false} ExecutedCallQuantities(t: Tables, s: Submission, cfg: Config, x: Symbol)
    requires ValidTables(t) && ValidSubmission(s) && ValidConfig(cfg) && s.scenario.None? && Executes(t, s, cfg)
    ensures QtyOf(AfterCall(t, s, cfg), x)
         == if x == CallIntent(t, s, cfg.policy).symbol then FilledTo(t, CallIntent(t, s, cfg.policy)) else QtyOf(t, x)
  {
    ExecutedCallMoves(t, s, cfg);
    if x != CallIntent(t, s, cfg.policy).symbol { assert SameValue(t, AfterCall(t, s, cfg), x); }
  }

  lemma {:induction false} IdleCallQuantities(t: Tables, s: Submission, cfg: Config, x: Symbol)
    requires ValidTables(t) && ValidSubmission(s) && ValidConfig(cfg) && s.scenario.None? && !Executes(t, s, cfg)
    ensures QtyOf(AfterCall(t, s, cfg), x) == QtyOf(t, x)
  {
    IdleCallMovesNothing(t, s, cfg);
    assert SameValue(t, AfterCall(t, s, cfg), x);
  }

  lemma {:induction false} ProtectedBuysArePending(t: Tables, s: Submission, cfg: Config)
    requires ValidTables(t) && ValidSubmission(s) && ValidConfig(cfg) && Protective(s.control)
    requires Executes(t, s, cfg) && CallIntent(t, s, cfg.policy).side == Buy
    ensures !NotPending(t, SubmittedSignal(t, s).id)
  {
    AdmittedSells(t, s, cfg.policy);
  }

  /** Under a protective state a call raises a quantity if and only if it executes an intent
      to buy, and that is always one an earlier call left pending under the same signal. */
  lemma {:induction false} RaisesIffPendingBuy(t: Tables, s: Submission, cfg: Config)
    requires ValidTables(t) && ValidSubmission(s) && ValidConfig(cfg) && Protective(s.control) && s.scenario.None?
    ensures (exists x :: QtyOf(AfterCall(t, s, cfg), x) > QtyOf(t, x))
      <==> Executes(t, s, cfg) && CallIntent(t, s, cfg.policy).side == Buy
    ensures Executes(t, s, cfg) && CallIntent(t, s, cfg.policy).side == Buy ==>
      !NotPending(t, SubmittedSignal(t, s).id)
  {
    if Executes(t, s, cfg) {
      var i := CallIntent(t, s, cfg.policy);
      forall x: Symbol { ExecutedCallQuantities(t, s, cfg, x); }
      assert QtyOf(AfterCall(t, s, cfg), i.symbol) == FilledTo(t, i);
      if i.side == Buy { ProtectedBuysArePending(t, s, cfg); }
    } else {
      forall x: Symbol { IdleCallQuantities(t, s, cfg, x); }
    }
  }
}
