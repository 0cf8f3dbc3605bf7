/** Cash over whole runs: what the fills account for and the newest balance does not show is, at
    any time, what the cut-off fills moved. */
module CashGap {
  import opened Prelude
  import opened Execution
  import opened Costs
  import opened Ledger
  import opened PaperAdapter
  import opened Planner
  import opened RiskGate
  import opened Store
  import opened Oms
  import opened Reconciler
  import opened LedgerAgreement
  import opened OrderAgreement
  import opened Agreement
  import opened Marks
  import opened Reports
  import opened Submissions
  import opened Runs
  import opened AtMostOnce
  import opened Unmasked

  // --------------------------------------------------------------- what is torn

  /** Cash the last fill moved, if its balance has not been written. */
  function TornFlow(ws: seq<Write>, m: CostModel): real {
    if ws == [] then 0.0
    else
      match ws[|ws| - 1]
      case WFill(f) => FlowOf(m)(f)
      case WBalance(_) => 0.0
      case _ => TornFlow(ws[..|ws| - 1], m)
  }

  /** A fill is new and comes after a settled one; a balance settles it. */
  ghost predicate Accounts(t: Tables, torn: real, w: Write) {
    match w
    case WFill(f) => torn == 0.0 && !HasFill(t, f.id) && ValidFill(f)
    case WBalance(b) =>
      && t.balances != [] && b.asset == CNY && ValidBalance(b) && Horizon(t) < b.snapshotTime
      && b.total == t.balances[|t.balances| - 1].total + torn
    case _ => true
  }

  ghost predicate Accounted(t: Tables, ws: seq<Write>, m: CostModel) {
    ws == []
    || (&& Accounted(t, ws[..|ws| - 1], m)
        && Accounts(CommitAll(t, ws[..|ws| - 1]), TornFlow(ws[..|ws| - 1], m), ws[|ws| - 1]))
  }

  lemma {:induction false} AccountedPrefix(t: Tables, ws: seq<Write>, m: CostModel, k: nat)
    requires Accounted(t, ws, m) && k <= |ws|
    ensures Accounted(t, ws[..k], m)
  {
    if k < |ws| {
      AccountedPrefix(t, ws[..|ws| - 1], m, k);
      assert ws[..|ws| - 1][..k] == ws[..k];
    } else {
      assert ws[..k] == ws;
    }
  }

  // ------------------------------------------------------------- the gap moves by it

  lemma {:induction false} LaterBalance(t: Tables, b: BalanceSnapshot, m: CostModel)
    requires Kept(t, m) && b.asset == CNY && ValidBalance(b) && Horizon(t) < b.snapshotTime
    ensures Commit(t, WBalance(b)) == t.(balances := t.balances + [b])
    ensures Kept(t.(balances := t.balances + [b]), m)
  {
  }

  lemma {:induction false} WriteMovesGap(t: Tables, w: Write, m: CostModel, torn: real)
    requires Kept(t, m) && ValidWrite(w) && Accounts(t, torn, w) && ValidTables(Commit(t, w))
    ensures Kept(Commit(t, w), m)
    ensures Gap(Commit(t, w), m) - Gap(t, m)
      == match w case WFill(f) => FlowOf(m)(f) case WBalance(_) => -torn case _ => 0.0
  {
    match w
    case WFill(f) => TotalGrows(t.fills, f, FlowOf(m));
    case WBalance(b) => LaterBalance(t, b, m);
    case _ =>
  }

  /** Whatever is written, the gap moves by what is torn. */
  lemma {:induction false} WritesMoveGap(t: Tables, ws: seq<Write>, m: CostModel)
    requires Kept(t, m) && ValidWrites(ws) && Accounted(t, ws, m)
    ensures Kept(CommitAll(t, ws), m)
    ensures Gap(CommitAll(t, ws), m) == Gap(t, m) + TornFlow(ws, m)
  {
    if ws != [] {
      var front, w := ws[..|ws| - 1], ws[|ws| - 1];
      WritesMoveGap(t, front, m);
      WritesKeepTablesValid(t, ws);
      WriteMovesGap(CommitAll(t, front), w, m, TornFlow(front, m));
    }
  }

  // ------------------------------------------------------------- what is accounted for

  lemma {:induction false} AccountedBoth(t: Tables, a: seq<Write>, t1: Tables, b: seq<Write>, m: CostModel)
    requires Accounted(t, a, m) && TornFlow(a, m) == 0.0 && t1 == CommitAll(t, a) && Accounted(t1, b, m)
    ensures Accounted(t, a + b, m) && TornFlow(a + b, m) == TornFlow(b, m)
  {
    if b == [] {
      assert a + b == a;
    } else {
      var front := b[..|b| - 1];
      AccountedBoth(t, a, t1, front, m);
      assert (a + b)[..|a + b| - 1] == a + front;
      CommitAllConcat(t, a, front);
    }
  }

  /** Writes of neither fills nor snapshots. */
  predicate CashQuiet(ws: seq<Write>) { forall i :: 0 <= i < |ws| ==> !ws[i].WFill? && !ws[i].WBalance? }

  lemma {:induction false} QuietIsAccounted(t: Tables, ws: seq<Write>, m: CostModel)
    requires CashQuiet(ws)
    ensures Accounted(t, ws, m) && TornFlow(ws, m) == 0.0
    ensures CommitAll(t, ws).fills == t.fills && CommitAll(t, ws).balances == t.balances
  {
    if ws != [] { QuietIsAccounted(t, ws[..|ws| - 1], m); }
  }

  lemma {:induction false} QuietKeepsKept(t: Tables, ws: seq<Write>, m: CostModel)
    requires Kept(t, m) && CashQuiet(ws) && ValidWrites(ws)
    ensures Kept(CommitAll(t, ws), m) && Horizon(CommitAll(t, ws)) == Horizon(t)
  {
    QuietIsAccounted(t, ws, m);
    WritesKeepTablesValid(t, ws);
  }

  /** One fill: three writes that settle it, or its row alone if the ledger refuses. */
  lemma {:induction false} FillIsAccounted(t: Tables, e: FillEvent, m: CostModel)
    requires Kept(t, m) && Replayable(e, m) && ValidFillEvent(e)
    requires !HasFill(t, e.fill.id) ==> Horizon(t) < e.eventTime
    ensures
      var r := FillWrites(t, e);
      var t' := CommitAll(t, r.writes);
      && Accounted(t, r.writes, m) && (!r.raised ==> TornFlow(r.writes, m) == 0.0) && Kept(t', m)
      && Horizon(t') == if HasFill(t, e.fill.id) || r.raised then Horizon(t) else e.eventTime
  {
    var r := FillWrites(t, e);
    if r.writes == [] {
      assert CommitAll(t, []) == t;
    } else if r.raised {
      RefusedFillIsAccounted(t, e, m);
    } else {
      LatestIsLast(t.balances);
      var position, balance := Get(t.positions, e.fill.symbol), LatestBalance(t, CNY);
      ApplyFillMovesCash(e, position, balance);
      ApplyFillKeepsPositionsValid(e, position, balance);
      var u := ApplyFill(e, position, balance).value;
      BookedFillIsAccounted(t, e, u.position, u.balance, m);
    }
  }

  lemma {:induction false} RefusedFillIsAccounted(t: Tables, e: FillEvent, m: CostModel)
    requires Kept(t, m) && ValidFill(e.fill) && !HasFill(t, e.fill.id)
    ensures
      var ws := [WFill(e.fill)];
      Accounted(t, ws, m) && Kept(CommitAll(t, ws), m) && Horizon(CommitAll(t, ws)) == Horizon(t)
  {
    var ws := [WFill(e.fill)];
    assert ws[..0] == [];
    assert CommitAll(t, []) == t;
    WritesMoveGap(t, ws, m);
  }

  lemma {:induction false} BookedFillIsAccounted(t: Tables, e: FillEvent, p: Position, b: BalanceSnapshot, m: CostModel)
    requires Kept(t, m) && Replayable(e, m) && !HasFill(t, e.fill.id) && Horizon(t) < e.eventTime
    requires ValidPosition(p) && ValidBalance(b) && b.asset == CNY && b.snapshotTime == e.eventTime
    requires b.total == t.balances[|t.balances| - 1].total + e.cost.netCashFlow
    ensures
      var ws := [WFill(e.fill), WPosition(p), WBalance(b)];
      && Accounted(t, ws, m) && TornFlow(ws, m) == 0.0
      && Kept(CommitAll(t, ws), m) && Horizon(CommitAll(t, ws)) == e.eventTime
  {
    var ws := [WFill(e.fill), WPosition(p), WBalance(b)];
    NoSnapshotYet(t, b);
    ThreeWrites(t, e.fill, p, b);
    assert ws[..1] == [WFill(e.fill)] && ws[..2][..1] == ws[..1];
    RefusedFillIsAccounted(t, e, m);
    TornAfterFill(e.fill, p, m);
    assert Accounted(t, ws[..2], m) && TornFlow(ws[..2], m) == e.cost.netCashFlow;
    assert Accounted(t, ws, m);
    WritesMoveGap(t, ws, m);
  }

  lemma {:induction false} TornAfterFill(f: Fill, p: Position, m: CostModel)
    ensures TornFlow([WFill(f)], m) == FlowOf(m)(f) == TornFlow([WFill(f), WPosition(p)], m)
  {
    assert [WFill(f), WPosition(p)][..1] == [WFill(f)];
  }

  lemma {:induction false} NoSnapshotYet(t: Tables, b: BalanceSnapshot)
    requires t.balances != [] && Horizon(t) < b.snapshotTime
    requires forall i, j :: 0 <= i < j < |t.balances| ==> t.balances[i].snapshotTime < t.balances[j].snapshotTime
    ensures !HasSnapshotAt(t.balances, b.asset, b.snapshotTime)
  {
  }

  /** Executions a reconciler would rebuild, each later than the one before. */
  ghost predicate InOrder(es: seq<FillEvent>, m: CostModel) {
    && ValidCostModel(m) && ValidFillEvents(es)
    && (forall i :: 0 <= i < |es| ==> Replayable(es[i], m))
    && forall i, j :: 0 <= i < j < |es| ==> es[i].eventTime < es[j].eventTime
  }

  lemma {:induction false} NewFillIsWritten(t: Tables, e: FillEvent)
    requires ValidTables(t) && ValidFillEvent(e) && !HasFill(t, e.fill.id)
    ensures WFill(e.fill) in FillWrites(t, e).writes
  {
    assert FillWrites(t, e).writes[0] == WFill(e.fill);
  }

  lemma {:induction false} EarlierFillsAfter(a: seq<Write>, b: seq<Write>, h: Time, d: int)
    requires FillsAfter(a + b, h, d)
    ensures FillsAfter(a, h, d)
  {
    forall f | WFill(f) in a ensures WFill(f) in a + b {
    }
  }

  ghost predicate FillsAccounted(t: Tables, r: Trace, m: CostModel, until: Time) {
    && Accounted(t, r.writes, m) && (!r.raised ==> TornFlow(r.writes, m) == 0.0)
    && Kept(CommitAll(t, r.writes), m) && Horizon(CommitAll(t, r.writes)) <= until
  }

  lemma {:induction false} OneMoreIsAccounted(t: Tables, before: Trace, t1: Tables, e: FillEvent, m: CostModel,
                                              until: Time, h: Time, d: int)
    requires FillsAccounted(t, before, m, until) && !before.raised && t1 == CommitAll(t, before.writes)
    requires Replayable(e, m) && ValidFillEvent(e) && until <= MaxInt(h, e.eventTime)
      && (until == h || until < e.eventTime)
    requires ValidTables(t1) && FillsAfter(before.writes + FillWrites(t1, e).writes, h, d)
    ensures FillsAccounted(t, Trace(before.writes + FillWrites(t1, e).writes, FillWrites(t1, e).raised), m,
                           MaxInt(h, e.eventTime))
  {
    var last := FillWrites(t1, e);
    if !HasFill(t1, e.fill.id) {
      NewFillIsWritten(t1, e);
      assert WFill(e.fill) in before.writes + last.writes;
    }
    FillIsAccounted(t1, e, m);
    AccountedBoth(t, before.writes, t1, last.writes, m);
    CommitAllConcat(t, before.writes, last.writes);
  }

  /** The last event's time, or h if that is later. */
  function Until(es: seq<FillEvent>, h: Time): Time {
    if es == [] then h else MaxInt(h, es[|es| - 1].eventTime)
  }

  lemma {:induction false} FillsAreAccounted(t: Tables, es: seq<FillEvent>, m: CostModel, d: int)
    requires Kept(t, m) && InOrder(es, m) && FillsAfter(AllFillWrites(t, es).writes, Horizon(t), d)
    ensures FillsAccounted(t, AllFillWrites(t, es), m, Until(es, Horizon(t)))
  {
    if es == [] {
      assert CommitAll(t, []) == t;
    } else {
      var front, e := es[..|es| - 1], es[|es| - 1];
      var before := AllFillWrites(t, front);
      FillWritesGrow(t, es);
      var t1 := CommitAll(t, before.writes);
      if before.raised {
        FillsAreAccounted(t, front, m, d);
      } else {
        EarlierFillsAfter(before.writes, FillWrites(t1, e).writes, Horizon(t), d);
        FillsAreAccounted(t, front, m, d);
        OneMoreIsAccounted(t, before, t1, e, m, Until(front, Horizon(t)), Horizon(t), d);
      }
    }
  }

  // ------------------------------------------------------------- the steps

  lemma {:induction false} UpdatesAreQuiet(t: Tables, o: Order, us: seq<OrderUpdate>)
    ensures CashQuiet(UpdateWrites(t, o, us).writes)
  {
    if us != [] { UpdatesAreQuiet(t, o, us[..|us| - 1]); }
  }

  lemma {:induction false} VenueFillsInOrder(o: Order, i: OrderIntent, m: CostModel, s: Submission,
                                             report: ExecutionReport)
    requires ValidOrder(o) && ValidCostModel(m) && SubmitOrder(o, i, m, s.scenario, s.venueTime) == Ok(report)
    ensures InOrder(report.fills, m)
  {
    VenueReports(o, i, m, s);
    var sc, d := VenueScenario(o, i, s.scenario), DefaultPrice(o, i);
    if !sc.rejected {
      SliceEventsTell(o, m, sc.slices, d, s.venueTime, |sc.slices|);
      forall j | 0 <= j < |report.fills|
        ensures Replayable(report.fills[j], m) && report.fills[j].eventTime == s.venueTime + Seconds(j + 1)
      {
        assert TellsSlice(report.fills[j], o.id, m, s.venueTime, j);
      }
    }
  }

  /** What a run of writes has to be: accounted for, and settled if it was not stopped. */
  ghost predicate WellKept(t: Tables, ws: seq<Write>, raised: bool, m: CostModel) {
    Accounted(t, ws, m) && (!raised ==> TornFlow(ws, m) == 0.0)
  }

  lemma {:induction false} AfterQuietIsKept(t: Tables, a: seq<Write>, t1: Tables, b: seq<Write>, raised: bool,
                                            m: CostModel)
    requires CashQuiet(a) && t1 == CommitAll(t, a) && WellKept(t1, b, raised, m)
    ensures WellKept(t, a + b, raised, m)
  {
    QuietIsAccounted(t, a, m);
    AccountedBoth(t, a, t1, b, m);
  }

  lemma {:induction false} QuietIsKept(t: Tables, ws: seq<Write>, raised: bool, m: CostModel)
    requires CashQuiet(ws)
    ensures WellKept(t, ws, raised, m)
  {
    QuietIsAccounted(t, ws, m);
  }

  lemma {:induction false} ReportIsKept(t: Tables, o: Order, report: ExecutionReport, m: CostModel, d: int)
    requires Kept(t, m) && InOrder(report.fills, m) && FillsAfter(ReportWrites(t, o, report).writes, Horizon(t), d)
    ensures WellKept(t, ReportWrites(t, o, report).writes, ReportWrites(t, o, report).raised, m)
  {
    var u := UpdateWrites(t, o, report.updates);
    UpdatesAreQuiet(t, o, report.updates);
    if u.raised {
      QuietIsKept(t, u.writes, true, m);
    } else {
      QuietIsAccounted(t, u.writes, m);
      QuietKeepsKept(t, u.writes, m);
      var t1 := CommitAll(t, u.writes);
      var f := AllFillWrites(t1, report.fills);
      LaterFillsAfter(t, u.writes, t1, f.writes, d);
      FillsAreAccounted(t1, report.fills, m, d);
      AfterQuietIsKept(t, u.writes, t1, f.writes, f.raised, m);
    }
  }

  lemma {:induction false} LaunchIsKept(t: Tables, i: OrderIntent, s: Submission, m: CostModel, d: int)
    requires Kept(t, m) && ValidIntent(i) && FillsAfter(Launch(t, i, s, m).writes, Horizon(t), d)
    ensures WellKept(t, Launch(t, i, s, m).writes, Launch(t, i, s, m).outcome == Raised, m)
  {
    var o := CreateOrderFromIntent(i, s.receivedAt);
    if !MaySaveOrder(t, o) {
      QuietIsKept(t, [], true, m);
    } else if SubmitOrder(o, i, m, s.scenario, s.venueTime).Error? {
      QuietIsKept(t, [WOrder(o), WOrder(o)], false, m);
    } else {
      var report := SubmitOrder(o, i, m, s.scenario, s.venueTime).value;
      var handed := [WOrder(o), WIntent(i.(status := IntentSubmitted))];
      VenueFillsInOrder(o, i, m, s, report);
      QuietIsAccounted(t, handed, m);
      QuietKeepsKept(t, handed, m);
      var t2 := CommitAll(t, handed);
      var w := ReportWrites(t2, o, report);
      LaterFillsAfter(t, handed, t2, w.writes, d);
      ReportIsKept(t2, o, report, m, d);
      AfterQuietIsKept(t, handed, t2, w.writes, w.raised, m);
    }
  }

  lemma {:induction false} SavedLaunchIsKept(t: Tables, saved: seq<Write>, t1: Tables, i: OrderIntent, s: Submission,
                                             m: CostModel, d: int, c: Call)
    requires Kept(t, m) && CashQuiet(saved) && ValidWrites(saved) && t1 == CommitAll(t, saved) && ValidTables(t1)
    requires ValidIntent(i) && ValidCostModel(m) && c == Launch(t1, i, s, m)
    requires FillsAfter(saved + c.writes, Horizon(t), d)
    ensures WellKept(t, saved + c.writes, c.outcome == Raised, m)
  {
    QuietIsAccounted(t, saved, m);
    QuietKeepsKept(t, saved, m);
    LaterFillsAfter(t, saved, t1, c.writes, d);
    LaunchIsKept(t1, i, s, m, d);
    AfterQuietIsKept(t, saved, t1, c.writes, c.outcome == Raised, m);
  }

  lemma {:induction false} ExecuteIsKept(t: Tables, plan: Plan, signal: Signal, s: Submission, m: CostModel, d: int)
    requires Kept(t, m) && Actionable(plan) && s.decisionPrice.Some?
    requires FillsAfter(Execute(t, plan, signal, s, m).writes, Horizon(t), d)
    ensures WellKept(t, Execute(t, plan, signal, s, m).writes, Execute(t, plan, signal, s, m).outcome == Raised, m)
  {
    var planned, found := IntentFor(plan, signal, s), IntentOf(t, signal.id);
    var c := Execute(t, plan, signal, s, m);
    if !ValidIntent(planned) {
      QuietIsKept(t, c.writes, c.outcome == Raised, m);
    } else {
      var intent := if found.Some? then found.value else planned;
      var saved := if found.Some? then [] else [WIntent(planned)];
      WritesKeepTablesValid(t, saved);
      var t1 := CommitAll(t, saved);
      if intent.status == IntentSubmitted {
        QuietIsKept(t, c.writes, c.outcome == Raised, m);
      } else {
        SavedLaunchIsKept(t, saved, t1, intent, s, m, d, Launch(t1, intent, s, m));
      }
    }
  }

  lemma {:induction false} AdmittedIsKept(t: Tables, a: seq<Write>, t1: Tables, plan: Plan, signal: Signal,
                                          s: Submission, m: CostModel, d: int, c: Call)
    requires Kept(t, m) && CashQuiet(a) && ValidWrites(a) && t1 == CommitAll(t, a) && ValidTables(t1)
    requires Actionable(plan) && s.decisionPrice.Some? && c == Execute(t1, plan, signal, s, m)
    requires FillsAfter(a + c.writes, Horizon(t), d)
    ensures WellKept(t, a + c.writes, c.outcome == Raised, m)
  {
    QuietIsAccounted(t, a, m);
    QuietKeepsKept(t, a, m);
    LaterFillsAfter(t, a, t1, c.writes, d);
    ExecuteIsKept(t1, plan, signal, s, m, d);
    AfterQuietIsKept(t, a, t1, c.writes, c.outcome == Raised, m);
  }

  lemma {:induction false} AdmissionIsCashQuiet(t: Tables, s: Submission, policy: Policy)
    requires ValidTables(t) && ValidSubmission(s)
    ensures CashQuiet(Admit(t, s, policy).writes)
  {
    AdmissionShape(t, s, policy);
  }

  lemma {:induction false} CallIsKept(t: Tables, s: Submission, cfg: Config, d: int)
    requires Kept(t, cfg.costs) && ValidSubmission(s) && ValidConfig(cfg)
    requires FillsAfter(SubmitSignal(t, s, cfg).writes, Horizon(t), d)
    ensures WellKept(t, SubmitSignal(t, s, cfg).writes, SubmitSignal(t, s, cfg).outcome == Raised, cfg.costs)
  {
    var a := Admit(t, s, cfg.policy);
    AdmissionIsCashQuiet(t, s, cfg.policy);
    if s.leaseHeld && !a.raised && !a.decision.Reject? && a.plan.Some? && Actionable(a.plan.value) {
      WritesKeepTablesValid(t, a.writes);
      var t1 := CommitAll(t, a.writes);
      var c := Execute(t1, a.plan.value, a.signal, s, cfg.costs);
      AdmittedIsKept(t, a.writes, t1, a.plan.value, a.signal, s, cfg.costs, d, c);
    } else {
      QuietIsKept(t, SubmitSignal(t, s, cfg).writes, SubmitSignal(t, s, cfg).outcome == Raised, cfg.costs);
    }
  }

  lemma {:induction false} CancelsAreQuiet(t: Tables, ids: seq<OrderId>, control: ControlState, at: Time)
    ensures CashQuiet(CancelEach(t, ids, control, at).writes)
  {
    if ids != [] {
      var before, order := CancelEach(t, ids[..|ids| - 1], control, at).writes, ids[|ids| - 1];
      CancelsAreQuiet(t, ids[..|ids| - 1], control, at);
      CancelEachGrows(t, ids, control, at);
      var t1 := CommitAll(t, before);
      if order in t1.orders { UpdatesAreQuiet(t1, t1.orders[order], CancelOrder(t1.orders[order], at).updates); }
    }
  }

  lemma {:induction false} ReleasesAreQuiet(positions: seq<Position>, tradeDate: int, at: Time)
    requires forall i :: 0 <= i < |positions| ==> ValidPosition(positions[i])
    ensures CashQuiet(ReleaseEach(positions, tradeDate, at))
  {
    if positions != [] { ReleasesAreQuiet(positions[..|positions| - 1], tradeDate, at); }
  }

  /** On an account that has snapshots, a recovery only releases. */
  lemma {:induction false} RecoveryIsQuiet(t: Tables, tradeDate: int, at: Time, cash: real)
    requires ValidTables(t) && cash > 0.0 && t.balances != []
    ensures CashQuiet(RecoverAccount(t, tradeDate, at, cash))
  {
    OpenPositionsAreValid(SortedKeys(t.positions.Keys), t.positions);
    ReleasesAreQuiet(OpenPositions(t), tradeDate, at);
  }

  /** A step of any kind. */
  lemma {:induction false} StepIsKept(t: Tables, step: Step, cfg: Config, d: int)
    requires ValidConfig(cfg) && Kept(t, cfg.costs) && Fits(t, step, cfg, d)
    ensures WellKept(t, StepTrace(t, step, cfg).writes, StepTrace(t, step, cfg).raised, cfg.costs)
  {
    var r := StepTrace(t, step, cfg);
    match step {
      case Submit(s) => CallIsKept(t, s, cfg, DateAfter(step, d));
      case Cancel(order, at) =>
        UpdatesAreQuiet(t, t.orders[order], CancelOrder(t.orders[order], at).updates);
        QuietIsKept(t, r.writes, r.raised, cfg.costs);
      case CancelAll(ids, control, at) =>
        CancelsAreQuiet(t, ids, control, at);
        QuietIsKept(t, r.writes, r.raised, cfg.costs);
      case Recover(tradeDate, at) =>
        RecoveryIsQuiet(t, tradeDate, at, cfg.initialCash);
        QuietIsKept(t, r.writes, r.raised, cfg.costs);
    }
  }

  // ------------------------------------------------------------- runs

  /** Cut anywhere, a step moves the gap by what it leaves torn: nothing, if it ran to its end. */
  lemma {:induction false} CutMovesGap(t: Tables, step: Step, k: nat, t': Tables, cfg: Config, d: int)
    requires ValidConfig(cfg) && Kept(t, cfg.costs) && Takes(t, step, k, t', cfg, d)
    ensures Kept(t', cfg.costs)
    ensures Gap(t', cfg.costs) == Gap(t, cfg.costs) + TornFlow(Written(t, step, k, cfg), cfg.costs)
    ensures Completes(t, step, k, cfg) ==> TornFlow(Written(t, step, k, cfg), cfg.costs) == 0.0
  {
    var ws := StepTrace(t, step, cfg).writes;
    StepIsKept(t, step, cfg, d);
    AccountedPrefix(t, ws, cfg.costs, k);
    WritesMoveGap(t, ws[..k], cfg.costs);
    if k == |ws| { assert ws[..k] == ws; }
  }

  /** What step n of a run left torn. */
  ghost function TornAtStep(states: seq<Tables>, steps: seq<Step>, cuts: seq<nat>, cfg: Config, d: int, n: nat): real
    requires ValidConfig(cfg) && IsRun(states, steps, cuts, cfg, d) && n < |steps|
  {
    assert Takes(states[n], steps[n], cuts[n], states[n + 1], cfg, RunDate(steps[..n], d));
    TornFlow(Written(states[n], steps[n], cuts[n], cfg), cfg.costs)
  }

  /** The cash of all the fills that steps i to j of a run left torn. */
  ghost function TornBetween(states: seq<Tables>, steps: seq<Step>, cuts: seq<nat>, cfg: Config, d: int, i: nat,
                             j: nat): real
    requires ValidConfig(cfg) && IsRun(states, steps, cuts, cfg, d) && i <= j <= |steps|
  {
    if i == j then 0.0
    else TornBetween(states, steps, cuts, cfg, d, i, j - 1) + TornAtStep(states, steps, cuts, cfg, d, j - 1)
  }

  lemma {:induction false} RunsAreAnyRuns(states: seq<Tables>, steps: seq<Step>, cuts: seq<nat>, cfg: Config, d: int)
    requires ValidConfig(cfg) && IsRun(states, steps, cuts, cfg, d)
    ensures AnyRun(states, steps, cuts, cfg)
  {
    forall i | 0 <= i < |steps| ensures Steps(states[i], steps[i], cuts[i], states[i + 1], cfg) {
      assert Takes(states[i], steps[i], cuts[i], states[i + 1], cfg, RunDate(steps[..i], d));
    }
  }

  lemma {:induction false} NextMovesGap(states: seq<Tables>, steps: seq<Step>, cuts: seq<nat>, cfg: Config, d: int,
                                        n: nat)
    requires ValidConfig(cfg) && IsRun(states, steps, cuts, cfg, d) && n < |steps| && Kept(states[n], cfg.costs)
    ensures Kept(states[n + 1], cfg.costs)
    ensures Gap(states[n + 1], cfg.costs)
      == Gap(states[n], cfg.costs) + TornAtStep(states, steps, cuts, cfg, d, n)
    ensures RunsToEnd(states, steps, cuts, cfg) ==> TornAtStep(states, steps, cuts, cfg, d, n) == 0.0
  {
    CutMovesGap(states[n], steps[n], cuts[n], states[n + 1], cfg, RunDate(steps[..n], d));
  }

  lemma {:induction false} OneMoreTorn(states: seq<Tables>, steps: seq<Step>, cuts: seq<nat>, cfg: Config, d: int,
                                       i: nat, n: nat)
    requires ValidConfig(cfg) && IsRun(states, steps, cuts, cfg, d) && i <= n < |steps|
    ensures TornBetween(states, steps, cuts, cfg, d, i, n + 1)
      == TornBetween(states, steps, cuts, cfg, d, i, n) + TornAtStep(states, steps, cuts, cfg, d, n)
  {
  }

  /** Conservation over any run, its steps cut off anywhere: what the fills account for and the
      newest balance does not show grows by exactly the cash of the torn fills. */
  lemma {:induction false} GapIsTornCash(states: seq<Tables>, steps: seq<Step>, cuts: seq<nat>, cfg: Config, d: int,
                                         i: nat, j: nat)
    requires ValidConfig(cfg) && IsRun(states, steps, cuts, cfg, d)
    requires i <= j <= |steps| && Kept(states[i], cfg.costs)
    ensures Kept(states[j], cfg.costs)
    ensures Gap(states[j], cfg.costs) == Gap(states[i], cfg.costs) + TornBetween(states, steps, cuts, cfg, d, i, j)
  {
    var n := i;
    while n < j
      invariant i <= n <= j && Kept(states[n], cfg.costs)
      invariant Gap(states[n], cfg.costs) == Gap(states[i], cfg.costs) + TornBetween(states, steps, cuts, cfg, d, i, n)
    {
      NextMovesGap(states, steps, cuts, cfg, d, n);
      OneMoreTorn(states, steps, cuts, cfg, d, i, n);
      n := n + 1;
    }
  }

  /** A gap is reported in every later state, unless what has been torn since cancels it out. */
  lemma {:induction false} GapStaysReported(states: seq<Tables>, steps: seq<Step>, cuts: seq<nat>, cfg: Config, d: int,
                                            i: nat, j: nat)
    requires ValidConfig(cfg) && IsRun(states, steps, cuts, cfg, d)
    requires i <= j <= |steps| && Kept(states[i], cfg.costs)
    requires Gap(states[i], cfg.costs) + TornBetween(states, steps, cuts, cfg, d, i, j) != 0.0
    ensures Detected(states[j], cfg.costs)
  {
    GapIsTornCash(states, steps, cuts, cfg, d, i, j);
    ShortIsReported(states[j], cfg.costs, Gap(states[j], cfg.costs));
  }

  lemma {:induction false} NothingTornToEnd(states: seq<Tables>, steps: seq<Step>, cuts: seq<nat>, cfg: Config,
                                            d: int, j: nat)
    requires ValidConfig(cfg) && IsRun(states, steps, cuts, cfg, d)
    requires RunsToEnd(states, steps, cuts, cfg) && j <= |steps| && Kept(states[0], cfg.costs)
    ensures TornBetween(states, steps, cuts, cfg, d, 0, j) == 0.0
  {
    var n := 0;
    while n < j
      invariant n <= j && Kept(states[n], cfg.costs) && TornBetween(states, steps, cuts, cfg, d, 0, n) == 0.0
    {
      NextMovesGap(states, steps, cuts, cfg, d, n);
      n := n + 1;
    }
  }

  /** Steps that run to their end leave it as it is. */
  lemma {:induction false} ShortStaysReported(states: seq<Tables>, steps: seq<Step>, cuts: seq<nat>, cfg: Config,
                                              d: int, gap: real, n: nat)
    requires ValidConfig(cfg) && IsRun(states, steps, cuts, cfg, d) && RunsToEnd(states, steps, cuts, cfg)
    requires Short(states[0], cfg.costs, gap) && n <= |steps|
    ensures Short(states[n], cfg.costs, gap) && Detected(states[n], cfg.costs)
  {
    NothingTornToEnd(states, steps, cuts, cfg, d, n);
    GapIsTornCash(states, steps, cuts, cfg, d, 0, n);
    ShortIsReported(states[n], cfg.costs, gap);
  }

  lemma {:induction false} AheadIsReportedAfter(states: seq<Tables>, steps: seq<Step>, cuts: seq<nat>, cfg: Config)
    requires ValidConfig(cfg) && AnyRun(states, steps, cuts, cfg)
    ensures forall id, i, j :: 0 <= i <= j <= |steps| && Ahead(states[i], id) ==> Detected(states[j], cfg.costs)
  {
    forall id, i, j | 0 <= i <= j <= |steps| && Ahead(states[i], id) ensures Detected(states[j], cfg.costs) {
      AheadStaysReported(states, steps, cuts, cfg, id, i, j);
    }
  }

  lemma {:induction false} TornCashIsReported(states: seq<Tables>, steps: seq<Step>, cuts: seq<nat>, cfg: Config,
                                              d: int)
    requires ValidConfig(cfg) && IsRun(states, steps, cuts, cfg, d) && Kept(states[0], cfg.costs)
    requires Gap(states[0], cfg.costs) == 0.0
    ensures forall j :: 0 <= j <= |steps| && TornBetween(states, steps, cuts, cfg, d, 0, j) != 0.0 ==>
      Detected(states[j], cfg.costs)
  {
    forall j | 0 <= j <= |steps| && TornBetween(states, steps, cuts, cfg, d, 0, j) != 0.0
      ensures Detected(states[j], cfg.costs)
    {
      GapStaysReported(states, steps, cuts, cfg, d, 0, j);
    }
  }

  /** A run, reported and after. It agrees up to its first torn step, which is reported; from then
      on it is reported in every state in which an order row has been left ahead of its fills, and
      in every state up to which the cash of the torn fills does not add up to nothing. */
  lemma {:induction false} ReportedStaysReported(states: seq<Tables>, steps: seq<Step>, cuts: seq<nat>, cfg: Config,
                                                 d: int)
    returns (n: nat)
    requires ValidConfig(cfg) && IsRun(states, steps, cuts, cfg, d)
    requires Agrees(states[0], cfg.costs, d)
    ensures n <= |steps| && AgreesUpTo(states, steps, cfg.costs, d, n)
    ensures n < |steps| ==> Lasting(states[n + 1], cfg.costs)
    ensures forall id, i, j :: 0 <= i <= j <= |steps| && Ahead(states[i], id) ==> Detected(states[j], cfg.costs)
    ensures forall j :: 0 <= j <= |steps| && TornBetween(states, steps, cuts, cfg, d, 0, j) != 0.0 ==>
      Detected(states[j], cfg.costs)
  {
    n := RunsAgreeUntilReported(states, steps, cuts, cfg, d);
    RunsAreAnyRuns(states, steps, cuts, cfg, d);
    AheadIsReportedAfter(states, steps, cuts, cfg);
    AgreeingHasNoGap(states[0], cfg.costs, d);
    TornCashIsReported(states, steps, cuts, cfg, d);
  }
}
