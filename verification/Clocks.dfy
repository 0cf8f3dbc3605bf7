/** When a step may be taken: a venue clock that is not too early is all it needs. */
module Clocks {
  import opened Prelude
  import opened Execution
  import opened Costs
  import opened Ledger
  import opened PaperAdapter
  import opened Planner
  import opened RiskGate
  import opened Store
  import opened Oms
  import opened Reconciler
  import opened LedgerAgreement
  import opened OrderAgreement
  import opened Reports
  import opened Submissions
  import opened Runs

  /** No fill is written that is dated before a time. */
  ghost predicate FillsFrom(ws: seq<Write>, at: Time) {
    forall f :: WFill(f) in ws ==> at <= f.fillTime
  }

  lemma {:induction false} FillsFromBoth(a: seq<Write>, b: seq<Write>, at: Time)
    requires FillsFrom(a, at) && FillsFrom(b, at)
    ensures FillsFrom(a + b, at)
  {
    forall f | WFill(f) in a + b ensures at <= f.fillTime {
      assert WFill(f) in a || WFill(f) in b;
    }
  }

  lemma {:induction false} UpdatesFrom(t: Tables, o: Order, us: seq<OrderUpdate>, at: Time)
    ensures FillsFrom(UpdateWrites(t, o, us).writes, at)
  {
    if us != [] {
      UpdatesFrom(t, o, us[..|us| - 1], at);
      var before, r := UpdateWrites(t, o, us[..|us| - 1]).writes, UpdateWrites(t, o, us).writes;
      if r != before { FillsFromBoth(before, [r[|r| - 1]], at); }
    }
  }

  ghost predicate EventsFrom(es: seq<FillEvent>, at: Time) {
    forall i :: 0 <= i < |es| ==> at <= es[i].fill.fillTime
  }

  lemma {:induction false} FillFrom(t: Tables, e: FillEvent, at: Time)
    requires ValidTables(t) && ValidFillEvent(e) && at <= e.fill.fillTime
    ensures FillsFrom(FillWrites(t, e).writes, at)
  {
  }

  lemma {:induction false} AllFillsFrom(t: Tables, es: seq<FillEvent>, at: Time)
    requires ValidTables(t) && ValidFillEvents(es) && EventsFrom(es, at)
    ensures FillsFrom(AllFillWrites(t, es).writes, at)
  {
    if es != [] {
      var before := AllFillWrites(t, es[..|es| - 1]);
      AllFillsFrom(t, es[..|es| - 1], at);
      FillWritesGrow(t, es);
      if !before.raised {
        var t1 := CommitAll(t, before.writes);
        FillFrom(t1, es[|es| - 1], at);
        FillsFromBoth(before.writes, FillWrites(t1, es[|es| - 1]).writes, at);
      }
    }
  }

  lemma {:induction false} ReportFrom(t: Tables, o: Order, report: ExecutionReport, at: Time)
    requires ValidTables(t) && ValidFillEvents(report.fills) && EventsFrom(report.fills, at)
    ensures FillsFrom(ReportWrites(t, o, report).writes, at)
  {
    var u := UpdateWrites(t, o, report.updates);
    UpdatesFrom(t, o, report.updates, at);
    WritesKeepTablesValid(t, u.writes);
    AllFillsFrom(CommitAll(t, u.writes), report.fills, at);
    FillsFromBoth(u.writes, AllFillWrites(CommitAll(t, u.writes), report.fills).writes, at);
  }

  /** The first time at which the venue can report an execution. */
  function FirstExecution(s: Submission): Time { s.venueTime + Seconds(1) }

  lemma {:induction false} VenueFillsFrom(o: Order, i: OrderIntent, m: CostModel, s: Submission,
                                          report: ExecutionReport)
    requires ValidOrder(o) && ValidCostModel(m) && SubmitOrder(o, i, m, s.scenario, s.venueTime) == Ok(report)
    ensures ValidFillEvents(report.fills) && EventsFrom(report.fills, FirstExecution(s))
  {
    VenueReports(o, i, m, s);
    var sc, d := VenueScenario(o, i, s.scenario), DefaultPrice(o, i);
    if !sc.rejected {
      SliceEventsTell(o, m, sc.slices, d, s.venueTime, |sc.slices|);
      forall j | 0 <= j < |report.fills| ensures FirstExecution(s) <= report.fills[j].fill.fillTime {
        assert TellsSlice(report.fills[j], o.id, m, s.venueTime, j);
      }
    }
  }

  lemma {:induction false} LaunchFillsFrom(t: Tables, i: OrderIntent, s: Submission, m: CostModel)
    requires ValidTables(t) && ValidIntent(i) && ValidCostModel(m)
    ensures FillsFrom(Launch(t, i, s, m).writes, FirstExecution(s))
  {
    var o := CreateOrderFromIntent(i, s.receivedAt);
    var handed := [WOrder(o), WIntent(i.(status := IntentSubmitted))];
    WritesKeepTablesValid(t, handed);
    if MaySaveOrder(t, o) && SubmitOrder(o, i, m, s.scenario, s.venueTime).Ok? {
      var report := SubmitOrder(o, i, m, s.scenario, s.venueTime).value;
      VenueFillsFrom(o, i, m, s, report);
      ReportFrom(CommitAll(t, handed), o, report, FirstExecution(s));
      FillsFromBoth(handed, ReportWrites(CommitAll(t, handed), o, report).writes, FirstExecution(s));
    }
  }

  lemma {:induction false} ExecuteFillsFrom(t: Tables, plan: Plan, signal: Signal, s: Submission, m: CostModel)
    requires ValidTables(t) && Actionable(plan) && s.decisionPrice.Some? && ValidCostModel(m)
    ensures FillsFrom(Execute(t, plan, signal, s, m).writes, FirstExecution(s))
  {
    var planned := IntentFor(plan, signal, s);
    if ValidIntent(planned) {
      var found := IntentOf(t, signal.id);
      var intent := if found.Some? then found.value else planned;
      var saved := if found.Some? then [] else [WIntent(planned)];
      WritesKeepTablesValid(t, saved);
      var t1 := CommitAll(t, saved);
      var o := CreateOrderFromIntent(intent, s.receivedAt);
      LaunchFillsFrom(t1, intent, s, m);
      FillsFromBoth(saved, Launch(t1, intent, s, m).writes, FirstExecution(s));
      FillsFromBoth(saved, if o.id in t1.orders then [] else [WOrder(o)], FirstExecution(s));
    }
  }

  /** No call writes a fill dated before the venue's first possible execution. */
  lemma {:induction false} CallFillsFrom(t: Tables, s: Submission, cfg: Config)
    requires ValidTables(t) && ValidSubmission(s) && ValidConfig(cfg)
    ensures FillsFrom(SubmitSignal(t, s, cfg).writes, FirstExecution(s))
  {
    var a := Admit(t, s, cfg.policy);
    AdmissionShape(t, s, cfg.policy);
    if s.leaseHeld && !a.raised && !a.decision.Reject? && a.plan.Some? && Actionable(a.plan.value) {
      WritesKeepTablesValid(t, a.writes);
      var t1 := CommitAll(t, a.writes);
      ExecuteFillsFrom(t1, a.plan.value, a.signal, s, cfg.costs);
      FillsFromBoth(a.writes, Execute(t1, a.plan.value, a.signal, s, cfg.costs).writes, FirstExecution(s));
    }
  }

  lemma {:induction false} CancelsFrom(t: Tables, ids: seq<OrderId>, control: ControlState, clock: Time, at: Time)
    ensures FillsFrom(CancelEach(t, ids, control, clock).writes, at)
  {
    if ids != [] {
      var before, id := CancelEach(t, ids[..|ids| - 1], control, clock), ids[|ids| - 1];
      CancelsFrom(t, ids[..|ids| - 1], control, clock, at);
      CancelEachGrows(t, ids, control, clock);
      var t1 := CommitAll(t, before.writes);
      if id in t1.orders {
        UpdatesFrom(t1, t1.orders[id], CancelOrder(t1.orders[id], clock).updates, at);
        FillsFromBoth(before.writes, CancelWrites(t1, id, clock).writes, at);
      }
    }
  }

  lemma {:induction false} ReleasesFrom(positions: seq<Position>, tradeDate: int, clock: Time, at: Time)
    requires forall i :: 0 <= i < |positions| ==> ValidPosition(positions[i])
    ensures FillsFrom(ReleaseEach(positions, tradeDate, clock), at)
  {
    if positions != [] {
      var front, p := positions[..|positions| - 1], positions[|positions| - 1];
      ReleasesFrom(front, tradeDate, clock, at);
      FillsFromBoth(ReleaseEach(front, tradeDate, clock), ReleaseWrites(Some(p), Some(Release(p, tradeDate, clock))),
        at);
    }
  }

  lemma {:induction false} RecoveryFrom(t: Tables, tradeDate: int, clock: Time, cash: real, at: Time)
    requires ValidTables(t) && cash > 0.0
    ensures FillsFrom(RecoverAccount(t, tradeDate, clock, cash), at)
  {
    OpenPositionsAreValid(SortedKeys(t.positions.Keys), t.positions);
    ReleasesFrom(OpenPositions(t), tradeDate, clock, at);
    FillsFromBoth(SeedWrites(t, tradeDate, clock, cash), ReleaseEach(OpenPositions(t), tradeDate, clock), at);
  }

  /** Only a submission writes fills, and none before its venue's first possible execution. */
  lemma {:induction false} StepFillsFrom(t: Tables, step: Step, cfg: Config, at: Time)
    requires ValidTables(t) && ValidConfig(cfg) && Enabled(t, step)
    requires step.Submit? ==> at <= FirstExecution(step.submission)
    ensures FillsFrom(StepTrace(t, step, cfg).writes, at)
  {
    match step {
      case Submit(s) => CallFillsFrom(t, s, cfg);
      case Cancel(id, clock) => UpdatesFrom(t, t.orders[id], CancelOrder(t.orders[id], clock).updates, at);
      case CancelAll(ids, control, clock) => CancelsFrom(t, ids, control, clock, at);
      case Recover(tradeDate, clock) => RecoveryFrom(t, tradeDate, clock, cfg.initialCash, at);
    }
  }

  /** A step fits as soon as the venue's clock is at most a second behind the last booking and
      its date not behind the releases. The submission may have been received at any time:
      before the last booking's stamp too. */
  lemma {:induction false} LaterVenueFits(t: Tables, step: Step, cfg: Config, d: int)
    requires ValidTables(t) && ValidConfig(cfg) && Enabled(t, step) && t.balances != []
    requires step.Submit? ==>
      Horizon(t) < FirstExecution(step.submission) && DateAfter(step, d) <= DateOf(FirstExecution(step.submission))
    ensures Fits(t, step, cfg, d)
  {
    if step.Submit? {
      var first := FirstExecution(step.submission);
      StepFillsFrom(t, step, cfg, first);
      forall f | WFill(f) in StepTrace(t, step, cfg).writes ensures DateOf(first) <= DateOf(f.fillTime) {
        DateOfIsMonotone(first, f.fillTime);
      }
    } else {
      NothingToDate(t, step, cfg, d);
    }
  }

  lemma {:induction false} NothingToDate(t: Tables, step: Step, cfg: Config, d: int)
    requires ValidTables(t) && ValidConfig(cfg) && Enabled(t, step) && t.balances != [] && !step.Submit?
    ensures Fits(t, step, cfg, d)
  {
    var start := StartOfDate(DateAfter(step, d));
    StepFillsFrom(t, step, cfg, MaxInt(Horizon(t) + 1, start));
    forall f | WFill(f) in StepTrace(t, step, cfg).writes ensures DateAfter(step, d) <= DateOf(f.fillTime) {
      DateOfIsMonotone(start, f.fillTime);
    }
  }
}
