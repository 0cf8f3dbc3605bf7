/** Under a protective control state positions only shrink. */
module Protection {
  import opened Prelude
  import opened Execution
  import opened Costs
  import opened Ledger
  import opened PaperAdapter
  import opened Planner
  import opened RiskGate
  import opened Store
  import opened Oms
  import opened Reconciler
  import opened OrderAgreement
  import opened Submissions
  import opened Runs

  function QtyOf(t: Tables, s: Symbol): real { if s in t.positions then t.positions[s].qty else 0.0 }

  /** A position may only shrink, and an intent not yet submitted may only sell. */
  predicate Reduces(t: Tables, w: Write) {
    match w
    case WPosition(p) => p.symbol in t.positions && p.qty <= t.positions[p.symbol].qty
    case WIntent(i) => i.status == IntentSubmitted || i.side == Sell
    case _ => true
  }

  /** No intent is waiting to buy. */
  ghost predicate NoPendingBuys(t: Tables) {
    forall id :: id in t.intents ==> t.intents[id].status == IntentSubmitted || t.intents[id].side == Sell
  }

  lemma {:induction false} ReducingWrites(t: Tables, ws: seq<Write>)
    requires Every(Reduces, t, ws)
    ensures forall s :: QtyOf(CommitAll(t, ws), s) <= QtyOf(t, s)
    ensures NoPendingBuys(t) ==> NoPendingBuys(CommitAll(t, ws))
  {
    if ws != [] {
      ReducingWrites(t, ws[..|ws| - 1]);
      var t1, w := CommitAll(t, ws[..|ws| - 1]), ws[|ws| - 1];
      assert Reduces(t1, w);
      assert forall s :: QtyOf(Commit(t1, w), s) <= QtyOf(t1, s);
    }
  }

  // -------------------------------------------------------------- report writes

  ghost predicate AllTrade(es: seq<FillEvent>, o: Order) {
    forall i :: 0 <= i < |es| ==> es[i].fill.side == o.side && es[i].fill.symbol == o.symbol
  }

  lemma {:induction false} SliceEventTrades(o: Order, m: CostModel, slices: seq<FillSlice>, default: real, base: Time,
                                            i: nat)
    requires ValidCostModel(m) && i < |slices| && SliceError(slices, o.qty, default, i).None?
    ensures AllTrade([SliceEvent(o, m, slices, default, base, i)], o)
  {
  }

  lemma {:induction false} SliceEventsTrade(o: Order, m: CostModel, slices: seq<FillSlice>, default: real, base: Time,
                                            n: nat)
    requires ValidCostModel(m) && n <= |slices| && FirstError(slices, o.qty, default, n).None?
    ensures AllTrade(SliceEvents(o, m, slices, default, base, n), o)
  {
    if n > 0 {
      SliceEventsTrade(o, m, slices, default, base, n - 1);
      SliceEventTrades(o, m, slices, default, base, n - 1);
      var last := SliceEvent(o, m, slices, default, base, n - 1);
      assert [last][0] == last;
    }
  }

  /** Every execution reported trades the order's symbol on the order's side. */
  lemma {:induction false} VenueFillsTrade(o: Order, i: OrderIntent, m: CostModel, s: Submission)
    requires ValidOrder(o) && ValidCostModel(m)
    ensures
      var r := SubmitOrder(o, i, m, s.scenario, s.venueTime);
      r.Ok? ==> ValidFillEvents(r.value.fills) && AllTrade(r.value.fills, o)
  {
    VenueReports(o, i, m, s);
    var sc, d := VenueScenario(o, i, s.scenario), DefaultPrice(o, i);
    if SubmitOrder(o, i, m, s.scenario, s.venueTime).Ok? && !sc.rejected {
      SliceEventsTrade(o, m, sc.slices, d, s.venueTime, |sc.slices|);
    }
  }

  /** Rules that allow order rows, new snapshots and T+1 releases wherever they are written. */
  ghost predicate AllowsUpkeep(ok: (Tables, Write) -> bool) {
    && (forall t, o :: ok(t, WOrder(o)))
    && (forall t, b :: ok(t, WBalance(b)))
    && (forall t, p :: SameHolding(t, p) ==> ok(t, WPosition(p)))
  }

  /** The position as persisted, but for what is sellable and when it was updated. */
  predicate SameHolding(t: Tables, p: Position) {
    p.symbol in t.positions && t.positions[p.symbol] == p.(sellableQty := t.positions[p.symbol].sellableQty,
                                                          updatedAt := t.positions[p.symbol].updatedAt)
  }

  lemma {:induction false} UpdatesAllowed(ok: (Tables, Write) -> bool, t: Tables, o: Order, us: seq<OrderUpdate>)
    requires AllowsUpkeep(ok)
    ensures Every(ok, t, UpdateWrites(t, o, us).writes)
  {
    if us != [] {
      UpdatesAllowed(ok, t, o, us[..|us| - 1]);
      var before, r := UpdateWrites(t, o, us[..|us| - 1]), UpdateWrites(t, o, us);
      if r.writes != before.writes {
        assert r.writes[..|r.writes| - 1] == before.writes;
      }
    }
  }

  lemma {:induction false} SellReduces(t: Tables, e: FillEvent)
    requires ValidTables(t) && ValidFillEvent(e) && e.fill.side == Sell
    ensures Every(Reduces, t, FillWrites(t, e).writes)
  {
    var ws := FillWrites(t, e).writes;
    if |ws| == 1 {
      EveryOne(Reduces, t, WFill(e.fill));
    } else if |ws| == 3 {
      assert ws == [ws[0], ws[1], ws[2]];
      EveryThree(Reduces, t, ws[0], ws[1], ws[2]);
    }
  }

  lemma {:induction false} SellsReduce(t: Tables, es: seq<FillEvent>)
    requires ValidTables(t) && ValidFillEvents(es) && forall i :: 0 <= i < |es| ==> es[i].fill.side == Sell
    ensures Every(Reduces, t, AllFillWrites(t, es).writes)
  {
    if es != [] {
      SellsReduce(t, es[..|es| - 1]);
      FillWritesGrow(t, es);
      var before := AllFillWrites(t, es[..|es| - 1]).writes;
      SellReduces(CommitAll(t, before), es[|es| - 1]);
      EveryBoth(Reduces, t, before, FillWrites(CommitAll(t, before), es[|es| - 1]).writes);
    }
  }

  lemma {:induction false} ReportReduces(t: Tables, o: Order, report: ExecutionReport)
    requires ValidTables(t) && ValidFillEvents(report.fills) && AllTrade(report.fills, o) && o.side == Sell
    ensures Every(Reduces, t, ReportWrites(t, o, report).writes)
  {
    var u := UpdateWrites(t, o, report.updates);
    UpdatesAllowed(Reduces, t, o, report.updates);
    if !u.raised {
      WritesKeepTablesValid(t, u.writes);
      var t1 := CommitAll(t, u.writes);
      SellsReduce(t1, report.fills);
      EveryBoth(Reduces, t, u.writes, AllFillWrites(t1, report.fills).writes);
    }
  }

  // ------------------------------------------------------------------- one call

  lemma {:induction false} LaunchReduces(t: Tables, i: OrderIntent, s: Submission, m: CostModel)
    requires ValidTables(t) && ValidIntent(i) && ValidCostModel(m) && i.side == Sell
    ensures Every(Reduces, t, Launch(t, i, s, m).writes)
  {
    var o := CreateOrderFromIntent(i, s.receivedAt);
    VenueFillsTrade(o, i, m, s);
    EveryTwo(Reduces, t, WOrder(o), WOrder(o));
    var handed := [WOrder(o), WIntent(i.(status := IntentSubmitted))];
    EveryTwo(Reduces, t, handed[0], handed[1]);
    WritesKeepTablesValid(t, handed);
    var report := SubmitOrder(o, i, m, s.scenario, s.venueTime);
    if MaySaveOrder(t, o) && report.Ok? {
      ReportReduces(CommitAll(t, handed), o, report.value);
      EveryBoth(Reduces, t, handed, ReportWrites(CommitAll(t, handed), o, report.value).writes);
    }
  }

  /** A call that works with a selling intent only reduces. */
  lemma {:induction false} ExecuteReduces(t: Tables, plan: Plan, signal: Signal, s: Submission, m: CostModel)
    requires ValidTables(t) && ValidCostModel(m) && Actionable(plan) && s.decisionPrice.Some? && plan.side == Some(Sell)
    requires IntentOf(t, signal.id).Some? ==>
      IntentOf(t, signal.id).value.status == IntentSubmitted || IntentOf(t, signal.id).value.side == Sell
    ensures Every(Reduces, t, Execute(t, plan, signal, s, m).writes)
  {
    var planned := IntentFor(plan, signal, s);
    if ValidIntent(planned) {
      var found := IntentOf(t, signal.id);
      var intent := if found.Some? then found.value else planned;
      var saved := if found.Some? then [] else [WIntent(planned)];
      if found.None? { EveryOne(Reduces, t, WIntent(planned)); }
      WritesKeepTablesValid(t, saved);
      var t1 := CommitAll(t, saved);
      if intent.status == IntentSubmitted {
        var o := CreateOrderFromIntent(intent, s.receivedAt);
        EveryOne(Reduces, t1, WOrder(o));
        EveryBoth(Reduces, t, saved, if o.id in t1.orders then [] else [WOrder(o)]);
      } else {
        LaunchReduces(t1, intent, s, m);
        EveryBoth(Reduces, t, saved, Launch(t1, intent, s, m).writes);
      }
    }
  }

  lemma {:induction false} AdmissionReduces(t: Tables, s: Submission, policy: Policy)
    requires ValidTables(t) && ValidSubmission(s)
    ensures Every(Reduces, t, Admit(t, s, policy).writes)
    ensures CommitAll(t, Admit(t, s, policy).writes).intents == t.intents
    ensures CommitAll(t, Admit(t, s, policy).writes).intentBySignal == t.intentBySignal
  {
    AdmissionShape(t, s, policy);
    var ws := Admit(t, s, policy).writes;
    EveryOne(Reduces, t, ws[0]);
    CommitOne(t, ws[0]);
    if |ws| == 2 {
      assert ws == [ws[0], ws[1]];
      EveryTwo(Reduces, t, ws[0], ws[1]);
      CommitTwo(t, ws[0], ws[1]);
    }
  }

  /** An admitted plan under a protective state sells. */
  lemma {:induction false} ProtectiveSubmissionReduces(t: Tables, s: Submission, cfg: Config)
    requires ValidTables(t) && ValidSubmission(s) && ValidConfig(cfg) && Protective(s.control) && NoPendingBuys(t)
    ensures Every(Reduces, t, SubmitSignal(t, s, cfg).writes)
  {
    var a := Admit(t, s, cfg.policy);
    AdmissionReduces(t, s, cfg.policy);
    if s.leaseHeld && !a.raised && !a.decision.Reject? && a.plan.Some? && Actionable(a.plan.value) {
      var t1 := CommitAll(t, a.writes);
      WritesKeepTablesValid(t, a.writes);
      AdmittedSells(t, s, cfg.policy);
      ExecuteReduces(t1, a.plan.value, a.signal, s, cfg.costs);
      EveryBoth(Reduces, t, a.writes, Execute(t1, a.plan.value, a.signal, s, cfg.costs).writes);
    }
  }

  lemma {:induction false} AdmittedSells(t: Tables, s: Submission, policy: Policy)
    requires ValidTables(t) && ValidSubmission(s) && Protective(s.control)
    requires
      var a := Admit(t, s, policy);
      a.decision.Allow? && a.plan.Some? && Actionable(a.plan.value)
    ensures Admit(t, s, policy).plan.value.side == Some(Sell)
  {
  }

  // ---------------------------------------------------------------- whole runs

  lemma {:induction false} CancelsAllowed(ok: (Tables, Write) -> bool, t: Tables, ids: seq<OrderId>,
                                          control: ControlState, at: Time)
    requires AllowsUpkeep(ok)
    ensures Every(ok, t, CancelEach(t, ids, control, at).writes)
  {
    if ids != [] {
      CancelsAllowed(ok, t, ids[..|ids| - 1], control, at);
      CancelEachGrows(t, ids, control, at);
      var before, id := CancelEach(t, ids[..|ids| - 1], control, at).writes, ids[|ids| - 1];
      var t1 := CommitAll(t, before);
      if id in t1.orders {
        UpdatesAllowed(ok, t1, t1.orders[id], CancelOrder(t1.orders[id], at).updates);
        EveryBoth(ok, t, before, CancelWrites(t1, id, at).writes);
      }
    }
  }

  ghost predicate SameHoldings(t: Tables, t': Tables) {
    forall s :: s in t.positions ==> s in t'.positions && t'.positions[s].symbol == s && SameHolding(t, t'.positions[s])
  }

  lemma {:induction false} ReleaseIsAllowed(ok: (Tables, Write) -> bool, t: Tables, t1: Tables, s: Symbol,
                                            tradeDate: int, at: Time)
    requires AllowsUpkeep(ok) && ValidTables(t) && SameHoldings(t, t1) && s in t.positions
    ensures ok(t1, WPosition(Release(t.positions[s], tradeDate, at)))
    ensures SameHoldings(t, Commit(t1, WPosition(Release(t.positions[s], tradeDate, at))))
  {
    assert SameHolding(t, t1.positions[s]);
    assert SameHolding(t1, Release(t.positions[s], tradeDate, at));
  }

  lemma {:induction false} ReleasesAllowed(ok: (Tables, Write) -> bool, t: Tables, symbols: seq<Symbol>,
                                           tradeDate: int, at: Time)
    requires ValidTables(t) && AllowsUpkeep(ok)
    ensures forall i :: 0 <= i < |OpenAmong(symbols, t.positions)| ==> ValidPosition(OpenAmong(symbols, t.positions)[i])
    ensures
      var ws := ReleaseEach(OpenAmong(symbols, t.positions), tradeDate, at);
      Every(ok, t, ws) && SameHoldings(t, CommitAll(t, ws))
  {
    OpenPositionsAreValid(symbols, t.positions);
    if symbols != [] {
      var front, s := symbols[..|symbols| - 1], symbols[|symbols| - 1];
      ReleasesAllowed(ok, t, front, tradeDate, at);
      ReleaseEachGrows(t, symbols, tradeDate, at);
      if s in t.positions {
        var before := ReleaseEach(OpenAmong(front, t.positions), tradeDate, at);
        var w := WPosition(Release(t.positions[s], tradeDate, at));
        ReleaseIsAllowed(ok, t, CommitAll(t, before), s, tradeDate, at);
        EveryOne(ok, CommitAll(t, before), w);
        EveryBoth(ok, t, before, [w]);
        CommitOne(CommitAll(t, before), w);
        CommitAllConcat(t, before, [w]);
      }
    }
  }

  lemma {:induction false} RecoveryAllowed(ok: (Tables, Write) -> bool, t: Tables, tradeDate: int, at: Time, cash: real)
    requires ValidTables(t) && cash > 0.0 && AllowsUpkeep(ok)
    ensures Every(ok, t, RecoverAccount(t, tradeDate, at, cash))
  {
    var seed := SeedWrites(t, tradeDate, at, cash);
    ReleasesAllowed(ok, t, SortedKeys(t.positions.Keys), tradeDate, at);
    var releases := ReleaseEach(OpenPositions(t), tradeDate, at);
    if seed == [] {
      assert seed + releases == releases;
    } else {
      NoOpenNoReleases(t, tradeDate, at);
      EveryOne(ok, t, seed[0]);
      assert seed + [] == seed && seed == [seed[0]];
    }
  }

  lemma {:induction false} NoOpenNoReleases(t: Tables, tradeDate: int, at: Time)
    requires OpenPositions(t) == []
    ensures ReleaseEach([], tradeDate, at) == []
  {
  }

  /** Cancelling and recovering write order rows, snapshots and releases only. */
  lemma {:induction false} UpkeepIsAllowed(ok: (Tables, Write) -> bool, t: Tables, step: Step, cfg: Config)
    requires ValidConfig(cfg) && ValidTables(t) && Enabled(t, step) && !step.Submit? && AllowsUpkeep(ok)
    ensures Every(ok, t, StepTrace(t, step, cfg).writes)
  {
    match step {
      case Cancel(id, at) => UpdatesAllowed(ok, t, t.orders[id], CancelOrder(t.orders[id], at).updates);
      case CancelAll(ids, control, at) => CancelsAllowed(ok, t, ids, control, at);
      case Recover(tradeDate, at) => RecoveryAllowed(ok, t, tradeDate, at, cfg.initialCash);
    }
  }

  /** A step, cut off anywhere, whose submissions are all made under a protective state. */
  ghost predicate ProtectedStep(t: Tables, step: Step, k: nat, t': Tables, cfg: Config)
    requires ValidConfig(cfg)
  {
    Steps(t, step, k, t', cfg) && (step.Submit? ==> Protective(step.submission.control))
  }

  lemma {:induction false} ProtectedStepReduces(t: Tables, step: Step, k: nat, t': Tables, cfg: Config)
    requires ValidConfig(cfg) && ProtectedStep(t, step, k, t', cfg) && NoPendingBuys(t)
    ensures forall s :: QtyOf(t', s) <= QtyOf(t, s)
    ensures NoPendingBuys(t')
  {
    if step.Submit? {
      ProtectiveSubmissionReduces(t, step.submission, cfg);
    } else {
      UpkeepIsAllowed(Reduces, t, step, cfg);
    }
    var ws := StepTrace(t, step, cfg).writes;
    EveryPrefix(Reduces, t, ws, k);
    ReducingWrites(t, ws[..k]);
  }

  ghost predicate ProtectedRun(states: seq<Tables>, steps: seq<Step>, cuts: seq<nat>, cfg: Config)
    requires ValidConfig(cfg)
  {
    && |states| == |steps| + 1 && |cuts| == |steps|
    && forall i :: 0 <= i < |steps| ==> ProtectedStep(states[i], steps[i], cuts[i], states[i + 1], cfg)
  }

  lemma {:induction false} RunReducesOnce(states: seq<Tables>, steps: seq<Step>, cuts: seq<nat>, cfg: Config, j: nat)
    requires ValidConfig(cfg) && ProtectedRun(states, steps, cuts, cfg) && j < |steps| && NoPendingBuys(states[j])
    ensures NoPendingBuys(states[j + 1]) && forall s :: QtyOf(states[j + 1], s) <= QtyOf(states[j], s)
  {
    assert ProtectedStep(states[j], steps[j], cuts[j], states[j + 1], cfg);
    ProtectedStepReduces(states[j], steps[j], cuts[j], states[j + 1], cfg);
  }

  /** Protective monotonicity: while the kill switch or protection mode stands, no quantity
      ever rises, whatever is submitted, cancelled or recovered and wherever it is cut off,
      provided no intent was left waiting to buy when the state was entered. */
  lemma {:induction false} QuantitiesNeverRise(states: seq<Tables>, steps: seq<Step>, cuts: seq<nat>, cfg: Config,
                                               i: nat, j: nat)
    requires ValidConfig(cfg) && ProtectedRun(states, steps, cuts, cfg) && NoPendingBuys(states[0])
    requires i <= j <= |steps|
    ensures NoPendingBuys(states[i]) && forall s :: QtyOf(states[j], s) <= QtyOf(states[i], s)
    decreases j
  {
    if i < j {
      QuantitiesNeverRise(states, steps, cuts, cfg, i, j - 1);
      QuantitiesNeverRise(states, steps, cuts, cfg, j - 1, j - 1);
      RunReducesOnce(states, steps, cuts, cfg, j - 1);
    } else if i > 0 {
      QuantitiesNeverRise(states, steps, cuts, cfg, i - 1, i - 1);
      RunReducesOnce(states, steps, cuts, cfg, i - 1);
    }
  }
}
