/** A whole venue report: booked completely it leaves the tables in agreement; cut off
    anywhere after its first execution has reached the order row, it is reported. */
module Reports {
  import opened Prelude
  import opened Execution
  import opened Costs
  import opened Ledger
  import opened PaperAdapter
  import opened Store
  import opened Oms
  import opened Reconciler
  import opened LedgerAgreement
  import opened OrderAgreement
  import opened Agreement
  import opened Crashes
  import opened Marks

  // ------------------------------------------------------------- one order's rows

  /** New orders and fills of one order keep the order table telling the fill table. */
  lemma {:induction false} OrdersAgreeAfter(t: Tables, t': Tables, o: Order, fills: seq<Fill>)
    requires OrdersAgree(t) && ValidFills(fills)
    requires t'.fills == t.fills + fills && t'.orders == t.orders[o.id := o]
    requires t'.intents == t.intents && t'.intentBySignal == t.intentBySignal
    requires forall i :: 0 <= i < |fills| ==> fills[i].orderId == fills[i].id.order == o.id
    requires o.id == OrderId(o.intentId)
    requires OrderConsistent(o, Get(t.intents, o.intentId), FilledQty(t'.fills, o.id), FilledNotional(t'.fills, o.id))
    ensures OrdersAgree(t')
  {
    forall i | 0 <= i < |t'.fills|
      ensures t'.fills[i].orderId in t'.orders && t'.fills[i].id.order == t'.fills[i].orderId
    {
      assert t'.fills[i] == if i < |t.fills| then t.fills[i] else fills[i - |t.fills|];
    }
    forall id | id in t'.orders ensures OrderTellsFills(t', id) {
      if id != o.id {
        assert OrderTellsFills(t, id);
        NoFillsNoTotals(fills, id);
        TotalsOfBoth(t.fills, fills, id);
      }
    }
  }

  /** The tables with one order row replaced, and the writes that led there. */
  ghost predicate Saved(t: Tables, r: OrderTrace, row: Order) {
    && !r.raised && r.order == row
    && CommitAll(t, r.writes) == t.(orders := t.orders[row.id := row])
  }

  lemma {:induction false} NextRowMayBeSaved(t: Tables, row: Order, u: OrderUpdate)
    requires ApplyOrderUpdate(row, u).Ok?
    ensures
      var next := ApplyOrderUpdate(row, u).value;
      && next.id == row.id && next.intentId == row.intentId
      && MaySaveOrder(t.(orders := t.orders[row.id := row]), next)
  {
  }

  lemma {:induction false} SavesOneMore(t: Tables, r: OrderTrace, row: Order, next: Order)
    requires Saved(t, r, row) && next.id == row.id
    ensures Saved(t, OrderTrace(r.writes + [WOrder(next)], next, false), next)
  {
    assert (r.writes + [WOrder(next)])[..|r.writes|] == r.writes;
  }

  /** Accepted updates of a persisted order are all saved, each over the one before. */
  lemma {:induction false} UpdatesAreSaved(t: Tables, o: Order, us: seq<OrderUpdate>)
    requires o.id in t.orders && t.orders[o.id] == o && ApplyUpdates(o, us).Ok?
    ensures
      var r, row := UpdateWrites(t, o, us), ApplyUpdates(o, us).value;
      Saved(t, r, row) && |r.writes| == |us| && row.id == o.id && row.intentId == o.intentId
  {
    if us == [] {
      assert t.orders[o.id := o] == t.orders;
    } else {
      var front, u := us[..|us| - 1], us[|us| - 1];
      UpdatesAreSaved(t, o, front);
      var before, row := UpdateWrites(t, o, front), ApplyUpdates(o, front).value;
      NextRowMayBeSaved(t, row, u);
      SavesOneMore(t, before, row, ApplyOrderUpdate(row, u).value);
    }
  }

  lemma {:induction false} UpdateWritesPrefix(t: Tables, o: Order, us: seq<OrderUpdate>, k: nat)
    requires o.id in t.orders && t.orders[o.id] == o && ApplyUpdates(o, us).Ok? && k <= |us|
    ensures ApplyUpdates(o, us[..k]).Ok?
    ensures |UpdateWrites(t, o, us).writes| == |us|
    ensures UpdateWrites(t, o, us).writes[..k] == UpdateWrites(t, o, us[..k]).writes
  {
    if k == |us| {
      assert us[..k] == us;
      UpdatesAreSaved(t, o, us);
    } else {
      var front := us[..|us| - 1];
      assert front[..k] == us[..k];
      UpdateWritesPrefix(t, o, front, k);
      UpdatesAreSaved(t, o, us);
    }
  }

  // ----------------------------------------------------- what the venue may report

  /** A persisted order the venue has not touched yet. */
  ghost predicate Handed(t: Tables, o: Order, m: CostModel, d: int) {
    && Agrees(t, m, d) && Fresh(o) && o.id in t.orders && t.orders[o.id] == o
    && Submitted(t, o.intentId)
  }

  lemma {:induction false} HandedIsReady(t: Tables, o: Order, m: CostModel, d: int)
    requires Handed(t, o, m, d)
    ensures ReadyToBook(t, o.id, m, d) && o.id == OrderId(o.intentId)
    ensures o.intentId in t.intents && SameInstruction(o, t.intents[o.intentId])
  {
    assert OrderTellsFills(t, o.id);
    NoFillsNoTotals(t.fills, o.id);
  }

  lemma {:induction false} SliceUpdatesPrefix(o: Order, slices: seq<FillSlice>, default: real, base: Time, i: nat,
                                              n: nat)
    requires i <= n <= |slices|
    ensures SliceUpdates(o, slices, default, base, n)[..i] == SliceUpdates(o, slices, default, base, i)
  {
    if i < n {
      SliceUpdatesPrefix(o, slices, default, base, i, n - 1);
      var us := SliceUpdates(o, slices, default, base, n);
      assert us[..i] == us[..n - 1][..i];
    }
  }

  function PaperUpdates(o: Order, s: Scenario, default: real, base: Time): (us: seq<OrderUpdate>)
    ensures us != []
  {
    [Update(o, Ack, 0.0, None, base)] + SliceUpdates(o, s.slices, default, base, |s.slices|)
    + CancelUpdates(o, s.slices, s.cancelRemaining, default, base)
  }

  /** The order row after k of the updates: filled as far as the slices reported by then. */
  lemma {:induction false} UpdatesSoFar(o: Order, s: Scenario, default: real, base: Time, k: nat)
    requires Fresh(o) && o.submittedAt <= base && Acceptable(s.slices, o.qty, default)
    requires k <= |PaperUpdates(o, s, default, base)|
    ensures
      var r, n := ApplyUpdates(o, PaperUpdates(o, s, default, base)[..k]), |s.slices|;
      && r.Ok?
      && (k <= 1 ==> r.value.filledQty == 0.0)
      && (1 <= k <= n ==> r.value.filledQty == CumQty(s.slices, k - 1))
      && (n < k ==> r.value.filledQty == CumQty(s.slices, n))
  {
    var us, n := PaperUpdates(o, s, default, base), |s.slices|;
    if k == 0 {
      assert us[..0] == [];
    } else if k <= n + 1 {
      SliceUpdatesPrefix(o, s.slices, default, base, k - 1, n);
      assert us[..k] == [Update(o, Ack, 0.0, None, base)] + SliceUpdates(o, s.slices, default, base, k - 1);
      SlicePrefixIsAccepted(o, s.slices, default, base, k - 1);
    } else {
      assert us[..k] == us;
      ReportIsAccepted(o, s, default, base);
    }
  }

  lemma {:induction false} UpdatesKeepInstruction(o: Order, us: seq<OrderUpdate>)
    requires ValidOrder(o) && ApplyUpdates(o, us).Ok?
    ensures
      var r := ApplyUpdates(o, us).value;
      && ValidOrder(r) && r.id == o.id && r.intentId == o.intentId && r.symbol == o.symbol && r.side == o.side
      && r.orderType == o.orderType && r.qty == o.qty && r.price == o.price
  {
    if us != [] { UpdatesKeepInstruction(o, us[..|us| - 1]); }
  }

  // --------------------------------------------------------- cuts among the updates

  /** While only the order row has been written, the ledger still agrees; the order does
      exactly as long as its row shows no execution. */
  lemma {:induction false} CutAmongUpdates(t: Tables, o: Order, m: CostModel, d: int, us: seq<OrderUpdate>, k: nat)
    requires Handed(t, o, m, d) && ApplyUpdates(o, us).Ok? && k <= |us|
    ensures |UpdateWrites(t, o, us).writes| == |us| && ApplyUpdates(o, us[..k]).Ok?
    ensures
      var t', row := CommitAll(t, UpdateWrites(t, o, us).writes[..k]), ApplyUpdates(o, us[..k]).value;
      && t' == t.(orders := t.orders[o.id := row]) && row.id == o.id
      && LedgerAgrees(t', m, d)
      && (row.filledQty == 0.0 ==> Agrees(t', m, d))
  {
    UpdateWritesPrefix(t, o, us, k);
    UpdatesAreSaved(t, o, us[..k]);
    UpdatesKeepInstruction(o, us[..k]);
    HandedIsReady(t, o, m, d);
    var row := ApplyUpdates(o, us[..k]).value;
    var t' := t.(orders := t.orders[o.id := row]);
    AgreesWithoutOrders(t, t', m, d);
    if row.filledQty == 0.0 {
      UntouchedRowAgrees(t, t', row);
    }
  }

  lemma {:induction false} UntouchedRowAgrees(t: Tables, t': Tables, row: Order)
    requires OrdersAgree(t) && t' == t.(orders := t.orders[row.id := row])
    requires ValidOrder(row) && row.filledQty == 0.0 && row.id == OrderId(row.intentId)
    requires row.intentId in t.intents && SameInstruction(row, t.intents[row.intentId])
    requires ValidFills(t.fills) && NoFillsOf(t.fills, row.id)
    ensures OrdersAgree(t')
  {
    assert t'.fills == t.fills + [];
    NoFillsNoTotals(t.fills, row.id);
    OrdersAgreeAfter(t, t', row, []);
  }

  // -------------------------------------------------------------- the whole report

  /** The state once all updates are saved, and the fill writes that follow. */
  lemma {:induction false} UpdatesDone(t: Tables, o: Order, m: CostModel, s: Scenario, default: real, base: Time,
                                       d: int)
    requires Handed(t, o, m, d) && o.submittedAt <= base && Acceptable(s.slices, o.qty, default)
    ensures
      var final := FinalOrder(o, s, default, base);
      var r, t' := UpdateWrites(t, o, PaperUpdates(o, s, default, base)), t.(orders := t.orders[o.id := final]);
      && Saved(t, r, final) && CommitAll(t, r.writes) == t' && final.id == o.id
      && final.filledQty == CumQty(s.slices, |s.slices|) && ReadyToBook(t', o.id, m, d)
  {
    ReportIsAccepted(o, s, default, base);
    var us := PaperUpdates(o, s, default, base);
    assert us[..|us|] == us;
    CutAmongUpdates(t, o, m, d, us, |us|);
    UpdatesAreSaved(t, o, us);
    HandedIsReady(t, o, m, d);
  }

  lemma {:induction false} ExecutionsAreTheOrders(o: Order, m: CostModel, slices: seq<FillSlice>, default: real,
                                                  base: Time)
    requires ValidCostModel(m) && FirstError(slices, o.qty, default, |slices|).None?
    ensures
      var es := SliceEvents(o, m, slices, default, base, |slices|);
      && AllOf(es, o.id) && ValidFills(FillsOfEvents(es))
      && forall i :: 0 <= i < |es| ==> es[i].fill.orderId == es[i].fill.id.order == o.id
  {
    SliceEventsTell(o, m, slices, default, base, |slices|);
    var es := SliceEvents(o, m, slices, default, base, |slices|);
    forall i | 0 <= i < |es| ensures ValidFill(es[i].fill) && es[i].fill.orderId == es[i].fill.id.order == o.id {
      assert TellsSlice(es[i], o.id, m, base, i);
    }
  }

  /** The final order is consistent with the fills of all slices. */
  lemma {:induction false} FinalOrderIsConsistent(t: Tables, o: Order, m: CostModel, s: Scenario, default: real,
                                                  base: Time, fills: seq<Fill>)
    requires Fresh(o) && o.submittedAt <= base && Acceptable(s.slices, o.qty, default)
    requires ValidCostModel(m) && FirstError(s.slices, o.qty, default, |s.slices|).None?
    requires ValidFills(t.fills) && NoFillsOf(t.fills, o.id)
    requires o.intentId in t.intents && SameInstruction(o, t.intents[o.intentId])
    requires fills == t.fills + FillsOfEvents(SliceEvents(o, m, s.slices, default, base, |s.slices|))
    ensures FilledQty(fills, o.id) == CumQty(s.slices, |s.slices|)
    ensures OrderConsistent(FinalOrder(o, s, default, base), Get(t.intents, o.intentId),
                            FilledQty(fills, o.id), FilledNotional(fills, o.id))
  {
    NoFillsNoTotals(t.fills, o.id);
    SliceEventsAddUp(o, m, s.slices, default, base, |s.slices|);
    TotalsOfBoth(t.fills, FillsOfEvents(SliceEvents(o, m, s.slices, default, base, |s.slices|)), o.id);
    FinalOrderTellsTotals(o, s, default, base);
    TotalsArePositive(s.slices, o.qty, default, |s.slices|);
  }

  lemma {:induction false} BookedReportAgrees(t: Tables, t3: Tables, o: Order, m: CostModel, s: Scenario, default: real,
                                              base: Time, d: int)
    requires Handed(t, o, m, d) && o.submittedAt <= base && Acceptable(s.slices, o.qty, default)
    requires FirstError(s.slices, o.qty, default, |s.slices|).None?
    requires t3.fills == t.fills + FillsOfEvents(SliceEvents(o, m, s.slices, default, base, |s.slices|))
    requires t3.orders == t.orders[o.id := FinalOrder(o, s, default, base)]
    requires t3.intents == t.intents && t3.intentBySignal == t.intentBySignal
    ensures OrdersAgree(t3)
  {
    HandedIsReady(t, o, m, d);
    ExecutionsAreTheOrders(o, m, s.slices, default, base);
    FinalOrderIsConsistent(t, o, m, s, default, base, t3.fills);
    OrdersAgreeAfter(t, t3, FinalOrder(o, s, default, base),
                     FillsOfEvents(SliceEvents(o, m, s.slices, default, base, |s.slices|)));
  }

  // ------------------------------------------------------------------ every cut

  /** A cut after an execution has reached the order row and before the last balance. */
  predicate Torn(report: ExecutionReport, w: Trace, k: nat) {
    report.fills != [] && 2 <= k && (k < |w.writes| || w.raised)
  }

  /** What a cut comes to: reported if torn, in agreement if not. */
  ghost predicate Verdict(t: Tables, torn: bool, m: CostModel, d: int)
    requires ValidCostModel(m)
  {
    if torn then Lasting(t, m) else Agrees(t, m, d)
  }

  /** An order row that shows executions no fill row backs. */
  lemma {:induction false} RowAheadIsLasting(t: Tables, t': Tables, row: Order, m: CostModel)
    requires ValidCostModel(m) && ValidTables(t') && ValidFills(t.fills) && NoFillsOf(t.fills, row.id)
    requires t' == t.(orders := t.orders[row.id := row]) && row.filledQty > 0.0 && Submitted(t, row.id.intent)
    ensures Lasting(t', m)
  {
    NoFillsNoTotals(t.fills, row.id);
    AheadIsLasting(t', m, row.id);
  }

  lemma {:induction false} CutInsideUpdates(t: Tables, o: Order, m: CostModel, d: int, us: seq<OrderUpdate>, k: nat,
                                            t': Tables)
    requires Handed(t, o, m, d) && ApplyUpdates(o, us).Ok?
    requires k <= |us| <= |UpdateWrites(t, o, us).writes|
    requires t' == CommitAll(t, UpdateWrites(t, o, us).writes[..k])
    ensures ApplyUpdates(o, us[..k]).Ok?
    ensures
      var row := ApplyUpdates(o, us[..k]).value;
      && (row.filledQty == 0.0 ==> Agrees(t', m, d))
      && (row.filledQty > 0.0 ==> Lasting(t', m))
  {
    CutAmongUpdates(t, o, m, d, us, k);
    HandedIsReady(t, o, m, d);
    var row := ApplyUpdates(o, us[..k]).value;
    if row.filledQty > 0.0 {
      RowAheadIsLasting(t, t', row, m);
    }
  }

  lemma {:induction false} FirstPart(t: Tables, u: seq<Write>, f: seq<Write>, k: nat, t': Tables)
    requires k <= |u| && t' == CommitAll(t, (u + f)[..k])
    ensures t' == CommitAll(t, u[..k])
  {
    assert (u + f)[..k] == u[..k];
  }

  lemma {:induction false} SecondPart(t: Tables, u: seq<Write>, t1: Tables, f: seq<Write>, k: nat, j: nat,
                                      t': Tables)
    requires k == |u| + j <= |u + f| && t1 == CommitAll(t, u) && t' == CommitAll(t, (u + f)[..k])
    ensures t' == CommitAll(t1, f[..j])
  {
    assert (u + f)[..k] == u + f[..j];
    CommitAllConcat(t, u, f[..j]);
  }

  /** A cut of two runs of writes lies in the first, or in the second after all of the first. */
  lemma {:induction false} JoinedCut(t: Tables, u: seq<Write>, t1: Tables, f: seq<Write>, k: nat, t': Tables)
    requires k <= |u + f| && t1 == CommitAll(t, u) && t' == CommitAll(t, (u + f)[..k])
    ensures k <= |u| ==> t' == CommitAll(t, u[..k])
    ensures k >= |u| ==> t' == CommitAll(t1, f[..k - |u|])
  {
    if k <= |u| {
      FirstPart(t, u, f, k, t');
    }
    if k >= |u| {
      SecondPart(t, u, t1, f, k, k - |u|, t');
    }
  }

  /** The row after k updates shows an execution exactly from the second update of a
      report with executions on. */
  lemma {:induction false} RowShowsExecutions(o: Order, s: Scenario, default: real, base: Time, k: nat)
    requires Fresh(o) && o.submittedAt <= base && Acceptable(s.slices, o.qty, default)
    requires k <= |PaperUpdates(o, s, default, base)|
    ensures ApplyUpdates(o, PaperUpdates(o, s, default, base)[..k]).Ok?
    ensures
      var row := ApplyUpdates(o, PaperUpdates(o, s, default, base)[..k]).value;
      if s.slices != [] && k >= 2 then row.filledQty > 0.0 else row.filledQty == 0.0
  {
    UpdatesSoFar(o, s, default, base, k);
    TotalsArePositive(s.slices, o.qty, default, |s.slices|);
    if 1 <= k <= |s.slices| { TotalsArePositive(s.slices, o.qty, default, k - 1); }
  }

  lemma {:induction false} CutBeforeFills(t: Tables, o: Order, m: CostModel, s: Scenario, default: real, base: Time,
                                          d: int, us: seq<OrderUpdate>, k: nat, t': Tables, torn: bool)
    requires Handed(t, o, m, d) && o.submittedAt <= base && Acceptable(s.slices, o.qty, default)
    requires us == PaperUpdates(o, s, default, base) && k <= |us| <= |UpdateWrites(t, o, us).writes|
    requires t' == CommitAll(t, UpdateWrites(t, o, us).writes[..k]) && torn == (s.slices != [] && k >= 2)
    ensures Verdict(t', torn, m, d)
  {
    ReportIsAccepted(o, s, default, base);
    RowShowsExecutions(o, s, default, base, k);
    CutInsideUpdates(t, o, m, d, us, k, t');
  }

  /** A cut among the fill writes, all order updates saved: t2 is the state they start from. */
  lemma {:induction false} CutFillsAreLasting(t: Tables, t2: Tables, o: Order, m: CostModel, s: Scenario,
                                               default: real, base: Time, d: int, es: seq<FillEvent>, w: Trace,
                                               j: nat)
    requires Handed(t, o, m, d) && o.submittedAt <= base && Acceptable(s.slices, o.qty, default)
    requires FirstError(s.slices, o.qty, default, |s.slices|).None?
    requires es == SliceEvents(o, m, s.slices, default, base, |s.slices|)
    requires t2 == t.(orders := t.orders[o.id := FinalOrder(o, s, default, base)])
    requires ReadyToBook(t2, o.id, m, d) && (es != [] ==> Awaits(t2, base, d))
    requires w == AllFillWrites(t2, es) && j <= |w.writes| && (j < |w.writes| || w.raised)
    ensures Lasting(CommitAll(t2, w.writes[..j]), m)
  {
    HandedIsReady(t, o, m, d);
    ExecutionsAreTheOrders(o, m, s.slices, default, base);
    SlicesAreBookable(t2, o, m, s.slices, default, base, d);
    FinalOrderIsConsistent(t, o, m, s, default, base, t2.fills + FillsOfEvents(es));
    CutEventsAreLasting(t2, es, o.id, m, d, j);
  }

  lemma {:induction false} BookedFillsAgree(t: Tables, t2: Tables, o: Order, m: CostModel, s: Scenario, default: real,
                                            base: Time, d: int, es: seq<FillEvent>, w: Trace)
    requires Handed(t, o, m, d) && o.submittedAt <= base && Acceptable(s.slices, o.qty, default)
    requires FirstError(s.slices, o.qty, default, |s.slices|).None?
    requires es == SliceEvents(o, m, s.slices, default, base, |s.slices|)
    requires t2 == t.(orders := t.orders[o.id := FinalOrder(o, s, default, base)])
    requires ReadyToBook(t2, o.id, m, d) && (es != [] ==> Awaits(t2, base, d))
    requires w == AllFillWrites(t2, es) && !w.raised
    ensures Agrees(CommitAll(t2, w.writes), m, d)
  {
    SlicesAreBookable(t2, o, m, s.slices, default, base, d);
    EventsAgree(t2, es, m, d);
    BookedReportAgrees(t, CommitAll(t2, w.writes), o, m, s, default, base, d);
  }

  lemma {:induction false} WholeIsUncut<T>(xs: seq<T>)
    ensures xs[..|xs|] == xs
  {
  }

  lemma {:induction false} CutAmongFills(t: Tables, t2: Tables, o: Order, m: CostModel, s: Scenario, default: real,
                                         base: Time, d: int, es: seq<FillEvent>, w: Trace, j: nat,
                                         t': Tables, torn: bool)
    requires Handed(t, o, m, d) && o.submittedAt <= base && Acceptable(s.slices, o.qty, default)
    requires FirstError(s.slices, o.qty, default, |s.slices|).None?
    requires es == SliceEvents(o, m, s.slices, default, base, |s.slices|)
    requires t2 == t.(orders := t.orders[o.id := FinalOrder(o, s, default, base)])
    requires ReadyToBook(t2, o.id, m, d) && (es != [] ==> Awaits(t2, base, d))
    requires w == AllFillWrites(t2, es) && j <= |w.writes|
    requires t' == CommitAll(t2, w.writes[..j]) && torn == (j < |w.writes| || w.raised)
    ensures Verdict(t', torn, m, d)
  {
    WholeIsUncut(w.writes);
    if j < |w.writes| || w.raised {
      CutFillsAreLasting(t, t2, o, m, s, default, base, d, es, w, j);
    } else {
      BookedFillsAgree(t, t2, o, m, s, default, base, d, es, w);
    }
  }

  // ------------------------------------------------------------ when fills are dated

  /** Every fill written is later than a time and not of a date before another. */
  ghost predicate FillsAfter(ws: seq<Write>, h: Time, d: int) {
    forall f :: WFill(f) in ws ==> h < f.fillTime && d <= DateOf(f.fillTime)
  }

  /** Nothing booked by the first writes, the second ones still come after everything booked. */
  lemma {:induction false} LaterFillsAfter(t: Tables, a: seq<Write>, t1: Tables, b: seq<Write>, d: int)
    requires t.balances != [] && t1.balances == t.balances && FillsAfter(a + b, Horizon(t), d)
    ensures FillsAfter(b, Horizon(t1), d)
  {
    forall f | WFill(f) in b ensures WFill(f) in a + b {
    }
  }

  /** The first of new events is written, whatever becomes of it. */
  lemma {:induction false} FirstFillIsWritten(t: Tables, es: seq<FillEvent>)
    requires ValidTables(t) && ValidFillEvents(es) && es != [] && !HasFill(t, es[0].fill.id)
    ensures WFill(es[0].fill) in AllFillWrites(t, es).writes
  {
    FillWritesGrow(t, es);
    var front := es[..|es| - 1];
    if front == [] {
      assert CommitAll(t, []) == t;
      var ws := FillWrites(t, es[0]).writes;
      assert ws[0] == WFill(es[0].fill);
      assert AllFillWrites(t, es).writes == [] + ws;
    } else {
      FirstFillIsWritten(t, front);
    }
  }

  lemma {:induction false} NewFill(t: Tables, o: OrderId, m: CostModel, d: int, id: FillId)
    requires ReadyToBook(t, o, m, d) && id.order == o
    ensures !HasFill(t, id)
  {
  }

  lemma {:induction false} FillsAwait(t: Tables, o: Order, m: CostModel, slices: seq<FillSlice>, default: real,
                                      base: Time, d: int, es: seq<FillEvent>)
    requires ReadyToBook(t, o.id, m, d) && FirstError(slices, o.qty, default, |slices|).None?
    requires es == SliceEvents(o, m, slices, default, base, |slices|)
    requires FillsAfter(AllFillWrites(t, es).writes, Horizon(t), d)
    ensures es != [] ==> Awaits(t, base, d)
  {
    SliceEventsTell(o, m, slices, default, base, |slices|);
    if es != [] {
      assert TellsSlice(es[0], o.id, m, base, 0);
      NewFill(t, o.id, m, d, es[0].fill.id);
      FirstFillIsWritten(t, es);
    }
  }

  // -------------------------------------------------------------- the whole report

  lemma {:induction false} RejectionIsAccepted(o: Order, base: Time)
    requires Fresh(o) && o.submittedAt <= base
    ensures
      var us := [Update(o, Rejected, 0.0, None, base)];
      && us[..0] == [] && us[..1] == us
      && ApplyUpdates(o, us) == Ok(o.(status := Rejected, updatedAt := base))
  {
  }

  lemma {:induction false} RejectedReportCut(t: Tables, o: Order, m: CostModel, base: Time, d: int, w: Trace, k: nat,
                                             t': Tables)
    requires Handed(t, o, m, d) && o.submittedAt <= base
    requires w == ReportWrites(t, o, RejectReport(o, base)) && k <= |w.writes| && t' == CommitAll(t, w.writes[..k])
    ensures Agrees(t', m, d)
  {
    var us := [Update(o, Rejected, 0.0, None, base)];
    RejectionIsAccepted(o, base);
    UpdatesAreSaved(t, o, us);
    assert UpdateWrites(t, o, us).writes + [] == UpdateWrites(t, o, us).writes;
    CutAmongUpdates(t, o, m, d, us, k);
  }

  /** A first update that the order refuses stops the report before anything is written. */
  lemma {:induction false} RefusedAtOnce(t: Tables, o: Order, us: seq<OrderUpdate>)
    requires us != [] && ApplyOrderUpdate(o, us[0]).Error?
    ensures UpdateWrites(t, o, us) == OrderTrace([], o, true)
  {
    if |us| == 1 {
      assert UpdateWrites(t, o, us[..0]) == OrderTrace([], o, false);
    } else {
      RefusedAtOnce(t, o, us[..|us| - 1]);
    }
  }

  /** A venue clock behind the submission writes nothing: the acknowledgement is refused. */
  lemma {:induction false} EarlyReportIsRefused(t: Tables, o: Order, m: CostModel, s: Scenario, default: real,
                                                base: Time, report: ExecutionReport)
    requires ValidTables(t) && ValidCostModel(m) && Fresh(o) && base < o.submittedAt
    requires PaperReport(o, m, s, default, base) == Ok(report) && ValidFillEvents(report.fills)
    ensures ReportWrites(t, o, report) == Trace([], true)
  {
    RefusedAtOnce(t, o, report.updates);
  }

  /** A report's writes: the order rows, then the writes of its executions. */
  lemma {:induction false} ReportIsUpdatesThenFills(t: Tables, o: Order, m: CostModel, s: Scenario, default: real,
                                                    base: Time, d: int, es: seq<FillEvent>)
    requires Handed(t, o, m, d) && o.submittedAt <= base && Acceptable(s.slices, o.qty, default) && ValidFillEvents(es)
    ensures
      var us, t2 := PaperUpdates(o, s, default, base), t.(orders := t.orders[o.id := FinalOrder(o, s, default, base)]);
      var u := UpdateWrites(t, o, us).writes;
      && |u| == |us| && CommitAll(t, u) == t2 && ReadyToBook(t2, o.id, m, d) && ValidTables(t2)
      && ReportWrites(t, o, ExecutionReport(us, es))
         == Trace(u + AllFillWrites(t2, es).writes, AllFillWrites(t2, es).raised)
  {
    ReportIsAccepted(o, s, default, base);
    UpdatesAreSaved(t, o, PaperUpdates(o, s, default, base));
    UpdatesDone(t, o, m, s, default, base, d);
  }

  lemma {:induction false} RowsBeforeFills(o: Order, m: CostModel, s: Scenario, default: real, base: Time)
    requires ValidCostModel(m) && FirstError(s.slices, o.qty, default, |s.slices|).None?
    ensures
      var us, es := PaperUpdates(o, s, default, base), SliceEvents(o, m, s.slices, default, base, |s.slices|);
      && (es == [] <==> s.slices == [])
      && (es != [] ==> |us| >= 2)
  {
  }

  lemma {:induction false} FillsPartCut(t: Tables, u: seq<Write>, t2: Tables, o: Order, m: CostModel, s: Scenario,
                                        default: real, base: Time, d: int, es: seq<FillEvent>, f: Trace, k: nat,
                                        j: nat, t': Tables, torn: bool)
    requires Handed(t, o, m, d) && o.submittedAt <= base && Acceptable(s.slices, o.qty, default)
    requires FirstError(s.slices, o.qty, default, |s.slices|).None?
    requires es == SliceEvents(o, m, s.slices, default, base, |s.slices|)
    requires t2 == CommitAll(t, u) && t2 == t.(orders := t.orders[o.id := FinalOrder(o, s, default, base)])
    requires ReadyToBook(t2, o.id, m, d) && f == AllFillWrites(t2, es) && (es != [] ==> Awaits(t2, base, d))
    requires k == |u| + j <= |u + f.writes| && t' == CommitAll(t, (u + f.writes)[..k]) && ValidCostModel(m)
    requires torn == (j < |f.writes| || f.raised)
    ensures Verdict(t', torn, m, d)
  {
    SecondPart(t, u, t2, f.writes, k, j, t');
    CutAmongFills(t, t2, o, m, s, default, base, d, es, f, j, t', torn);
  }

  /** The cut of an accepted report: u are its order rows, f the writes of its executions. */
  lemma {:induction false} AcceptedReportCut(t: Tables, o: Order, m: CostModel, s: Scenario, default: real,
                                             base: Time, d: int, us: seq<OrderUpdate>, u: seq<Write>, t2: Tables,
                                             es: seq<FillEvent>, f: Trace, k: nat, t': Tables, torn: bool)
    requires Handed(t, o, m, d) && o.submittedAt <= base && Acceptable(s.slices, o.qty, default)
    requires FirstError(s.slices, o.qty, default, |s.slices|).None?
    requires es == SliceEvents(o, m, s.slices, default, base, |s.slices|)
    requires us == PaperUpdates(o, s, default, base) && u == UpdateWrites(t, o, us).writes && |u| == |us|
    requires t2 == CommitAll(t, u) && t2 == t.(orders := t.orders[o.id := FinalOrder(o, s, default, base)])
    requires ReadyToBook(t2, o.id, m, d) && f == AllFillWrites(t2, es) && (es != [] ==> Awaits(t2, base, d))
    requires k <= |u + f.writes| && t' == CommitAll(t, (u + f.writes)[..k]) && ValidCostModel(m)
    requires torn == (es != [] && 2 <= k && (k < |u + f.writes| || f.raised))
    ensures Verdict(t', torn, m, d)
  {
    RowsBeforeFills(o, m, s, default, base);
    if k < |u| || es == [] {
      FirstPart(t, u, f.writes, k, t');
      CutBeforeFills(t, o, m, s, default, base, d, us, k, t', torn);
    } else {
      FillsPartCut(t, u, t2, o, m, s, default, base, d, es, f, k, k - |u|, t', torn);
    }
  }

  lemma {:induction false} PaperReportCut(t: Tables, o: Order, m: CostModel, s: Scenario, default: real, base: Time,
                                          d: int, report: ExecutionReport, w: Trace, k: nat, t': Tables)
    requires Handed(t, o, m, d) && o.submittedAt <= base && !s.rejected
    requires PaperReport(o, m, s, default, base) == Ok(report)
    requires ValidFillEvents(report.fills) && w == ReportWrites(t, o, report) && FillsAfter(w.writes, Horizon(t), d)
    requires k <= |w.writes| && t' == CommitAll(t, w.writes[..k])
    ensures Verdict(t', Torn(report, w, k), m, d)
  {
    var us, es := PaperUpdates(o, s, default, base), SliceEvents(o, m, s.slices, default, base, |s.slices|);
    assert report == ExecutionReport(us, es);
    ReportIsUpdatesThenFills(t, o, m, s, default, base, d, es);
    var u, t2 := UpdateWrites(t, o, us).writes, t.(orders := t.orders[o.id := FinalOrder(o, s, default, base)]);
    var f := AllFillWrites(t2, es);
    LaterFillsAfter(t, u, t2, f.writes, d);
    FillsAwait(t2, o, m, s.slices, default, base, d, es);
    AcceptedReportCut(t, o, m, s, default, base, d, us, u, t2, es, f, k, t', Torn(report, w, k));
  }

  /** Crash detection. Cut the writes of a report anywhere: once an execution has reached
      the order row, and until the last balance is written, the reconciler reports it;
      at every other point the tables agree. */
  lemma {:induction false} ReportCut(t: Tables, o: Order, m: CostModel, s: Scenario, default: real, base: Time, d: int,
                                     report: ExecutionReport, w: Trace, k: nat, t': Tables)
    requires Handed(t, o, m, d) && PaperReport(o, m, s, default, base) == Ok(report)
    requires ValidFillEvents(report.fills) && w == ReportWrites(t, o, report) && FillsAfter(w.writes, Horizon(t), d)
    requires k <= |w.writes| && t' == CommitAll(t, w.writes[..k])
    ensures Verdict(t', Torn(report, w, k), m, d)
  {
    if base < o.submittedAt {
      EarlyReportIsRefused(t, o, m, s, default, base, report);
      assert w.writes[..k] == [];
    } else if s.rejected {
      RejectedReportCut(t, o, m, base, d, w, k, t');
    } else {
      PaperReportCut(t, o, m, s, default, base, d, report, w, k, t');
    }
  }
}
