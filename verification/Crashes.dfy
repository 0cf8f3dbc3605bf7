/** A report cut off between two writes: either nothing has happened yet, or it is reported. */
module Crashes {
  import opened Prelude
  import opened Execution
  import opened Costs
  import opened Ledger
  import opened LedgerRuns
  import opened Store
  import opened Oms
  import opened Reconciler
  import opened LedgerAgreement
  import opened OrderAgreement
  import opened Agreement

  // ------------------------------------------------------- the two tell-tale signs

  /** An order whose filled quantity is not the sum of its fills, whatever else is wrong. */
  lemma {:induction false} OrderAheadIsReported(t: Tables, m: CostModel, id: OrderId)
    requires ValidCostModel(m) && ValidTables(t) && ValidFills(t.fills)
    requires id in t.orders && t.orders[id].filledQty != FilledQty(t.fills, id)
    ensures Detected(t, m)
  {
    forall facts, at | ReadFrom(facts, t) ensures Reported(facts, m, at) {
      RowsStayValid(facts, t);
      OrdersReadBack(facts, t);
      assert !OrdersConsistent(facts.orders, IntentMap(facts.intents), facts.fills);
      ReconcilerIsExact(facts, m, at);
    }
  }

  /** Booking a fill dates the balance at the fill. */
  lemma {:induction false} BookDatesBalance(pf: Portfolio, e: FillEvent)
    requires ValidPortfolio(pf) && ValidFillEvent(e) && e.cost.currency == CNY
    ensures Book(pf, e).Ok? ==> CNY in Book(pf, e).value.balances
                                && Book(pf, e).value.balances[CNY].snapshotTime == e.eventTime
  {
  }

  /** Between two writes of one fill: the fill row is there, the balance is not. */
  ghost predicate Between(t: Tables, t': Tables, e: FillEvent, m: CostModel) {
    && Rows(t', m) && Replayable(e, m)
    && t'.fills == t.fills + [e.fill] && t'.balances == t.balances && t'.orders == t.orders
  }

  /** The fold of the tables with one fill more than the balances know of. */
  lemma {:induction false} FoldIsAhead(t: Tables, t': Tables, e: FillEvent, m: CostModel)
    requires Rows(t, m) && Between(t, t', e, m) && Horizon(t) < e.eventTime
    ensures Booked(Start(t'), t'.fills, m).Ok? ==>
              !BalancesAgree(Current(t').balances, Booked(Start(t'), t'.fills, m).value.balances)
  {
    BookedGrows(Start(t), t.fills, e.fill, m);
    var booked := Booked(Start(t'), t'.fills, m);
    if booked.Ok? {
      BookDatesBalance(Booked(Start(t), t.fills, m).value, e);
      assert !BalanceAgrees(Get(Current(t').balances, CNY), Get(booked.value.balances, CNY));
    }
  }

  /** A fill whose balance has not been written: the replay either fails or is ahead of
      the latest snapshot. */
  lemma {:induction false} FillAheadIsReported(t: Tables, t': Tables, e: FillEvent, m: CostModel)
    requires Rows(t, m) && Between(t, t', e, m) && Horizon(t) < e.eventTime
    ensures Detected(t', m)
  {
    FoldIsAhead(t, t', e, m);
    forall facts, at | ReadFrom(facts, t') ensures Reported(facts, m, at) {
      FactsRestoreTables(facts, t', m);
      ReconcilerIsExact(facts, m, at);
    }
  }

  // ------------------------------------------------------------ inside the fills

  lemma {:induction false} TornRows(t: Tables, t': Tables, e: FillEvent, m: CostModel, d: int)
    requires LedgerAgrees(t, m, d) && Replayable(e, m) && Comes(t, e, d) && ValidTables(t')
    requires t'.fills == t.fills + [e.fill] && t'.balances == t.balances && t'.orders == t.orders
    ensures Between(t, t', e, m)
  {
    assert forall i :: 0 <= i < |t'.fills| ==> t'.fills[i] == if i < |t.fills| then t.fills[i] else e.fill;
  }

  lemma {:induction false} CutThreeWrites(t: Tables, e: FillEvent, p: Position, b: BalanceSnapshot, m: CostModel,
                                          d: int, k: nat)
    requires LedgerAgrees(t, m, d) && Replayable(e, m) && Comes(t, e, d) && 0 < k < 3
    requires ValidPosition(p) && ValidBalance(b) && !HasSnapshotAt(t.balances, b.asset, b.snapshotTime)
    ensures Between(t, CommitAll(t, [WFill(e.fill), WPosition(p), WBalance(b)][..k]), e, m)
  {
    var ws := [WFill(e.fill), WPosition(p), WBalance(b)];
    ThreeWrites(t, e.fill, p, b);
    WritesKeepTablesValid(t, ws[..k]);
    TornRows(t, CommitAll(t, ws[..k]), e, m, d);
  }

  lemma {:induction false} CutInsideFill(t: Tables, e: FillEvent, m: CostModel, d: int, k: nat)
    requires LedgerAgrees(t, m, d) && Replayable(e, m) && Comes(t, e, d)
    requires 0 < k <= |FillWrites(t, e).writes| && (k < 3 || FillWrites(t, e).raised)
    ensures Between(t, CommitAll(t, FillWrites(t, e).writes[..k]), e, m)
  {
    FillWritesAreABooking(t, e, m);
    var ws := FillWrites(t, e).writes;
    if FillWrites(t, e).raised {
      CommitOne(t, WFill(e.fill));
      assert ws[..k] == [WFill(e.fill)];
      WritesKeepTablesValid(t, [WFill(e.fill)]);
      TornRows(t, CommitAll(t, ws[..k]), e, m, d);
    } else {
      var after := Book(Current(t), e).value;
      CutThreeWrites(t, e, after.positions[e.fill.symbol], after.balances[CNY], m, d, k);
    }
  }

  /** What a cut leaves: i whole events, and at most one fill torn. */
  ghost predicate CutState(t: Tables, t': Tables, whole: Tables, es: seq<FillEvent>, m: CostModel, d: int, i: nat) {
    && i <= |es| && EventsBooked(t, whole, es[..i], m, d)
    && (t' == whole || (i < |es| && Comes(whole, es[i], d) && Between(whole, t', es[i], m)))
  }

  lemma {:induction false} CutAfterWhole(t: Tables, before: seq<Write>, last: Trace, es: seq<FillEvent>, e: FillEvent,
                                         m: CostModel, d: int, k: nat)
    requires EventsBooked(t, CommitAll(t, before), es, m, d)
    requires Replayable(e, m) && Comes(CommitAll(t, before), e, d)
    requires last == FillWrites(CommitAll(t, before), e)
    requires |before| <= k <= |before + last.writes| && (k < |before + last.writes| || last.raised)
    ensures CutState(t, CommitAll(t, (before + last.writes)[..k]), CommitAll(t, before), es + [e], m, d, |es|)
  {
    assert (es + [e])[..|es|] == es;
    var j := k - |before|;
    var whole := CommitAll(t, before);
    assert (before + last.writes)[..k] == before + last.writes[..j];
    CommitAllConcat(t, before, last.writes[..j]);
    if j > 0 {
      FillWritesAreABooking(whole, e, m);
      CutInsideFill(whole, e, m, d, j);
    }
  }

  /** A cut at or after the end of all but the last event, with the last one incomplete. */
  lemma {:induction false} CutInLastEvent(t: Tables, es: seq<FillEvent>, m: CostModel, d: int, k: nat)
    requires LedgerAgrees(t, m, d) && Bookable(t, es, m, d) && es != []
    requires
      var before, r := AllFillWrites(t, es[..|es| - 1]), AllFillWrites(t, es);
      !before.raised && |before.writes| <= k <= |r.writes| && (k < |r.writes| || r.raised)
    ensures
      var whole := CommitAll(t, AllFillWrites(t, es[..|es| - 1]).writes);
      CutState(t, CommitAll(t, AllFillWrites(t, es).writes[..k]), whole, es, m, d, |es| - 1)
  {
    var front, e := es[..|es| - 1], es[|es| - 1];
    assert es == front + [e];
    var before := AllFillWrites(t, front).writes;
    FrontIsBookable(t, es, m, d);
    FillWritesGrow(t, es);
    EventsAgree(t, front, m, d);
    var whole := CommitAll(t, before);
    LastComes(t, whole, es, m, d);
    assert AllFillWrites(t, es) == Trace(before + FillWrites(whole, e).writes, FillWrites(whole, e).raised);
    CutAfterWhole(t, before, FillWrites(whole, e), front, e, m, d, k);
  }

  lemma {:induction false} CutOfMoreEvents(t: Tables, t': Tables, whole: Tables, es: seq<FillEvent>, m: CostModel,
                                           d: int, i: nat)
    requires es != [] && CutState(t, t', whole, es[..|es| - 1], m, d, i)
    ensures CutState(t, t', whole, es, m, d, i)
  {
    assert es[..|es| - 1][..i] == es[..i];
  }

  /** Any cut inside the fill writes leaves some whole events booked and at most one fill torn. */
  lemma {:induction false} CutInsideFills(t: Tables, es: seq<FillEvent>, m: CostModel, d: int, k: nat)
    returns (i: nat, whole: Tables)
    requires LedgerAgrees(t, m, d) && Bookable(t, es, m, d) && k <= |AllFillWrites(t, es).writes|
    ensures
      var r := AllFillWrites(t, es);
      && CutState(t, CommitAll(t, r.writes[..k]), whole, es, m, d, i)
      && (i == |es| ==> k == |r.writes| && !r.raised)
  {
    var r := AllFillWrites(t, es);
    if k == |r.writes| && !r.raised {
      assert r.writes[..k] == r.writes && es[..|es|] == es;
      EventsAgree(t, es, m, d);
      i, whole := |es|, CommitAll(t, r.writes);
    } else {
      assert es != [];
      var front := es[..|es| - 1];
      var before := AllFillWrites(t, front);
      FillWritesGrow(t, es);
      if before.raised || k < |before.writes| {
        assert r.writes[..k] == before.writes[..k];
        FrontIsBookable(t, es, m, d);
        i, whole := CutInsideFills(t, front, m, d, k);
        CutOfMoreEvents(t, CommitAll(t, r.writes[..k]), whole, es, m, d, i);
      } else {
        i, whole := |es| - 1, CommitAll(t, before.writes);
        CutInLastEvent(t, es, m, d, k);
      }
    }
  }

  // ------------------------------------------------------ with the order row ahead

  /** Executions of one order. */
  ghost predicate AllOf(es: seq<FillEvent>, o: OrderId) {
    forall i :: 0 <= i < |es| ==> es[i].fill.orderId == o && es[i].fill.qty > 0.0
  }

  /** Any executions missing leave the order's fill total short. */
  lemma {:induction false} MissingFillsFallShort(fills: seq<Fill>, es: seq<FillEvent>, o: OrderId, i: nat)
    requires i < |es| && AllOf(es, o)
    ensures FilledQty(fills + FillsOfEvents(es[..i]), o) < FilledQty(fills + FillsOfEvents(es), o)
  {
    var n := |es| - 1;
    var all := fills + FillsOfEvents(es);
    assert all[..|all| - 1] == fills + FillsOfEvents(es[..n]);
    if i < n {
      assert es[..n][..i] == es[..i];
      MissingFillsFallShort(fills, es[..n], o, i);
    }
  }

  lemma {:induction false} OneMoreFill(fills: seq<Fill>, es: seq<FillEvent>, i: nat)
    requires i < |es|
    ensures fills + FillsOfEvents(es[..i]) + [es[i].fill] == fills + FillsOfEvents(es[..i + 1])
  {
    assert es[..i + 1][..i] == es[..i];
  }

  /** With the order row showing every execution, each cut before the last balance is reported. */
  lemma {:induction false} CutEventsAreReported(t: Tables, es: seq<FillEvent>, o: OrderId, m: CostModel, d: int, k: nat)
    requires LedgerAgrees(t, m, d) && Bookable(t, es, m, d) && AllOf(es, o)
    requires o in t.orders && t.orders[o].filledQty == FilledQty(t.fills + FillsOfEvents(es), o)
    requires k <= |AllFillWrites(t, es).writes| && (k < |AllFillWrites(t, es).writes| || AllFillWrites(t, es).raised)
    ensures Detected(CommitAll(t, AllFillWrites(t, es).writes[..k]), m)
  {
    var i, whole := CutInsideFills(t, es, m, d, k);
    CutStateIsReported(t, CommitAll(t, AllFillWrites(t, es).writes[..k]), whole, es, o, m, d, i);
  }

  /** A torn state: the order row shows executions no fill backs, or the last fill has no balance. */
  ghost predicate TornAt(t: Tables, whole: Tables, o: OrderId, e: FillEvent, m: CostModel) {
    || (o in t.orders && FilledQty(t.fills, o) < t.orders[o].filledQty)
    || (Rows(whole, m) && Between(whole, t, e, m) && Horizon(whole) < e.eventTime)
  }

  lemma {:induction false} CutStateIsTorn(t: Tables, t': Tables, whole: Tables, es: seq<FillEvent>, o: OrderId,
                                          m: CostModel, d: int, i: nat)
    requires CutState(t, t', whole, es, m, d, i) && i < |es| && AllOf(es, o)
    requires o in t.orders && t.orders[o].filledQty == FilledQty(t.fills + FillsOfEvents(es), o)
    ensures TornAt(t', whole, o, es[i], m)
  {
    MissingFillsFallShort(t.fills, es, o, i);
    if t' != whole && i + 1 < |es| {
      OneMoreFill(t.fills, es, i);
      MissingFillsFallShort(t.fills, es, o, i + 1);
    }
  }

  lemma {:induction false} TornIsReported(t: Tables, whole: Tables, o: OrderId, e: FillEvent, m: CostModel)
    requires ValidCostModel(m) && ValidTables(t) && ValidFills(t.fills) && TornAt(t, whole, o, e, m)
    ensures Detected(t, m)
  {
    if o in t.orders && FilledQty(t.fills, o) < t.orders[o].filledQty {
      OrderAheadIsReported(t, m, o);
    } else {
      FillAheadIsReported(whole, t, e, m);
    }
  }

  lemma {:induction false} CutStateIsReported(t: Tables, t': Tables, whole: Tables, es: seq<FillEvent>, o: OrderId,
                                              m: CostModel, d: int, i: nat)
    requires CutState(t, t', whole, es, m, d, i) && i < |es| && AllOf(es, o)
    requires o in t.orders && t.orders[o].filledQty == FilledQty(t.fills + FillsOfEvents(es), o)
    ensures ValidCostModel(m) && Detected(t', m)
  {
    CutStateIsTorn(t, t', whole, es, o, m, d, i);
    TornIsReported(t', whole, o, es[i], m);
  }
}
