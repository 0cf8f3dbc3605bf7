/** What a cut-off report leaves behind: marks that no later step removes. */
module Marks {
  import opened Prelude
  import opened Sorting
  import opened Execution
  import opened Costs
  import opened Ledger
  import opened Store
  import opened Oms
  import opened Reconciler
  import opened LedgerAgreement
  import opened OrderAgreement
  import opened Agreement
  import opened Crashes

  // ------------------------------------------------- an order row ahead of its fills

  /** The row of a submitted order shows executions that no fill row backs. */
  ghost predicate Ahead(t: Tables, id: OrderId) {
    && ValidTables(t) && ValidFills(t.fills) && Submitted(t, id.intent)
    && id in t.orders && FilledQty(t.fills, id) < t.orders[id].filledQty
  }

  // ------------------------------------------------- a fill without its balance

  /** The cash a fill moves. */
  function FlowOf(m: CostModel): Fill -> real { (f: Fill) => FillCost(f, m).netCashFlow }

  /** The cash the fills account for, less the cash the newest snapshot shows. */
  ghost function Gap(t: Tables, m: CostModel): real
    requires t.balances != []
  {
    t.balances[0].total + Total(t.fills, FlowOf(m)) - t.balances[|t.balances| - 1].total
  }

  /** Valid rows, and the account's snapshots in order. */
  ghost predicate Kept(t: Tables, m: CostModel) {
    && ValidCostModel(m) && ValidTables(t) && ValidFills(t.fills) && t.balances != []
    && (forall i :: 0 <= i < |t.balances| ==> t.balances[i].asset == CNY)
    && (forall i, j :: 0 <= i < j < |t.balances| ==> t.balances[i].snapshotTime < t.balances[j].snapshotTime)
  }

  /** A gap between fills and cash. */
  ghost predicate Short(t: Tables, m: CostModel, gap: real) {
    Kept(t, m) && Gap(t, m) == gap && gap != 0.0
  }

  lemma {:induction false} ReplayedFlow(start: Portfolio, fills: seq<Fill>, orders: map<OrderId, Order>, m: CostModel)
    requires ValidPortfolio(start) && ValidFills(fills) && ValidCostModel(m)
    ensures ReplayAll(start, fills, orders, m).totals.netCashFlow == Total(fills, FlowOf(m))
  {
    if fills != [] { ReplayedFlow(start, fills[..|fills| - 1], orders, m); }
  }

  /** What the facts of such tables have the reconciler find: the two ends of the cash account,
      and all of the flow between them. */
  lemma {:induction false} CashReadBack(facts: Facts, t: Tables, m: CostModel, gap: real)
    requires Short(t, m, gap) && ReadFrom(facts, t)
    ensures ValidFacts(facts) && FactsBaseline(facts).balances == map[CNY := t.balances[0]]
    ensures LatestByAsset(SortBy(facts.balances, SnapshotBefore)) == map[CNY := t.balances[|t.balances| - 1]]
    ensures FactsReplay(facts, m).totals.netCashFlow == Total(t.fills, FlowOf(m))
  {
    KeysAreOrders();
    RowsStayValid(facts, t);
    SortRestores(facts.balances, t.balances, SnapshotBefore);
    OneAssetScans(t.balances);
    SortedFactsAreValid(facts);
    SortSorts(facts.fills, FillBefore);
    ReplayedFlow(FactsBaseline(facts), SortBy(facts.fills, FillBefore), OrderMap(facts.orders), m);
    TotalIgnoresRowOrder(SortBy(facts.fills, FillBefore), t.fills, FlowOf(m));
  }

  /** A gap in cash is always reported. */
  lemma {:induction false} ShortIsReported(t: Tables, m: CostModel, gap: real)
    requires Short(t, m, gap)
    ensures Detected(t, m)
  {
    forall facts, at | ReadFrom(facts, t) ensures Reported(facts, m, at) {
      CashReadBack(facts, t, m, gap);
      if ExpectedIssues(facts, m, at) == [] {
        CleanReplayAccountsForCash(facts, m, at);
        ReconcilerIsExact(facts, m, at);
        CleanBalancesAgree(facts, m, at);
      }
    }
  }

  /** A clean result means that replayed cash is the newest snapshot's. */
  lemma {:induction false} CleanBalancesAgree(facts: Facts, m: CostModel, at: Time)
    requires ValidFacts(facts) && ValidCostModel(m) && ExpectedIssues(facts, m, at) == []
    ensures
      var latest := LatestByAsset(SortBy(facts.balances, SnapshotBefore));
      CNY in latest ==> latest[CNY].total == CashOf(FactsReplay(facts, m).portfolio)
  {
    var latest, replay := LatestByAsset(SortBy(facts.balances, SnapshotBefore)), FactsReplay(facts, m);
    BalanceComparisonIsExact(latest, replay.portfolio.balances);
    assert BalanceAgrees(Get(latest, CNY), Get(replay.portfolio.balances, CNY));
  }

  // ------------------------------------------------------------ where the gap comes from

  lemma {:induction false} TotalGrows(fills: seq<Fill>, f: Fill, flow: Fill -> real)
    ensures Total(fills + [f], flow) == Total(fills, flow) + flow(f)
  {
    assert (fills + [f])[..|fills|] == fills;
  }

  lemma {:induction false} FoldMovesCash(start: Portfolio, fills: seq<Fill>, m: CostModel)
    requires ValidPortfolio(start) && ValidFills(fills) && ValidCostModel(m) && AllCharged(fills, m)
    requires Booked(start, fills, m).Ok?
    ensures CashOf(Booked(start, fills, m).value) == CashOf(start) + Total(fills, FlowOf(m))
  {
    var orders := map o | o in (set i | 0 <= i < |fills| :: fills[i].orderId) :: AnyOrder(o);
    assert AllOrdered(fills, orders);
    ReplayIsExact(start, fills, orders, m);
    ReplayedFlow(start, fills, orders, m);
  }

  /** An order row to go with a fill; the replay asks for no more than that there is one. */
  function AnyOrder(id: OrderId): Order {
    Order(id, id.intent, 0, Buy, OrderType.Market, 1.0, None, 0.0, None, New, 0, 0)
  }

  /** Tables that agree have no gap. */
  lemma {:induction false} AgreeingHasNoGap(t: Tables, m: CostModel, d: int)
    requires LedgerAgrees(t, m, d)
    ensures Kept(t, m) && Gap(t, m) == 0.0
  {
    FoldMovesCash(Start(t), t.fills, m);
  }

  /** A fill without its balance leaves one, as large as its net cash flow. On a buy that is never zero,
    on a sell only if the fee eats it all. */
  lemma {:induction false} TornFillLeavesGap(t: Tables, t': Tables, e: FillEvent, m: CostModel, d: int)
    requires LedgerAgrees(t, m, d) && Between(t, t', e, m) && e.cost.netCashFlow != 0.0
    ensures Gap(t, m) == 0.0 && Short(t', m, e.cost.netCashFlow)
  {
    AgreeingHasNoGap(t, m, d);
    TotalGrows(t.fills, e.fill, FlowOf(m));
  }

  /** Whatever a cut among the fills of a handed-over report leaves is reported for good: as an
      order row ahead, or as a gap as large as the last fill's net cash flow. */
  lemma {:induction false} TornStateIsPermanent(t: Tables, t': Tables, whole: Tables, es: seq<FillEvent>, o: OrderId,
                                                m: CostModel, d: int, i: nat)
    requires CutState(t, t', whole, es, m, d, i) && i < |es| && AllOf(es, o) && ValidTables(t') && ValidFills(t'.fills)
    requires o in t.orders && t.orders[o].filledQty == FilledQty(t.fills + FillsOfEvents(es), o)
    requires Submitted(t', o.intent) && es[i].cost.netCashFlow != 0.0
    ensures Ahead(t', o) || Short(t', m, es[i].cost.netCashFlow)
  {
    CutStateIsTorn(t, t', whole, es, o, m, d, i);
    if !Ahead(t', o) {
      TornFillLeavesGap(whole, t', es[i], m, d);
    }
  }

  // ---------------------------------------------------------------------- lasting

  /** The last fill row has no balance: the cash it moved, if any, is missing. */
  ghost predicate LastFillIsTorn(t: Tables, m: CostModel) {
    && t.fills != []
    && var flow := FlowOf(m)(t.fills[|t.fills| - 1]);
       flow == 0.0 || Short(t, m, flow)
  }

  /** Reported, and by a mark that stays: an order row ahead of its fills, or a fill without
      its balance. */
  ghost predicate Lasting(t: Tables, m: CostModel)
    requires ValidCostModel(m)
  {
    Detected(t, m) && ((exists id :: Ahead(t, id)) || LastFillIsTorn(t, m))
  }

  lemma {:induction false} AheadIsLasting(t: Tables, m: CostModel, id: OrderId)
    requires ValidCostModel(m) && Ahead(t, id)
    ensures Lasting(t, m)
  {
    OrderAheadIsReported(t, m, id);
  }

  lemma {:induction false} TornStateIsLasting(t: Tables, t': Tables, whole: Tables, es: seq<FillEvent>, o: OrderId,
                                             m: CostModel, d: int, i: nat)
    requires CutState(t, t', whole, es, m, d, i) && i < |es| && AllOf(es, o) && ValidTables(t') && ValidFills(t'.fills)
    requires o in t.orders && t.orders[o].filledQty == FilledQty(t.fills + FillsOfEvents(es), o)
    requires Submitted(t', o.intent)
    ensures ValidCostModel(m) && Lasting(t', m)
  {
    CutStateIsReported(t, t', whole, es, o, m, d, i);
    CutStateIsTorn(t, t', whole, es, o, m, d, i);
    if !Ahead(t', o) && es[i].cost.netCashFlow != 0.0 {
      TornFillLeavesGap(whole, t', es[i], m, d);
    }
  }

  /** Fill writes touch neither intents nor the validity of rows. */
  lemma {:induction false} FillWritesKeepIntents(t: Tables, es: seq<FillEvent>, k: nat)
    requires ValidTables(t) && ValidFillEvents(es) && k <= |AllFillWrites(t, es).writes|
    ensures
      var t' := CommitAll(t, AllFillWrites(t, es).writes[..k]);
      t'.intents == t.intents && ValidTables(t')
  {
    FillWritesAreNoIntents(t, es);
    var ws := AllFillWrites(t, es).writes[..k];
    WritesKeepTablesValid(t, ws);
    NoIntentsKeepIntents(t, ws);
  }

  predicate NoIntents(ws: seq<Write>) { forall i :: 0 <= i < |ws| ==> !ws[i].WIntent? }

  lemma {:induction false} NoIntentsKeepIntents(t: Tables, ws: seq<Write>)
    requires NoIntents(ws)
    ensures CommitAll(t, ws).intents == t.intents
  {
    if ws != [] { NoIntentsKeepIntents(t, ws[..|ws| - 1]); }
  }

  lemma {:induction false} FillWritesAreNoIntents(t: Tables, es: seq<FillEvent>)
    requires ValidTables(t) && ValidFillEvents(es)
    ensures NoIntents(AllFillWrites(t, es).writes)
  {
    if es != [] {
      FillWritesAreNoIntents(t, es[..|es| - 1]);
      FillWritesGrow(t, es);
    }
  }

  /** Wherever the writes of new fills are cut, the order row is ahead of them or the last of
      them is torn. */
  lemma {:induction false} CutEventsAreLasting(t: Tables, es: seq<FillEvent>, o: OrderId, m: CostModel, d: int, k: nat)
    requires LedgerAgrees(t, m, d) && Bookable(t, es, m, d) && AllOf(es, o) && Submitted(t, o.intent)
    requires o in t.orders && t.orders[o].filledQty == FilledQty(t.fills + FillsOfEvents(es), o)
    requires k <= |AllFillWrites(t, es).writes| && (k < |AllFillWrites(t, es).writes| || AllFillWrites(t, es).raised)
    ensures Lasting(CommitAll(t, AllFillWrites(t, es).writes[..k]), m)
  {
    FillWritesKeepIntents(t, es, k);
    var i, whole := CutInsideFills(t, es, m, d, k);
    TornStateIsLasting(t, CommitAll(t, AllFillWrites(t, es).writes[..k]), whole, es, o, m, d, i);
  }
}
