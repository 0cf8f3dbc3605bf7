/** The reconciler as it runs: dictionaries and running totals filled in loops. */
module ReconcilerRun {
  import opened Prelude
  import opened Sorting
  import opened Execution
  import opened Costs
  import opened Ledger
  import opened Reconciler

  datatype Summary = Summary(
    checkedOrders: nat,
    checkedFills: nat,
    replayedFills: nat,
    checkedPositions: nat,
    checkedBalances: nat,
    issueCount: nat,
    totals: FeeTotals)

  /** The fills of one order, in the order given. */
  function OrderFills(fills: seq<Fill>, o: OrderId): seq<Fill> {
    if fills == [] then []
    else
      var f := fills[|fills| - 1];
      OrderFills(fills[..|fills| - 1], o) + if f.orderId == o then [f] else []
  }

  function Group(g: map<OrderId, seq<Fill>>, o: OrderId): seq<Fill> { if o in g then g[o] else [] }

  // Sorting an order's fills does not change their totals.

  lemma {:induction false} InsertKeepsTotals(s: seq<Fill>, x: Fill, o: OrderId)
    ensures FilledQty(Insert(s, x, FillBefore), o) == FilledQty(s + [x], o)
    ensures FilledNotional(Insert(s, x, FillBefore), o) == FilledNotional(s + [x], o)
  {
    assert (s + [x])[..|s|] == s;
    if s != [] && FillBefore(x, s[|s| - 1]) {
      var front, last := s[..|s| - 1], s[|s| - 1];
      InsertKeepsTotals(front, x, o);
      assert (front + [x])[..|front|] == front;
      var t := Insert(front, x, FillBefore);
      assert (t + [last])[..|t|] == t;
    }
  }

  lemma {:induction false} SortKeepsTotals(s: seq<Fill>, o: OrderId)
    ensures FilledQty(SortBy(s, FillBefore), o) == FilledQty(s, o)
    ensures FilledNotional(SortBy(s, FillBefore), o) == FilledNotional(s, o)
  {
    if s != [] {
      var front, last := s[..|s| - 1], s[|s| - 1];
      SortKeepsTotals(front, o);
      var t := SortBy(front, FillBefore);
      InsertKeepsTotals(t, last, o);
      assert (t + [last])[..|t|] == t;
    }
  }

  lemma {:induction false} OrderFillsKeepTotals(fills: seq<Fill>, o: OrderId)
    ensures FilledQty(OrderFills(fills, o), o) == FilledQty(fills, o)
    ensures FilledNotional(OrderFills(fills, o), o) == FilledNotional(fills, o)
  {
    if fills != [] {
      var front, f := fills[..|fills| - 1], fills[|fills| - 1];
      OrderFillsKeepTotals(front, o);
      var t := OrderFills(front, o);
      assert (t + [f])[..|t|] == t && t + [] == t;
    }
  }

  method GroupFills(fills: seq<Fill>) returns (g: map<OrderId, seq<Fill>>)
    ensures forall o :: FilledQty(Group(g, o), o) == FilledQty(fills, o)
    ensures forall o :: FilledNotional(Group(g, o), o) == FilledNotional(fills, o)
  {
    var lists: map<OrderId, seq<Fill>> := map[];
    for k := 0 to |fills|
      invariant forall o :: Group(lists, o) == OrderFills(fills[..k], o)
    {
      var f := fills[k];
      assert fills[..k + 1][..k] == fills[..k];
      lists := lists[f.orderId := Group(lists, f.orderId) + [f]];
    }
    assert fills[..|fills|] == fills;
    g := map o | o in lists :: SortBy(lists[o], FillBefore);
    forall o
      ensures FilledQty(Group(g, o), o) == FilledQty(fills, o)
      ensures FilledNotional(Group(g, o), o) == FilledNotional(fills, o)
    {
      SortKeepsTotals(Group(lists, o), o);
      OrderFillsKeepTotals(fills, o);
      assert Group(lists, o) == OrderFills(fills, o);
    }
  }

  method CheckOrders(orders: seq<Order>, intents: map<IntentId, OrderIntent>,
                     grouped: map<OrderId, seq<Fill>>, ghost fills: seq<Fill>) returns (issues: seq<Issue>)
    requires forall o :: FilledQty(Group(grouped, o), o) == FilledQty(fills, o)
    requires forall o :: FilledNotional(Group(grouped, o), o) == FilledNotional(fills, o)
    ensures issues == AllOrderIssues(orders, intents, fills)
  {
    issues := [];
    for k := 0 to |orders|
      invariant issues == AllOrderIssues(orders[..k], intents, fills)
    {
      var o := orders[k];
      assert orders[..k + 1][..k] == orders[..k];
      var own := Group(grouped, o.id);
      issues := issues + OrderIssues(o, Get(intents, o.intentId), FilledQty(own, o.id), FilledNotional(own, o.id));
    }
    assert orders[..|orders|] == orders;
  }

  method CheckPositions(symbols: seq<Symbol>, persisted: map<Symbol, Position>, replayed: map<Symbol, Position>)
    returns (issues: seq<Issue>)
    ensures issues == AllPositionIssues(symbols, persisted, replayed)
  {
    issues := [];
    for k := 0 to |symbols|
      invariant issues == AllPositionIssues(symbols[..k], persisted, replayed)
    {
      assert symbols[..k + 1][..k] == symbols[..k];
      issues := issues + PositionIssues(symbols[k], Get(persisted, symbols[k]), Get(replayed, symbols[k]));
    }
    assert symbols[..|symbols|] == symbols;
  }

  method CheckBalances(assets: seq<Asset>, latest: map<Asset, BalanceSnapshot>, replayed: map<Asset, BalanceSnapshot>)
    returns (issues: seq<Issue>)
    ensures issues == AllBalanceIssues(assets, latest, replayed)
  {
    issues := [];
    for k := 0 to |assets|
      invariant issues == AllBalanceIssues(assets[..k], latest, replayed)
    {
      assert assets[..k + 1][..k] == assets[..k];
      issues := issues + BalanceIssues(assets[k], Get(latest, assets[k]), Get(replayed, assets[k]));
    }
    assert assets[..|assets|] == assets;
  }

  /** Indexes rows by id; a later row of the same id wins. */
  method IndexRows(facts: Facts)
    returns (intents: map<IntentId, OrderIntent>, orders: map<OrderId, Order>, positions: map<Symbol, Position>)
    ensures intents == IntentMap(facts.intents) && orders == OrderMap(facts.orders)
    ensures positions == PositionMap(facts.positions)
  {
    intents, orders, positions := map[], map[], map[];
    for k := 0 to |facts.intents|
      invariant intents == IntentMap(facts.intents[..k])
    {
      assert facts.intents[..k + 1][..k] == facts.intents[..k];
      intents := intents[facts.intents[k].id := facts.intents[k]];
    }
    for k := 0 to |facts.orders|
      invariant orders == OrderMap(facts.orders[..k])
    {
      assert facts.orders[..k + 1][..k] == facts.orders[..k];
      orders := orders[facts.orders[k].id := facts.orders[k]];
    }
    for k := 0 to |facts.positions|
      invariant positions == PositionMap(facts.positions[..k])
    {
      assert facts.positions[..k + 1][..k] == facts.positions[..k];
      positions := positions[facts.positions[k].symbol := facts.positions[k]];
    }
    assert facts.intents[..|facts.intents|] == facts.intents;
    assert facts.orders[..|facts.orders|] == facts.orders;
    assert facts.positions[..|facts.positions|] == facts.positions;
  }

  /** First and last snapshot of each asset, over the sorted snapshots. */
  method ScanBalances(sorted: seq<BalanceSnapshot>)
    returns (latest: map<Asset, BalanceSnapshot>, baseline: map<Asset, BalanceSnapshot>)
    ensures latest == LatestByAsset(sorted) && baseline == BaselineByAsset(sorted)
  {
    latest, baseline := map[], map[];
    for k := 0 to |sorted|
      invariant latest == LatestByAsset(sorted[..k]) && baseline == BaselineByAsset(sorted[..k])
    {
      var b := sorted[k];
      assert sorted[..k + 1][..k] == sorted[..k];
      latest := latest[b.asset := b];
      if b.asset !in baseline {
        baseline := baseline[b.asset := b];
      }
    }
    assert sorted[..|sorted|] == sorted;
  }

  /** Books the sorted fills one by one, keeping fee totals and going on past failures. */
  method ReplayLoop(start: Portfolio, fills: seq<Fill>, orders: map<OrderId, Order>, m: CostModel)
    returns (r: Replay)
    requires ValidPortfolio(start) && ValidFills(fills) && ValidCostModel(m)
    ensures r == ReplayAll(start, fills, orders, m)
  {
    r := Replay(start, FeeTotals(0.0, 0.0, 0.0, 0.0, 0.0), 0, []);
    for k := 0 to |fills|
      invariant r == ReplayAll(start, fills[..k], orders, m)
    {
      assert fills[..k + 1][..k] == fills[..k];
      r := ReplayFill(r, fills[k], orders, m);
    }
    assert fills[..|fills|] == fills;
  }

  /** Recomputes positions and balances from the persisted facts and reports every drift. */
  method ReconcilePaperState(facts: Facts, m: CostModel, at: Time) returns (issues: seq<Issue>, summary: Summary)
    requires ValidFacts(facts) && ValidCostModel(m)
    ensures issues == ExpectedIssues(facts, m, at)
    ensures issues == [] <==> Consistent(facts, m, at)
    ensures summary == Summary(|facts.orders|, |facts.fills|, FactsReplay(facts, m).count, |facts.positions|,
                               |facts.balances|, |issues|, FactsReplay(facts, m).totals)
  {
    var intents, orders, positions := IndexRows(facts);
    var grouped := GroupFills(facts.fills);
    var orderIssues := CheckOrders(facts.orders, intents, grouped, facts.fills);

    SortedFactsAreValid(facts);
    var latest, baseline := ScanBalances(SortBy(facts.balances, SnapshotBefore));
    BaselineIsValid(SortBy(facts.balances, SnapshotBefore));
    var replay := ReplayLoop(Portfolio(map[], baseline), SortBy(facts.fills, FillBefore), orders, m);
    var replayed := ReleaseAll(replay.portfolio.positions, facts.tradeDate, at);

    var positionIssues := CheckPositions(SortedKeys(positions.Keys + replayed.Keys), positions, replayed);
    var balanceIssues := CheckBalances(SortedKeys(latest.Keys + replay.portfolio.balances.Keys), latest,
                                       replay.portfolio.balances);
    issues := Concat4(orderIssues, replay.issues, positionIssues, balanceIssues);
    summary := Summary(|facts.orders|, |facts.fills|, replay.count, |facts.positions|, |facts.balances|,
                       |issues|, replay.totals);
    ReconcilerIsExact(facts, m, at);
  }
}
