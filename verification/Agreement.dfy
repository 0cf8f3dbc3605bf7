/** Reading the tables back: the reconciler against a state that agrees. */
module Agreement {
  import opened Prelude
  import opened Sorting
  import opened Execution
  import opened Costs
  import opened Ledger
  import opened LedgerRuns
  import opened Store
  import opened Oms
  import opened Reconciler
  import opened LedgerAgreement
  import opened OrderAgreement

  // ------------------------------------------------- facts read from the tables

  /** The rows of a keyed table, in whatever order the query returns them. */
  ghost predicate Lists<K, V>(rows: seq<V>, key: V -> K, table: map<K, V>) {
    && (forall i :: 0 <= i < |rows| ==> key(rows[i]) in table && table[key(rows[i])] == rows[i])
    && (forall k :: k in table ==> table[k] in rows && key(table[k]) == k)
  }

  /** Facts that hold exactly the tables' rows. */
  ghost predicate ReadFrom(facts: Facts, t: Tables) {
    && Lists(facts.intents, IntentKey, t.intents)
    && Lists(facts.orders, OrderKey, t.orders)
    && Lists(facts.positions, PositionKey, t.positions)
    && multiset(facts.fills) == multiset(t.fills)
    && multiset(facts.balances) == multiset(t.balances)
  }

  lemma {:induction false} RowsCanBeListed<K, V>(table: map<K, V>, key: V -> K) returns (rows: seq<V>)
    requires forall k :: k in table ==> key(table[k]) == k
    ensures Lists(rows, key, table)
    decreases table.Keys
  {
    if table.Keys == {} {
      rows := [];
    } else {
      var k :| k in table;
      var others := RowsCanBeListed(table - {k}, key);
      rows := others + [table[k]];
      forall x | x in table ensures table[x] in rows {
        assert x != k ==> x in table - {k};
      }
    }
  }

  /** There is always something for the reconciler to read. */
  lemma {:induction false} FactsExist(t: Tables, tradeDate: int) returns (facts: Facts)
    requires ValidTables(t)
    ensures ReadFrom(facts, t) && facts.tradeDate == tradeDate
  {
    var intents := RowsCanBeListed(t.intents, IntentKey);
    var orders := RowsCanBeListed(t.orders, OrderKey);
    var positions := RowsCanBeListed(t.positions, PositionKey);
    facts := Facts(intents, orders, t.fills, positions, t.balances, tradeDate);
  }

  lemma {:induction false} IndexContents<K, V>(rows: seq<V>, key: V -> K)
    ensures forall i :: 0 <= i < |rows| ==> key(rows[i]) in Index(rows, key)
    ensures forall k :: k in Index(rows, key) ==> Index(rows, key)[k] in rows && key(Index(rows, key)[k]) == k
  {
    if rows != [] {
      var front := rows[..|rows| - 1];
      IndexContents(front, key);
      assert forall i :: 0 <= i < |front| ==> rows[i] == front[i];
    }
  }

  lemma {:induction false} ListingIndexes<K, V>(rows: seq<V>, key: V -> K, table: map<K, V>)
    requires Lists(rows, key, table)
    ensures Index(rows, key) == table
  {
    IndexContents(rows, key);
    var index := Index(rows, key);
    forall k | k in table ensures k in index {
      var i :| 0 <= i < |rows| && rows[i] == table[k];
    }
    forall k | k in index ensures k in table && index[k] == table[k] {
      var i :| 0 <= i < |rows| && rows[i] == index[k];
    }
  }

  lemma {:induction false} OneAssetScans(balances: seq<BalanceSnapshot>)
    requires balances != [] && forall i :: 0 <= i < |balances| ==> balances[i].asset == CNY
    ensures LatestByAsset(balances) == map[CNY := balances[|balances| - 1]]
    ensures BaselineByAsset(balances) == map[CNY := balances[0]]
  {
    var front := balances[..|balances| - 1];
    if front == [] {
      assert LatestByAsset(front) == map[] && BaselineByAsset(front) == map[];
    } else {
      OneAssetScans(front);
    }
  }

  ghost function Total(fills: seq<Fill>, f: Fill -> real): real {
    if fills == [] then 0.0 else Total(fills[..|fills| - 1], f) + f(fills[|fills| - 1])
  }

  lemma {:induction false} TotalWithout(fills: seq<Fill>, f: Fill -> real, j: nat)
    requires j < |fills|
    ensures Total(fills, f) == Total(fills[..j] + fills[j + 1..], f) + f(fills[j])
  {
    var n := |fills| - 1;
    if j == n {
      assert fills[..j] + fills[j + 1..] == fills[..n];
    } else {
      TotalWithout(fills[..n], f, j);
      var rest := fills[..j] + fills[j + 1..];
      assert rest[..|rest| - 1] == fills[..n][..j] + fills[..n][j + 1..];
    }
  }

  lemma {:induction false} MultisetWithout(fills: seq<Fill>, j: nat)
    requires j < |fills|
    ensures multiset(fills[..j] + fills[j + 1..]) == multiset(fills) - multiset{fills[j]}
  {
    assert fills == fills[..j] + [fills[j]] + fills[j + 1..];
  }

  /** A sum over rows does not depend on the order they are listed in. */
  lemma {:induction false} TotalIgnoresRowOrder(rows: seq<Fill>, fills: seq<Fill>, f: Fill -> real)
    requires multiset(rows) == multiset(fills)
    ensures Total(rows, f) == Total(fills, f)
  {
    if rows == [] {
      assert |multiset(fills)| == 0;
    } else {
      var n := |rows| - 1;
      assert rows[n] in multiset(fills);
      var j :| 0 <= j < |fills| && fills[j] == rows[n];
      assert rows[..n] + rows[n + 1..] == rows[..n];
      MultisetWithout(rows, n);
      MultisetWithout(fills, j);
      TotalWithout(fills, f, j);
      TotalIgnoresRowOrder(rows[..n], fills[..j] + fills[j + 1..], f);
    }
  }

  function QtyUnder(o: OrderId): Fill -> real { (f: Fill) => if f.orderId == o then f.qty else 0.0 }
  function NotionalUnder(o: OrderId): Fill -> real { (f: Fill) => if f.orderId == o then Notional(f) else 0.0 }

  lemma {:induction false} FilledIsTotal(fills: seq<Fill>, o: OrderId)
    ensures FilledQty(fills, o) == Total(fills, QtyUnder(o))
    ensures FilledNotional(fills, o) == Total(fills, NotionalUnder(o))
  {
    if fills != [] { FilledIsTotal(fills[..|fills| - 1], o); }
  }

  lemma {:induction false} FilledIgnoresRowOrder(rows: seq<Fill>, fills: seq<Fill>, o: OrderId)
    requires multiset(rows) == multiset(fills)
    ensures FilledQty(rows, o) == FilledQty(fills, o) && FilledNotional(rows, o) == FilledNotional(fills, o)
  {
    FilledIsTotal(rows, o);
    FilledIsTotal(fills, o);
    TotalIgnoresRowOrder(rows, fills, QtyUnder(o));
    TotalIgnoresRowOrder(rows, fills, NotionalUnder(o));
  }

  lemma {:induction false} RowsStayValid(facts: Facts, t: Tables)
    requires multiset(facts.fills) == multiset(t.fills) && multiset(facts.balances) == multiset(t.balances)
    requires ValidFills(t.fills) && ValidTables(t)
    ensures ValidFacts(facts)
  {
    forall i | 0 <= i < |facts.fills| ensures ValidFill(facts.fills[i]) {
      assert facts.fills[i] in multiset(t.fills);
    }
    forall i | 0 <= i < |facts.balances| ensures ValidBalance(facts.balances[i]) {
      assert facts.balances[i] in multiset(t.balances);
    }
  }

  /** Sorting the rows restores the order in which the fills and snapshots were written. */
  lemma {:induction false} FactsRestoreTables(facts: Facts, t: Tables, m: CostModel)
    requires Rows(t, m) && ReadFrom(facts, t)
    ensures ValidFacts(facts)
    ensures SortBy(facts.fills, FillBefore) == t.fills && SortBy(facts.balances, SnapshotBefore) == t.balances
    ensures OrderMap(facts.orders) == t.orders && PositionMap(facts.positions) == t.positions
    ensures FactsBaseline(facts) == Start(t)
    ensures LatestByAsset(SortBy(facts.balances, SnapshotBefore)) == Current(t).balances
  {
    KeysAreOrders();
    SortRestores(facts.fills, t.fills, FillBefore);
    SortRestores(facts.balances, t.balances, SnapshotBefore);
    ListingIndexes(facts.orders, OrderKey, t.orders);
    ListingIndexes(facts.positions, PositionKey, t.positions);
    OneAssetScans(t.balances);
    RowsStayValid(facts, t);
  }

  /** The order checks look at the tables' own orders. */
  lemma {:induction false} OrdersReadBack(facts: Facts, t: Tables)
    requires ReadFrom(facts, t)
    ensures OrdersConsistent(facts.orders, IntentMap(facts.intents), facts.fills) <==>
      forall id :: id in t.orders ==>
        OrderConsistent(t.orders[id], Get(t.intents, t.orders[id].intentId),
                        FilledQty(t.fills, id), FilledNotional(t.fills, id))
  {
    ListingIndexes(facts.intents, IntentKey, t.intents);
    forall id: OrderId { FilledIgnoresRowOrder(facts.fills, t.fills, id); }
    forall id | id in t.orders
      ensures exists i :: 0 <= i < |facts.orders| && facts.orders[i] == t.orders[id] && facts.orders[i].id == id
    {
      assert OrderKey(t.orders[id]) == id;
    }
    forall i | 0 <= i < |facts.orders|
      ensures facts.orders[i].id in t.orders && t.orders[facts.orders[i].id] == facts.orders[i]
    {
      assert OrderKey(facts.orders[i]) in t.orders;
    }
  }

  // ------------------------------------------------------- clean iff released

  ghost predicate AllReleased(t: Tables, tradeDate: int) {
    forall s :: s in t.positions ==> Released(t.positions[s], tradeDate)
  }

  /** One persisted position against the replayed one, released for the check date. */
  lemma {:induction false} PositionCleanIffReleased(p: Position, q: Position, d: int, tradeDate: int, at: Time)
    requires ValidPosition(p) && ValidPosition(q) && AsOf(p, d) == AsOf(q, d)
    requires DateOf(p.updatedAt) <= d <= tradeDate && DateOf(q.updatedAt) <= d
    ensures SamePositionFields(p, Release(q, tradeDate, at)) <==> Released(p, tradeDate)
  {
    assert AsOf(p, d).qty == p.qty && AsOf(q, d).qty == q.qty;
    assert p.(sellableQty := AsOf(p, d).sellableQty, updatedAt := 0) == AsOf(p, d);
    assert q.(sellableQty := AsOf(q, d).sellableQty, updatedAt := 0) == AsOf(q, d);
    assert p.avgEntryPrice == AsOf(p, d).avgEntryPrice == q.avgEntryPrice;
    assert p.markPrice == AsOf(p, d).markPrice == q.markPrice;
    assert p.unrealizedPnl == AsOf(p, d).unrealizedPnl == q.unrealizedPnl;
    assert p.realizedPnl == AsOf(p, d).realizedPnl == q.realizedPnl;
    assert p.status == AsOf(p, d).status == q.status;
    assert AsOf(p, d).sellableQty == AsOf(q, d).sellableQty;
  }

  lemma {:induction false} PositionsCleanIffReleased(t: Tables, fold: Portfolio, d: int, tradeDate: int, at: Time)
    requires ValidTables(t) && ValidPortfolio(fold) && d <= tradeDate
    requires SamePositionsAsOf(t.positions, fold.positions, d)
    requires forall s :: s in t.positions ==> DateOf(t.positions[s].updatedAt) <= d
    requires forall s :: s in fold.positions ==> DateOf(fold.positions[s].updatedAt) <= d
    ensures PositionsAgree(t.positions, ReleaseAll(fold.positions, tradeDate, at)) <==> AllReleased(t, tradeDate)
  {
    var replayed := ReleaseAll(fold.positions, tradeDate, at);
    forall s: Symbol
      ensures PositionAgrees(Get(t.positions, s), Get(replayed, s))
              <==> (s in t.positions ==> Released(t.positions[s], tradeDate))
    {
      assert SameAsOf(Get(t.positions, s), Get(fold.positions, s), d);
      if s in t.positions {
        PositionCleanIffReleased(t.positions[s], fold.positions[s], d, tradeDate, at);
      }
    }
    if AllReleased(t, tradeDate) {
      forall s: Symbol ensures PositionAgrees(Get(t.positions, s), Get(replayed, s)) {
        assert s in t.positions ==> Released(t.positions[s], tradeDate);
      }
    }
    if PositionsAgree(t.positions, replayed) {
      forall s | s in t.positions ensures Released(t.positions[s], tradeDate) {
        assert PositionAgrees(Get(t.positions, s), Get(replayed, s));
      }
    }
  }

  /** Incremental equals replay. From any state that agrees, whatever row order the facts
      come in, the reconciler reports nothing exactly when the persisted positions have
      been released for the date it checks. */
  lemma {:induction false} CleanIffReleased(t: Tables, facts: Facts, m: CostModel, d: int, at: Time)
    requires Agrees(t, m, d) && ReadFrom(facts, t) && Today(t, d) <= facts.tradeDate
    ensures ValidFacts(facts)
    ensures ExpectedIssues(facts, m, at) == [] <==> AllReleased(t, facts.tradeDate)
  {
    FactsRestoreTables(facts, t, m);
    OrdersReadBack(facts, t);
    ReconcilerIsExact(facts, m, at);
    forall id | id in t.orders
      ensures OrderConsistent(t.orders[id], Get(t.intents, t.orders[id].intentId),
                              FilledQty(t.fills, id), FilledNotional(t.fills, id))
    {
      assert OrderTellsFills(t, id);
    }
    var fold := Booked(Start(t), t.fills, m).value;
    PositionsCleanIffReleased(t, fold, Today(t, d), facts.tradeDate, at);
    assert BalancesAgree(Current(t).balances, fold.balances);
  }

  // ------------------------------------------------------------------- detection

  /** The reconciler finds something wrong with the facts. */
  ghost predicate Reported(facts: Facts, m: CostModel, at: Time)
    requires ValidCostModel(m)
  {
    ValidFacts(facts) && ExpectedIssues(facts, m, at) != []
  }

  /** In whatever order the rows are read, and whenever, the reconciler reports the state. */
  ghost predicate Detected(t: Tables, m: CostModel)
    requires ValidCostModel(m)
  {
    forall facts, at :: ReadFrom(facts, t) ==> Reported(facts, m, at)
  }

  /** A state that agrees is not detected at all on dates its positions are released for. */
  lemma {:induction false} AgreeingIsUndetected(t: Tables, m: CostModel, d: int, tradeDate: int)
    requires Agrees(t, m, d) && Today(t, d) <= tradeDate && AllReleased(t, tradeDate)
    ensures !Detected(t, m)
  {
    var facts := FactsExist(t, tradeDate);
    CleanIffReleased(t, facts, m, d, 0);
    assert !Reported(facts, m, 0);
  }

  // ---------------------------------------------------------------- the summary

  /** An issue of a fill that was not replayed. */
  predicate Unreplayed(i: Issue) { i.FillOrderMissing? || i.FillLedgerReplayFailed? }

  function CountUnreplayed(issues: seq<Issue>): nat {
    if issues == [] then 0
    else CountUnreplayed(issues[..|issues| - 1]) + if Unreplayed(issues[|issues| - 1]) then 1 else 0
  }

  lemma {:induction false} CountGrows(issues: seq<Issue>, i: Issue)
    ensures CountUnreplayed(issues + [i]) == CountUnreplayed(issues) + if Unreplayed(i) then 1 else 0
    ensures CountUnreplayed(issues + []) == CountUnreplayed(issues)
  {
    assert (issues + [i])[..|issues|] == issues && issues + [] == issues;
  }

  lemma {:induction false} OneFillIsCounted(r: Replay, f: Fill, orders: map<OrderId, Order>, m: CostModel, r': Replay)
    requires ValidPortfolio(r.portfolio) && ValidFill(f) && ValidCostModel(m) && r' == ReplayFill(r, f, orders, m)
    ensures r'.count + CountUnreplayed(r'.issues) == r.count + CountUnreplayed(r.issues) + 1
  {
    var drift := When(f.fee != FillCost(f, m).totalFee, FillFeeDrift(f.id));
    CountGrows(r.issues, FillFeeDrift(f.id));
    CountGrows(r.issues + drift, FillOrderMissing(f.id));
    CountGrows(r.issues + drift, FillLedgerReplayFailed(f.id));
  }

  /** The fees and the cash flow add up over all fills, replayed or not; and every fill is
      replayed or has an issue that says why not. */
  ghost predicate TotalsTell(r: Replay, fills: seq<Fill>, m: CostModel) {
    && r.totals.commission == Total(fills, f => FillCost(f, m).commission)
    && r.totals.transferFee == Total(fills, f => FillCost(f, m).transferFee)
    && r.totals.stampDuty == Total(fills, f => FillCost(f, m).stampDuty)
    && r.totals.totalFee == Total(fills, f => FillCost(f, m).totalFee)
    && r.totals.netCashFlow == Total(fills, f => FillCost(f, m).netCashFlow)
  }

  lemma {:induction false} ReplayTotalsAreSums(start: Portfolio, fills: seq<Fill>, orders: map<OrderId, Order>,
                                               m: CostModel)
    requires ValidPortfolio(start) && ValidFills(fills) && ValidCostModel(m)
    ensures TotalsTell(ReplayAll(start, fills, orders, m), fills, m)
    ensures ReplayAll(start, fills, orders, m).count + CountUnreplayed(ReplayAll(start, fills, orders, m).issues)
         == |fills|
  {
    if fills != [] {
      var front, f := fills[..|fills| - 1], fills[|fills| - 1];
      ReplayTotalsAreSums(start, front, orders, m);
      OneFillIsCounted(ReplayAll(start, front, orders, m), f, orders, m, ReplayAll(start, fills, orders, m));
    }
  }

  lemma {:induction false} TotalsIgnoreRowOrder(r: Replay, fills: seq<Fill>, rows: seq<Fill>, m: CostModel)
    requires TotalsTell(r, fills, m) && multiset(rows) == multiset(fills)
    ensures TotalsTell(r, rows, m)
  {
    TotalIgnoresRowOrder(rows, fills, f => FillCost(f, m).commission);
    TotalIgnoresRowOrder(rows, fills, f => FillCost(f, m).transferFee);
    TotalIgnoresRowOrder(rows, fills, f => FillCost(f, m).stampDuty);
    TotalIgnoresRowOrder(rows, fills, f => FillCost(f, m).totalFee);
    TotalIgnoresRowOrder(rows, fills, f => FillCost(f, m).netCashFlow);
  }

  /** The reported totals are sums over the fills, in whatever order they were read, clean or not. */
  lemma {:induction false} SummaryTotalsAreSums(facts: Facts, m: CostModel)
    requires ValidFacts(facts) && ValidCostModel(m)
    ensures TotalsTell(FactsReplay(facts, m), facts.fills, m)
    ensures FactsReplay(facts, m).count + CountUnreplayed(FactsReplay(facts, m).issues) == |facts.fills|
  {
    SortedFactsAreValid(facts);
    KeysAreOrders();
    SortSorts(facts.fills, FillBefore);
    var fills := SortBy(facts.fills, FillBefore);
    assert |fills| == |multiset(fills)| == |multiset(facts.fills)|;
    ReplayTotalsAreSums(FactsBaseline(facts), fills, OrderMap(facts.orders), m);
    TotalsIgnoreRowOrder(FactsReplay(facts, m), fills, facts.fills, m);
  }
}
