/** Issue by issue: what the reconciler reports is what is wrong, and everything that is. */
module IssueCauses {
  import opened Prelude
  import opened Sorting
  import opened Execution
  import opened Costs
  import opened Ledger
  import opened Reconciler

  // --------------------------------------------------------------------- orders

  /** What is wrong with one order, against its intent and the totals of its fills. */
  predicate WrongWithOrder(i: Issue, o: Order, intent: Option<OrderIntent>, filled: real, notional: real) {
    match i
    case OrderIntentMissing(id) => id == o.id && intent.None?
    case OrderIntentDrift(id) =>
      id == o.id && intent.Some?
      && (o.symbol != intent.value.symbol || o.side != intent.value.side || o.orderType != intent.value.orderType
          || o.qty != intent.value.qty || o.price != intent.value.price)
    case OrderFilledQtyDrift(id) => id == o.id && o.filledQty != filled
    case OrderOverfilled(id) => id == o.id && o.qty < filled
    case OrderAvgFillPriceDrift(id) =>
      id == o.id && filled > 0.0 && (o.avgFillPrice.None? || o.avgFillPrice.value * filled != notional)
    case OrderStatusDrift(id, expected) =>
      id == o.id
      && (match expected
          case Ack => filled == 0.0 && o.status in {PartiallyFilled, Filled}
          case Filled => filled != 0.0 && filled == o.qty && o.status != Filled
          case PartiallyFilled => filled != 0.0 && filled != o.qty && o.status !in {PartiallyFilled, Canceled}
          case _ => false)
    case _ => false
  }

  lemma {:induction false} QuotientIsTheAverage(avg: real, filled: real, notional: real)
    requires filled > 0.0
    ensures avg == notional / filled <==> avg * filled == notional
  {
    var q := notional / filled;
    assert q * filled == notional;
    ScalingKeepsOrder(avg, q, filled);
  }

  lemma {:induction false} PartsTold(i: Issue, id: OrderId, missing: bool, drift: bool, qty: bool, over: bool,
                                     average: bool, expected: Option<OrderStatus>)
    ensures
      i in (if missing then [OrderIntentMissing(id)] else When(drift, OrderIntentDrift(id)))
           + When(qty, OrderFilledQtyDrift(id)) + When(over, OrderOverfilled(id))
           + When(average, OrderAvgFillPriceDrift(id))
           + (if expected.Some? then [OrderStatusDrift(id, expected.value)] else [])
      <==>
      || (i == OrderIntentMissing(id) && missing) || (i == OrderIntentDrift(id) && !missing && drift)
      || (i == OrderFilledQtyDrift(id) && qty) || (i == OrderOverfilled(id) && over)
      || (i == OrderAvgFillPriceDrift(id) && average)
      || (expected.Some? && i == OrderStatusDrift(id, expected.value))
  {
  }

  lemma {:induction false} AverageDriftIsExact(o: Order, filled: real, notional: real)
    ensures filled > 0.0 && o.avgFillPrice != Some(notional / filled) <==>
            filled > 0.0 && (o.avgFillPrice.None? || o.avgFillPrice.value * filled != notional)
  {
    if filled > 0.0 && o.avgFillPrice.Some? { QuotientIsTheAverage(o.avgFillPrice.value, filled, notional); }
  }

  lemma {:induction false} OrderIssuesAreCaused(i: Issue, o: Order, intent: Option<OrderIntent>, filled: real,
                                                notional: real)
    ensures i in OrderIssues(o, intent, filled, notional) <==> WrongWithOrder(i, o, intent, filled, notional)
  {
    AverageDriftIsExact(o, filled, notional);
    PartsTold(i, o.id, intent.None?, intent.Some? && !SameInstruction(o, intent.value), filled != o.filledQty,
              filled > o.qty, filled > 0.0 && o.avgFillPrice != Some(notional / filled), ExpectedStatus(o, filled));
  }

  /** The order in question, with what its fills add up to. */
  ghost predicate WrongOrder(i: Issue, o: Order, intents: map<IntentId, OrderIntent>, fills: seq<Fill>) {
    WrongWithOrder(i, o, Get(intents, o.intentId), FilledQty(fills, o.id), FilledNotional(fills, o.id))
  }

  lemma {:induction false} AllOrderIssuesAreCaused(i: Issue, orders: seq<Order>, intents: map<IntentId, OrderIntent>,
                                                   fills: seq<Fill>)
    ensures i in AllOrderIssues(orders, intents, fills) <==> exists o :: o in orders && WrongOrder(i, o, intents, fills)
  {
    if orders != [] {
      var front, o := orders[..|orders| - 1], orders[|orders| - 1];
      AllOrderIssuesAreCaused(i, front, intents, fills);
      OrderIssuesAreCaused(i, o, Get(intents, o.intentId), FilledQty(fills, o.id), FilledNotional(fills, o.id));
      assert AllOrderIssues(orders, intents, fills) == AllOrderIssues(front, intents, fills)
        + OrderIssues(o, Get(intents, o.intentId), FilledQty(fills, o.id), FilledNotional(fills, o.id));
      assert forall x :: x in orders <==> x in front || x == o;
      if WrongOrder(i, o, intents, fills) { assert o in orders; }
      if x :| x in front && WrongOrder(i, x, intents, fills) { assert x in orders; }
    }
  }

  // ---------------------------------------------------------------------- fills

  /** What is wrong with one fill when its turn comes in the replay. */
  predicate WrongWithFill(i: Issue, before: Replay, f: Fill, orders: map<OrderId, Order>, m: CostModel)
    requires ValidPortfolio(before.portfolio) && ValidFill(f) && ValidCostModel(m)
  {
    match i
    case FillFeeDrift(id) => id == f.id && f.fee != FillCost(f, m).totalFee
    case FillOrderMissing(id) => id == f.id && f.orderId !in orders
    case FillLedgerReplayFailed(id) =>
      id == f.id && f.orderId in orders
      && (f.fee == FillCost(f, m).totalFee ==> Book(before.portfolio, ReplayEvent(f, m)).Error?)
    case _ => false
  }

  lemma {:induction false} FillIssuesAreCaused(i: Issue, r: Replay, f: Fill, orders: map<OrderId, Order>, m: CostModel)
    requires ValidPortfolio(r.portfolio) && ValidFill(f) && ValidCostModel(m)
    ensures i in ReplayFill(r, f, orders, m).issues <==> i in r.issues || WrongWithFill(i, r, f, orders, m)
  {
  }

  ghost predicate WrongFill(i: Issue, k: nat, start: Portfolio, fills: seq<Fill>, orders: map<OrderId, Order>,
                            m: CostModel)
    requires ValidPortfolio(start) && ValidFills(fills) && ValidCostModel(m) && k < |fills|
  {
    WrongWithFill(i, ReplayAll(start, fills[..k], orders, m), fills[k], orders, m)
  }

  /** The fills that cause the issue, by their place. */
  ghost function Causes(i: Issue, start: Portfolio, fills: seq<Fill>, orders: map<OrderId, Order>, m: CostModel)
      : nat -> bool
    requires ValidPortfolio(start) && ValidFills(fills) && ValidCostModel(m)
  {
    (k: nat) => k < |fills| && WrongFill(i, k, start, fills, orders, m)
  }

  ghost predicate AnyBelow(causes: nat -> bool, n: nat) { exists k: nat :: k < n && causes(k) }

  lemma {:induction false} NextBelow(causes: nat -> bool, n: nat)
    ensures AnyBelow(causes, n + 1) <==> AnyBelow(causes, n) || causes(n)
  {
  }

  lemma {:induction false} OneMoreFill(i: Issue, n: nat, start: Portfolio, fills: seq<Fill>,
                                       orders: map<OrderId, Order>, m: CostModel)
    requires ValidPortfolio(start) && ValidFills(fills) && ValidCostModel(m) && n < |fills|
    ensures i in ReplayAll(start, fills[..n + 1], orders, m).issues <==>
            i in ReplayAll(start, fills[..n], orders, m).issues || WrongFill(i, n, start, fills, orders, m)
  {
    assert fills[..n + 1][..n] == fills[..n];
    FillIssuesAreCaused(i, ReplayAll(start, fills[..n], orders, m), fills[n], orders, m);
  }

  lemma {:induction false} PrefixIssuesAreCaused(i: Issue, n: nat, start: Portfolio, fills: seq<Fill>,
                                                 orders: map<OrderId, Order>, m: CostModel, causes: nat -> bool)
    requires ValidPortfolio(start) && ValidFills(fills) && ValidCostModel(m) && n <= |fills|
    requires causes == Causes(i, start, fills, orders, m)
    ensures i in ReplayAll(start, fills[..n], orders, m).issues <==> AnyBelow(causes, n)
  {
    if n > 0 {
      PrefixIssuesAreCaused(i, n - 1, start, fills, orders, m, causes);
      OneMoreFill(i, n - 1, start, fills, orders, m);
      NextBelow(causes, n - 1);
    }
  }

  lemma {:induction false} ReplayIssuesAreCaused(i: Issue, start: Portfolio, fills: seq<Fill>,
                                                 orders: map<OrderId, Order>, m: CostModel)
    requires ValidPortfolio(start) && ValidFills(fills) && ValidCostModel(m)
    ensures i in ReplayAll(start, fills, orders, m).issues <==>
            AnyBelow(Causes(i, start, fills, orders, m), |fills|)
  {
    PrefixIssuesAreCaused(i, |fills|, start, fills, orders, m, Causes(i, start, fills, orders, m));
    assert fills[..|fills|] == fills;
  }

  // --------------------------------------------------------- positions and balances

  /** What is wrong with the position of a symbol: everything is compared but the time of update. */
  predicate WrongWithPosition(i: Issue, persisted: map<Symbol, Position>, replayed: map<Symbol, Position>) {
    match i
    case PositionUnbackedByFills(s) =>
      s in persisted && s !in replayed
      && persisted[s] != Position(persisted[s].symbol, 0.0, 0.0, None, None, 0.0, persisted[s].realizedPnl, Closed,
                                  persisted[s].updatedAt)
    case PositionMissing(s) => s !in persisted && s in replayed
    case PositionStateDrift(s) =>
      s in persisted && s in replayed
      && persisted[s] != replayed[s].(symbol := persisted[s].symbol, updatedAt := persisted[s].updatedAt)
    case _ => false
  }

  function SymbolOf(i: Issue): Option<Symbol> {
    match i
    case PositionUnbackedByFills(s) => Some(s)
    case PositionMissing(s) => Some(s)
    case PositionStateDrift(s) => Some(s)
    case _ => None
  }

  lemma {:induction false} PositionIssuesAreCaused(i: Issue, s: Symbol, persisted: map<Symbol, Position>,
                                                   replayed: map<Symbol, Position>)
    ensures i in PositionIssues(s, Get(persisted, s), Get(replayed, s)) <==>
            SymbolOf(i) == Some(s) && WrongWithPosition(i, persisted, replayed)
  {
  }

  lemma {:induction false} AllPositionIssuesAreCaused(i: Issue, symbols: seq<Symbol>, persisted: map<Symbol, Position>,
                                                      replayed: map<Symbol, Position>)
    ensures i in AllPositionIssues(symbols, persisted, replayed) <==>
            WrongWithPosition(i, persisted, replayed) && SymbolOf(i).Some? && SymbolOf(i).value in symbols
  {
    if symbols != [] {
      var front, s := symbols[..|symbols| - 1], symbols[|symbols| - 1];
      AllPositionIssuesAreCaused(i, front, persisted, replayed);
      PositionIssuesAreCaused(i, s, persisted, replayed);
      assert forall x :: x in symbols <==> x in front || x == s;
    }
  }

  /** What is wrong with the balance of an asset: amounts are compared, and the persisted snapshot
      must not be older. */
  predicate WrongWithBalance(i: Issue, persisted: map<Asset, BalanceSnapshot>, replayed: map<Asset, BalanceSnapshot>) {
    match i
    case BalanceUnbackedByLedger(a) => a in persisted && a !in replayed
    case BalanceSnapshotMissing(a) => a !in persisted && a in replayed
    case BalanceStateDrift(a) =>
      a in persisted && a in replayed
      && (persisted[a].total != replayed[a].total || persisted[a].available != replayed[a].available
          || persisted[a].locked != replayed[a].locked)
    case BalanceSnapshotStale(a) =>
      a in persisted && a in replayed && persisted[a].snapshotTime < replayed[a].snapshotTime
    case _ => false
  }

  function AssetOf(i: Issue): Option<Asset> {
    match i
    case BalanceUnbackedByLedger(a) => Some(a)
    case BalanceSnapshotMissing(a) => Some(a)
    case BalanceStateDrift(a) => Some(a)
    case BalanceSnapshotStale(a) => Some(a)
    case _ => None
  }

  lemma {:induction false} BalanceIssuesAreCaused(i: Issue, a: Asset, persisted: map<Asset, BalanceSnapshot>,
                                                  replayed: map<Asset, BalanceSnapshot>)
    ensures i in BalanceIssues(a, Get(persisted, a), Get(replayed, a)) <==>
            AssetOf(i) == Some(a) && WrongWithBalance(i, persisted, replayed)
  {
  }

  lemma {:induction false} AllBalanceIssuesAreCaused(i: Issue, assets: seq<Asset>,
                                                     persisted: map<Asset, BalanceSnapshot>,
                                                     replayed: map<Asset, BalanceSnapshot>)
    ensures i in AllBalanceIssues(assets, persisted, replayed) <==>
            WrongWithBalance(i, persisted, replayed) && AssetOf(i).Some? && AssetOf(i).value in assets
  {
    if assets != [] {
      var front, a := assets[..|assets| - 1], assets[|assets| - 1];
      AllBalanceIssuesAreCaused(i, front, persisted, replayed);
      BalanceIssuesAreCaused(i, a, persisted, replayed);
      assert forall x :: x in assets <==> x in front || x == a;
    }
  }

  // ----------------------------------------------------------------- all together

  /** The latest snapshot of each asset, told by times alone. */
  ghost predicate Latest(latest: map<Asset, BalanceSnapshot>, balances: seq<BalanceSnapshot>) {
    && (forall b :: b in balances ==> b.asset in latest)
    && (forall a :: a in latest ==>
          latest[a] in balances && latest[a].asset == a
          && forall b :: b in balances && b.asset == a ==> b.snapshotTime <= latest[a].snapshotTime)
  }

  lemma {:induction false} SortedScanIsLatest(sorted: seq<BalanceSnapshot>)
    requires forall i, j :: 0 <= i < j < |sorted| ==> !SnapshotBefore(sorted[j], sorted[i])
    ensures Latest(LatestByAsset(sorted), sorted)
  {
    if sorted != [] {
      var front, last := sorted[..|sorted| - 1], sorted[|sorted| - 1];
      SortedScanIsLatest(front);
      assert forall b :: b in sorted <==> b in front || b == last;
      forall b | b in front && b.asset == last.asset ensures b.snapshotTime <= last.snapshotTime {
        var i :| 0 <= i < |front| && front[i] == b;
        assert !SnapshotBefore(sorted[|sorted| - 1], sorted[i]);
      }
    }
  }

  /** Something is wrong with the facts: with an order, a fill, a position or a balance. */
  ghost predicate Wrong(i: Issue, facts: Facts, m: CostModel, at: Time, latest: map<Asset, BalanceSnapshot>)
    requires ValidFacts(facts) && ValidCostModel(m)
  {
    SortedFactsAreValid(facts);
    var fills, replay := SortBy(facts.fills, FillBefore), FactsReplay(facts, m);
    var replayed := ReleaseAll(replay.portfolio.positions, facts.tradeDate, at);
    || (exists o :: o in facts.orders && WrongOrder(i, o, IntentMap(facts.intents), facts.fills))
    || AnyBelow(Causes(i, FactsBaseline(facts), fills, OrderMap(facts.orders), m), |fills|)
    || WrongWithPosition(i, PositionMap(facts.positions), replayed)
    || WrongWithBalance(i, latest, replay.portfolio.balances)
  }

  lemma {:induction false} InConcat(i: Issue, a: seq<Issue>, b: seq<Issue>, c: seq<Issue>, d: seq<Issue>)
    ensures i in Concat4(a, b, c, d) <==> i in a || i in b || i in c || i in d
  {
  }

  /** An issue is reported exactly when something is wrong, and it says what. */
  lemma {:induction false} IssuesTellWhatIsWrong(i: Issue, facts: Facts, m: CostModel, at: Time)
    returns (latest: map<Asset, BalanceSnapshot>)
    requires ValidFacts(facts) && ValidCostModel(m)
    ensures Latest(latest, facts.balances)
    ensures i in ExpectedIssues(facts, m, at) <==> Wrong(i, facts, m, at, latest)
  {
    latest := LatestByAsset(SortBy(facts.balances, SnapshotBefore));
    LatestOfFacts(facts);
    IssueIsInOnePart(i, facts, m, at, latest);
  }

  lemma {:induction false} LatestOfFacts(facts: Facts)
    ensures Latest(LatestByAsset(SortBy(facts.balances, SnapshotBefore)), facts.balances)
  {
    KeysAreOrders();
    SortSorts(facts.balances, SnapshotBefore);
    var sorted := SortBy(facts.balances, SnapshotBefore);
    SortedScanIsLatest(sorted);
    forall b ensures b in sorted <==> b in facts.balances {
      assert b in sorted <==> b in multiset(sorted);
      assert b in facts.balances <==> b in multiset(facts.balances);
    }
  }

  lemma {:induction false} IssueIsInOnePart(i: Issue, facts: Facts, m: CostModel, at: Time,
                                            latest: map<Asset, BalanceSnapshot>)
    requires ValidFacts(facts) && ValidCostModel(m)
    requires latest == LatestByAsset(SortBy(facts.balances, SnapshotBefore))
    ensures i in ExpectedIssues(facts, m, at) <==> Wrong(i, facts, m, at, latest)
  {
    SortedFactsAreValid(facts);
    var replay := FactsReplay(facts, m);
    var persisted := PositionMap(facts.positions);
    var replayed := ReleaseAll(replay.portfolio.positions, facts.tradeDate, at);
    AllOrderIssuesAreCaused(i, facts.orders, IntentMap(facts.intents), facts.fills);
    ReplayIssuesAreCaused(i, FactsBaseline(facts), SortBy(facts.fills, FillBefore), OrderMap(facts.orders), m);
    AllPositionIssuesAreCaused(i, SortedKeys(persisted.Keys + replayed.Keys), persisted, replayed);
    AllBalanceIssuesAreCaused(i, SortedKeys(latest.Keys + replay.portfolio.balances.Keys), latest,
                              replay.portfolio.balances);
    InConcat(i, AllOrderIssues(facts.orders, IntentMap(facts.intents), facts.fills), replay.issues,
             AllPositionIssues(SortedKeys(persisted.Keys + replayed.Keys), persisted, replayed),
             AllBalanceIssues(SortedKeys(latest.Keys + replay.portfolio.balances.Keys), latest,
                              replay.portfolio.balances));
  }

  /** A fill that is reported as missing its order or as failed is not booked, and every other is. */
  lemma {:induction false} WrongFillsAreNotBooked(r: Replay, f: Fill, orders: map<OrderId, Order>, m: CostModel,
                                                  r': Replay)
    requires ValidPortfolio(r.portfolio) && ValidFill(f) && ValidCostModel(m) && r' == ReplayFill(r, f, orders, m)
    ensures
      if WrongWithFill(FillOrderMissing(f.id), r, f, orders, m)
         || WrongWithFill(FillLedgerReplayFailed(f.id), r, f, orders, m)
      then r'.portfolio == r.portfolio && r'.count == r.count
      else r'.count == r.count + 1 && Book(r.portfolio, ReplayEvent(f, m)) == Ok(r'.portfolio)
  {
  }
}
