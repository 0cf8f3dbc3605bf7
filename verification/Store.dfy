/** The persisted tables and the rules their save operations follow. */
module Store {
  import opened Prelude
  import opened Execution
  import opened Costs
  import opened Ledger

  /** One account's tables. Intents are also indexed by their idempotency key, which
      names the signal; fills and snapshots are kept in the order they were written. */
  datatype Tables = Tables(
    signals: map<SignalId, Signal>,
    intents: map<IntentId, OrderIntent>,
    intentBySignal: map<SignalId, IntentId>,
    orders: map<OrderId, Order>,
    fills: seq<Fill>,
    positions: map<Symbol, Position>,
    balances: seq<BalanceSnapshot>)

  const EmptyTables := Tables(map[], map[], map[], map[], [], map[], [])

  // ----------------------------------------------------------------------- reads

  predicate HasFill(t: Tables, id: FillId) {
    exists i :: 0 <= i < |t.fills| && t.fills[i].id == id
  }

  /** The snapshot of an asset with the greatest snapshot time. */
  function LatestSnapshot(balances: seq<BalanceSnapshot>, asset: Asset): Option<BalanceSnapshot> {
    if balances == [] then None
    else
      var before, last := LatestSnapshot(balances[..|balances| - 1], asset), balances[|balances| - 1];
      if last.asset == asset && (before.None? || before.value.snapshotTime < last.snapshotTime)
      then Some(last) else before
  }

  function LatestBalance(t: Tables, asset: Asset): Option<BalanceSnapshot> {
    LatestSnapshot(t.balances, asset)
  }

  /** It is a snapshot of the asset, and no other of the asset is later. */
  lemma {:induction false} LatestSnapshotIsLatest(balances: seq<BalanceSnapshot>, asset: Asset)
    ensures LatestSnapshot(balances, asset).None? <==> forall b :: b in balances ==> b.asset != asset
    ensures LatestSnapshot(balances, asset).Some? ==>
      var latest := LatestSnapshot(balances, asset).value;
      && latest in balances && latest.asset == asset
      && forall b :: b in balances && b.asset == asset ==> b.snapshotTime <= latest.snapshotTime
  {
    if balances != [] {
      var front, last := balances[..|balances| - 1], balances[|balances| - 1];
      LatestSnapshotIsLatest(front, asset);
      assert forall b :: b in balances <==> b in front || b == last;
    }
  }

  predicate IsOpen(p: Position) { p.status == Open }

  function OpenAmong(symbols: seq<Symbol>, positions: map<Symbol, Position>): seq<Position> {
    if symbols == [] then []
    else
      var s := symbols[|symbols| - 1];
      OpenAmong(symbols[..|symbols| - 1], positions)
      + if s in positions && IsOpen(positions[s]) then [positions[s]] else []
  }

  /** The open positions, by symbol. */
  function OpenPositions(t: Tables): seq<Position> {
    OpenAmong(SortedKeys(t.positions.Keys), t.positions)
  }

  lemma {:induction false} OpenAmongIsExact(symbols: seq<Symbol>, positions: map<Symbol, Position>, p: Position)
    ensures p in OpenAmong(symbols, positions) <==>
            exists s :: s in symbols && s in positions && positions[s] == p && p.status == Open
  {
    if symbols != [] {
      var front, last := symbols[..|symbols| - 1], symbols[|symbols| - 1];
      OpenAmongIsExact(front, positions, p);
      assert forall s :: s in symbols <==> s in front || s == last;
    }
  }

  /** They are the rows whose status says so, and no others. */
  lemma {:induction false} OpenPositionsAreExact(t: Tables, p: Position)
    ensures p in OpenPositions(t) <==> exists s :: s in t.positions && t.positions[s] == p && p.status == Open
  {
    OpenAmongIsExact(SortedKeys(t.positions.Keys), t.positions, p);
  }

  /** The intent the idempotency key of a signal leads to. */
  function IntentOf(t: Tables, signal: SignalId): Option<OrderIntent> {
    if signal in t.intentBySignal && t.intentBySignal[signal] in t.intents
    then Some(t.intents[t.intentBySignal[signal]]) else None
  }

  predicate Submitted(t: Tables, id: IntentId) {
    id in t.intents && t.intents[id].status == IntentSubmitted
  }

  predicate RecentlyActive(t: Tables, i: OrderIntent, symbol: Symbol, after: Time) {
    && i.symbol == symbol && i.createdAt >= after && i.status in {IntentNew, IntentSubmitted}
    && (OrderId(i.id) in t.orders ==> Active(t.orders[OrderId(i.id)]))
  }

  function RecentAmong(ids: seq<IntentId>, t: Tables, symbol: Symbol, after: Time): seq<OrderIntent> {
    if ids == [] then []
    else
      var id := ids[|ids| - 1];
      RecentAmong(ids[..|ids| - 1], t, symbol, after)
      + if id in t.intents && RecentlyActive(t, t.intents[id], symbol, after) then [t.intents[id]] else []
  }

  function RecentActiveIntents(t: Tables, symbol: Symbol, after: Time): seq<OrderIntent> {
    RecentAmong(SortedKeys(t.intents.Keys), t, symbol, after)
  }

  /** Created in the window for the symbol, not given up, and its order, if there is one, still working. */
  predicate InWindow(t: Tables, i: OrderIntent, symbol: Symbol, after: Time) {
    && i.symbol == symbol && after <= i.createdAt && i.status != IntentRejected && i.status != IntentExpired
    && (OrderId(i.id) in t.orders ==>
          var status := t.orders[OrderId(i.id)].status;
          status != Filled && status != Canceled && status != Rejected)
  }

  lemma {:induction false} RecentAmongIsExact(ids: seq<IntentId>, t: Tables, symbol: Symbol, after: Time,
                                              i: OrderIntent)
    ensures i in RecentAmong(ids, t, symbol, after) <==>
            exists id :: id in ids && id in t.intents && t.intents[id] == i && InWindow(t, i, symbol, after)
  {
    if ids != [] {
      var front, last := ids[..|ids| - 1], ids[|ids| - 1];
      RecentAmongIsExact(front, t, symbol, after, i);
      assert forall id :: id in ids <==> id in front || id == last;
    }
  }

  /** The duplicate window holds exactly these intents. */
  lemma {:induction false} RecentIntentsAreExact(t: Tables, symbol: Symbol, after: Time, i: OrderIntent)
    ensures i in RecentActiveIntents(t, symbol, after) <==>
            exists id :: id in t.intents && t.intents[id] == i && InWindow(t, i, symbol, after)
  {
    RecentAmongIsExact(SortedKeys(t.intents.Keys), t, symbol, after, i);
  }

  // ---------------------------------------------------------------------- writes

  /** One committed transaction. */
  datatype Write =
    | WSignal(signal: Signal)
    | WIntent(intent: OrderIntent)
    | WOrder(order: Order)
    | WFill(fill: Fill)
    | WPosition(position: Position)
    | WBalance(balance: BalanceSnapshot)

  predicate HasSnapshotAt(balances: seq<BalanceSnapshot>, asset: Asset, at: Time) {
    exists i :: 0 <= i < |balances| && balances[i].asset == asset && balances[i].snapshotTime == at
  }

  /** What each save does to its table: signals, fills and snapshots are never overwritten. */
  function Commit(t: Tables, w: Write): Tables {
    match w
    case WSignal(s) => if s.id in t.signals then t else t.(signals := t.signals[s.id := s])
    case WIntent(i) => t.(intents := t.intents[i.id := i], intentBySignal := t.intentBySignal[i.signalId := i.id])
    case WOrder(o) => t.(orders := t.orders[o.id := o])
    case WFill(f) => if HasFill(t, f.id) then t else t.(fills := t.fills + [f])
    case WPosition(p) => t.(positions := t.positions[p.symbol := p])
    case WBalance(b) =>
      if HasSnapshotAt(t.balances, b.asset, b.snapshotTime) then t else t.(balances := t.balances + [b])
  }

  /** The tables after a run of committed writes. */
  function CommitAll(t: Tables, ws: seq<Write>): Tables {
    if ws == [] then t else Commit(CommitAll(t, ws[..|ws| - 1]), ws[|ws| - 1])
  }

  lemma {:induction false} CommitAllConcat(t: Tables, a: seq<Write>, b: seq<Write>)
    ensures CommitAll(t, a + b) == CommitAll(CommitAll(t, a), b)
  {
    if b == [] {
      assert a + b == a;
    } else {
      CommitAllConcat(t, a, b[..|b| - 1]);
      assert (a + b)[..|a + b| - 1] == a + b[..|b| - 1];
    }
  }

  lemma {:induction false} CommitOne(t: Tables, w: Write)
    ensures CommitAll(t, [w]) == Commit(t, w)
  {
    assert [w][..0] == [];
    assert CommitAll(t, []) == t;
  }

  // --------------------------------------------------------- runs of writes

  /** Every write is, where it is committed, one that ok allows. */
  ghost predicate Every(ok: (Tables, Write) -> bool, t: Tables, ws: seq<Write>) {
    ws == [] || (Every(ok, t, ws[..|ws| - 1]) && ok(CommitAll(t, ws[..|ws| - 1]), ws[|ws| - 1]))
  }

  lemma {:induction false} EveryPrefix(ok: (Tables, Write) -> bool, t: Tables, ws: seq<Write>, k: nat)
    requires Every(ok, t, ws) && k <= |ws|
    ensures Every(ok, t, ws[..k])
  {
    if k == |ws| {
      assert ws[..k] == ws;
    } else {
      EveryPrefix(ok, t, ws[..|ws| - 1], k);
      assert ws[..|ws| - 1][..k] == ws[..k];
    }
  }

  lemma {:induction false} EveryBoth(ok: (Tables, Write) -> bool, t: Tables, a: seq<Write>, b: seq<Write>)
    requires Every(ok, t, a) && Every(ok, CommitAll(t, a), b)
    ensures Every(ok, t, a + b)
  {
    if b == [] {
      assert a + b == a;
    } else {
      assert (a + b)[..|a + b| - 1] == a + b[..|b| - 1];
      EveryBoth(ok, t, a, b[..|b| - 1]);
      CommitAllConcat(t, a, b[..|b| - 1]);
    }
  }

  lemma {:induction false} EveryOne(ok: (Tables, Write) -> bool, t: Tables, w: Write)
    requires ok(t, w)
    ensures Every(ok, t, [w])
  {
    assert [w][..0] == [];
  }

  lemma {:induction false} EveryTwo(ok: (Tables, Write) -> bool, t: Tables, a: Write, b: Write)
    requires ok(t, a) && ok(Commit(t, a), b)
    ensures Every(ok, t, [a, b])
  {
    EveryOne(ok, t, a);
    CommitOne(t, a);
    EveryOne(ok, Commit(t, a), b);
    EveryBoth(ok, t, [a], [b]);
    assert [a] + [b] == [a, b];
  }

  lemma {:induction false} EveryThree(ok: (Tables, Write) -> bool, t: Tables, a: Write, b: Write, c: Write)
    requires ok(t, a) && ok(Commit(t, a), b) && ok(Commit(Commit(t, a), b), c)
    ensures Every(ok, t, [a, b, c]) && CommitAll(t, [a, b, c]) == Commit(Commit(Commit(t, a), b), c)
  {
    CommitOne(t, a);
    CommitOne(Commit(t, a), b);
    EveryOne(ok, t, a);
    EveryOne(ok, Commit(t, a), b);
    EveryOne(ok, Commit(Commit(t, a), b), c);
    EveryBoth(ok, t, [a], [b]);
    CommitAllConcat(t, [a], [b]);
    EveryBoth(ok, t, [a] + [b], [c]);
    assert [a] + [b] + [c] == [a, b, c] && [a, b, c][..2] == [a] + [b];
  }

  /** An order row may only move along the lifecycle. */
  predicate MaySaveOrder(t: Tables, o: Order) {
    o.id in t.orders ==> CanTransition(t.orders[o.id].status, o.status)
  }

  // ------------------------------------------------------------- what is never lost

  /** Signals stay as they were first saved, fills and snapshots are only added behind those there
      are, and no row of the other tables goes away. */
  ghost predicate Grown(t: Tables, t': Tables) {
    && (forall s :: s in t.signals ==> s in t'.signals && t'.signals[s] == t.signals[s])
    && t.fills <= t'.fills && t.balances <= t'.balances
    && t.intents.Keys <= t'.intents.Keys && t.orders.Keys <= t'.orders.Keys && t.positions.Keys <= t'.positions.Keys
  }

  /** One fill under each id, one snapshot of an asset at each time. */
  ghost predicate Unrepeated(t: Tables) {
    && (forall i, j :: 0 <= i < j < |t.fills| ==> t.fills[i].id != t.fills[j].id)
    && (forall i, j :: 0 <= i < j < |t.balances| && t.balances[i].asset == t.balances[j].asset ==>
          t.balances[i].snapshotTime != t.balances[j].snapshotTime)
  }

  lemma {:induction false} GrownFurther(a: Tables, b: Tables, c: Tables)
    requires Grown(a, b) && Grown(b, c)
    ensures Grown(a, c)
  {
  }

  /** Whatever is written, nothing is erased and nothing is saved twice. */
  lemma {:induction false} WritesEraseNothing(t: Tables, ws: seq<Write>)
    ensures Grown(t, CommitAll(t, ws))
    ensures Unrepeated(t) ==> Unrepeated(CommitAll(t, ws))
  {
    if ws != [] {
      var t1 := CommitAll(t, ws[..|ws| - 1]);
      WritesEraseNothing(t, ws[..|ws| - 1]);
      WriteErasesNothing(t1, ws[|ws| - 1], CommitAll(t, ws));
      GrownFurther(t, t1, CommitAll(t, ws));
    }
  }

  lemma {:induction false} WriteErasesNothing(t: Tables, w: Write, t': Tables)
    requires t' == Commit(t, w)
    ensures Grown(t, t')
    ensures Unrepeated(t) ==> Unrepeated(t')
  {
    match w
    case WFill(f) => FillIsNotRepeated(t, f, t');
    case WBalance(b) => SnapshotIsNotRepeated(t, b, t');
    case _ => assert t'.fills == t.fills && t'.balances == t.balances;
  }

  lemma {:induction false} FillIsNotRepeated(t: Tables, f: Fill, t': Tables)
    requires t' == Commit(t, WFill(f))
    ensures Grown(t, t')
    ensures Unrepeated(t) ==> Unrepeated(t')
  {
    assert t'.balances == t.balances;
  }

  lemma {:induction false} SnapshotIsNotRepeated(t: Tables, b: BalanceSnapshot, t': Tables)
    requires t' == Commit(t, WBalance(b))
    ensures Grown(t, t')
    ensures Unrepeated(t) ==> Unrepeated(t')
  {
    assert t'.fills == t.fills;
  }
}
