/** What the numeric columns do to the exact values: ten decimals are stored, and the replay,
    which is exact, reports the rest as drift. */
module StorageGrid {
  import opened Prelude
  import opened Execution
  import opened Costs
  import opened Ledger
  import opened Reconciler

  const GRID: real := 10_000_000_000.0

  /** A value as a numeric column of scale ten returns it: to the nearest, ties away from zero. */
  function Stored(x: real): real {
    if x >= 0.0 then ((x * GRID + 0.5).Floor as real) / GRID
    else -(((-x * GRID + 0.5).Floor as real) / GRID)
  }

  /** At most ten decimals. */
  predicate Storable(x: real) { (x * GRID).Floor as real == x * GRID }

  /** Rounding n tenths of a nano is exact for whole n only. */
  lemma {:induction false} NearestIsExact(scaled: real)
    requires scaled >= 0.0
    ensures (scaled + 0.5).Floor as real == scaled <==> scaled.Floor as real == scaled
    ensures -0.5 <= (scaled + 0.5).Floor as real - scaled <= 0.5
  {
    var below, nearest := scaled.Floor, (scaled + 0.5).Floor;
    assert below as real <= scaled < below as real + 1.0;
    assert nearest as real <= scaled + 0.5 < nearest as real + 1.0;
    if nearest as real == scaled { assert below == nearest; }
    if below as real == scaled { assert nearest == below; }
  }

  lemma {:induction false} NegatedWhole(scaled: real)
    ensures (-scaled).Floor as real == -scaled <==> scaled.Floor as real == scaled
  {
    if scaled.Floor as real == scaled { assert -scaled == (-(scaled.Floor)) as real; }
    if (-scaled).Floor as real == -scaled { assert scaled == (-((-scaled).Floor)) as real; }
  }

  lemma {:induction false} OffTheGrid(n: real, x: real)
    ensures n / GRID == x <==> n == x * GRID
    ensures (n / GRID - x) * GRID == n - x * GRID
  {
  }

  /** A value comes back unchanged exactly if it has no more than ten decimals; otherwise it comes
      back within half a unit of the tenth. */
  lemma {:induction false} StoredIsExact(x: real)
    ensures Stored(x) == x <==> Storable(x)
    ensures -0.5 <= (Stored(x) - x) * GRID <= 0.5
  {
    var scaled := x * GRID;
    if x >= 0.0 {
      NearestIsExact(scaled);
      OffTheGrid((scaled + 0.5).Floor as real, x);
    } else {
      NearestIsExact(-scaled);
      NegatedWhole(scaled);
      OffTheGrid(-((-scaled + 0.5).Floor as real), x);
    }
  }

  function StoredPrice(x: Option<real>): Option<real> { if x.Some? then Some(Stored(x.value)) else None }
  predicate StorablePrice(x: Option<real>) { x.Some? ==> Storable(x.value) }

  /** A position as it is read back. */
  function StoredPosition(p: Position): Position {
    p.(qty := Stored(p.qty), sellableQty := Stored(p.sellableQty), avgEntryPrice := StoredPrice(p.avgEntryPrice),
       markPrice := StoredPrice(p.markPrice), unrealizedPnl := Stored(p.unrealizedPnl),
       realizedPnl := Stored(p.realizedPnl))
  }

  predicate StorablePosition(p: Position) {
    && Storable(p.qty) && Storable(p.sellableQty) && StorablePrice(p.avgEntryPrice) && StorablePrice(p.markPrice)
    && Storable(p.unrealizedPnl) && Storable(p.realizedPnl)
  }

  lemma {:induction false} OnlyWholesAreStorable(x: real, n: int)
    requires x * GRID == n as real
    ensures Storable(x)
  {
  }

  lemma {:induction false} SumsScale(x: real, y: real, scale: real)
    ensures (x + y) * scale == x * scale + y * scale && (x - y) * scale == x * scale - y * scale
  {
  }

  lemma {:induction false} SumIsStorable(x: real, y: real)
    requires Storable(x) && Storable(y)
    ensures Storable(x + y) && Storable(x - y)
  {
    SumsScale(x, y, GRID);
    OnlyWholesAreStorable(x + y, (x * GRID).Floor + (y * GRID).Floor);
    OnlyWholesAreStorable(x - y, (x * GRID).Floor - (y * GRID).Floor);
  }

  lemma {:induction false} StoredPriceIsExact(x: Option<real>)
    ensures StoredPrice(x) == x <==> StorablePrice(x)
  {
    if x.Some? { StoredIsExact(x.value); }
  }

  function StoredBalance(b: BalanceSnapshot): BalanceSnapshot {
    b.(total := Stored(b.total), available := Stored(b.available), locked := Stored(b.locked))
  }

  predicate StorableBalance(b: BalanceSnapshot) { Storable(b.total) && Storable(b.available) && Storable(b.locked) }

  function StoredFill(f: Fill): Fill { f.(qty := Stored(f.qty), price := Stored(f.price), fee := Stored(f.fee)) }

  predicate StorableFill(f: Fill) { Storable(f.qty) && Storable(f.price) && Storable(f.fee) }

  lemma {:induction false} StoredPositionIsExact(p: Position)
    ensures StoredPosition(p) == p <==> StorablePosition(p)
  {
    StoredIsExact(p.qty);
    StoredIsExact(p.sellableQty);
    StoredPriceIsExact(p.avgEntryPrice);
    StoredPriceIsExact(p.markPrice);
    StoredIsExact(p.unrealizedPnl);
    StoredIsExact(p.realizedPnl);
  }

  lemma {:induction false} StoredBalanceIsExact(b: BalanceSnapshot)
    ensures StoredBalance(b) == b <==> StorableBalance(b)
  {
    StoredIsExact(b.total);
    StoredIsExact(b.available);
    StoredIsExact(b.locked);
  }

  lemma {:induction false} StoredFillIsExact(f: Fill)
    ensures StoredFill(f) == f <==> StorableFill(f)
  {
    StoredIsExact(f.qty);
    StoredIsExact(f.price);
    StoredIsExact(f.fee);
  }

  /** One exact booking, stored once, differs from itself exactly if one of its numbers has more
      than ten decimals. */
  lemma {:induction false} StoredPositionDrifts(p: Position)
    ensures PositionIssues(p.symbol, Some(StoredPosition(p)), Some(p)) == [] <==> StorablePosition(p)
  {
    StoredPositionIsExact(p);
    PositionIssuesAreExact(p.symbol, Some(StoredPosition(p)), Some(p));
  }

  /** An executed order that tells its fills is reported exactly if its average has more. */
  lemma {:induction false} StoredAverageDrifts(o: Order, intent: Option<OrderIntent>, filled: real, notional: real)
    requires filled > 0.0 && OrderConsistent(o, intent, filled, notional)
    ensures OrderIssues(o.(avgFillPrice := StoredPrice(o.avgFillPrice)), intent, filled, notional) == []
      <==> Storable(notional / filled)
  {
    StoredIsExact(notional / filled);
    OrderIssuesAreExact(o.(avgFillPrice := StoredPrice(o.avgFillPrice)), intent, filled, notional);
  }
}
