/** A concrete account on stored rows: three buys of one stock, free of fees. The second leaves
    an average that no column holds; the third is reported although all that the replay books
    for it would fit. */
module RoundingCase {
  import opened Prelude
  import opened Execution
  import opened Costs
  import opened Ledger
  import opened LedgerRuns
  import opened Store
  import opened Oms
  import opened Reconciler
  import opened LedgerAgreement
  import opened OrderAgreement
  import opened Agreement
  import opened StorageGrid
  import opened RoundedBooks
  import opened RoundedDrift

  function NoFees(): CostModel { CostModel(0.0, 0.0, 0.0) }

  function Buying(n: nat, qty: real, price: real): Fill {
    Fill(FillId(OrderId(n), 1), OrderId(n), 1, Buy, qty, price, 0.0, n, n)
  }

  lemma {:induction false} BuyingIsFree(n: nat, qty: real, price: real)
    requires qty > 0.0 && price > 0.0
    ensures
      var f := Buying(n, qty, price);
      && ValidFill(f) && Charged(f, NoFees())
      && FillCost(f, NoFees()) == CostBreakdown(CNY, qty * price, 0.0, 0.0, 0.0, 0.0, -(qty * price))
  {
    assert RoundFee(0.0) == 0.0;
    assert RebuiltComponent(qty * price, 0.0) == RoundFee(0.0);
  }

  predicate OfTheStock(e: FillEvent) { e.fill.symbol == 1 && e.cost.currency == CNY }

  function Shares(qty: real, avg: real, mark: real, unrealized: real, at: Time): Position {
    Position(1, qty, 0.0, Some(avg), Some(mark), unrealized, 0.0, Open, at)
  }

  function Money(total: real, at: Time): BalanceSnapshot { BalanceSnapshot(CNY, total, total, 0.0, at, at) }

  function Holding(p: Position, b: BalanceSnapshot): Portfolio { Portfolio(map[1 := p], map[CNY := b]) }

  function Nothing(b: BalanceSnapshot): Portfolio { Portfolio(map[], map[CNY := b]) }

  /** The event of such a fill, as the adapter reports it and the replay rebuilds it. */
  predicate FreeBuy(e: FillEvent, n: nat, qty: real, price: real) {
    && e.fill == Buying(n, qty, price) && e.eventTime == n
    && e.cost == CostBreakdown(CNY, qty * price, 0.0, 0.0, 0.0, 0.0, -(qty * price))
  }

  lemma {:induction false} FreeBuyIsValid(e: FillEvent, n: nat, qty: real, price: real)
    requires FreeBuy(e, n, qty, price) && qty > 0.0 && price > 0.0
    ensures ValidFillEvent(e)
  {
  }

  lemma {:induction false} FirstAverage(qty: real, price: real)
    requires qty > 0.0
    ensures BlendedAverage(0.0, 0.0, qty * price, qty) == price && Gain(price, price, qty) == 0.0
  {
  }

  lemma {:induction false} OnlyRow<K, V>(rows: map<K, V>, k: K, v: V, w: V)
    ensures map[k := v][k := w] == map[k := w] && map[][k := w] == map[k := w]
    ensures rows[k := v] == map[k := v] ==> rows[k := w] == map[k := w]
  {
    if rows[k := v] == map[k := v] { assert rows.Keys <= {k} by { assert rows.Keys <= rows[k := v].Keys; } }
  }

  lemma {:induction false} PaysCash(e: FillEvent, n: nat, gross: real, cash: real, at: Time)
    requires e.cost.currency == CNY && e.cost.netCashFlow == -gross && e.eventTime == n && cash >= gross
    ensures ApplyCashFlow(e, Some(Money(cash, at))) == Ok(Money(cash - gross, n))
  {
  }

  lemma {:induction false} FirstShares(e: FillEvent, n: nat, qty: real, price: real)
    requires FreeBuy(e, n, qty, price) && qty > 0.0 && price > 0.0 && ValidFillEvent(e)
    ensures ApplyBuy(e, None).0 == Shares(qty, price, price, 0.0, n)
  {
    FirstAverage(qty, price);
  }

  lemma {:induction false} FirstBooked(pf: Portfolio, e: FillEvent, p: Position, b: BalanceSnapshot,
                                       b': BalanceSnapshot, after: Portfolio)
    requires ValidFillEvent(e) && ValidBalance(b) && b.asset == CNY && pf == Nothing(b)
    requires OfTheStock(e) && e.fill.side == Buy && b'.asset == CNY
    requires ApplyBuy(e, None).0 == p && ApplyCashFlow(e, Some(b)) == Ok(b') && after == Holding(p, b')
    ensures ValidPortfolio(pf) && Book(pf, e) == Ok(after)
  {
    OnlyRow(map[1 := p], 1, p, p);
    OnlyRow(map[CNY := b'], CNY, b, b');
  }

  /** The first buy. */
  lemma {:induction false} FirstBuy(pf: Portfolio, e: FillEvent, n: nat, qty: real, price: real, cash: real, at: Time,
                                    after: Portfolio)
    requires FreeBuy(e, n, qty, price) && qty > 0.0 && price > 0.0 && cash >= qty * price
    requires pf == Nothing(Money(cash, at))
    requires after == Holding(Shares(qty, price, price, 0.0, n), Money(cash - qty * price, n))
    ensures ValidPortfolio(pf) && ValidFillEvent(e) && Book(pf, e) == Ok(after)
  {
    FreeBuyIsValid(e, n, qty, price);
    FirstShares(e, n, qty, price);
    PaysCash(e, n, qty * price, cash, at);
    FirstBooked(pf, e, Shares(qty, price, price, 0.0, n), Money(cash, at), Money(cash - qty * price, n), after);
  }

  /** A buy on top of shares held. */
  lemma {:induction false} NextBuy(pf: Portfolio, p: Position, e: FillEvent, n: nat, qty: real, price: real,
                                   cash: real, at: Time, avg: real, after: Portfolio)
    requires p.symbol == 1 && p.sellableQty == 0.0 && p.realizedPnl == 0.0 && ValidPosition(p)
    requires p.avgEntryPrice.Some? && DateOf(p.updatedAt) == DateOf(n)
    requires FreeBuy(e, n, qty, price) && qty > 0.0 && price > 0.0 && cash >= qty * price
    requires avg == BlendedAverage(p.qty, p.avgEntryPrice.value, qty * price, p.qty + qty)
    requires pf == Holding(p, Money(cash, at))
    requires after
      == Holding(Shares(p.qty + qty, avg, price, Gain(price, avg, p.qty + qty), n), Money(cash - qty * price, n))
    ensures ValidPortfolio(pf) && ValidFillEvent(e) && Book(pf, e) == Ok(after)
  {
    FreeBuyIsValid(e, n, qty, price);
    OnlyRow(map[1 := p], 1, p, Shares(p.qty + qty, avg, price, Gain(price, avg, p.qty + qty), n));
    OnlyRow(map[CNY := Money(cash, at)], CNY, Money(cash, at), Money(cash - qty * price, n));
  }

  /** What is stored of it. */
  lemma {:induction false} KeptAs(pf: Portfolio, e: FillEvent, p: Position, b: BalanceSnapshot,
                                  p': Position, b': BalanceSnapshot, after: Portfolio, kept: Portfolio)
    requires ValidPortfolio(pf) && ValidFillEvent(e) && Book(pf, e) == Ok(after) && after == Holding(p, b)
    requires OfTheStock(e) && p.symbol == 1 && b.asset == CNY
    requires p' == StoredPosition(p) && b' == StoredBalance(b) && ValidPosition(p') && ValidBalance(b')
    requires kept == Holding(p', b')
    ensures Persist(pf, e) == Some(kept)
  {
    BookWritesItsKeys(pf, e);
    var u := ApplyFill(e, Get(pf.positions, 1), Get(pf.balances, CNY)).value;
    assert pf.positions[1 := u.position][1] == map[1 := p][1];
    assert pf.balances[CNY := u.balance][CNY] == map[CNY := b][CNY];
    OnlyRow(pf.positions, 1, p, p');
    OnlyRow(pf.balances, CNY, b, b');
  }

  lemma {:induction false} FloorIs(y: real, n: int)
    requires n as real <= y < n as real + 1.0
    ensures y.Floor == n
  {
  }

  lemma {:induction false} RoundsTo(x: real, n: int)
    requires x >= 0.0 && n as real - 0.5 <= x * GRID < n as real + 0.5
    ensures Stored(x) == n as real / GRID
  {
    FloorIs(x * GRID + 0.5, n);
  }

  lemma {:induction false} ShortNumbers()
    ensures Storable(0.0) && Storable(1.0) && Storable(10.0) && Storable(100.0) && Storable(300.0) && Storable(400.0)
    ensures Storable(10.01) && Storable(9.98) && Storable(9000.0) && Storable(6998.0) && Storable(6000.0)
    ensures Storable(10000.0) && Storable(-8.0) && Storable(-8.00000001) && Storable(200.0)
  {
    OnlyWholesAreStorable(0.0, 0);
    OnlyWholesAreStorable(1.0, 10_000_000_000);
    OnlyWholesAreStorable(10.0, 100_000_000_000);
    OnlyWholesAreStorable(100.0, 1_000_000_000_000);
    OnlyWholesAreStorable(200.0, 2_000_000_000_000);
    OnlyWholesAreStorable(300.0, 3_000_000_000_000);
    OnlyWholesAreStorable(400.0, 4_000_000_000_000);
    OnlyWholesAreStorable(10.01, 100_100_000_000);
    OnlyWholesAreStorable(9.98, 99_800_000_000);
    OnlyWholesAreStorable(9000.0, 90_000_000_000_000);
    OnlyWholesAreStorable(6998.0, 69_980_000_000_000);
    OnlyWholesAreStorable(6000.0, 60_000_000_000_000);
    OnlyWholesAreStorable(10000.0, 100_000_000_000_000);
    OnlyWholesAreStorable(-8.0, -80_000_000_000);
    OnlyWholesAreStorable(-8.00000001, -80_000_000_100);
  }

  // ------------------------------------------------------------ the three bookings

  const OFF: real := 10.0066666667

  function Held1(): Position { Shares(100.0, 10.0, 10.0, 0.0, 1) }
  function Replayed2(): Position { Shares(300.0, 3002.0 / 300.0, 10.01, 1.0, 2) }
  function Held2(): Position { Shares(300.0, OFF, 10.01, 1.0, 2) }
  function Replayed3(): Position { Shares(400.0, 10.0, 9.98, -8.0, 3) }
  function Held3(): Position { Shares(400.0, 10.0, 9.98, -8.00000001, 3) }

  function Seed(): Portfolio { Nothing(Money(10000.0, 0)) }
  function After1(): Portfolio { Holding(Held1(), Money(9000.0, 1)) }

  lemma {:induction false} First(p: Position, b: BalanceSnapshot)
    requires p == Held1() && b == Money(9000.0, 1)
    ensures StoredPosition(p) == p && StoredBalance(b) == b && ValidPosition(p) && ValidBalance(b)
  {
    ShortNumbers();
    StoredPositionIsExact(p);
    StoredBalanceIsExact(b);
  }

  lemma {:induction false} Step1(pf: Portfolio, e: FillEvent, after: Portfolio)
    requires pf == Seed() && after == After1() && FreeBuy(e, 1, 100.0, 10.0)
    ensures ValidPortfolio(pf) && ValidFillEvent(e) && Book(pf, e) == Ok(after)
  {
    FirstBuy(pf, e, 1, 100.0, 10.0, 10000.0, 0, after);
  }

  lemma {:induction false} Step1IsStored(pf: Portfolio, e: FillEvent, after: Portfolio, p: Position, b: BalanceSnapshot)
    requires p == Held1() && b == Money(9000.0, 1) && after == After1() && OfTheStock(e)
    requires ValidPortfolio(pf) && ValidFillEvent(e) && Book(pf, e) == Ok(after)
    ensures Persist(pf, e) == Some(after)
  {
    First(p, b);
    KeptAs(pf, e, p, b, p, b, after, after);
  }

  function After2(): Portfolio { Holding(Replayed2(), Money(6998.0, 2)) }
  function Kept2(): Portfolio { Holding(Held2(), Money(6998.0, 2)) }

  lemma {:induction false} Step2(pf: Portfolio, e: FillEvent, after: Portfolio)
    requires pf == After1() && after == After2() && FreeBuy(e, 2, 200.0, 10.01)
    ensures ValidPortfolio(pf) && ValidFillEvent(e) && Book(pf, e) == Ok(after)
  {
    assert BlendedAverage(100.0, 10.0, 200.0 * 10.01, 300.0) == 3002.0 / 300.0;
    assert Gain(10.01, 3002.0 / 300.0, 300.0) == 1.0;
    NextBuy(pf, Held1(), e, 2, 200.0, 10.01, 9000.0, 1, 3002.0 / 300.0, after);
  }

  lemma {:induction false} Step2IsStored(pf: Portfolio, e: FillEvent, after: Portfolio, kept: Portfolio, p: Position,
                                         p': Position, b: BalanceSnapshot)
    requires p == Replayed2() && p' == Held2() && b == Money(6998.0, 2) && after == After2() && kept == Kept2()
    requires OfTheStock(e)
    requires ValidPortfolio(pf) && ValidFillEvent(e) && Book(pf, e) == Ok(after)
    ensures Persist(pf, e) == Some(kept)
  {
    Second(p, p', b);
    KeptAs(pf, e, p, b, p', b, after, kept);
  }

  lemma {:induction false} Second(p: Position, p': Position, b: BalanceSnapshot)
    requires p == Replayed2() && p' == Held2() && b == Money(6998.0, 2)
    ensures StoredPosition(p) == p' && OFF != 3002.0 / 300.0 && StoredBalance(b) == b
    ensures ValidPosition(p') && ValidBalance(b)
  {
    ShortNumbers();
    StoredBalanceIsExact(b);
    StoredIsExact(300.0);
    StoredIsExact(0.0);
    StoredIsExact(10.01);
    StoredIsExact(1.0);
    assert (3002.0 / 300.0) * 300.0 == 3002.0;
    RoundsTo(3002.0 / 300.0, 100_066_666_667);
  }

  function After3(): Portfolio { Holding(Replayed3(), Money(6000.0, 3)) }
  function Kept3(): Portfolio { Holding(Held3(), Money(6000.0, 3)) }
  function Unrounded3(): Position { Shares(400.0, 10.000000000025, 9.98, -8.00000001, 3) }

  lemma {:induction false} Step3(pf: Portfolio, e: FillEvent, after: Portfolio)
    requires pf == After2() && after == After3() && FreeBuy(e, 3, 100.0, 9.98)
    ensures ValidPortfolio(pf) && ValidFillEvent(e) && Book(pf, e) == Ok(after)
  {
    assert 300.0 * (3002.0 / 300.0) == 3002.0;
    NextBuy(pf, Replayed2(), e, 3, 100.0, 9.98, 6998.0, 2, 10.0, after);
  }

  lemma {:induction false} Step3OnStoredRows(pf: Portfolio, e: FillEvent, after: Portfolio)
    requires pf == Kept2() && after == Holding(Unrounded3(), Money(6000.0, 3)) && FreeBuy(e, 3, 100.0, 9.98)
    ensures ValidPortfolio(pf) && ValidFillEvent(e) && Book(pf, e) == Ok(after)
  {
    NextBuy(pf, Held2(), e, 3, 100.0, 9.98, 6998.0, 2, 10.000000000025, after);
  }

  lemma {:induction false} Step3IsStored(pf: Portfolio, e: FillEvent, after: Portfolio, kept: Portfolio, p: Position,
                                         p': Position, b: BalanceSnapshot)
    requires p == Unrounded3() && p' == Held3() && b == Money(6000.0, 3) && after == Holding(p, b) && kept == Kept3()
    requires OfTheStock(e)
    requires ValidPortfolio(pf) && ValidFillEvent(e) && Book(pf, e) == Ok(after)
    ensures Persist(pf, e) == Some(kept)
  {
    Third(p, p', b);
    KeptAs(pf, e, p, b, p', b, after, kept);
  }

  lemma {:induction false} Third(p: Position, p': Position, b: BalanceSnapshot)
    requires p == Unrounded3() && p' == Held3() && b == Money(6000.0, 3)
    ensures StoredPosition(p) == p' && StoredBalance(b) == b && ValidPosition(p') && ValidBalance(b)
  {
    ShortNumbers();
    StoredBalanceIsExact(b);
    StoredIsExact(400.0);
    StoredIsExact(0.0);
    StoredIsExact(9.98);
    StoredIsExact(-8.00000001);
    RoundsTo(10.000000000025, 100_000_000_000);
  }

  // ------------------------------------------------------- the account, fill by fill

  lemma {:induction false} FirstIsStored(pf: Portfolio, e: FillEvent, first: Portfolio)
    requires first == After1() && OfTheStock(e)
    requires ValidPortfolio(pf) && ValidFillEvent(e) && Book(pf, e) == Ok(first)
    ensures Persist(pf, e) == Some(first)
  {
    var p, b := Held1(), Money(9000.0, 1);
    Step1IsStored(pf, e, first, p, b);
  }

  lemma {:induction false} SecondIsStored(pf: Portfolio, f: FillEvent, after: Portfolio, kept: Portfolio)
    requires after == After2() && kept == Kept2() && OfTheStock(f)
    requires ValidPortfolio(pf) && ValidFillEvent(f) && Book(pf, f) == Ok(after)
    ensures Persist(pf, f) == Some(kept)
  {
    var p, p', b := Replayed2(), Held2(), Money(6998.0, 2);
    Step2IsStored(pf, f, after, kept, p, p', b);
  }

  lemma {:induction false} ThirdIsStored(pf: Portfolio, f: FillEvent, after: Portfolio, kept: Portfolio)
    requires after == Holding(Unrounded3(), Money(6000.0, 3)) && kept == Kept3() && OfTheStock(f)
    requires ValidPortfolio(pf) && ValidFillEvent(f) && Book(pf, f) == Ok(after)
    ensures Persist(pf, f) == Some(kept)
  {
    var p, p', b := Unrounded3(), Held3(), Money(6000.0, 3);
    Step3IsStored(pf, f, after, kept, p, p', b);
  }

  lemma {:induction false} FoldOneMore(pf: Portfolio, front: seq<FillEvent>, e: FillEvent, a: Portfolio,
                                       after: Portfolio, k: Portfolio, kept: Portfolio)
    requires ValidPortfolio(pf) && ValidFillEvents(front) && ValidFillEvent(e)
    requires BookAll(pf, front) == Ok(a) && PersistAll(pf, front) == Some(k)
    requires Book(a, e) == Ok(after) && Persist(k, e) == Some(kept)
    ensures ValidFillEvents(front + [e])
    ensures BookAll(pf, front + [e]) == Ok(after) && PersistAll(pf, front + [e]) == Some(kept)
  {
    assert (front + [e])[..|front|] == front;
  }

  lemma {:induction false} FirstOnTop(pf: Portfolio, front: seq<FillEvent>, e: FillEvent, first: Portfolio)
    requires ValidPortfolio(pf) && ValidFillEvents(front)
    requires BookAll(pf, front) == Ok(pf) && PersistAll(pf, front) == Some(pf)
    requires pf == Seed() && first == After1() && FreeBuy(e, 1, 100.0, 10.0)
    ensures ValidFillEvents(front + [e])
    ensures BookAll(pf, front + [e]) == Ok(first) && PersistAll(pf, front + [e]) == Some(first)
  {
    Step1(pf, e, first);
    FirstIsStored(pf, e, first);
    FoldOneMore(pf, front, e, pf, first, pf, first);
  }

  lemma {:induction false} SecondOnTop(pf: Portfolio, front: seq<FillEvent>, e: FillEvent, first: Portfolio,
                                       after: Portfolio, kept: Portfolio)
    requires ValidPortfolio(pf) && ValidFillEvents(front)
    requires BookAll(pf, front) == Ok(first) && PersistAll(pf, front) == Some(first)
    requires first == After1() && after == After2() && kept == Kept2() && FreeBuy(e, 2, 200.0, 10.01)
    ensures ValidFillEvents(front + [e])
    ensures BookAll(pf, front + [e]) == Ok(after) && PersistAll(pf, front + [e]) == Some(kept)
  {
    Step2(first, e, after);
    SecondIsStored(first, e, after, kept);
    FoldOneMore(pf, front, e, first, after, first, kept);
  }

  lemma {:induction false} ThirdBooks(two: Portfolio, two': Portfolio, e: FillEvent, after: Portfolio, third: Portfolio,
                                      kept: Portfolio)
    requires two == After2() && two' == Kept2() && after == After3() && kept == Kept3()
    requires third == Holding(Unrounded3(), Money(6000.0, 3)) && FreeBuy(e, 3, 100.0, 9.98)
    ensures ValidPortfolio(two) && ValidFillEvent(e) && Book(two, e) == Ok(after)
    ensures ValidPortfolio(two') && Book(two', e) == Ok(third)
  {
    Step3(two, e, after);
    Step3OnStoredRows(two', e, third);
  }

  lemma {:induction false} ThirdOnTop(pf: Portfolio, front: seq<FillEvent>, e: FillEvent, two: Portfolio,
                                      two': Portfolio, after: Portfolio, third: Portfolio, kept: Portfolio)
    requires ValidPortfolio(pf) && ValidFillEvents(front)
    requires BookAll(pf, front) == Ok(two) && PersistAll(pf, front) == Some(two')
    requires FreeBuy(e, 3, 100.0, 9.98) && two == After2() && two' == Kept2()
    requires third == Holding(Unrounded3(), Money(6000.0, 3)) && after == After3() && kept == Kept3()
    ensures ValidFillEvents(front + [e])
    ensures BookAll(pf, front + [e]) == Ok(after) && PersistAll(pf, front + [e]) == Some(kept)
  {
    ThirdBooks(two, two', e, after, third, kept);
    ThirdIsStored(two', e, third, kept);
    FoldOneMore(pf, front, e, two, after, two', kept);
  }

  // ------------------------------------------------------------------ the tables

  lemma {:induction false} EventsGrow(fills: seq<Fill>, f: Fill, m: CostModel)
    requires ValidFills(fills) && ValidCostModel(m) && AllCharged(fills, m) && ValidFill(f) && Charged(f, m)
    ensures ValidFills(fills + [f]) && AllCharged(fills + [f], m)
    ensures Events(fills + [f], m) == Events(fills, m) + [ReplayEvent(f, m)]
  {
    assert (fills + [f])[..|fills|] == fills;
  }

  /** One of the buys, after others. */
  lemma {:induction false} BuyGrows(fills: seq<Fill>, n: nat, qty: real, price: real) returns (e: FillEvent)
    requires ValidFills(fills) && AllCharged(fills, NoFees()) && qty > 0.0 && price > 0.0
    ensures FreeBuy(e, n, qty, price)
    ensures ValidFills(fills + [Buying(n, qty, price)]) && AllCharged(fills + [Buying(n, qty, price)], NoFees())
    ensures Events(fills + [Buying(n, qty, price)], NoFees()) == Events(fills, NoFees()) + [e]
  {
    BuyingIsFree(n, qty, price);
    EventsGrow(fills, Buying(n, qty, price), NoFees());
    e := ReplayEvent(Buying(n, qty, price), NoFees());
  }

  function OneFill(): seq<Fill> { [] + [Buying(1, 100.0, 10.0)] }
  function TwoFills(): seq<Fill> { OneFill() + [Buying(2, 200.0, 10.01)] }
  function ThreeFills(): seq<Fill> { TwoFills() + [Buying(3, 100.0, 9.98)] }

  lemma {:induction false} FoldsOfNone(pf: Portfolio)
    requires ValidPortfolio(pf)
    ensures Booked(pf, [], NoFees()) == Ok(pf) && PersistAll(pf, Events([], NoFees())) == Some(pf)
  {
  }

  lemma {:induction false} FoldsOfOne(pf: Portfolio, front: seq<Fill>, first: Portfolio)
    requires ValidPortfolio(pf) && ValidFills(front) && AllCharged(front, NoFees())
    requires Booked(pf, front, NoFees()) == Ok(pf) && PersistAll(pf, Events(front, NoFees())) == Some(pf)
    requires pf == Seed() && first == After1()
    ensures
      var fills := front + [Buying(1, 100.0, 10.0)];
      && ValidFills(fills) && AllCharged(fills, NoFees())
      && Booked(pf, fills, NoFees()) == Ok(first) && PersistAll(pf, Events(fills, NoFees())) == Some(first)
  {
    var e := BuyGrows(front, 1, 100.0, 10.0);
    FirstOnTop(pf, Events(front, NoFees()), e, first);
  }

  lemma {:induction false} FoldsOfTwo(pf: Portfolio, front: seq<Fill>, first: Portfolio, after: Portfolio,
                                      kept: Portfolio)
    requires ValidPortfolio(pf) && ValidFills(front) && AllCharged(front, NoFees())
    requires Booked(pf, front, NoFees()) == Ok(first) && PersistAll(pf, Events(front, NoFees())) == Some(first)
    requires first == After1() && after == After2() && kept == Kept2()
    ensures
      var fills := front + [Buying(2, 200.0, 10.01)];
      && ValidFills(fills) && AllCharged(fills, NoFees())
      && Booked(pf, fills, NoFees()) == Ok(after) && PersistAll(pf, Events(fills, NoFees())) == Some(kept)
  {
    var e := BuyGrows(front, 2, 200.0, 10.01);
    SecondOnTop(pf, Events(front, NoFees()), e, first, after, kept);
  }

  lemma {:induction false} FoldsOfThree(pf: Portfolio, front: seq<Fill>, two: Portfolio, two': Portfolio,
                                        after: Portfolio, kept: Portfolio)
    requires ValidPortfolio(pf) && ValidFills(front) && AllCharged(front, NoFees())
    requires Booked(pf, front, NoFees()) == Ok(two) && PersistAll(pf, Events(front, NoFees())) == Some(two')
    requires two == After2() && two' == Kept2() && after == After3() && kept == Kept3()
    ensures
      var fills := front + [Buying(3, 100.0, 9.98)];
      && ValidFills(fills) && AllCharged(fills, NoFees())
      && Booked(pf, fills, NoFees()) == Ok(after) && PersistAll(pf, Events(fills, NoFees())) == Some(kept)
  {
    var e := BuyGrows(front, 3, 100.0, 9.98);
    var third := Holding(Unrounded3(), Money(6000.0, 3));
    ThirdOnTop(pf, Events(front, NoFees()), e, two, two', after, third, kept);
  }

  /** What the tables hold differs in one number from what the replay books. */
  lemma {:induction false} HeldDrifts(t: Tables, d: int, after: Portfolio, kept: Portfolio, p: Position, q: Position)
    requires Persists(t, NoFees(), d) && Booked(Start(t), t.fills, NoFees()) == Ok(after)
    requires PersistAll(Start(t), Events(t.fills, NoFees())) == Some(kept)
    requires 1 in after.positions && after.positions[1] == p && 1 in kept.positions && kept.positions[1] == q
    requires p.avgEntryPrice != q.avgEntryPrice || p.unrealizedPnl != q.unrealizedPnl
    ensures Detected(t, NoFees())
  {
    assert SameAsOf(Get(t.positions, 1), Get(kept.positions, 1), Today(t, d));
    assert AsOf(t.positions[1], Today(t, d)).avgEntryPrice == t.positions[1].avgEntryPrice;
    assert AsOf(t.positions[1], Today(t, d)).unrealizedPnl == t.positions[1].unrealizedPnl;
    PositionDriftIsReported(t, NoFees(), after, 1);
  }

  lemma {:induction false} SecondFolds(pf: Portfolio, fills: seq<Fill>, after: Portfolio, kept: Portfolio)
    requires ValidPortfolio(pf) && pf == Seed() && fills == TwoFills() && after == After2() && kept == Kept2()
    ensures ValidFills(fills) && AllCharged(fills, NoFees())
    ensures Booked(pf, fills, NoFees()) == Ok(after) && PersistAll(pf, Events(fills, NoFees())) == Some(kept)
  {
    var first := After1();
    FoldsOfNone(pf);
    FoldsOfOne(pf, [], first);
    FoldsOfTwo(pf, OneFill(), first, after, kept);
  }

  lemma {:induction false} ThirdFolds(pf: Portfolio, fills: seq<Fill>, after: Portfolio, kept: Portfolio)
    requires ValidPortfolio(pf) && pf == Seed() && fills == ThreeFills() && after == After3() && kept == Kept3()
    ensures ValidFills(fills) && AllCharged(fills, NoFees())
    ensures Booked(pf, fills, NoFees()) == Ok(after) && PersistAll(pf, Events(fills, NoFees())) == Some(kept)
  {
    var front, two, two' := TwoFills(), After2(), Kept2();
    SecondFolds(pf, front, two, two');
    FoldsOfThree(pf, front, two, two', after, kept);
  }

  /** The second buy: 3002 / 300 is what no column holds. The account is reported, in whatever
      order its rows are read and whenever it is checked. */
  lemma {:induction false} SecondBuyIsReported(t: Tables, d: int)
    requires Persists(t, NoFees(), d) && Start(t) == Seed() && t.fills == TwoFills()
    ensures Detected(t, NoFees())
  {
    var after, kept := After2(), Kept2();
    SecondFolds(Start(t), t.fills, after, kept);
    HeldDrifts(t, d, after, kept, Replayed2(), Held2());
  }

  /** The third: all that the replay books would fit, but the persisted profit comes of the
      average that did not. */
  lemma {:induction false} ThirdBuyIsReported(t: Tables, d: int)
    requires Persists(t, NoFees(), d) && Start(t) == Seed() && t.fills == ThreeFills()
    ensures LastStorable(Start(t), Events(t.fills, NoFees())) && Detected(t, NoFees())
  {
    var after, kept := After3(), Kept3();
    ThirdFolds(Start(t), t.fills, after, kept);
    ThirdFits(t, after);
    HeldDrifts(t, d, after, kept, Replayed3(), Held3());
  }

  lemma {:induction false} ThirdFits(t: Tables, after: Portfolio)
    requires Rows(t, NoFees()) && t.fills == TwoFills() + [Buying(3, 100.0, 9.98)]
    requires Booked(Start(t), t.fills, NoFees()) == Ok(after) && after == After3()
    ensures LastStorable(Start(t), Events(t.fills, NoFees()))
  {
    var f := Buying(3, 100.0, 9.98);
    assert t.fills[..|t.fills| - 1] == TwoFills();
    ThirdNumbersFit(f, Replayed3(), Money(6000.0, 3));
    LastFits(Start(t), Events(t.fills, NoFees()), after, ReplayEvent(f, NoFees()), Replayed3(), Money(6000.0, 3));
  }

  lemma {:induction false} ThirdNumbersFit(f: Fill, p: Position, b: BalanceSnapshot)
    requires f == Buying(3, 100.0, 9.98) && p == Replayed3() && b == Money(6000.0, 3)
    ensures StorableFill(f) && StorablePosition(p) && StorableBalance(b)
  {
    ShortNumbers();
  }

  lemma {:induction false} LastFits(pf: Portfolio, es: seq<FillEvent>, after: Portfolio, e: FillEvent, p: Position,
                                    b: BalanceSnapshot)
    requires ValidPortfolio(pf) && ValidFillEvents(es) && es != [] && es[|es| - 1] == e && OfTheStock(e)
    requires BookAll(pf, es) == Ok(after) && after == Holding(p, b)
    requires StorableFill(e.fill) && StorablePosition(p) && StorableBalance(b)
    ensures LastStorable(pf, es)
  {
  }

  // --------------------------------------------------- nothing else is wrong with it

  function Instructed(n: nat, qty: real): OrderIntent {
    OrderIntent(n, n, 1, Buy, OrderType.Market, qty, None, 10.0, false, None, IntentSubmitted, n)
  }

  function Executed(n: nat, qty: real, price: real): Order {
    Order(OrderId(n), n, 1, Buy, OrderType.Market, qty, None, qty, Some(price), Filled, n, n)
  }

  /** The account after two buys, with their intents and orders. */
  function SecondAccount(): Tables {
    Tables(map[], map[1 := Instructed(1, 100.0), 2 := Instructed(2, 200.0)], map[1 := 1, 2 := 2],
           map[OrderId(1) := Executed(1, 100.0, 10.0), OrderId(2) := Executed(2, 200.0, 10.01)], TwoFills(),
           map[1 := Held2()], [Money(10000.0, 0), Money(9000.0, 1), Money(6998.0, 2)])
  }

  lemma {:induction false} OneOrderTells(t: Tables, n: nat, qty: real, price: real)
    requires n in t.intents && t.intents[n] == Instructed(n, qty) && qty > 0.0 && price > 0.0
    requires OrderId(n) in t.orders && t.orders[OrderId(n)] == Executed(n, qty, price)
    requires FilledQty(t.fills, OrderId(n)) == qty && FilledNotional(t.fills, OrderId(n)) == qty * price
    ensures OrderTellsFills(t, OrderId(n)) && ValidOrder(t.orders[OrderId(n)]) && ValidIntent(t.intents[n])
  {
    assert qty * price / qty == price;
  }

  lemma {:induction false} OneMoreFill(fills: seq<Fill>, f: Fill, o: OrderId)
    ensures FilledQty(fills + [f], o) == FilledQty(fills, o) + if f.orderId == o then f.qty else 0.0
    ensures FilledNotional(fills + [f], o) == FilledNotional(fills, o) + if f.orderId == o then Notional(f) else 0.0
  {
    assert (fills + [f])[..|fills|] == fills;
  }

  lemma {:induction false} TotalsOfTwo(fills: seq<Fill>)
    requires fills == TwoFills()
    ensures FilledQty(fills, OrderId(1)) == 100.0 && FilledNotional(fills, OrderId(1)) == 100.0 * 10.0
    ensures FilledQty(fills, OrderId(2)) == 200.0 && FilledNotional(fills, OrderId(2)) == 200.0 * 10.01
  {
    OneMoreFill([], Buying(1, 100.0, 10.0), OrderId(1));
    OneMoreFill([], Buying(1, 100.0, 10.0), OrderId(2));
    OneMoreFill(OneFill(), Buying(2, 200.0, 10.01), OrderId(1));
    OneMoreFill(OneFill(), Buying(2, 200.0, 10.01), OrderId(2));
  }

  lemma {:induction false} FillsAreOrdered(t: Tables)
    requires t.fills == TwoFills() && OrderId(1) in t.orders && OrderId(2) in t.orders
    ensures AllOrdered(t.fills, t.orders)
    ensures forall i :: 0 <= i < |t.fills| ==> t.fills[i].id.order == t.fills[i].orderId
  {
    forall i | 0 <= i < |t.fills| ensures t.fills[i].id.order == t.fills[i].orderId && t.fills[i].orderId in t.orders {
      assert t.fills[i] == if i == 0 then Buying(1, 100.0, 10.0) else Buying(2, 200.0, 10.01);
    }
  }

  /** Its orders tell its fills, and nothing is left to release on its date. */
  lemma {:induction false} SecondOrdersAgree(t: Tables)
    requires t == SecondAccount()
    ensures OrdersAgree(t) && AllReleased(t, 0)
  {
    FillsAreOrdered(t);
    TotalsOfTwo(t.fills);
    OneOrderTells(t, 1, 100.0, 10.0);
    OneOrderTells(t, 2, 200.0, 10.01);
  }

  lemma {:induction false} AreRows(t: Tables, m: CostModel, p: Position, b0: BalanceSnapshot, b1: BalanceSnapshot,
                                   b2: BalanceSnapshot)
    requires ValidCostModel(m) && ValidFills(t.fills) && AllCharged(t.fills, m)
    requires t.positions == map[1 := p] && ValidPosition(p) && p.symbol == 1 && t.balances == [b0, b1, b2]
    requires ValidBalance(b0) && ValidBalance(b1) && ValidBalance(b2) && b0.asset == b1.asset == b2.asset == CNY
    requires b0.snapshotTime < b1.snapshotTime < b2.snapshotTime
    requires forall i, j :: 0 <= i < j < |t.fills| ==> t.fills[i].fillTime < t.fills[j].fillTime
    requires forall id :: id in t.orders ==> ValidOrder(t.orders[id]) && t.orders[id].id == id
    requires forall id :: id in t.intents ==> ValidIntent(t.intents[id]) && t.intents[id].id == id
    ensures Rows(t, m) && Start(t) == Nothing(b0) && Current(t) == Holding(p, b2) && Horizon(t) == b2.snapshotTime
  {
  }

  lemma {:induction false} TwoFillsAreOrdered(fills: seq<Fill>)
    requires fills == TwoFills()
    ensures forall i, j :: 0 <= i < j < |fills| ==> fills[i].fillTime < fills[j].fillTime
    ensures forall i :: 0 <= i < |fills| ==> fills[i].fillTime <= 2
  {
  }

  lemma {:induction false} InstructionsAreValid(i1: OrderIntent, i2: OrderIntent, o1: Order, o2: Order)
    requires i1 == Instructed(1, 100.0) && i2 == Instructed(2, 200.0)
    requires o1 == Executed(1, 100.0, 10.0) && o2 == Executed(2, 200.0, 10.01)
    ensures ValidIntent(i1) && ValidIntent(i2) && ValidOrder(o1) && ValidOrder(o2)
  {
  }

  lemma {:induction false} RowsAreValid(p: Position, b0: BalanceSnapshot, b1: BalanceSnapshot, b2: BalanceSnapshot)
    requires p == Held2() && b0 == Money(10000.0, 0) && b1 == Money(9000.0, 1) && b2 == Money(6998.0, 2)
    ensures ValidPosition(p) && p.symbol == 1
    ensures ValidBalance(b0) && ValidBalance(b1) && ValidBalance(b2) && b0.asset == b1.asset == b2.asset == CNY
    ensures b0.snapshotTime < b1.snapshotTime < b2.snapshotTime == 2
  {
  }

  /** Two intents, two orders, a position and three snapshots. */
  ghost predicate Holds(t: Tables, i1: OrderIntent, i2: OrderIntent, o1: Order, o2: Order, p: Position,
                        b0: BalanceSnapshot, b1: BalanceSnapshot, b2: BalanceSnapshot)
  {
    && t.intents == map[1 := i1, 2 := i2] && i1.id == 1 && i2.id == 2
    && t.orders == map[OrderId(1) := o1, OrderId(2) := o2] && o1.id == OrderId(1) && o2.id == OrderId(2)
    && t.positions == map[1 := p] && t.balances == [b0, b1, b2]
  }

  lemma {:induction false} HeldRows(t: Tables, m: CostModel, i1: OrderIntent, i2: OrderIntent, o1: Order, o2: Order,
                                    p: Position, b0: BalanceSnapshot, b1: BalanceSnapshot, b2: BalanceSnapshot)
    requires Holds(t, i1, i2, o1, o2, p, b0, b1, b2) && ValidCostModel(m)
    requires ValidFills(t.fills) && AllCharged(t.fills, m) && t.fills == TwoFills()
    requires ValidIntent(i1) && ValidIntent(i2) && ValidOrder(o1) && ValidOrder(o2)
    requires ValidPosition(p) && p.symbol == 1
    requires ValidBalance(b0) && ValidBalance(b1) && ValidBalance(b2) && b0.asset == b1.asset == b2.asset == CNY
    requires b0.snapshotTime < b1.snapshotTime < b2.snapshotTime == 2
    ensures Rows(t, m) && Start(t) == Nothing(b0) && Current(t) == Holding(p, b2) && Horizon(t) == b2.snapshotTime
    ensures forall i :: 0 <= i < |t.fills| ==> t.fills[i].fillTime <= Horizon(t)
  {
    TwoFillsAreOrdered(t.fills);
    AreRows(t, m, p, b0, b1, b2);
  }

  lemma {:induction false} AccountPersists(t: Tables, m: CostModel, kept: Portfolio, d: int)
    requires Rows(t, m) && PersistAll(Start(t), Events(t.fills, m)) == Some(kept) && Current(t) == kept
    requires DatedBy(kept, Today(t, d))
    requires forall i :: 0 <= i < |t.fills| ==> t.fills[i].fillTime <= Horizon(t)
    ensures Persists(t, m, d)
  {
  }

  lemma {:induction false} AccountIsRows(t: Tables, i1: OrderIntent, i2: OrderIntent, o1: Order, o2: Order,
                                         p: Position, b0: BalanceSnapshot, b1: BalanceSnapshot, b2: BalanceSnapshot)
    requires Holds(t, i1, i2, o1, o2, p, b0, b1, b2) && t.fills == TwoFills()
    requires i1 == Instructed(1, 100.0) && i2 == Instructed(2, 200.0)
    requires o1 == Executed(1, 100.0, 10.0) && o2 == Executed(2, 200.0, 10.01)
    requires p == Held2() && b0 == Money(10000.0, 0) && b1 == Money(9000.0, 1) && b2 == Money(6998.0, 2)
    requires ValidFills(t.fills) && AllCharged(t.fills, NoFees())
    ensures Rows(t, NoFees()) && Start(t) == Nothing(b0) && Current(t) == Holding(p, b2) && Horizon(t) == 2
    ensures forall i :: 0 <= i < |t.fills| ==> t.fills[i].fillTime <= Horizon(t)
  {
    InstructionsAreValid(i1, i2, o1, o2);
    RowsAreValid(p, b0, b1, b2);
    HeldRows(t, NoFees(), i1, i2, o1, o2, p, b0, b1, b2);
  }

  lemma {:induction false} KeptIsDated(kept: Portfolio, date: int)
    requires kept == Kept2() && date >= 0
    ensures DatedBy(kept, date)
  {
  }

  lemma {:induction false} AccountPersistsTwo(t: Tables, pf: Portfolio, after: Portfolio, kept: Portfolio)
    requires t.balances != [] && Rows(t, NoFees()) && Start(t) == pf && Current(t) == kept && t.fills == TwoFills()
    requires pf == Seed() && after == After2() && kept == Kept2() && Horizon(t) == 2
    requires forall i :: 0 <= i < |t.fills| ==> t.fills[i].fillTime <= Horizon(t)
    ensures Persists(t, NoFees(), 0)
  {
    SecondFolds(pf, t.fills, after, kept);
    KeptIsDated(kept, Today(t, 0));
    AccountPersists(t, NoFees(), kept, 0);
  }

  lemma {:induction false} AccountIsLegal(t: Tables)
    requires t == SecondAccount() && ValidFills(t.fills) && AllCharged(t.fills, NoFees())
    ensures t.balances != [] && Rows(t, NoFees()) && Start(t) == Seed() && Current(t) == Kept2() && Horizon(t) == 2
    ensures forall i :: 0 <= i < |t.fills| ==> t.fills[i].fillTime <= Horizon(t)
  {
    var i1, i2, o1, o2 := Instructed(1, 100.0), Instructed(2, 200.0), Executed(1, 100.0, 10.0),
      Executed(2, 200.0, 10.01);
    var p, b0, b1, b2 := Held2(), Money(10000.0, 0), Money(9000.0, 1), Money(6998.0, 2);
    AccountIsRows(t, i1, i2, o1, o2, p, b0, b1, b2);
  }

  lemma {:induction false} FillsAreCharged(fills: seq<Fill>)
    requires fills == TwoFills()
    ensures ValidFills(fills) && AllCharged(fills, NoFees())
  {
    var e := BuyGrows([], 1, 100.0, 10.0);
    var f := BuyGrows(OneFill(), 2, 200.0, 10.01);
  }

  /** The account persists what its fills leave on stored rows; with SecondOrdersAgree, rounding
      is all that keeps it from agreeing. */
  lemma {:induction false} SecondAccountPersists(t: Tables, pf: Portfolio, after: Portfolio, kept: Portfolio)
    requires t == SecondAccount() && pf == Seed() && after == After2() && kept == Kept2()
    ensures Persists(t, NoFees(), 0) && Start(t) == pf && t.fills == TwoFills()
  {
    FillsAreCharged(t.fills);
    AccountIsLegal(t);
    AccountPersistsTwo(t, pf, after, kept);
  }
}
