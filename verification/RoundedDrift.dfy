/** What the reconciler says about an account booked on stored rows. */
module RoundedDrift {
  import opened Prelude
  import opened Sorting
  import opened Execution
  import opened Costs
  import opened Ledger
  import opened LedgerRuns
  import opened Store
  import opened Oms
  import opened Reconciler
  import opened LedgerAgreement
  import opened OrderAgreement
  import opened Agreement
  import opened StorageGrid
  import opened RoundedBooks

  /** The tables hold what booking their fills on stored rows leaves, whatever has been released
      since for dates up to d. */
  ghost predicate Persists(t: Tables, m: CostModel, d: int) {
    && Rows(t, m) && (forall i :: 0 <= i < |t.fills| ==> t.fills[i].fillTime <= Horizon(t))
    && PersistAll(Start(t), Events(t.fills, m)).Some?
    && HoldsAsOf(t, PersistAll(Start(t), Events(t.fills, m)).value, Today(t, d))
  }

  ghost predicate HoldsAsOf(t: Tables, kept: Portfolio, date: int)
    requires t.balances != []
  {
    SamePortfolioAsOf(Current(t), kept, date) && DatedBy(Current(t), date) && DatedBy(kept, date)
  }

  /** As long as the persisted account is the replayed one, the tables agree with their fills. */
  lemma {:induction false} InStepAgrees(t: Tables, m: CostModel, d: int)
    requires Persists(t, m, d) && Booked(Start(t), t.fills, m).Ok?
    requires PersistAll(Start(t), Events(t.fills, m)) == Some(Booked(Start(t), t.fills, m).value)
    ensures LedgerAgrees(t, m, d)
  {
  }

  // --------------------------------------------------------------- drift is reported

  /** Different in a number that no release touches. */
  predicate Drifts(p: Position, q: Position) {
    || p.qty != q.qty || p.avgEntryPrice != q.avgEntryPrice || p.markPrice != q.markPrice
    || p.unrealizedPnl != q.unrealizedPnl || p.realizedPnl != q.realizedPnl
  }

  lemma {:induction false} CleanAgrees(t: Tables, facts: Facts, m: CostModel, at: Time, fold: Portfolio, s: Symbol)
    requires Rows(t, m) && ReadFrom(facts, t) && ValidFacts(facts)
    requires Booked(Start(t), t.fills, m) == Ok(fold) && ExpectedIssues(facts, m, at) == []
    ensures PositionAgrees(Get(t.positions, s), Get(ReleaseAll(fold.positions, facts.tradeDate, at), s))
    ensures BalanceAgrees(Get(Current(t).balances, CNY), Get(fold.balances, CNY))
  {
    FactsRestoreTables(facts, t, m);
    ReconcilerIsExact(facts, m, at);
    assert StateConsistent(facts, fold, at);
  }

  lemma {:induction false} DriftSurvivesRelease(persisted: Option<Position>, booked: map<Symbol, Position>, s: Symbol,
                                                tradeDate: int, at: Time)
    requires persisted.Some? && s in booked && Drifts(persisted.value, booked[s])
    ensures !PositionAgrees(persisted, Get(ReleaseAll(booked, tradeDate, at), s))
  {
  }

  lemma {:induction false} PositionDriftIsReported(t: Tables, m: CostModel, fold: Portfolio, s: Symbol)
    requires Rows(t, m) && Booked(Start(t), t.fills, m) == Ok(fold)
    requires s in t.positions && s in fold.positions && Drifts(t.positions[s], fold.positions[s])
    ensures Detected(t, m)
  {
    forall facts, at | ReadFrom(facts, t) ensures Reported(facts, m, at) {
      RowsStayValid(facts, t);
      DriftSurvivesRelease(Get(t.positions, s), fold.positions, s, facts.tradeDate, at);
      if ExpectedIssues(facts, m, at) == [] { CleanAgrees(t, facts, m, at, fold, s); }
    }
  }

  lemma {:induction false} CashDriftIsReported(t: Tables, m: CostModel, fold: Portfolio)
    requires Rows(t, m) && Booked(Start(t), t.fills, m) == Ok(fold)
    requires CNY in fold.balances && Current(t).balances[CNY].total != fold.balances[CNY].total
    ensures Detected(t, m)
  {
    forall facts, at | ReadFrom(facts, t) ensures Reported(facts, m, at) {
      RowsStayValid(facts, t);
      if ExpectedIssues(facts, m, at) == [] { CleanAgrees(t, facts, m, at, fold, 0); }
    }
  }

  // ------------------------------------------------------ what rounding can change

  predicate StorablePortfolio(pf: Portfolio) {
    && (forall s :: s in pf.positions ==> StorablePosition(pf.positions[s]))
    && (forall a :: a in pf.balances ==> StorableBalance(pf.balances[a]))
  }

  lemma {:induction false} StorableSoFar(pf: Portfolio, es: seq<FillEvent>)
    requires ValidPortfolio(pf) && ValidFillEvents(es) && StorablePortfolio(pf) && BookAll(pf, es).Ok?
    requires forall n :: 0 <= n <= |es| ==> LastStorable(pf, es[..n])
    ensures StorablePortfolio(BookAll(pf, es).value)
  {
    if es != [] {
      var front, e := es[..|es| - 1], es[|es| - 1];
      WholePrefix(es);
      forall n | 0 <= n <= |front| ensures front[..n] == es[..n] { if n < |es| { PrefixOfFront(es, n); } }
      StorableSoFar(pf, front);
      BookWritesItsKeys(BookAll(pf, front).value, e);
      assert LastStorable(pf, es[..|es|]);
    }
  }

  /** Quantities and the mark are sums of stored numbers: a booking that has more decimals has
      them in the average, in a profit, or in cash. */
  lemma {:induction false} OnlyPricesAndCashAreRounded(pf: Portfolio, e: FillEvent)
    requires ValidPortfolio(pf) && ValidFillEvent(e) && Book(pf, e).Ok?
    requires StorablePortfolio(pf) && StorableFill(e.fill)
    ensures
      var p := Book(pf, e).value.positions[e.fill.symbol];
      Storable(p.qty) && Storable(p.sellableQty) && StorablePrice(p.markPrice)
    ensures
      var b := Book(pf, e).value.balances[e.cost.currency];
      StorableBalance(b) <==> Storable(b.total)
  {
    BookWritesItsKeys(pf, e);
    QuantitiesAreStorable(e, Get(pf.positions, e.fill.symbol), Get(pf.balances, e.cost.currency));
    CashIsStorable(e, Get(pf.positions, e.fill.symbol), Get(pf.balances, e.cost.currency));
  }

  lemma {:induction false} QuantitiesAreStorable(e: FillEvent, position: Option<Position>,
                                                 balance: Option<BalanceSnapshot>)
    requires ValidFillEvent(e) && StorableFill(e.fill)
    requires position.Some? ==> ValidPosition(position.value) && StorablePosition(position.value)
    requires ApplyFill(e, position, balance).Ok?
    ensures
      var p := ApplyFill(e, position, balance).value.position;
      Storable(p.qty) && Storable(p.sellableQty) && StorablePrice(p.markPrice)
  {
    OnlyWholesAreStorable(0.0, 0);
    var qty := if position.Some? then position.value.qty else 0.0;
    SumIsStorable(qty, e.fill.qty);
    if position.Some? {
      SumIsStorable(position.value.qty, e.fill.qty);
      SumIsStorable(position.value.sellableQty, e.fill.qty);
    }
  }

  lemma {:induction false} CashIsStorable(e: FillEvent, position: Option<Position>, balance: Option<BalanceSnapshot>)
    requires ValidFillEvent(e) && (position.Some? ==> ValidPosition(position.value))
    requires ApplyFill(e, position, balance).Ok?
    requires balance.Some? ==> ValidBalance(balance.value) && StorableBalance(balance.value)
    ensures
      var b := ApplyFill(e, position, balance).value.balance;
      StorableBalance(b) <==> Storable(b.total)
  {
    OnlyWholesAreStorable(0.0, 0);
    ApplyFillMovesCash(e, position, balance);
    var b := ApplyFill(e, position, balance).value.balance;
    if Storable(b.total) { SumIsStorable(b.total, b.locked); }
  }

  // ------------------------------------------------------------ the first rounding

  /** Every booking but the last has been stored as it was. */
  ghost predicate StoredSoFar(start: Portfolio, es: seq<FillEvent>)
    requires ValidPortfolio(start) && ValidFillEvents(es)
  {
    && StorablePortfolio(start) && es != [] && StorableFill(es[|es| - 1].fill)
    && forall n :: 0 <= n < |es| ==> LastStorable(start, es[..n])
  }

  lemma {:induction false} StoredSoFarIsInStep(start: Portfolio, es: seq<FillEvent>)
    requires ValidPortfolio(start) && ValidFillEvents(es) && StoredSoFar(start, es)
    requires PersistAll(start, es).Some?
    ensures
      var front := BookAll(start, es[..|es| - 1]);
      && front.Ok? && PersistAll(start, es[..|es| - 1]) == Some(front.value) && StorablePortfolio(front.value)
      && Book(front.value, es[|es| - 1]).Ok?
  {
    var front := es[..|es| - 1];
    forall n | 0 <= n <= |front| ensures front[..n] == es[..n] { PrefixOfFront(es, n); }
    InStepIffStorable(start, front);
    PersistedIsBooked(start, front);
    StorableSoFar(start, front);
  }

  /** In step, the two accounts also refuse together. */
  lemma {:induction false} PersistedIsBooked(start: Portfolio, es: seq<FillEvent>)
    requires ValidPortfolio(start) && ValidFillEvents(es) && PersistAll(start, es).Some?
    requires forall n :: 0 <= n <= |es| ==> LastInStep(start, es[..n])
    ensures BookAll(start, es).Ok? && PersistAll(start, es) == Some(BookAll(start, es).value)
  {
    if es != [] {
      var front := es[..|es| - 1];
      WholePrefix(es);
      forall n | 0 <= n <= |front| ensures front[..n] == es[..n] { PrefixOfFront(es, n); }
      PersistedIsBooked(start, front);
      assert LastInStep(start, es[..|es|]);
    }
  }

  /** The first booking with more than ten decimals is reported, whenever it is checked. */
  lemma {:induction false} FirstRoundingIsReported(t: Tables, m: CostModel, d: int)
    requires Persists(t, m, d) && StoredSoFar(Start(t), Events(t.fills, m))
    requires !LastStorable(Start(t), Events(t.fills, m))
    ensures Detected(t, m)
  {
    var es := Events(t.fills, m);
    var e := es[|es| - 1];
    StoredSoFarIsInStep(Start(t), es);
    var before, fold := BookAll(Start(t), es[..|es| - 1]).value, BookAll(Start(t), es).value;
    BookWritesItsKeys(before, e);
    OnlyPricesAndCashAreRounded(before, e);
    RoundedRowDrifts(t, before, e, fold, PersistAll(Start(t), es).value, Today(t, d));
    if Drifts(t.positions[e.fill.symbol], fold.positions[e.fill.symbol]) {
      PositionDriftIsReported(t, m, fold, e.fill.symbol);
    } else {
      CashDriftIsReported(t, m, fold);
    }
  }

  /** Where the rounding shows. */
  lemma {:induction false} RoundedRowDrifts(t: Tables, before: Portfolio, e: FillEvent, fold: Portfolio,
                                            kept: Portfolio, date: int)
    requires t.balances != [] && ValidPortfolio(before) && ValidFillEvent(e) && e.cost.currency == CNY
    requires Book(before, e) == Ok(fold) && Persist(before, e) == Some(kept) && HoldsAsOf(t, kept, date)
    requires e.fill.symbol in fold.positions && CNY in fold.balances && !StorableBooking(fold, e)
    requires StorableFill(e.fill)
    requires
      var p := fold.positions[e.fill.symbol];
      Storable(p.qty) && Storable(p.sellableQty) && StorablePrice(p.markPrice)
    requires StorableBalance(fold.balances[CNY]) <==> Storable(fold.balances[CNY].total)
    ensures e.fill.symbol in t.positions
    ensures Drifts(t.positions[e.fill.symbol], fold.positions[e.fill.symbol])
         || Current(t).balances[CNY].total != fold.balances[CNY].total
  {
    BookWritesItsKeys(before, e);
    var s := e.fill.symbol;
    var p, b := fold.positions[s], fold.balances[CNY];
    assert SameAsOf(Get(t.positions, s), Get(kept.positions, s), date);
    assert kept.positions[s] == StoredPosition(p) && kept.balances[CNY] == StoredBalance(b);
    assert AsOf(t.positions[s], date).avgEntryPrice == t.positions[s].avgEntryPrice;
    assert AsOf(t.positions[s], date).unrealizedPnl == t.positions[s].unrealizedPnl;
    assert AsOf(t.positions[s], date).realizedPnl == t.positions[s].realizedPnl;
    StoredPriceIsExact(p.avgEntryPrice);
    StoredIsExact(p.unrealizedPnl);
    StoredIsExact(p.realizedPnl);
    StoredIsExact(b.total);
  }

  lemma {:induction false} StoredIsBooked(start: Portfolio, es: seq<FillEvent>)
    requires ValidPortfolio(start) && ValidFillEvents(es) && StoredSoFar(start, es)
    requires PersistAll(start, es).Some? && LastStorable(start, es)
    ensures BookAll(start, es).Ok? && PersistAll(start, es) == Some(BookAll(start, es).value)
  {
    StoredSoFarIsInStep(start, es);
    var before, e := BookAll(start, es[..|es| - 1]).value, es[|es| - 1];
    assert BookAll(start, es) == Book(before, e);
    PersistIsBookIffStorable(before, e);
  }

  lemma {:induction false} LastStoredAgrees(t: Tables, m: CostModel, d: int)
    requires Persists(t, m, d) && StoredSoFar(Start(t), Events(t.fills, m))
    requires LastStorable(Start(t), Events(t.fills, m))
    ensures LedgerAgrees(t, m, d)
  {
    StoredIsBooked(Start(t), Events(t.fills, m));
    InStepAgrees(t, m, d);
  }

  /** The reconciler on an account whose bookings have been stored as they were, up to the last:
      it is silent if and only if the last has been, too. */
  lemma {:induction false} CleanIffLastStorable(t: Tables, facts: Facts, m: CostModel, d: int, at: Time)
    requires Persists(t, m, d) && StoredSoFar(Start(t), Events(t.fills, m)) && OrdersAgree(t)
    requires ReadFrom(facts, t) && Today(t, d) <= facts.tradeDate && AllReleased(t, facts.tradeDate)
    ensures ValidFacts(facts)
    ensures ExpectedIssues(facts, m, at) == [] <==> LastStorable(Start(t), Events(t.fills, m))
  {
    RowsStayValid(facts, t);
    if LastStorable(Start(t), Events(t.fills, m)) {
      LastStoredAgrees(t, m, d);
      CleanIffReleased(t, facts, m, d, at);
    } else {
      FirstRoundingIsReported(t, m, d);
      assert Reported(facts, m, at);
    }
  }

  // ------------------------------------------------------------- after each of the fills

  lemma {:induction false} EventsOfPrefix(fills: seq<Fill>, m: CostModel, n: nat)
    requires ValidFills(fills) && ValidCostModel(m) && AllCharged(fills, m) && n <= |fills|
    ensures ValidFills(fills[..n]) && AllCharged(fills[..n], m)
    ensures Events(fills, m)[..n] == Events(fills[..n], m)
    ensures n > 0 ==> Events(fills[..n], m)[n - 1].fill == fills[n - 1]
  {
    WholePrefix(fills);
    WholePrefix(Events(fills, m));
    if n < |fills| {
      EventsOfPrefix(fills[..|fills| - 1], m, n);
      PrefixOfFront(fills, n);
      PrefixOfFront(Events(fills, m), n);
    }
  }

  /** An account booked on stored rows, with orders that tell their fills, and the rows read from
      it for a date everything has been released for. */
  ghost predicate Checked(t: Tables, facts: Facts, m: CostModel, d: int) {
    && Persists(t, m, d) && OrdersAgree(t)
    && ReadFrom(facts, t) && Today(t, d) <= facts.tradeDate && AllReleased(t, facts.tradeDate)
  }

  lemma {:induction false} CleanBeforeAnyFill(t: Tables, facts: Facts, m: CostModel, d: int, at: Time)
    requires Checked(t, facts, m, d) && t.fills == []
    ensures ValidFacts(facts) && ExpectedIssues(facts, m, at) == []
  {
    InStepAgrees(t, m, d);
    CleanIffReleased(t, facts, m, d, at);
  }

  ghost predicate StorableBefore(start: Portfolio, es: seq<FillEvent>, n: nat)
    requires ValidPortfolio(start) && ValidFillEvents(es) && n <= |es|
  {
    forall k :: 0 <= k < n ==> LastStorable(start, es[..k])
  }

  /** One of the checks, after all before it were clean. */
  lemma {:induction false} NextCheckCleanIffStorable(t: Tables, facts: Facts, m: CostModel, d: int, at: Time,
                                                     es: seq<FillEvent>)
    requires Checked(t, facts, m, d) && StorablePortfolio(Start(t)) && es == Events(t.fills, m)
    requires es != [] ==> StorableFill(es[|es| - 1].fill)
    requires StorableBefore(Start(t), es, |es|)
    ensures Reported(facts, m, at) <==> !LastStorable(Start(t), es)
  {
    RowsStayValid(facts, t);
    if t.fills == [] {
      CleanBeforeAnyFill(t, facts, m, d, at);
    } else {
      CleanIffLastStorable(t, facts, m, d, at);
    }
  }

  /** The rows of an account that is checked after each of its fills, from none to all. */
  ghost predicate CheckedThroughout(ts: seq<Tables>, read: seq<Facts>, start: Portfolio, fills: seq<Fill>,
                                    m: CostModel, ds: seq<int>)
  {
    && |ts| == |read| == |ds| == |fills| + 1
    && ValidPortfolio(start) && StorablePortfolio(start) && ValidCostModel(m) && ValidFills(fills)
         && AllCharged(fills, m)
    && (forall i :: 0 <= i < |fills| ==> StorableFill(fills[i]))
    && forall n :: 0 <= n <= |fills| ==>
         Checked(ts[n], read[n], m, ds[n]) && Start(ts[n]) == start && ts[n].fills == fills[..n]
  }

  lemma {:induction false} StorableBeforePrefix(start: Portfolio, es: seq<FillEvent>, n: nat)
    requires ValidPortfolio(start) && ValidFillEvents(es) && n <= |es| && StorableBefore(start, es, n)
    ensures StorableBefore(start, es[..n], n)
  {
    forall k | 0 <= k < n ensures es[..n][..k] == es[..k] {}
  }

  lemma {:induction false} CheckAfter(ts: seq<Tables>, read: seq<Facts>, start: Portfolio, fills: seq<Fill>,
                                      m: CostModel, ds: seq<int>, at: Time, n: nat)
    requires CheckedThroughout(ts, read, start, fills, m, ds) && n <= |fills|
    requires StorableBefore(start, Events(fills, m), n)
    ensures Reported(read[n], m, at) <==> !LastStorable(start, Events(fills, m)[..n])
  {
    EventsOfPrefix(fills, m, n);
    StorableBeforePrefix(start, Events(fills, m), n);
    NextCheckCleanIffStorable(ts[n], read[n], m, ds[n], at, Events(fills[..n], m));
  }

  ghost predicate SilentUpTo(read: seq<Facts>, m: CostModel, at: Time, n: nat)
    requires ValidCostModel(m) && n < |read|
  {
    forall k :: 0 <= k <= n ==> !Reported(read[k], m, at)
  }

  ghost predicate StorableUpTo(start: Portfolio, es: seq<FillEvent>, n: nat)
    requires ValidPortfolio(start) && ValidFillEvents(es) && n <= |es|
  {
    forall k :: 0 <= k <= n ==> LastStorable(start, es[..k])
  }

  lemma {:induction false} OneMoreStorable(start: Portfolio, es: seq<FillEvent>, n: nat)
    requires ValidPortfolio(start) && ValidFillEvents(es) && n <= |es|
    ensures StorableUpTo(start, es, n) <==> StorableBefore(start, es, n) && LastStorable(start, es[..n])
    ensures StorableBefore(start, es, n) <==> (n > 0 ==> StorableUpTo(start, es, n - 1))
  {
    if StorableBefore(start, es, n) && LastStorable(start, es[..n]) {
      forall k | 0 <= k <= n ensures LastStorable(start, es[..k]) { assert k == n || k < n; }
    }
    if StorableUpTo(start, es, n) { assert LastStorable(start, es[..n]); }
  }

  lemma {:induction false} OneMoreSilent(read: seq<Facts>, m: CostModel, at: Time, n: nat)
    requires ValidCostModel(m) && n < |read|
    ensures SilentUpTo(read, m, at, n) <==> (n > 0 ==> SilentUpTo(read, m, at, n - 1)) && !Reported(read[n], m, at)
  {
    if (n > 0 ==> SilentUpTo(read, m, at, n - 1)) && !Reported(read[n], m, at) {
      forall k | 0 <= k <= n ensures !Reported(read[k], m, at) { assert k == n || k < n; }
    }
  }

  lemma {:induction false} SilentIffStorable(ts: seq<Tables>, read: seq<Facts>, start: Portfolio, fills: seq<Fill>,
                                             m: CostModel, ds: seq<int>, at: Time, n: nat)
    requires CheckedThroughout(ts, read, start, fills, m, ds) && n <= |fills|
    ensures SilentUpTo(read, m, at, n) <==> StorableUpTo(start, Events(fills, m), n)
  {
    if n > 0 { SilentIffStorable(ts, read, start, fills, m, ds, at, n - 1); }
    if StorableBefore(start, Events(fills, m), n) {
      CheckAfter(ts, read, start, fills, m, ds, at, n);
    }
    OneMoreStorable(start, Events(fills, m), n);
    OneMoreSilent(read, m, at, n);
  }

  /** Numeric columns, exactly: an account that is checked after each of its fills is never
      reported if and only if no replayed booking has a number of more than ten decimals. */
  lemma {:induction false} NeverReportedIffStorable(ts: seq<Tables>, read: seq<Facts>, start: Portfolio,
                                                    fills: seq<Fill>, m: CostModel, ds: seq<int>, at: Time)
    requires CheckedThroughout(ts, read, start, fills, m, ds)
    ensures (forall n :: 0 <= n <= |fills| ==> !Reported(read[n], m, at))
      <==> (forall n :: 0 <= n <= |fills| ==> LastStorable(start, Events(fills, m)[..n]))
  {
    SilentIffStorable(ts, read, start, fills, m, ds, at, |fills|);
  }
}