/** The tables' positions and cash are, at all times, the ledger's fold of their fills. */
module LedgerAgreement {
  import opened Prelude
  import opened Execution
  import opened Costs
  import opened Ledger
  import opened LedgerRuns
  import opened Store
  import opened Oms
  import opened Reconciler

  // ------------------------------------------------------------------- agreement

  /** Fill and snapshot times grow strictly, in the order of writing. */
  ghost predicate Chronological(t: Tables) {
    && t.balances != []
    && (forall i :: 0 <= i < |t.balances| ==> t.balances[i].asset == CNY)
    && (forall i, j :: 0 <= i < j < |t.balances| ==> t.balances[i].snapshotTime < t.balances[j].snapshotTime)
    && (forall i, j :: 0 <= i < j < |t.fills| ==> t.fills[i].fillTime < t.fills[j].fillTime)
  }

  /** The time of the last booking, or of the seed: what a new fill has to be later than. */
  function Horizon(t: Tables): Time
    requires t.balances != []
  {
    t.balances[|t.balances| - 1].snapshotTime
  }

  /** The account at its first snapshot, and as the tables have it now. */
  function Start(t: Tables): Portfolio
    requires t.balances != []
  {
    Portfolio(map[], map[CNY := t.balances[0]])
  }

  function Current(t: Tables): Portfolio
    requires t.balances != []
  {
    Portfolio(t.positions, map[CNY := t.balances[|t.balances| - 1]])
  }

  ghost predicate Rows(t: Tables, m: CostModel) {
    && ValidCostModel(m) && ValidTables(t) && ValidFills(t.fills) && AllCharged(t.fills, m) && Chronological(t)
    && ValidPortfolio(Start(t)) && ValidPortfolio(Current(t))
  }

  /** The date reached: of the last booking, or d if releases have gone further. */
  function Today(t: Tables, d: int): int
    requires t.balances != []
  {
    MaxInt(d, DateOf(Horizon(t)))
  }

  /** As of a date, the tables agree with the fold of their fills. */
  ghost predicate AgreesAsOf(t: Tables, m: CostModel, date: int)
    requires Rows(t, m)
  {
    && Booked(Start(t), t.fills, m).Ok?
    && SamePortfolioAsOf(Current(t), Booked(Start(t), t.fills, m).value, date)
    && DatedBy(Current(t), date) && DatedBy(Booked(Start(t), t.fills, m).value, date)
  }

  /** The tables agree with the fold of their fills. Releases have been written for dates
      up to d, and no fill is later than the last booking. */
  ghost predicate LedgerAgrees(t: Tables, m: CostModel, d: int) {
    && Rows(t, m) && AgreesAsOf(t, m, Today(t, d))
    && forall i :: 0 <= i < |t.fills| ==> t.fills[i].fillTime <= Horizon(t)
  }

  lemma {:induction false} AgreesLater(t: Tables, m: CostModel, d: int, later: int)
    requires LedgerAgrees(t, m, d) && d <= later
    ensures LedgerAgrees(t, m, later)
  {
    SamePortfolioLater(Current(t), Booked(Start(t), t.fills, m).value, Today(t, d), Today(t, later));
  }

  /** Tables that differ only in signals, intents and orders agree alike. */
  lemma {:induction false} AgreesWithoutOrders(t: Tables, t': Tables, m: CostModel, d: int)
    requires LedgerAgrees(t, m, d) && ValidTables(t')
    requires t'.fills == t.fills && t'.positions == t.positions && t'.balances == t.balances
    ensures LedgerAgrees(t', m, d)
  {
  }

  // ------------------------------------------------------------------- releasing

  /** A T+1 release written to the position table keeps the agreement, as of the date
      released for and the date it is stamped with. */
  lemma {:induction false} ReleaseAgrees(t: Tables, s: Symbol, tradeDate: int, at: Time, m: CostModel, d: int)
    requires LedgerAgrees(t, m, d) && s in t.positions && tradeDate <= d && DateOf(at) <= d
    ensures LedgerAgrees(Commit(t, WPosition(Release(t.positions[s], tradeDate, at))), m, d)
  {
    var date, after := Today(t, d), Release(t.positions[s], tradeDate, at);
    ReleaseIsInvisible(t.positions[s], tradeDate, at, date);
    ReleasedRowAgrees(t, Commit(t, WPosition(after)), s, after, m, date);
  }

  lemma {:induction false} Rewritten<K, V>(rows: map<K, V>, k: K)
    requires k in rows
    ensures rows[k := rows[k]] == rows
  {
  }

  lemma {:induction false} ReleasedRowIsARow(t: Tables, t': Tables, s: Symbol, p: Position, m: CostModel)
    requires Rows(t, m) && s in t.positions && p.symbol == s && ValidPosition(p)
    requires t' == t.(positions := t.positions[s := p])
    ensures Rows(t', m) && Start(t') == Start(t)
  {
  }

  lemma {:induction false} ReleasedRowAgrees(t: Tables, t': Tables, s: Symbol, p: Position, m: CostModel, date: int)
    requires Rows(t, m) && AgreesAsOf(t, m, date) && s in t.positions && p.symbol == s && ValidPosition(p)
    requires AsOf(p, date) == AsOf(t.positions[s], date) && DateOf(p.updatedAt) <= date
    requires t' == t.(positions := t.positions[s := p])
    ensures Rows(t', m) && AgreesAsOf(t', m, date)
  {
    ReleasedRowIsARow(t, t', s, p, m);
    var booked := Booked(Start(t), t.fills, m).value;
    assert SameAsOf(Get(t.positions, s), Get(booked.positions, s), date);
    Rewritten(booked.positions, s);
    WriteKeepsAgreement(t.positions, booked.positions, s, p, booked.positions[s], date);
  }

  // --------------------------------------------------------------------- booking

  lemma {:induction false} LatestIsLast(balances: seq<BalanceSnapshot>)
    requires balances != [] && forall i :: 0 <= i < |balances| ==> balances[i].asset == CNY
    requires forall i, j :: 0 <= i < j < |balances| ==> balances[i].snapshotTime < balances[j].snapshotTime
    ensures LatestSnapshot(balances, CNY) == Some(balances[|balances| - 1])
  {
    if |balances| > 1 {
      var front := balances[..|balances| - 1];
      LatestIsLast(front);
      assert front[|front| - 1] == balances[|balances| - 2];
    }
  }

  /** A fill event the reconciler would rebuild from its own fill row. */
  predicate Replayable(e: FillEvent, m: CostModel)
    requires ValidCostModel(m)
  {
    ValidFill(e.fill) && Charged(e.fill, m) && e == ReplayEvent(e.fill, m)
  }

  /** What the three writes of a new fill do, one by one. */
  lemma {:induction false} ThreeWrites(t: Tables, f: Fill, p: Position, b: BalanceSnapshot)
    requires !HasFill(t, f.id) && !HasSnapshotAt(t.balances, b.asset, b.snapshotTime)
    ensures
      var ws := [WFill(f), WPosition(p), WBalance(b)];
      var one := t.(fills := t.fills + [f]);
      var two := one.(positions := t.positions[p.symbol := p]);
      && CommitAll(t, ws[..1]) == one
      && CommitAll(t, ws[..2]) == two
      && CommitAll(t, ws) == two.(balances := t.balances + [b])
  {
    var ws := [WFill(f), WPosition(p), WBalance(b)];
    CommitPrefix(t, ws, 0);
    CommitPrefix(t, ws, 1);
    CommitPrefix(t, ws, 2);
    assert ws[..3] == ws;
  }

  /** A new fill is written as the ledger books it on the current account; its verdict
      decides whether the position and the balance follow the fill row. */
  lemma {:induction false} FillWritesAreABooking(t: Tables, e: FillEvent, m: CostModel)
    requires Rows(t, m) && Replayable(e, m) && !HasFill(t, e.fill.id)
    ensures FillWrites(t, e).raised <==> Book(Current(t), e).Error?
    ensures FillWrites(t, e).raised ==> FillWrites(t, e).writes == [WFill(e.fill)]
    ensures !FillWrites(t, e).raised ==>
      var after := Book(Current(t), e).value;
      && CNY in after.balances && e.fill.symbol in after.positions
      && FillWrites(t, e).writes
         == [WFill(e.fill), WPosition(after.positions[e.fill.symbol]), WBalance(after.balances[CNY])]
      && after.positions == t.positions[e.fill.symbol := after.positions[e.fill.symbol]]
      && after.positions[e.fill.symbol].symbol == e.fill.symbol
      && after.balances == map[CNY := after.balances[CNY]]
      && after.balances[CNY].snapshotTime == e.eventTime && after.balances[CNY].asset == CNY
  {
    LatestIsLast(t.balances);
    var position, balance := Get(t.positions, e.fill.symbol), LatestBalance(t, CNY);
    assert Get(Current(t).balances, CNY) == balance;
    BookWrites(Current(t), e);
    if ApplyFill(e, position, balance).Ok? {
      ApplyFillKeepsPositionsValid(e, position, balance);
      ApplyFillMovesCash(e, position, balance);
    }
  }

  lemma {:induction false} CommitPrefix(t: Tables, ws: seq<Write>, k: nat)
    requires k < |ws|
    ensures CommitAll(t, ws[..k + 1]) == Commit(CommitAll(t, ws[..k]), ws[k])
    ensures CommitAll(t, ws[..0]) == t
  {
    assert ws[..k + 1][..k] == ws[..k];
  }

  /** A new fill event, later than every booking and not of a date before the releases. */
  predicate Comes(t: Tables, e: FillEvent, d: int) {
    t.balances != [] && Horizon(t) < e.eventTime && d <= DateOf(e.eventTime) && !HasFill(t, e.fill.id)
  }

  /** Booking one more fill: the tables and the fold accept or refuse it together, and agree after. */
  lemma {:induction false} FillAgrees(t: Tables, e: FillEvent, m: CostModel, d: int)
    requires LedgerAgrees(t, m, d) && Replayable(e, m) && Comes(t, e, d)
    ensures
      var r := FillWrites(t, e);
      && AllCharged(t.fills + [e.fill], m)
      && (r.raised <==> Booked(Start(t), t.fills + [e.fill], m).Error?)
      && (!r.raised ==>
            LedgerAgrees(CommitAll(t, r.writes), m, d) && Horizon(CommitAll(t, r.writes)) == e.eventTime)
  {
    var fold := Booked(Start(t), t.fills, m).value;
    BookedGrows(Start(t), t.fills, e.fill, m);
    DateOfIsMonotone(Horizon(t), e.eventTime);
    SamePortfolioLater(Current(t), fold, Today(t, d), DateOf(e.eventTime));
    BookKeepsAgreement(Current(t), fold, e);
    FillWritesAreABooking(t, e, m);
    var r, booked := FillWrites(t, e), Book(Current(t), e);
    if !r.raised {
      var p, b := booked.value.positions[e.fill.symbol], booked.value.balances[CNY];
      ThreeWrites(t, e.fill, p, b);
      WritesKeepTablesValid(t, r.writes);
      GrownRows(t, CommitAll(t, r.writes), e.fill, p, b, m);
    }
  }

  lemma {:induction false} GrownRows(t: Tables, t': Tables, f: Fill, p: Position, b: BalanceSnapshot, m: CostModel)
    requires Rows(t, m) && ValidTables(t') && ValidFill(f) && Charged(f, m)
    requires forall i :: 0 <= i < |t.fills| ==> t.fills[i].fillTime <= Horizon(t)
    requires t'.fills == t.fills + [f] && t'.balances == t.balances + [b] && t'.positions == t.positions[p.symbol := p]
    requires Horizon(t) < f.fillTime == b.snapshotTime && b.asset == CNY && ValidBalance(b) && ValidPosition(p)
    ensures Rows(t', m) && Horizon(t') == f.fillTime
    ensures forall i :: 0 <= i < |t'.fills| ==> t'.fills[i].fillTime <= f.fillTime
    ensures Start(t') == Start(t) && Current(t') == Portfolio(t.positions[p.symbol := p], map[CNY := b])
  {
  }
}
