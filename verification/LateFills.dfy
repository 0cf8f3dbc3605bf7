/** Fills stamped no later than the newest balance: where agreement ends. */
module LateFills {
  import opened Prelude
  import opened Sorting
  import opened Execution
  import opened Costs
  import opened Ledger
  import opened LedgerRuns
  import opened Store
  import opened Oms
  import opened Reconciler
  import opened LedgerAgreement
  import opened OrderAgreement
  import opened Agreement
  import opened Crashes
  import opened Marks

  /** A new fill that the ledger takes. */
  ghost predicate Arrives(t: Tables, e: FillEvent, m: CostModel, d: int) {
    && LedgerAgrees(t, m, d) && Replayable(e, m) && !HasFill(t, e.fill.id) && d <= DateOf(e.eventTime)
    && !FillWrites(t, e).raised
  }

  function Booking(t: Tables, e: FillEvent): Tables
    requires ValidTables(t) && ValidFillEvent(e)
  {
    CommitAll(t, FillWrites(t, e).writes)
  }

  /** What it writes: a position and a balance booked on the newest one; the balance only if there
      is no snapshot of its time. */
  lemma {:induction false} ArrivalWrites(t: Tables, e: FillEvent, m: CostModel, d: int)
    returns (p: Position, b: BalanceSnapshot)
    requires Arrives(t, e, m, d)
    ensures ValidPosition(p) && p.symbol == e.fill.symbol && ValidBalance(b) && b.asset == CNY
    ensures b.snapshotTime == b.createdAt == e.eventTime
    ensures b.total == t.balances[|t.balances| - 1].total + e.cost.netCashFlow
    ensures Booking(t, e) == t.(fills := t.fills + [e.fill], positions := t.positions[p.symbol := p],
                                balances := if HasSnapshotAt(t.balances, CNY, e.eventTime) then t.balances
                                            else t.balances + [b])
    ensures ValidTables(Booking(t, e)) && ValidFills(Booking(t, e).fills)
    ensures Book(Current(t), e) == Ok(Portfolio(t.positions[p.symbol := p], map[CNY := b]))
  {
    FillWritesAreABooking(t, e, m);
    var after := Book(Current(t), e).value;
    p, b := after.positions[e.fill.symbol], after.balances[CNY];
    LatestIsLast(t.balances);
    var position, balance := Get(t.positions, e.fill.symbol), LatestBalance(t, CNY);
    ApplyFillMovesCash(e, position, balance);
    WritesKeepTablesValid(t, FillWrites(t, e).writes);
    ThreeCommits(t, e.fill, p, b);
  }

  lemma {:induction false} ThreeCommits(t: Tables, f: Fill, p: Position, b: BalanceSnapshot)
    requires !HasFill(t, f.id)
    ensures CommitAll(t, [WFill(f), WPosition(p), WBalance(b)])
      == t.(fills := t.fills + [f], positions := t.positions[p.symbol := p],
            balances := if HasSnapshotAt(t.balances, b.asset, b.snapshotTime) then t.balances else t.balances + [b])
  {
    var ws := [WFill(f), WPosition(p), WBalance(b)];
    CommitPrefix(t, ws, 0);
    CommitPrefix(t, ws, 1);
    CommitPrefix(t, ws, 2);
    assert ws[..3] == ws;
  }

  // -------------------------------------------------------- exactly when agreement ends

  /** The one late fill that does no harm: it moves no cash, and comes at the very time of the
      only snapshot, before any other fill. */
  predicate SettledAtSeed(t: Tables, e: FillEvent) {
    && t.fills == [] && |t.balances| == 1 && e.cost.netCashFlow == 0.0
    && t.balances[0].snapshotTime == t.balances[0].createdAt == e.eventTime
  }

  lemma {:induction false} BookedIsDated(start: Portfolio, front: seq<Fill>, f: Fill, m: CostModel)
    requires ValidPortfolio(start) && ValidFills(front) && ValidFill(f) && ValidCostModel(m)
    requires AllCharged(front, m) && Charged(f, m)
    ensures AllCharged(front + [f], m)
    ensures Booked(start, front + [f], m).Ok? ==>
      && Booked(start, front, m).Ok?
      && CNY in Booked(start, front + [f], m).value.balances
      && var b := Booked(start, front + [f], m).value.balances[CNY];
         && b.snapshotTime == b.createdAt == f.fillTime
         && b.total == CashOf(Booked(start, front, m).value) + FillCost(f, m).netCashFlow
  {
    BookedGrows(start, front, f, m);
  }

  /** Agreement goes by the newest snapshot's time: the last fill's, if there is one. */
  lemma {:induction false} HorizonIsLastFill(t: Tables, m: CostModel, d: int)
    requires LedgerAgrees(t, m, d)
    ensures t.fills != [] ==> t.fills[|t.fills| - 1].fillTime == Horizon(t)
    ensures t.fills == [] ==> |t.balances| == 1
    ensures CashOf(Booked(Start(t), t.fills, m).value) == t.balances[|t.balances| - 1].total
  {
    assert Current(t).balances == Booked(Start(t), t.fills, m).value.balances;
    assert Current(t).balances[CNY] == t.balances[|t.balances| - 1];
    if t.fills != [] {
      var front, f := t.fills[..|t.fills| - 1], t.fills[|t.fills| - 1];
      assert front + [f] == t.fills;
      BookedIsDated(Start(t), front, f, m);
    }
  }

  lemma {:induction false} LastTimesGrow(t: Tables)
    requires Chronological(t)
    ensures
      var n := |t.balances|;
      n > 1 ==> t.balances[n - 2].snapshotTime < t.balances[n - 1].snapshotTime
    ensures
      var n := |t.fills|;
      n > 1 ==> t.fills[n - 2].fillTime < t.fills[n - 1].fillTime
  {
  }

  lemma {:induction false} LateAgreesOnlyAtSeed(t: Tables, e: FillEvent, m: CostModel, d: int)
    requires Arrives(t, e, m, d) && e.eventTime <= Horizon(t) && LedgerAgrees(Booking(t, e), m, d)
    ensures SettledAtSeed(t, e)
  {
    var p, b := ArrivalWrites(t, e, m, d);
    var t' := Booking(t, e);
    LastTimesGrow(t');
    if HasSnapshotAt(t.balances, CNY, e.eventTime) {
      HorizonIsLastFill(t, m, d);
      HorizonIsLastFill(t', m, d);
      BookedIsDated(Start(t), t.fills, e.fill, m);
      assert Start(t') == Start(t) && Horizon(t') == Horizon(t);
      assert Current(t').balances == Booked(Start(t'), t'.fills, m).value.balances;
      assert Current(t').balances[CNY] == t.balances[|t.balances| - 1];
    }
  }

  lemma {:induction false} SeedRows(t: Tables, t': Tables, f: Fill, p: Position, m: CostModel)
    requires Rows(t, m) && t.fills == [] && ValidTables(t') && ValidFill(f) && Charged(f, m) && ValidPosition(p)
    requires t'.fills == [f] && t'.balances == t.balances && t'.positions == t.positions[p.symbol := p]
    ensures Rows(t', m) && Horizon(t') == Horizon(t) && Start(t') == Start(t)
    ensures Current(t') == Portfolio(t.positions[p.symbol := p], map[CNY := t.balances[|t.balances| - 1]])
  {
  }

  lemma {:induction false} SeedFillAgrees(t: Tables, e: FillEvent, m: CostModel, d: int)
    requires Arrives(t, e, m, d) && SettledAtSeed(t, e)
    ensures LedgerAgrees(Booking(t, e), m, d)
  {
    var p, b := ArrivalWrites(t, e, m, d);
    var fold := Booked(Start(t), t.fills, m).value;
    FirstIsASnapshot(t);
    SeedRows(t, Booking(t, e), e.fill, p, m);
    BookedGrows(Start(t), t.fills, e.fill, m);
    BookKeepsAgreement(Current(t), fold, e);
    BalanceStands(t, e, m, b);
  }

  lemma {:induction false} BalanceStands(t: Tables, e: FillEvent, m: CostModel, b: BalanceSnapshot)
    requires t.balances != [] && ValidFillEvent(e) && SettledAtSeed(t, e) && t.balances[0].asset == CNY
    requires ApplyCashFlow(e, Some(t.balances[0])) == Ok(b)
    ensures b == t.balances[0]
  {
  }

  /** The exact condition: a new fill that the ledger takes leaves the tables in agreement if and
      only if it is later than the newest snapshot, or settled at the seed. */
  lemma {:induction false} FillAgreesExactly(t: Tables, e: FillEvent, m: CostModel, d: int)
    requires Arrives(t, e, m, d)
    ensures LedgerAgrees(Booking(t, e), m, d) <==> Horizon(t) < e.eventTime || SettledAtSeed(t, e)
  {
    if Horizon(t) < e.eventTime {
      FillAgrees(t, e, m, d);
    } else if SettledAtSeed(t, e) {
      SeedFillAgrees(t, e, m, d);
    } else if LedgerAgrees(Booking(t, e), m, d) {
      LateAgreesOnlyAtSeed(t, e, m, d);
    }
  }

  // ---------------------------------------------------------- and what becomes of it

  /** Reading does not tell in which order rows were written. */
  lemma {:induction false} DetectedInAnyRowOrder(t: Tables, u: Tables, m: CostModel)
    requires ValidCostModel(m) && u == t.(balances := u.balances) && multiset(u.balances) == multiset(t.balances)
    requires Detected(u, m)
    ensures Detected(t, m)
  {
    forall facts, at | ReadFrom(facts, t) ensures Reported(facts, m, at) {
      assert ReadFrom(facts, u);
    }
  }

  /** Where a snapshot goes among others in order of time. */
  lemma {:induction false} PlaceAmong(balances: seq<BalanceSnapshot>, b: BalanceSnapshot) returns (i: nat)
    requires balances != [] && balances[0].snapshotTime < b.snapshotTime < balances[|balances| - 1].snapshotTime
    requires forall k :: 0 <= k < |balances| ==> balances[k].snapshotTime != b.snapshotTime
    requires forall j, k :: 0 <= j < k < |balances| ==> balances[j].snapshotTime < balances[k].snapshotTime
    ensures 0 < i < |balances|
    ensures forall k :: 0 <= k < i ==> balances[k].snapshotTime < b.snapshotTime
    ensures forall k :: i <= k < |balances| ==> b.snapshotTime < balances[k].snapshotTime
  {
    i := 1;
    while balances[i].snapshotTime < b.snapshotTime
      invariant 0 < i < |balances|
      invariant forall k :: 0 <= k < i ==> balances[k].snapshotTime < b.snapshotTime
      decreases |balances| - i
    {
      i := i + 1;
    }
  }

  function Inserted(balances: seq<BalanceSnapshot>, b: BalanceSnapshot, i: nat): seq<BalanceSnapshot>
    requires i <= |balances|
  {
    balances[..i] + [b] + balances[i..]
  }

  lemma {:induction false} InsertedElements(balances: seq<BalanceSnapshot>, b: BalanceSnapshot, i: nat)
    requires i <= |balances|
    ensures multiset(Inserted(balances, b, i)) == multiset(balances + [b])
    ensures forall j :: 0 <= j < |balances| + 1 ==>
      Inserted(balances, b, i)[j] == if j < i then balances[j] else if j == i then b else balances[j - 1]
  {
    assert balances == balances[..i] + balances[i..];
  }

  lemma {:induction false} InsertedInOrder(balances: seq<BalanceSnapshot>, b: BalanceSnapshot, i: nat,
                                           l: seq<BalanceSnapshot>)
    requires 0 < i < |balances| && l == Inserted(balances, b, i)
    requires forall k :: 0 <= k < i ==> balances[k].snapshotTime < b.snapshotTime
    requires forall k :: i <= k < |balances| ==> b.snapshotTime < balances[k].snapshotTime
    requires forall j, k :: 0 <= j < k < |balances| ==> balances[j].snapshotTime < balances[k].snapshotTime
    ensures |l| == |balances| + 1 && l[0] == balances[0] && l[|l| - 1] == balances[|balances| - 1]
    ensures forall j, k :: 0 <= j < k < |l| ==> l[j].snapshotTime < l[k].snapshotTime
  {
    InsertedElements(balances, b, i);
  }

  /** A gap, whatever order the snapshots were written in. */
  lemma {:induction false} LateIsShort(t: Tables, u: Tables, e: FillEvent, m: CostModel, d: int)
    requires Arrives(t, e, m, d) && e.cost.netCashFlow != 0.0
    requires ValidTables(u) && ValidFills(u.fills) && u.fills == t.fills + [e.fill] && u.balances != []
    requires u.balances[0] == t.balances[0] && u.balances[|u.balances| - 1] == t.balances[|t.balances| - 1]
    requires forall i :: 0 <= i < |u.balances| ==> u.balances[i].asset == CNY
    requires forall i, j :: 0 <= i < j < |u.balances| ==> u.balances[i].snapshotTime < u.balances[j].snapshotTime
    ensures Short(u, m, e.cost.netCashFlow)
  {
    AgreeingHasNoGap(t, m, d);
    TotalGrows(t.fills, e.fill, FlowOf(m));
  }

  lemma {:induction false} DroppedIsReported(t: Tables, e: FillEvent, m: CostModel, d: int)
    requires Arrives(t, e, m, d) && e.cost.netCashFlow != 0.0 && HasSnapshotAt(t.balances, CNY, e.eventTime)
    ensures Detected(Booking(t, e), m)
  {
    var p, b := ArrivalWrites(t, e, m, d);
    LateIsShort(t, Booking(t, e), e, m, d);
    ShortIsReported(Booking(t, e), m, e.cost.netCashFlow);
  }

  /** The tables with the late balance filed where its time puts it. */
  lemma {:induction false} FiledIsShort(t: Tables, t': Tables, e: FillEvent, b: BalanceSnapshot, m: CostModel, d: int,
                                        i: nat, l: seq<BalanceSnapshot>)
    requires Arrives(t, e, m, d) && e.cost.netCashFlow != 0.0 && ValidTables(t') && ValidFills(t'.fills)
    requires t'.fills == t.fills + [e.fill] && t'.balances == t.balances + [b] && ValidBalance(b) && b.asset == CNY
    requires 0 < i < |t.balances| && l == Inserted(t.balances, b, i)
    requires |l| == |t.balances| + 1 && l[0] == t.balances[0] && l[|l| - 1] == t.balances[|t.balances| - 1]
    requires forall j, k :: 0 <= j < k < |l| ==> l[j].snapshotTime < l[k].snapshotTime
    ensures Short(t'.(balances := l), m, e.cost.netCashFlow)
  {
    InsertedElements(t.balances, b, i);
    LateIsShort(t, t'.(balances := l), e, m, d);
  }

  lemma {:induction false} FiledInOrder(balances: seq<BalanceSnapshot>, b: BalanceSnapshot)
    returns (i: nat, l: seq<BalanceSnapshot>)
    requires balances != [] && balances[0].snapshotTime < b.snapshotTime < balances[|balances| - 1].snapshotTime
    requires forall k :: 0 <= k < |balances| ==> balances[k].snapshotTime != b.snapshotTime
    requires forall j, k :: 0 <= j < k < |balances| ==> balances[j].snapshotTime < balances[k].snapshotTime
    ensures 0 < i < |balances| && l == Inserted(balances, b, i) && multiset(l) == multiset(balances + [b])
    ensures |l| == |balances| + 1 && l[0] == balances[0] && l[|l| - 1] == balances[|balances| - 1]
    ensures forall j, k :: 0 <= j < k < |l| ==> l[j].snapshotTime < l[k].snapshotTime
  {
    i := PlaceAmong(balances, b);
    l := Inserted(balances, b, i);
    InsertedInOrder(balances, b, i, l);
    InsertedElements(balances, b, i);
  }

  lemma {:induction false} ShortInAnyRowOrder(t: Tables, l: seq<BalanceSnapshot>, m: CostModel, gap: real)
    requires Short(t.(balances := l), m, gap) && multiset(l) == multiset(t.balances)
    ensures Detected(t, m)
  {
    ShortIsReported(t.(balances := l), m, gap);
    DetectedInAnyRowOrder(t, t.(balances := l), m);
  }

  lemma {:induction false} FiledIsReported(t: Tables, e: FillEvent, m: CostModel, d: int)
    requires Arrives(t, e, m, d) && e.cost.netCashFlow != 0.0 && !HasSnapshotAt(t.balances, CNY, e.eventTime)
    requires t.balances[0].snapshotTime < e.eventTime < Horizon(t)
    ensures Detected(Booking(t, e), m)
  {
    var p, b := ArrivalWrites(t, e, m, d);
    var i, l := FiledInOrder(t.balances, b);
    FiledIsShort(t, Booking(t, e), e, b, m, d, i, l);
    ShortInAnyRowOrder(Booking(t, e), l, m, e.cost.netCashFlow);
  }

  lemma {:induction false} NewestIsASnapshot(t: Tables)
    requires t.balances != [] && forall i :: 0 <= i < |t.balances| ==> t.balances[i].asset == CNY
    ensures HasSnapshotAt(t.balances, CNY, Horizon(t))
  {
    assert t.balances[|t.balances| - 1].snapshotTime == Horizon(t);
  }

  /** A fill after the seed, but no later than the newest snapshot, is always reported if it moves
      cash: its balance is dropped, or filed where nobody looks for the newest. */
  lemma {:induction false} LateFillIsReported(t: Tables, e: FillEvent, m: CostModel, d: int)
    requires Arrives(t, e, m, d) && e.cost.netCashFlow != 0.0
    requires t.balances[0].snapshotTime <= e.eventTime <= Horizon(t)
    ensures Detected(Booking(t, e), m)
  {
    NewestIsASnapshot(t);
    if HasSnapshotAt(t.balances, CNY, e.eventTime) {
      DroppedIsReported(t, e, m, d);
    } else {
      FirstIsASnapshot(t);
      FiledIsReported(t, e, m, d);
    }
  }

  lemma {:induction false} FirstIsASnapshot(t: Tables)
    requires t.balances != [] && forall i :: 0 <= i < |t.balances| ==> t.balances[i].asset == CNY
    ensures HasSnapshotAt(t.balances, CNY, t.balances[0].snapshotTime)
  {
  }
}
