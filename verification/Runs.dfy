/** Runs of the trader: every completed step keeps the tables in agreement. */
module Runs {
  import opened Prelude
  import opened Execution
  import opened Costs
  import opened Ledger
  import opened LedgerRuns
  import opened PaperAdapter
  import opened Planner
  import opened RiskGate
  import opened Store
  import opened Oms
  import opened Reconciler
  import opened LedgerAgreement
  import opened OrderAgreement
  import opened Agreement
  import opened Crashes
  import opened Reports
  import opened Submissions
  import opened Marks

  // ------------------------------------------------------------------ cancelling

  lemma {:induction false} UpdateOne(t: Tables, o: Order, u: OrderUpdate)
    ensures
      var next := ApplyOrderUpdate(o, u);
      UpdateWrites(t, o, [u]) == if next.Error? || !MaySaveOrder(t, next.value) then OrderTrace([], o, true)
                                 else OrderTrace([WOrder(next.value)], next.value, false)
  {
    assert [u][..0] == [];
    assert UpdateWrites(t, o, []) == OrderTrace([], o, false);
    assert CommitAll(t, []) == t;
  }

  lemma {:induction false} CancelShape(t: Tables, id: OrderId, at: Time)
    requires id in t.orders && ValidTables(t)
    ensures
      var o, r := t.orders[id], CancelWrites(t, id, at);
      var row := o.(status := Canceled, updatedAt := at);
      && (!Active(o) ==> r == OrderTrace([], o, false))
      && (Active(o) && o.submittedAt <= at ==> r == OrderTrace([WOrder(row)], row, false))
      && (Active(o) && at < o.submittedAt ==> r == OrderTrace([], o, true))
  {
    var o := t.orders[id];
    if Active(o) {
      UpdateOne(t, o, Update(o, Canceled, o.filledQty, o.avgFillPrice, at));
    }
  }

  lemma {:induction false} OrderRowIsValid(t: Tables, row: Order)
    requires ValidTables(t) && ValidOrder(row)
    ensures ValidTables(Commit(t, WOrder(row)))
  {
  }

  lemma {:induction false} CanceledRowAgrees(t: Tables, id: OrderId, at: Time, m: CostModel, d: int)
    requires Agrees(t, m, d) && id in t.orders && Active(t.orders[id]) && t.orders[id].submittedAt <= at
    ensures Agrees(Commit(t, WOrder(t.orders[id].(status := Canceled, updatedAt := at))), m, d)
  {
    var row := t.orders[id].(status := Canceled, updatedAt := at);
    var t' := Commit(t, WOrder(row));
    CancelRefinesLifecycle(t.orders[id], at);
    OrderRowIsValid(t, row);
    AgreesWithoutOrders(t, t', m, d);
    CanceledRowTellsFills(t, t', id, row, at);
  }

  lemma {:induction false} CanceledRowTellsFills(t: Tables, t': Tables, id: OrderId, row: Order, at: Time)
    requires OrdersAgree(t) && id in t.orders && Active(t.orders[id])
    requires row == t.orders[id].(status := Canceled, updatedAt := at) && t' == t.(orders := t.orders[id := row])
    ensures OrdersAgree(t')
  {
    assert t'.fills == t.fills + [];
    assert OrderTellsFills(t, id);
    OrdersAgreeAfter(t, t', row, []);
  }

  /** Cancelling one order, cut off or not, keeps the agreement. */
  lemma {:induction false} CancelCut(t: Tables, id: OrderId, at: Time, m: CostModel, d: int, k: nat, t': Tables)
    requires Agrees(t, m, d) && id in t.orders
    requires k <= |CancelWrites(t, id, at).writes| && t' == CommitAll(t, CancelWrites(t, id, at).writes[..k])
    ensures Agrees(t', m, d)
  {
    CancelShape(t, id, at);
    var ws := CancelWrites(t, id, at).writes;
    if k == 0 {
      assert ws[..0] == [];
    } else {
      CommitOne(t, ws[0]);
      assert ws[..1] == [ws[0]];
      CanceledRowAgrees(t, id, at, m, d);
    }
  }

  lemma {:induction false} CancelEachGrows(t: Tables, ids: seq<OrderId>, control: ControlState, at: Time)
    requires ids != []
    ensures
      var before, r := CancelEach(t, ids[..|ids| - 1], control, at), CancelEach(t, ids, control, at);
      var t1, id := CommitAll(t, before.writes), ids[|ids| - 1];
      || r.writes == before.writes
      || (id in t1.orders && r.writes == before.writes + CancelWrites(t1, id, at).writes)
  {
  }

  lemma {:induction false} PrefixOfLonger(a: seq<Write>, b: seq<Write>, k: nat)
    requires a <= b && k <= |a|
    ensures b[..k] == a[..k] && a[..|a|] == a
  {
  }

  lemma {:induction false} LastIsApart(symbols: seq<Symbol>)
    requires symbols != [] && forall i, j :: 0 <= i < j < |symbols| ==> symbols[i] != symbols[j]
    ensures
      var front, s := symbols[..|symbols| - 1], symbols[|symbols| - 1];
      symbols == front + [s] && s !in front
  {
  }

  lemma {:induction false} CancelEachCut(t: Tables, ids: seq<OrderId>, control: ControlState, at: Time, m: CostModel,
                                         d: int, k: nat, t': Tables)
    requires Agrees(t, m, d)
    requires k <= |CancelEach(t, ids, control, at).writes|
      && t' == CommitAll(t, CancelEach(t, ids, control, at).writes[..k])
    ensures Agrees(t', m, d)
  {
    var ws := CancelEach(t, ids, control, at).writes;
    if ids == [] {
      assert ws[..k] == [];
    } else {
      var front, id := ids[..|ids| - 1], ids[|ids| - 1];
      var before := CancelEach(t, front, control, at).writes;
      CancelEachGrows(t, ids, control, at);
      if k <= |before| {
        PrefixOfLonger(before, ws, k);
        CancelEachCut(t, front, control, at, m, d, k, t');
      } else {
        assert before[..|before|] == before;
        var t1 := CommitAll(t, before);
        CancelEachCut(t, front, control, at, m, d, |before|, t1);
        LastCancelCut(t, before, t1, id, at, m, d, k, t');
      }
    }
  }

  lemma {:induction false} LastCancelCut(t: Tables, before: seq<Write>, t1: Tables, id: OrderId, at: Time,
                                         m: CostModel, d: int, k: nat, t': Tables)
    requires t1 == CommitAll(t, before) && Agrees(t1, m, d) && id in t1.orders
    requires |before| <= k <= |before + CancelWrites(t1, id, at).writes|
    requires t' == CommitAll(t, (before + CancelWrites(t1, id, at).writes)[..k])
    ensures Agrees(t', m, d)
  {
    JoinedCut(t, before, t1, CancelWrites(t1, id, at).writes, k, t');
    CancelCut(t1, id, at, m, d, k - |before|, t');
  }

  /** Orders listed once each, and only active ones. */
  ghost predicate ListsActive(t: Tables, ids: seq<OrderId>) {
    && (forall i, j :: 0 <= i < j < |ids| ==> ids[i] != ids[j])
    && (forall id :: id in ids <==> id in t.orders && Active(t.orders[id]))
  }

  /** The order table with the unspared orders among the listed ones cancelled. */
  ghost predicate CancelledAmong(t: Tables, t': Tables, ids: seq<OrderId>, control: ControlState, at: Time) {
    && t'.intents == t.intents && t'.orders.Keys == t.orders.Keys
    && forall id :: id in t.orders ==>
         t'.orders[id] == if id in ids && !Spared(t, t.orders[id], control)
                          then t.orders[id].(status := Canceled, updatedAt := at) else t.orders[id]
  }

  lemma {:induction false} CancelsOneMore(t: Tables, t1: Tables, t2: Tables, front: seq<OrderId>, id: OrderId,
                                          control: ControlState, at: Time)
    requires CancelledAmong(t, t1, front, control, at) && id in t.orders && id !in front
    requires t2 == if Spared(t, t.orders[id], control) then t1
                   else t1.(orders := t1.orders[id := t.orders[id].(status := Canceled, updatedAt := at)])
    ensures CancelledAmong(t, t2, front + [id], control, at)
  {
    assert forall x :: x in front + [id] <==> x in front || x == id;
  }

  lemma {:induction false} CancelEachStep(t: Tables, front: seq<OrderId>, id: OrderId, control: ControlState, at: Time)
    requires ValidTables(t) && !CancelEach(t, front, control, at).raised
    requires
      var t1 := CommitAll(t, CancelEach(t, front, control, at).writes);
      id in t1.orders && Active(t1.orders[id]) && t1.orders[id].submittedAt <= at
    ensures
      var before, r := CancelEach(t, front, control, at), CancelEach(t, front + [id], control, at);
      var t1 := CommitAll(t, before.writes);
      && !r.raised && r.cancelled + r.skipped == before.cancelled + before.skipped + 1
      && r.skipped == before.skipped + (if Spared(t1, t1.orders[id], control) then 1 else 0)
      && CommitAll(t, r.writes)
         == if Spared(t1, t1.orders[id], control) then t1
            else t1.(orders := t1.orders[id := t1.orders[id].(status := Canceled, updatedAt := at)])
  {
    assert (front + [id])[..|front|] == front;
    var before := CancelEach(t, front, control, at);
    var t1 := CommitAll(t, before.writes);
    WritesKeepTablesValid(t, before.writes);
    CancelShape(t1, id, at);
    var row := t1.orders[id].(status := Canceled, updatedAt := at);
    CommitOne(t1, WOrder(row));
    CommitAllConcat(t, before.writes, [WOrder(row)]);
  }

  /** The listed orders a protective state spares. */
  function CountSpared(t: Tables, ids: seq<OrderId>, control: ControlState): nat {
    if ids == [] then 0
    else
      var id := ids[|ids| - 1];
      CountSpared(t, ids[..|ids| - 1], control) + if id in t.orders && Spared(t, t.orders[id], control) then 1 else 0
  }

  lemma {:induction false} CancelEachCancels(t: Tables, ids: seq<OrderId>, control: ControlState, at: Time)
    requires ValidTables(t)
    requires forall i, j :: 0 <= i < j < |ids| ==> ids[i] != ids[j]
    requires forall id :: id in ids ==> id in t.orders && Active(t.orders[id]) && t.orders[id].submittedAt <= at
    ensures
      var r := CancelEach(t, ids, control, at);
      && !r.raised && r.cancelled + r.skipped == |ids| && r.skipped == CountSpared(t, ids, control)
      && CancelledAmong(t, CommitAll(t, r.writes), ids, control, at)
  {
    if ids != [] {
      var front, id := ids[..|ids| - 1], ids[|ids| - 1];
      assert ids == front + [id] && id !in front;
      CancelEachCancels(t, front, control, at);
      var t1 := CommitAll(t, CancelEach(t, front, control, at).writes);
      assert t1.orders[id] == t.orders[id];
      CancelEachStep(t, front, id, control, at);
      CancelsOneMore(t, t1, CommitAll(t, CancelEach(t, ids, control, at).writes), front, id, control, at);
    }
  }

  /** Cancel-all accounts for every order it was asked to cancel, skips exactly the reduce-only
      orders a protective state spares, and leaves active exactly these. */
  lemma {:induction false} CancelAllLeavesReduceOnly(t: Tables, ids: seq<OrderId>, control: ControlState, at: Time)
    requires ValidTables(t) && ListsActive(t, ids)
    requires forall id :: id in ids ==> t.orders[id].submittedAt <= at
    ensures
      var r := CancelEach(t, ids, control, at);
      var t' := CommitAll(t, r.writes);
      && !r.raised && r.cancelled + r.skipped == |ids| && r.skipped == CountSpared(t, ids, control)
      && forall id :: id in t'.orders && Active(t'.orders[id]) <==>
                      id in t.orders && Active(t.orders[id]) && Spared(t, t.orders[id], control)
  {
    CancelEachCancels(t, ids, control, at);
  }

  // ------------------------------------------------------------------ recovering

  /** In agreement, with no position touched but the listed ones. */
  ghost predicate ReleasedAmong(t: Tables, t': Tables, symbols: seq<Symbol>, m: CostModel, d: int) {
    && Agrees(t', m, d)
    && forall s :: s in t.positions && s !in symbols ==> s in t'.positions && t'.positions[s] == t.positions[s]
  }

  lemma {:induction false} ReleasesOneMore(t: Tables, t1: Tables, t': Tables, symbols: seq<Symbol>, s: Symbol,
                                           tradeDate: int, at: Time, m: CostModel, d: int)
    requires ReleasedAmong(t, t1, symbols, m, d) && s in t.positions && s !in symbols && tradeDate <= d
      && DateOf(at) <= d
    requires t' == Commit(t1, WPosition(Release(t.positions[s], tradeDate, at))) && ValidTables(t)
    ensures ReleasedAmong(t, t', symbols + [s], m, d)
  {
    PositionReleaseAgrees(t1, s, tradeDate, at, m, d);
    forall x | x in t.positions && x !in symbols + [s] ensures x in t'.positions && t'.positions[x] == t.positions[x] {
      assert x != s && x !in symbols;
    }
  }

  lemma {:induction false} ReleasedAmongMore(t: Tables, t': Tables, symbols: seq<Symbol>, s: Symbol, m: CostModel,
                                             d: int)
    requires ReleasedAmong(t, t', symbols, m, d)
    ensures ReleasedAmong(t, t', symbols + [s], m, d)
  {
    forall x | x in t.positions && x !in symbols + [s] ensures x in t'.positions && t'.positions[x] == t.positions[x] {
      assert x !in symbols;
    }
  }

  lemma {:induction false} LastReleaseCut(t: Tables, symbols: seq<Symbol>, s: Symbol, before: seq<Write>,
                                          ws: seq<Write>, t1: Tables, tradeDate: int, at: Time, m: CostModel, d: int,
                                          k: nat, t': Tables)
    requires ReleasedAmong(t, t1, symbols, m, d) && t1 == CommitAll(t, before) && s !in symbols && tradeDate <= d
      && DateOf(at) <= d
    requires s in t.positions && ws == before + [WPosition(Release(t.positions[s], tradeDate, at))] && ValidTables(t)
    requires |before| < k <= |ws| && t' == CommitAll(t, ws[..k])
    ensures ReleasedAmong(t, t', symbols + [s], m, d)
  {
    var w := WPosition(Release(t.positions[s], tradeDate, at));
    assert [w][..1] == [w];
    JoinedCut(t, before, t1, [w], k, t');
    CommitOne(t1, w);
    ReleasesOneMore(t, t1, t', symbols, s, tradeDate, at, m, d);
  }

  /** Releasing the listed positions, cut off or not, keeps the agreement. */
  lemma {:induction false} ReleaseEachCut(t: Tables, symbols: seq<Symbol>, ws: seq<Write>, tradeDate: int, at: Time,
                                          m: CostModel, d: int, k: nat, t': Tables)
    requires Agrees(t, m, d) && tradeDate <= d && DateOf(at) <= d
    requires forall i, j :: 0 <= i < j < |symbols| ==> symbols[i] != symbols[j]
    requires (forall i :: 0 <= i < |OpenAmong(symbols, t.positions)| ==>
      ValidPosition(OpenAmong(symbols, t.positions)[i]))
      && ws == ReleaseEach(OpenAmong(symbols, t.positions), tradeDate, at)
    requires k <= |ws| && t' == CommitAll(t, ws[..k])
    ensures ReleasedAmong(t, t', symbols, m, d)
  {
    if symbols == [] {
      assert ws[..k] == [];
    } else {
      var front, s := symbols[..|symbols| - 1], symbols[|symbols| - 1];
      LastIsApart(symbols);
      OpenPositionsAreValid(front, t.positions);
      var before := ReleaseEach(OpenAmong(front, t.positions), tradeDate, at);
      ReleaseEachGrows(t, symbols, tradeDate, at);
      if k <= |before| {
        PrefixOfLonger(before, ws, k);
        ReleaseEachCut(t, front, before, tradeDate, at, m, d, k, t');
        ReleasedAmongMore(t, t', front, s, m, d);
      } else {
        var t1 := CommitAll(t, before);
        PrefixOfLonger(before, before, |before|);
        ReleaseEachCut(t, front, before, tradeDate, at, m, d, |before|, t1);
        LastReleaseCut(t, front, s, before, ws, t1, tradeDate, at, m, d, k, t');
      }
    }
  }

  lemma {:induction false} ReleaseEachGrows(t: Tables, symbols: seq<Symbol>, tradeDate: int, at: Time)
    requires ValidTables(t) && symbols != []
    ensures
      var s := symbols[|symbols| - 1];
      var earlier, all := OpenAmong(symbols[..|symbols| - 1], t.positions), OpenAmong(symbols, t.positions);
      && (forall i :: 0 <= i < |earlier| ==> ValidPosition(earlier[i]))
      && (forall i :: 0 <= i < |all| ==> ValidPosition(all[i]))
      && (ReleaseEach(all, tradeDate, at) == ReleaseEach(earlier, tradeDate, at)
          || (s in t.positions
              && ReleaseEach(all, tradeDate, at)
                 == ReleaseEach(earlier, tradeDate, at) + [WPosition(Release(t.positions[s], tradeDate, at))]))
  {
    OpenPositionsAreValid(symbols, t.positions);
    OpenPositionsAreValid(symbols[..|symbols| - 1], t.positions);
    var s := symbols[|symbols| - 1];
    if s in t.positions && IsOpen(t.positions[s]) {
      var all := OpenAmong(symbols, t.positions);
      assert all[..|all| - 1] == OpenAmong(symbols[..|symbols| - 1], t.positions);
    } else {
      assert OpenAmong(symbols, t.positions) == OpenAmong(symbols[..|symbols| - 1], t.positions);
    }
  }

  lemma {:induction false} RecoveryCut(t: Tables, tradeDate: int, at: Time, cash: real, m: CostModel, d: int, k: nat,
                                       t': Tables)
    requires Agrees(t, m, d) && tradeDate <= d && DateOf(at) <= d && cash > 0.0
    requires k <= |RecoverAccount(t, tradeDate, at, cash)|
      && t' == CommitAll(t, RecoverAccount(t, tradeDate, at, cash)[..k])
    ensures Agrees(t', m, d)
  {
    var symbols := SortedKeys(t.positions.Keys);
    OpenPositionsAreValid(symbols, t.positions);
    var ws := ReleaseEach(OpenPositions(t), tradeDate, at);
    assert [] + ws == ws;
    ReleaseEachCut(t, symbols, ws, tradeDate, at, m, d, k, t');
  }

  function SeedSnapshot(tradeDate: int, at: Time, cash: real): BalanceSnapshot {
    var day := StartOfDate(tradeDate);
    BalanceSnapshot(CNY, cash, cash, 0.0, day, if at >= day then at else day)
  }

  lemma {:induction false} SeedingWrites(tradeDate: int, at: Time, cash: real)
    requires cash > 0.0
    ensures ValidTables(EmptyTables)
    ensures CommitAll(EmptyTables, RecoverAccount(EmptyTables, tradeDate, at, cash))
         == EmptyTables.(balances := [SeedSnapshot(tradeDate, at, cash)])
  {
    var b := SeedSnapshot(tradeDate, at, cash);
    assert SortedKeys({}) == [];
    assert RecoverAccount(EmptyTables, tradeDate, at, cash) == [WBalance(b)];
    CommitOne(EmptyTables, WBalance(b));
  }

  /** Seeding an untouched account starts a state of agreement. */
  lemma {:induction false} SeedAgrees(tradeDate: int, at: Time, cash: real, m: CostModel, d: int)
    requires ValidCostModel(m) && cash > 0.0
    ensures ValidTables(EmptyTables)
    ensures Agrees(CommitAll(EmptyTables, RecoverAccount(EmptyTables, tradeDate, at, cash)), m, d)
  {
    SeedingWrites(tradeDate, at, cash);
    var b := SeedSnapshot(tradeDate, at, cash);
    SeededTablesAgree(EmptyTables.(balances := [b]), b, m, d);
  }

  lemma {:induction false} SeededTablesAgree(t: Tables, b: BalanceSnapshot, m: CostModel, d: int)
    requires t == EmptyTables.(balances := [b]) && ValidBalance(b) && b.asset == CNY
    requires ValidCostModel(m)
    ensures Agrees(t, m, d)
  {
    assert Booked(Start(t), t.fills, m) == Ok(Start(t));
  }

  // ------------------------------------------------------------------------ runs

  datatype Step =
    | Submit(submission: Submission)
    | Cancel(id: OrderId, at: Time)
    | CancelAll(ids: seq<OrderId>, control: ControlState, at: Time)
    | Recover(tradeDate: int, at: Time)

  /** The date up to which releases have been written or stamped once a step is done. */
  function DateAfter(step: Step, d: int): int {
    match step
    case Submit(s) => MaxInt(MaxInt(d, DateOf(s.receivedAt)), if s.market.Some? then s.market.value.tradeDate else d)
    case Recover(tradeDate, at) => MaxInt(MaxInt(d, DateOf(at)), tradeDate)
    case _ => d
  }

  /** What the code demands of its callers: records that pass their validators, a new random
      id for a new intent, and an order to cancel. */
  predicate Enabled(t: Tables, step: Step) {
    match step
    case Submit(s) => ValidSubmission(s) && s.newIntentId !in t.intents
    case Cancel(id, _) => id in t.orders
    case _ => true
  }

  /** What a step writes, and whether it ran to its end. */
  ghost function StepTrace(t: Tables, step: Step, cfg: Config): (r: Trace)
    requires ValidTables(t) && ValidConfig(cfg) && Enabled(t, step)
    ensures ValidWrites(r.writes)
  {
    match step
    case Submit(s) => var c := SubmitSignal(t, s, cfg); Trace(c.writes, c.outcome == Raised)
    case Cancel(id, at) => var r := CancelWrites(t, id, at); Trace(r.writes, r.raised)
    case CancelAll(ids, control, at) => var r := CancelEach(t, ids, control, at); Trace(r.writes, r.raised)
    case Recover(tradeDate, at) => Trace(RecoverAccount(t, tradeDate, at, cfg.initialCash), false)
  }

  /** The step may be taken here: fill times grow strictly, and no fill is of an earlier date
      than a release before it. A step that books nothing may be taken at any time. */
  ghost predicate Fits(t: Tables, step: Step, cfg: Config, d: int)
    requires ValidConfig(cfg)
  {
    && ValidTables(t) && Enabled(t, step) && t.balances != []
    && FillsAfter(StepTrace(t, step, cfg).writes, Horizon(t), DateAfter(step, d))
  }

  /** A step cut off anywhere leaves the tables in agreement or is reported; a step that
      ran to its end leaves them in agreement. */
  lemma {:induction false} StepCut(t: Tables, step: Step, cfg: Config, d: int, w: Trace, k: nat, t': Tables)
    requires ValidConfig(cfg) && Agrees(t, cfg.costs, d) && Fits(t, step, cfg, d) && w == StepTrace(t, step, cfg)
    requires k <= |w.writes| && t' == CommitAll(t, w.writes[..k])
    ensures Sound(t', cfg.costs, DateAfter(step, d))
    ensures k == |w.writes| && !w.raised ==> Agrees(t', cfg.costs, DateAfter(step, d))
  {
    var m, later := cfg.costs, DateAfter(step, d);
    AgreesEventually(t, m, d, later);
    match step
    case Submit(s) =>
      SubmissionCut(t, s, cfg, later, SubmitSignal(t, s, cfg), k, t');
    case Cancel(id, clock) =>
      CancelCut(t, id, clock, m, later, k, t');
    case CancelAll(ids, control, clock) =>
      CancelEachCut(t, ids, control, clock, m, later, k, t');
    case Recover(tradeDate, clock) =>
      RecoveryCut(t, tradeDate, clock, cfg.initialCash, m, later, k, t');
  }

  /** The first k writes of a step lead from one state to another, whatever the clocks say. */
  ghost predicate Steps(t: Tables, step: Step, k: nat, t': Tables, cfg: Config)
    requires ValidConfig(cfg)
  {
    && ValidTables(t) && Enabled(t, step)
    && k <= |StepTrace(t, step, cfg).writes| && t' == CommitAll(t, StepTrace(t, step, cfg).writes[..k])
  }

  /** Any steps, each cut off anywhere, at any times. */
  ghost predicate AnyRun(states: seq<Tables>, steps: seq<Step>, cuts: seq<nat>, cfg: Config)
    requires ValidConfig(cfg)
  {
    && |states| == |steps| + 1 && |cuts| == |steps|
    && forall i :: 0 <= i < |steps| ==> Steps(states[i], steps[i], cuts[i], states[i + 1], cfg)
  }

  /** The tables after the first k writes of a step that may be taken. */
  ghost predicate Takes(t: Tables, step: Step, k: nat, t': Tables, cfg: Config, d: int)
    requires ValidConfig(cfg)
  {
    Fits(t, step, cfg, d) && Steps(t, step, k, t', cfg)
  }

  function RunDate(steps: seq<Step>, d: int): int {
    if steps == [] then d else DateAfter(steps[|steps| - 1], RunDate(steps[..|steps| - 1], d))
  }

  /** A run: states[i + 1] is states[i] after the first cuts[i] writes of steps[i]. */
  ghost predicate IsRun(states: seq<Tables>, steps: seq<Step>, cuts: seq<nat>, cfg: Config, d: int)
    requires ValidConfig(cfg)
  {
    && |states| == |steps| + 1 && |cuts| == |steps|
    && forall i :: 0 <= i < |steps| ==> Takes(states[i], steps[i], cuts[i], states[i + 1], cfg, RunDate(steps[..i], d))
  }

  lemma {:induction false} RunGrows(states: seq<Tables>, steps: seq<Step>, cuts: seq<nat>, cfg: Config, d: int,
                                    step: Step, k: nat, t': Tables)
    requires ValidConfig(cfg) && IsRun(states, steps, cuts, cfg, d)
    requires Takes(states[|steps|], step, k, t', cfg, RunDate(steps, d))
    ensures IsRun(states + [t'], steps + [step], cuts + [k], cfg, d)
    ensures RunDate(steps + [step], d) == DateAfter(step, RunDate(steps, d))
  {
    var all := steps + [step];
    assert all[..|steps|] == steps;
    forall i | 0 <= i < |all|
      ensures Takes((states + [t'])[i], all[i], (cuts + [k])[i], (states + [t'])[i + 1], cfg, RunDate(all[..i], d))
    {
      if i < |steps| {
        assert all[..i] == steps[..i];
        assert Takes(states[i], steps[i], cuts[i], states[i + 1], cfg, RunDate(steps[..i], d));
      }
    }
  }

  /** The step ran to its end. */
  ghost predicate Completes(t: Tables, step: Step, k: nat, cfg: Config)
    requires ValidConfig(cfg)
  {
    ValidTables(t) && Enabled(t, step) && k == |StepTrace(t, step, cfg).writes| && !StepTrace(t, step, cfg).raised
  }

  ghost predicate RunsToEnd(states: seq<Tables>, steps: seq<Step>, cuts: seq<nat>, cfg: Config)
    requires ValidConfig(cfg) && |states| == |steps| + 1 && |cuts| == |steps|
  {
    forall i :: 0 <= i < |steps| ==> Completes(states[i], steps[i], cuts[i], cfg)
  }

  lemma {:induction false} RunDateGrows(steps: seq<Step>, i: nat, d: int)
    requires i < |steps|
    ensures RunDate(steps[..i + 1], d) == DateAfter(steps[i], RunDate(steps[..i], d))
  {
    assert steps[..i + 1][..i] == steps[..i];
  }

  lemma {:induction false} TakenStepCut(t: Tables, step: Step, k: nat, t': Tables, cfg: Config, d: int)
    requires ValidConfig(cfg) && Agrees(t, cfg.costs, d) && Takes(t, step, k, t', cfg, d)
    ensures Sound(t', cfg.costs, DateAfter(step, d))
    ensures Completes(t, step, k, cfg) ==> Agrees(t', cfg.costs, DateAfter(step, d))
  {
    StepCut(t, step, cfg, d, StepTrace(t, step, cfg), k, t');
  }

  /** One step of a run, cut off or not. */
  lemma {:induction false} RunStepCut(states: seq<Tables>, steps: seq<Step>, cuts: seq<nat>, cfg: Config, d: int,
                                      i: nat)
    requires ValidConfig(cfg) && IsRun(states, steps, cuts, cfg, d) && i < |steps|
    requires Agrees(states[i], cfg.costs, RunDate(steps[..i], d))
    ensures Sound(states[i + 1], cfg.costs, RunDate(steps[..i + 1], d))
    ensures Completes(states[i], steps[i], cuts[i], cfg)
      ==> Agrees(states[i + 1], cfg.costs, RunDate(steps[..i + 1], d))
  {
    RunDateGrows(steps, i, d);
    var date := RunDate(steps[..i], d);
    assert Takes(states[i], steps[i], cuts[i], states[i + 1], cfg, date);
    TakenStepCut(states[i], steps[i], cuts[i], states[i + 1], cfg, date);
  }

  /** Up to state n the tables of a run agree. */
  ghost predicate AgreesUpTo(states: seq<Tables>, steps: seq<Step>, m: CostModel, d: int, n: nat)
    requires |states| == |steps| + 1 && n <= |steps|
  {
    forall i :: 0 <= i <= n ==> Agrees(states[i], m, RunDate(steps[..i], d))
  }

  lemma {:induction false} AgreesOneMore(states: seq<Tables>, steps: seq<Step>, m: CostModel, d: int, n: nat)
    requires |states| == |steps| + 1 && n < |steps| && AgreesUpTo(states, steps, m, d, n)
    requires Agrees(states[n + 1], m, RunDate(steps[..n + 1], d))
    ensures AgreesUpTo(states, steps, m, d, n + 1)
  {
    forall i | 0 <= i <= n + 1 ensures Agrees(states[i], m, RunDate(steps[..i], d)) {
      if i == n + 1 { assert steps[..i] == steps[..n + 1]; }
    }
  }

  lemma {:induction false} RunStart(states: seq<Tables>, steps: seq<Step>, m: CostModel, d: int)
    requires |states| == |steps| + 1 && Agrees(states[0], m, d)
    ensures AgreesUpTo(states, steps, m, d, 0)
  {
    assert steps[..0] == [];
  }

  lemma {:induction false} NextStepCut(states: seq<Tables>, steps: seq<Step>, cuts: seq<nat>, cfg: Config, d: int,
                                       n: nat)
    requires ValidConfig(cfg) && IsRun(states, steps, cuts, cfg, d) && n < |steps|
    requires AgreesUpTo(states, steps, cfg.costs, d, n)
    ensures AgreesUpTo(states, steps, cfg.costs, d, n + 1)
            || (Lasting(states[n + 1], cfg.costs) && !Completes(states[n], steps[n], cuts[n], cfg))
  {
    RunStepCut(states, steps, cuts, cfg, d, n);
    if Agrees(states[n + 1], cfg.costs, RunDate(steps[..n + 1], d)) {
      AgreesOneMore(states, steps, cfg.costs, d, n);
    }
  }

  /** Steps may be cut off anywhere, again and again: a run leaves the agreement only by a
      step after which the reconciler reports. */
  lemma {:induction false} RunsAgreeUntilReported(states: seq<Tables>, steps: seq<Step>, cuts: seq<nat>, cfg: Config,
                                                  d: int)
    returns (n: nat)
    requires ValidConfig(cfg) && IsRun(states, steps, cuts, cfg, d) && Agrees(states[0], cfg.costs, d)
    ensures n <= |steps| && AgreesUpTo(states, steps, cfg.costs, d, n)
    ensures n < |steps| ==> Lasting(states[n + 1], cfg.costs) && !Completes(states[n], steps[n], cuts[n], cfg)
  {
    n := 0;
    RunStart(states, steps, cfg.costs, d);
    while n < |steps|
      invariant n <= |steps| && AgreesUpTo(states, steps, cfg.costs, d, n)
    {
      NextStepCut(states, steps, cuts, cfg, d, n);
      if !AgreesUpTo(states, steps, cfg.costs, d, n + 1) {
        return;
      }
      n := n + 1;
    }
  }

  /** Steps that ran to their end keep the tables in agreement, in every state of the run. */
  lemma {:induction false} RunsAgree(states: seq<Tables>, steps: seq<Step>, cuts: seq<nat>, cfg: Config, d: int)
    requires ValidConfig(cfg) && IsRun(states, steps, cuts, cfg, d) && RunsToEnd(states, steps, cuts, cfg)
    requires Agrees(states[0], cfg.costs, d)
    ensures AgreesUpTo(states, steps, cfg.costs, d, |steps|)
  {
    var n := RunsAgreeUntilReported(states, steps, cuts, cfg, d);
  }

  lemma {:induction false} LastAgrees(states: seq<Tables>, steps: seq<Step>, m: CostModel, d: int)
    requires |states| == |steps| + 1 && AgreesUpTo(states, steps, m, d, |steps|)
    ensures Agrees(states[|steps|], m, RunDate(steps, d))
  {
    assert steps[..|steps|] == steps;
  }

  /** The date a run has reached: of its last booking, or of a release after it. */
  ghost function LastDate(t: Tables, steps: seq<Step>, d: int): int
    requires t.balances != []
  {
    Today(t, RunDate(steps, d))
  }

  /** Incremental equals replay, over whole runs: whatever steps a run has taken from its
      seeded account, as long as fill times grow strictly, and in whatever order the facts
      come, the reconciler reports nothing exactly when the persisted positions have been
      released for the date it checks. */
  lemma {:induction false} IncrementalEqualsReplay(states: seq<Tables>, steps: seq<Step>, cuts: seq<nat>, cfg: Config,
                                                   seedDate: int, seededAt: Time, facts: Facts, at: Time)
    requires ValidConfig(cfg) && IsRun(states, steps, cuts, cfg, seedDate) && RunsToEnd(states, steps, cuts, cfg)
    requires ValidTables(EmptyTables)
    requires states[0] == CommitAll(EmptyTables, RecoverAccount(EmptyTables, seedDate, seededAt, cfg.initialCash))
    requires ReadFrom(facts, states[|steps|])
    requires states[|steps|].balances != [] ==> LastDate(states[|steps|], steps, seedDate) <= facts.tradeDate
    ensures ValidFacts(facts)
    ensures ExpectedIssues(facts, cfg.costs, at) == [] <==> AllReleased(states[|steps|], facts.tradeDate)
  {
    SeedAgrees(seedDate, seededAt, cfg.initialCash, cfg.costs, seedDate);
    RunsAgree(states, steps, cuts, cfg, seedDate);
    LastAgrees(states, steps, cfg.costs, seedDate);
    CleanIffReleased(states[|steps|], facts, cfg.costs, RunDate(steps, seedDate), at);
  }

  /** And a crash in the next step, between any two of its writes, is never silent. */
  lemma {:induction false} CrashAfterRun(states: seq<Tables>, steps: seq<Step>, cuts: seq<nat>, cfg: Config, d: int,
                                         step: Step, k: nat, t': Tables)
    requires ValidConfig(cfg) && IsRun(states, steps, cuts, cfg, d) && RunsToEnd(states, steps, cuts, cfg)
    requires Agrees(states[0], cfg.costs, d) && Takes(states[|steps|], step, k, t', cfg, RunDate(steps, d))
    ensures Sound(t', cfg.costs, DateAfter(step, RunDate(steps, d)))
  {
    RunsAgree(states, steps, cuts, cfg, d);
    LastAgrees(states, steps, cfg.costs, d);
    TakenStepCut(states[|steps|], step, k, t', cfg, RunDate(steps, d));
  }
}
