/** Exposure under the default venue scenario: what a submission does to the value of
    positions, and the caps of the risk gate in every reachable state. */
module Exposure {
  import opened Prelude
  import opened Execution
  import opened Costs
  import opened Ledger
  import opened LedgerRuns
  import opened PaperAdapter
  import opened Planner
  import opened RiskGate
  import opened Store
  import opened Oms
  import opened Reconciler
  import opened OrderAgreement
  import opened Submissions
  import opened Runs
  import opened Protection

  // ----------------------------------------------- what a call does to positions

  /** The price and quantity a fully filled intent leaves its symbol at. */
  function ExecutionPrice(i: OrderIntent): real
    requires ValidIntent(i)
  {
    if i.orderType == OrderType.Market then i.decisionPrice else i.price.value
  }

  function FilledTo(t: Tables, i: OrderIntent): real {
    QtyOf(t, i.symbol) + if i.side == Buy then i.qty else -i.qty
  }

  /** A position row keeps quantity and prices, or takes one symbol to qty at price. */
  predicate Reprices(t: Tables, w: Write, symbol: Symbol, qty: real, price: real) {
    match w
    case WPosition(p) =>
      || (&& p.symbol in t.positions && p.qty == t.positions[p.symbol].qty
          && p.markPrice == t.positions[p.symbol].markPrice
          && p.avgEntryPrice == t.positions[p.symbol].avgEntryPrice)
      || (p.symbol == symbol && p.qty == qty && p.markPrice == (if qty == 0.0 then None else Some(price)))
    case _ => true
  }

  function Repricing(symbol: Symbol, qty: real, price: real): (Tables, Write) -> bool {
    (t, w) => Reprices(t, w, symbol, qty, price)
  }

  predicate SameValue(t: Tables, t': Tables, s: Symbol) {
    && (s in t.positions <==> s in t'.positions)
    && (s in t.positions ==>
          t'.positions[s].qty == t.positions[s].qty && t'.positions[s].markPrice == t.positions[s].markPrice)
  }

  /** All symbols as they were, but for one that may be at qty and price. */
  ghost predicate Repriced(t: Tables, t': Tables, symbol: Symbol, qty: real, price: real) {
    && (forall s :: s != symbol ==> SameValue(t, t', s))
    && (SameValue(t, t', symbol)
        || (symbol in t'.positions && t'.positions[symbol].qty == qty
            && t'.positions[symbol].markPrice == (if qty == 0.0 then None else Some(price))))
  }

  lemma {:induction false} RepricingWrites(t: Tables, ws: seq<Write>, symbol: Symbol, qty: real, price: real)
    requires Every(Repricing(symbol, qty, price), t, ws)
    ensures Repriced(t, CommitAll(t, ws), symbol, qty, price)
  {
    if ws != [] {
      RepricingWrites(t, ws[..|ws| - 1], symbol, qty, price);
      var t1, w := CommitAll(t, ws[..|ws| - 1]), ws[|ws| - 1];
      assert Reprices(t1, w, symbol, qty, price);
      RepricesOnce(t, t1, w, symbol, qty, price);
    }
  }

  lemma {:induction false} RepricesOnce(t: Tables, t1: Tables, w: Write, symbol: Symbol, qty: real, price: real)
    requires Repriced(t, t1, symbol, qty, price) && Reprices(t1, w, symbol, qty, price)
    ensures Repriced(t, Commit(t1, w), symbol, qty, price)
  {
    var t2 := Commit(t1, w);
    if w.WPosition? {
      forall s | s != symbol ensures SameValue(t, t2, s) { assert SameValue(t, t1, s); }
    } else {
      assert t2.positions == t1.positions;
      forall s | s != symbol ensures SameValue(t, t2, s) { assert SameValue(t, t1, s); }
    }
  }

  // ------------------------------------------------------------- report writes

  lemma {:induction false} OrdersTouchOrdersOnly(t: Tables, ws: seq<Write>)
    requires forall i :: 0 <= i < |ws| ==> ws[i].WOrder?
    ensures CommitAll(t, ws).positions == t.positions && CommitAll(t, ws).fills == t.fills
    ensures CommitAll(t, ws).balances == t.balances
  {
    if ws != [] { OrdersTouchOrdersOnly(t, ws[..|ws| - 1]); }
  }

  lemma {:induction false} UpdatesAreOrderRows(t: Tables, o: Order, us: seq<OrderUpdate>)
    ensures forall i :: 0 <= i < |UpdateWrites(t, o, us).writes| ==> UpdateWrites(t, o, us).writes[i].WOrder?
  {
    if us != [] { UpdatesAreOrderRows(t, o, us[..|us| - 1]); }
  }

  lemma {:induction false} RepricingAllowsUpkeep(symbol: Symbol, qty: real, price: real)
    ensures AllowsUpkeep(Repricing(symbol, qty, price))
  {
  }

  lemma {:induction false} OrdersReprice(t: Tables, ws: seq<Write>, symbol: Symbol, qty: real, price: real)
    requires forall i :: 0 <= i < |ws| ==> ws[i].WOrder?
    ensures Every(Repricing(symbol, qty, price), t, ws)
  {
    if ws != [] { OrdersReprice(t, ws[..|ws| - 1], symbol, qty, price); }
  }

  /** What an accepted fill does to quantity and mark. */
  lemma {:induction false} FillSetsMark(e: FillEvent, position: Option<Position>, balance: Option<BalanceSnapshot>)
    requires ValidFillEvent(e) && (position.Some? ==> ValidPosition(position.value))
      && ApplyFill(e, position, balance).Ok?
    ensures
      var p, held := ApplyFill(e, position, balance).value.position, if position.Some? then position.value.qty else 0.0;
      && p.qty == held + (if e.fill.side == Buy then e.fill.qty else -e.fill.qty)
      && p.markPrice == (if p.qty == 0.0 then None else Some(e.fill.price))
  {
  }

  lemma {:induction false} FillReprices(t: Tables, e: FillEvent, qty: real)
    requires ValidTables(t) && ValidFillEvent(e)
    requires qty == QtyOf(t, e.fill.symbol) + if e.fill.side == Buy then e.fill.qty else -e.fill.qty
    ensures Every(Repricing(e.fill.symbol, qty, e.fill.price), t, FillWrites(t, e).writes)
  {
    var s := e.fill.symbol;
    var ok := Repricing(s, qty, e.fill.price);
    var ws := FillWrites(t, e).writes;
    EveryOne(ok, t, WFill(e.fill));
    if |ws| == 3 {
      LatestSnapshotIsARow(t.balances, e.cost.currency);
      var position, balance := Get(t.positions, s), LatestBalance(t, e.cost.currency);
      FillSetsMark(e, position, balance);
      ApplyFillKeepsPositionsValid(e, position, balance);
      assert ws == [ws[0], ws[1], ws[2]];
      EveryThree(ok, t, ws[0], ws[1], ws[2]);
    }
  }

  /** Under the default scenario the whole order fills at once, at the execution price. */
  lemma {:induction false} DefaultReport(o: Order, i: OrderIntent, m: CostModel, at: Time)
    requires ValidOrder(o) && ValidIntent(i) && ValidCostModel(m) && SubmitOrder(o, i, m, None, at).Ok?
    requires o.orderType == i.orderType && o.price == i.price
    ensures
      var r := SubmitOrder(o, i, m, None, at).value;
      && (ContractViolation(o, i).Some? ==> r.fills == [])
      && (ContractViolation(o, i).None? ==>
            && |r.fills| == 1 && ValidFillEvents(r.fills)
            && var f := r.fills[0].fill;
               f.symbol == o.symbol && f.side == o.side && f.qty == o.qty && f.price == ExecutionPrice(i)
               && f.id == FillId(o.id, 1))
  {
    var sc, d := DefaultScenario(o, i), DefaultPrice(o, i);
    if ContractViolation(o, i).None? {
      assert |sc.slices| == 1;
      var es := SliceEvents(o, m, sc.slices, d, at, 1);
      assert es == SliceEvents(o, m, sc.slices, d, at, 0) + [SliceEvent(o, m, sc.slices, d, at, 0)];
    }
  }

  lemma {:induction false} DefaultReportReprices(t: Tables, o: Order, i: OrderIntent, report: ExecutionReport)
    requires ValidTables(t) && ValidFillEvents(report.fills) && ValidIntent(i)
    requires report.fills == []
      || (|report.fills| == 1
          && var f := report.fills[0].fill;
             f.symbol == i.symbol && f.side == i.side && f.qty == i.qty && f.price == ExecutionPrice(i))
    ensures Every(Repricing(i.symbol, FilledTo(t, i), ExecutionPrice(i)), t, ReportWrites(t, o, report).writes)
  {
    var ok := Repricing(i.symbol, FilledTo(t, i), ExecutionPrice(i));
    var u := UpdateWrites(t, o, report.updates);
    UpdatesAreOrderRows(t, o, report.updates);
    OrdersTouchOrdersOnly(t, u.writes);
    OrdersReprice(t, u.writes, i.symbol, FilledTo(t, i), ExecutionPrice(i));
    if !u.raised {
      WritesKeepTablesValid(t, u.writes);
      var t1 := CommitAll(t, u.writes);
      if report.fills != [] {
        OneFill(t1, report.fills);
        FillReprices(t1, report.fills[0], FilledTo(t, i));
      }
      EveryBoth(ok, t, u.writes, AllFillWrites(t1, report.fills).writes);
    }
  }

  lemma {:induction false} OneFill(t: Tables, es: seq<FillEvent>)
    requires ValidTables(t) && ValidFillEvents(es) && |es| == 1
    ensures AllFillWrites(t, es) == FillWrites(t, es[0])
  {
    assert es[..0] == [];
    assert AllFillWrites(t, []) == Trace([], false);
    assert CommitAll(t, []) == t;
    assert [] + FillWrites(t, es[0]).writes == FillWrites(t, es[0]).writes;
  }

  // ------------------------------------------------------------------- one call

  /** The effect of working with intent i in state t, written out as a rule for rows. */
  function Effect(t: Tables, i: OrderIntent): (Tables, Write) -> bool
    requires ValidIntent(i)
  {
    Repricing(i.symbol, FilledTo(t, i), ExecutionPrice(i))
  }

  lemma {:induction false} LaunchReprices(t: Tables, i: OrderIntent, s: Submission, m: CostModel)
    requires ValidTables(t) && ValidIntent(i) && ValidCostModel(m) && s.scenario.None?
    ensures Every(Effect(t, i), t, Launch(t, i, s, m).writes)
  {
    var ok := Effect(t, i);
    var o := CreateOrderFromIntent(i, s.receivedAt);
    EveryTwo(ok, t, WOrder(o), WOrder(o));
    var handed := [WOrder(o), WIntent(i.(status := IntentSubmitted))];
    EveryTwo(ok, t, handed[0], handed[1]);
    WritesKeepTablesValid(t, handed);
    if MaySaveOrder(t, o) && SubmitOrder(o, i, m, None, s.venueTime).Ok? {
      HandedOverReprices(t, i, s, o, m, handed, CommitAll(t, handed));
    }
  }

  lemma {:induction false} HandedOverReprices(t: Tables, i: OrderIntent, s: Submission, o: Order, m: CostModel,
                                              handed: seq<Write>, t2: Tables)
    requires ValidTables(t2) && ValidIntent(i) && ValidCostModel(m) && o == CreateOrderFromIntent(i, s.receivedAt)
    requires handed == [WOrder(o), WIntent(i.(status := IntentSubmitted))] && t2 == CommitAll(t, handed)
    requires Every(Effect(t, i), t, handed) && SubmitOrder(o, i, m, None, s.venueTime).Ok?
    ensures ValidFillEvents(SubmitOrder(o, i, m, None, s.venueTime).value.fills)
    ensures Every(Effect(t, i), t, handed + ReportWrites(t2, o, SubmitOrder(o, i, m, None, s.venueTime).value).writes)
  {
    CommitTwo(t, handed[0], handed[1]);
    DefaultReport(o, i, m, s.venueTime);
    assert FilledTo(t2, i) == FilledTo(t, i);
    var report := SubmitOrder(o, i, m, None, s.venueTime).value;
    DefaultReportReprices(t2, o, i, report);
    EveryBoth(Effect(t, i), t, handed, ReportWrites(t2, o, report).writes);
  }

  /** The intent a call works with once its plan is admitted. */
  function UsedIntent(t: Tables, plan: Plan, signal: Signal, s: Submission): OrderIntent
    requires plan.side.Some? && s.decisionPrice.Some?
  {
    if IntentOf(t, signal.id).Some? then IntentOf(t, signal.id).value else IntentFor(plan, signal, s)
  }

  lemma {:induction false} ExecuteReprices(t: Tables, plan: Plan, signal: Signal, s: Submission, m: CostModel)
    requires ValidTables(t) && ValidCostModel(m) && Actionable(plan) && s.decisionPrice.Some? && s.scenario.None?
    requires ValidIntent(UsedIntent(t, plan, signal, s))
    ensures Every(Effect(t, UsedIntent(t, plan, signal, s)), t, Execute(t, plan, signal, s, m).writes)
  {
    var planned := IntentFor(plan, signal, s);
    if ValidIntent(planned) {
      var found := IntentOf(t, signal.id);
      var i := UsedIntent(t, plan, signal, s);
      var ok := Effect(t, i);
      var saved := if found.Some? then [] else [WIntent(planned)];
      if found.None? { EveryOne(ok, t, WIntent(planned)); }
      WritesKeepTablesValid(t, saved);
      CommitOne(t, WIntent(planned));
      var t1 := CommitAll(t, saved);
      assert t1.positions == t.positions && FilledTo(t1, i) == FilledTo(t, i);
      if i.status == IntentSubmitted {
        var o := CreateOrderFromIntent(i, s.receivedAt);
        EveryOne(ok, t1, WOrder(o));
        EveryBoth(ok, t, saved, if o.id in t1.orders then [] else [WOrder(o)]);
      } else {
        LaunchReprices(t1, i, s, m);
        EveryBoth(ok, t, saved, Launch(t1, i, s, m).writes);
      }
    }
  }

  lemma {:induction false} SameRowSameValue(t: Tables, t1: Tables, s: Symbol, p: Position)
    requires s in t.positions && p.qty == t.positions[s].qty && p.markPrice == t.positions[s].markPrice
    requires t1.positions == t.positions[s := p]
    ensures forall x: Symbol :: SameValue(t, t1, x)
  {
  }

  lemma {:induction false} SamePositionsSameValue(t: Tables, t1: Tables)
    requires t1.positions == t.positions
    ensures forall x: Symbol :: SameValue(t, t1, x)
  {
  }

  lemma {:induction false} AdmittingKeepsValues(t: Tables, s: Submission, ws: seq<Write>, t1: Tables)
    requires ValidTables(t) && Admitting(t, s, ws) && t1 == CommitAll(t, ws)
    ensures t1.intents == t.intents && t1.intentBySignal == t.intentBySignal
    ensures forall x: Symbol :: SameValue(t, t1, x)
  {
    if |ws| == 2 {
      CommitTwo(t, ws[0], ws[1]);
      SameRowSameValue(t, t1, s.signal.symbol, ws[1].position);
    } else {
      CommitOne(t, ws[0]);
      SamePositionsSameValue(t, t1);
    }
  }

  lemma {:induction false} AdmittingReprices(t: Tables, s: Submission, ws: seq<Write>, symbol: Symbol, qty: real,
                                             price: real)
    requires ValidTables(t) && Admitting(t, s, ws)
    ensures Every(Repricing(symbol, qty, price), t, ws)
  {
    var ok := Repricing(symbol, qty, price);
    if |ws| == 2 {
      var t1 := Commit(t, ws[0]);
      assert t1.positions == t.positions;
      assert Reprices(t1, ws[1], symbol, qty, price);
      EveryTwo(ok, t, ws[0], ws[1]);
      assert ws == [ws[0], ws[1]];
    } else {
      EveryOne(ok, t, ws[0]);
    }
  }

  /** Admitting releases at most: no quantity and no price changes. */
  lemma {:induction false} AdmissionReprices(t: Tables, s: Submission, policy: Policy, symbol: Symbol, qty: real,
                                             price: real)
    requires ValidTables(t) && ValidSubmission(s)
    ensures
      var ws := Admit(t, s, policy).writes;
      var t1 := CommitAll(t, ws);
      && Every(Repricing(symbol, qty, price), t, ws)
      && t1.intents == t.intents && t1.intentBySignal == t.intentBySignal
      && forall x: Symbol :: SameValue(t, t1, x)
  {
    AdmissionShape(t, s, policy);
    var ws := Admit(t, s, policy).writes;
    AdmittingReprices(t, s, ws, symbol, qty, price);
    AdmittingKeepsValues(t, s, ws, CommitAll(t, ws));
  }

  predicate Admitted(t: Tables, s: Submission, policy: Policy)
    requires ValidTables(t) && ValidSubmission(s)
  {
    var a := Admit(t, s, policy);
    s.leaseHeld && !a.raised && a.decision.Allow? && a.plan.Some? && Actionable(a.plan.value)
  }

  /** Wherever a call is cut off, every symbol stands where it stood, but for the symbol of the
      intent worked with, which may stand at the filled quantity and the execution price. */
  lemma {:induction false} CallReprices(t: Tables, s: Submission, cfg: Config, i: OrderIntent, k: nat)
    requires ValidTables(t) && ValidSubmission(s) && ValidConfig(cfg) && s.scenario.None?
    requires ValidIntent(i) && k <= |SubmitSignal(t, s, cfg).writes|
    requires Admitted(t, s, cfg.policy) ==>
      var a := Admit(t, s, cfg.policy);
      s.decisionPrice.Some? && i == UsedIntent(t, a.plan.value, a.signal, s)
    ensures Repriced(t, CommitAll(t, SubmitSignal(t, s, cfg).writes[..k]), i.symbol, FilledTo(t, i), ExecutionPrice(i))
  {
    var a, ok := Admit(t, s, cfg.policy), Effect(t, i);
    var ws := SubmitSignal(t, s, cfg).writes;
    AdmissionReprices(t, s, cfg.policy, i.symbol, FilledTo(t, i), ExecutionPrice(i));
    if Admitted(t, s, cfg.policy) {
      var t1 := CommitAll(t, a.writes);
      WritesKeepTablesValid(t, a.writes);
      assert SameValue(t, t1, i.symbol);
      assert FilledTo(t1, i) == FilledTo(t, i);
      assert UsedIntent(t1, a.plan.value, a.signal, s) == i;
      ExecuteReprices(t1, a.plan.value, a.signal, s, cfg.costs);
      EveryBoth(ok, t, a.writes, Execute(t1, a.plan.value, a.signal, s, cfg.costs).writes);
    }
    EveryPrefix(ok, t, ws, k);
    RepricingWrites(t, ws[..k], i.symbol, FilledTo(t, i), ExecutionPrice(i));
  }

  // ---------------------------------------------------------- what the gate counts

  lemma {:induction false} SumMapSame<V>(a: map<nat, V>, b: map<nat, V>, f: V -> real)
    requires a.Keys == b.Keys && forall k :: k in a ==> f(a[k]) == f(b[k])
    ensures SumMap(a, f) == SumMap(b, f)
    decreases a.Keys
  {
    if a.Keys != {} {
      var k := Least(a.Keys);
      SumMapSame(a - {k}, b - {k}, f);
    }
  }

  ghost predicate AllHeldAreMarked(positions: map<Symbol, Position>) {
    forall s :: s in positions ==> positions[s].qty != 0.0 ==> positions[s].markPrice.Some?
  }

  predicate ValidPositions(positions: map<Symbol, Position>) {
    forall s :: s in positions ==> ValidPosition(positions[s]) && positions[s].symbol == s
  }

  /** The market value of the listed symbols. */
  ghost function ValueOf(symbols: seq<Symbol>, positions: map<Symbol, Position>): real {
    if symbols == [] then 0.0
    else
      var s := symbols[|symbols| - 1];
      ValueOf(symbols[..|symbols| - 1], positions) + if s in positions then MarketValue(positions[s]) else 0.0
  }

  lemma {:induction false} ValueIgnoresUnlisted(symbols: seq<Symbol>, positions: map<Symbol, Position>, s: Symbol)
    requires s !in symbols
    ensures ValueOf(symbols, positions) == ValueOf(symbols, positions - {s})
  {
    if symbols != [] { ValueIgnoresUnlisted(symbols[..|symbols| - 1], positions, s); }
  }

  ghost predicate Distinct(symbols: seq<Symbol>) {
    forall i, j :: 0 <= i < j < |symbols| ==> symbols[i] != symbols[j]
  }

  lemma {:induction false} LastIsUnlisted(symbols: seq<Symbol>, front: seq<Symbol>, s: Symbol)
    requires Distinct(symbols) && symbols != [] && front == symbols[..|symbols| - 1] && s == symbols[|symbols| - 1]
    ensures Distinct(front) && s !in front && forall x :: x in symbols <==> x in front || x == s
  {
  }

  lemma {:induction false} ValueIsTheSum(symbols: seq<Symbol>, positions: map<Symbol, Position>)
    requires Distinct(symbols) && forall s :: s in positions ==> s in symbols
    ensures ValueOf(symbols, positions) == SumMap(positions, MarketValue)
  {
    if symbols == [] {
      assert positions.Keys == {};
    } else {
      var front, s := symbols[..|symbols| - 1], symbols[|symbols| - 1];
      LastIsUnlisted(symbols, front, s);
      ValueIgnoresUnlisted(front, positions, s);
      if s in positions {
        SumMapTakesAnyRow(positions, MarketValue, s);
      } else {
        assert positions - {s} == positions;
      }
      ValueIsTheSum(front, positions - {s});
    }
  }

  /** What the gate finds among listed positions: the traded symbol, and the rest at its mark. */
  ghost predicate Counts(listed: seq<Position>, symbol: Symbol, resulting: real, seen: bool, others: real) {
    && (SymbolSeen(listed, symbol) <==> seen)
    && OpenNotional(listed, symbol, resulting) == Some(others + if seen then resulting else 0.0)
  }

  lemma {:induction false} CountsOneMore(listed: seq<Position>, p: Position, symbol: Symbol, resulting: real,
                                         seen: bool, others: real)
    requires Counts(listed, symbol, resulting, seen, others)
    requires ValidPosition(p) && p.qty != 0.0 && p.markPrice.Some?
    ensures Counts(listed + [p], symbol, resulting, seen || p.symbol == symbol,
                   others + if p.symbol == symbol then 0.0 else MarketValue(p)) || (seen && p.symbol == symbol)
  {
    OpenNotionalGrows(listed, p, symbol, resulting);
    SeenGrows(listed, p, symbol);
  }

  lemma {:induction false} ClosedIsWorthless(p: Position)
    requires ValidPosition(p) && !IsOpen(p)
    ensures p.qty == 0.0 && MarketValue(p) == 0.0
  {
  }

  lemma {:induction false} GateCountsListed(symbols: seq<Symbol>, positions: map<Symbol, Position>, symbol: Symbol,
                                            resulting: real)
    requires ValidPositions(positions) && AllHeldAreMarked(positions) && Distinct(symbols)
    ensures Counts(OpenAmong(symbols, positions), symbol, resulting,
                   symbol in symbols && symbol in positions && positions[symbol].qty > 0.0,
                   ValueOf(symbols, positions - {symbol}))
  {
    if symbols != [] {
      var front, s := symbols[..|symbols| - 1], symbols[|symbols| - 1];
      LastIsUnlisted(symbols, front, s);
      GateCountsListed(front, positions, symbol, resulting);
      var listed := OpenAmong(front, positions);
      if s in positions && IsOpen(positions[s]) {
        CountsOneMore(listed, positions[s], symbol, resulting,
                      symbol in front && symbol in positions && positions[symbol].qty > 0.0,
                      ValueOf(front, positions - {symbol}));
      } else {
        assert listed + [] == listed;
        if s in positions { ClosedIsWorthless(positions[s]); }
      }
    }
  }

  lemma {:induction false} CountedTotal(listed: seq<Position>, symbol: Symbol, resulting: real, seen: bool,
                                        others: real)
    requires Counts(listed, symbol, resulting, seen, others)
    ensures TotalNotional(listed, symbol, resulting) == Some(others + resulting)
  {
  }

  lemma {:induction false} ListedTotal(symbols: seq<Symbol>, positions: map<Symbol, Position>, symbol: Symbol,
                                       resulting: real)
    requires ValidPositions(positions) && AllHeldAreMarked(positions) && Distinct(symbols)
    requires forall s :: s in positions ==> s in symbols
    ensures TotalNotional(OpenAmong(symbols, positions), symbol, resulting)
         == Some(SumMap(positions - {symbol}, MarketValue) + resulting)
  {
    GateCountsListed(symbols, positions, symbol, resulting);
    CountedTotal(OpenAmong(symbols, positions), symbol, resulting,
                 symbol in symbols && symbol in positions && positions[symbol].qty > 0.0,
                 ValueOf(symbols, positions - {symbol}));
    ValueIsTheSum(symbols, positions - {symbol});
  }

  /** The gate's total is the market value of every other position plus the resulting one. */
  lemma {:induction false} GateCountsEverything(t: Tables, symbol: Symbol, resulting: real)
    requires ValidTables(t) && AllHeldAreMarked(t.positions)
    ensures TotalNotional(OpenPositions(t), symbol, resulting)
         == Some(SumMap(t.positions - {symbol}, MarketValue) + resulting)
  {
    ListedTotal(SortedKeys(t.positions.Keys), t.positions, symbol, resulting);
  }

  // -------------------------------------------------------------------- the caps

  /** Every symbol, and the account, within the policy's notional limits at the marks. */
  ghost predicate WithinCaps(t: Tables, policy: Policy) {
    && AllHeldAreMarked(t.positions)
    && (forall s :: s in t.positions ==> MarketValue(t.positions[s]) <= policy.maxSingleNotional)
    && SumMap(t.positions, MarketValue) <= policy.maxTotalNotional
  }

  /** The market value of all positions but one. */
  ghost function OthersValue(t: Tables, symbol: Symbol): real { SumMap(t.positions - {symbol}, MarketValue) }

  lemma {:induction false} MarketValueIsNonNegative(p: Position)
    requires ValidPosition(p)
    ensures MarketValue(p) >= 0.0
  {
  }

  lemma {:induction false} OthersAreNoMore(t: Tables, symbol: Symbol)
    requires ValidTables(t)
    ensures SumMap(t.positions - {symbol}, MarketValue) <= SumMap(t.positions, MarketValue)
  {
    if symbol in t.positions {
      SumMapTakesAnyRow(t.positions, MarketValue, symbol);
      MarketValueIsNonNegative(t.positions[symbol]);
    } else {
      assert t.positions - {symbol} == t.positions;
    }
  }

  /** Unchanged symbols keep their value and their mark. */
  ghost predicate SameValues(a: map<Symbol, Position>, b: map<Symbol, Position>) {
    a.Keys == b.Keys
    && forall s :: s in a ==> b[s].qty == a[s].qty && b[s].markPrice == a[s].markPrice
  }

  lemma {:induction false} SameValuesSameSum(a: map<Symbol, Position>, b: map<Symbol, Position>)
    requires SameValues(a, b)
    ensures SumMap(a, MarketValue) == SumMap(b, MarketValue)
  {
    SumMapSame(a, b, MarketValue);
  }

  lemma {:induction false} RepricedOthers(t: Tables, t': Tables, symbol: Symbol, qty: real, price: real)
    requires Repriced(t, t', symbol, qty, price)
    ensures SameValues(t.positions - {symbol}, t'.positions - {symbol})
    ensures SameValue(t, t', symbol) ==> SameValues(t.positions, t'.positions)
  {
    SameValuesExcept(t, t', {symbol});
    if SameValue(t, t', symbol) {
      SameValuesExcept(t, t', {});
      assert t.positions - {} == t.positions && t'.positions - {} == t'.positions;
    }
  }

  lemma {:induction false} SameValuesExcept(t: Tables, t': Tables, except: set<Symbol>)
    requires forall s :: s !in except ==> SameValue(t, t', s)
    ensures SameValues(t.positions - except, t'.positions - except)
  {
    var a, b := t.positions - except, t'.positions - except;
    forall s | s in a ensures s in b && b[s].qty == a[s].qty && b[s].markPrice == a[s].markPrice {
      assert SameValue(t, t', s);
    }
    forall s | s in b ensures s in a {
      assert SameValue(t, t', s);
    }
  }

  lemma {:induction false} StillWithin(a: map<Symbol, Position>, b: map<Symbol, Position>, symbol: Symbol, limit: real)
    requires SameValues(a - {symbol}, b - {symbol}) && AllHeldAreMarked(a)
    requires forall s :: s in a ==> MarketValue(a[s]) <= limit
    ensures forall s :: s in b && s != symbol ==>
      MarketValue(b[s]) <= limit && (b[s].qty != 0.0 ==> b[s].markPrice.Some?)
  {
    forall s | s in b && s != symbol
      ensures MarketValue(b[s]) <= limit && (b[s].qty != 0.0 ==> b[s].markPrice.Some?)
    {
      assert s in b - {symbol} && s in (a - {symbol}).Keys;
    }
  }

  lemma {:induction false} SameValuesWithin(a: map<Symbol, Position>, b: map<Symbol, Position>, limit: real)
    requires SameValues(a, b) && AllHeldAreMarked(a) && forall s :: s in a ==> MarketValue(a[s]) <= limit
    ensures AllHeldAreMarked(b) && forall s :: s in b ==> MarketValue(b[s]) <= limit
  {
  }

  lemma {:induction false} RepricedWithinCaps(t: Tables, t': Tables, symbol: Symbol, qty: real, price: real,
                                              value: real, policy: Policy)
    requires ValidTables(t) && WithinCaps(t, policy) && Repriced(t, t', symbol, qty, price)
      && value == NotionalAt(qty, price)
    requires value <= policy.maxSingleNotional && 0.0 <= policy.maxSingleNotional
    requires OthersValue(t, symbol) + value <= policy.maxTotalNotional
    ensures WithinCaps(t', policy)
  {
    RepricedOthers(t, t', symbol, qty, price);
    if SameValue(t, t', symbol) {
      SameValuesSameSum(t.positions, t'.positions);
      SameValuesWithin(t.positions, t'.positions, policy.maxSingleNotional);
    } else {
      SameValuesSameSum(t.positions - {symbol}, t'.positions - {symbol});
      RepricedSum(t'.positions, symbol, qty, price);
      StillWithin(t.positions, t'.positions, symbol, policy.maxSingleNotional);
    }
  }

  lemma {:induction false} RepricedSum(positions: map<Symbol, Position>, symbol: Symbol, qty: real, price: real)
    requires symbol in positions && positions[symbol].qty == qty
    requires positions[symbol].markPrice == (if qty == 0.0 then None else Some(price))
    ensures MarketValue(positions[symbol]) == NotionalAt(qty, price)
    ensures SumMap(positions, MarketValue) == SumMap(positions - {symbol}, MarketValue) + NotionalAt(qty, price)
  {
    SumMapTakesAnyRow(positions, MarketValue, symbol);
  }

  /** The signal is the one stored under its id, if one is. */
  predicate SameAsStored(t: Tables, s: Signal) { s.id in t.signals ==> t.signals[s.id] == s }

  /** No earlier call left an intent of this signal behind unsubmitted. */
  predicate NotPending(t: Tables, signal: SignalId) {
    IntentOf(t, signal).Some? ==> IntentOf(t, signal).value.status == IntentSubmitted
  }

  lemma {:induction false} GatePasses(c: Context, policy: Policy)
    requires Evaluate(c, policy).Allow? && c.plan.Some? && Actionable(c.plan.value)
    ensures c.decisionPrice.Some? && c.decisionPrice.value > 0.0
    ensures
      var resulting := ResultingNotional(c.plan.value, c.decisionPrice.value);
      var total := TotalNotional(c.openPositions, c.signal.symbol, resulting);
      resulting <= policy.maxSingleNotional && total.Some? && total.value <= policy.maxTotalNotional
  {
  }

  /** What an admitted plan resizes its symbol to. */
  lemma {:induction false} PlanResizes(target: real, rule: SymbolRule, qty: real, sellable: real)
    requires ValidRule(rule) && 0.0 <= sellable <= qty && Actionable(BuildPlan(target, rule, qty, sellable))
    ensures
      var p := BuildPlan(target, rule, qty, sellable);
      ResultingQty(p) == qty + (if p.side == Some(Buy) then p.qty else -p.qty) && ResultingQty(p) >= 0.0
  {
  }

  lemma {:induction false} AdmittedContext(t: Tables, s: Submission, policy: Policy)
    requires ValidTables(t) && ValidSubmission(s) && SameAsStored(t, s.signal) && Admitted(t, s, policy)
    ensures
      var a := Admit(t, s, policy);
      var t1 := CommitAll(t, a.writes);
      && s.decisionPrice.Some? && s.decisionPrice.value > 0.0 && a.signal == s.signal
      && ResultingNotional(a.plan.value, s.decisionPrice.value) <= policy.maxSingleNotional
      && var total := TotalNotional(OpenPositions(t1), s.signal.symbol,
           ResultingNotional(a.plan.value, s.decisionPrice.value));
      total.Some? && total.value <= policy.maxTotalNotional
    ensures
      var p := Admit(t, s, policy).plan.value;
      ResultingQty(p) == QtyOf(t, s.signal.symbol) + (if p.side == Some(Buy) then p.qty else -p.qty)
  {
    var a := Admit(t, s, policy);
    var t1 := CommitAll(t, a.writes);
    GatePasses(GateContext(t1, s, policy, a.signal, a.position, a.plan), policy);
    var qty := if a.position.Some? then a.position.value.qty else 0.0;
    var sellable := if a.position.Some? then a.position.value.sellableQty else 0.0;
    PlanResizes(a.signal.targetPosition, s.rule.value, qty, sellable);
  }

  /** An admitted plan, filled at the decision price, stays within the caps. */
  lemma {:induction false} AdmittedWithinCaps(t: Tables, s: Submission, policy: Policy)
    requires ValidTables(t) && ValidSubmission(s) && AllHeldAreMarked(t.positions) && SameAsStored(t, s.signal)
    requires Admitted(t, s, policy)
    ensures s.decisionPrice.Some? && s.decisionPrice.value > 0.0
    ensures
      var p := Admit(t, s, policy).plan.value;
      var resulting := ResultingNotional(p, s.decisionPrice.value);
      && ResultingQty(p) == QtyOf(t, s.signal.symbol) + (if p.side == Some(Buy) then p.qty else -p.qty)
      && resulting <= policy.maxSingleNotional
      && OthersValue(t, s.signal.symbol) + resulting <= policy.maxTotalNotional
  {
    AdmittedContext(t, s, policy);
    var a, symbol := Admit(t, s, policy), s.signal.symbol;
    AdmissionReprices(t, s, policy, symbol, 0.0, 0.0);
    var t1 := CommitAll(t, a.writes);
    WritesKeepTablesValid(t, a.writes);
    StillMarked(t, t1, symbol);
    GateCountsEverything(t1, symbol, ResultingNotional(a.plan.value, s.decisionPrice.value));
  }

  lemma {:induction false} StillMarked(t: Tables, t1: Tables, symbol: Symbol)
    requires AllHeldAreMarked(t.positions) && forall x: Symbol :: SameValue(t, t1, x)
    ensures AllHeldAreMarked(t1.positions)
    ensures SumMap(t1.positions - {symbol}, MarketValue) == SumMap(t.positions - {symbol}, MarketValue)
  {
    forall s | s in t1.positions ensures t1.positions[s].qty != 0.0 ==> t1.positions[s].markPrice.Some? {
      assert SameValue(t, t1, s);
    }
    SameValuesExcept(t, t1, {symbol});
    SameValuesSameSum(t.positions - {symbol}, t1.positions - {symbol});
  }
}
