/** What startup recovery leaves behind: every share of an earlier date free to sell, cash seeded
    into an untouched account, and nothing for the reconciler to report. */
module Recovery {
  import opened Prelude
  import opened Execution
  import opened Costs
  import opened Ledger
  import opened Store
  import opened Oms
  import opened Reconciler
  import opened Agreement
  import opened Submissions
  import opened Runs

  /** A position of an earlier date with all its shares free; a later one as it is. */
  function Freed(p: Position, tradeDate: int, at: Time): Position {
    if p.updatedAt / 86_400_000_000 < tradeDate && p.sellableQty < p.qty
    then p.(sellableQty := p.qty, updatedAt := at) else p
  }

  /** The position rows with those among the symbols freed. */
  ghost predicate FreedAmong(rows: map<Symbol, Position>, rows': map<Symbol, Position>, symbols: seq<Symbol>,
                             tradeDate: int, at: Time)
  {
    && rows'.Keys == rows.Keys
    && forall s :: s in rows ==> rows'[s] == if s in symbols then Freed(rows[s], tradeDate, at) else rows[s]
  }

  /** Nothing has ever happened on the account. */
  ghost predicate Untouched(t: Tables) {
    && t.balances == [] && t.fills == []
    && (forall id :: id in t.orders ==> t.orders[id].status in {Filled, Canceled, Rejected})
    && (forall s :: s in t.positions ==> t.positions[s].status == Closed)
  }

  lemma {:induction false} ReleaseIsFreed(p: Position, tradeDate: int, at: Time)
    requires ValidPosition(p)
    ensures Release(p, tradeDate, at) == Freed(p, tradeDate, at)
    ensures p.status == Closed ==> Freed(p, tradeDate, at) == p
    ensures Released(Freed(p, tradeDate, at), tradeDate)
    ensures Release(p, tradeDate, at).sellableQty <= p.sellableQty ==> Freed(p, tradeDate, at) == p
  {
  }

  lemma {:induction false} FreesOneMore(rows: map<Symbol, Position>, rows1: map<Symbol, Position>,
                                        rows2: map<Symbol, Position>, front: seq<Symbol>, s: Symbol, tradeDate: int,
                                        at: Time)
    requires FreedAmong(rows, rows1, front, tradeDate, at) && s !in front
    requires rows2 == if s in rows then rows1[s := Freed(rows[s], tradeDate, at)] else rows1
    ensures FreedAmong(rows, rows2, front + [s], tradeDate, at)
  {
    assert forall x :: x in front + [s] <==> x in front || x == s;
  }

  ghost predicate AllValid(positions: seq<Position>) {
    forall i :: 0 <= i < |positions| ==> ValidPosition(positions[i])
  }

  /** Releasing one more listed symbol adds its freed row, or nothing if there is none to free. */
  ghost predicate AddsFreed(rows: map<Symbol, Position>, s: Symbol, before: seq<Write>, ws: seq<Write>,
                            tradeDate: int, at: Time)
  {
    || (ws == before && (s in rows ==> Freed(rows[s], tradeDate, at) == rows[s]))
    || (s in rows && ws == before + [WPosition(Freed(rows[s], tradeDate, at))])
  }

  lemma {:induction false} ReleaseOneMore(rows: map<Symbol, Position>, symbols: seq<Symbol>, earlier: seq<Position>,
                                          all: seq<Position>, tradeDate: int, at: Time)
    requires symbols != [] && forall s :: s in rows ==> ValidPosition(rows[s])
    requires earlier == OpenAmong(symbols[..|symbols| - 1], rows) && AllValid(earlier)
    requires all == OpenAmong(symbols, rows) && AllValid(all)
    ensures AddsFreed(rows, symbols[|symbols| - 1], ReleaseEach(earlier, tradeDate, at),
                      ReleaseEach(all, tradeDate, at), tradeDate, at)
  {
    var s, before := symbols[|symbols| - 1], ReleaseEach(earlier, tradeDate, at);
    if s in rows { ReleaseIsFreed(rows[s], tradeDate, at); }
    if s in rows && IsOpen(rows[s]) {
      assert all[..|all| - 1] == earlier;
      assert before + [] == before;
    } else {
      assert all == earlier;
    }
  }

  lemma {:induction false} FreesLast(t0: Tables, rows: map<Symbol, Position>, front: seq<Symbol>, s: Symbol,
                                     before: seq<Write>, ws: seq<Write>, tradeDate: int, at: Time, t1: Tables,
                                     t': Tables)
    requires AddsFreed(rows, s, before, ws, tradeDate, at) && t1 == CommitAll(t0, before) && t' == CommitAll(t0, ws)
    requires FreedAmong(rows, t1.positions, front, tradeDate, at) && s !in front
    requires s in rows ==> rows[s].symbol == s
    ensures FreedAmong(rows, t'.positions, front + [s], tradeDate, at) && t' == t1.(positions := t'.positions)
  {
    if ws == before {
      assert s in rows ==> t1.positions == t1.positions[s := rows[s]];
    } else {
      var w := WPosition(Freed(rows[s], tradeDate, at));
      CommitAllConcat(t0, before, [w]);
      CommitOne(t1, w);
    }
    FreesOneMore(rows, t1.positions, t'.positions, front, s, tradeDate, at);
  }

  /** Releasing the listed positions frees them and touches nothing else, whatever tables the rows
      are written to. */
  lemma {:induction false} ReleaseEachFrees(t0: Tables, rows: map<Symbol, Position>, symbols: seq<Symbol>,
                                            open: seq<Position>, tradeDate: int, at: Time, t': Tables)
    requires t0.positions == rows && forall s :: s in rows ==> ValidPosition(rows[s]) && rows[s].symbol == s
    requires forall i, j :: 0 <= i < j < |symbols| ==> symbols[i] != symbols[j]
    requires open == OpenAmong(symbols, rows) && AllValid(open) && t' == CommitAll(t0, ReleaseEach(open, tradeDate, at))
    ensures FreedAmong(rows, t'.positions, symbols, tradeDate, at) && t' == t0.(positions := t'.positions)
  {
    if symbols != [] {
      var front, s := symbols[..|symbols| - 1], symbols[|symbols| - 1];
      LastIsApart(symbols);
      OpenPositionsAreValid(front, rows);
      var earlier := OpenAmong(front, rows);
      var t1 := CommitAll(t0, ReleaseEach(earlier, tradeDate, at));
      ReleaseEachFrees(t0, rows, front, earlier, tradeDate, at, t1);
      ReleaseOneMore(rows, symbols, earlier, open, tradeDate, at);
      FreesLast(t0, rows, front, s, ReleaseEach(earlier, tradeDate, at), ReleaseEach(open, tradeDate, at), tradeDate,
                at, t1, t');
    }
  }

  lemma {:induction false} OpensNothing(t: Tables)
    requires ValidTables(t)
    ensures OpenPositions(t) == [] <==> forall s :: s in t.positions ==> t.positions[s].status == Closed
  {
    forall p ensures p in OpenPositions(t)
      <==> exists s :: s in t.positions && t.positions[s] == p && p.status == Open {
      OpenPositionsAreExact(t, p);
    }
    if s :| s in t.positions && t.positions[s].status == Open { assert t.positions[s] in OpenPositions(t); }
    if OpenPositions(t) != [] { assert OpenPositions(t)[0] in OpenPositions(t); }
  }

  lemma {:induction false} SeedIsExact(t: Tables, tradeDate: int, at: Time, cash: real)
    requires ValidTables(t) && cash > 0.0
    ensures
      var day := tradeDate * 86_400_000_000;
      SeedWrites(t, tradeDate, at, cash)
      == if Untouched(t) then [WBalance(BalanceSnapshot(CNY, cash, cash, 0.0, day, MaxInt(at, day)))] else []
  {
    OpensNothing(t);
  }

  lemma {:induction false} SeedingKeepsPositions(t: Tables, seed: seq<Write>, t0: Tables)
    requires seed == [] || (|seed| == 1 && seed[0].WBalance?)
    requires t0 == CommitAll(t, seed)
    ensures t0 == t.(balances := t0.balances)
    ensures seed == [] ==> t0.balances == t.balances
    ensures seed != [] && t.balances == [] ==> t0.balances == [seed[0].balance]
  {
    if seed != [] {
      assert seed == [seed[0]];
      CommitOne(t, seed[0]);
    }
  }

  /** Recovery frees every share of an earlier date and changes no other row; it seeds the cash
      exactly when nothing has ever happened on the account. */
  lemma {:induction false} RecoveryFrees(t: Tables, tradeDate: int, at: Time, cash: real, t': Tables)
    requires ValidTables(t) && cash > 0.0 && t' == CommitAll(t, RecoverAccount(t, tradeDate, at, cash))
    ensures t'.positions.Keys == t.positions.Keys
    ensures forall s :: s in t.positions ==> t'.positions[s] == Freed(t.positions[s], tradeDate, at)
    ensures
      var day := tradeDate * 86_400_000_000;
      t'.balances == if Untouched(t) then [BalanceSnapshot(CNY, cash, cash, 0.0, day, MaxInt(at, day))] else t.balances
    ensures t' == t.(positions := t'.positions, balances := t'.balances)
  {
    var seed := SeedWrites(t, tradeDate, at, cash);
    SeedIsExact(t, tradeDate, at, cash);
    var symbols := SortedKeys(t.positions.Keys);
    OpenPositionsAreValid(symbols, t.positions);
    var open := OpenAmong(symbols, t.positions);
    CommitAllConcat(t, seed, ReleaseEach(open, tradeDate, at));
    var t0 := CommitAll(t, seed);
    SeedingKeepsPositions(t, seed, t0);
    ReleaseEachFrees(t0, t.positions, symbols, open, tradeDate, at, t');
  }

  /** After recovery every position is released for its date. */
  lemma {:induction false} RecoveryReleasesAll(t: Tables, tradeDate: int, at: Time, cash: real, t': Tables)
    requires ValidTables(t) && cash > 0.0 && t' == CommitAll(t, RecoverAccount(t, tradeDate, at, cash))
    ensures AllReleased(t', tradeDate)
  {
    RecoveryFrees(t, tradeDate, at, cash, t');
    forall s | s in t'.positions ensures Released(t'.positions[s], tradeDate) {
      assert ValidPosition(t.positions[s]);
      ReleaseIsFreed(t.positions[s], tradeDate, at);
    }
  }

  /** Recovery ends the overnight drift: when a run from its seeded account ends with a recovery for
      the date the reconciler checks, there is nothing to report. */
  lemma {:induction false} RecoveredRunIsClean(states: seq<Tables>, steps: seq<Step>, cuts: seq<nat>, cfg: Config,
                                               seedDate: int, seededAt: Time, recoveredAt: Time, facts: Facts, at: Time)
    requires ValidConfig(cfg) && IsRun(states, steps, cuts, cfg, seedDate) && RunsToEnd(states, steps, cuts, cfg)
    requires ValidTables(EmptyTables)
    requires states[0] == CommitAll(EmptyTables, RecoverAccount(EmptyTables, seedDate, seededAt, cfg.initialCash))
    requires |steps| > 0 && steps[|steps| - 1] == Recover(facts.tradeDate, recoveredAt)
    requires ReadFrom(facts, states[|steps|])
    requires states[|steps|].balances != [] ==> LastDate(states[|steps|], steps, seedDate) <= facts.tradeDate
    ensures ValidFacts(facts)
    ensures ExpectedIssues(facts, cfg.costs, at) == []
  {
    IncrementalEqualsReplay(states, steps, cuts, cfg, seedDate, seededAt, facts, at);
    EndsReleased(states, steps, cuts, cfg, seedDate, facts.tradeDate, recoveredAt);
  }

  lemma {:induction false} EndsReleased(states: seq<Tables>, steps: seq<Step>, cuts: seq<nat>, cfg: Config, d: int,
                                        tradeDate: int, at: Time)
    requires ValidConfig(cfg) && IsRun(states, steps, cuts, cfg, d) && RunsToEnd(states, steps, cuts, cfg)
    requires |steps| > 0 && steps[|steps| - 1] == Recover(tradeDate, at)
    ensures AllReleased(states[|steps|], tradeDate)
  {
    var n := |steps| - 1;
    assert Takes(states[n], steps[n], cuts[n], states[n + 1], cfg, RunDate(steps[..n], d));
    assert Completes(states[n], steps[n], cuts[n], cfg);
    LastStepRecovers(states[n], tradeDate, at, cfg, cuts[n], states[n + 1]);
  }

  lemma {:induction false} LastStepRecovers(t: Tables, tradeDate: int, at: Time, cfg: Config, k: nat, t': Tables)
    requires ValidConfig(cfg) && Steps(t, Recover(tradeDate, at), k, t', cfg)
    requires Completes(t, Recover(tradeDate, at), k, cfg)
    ensures AllReleased(t', tradeDate)
  {
    var ws := RecoverAccount(t, tradeDate, at, cfg.initialCash);
    assert ws[..|ws|] == ws;
    RecoveryReleasesAll(t, tradeDate, at, cfg.initialCash, t');
  }
}
