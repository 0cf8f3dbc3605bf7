/** A concrete run: an account is seeded, buys once, and is reconciled that day and the next. */
module Overnight {
  import opened Prelude
  import opened Execution
  import opened Costs
  import opened Ledger
  import opened RiskGate
  import opened Store
  import opened Oms
  import opened Reconciler
  import opened LedgerAgreement
  import opened OrderAgreement
  import opened Agreement
  import opened Runs
  import opened Clocks
  import opened Pending
  import opened Walkthrough

  function Seeded(): Tables { EmptyTables.(balances := [SeedSnapshot(0, 0, Setting().initialCash)]) }

  /** A signal for 100 shares, received on date 0. */
  function First(): Submission { CallAt(Signal(1, 1, 100.0, 60_000_000, 0), Normal, 0, 7) }

  lemma {:induction false} SeededAccount()
    ensures Account(Seeded(), 0.0, 0.0, 0, 10000.0, 0) && NewBuy(Seeded(), First(), 0.0, 1)
    ensures ValidSubmission(First()) && ValidConfig(Setting())
  {
    NewestIsLatest([], Seeded().balances[0]);
    assert [] + [Seeded().balances[0]] == Seeded().balances;
    SettingIsValid(First().signal, Normal, 0, 7);
  }

  lemma {:induction false} SeedingGivesSeeded()
    ensures ValidTables(EmptyTables) && ValidConfig(Setting())
    ensures CommitAll(EmptyTables, RecoverAccount(EmptyTables, 0, 0, Setting().initialCash)) == Seeded()
  {
    SettingIsValid(First().signal, Normal, 0, 7);
    SeedingWrites(0, 0, Setting().initialCash);
  }

  function Bought(): Tables {
    SeededAccount();
    AfterCall(Seeded(), First(), Setting())
  }

  /** The submission runs to its end and leaves 100 locked shares. */
  lemma {:induction false} BuyIsBooked()
    ensures ValidTables(Seeded()) && ValidSubmission(First()) && ValidConfig(Setting())
    ensures SubmitSignal(Seeded(), First(), Setting()).outcome == Done
    ensures Account(Bought(), 100.0, 0.0, 1_000_000, 9000.0, 1_000_000)
    ensures BoughtBy(AdmittedRows(Seeded(), First()), Bought(), NewIntent(First(), 0.0))
  {
    SeededAccount();
    NewBuyIsBooked(Seeded(), First(), 0.0, 0.0, 0, 0.0, 0, 10000.0, 0, 1);
  }

  // ------------------------------------------------------------- its reconciliation

  /** A completed call as a step of a run. */
  lemma {:induction false} CallTakes(t: Tables, s: Submission, cfg: Config, d: int)
    requires ValidTables(t) && ValidSubmission(s) && ValidConfig(cfg) && s.newIntentId !in t.intents && t.balances != []
    requires Horizon(t) < FirstExecution(s) && DateAfter(Submit(s), d) <= DateOf(FirstExecution(s))
    requires SubmitSignal(t, s, cfg).outcome != Raised
    ensures
      var n := |SubmitSignal(t, s, cfg).writes|;
      Takes(t, Submit(s), n, AfterCall(t, s, cfg), cfg, d) && Completes(t, Submit(s), n, cfg)
  {
    LaterVenueFits(t, Submit(s), cfg, d);
    var ws := SubmitSignal(t, s, cfg).writes;
    assert ws[..|ws|] == ws;
  }

  lemma {:induction false} OneStepRun(t: Tables, step: Step, k: nat, t': Tables, cfg: Config, d: int)
    requires ValidConfig(cfg) && Takes(t, step, k, t', cfg, d) && Completes(t, step, k, cfg)
    ensures IsRun([t, t'], [step], [k], cfg, d) && RunsToEnd([t, t'], [step], [k], cfg)
    ensures RunDate([step], d) == DateAfter(step, d)
  {
    assert [step][..0] == [];
  }

  lemma {:induction false} LockedIsNotReleased(t: Tables, qty: real, sellable: real, at: Time, cash: real, newest: Time,
                                               tradeDate: int)
    requires Account(t, qty, sellable, at, cash, newest) && sellable < qty && DateOf(at) < tradeDate
    ensures !AllReleased(t, tradeDate)
  {
    assert !Released(t.positions[1], tradeDate);
  }

  lemma {:induction false} BoughtTodayNeedsNoRelease(t: Tables, qty: real, sellable: real, at: Time, cash: real,
                                                     newest: Time, tradeDate: int)
    requires Account(t, qty, sellable, at, cash, newest) && tradeDate <= DateOf(at)
    ensures AllReleased(t, tradeDate)
  {
    forall x | x in t.positions ensures Released(t.positions[x], tradeDate) {
      assert x == 1;
    }
  }

  lemma {:induction false} BuyRuns()
    ensures ValidTables(Seeded()) && ValidSubmission(First()) && ValidConfig(Setting())
    ensures
      var states, steps, cuts := [Seeded(), Bought()], [Submit(First())],
        [|SubmitSignal(Seeded(), First(), Setting()).writes|];
      IsRun(states, steps, cuts, Setting(), 0) && RunsToEnd(states, steps, cuts, Setting()) && RunDate(steps, 0) == 0
  {
    BuyIsBooked();
    CallTakes(Seeded(), First(), Setting(), 0);
    OneStepRun(Seeded(), Submit(First()), |SubmitSignal(Seeded(), First(), Setting()).writes|, Bought(), Setting(), 0);
  }

  /** A healthy account that bought on date 0 is reported on date 1, whatever the order of its
      rows and although every one of them is right: nothing has released the position yet. */
  lemma {:induction false} OvernightReconciliationDrifts(facts: Facts, at: Time)
    requires ValidConfig(Setting()) && ReadFrom(facts, Bought()) && facts.tradeDate == 1
    ensures ValidFacts(facts) && ExpectedIssues(facts, Setting().costs, at) != []
  {
    BuyIsBooked();
    BuyRuns();
    SeedingGivesSeeded();
    LockedIsNotReleased(Bought(), 100.0, 0.0, 1_000_000, 9000.0, 1_000_000, 1);
    IncrementalEqualsReplay([Seeded(), Bought()], [Submit(First())],
                            [|SubmitSignal(Seeded(), First(), Setting()).writes|],
                            Setting(), 0, 0, facts, at);
  }

  /** On its own date it is clean. */
  lemma {:induction false} SameDayReconciliationIsClean(facts: Facts, at: Time)
    requires ValidConfig(Setting()) && ReadFrom(facts, Bought()) && facts.tradeDate == 0
    ensures ValidFacts(facts) && ExpectedIssues(facts, Setting().costs, at) == []
  {
    BuyIsBooked();
    BuyRuns();
    SeedingGivesSeeded();
    BoughtTodayNeedsNoRelease(Bought(), 100.0, 0.0, 1_000_000, 9000.0, 1_000_000, 0);
    IncrementalEqualsReplay([Seeded(), Bought()], [Submit(First())],
                            [|SubmitSignal(Seeded(), First(), Setting()).writes|],
                            Setting(), 0, 0, facts, at);
  }
}
