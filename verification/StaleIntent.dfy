/** A concrete breach, reached from the seed: an intent left pending by a crash, topped up over
    by another signal, and executed by a retry that was admitted as a sell. */
module StaleIntent {
  import opened Prelude
  import opened Execution
  import opened Costs
  import opened Ledger
  import opened Planner
  import opened RiskGate
  import opened Store
  import opened Oms
  import opened LedgerAgreement
  import opened OrderAgreement
  import opened Submissions
  import opened Runs
  import opened Clocks
  import opened Protection
  import opened Exposure
  import opened Pending
  import opened Caps
  import opened Walkthrough
  import opened Overnight

  const DAY: Time := 86_400_000_000

  /** On date 1: a signal for 300 shares, another for 400, and the first again a little later,
      with the kill switch on. */
  function Wanted(): Signal { Signal(2, 1, 300.0, 60_000_000, DAY) }
  function Second(): Submission { CallAt(Wanted(), Normal, DAY, 8) }
  function Third(): Submission { CallAt(Signal(3, 1, 400.0, 60_000_000, DAY), Normal, DAY, 9) }
  function Retry(): Submission { CallAt(Wanted(), KillSwitch, DAY + Seconds(2), 10) }

  // --------------------------------------------------------- the call that is cut off

  /** A call cut off right behind its new intent row. */
  lemma {:induction false} CutBehindIntent(t: Tables, s: Submission, cfg: Config, i: OrderIntent, k: nat)
    requires ValidTables(t) && ValidSubmission(s) && ValidConfig(cfg) && Plans(t, s, cfg.policy)
    requires i == CallIntent(t, s, cfg.policy) && i.status == IntentNew
    requires IntentOf(t, Admit(t, s, cfg.policy).signal.id).None? && k == |Admit(t, s, cfg.policy).writes| + 1
    ensures k <= |SubmitSignal(t, s, cfg).writes|
    ensures CommitAll(t, SubmitSignal(t, s, cfg).writes[..k]) == Commit(AdmittedTables(t, s, cfg.policy), WIntent(i))
  {
    var a, t0 := Admit(t, s, cfg.policy), AdmittedTables(t, s, cfg.policy);
    AdmissionKeepsValues(t, s, cfg.policy);
    assert IntentOf(t0, a.signal.id).None?;
    WritesKeepTablesValid(t0, [WIntent(i)]);
    CommitOne(t0, WIntent(i));
    var rest := Launch(CommitAll(t0, [WIntent(i)]), i, s, cfg.costs).writes;
    var ws := SubmitSignal(t, s, cfg).writes;
    assert ws == a.writes + ([WIntent(i)] + rest);
    assert ws[..k] == a.writes + [WIntent(i)];
    CommitAllConcat(t, a.writes, [WIntent(i)]);
  }

  /** The account after the first call. */
  ghost predicate FirstDay(t: Tables) {
    && Account(t, 100.0, 0.0, 1_000_000, 9000.0, 1_000_000)
    && t.signals.Keys == {1} && t.intents.Keys == {7} && t.intentBySignal == map[1 := 7]
    && t.orders.Keys == {OrderId(7)}
    && t.intents[7].qty == 100.0 && t.intents[7].side == Buy
  }

  lemma {:induction false} BoughtIsFirstDay()
    ensures FirstDay(Bought())
  {
    BuyIsBooked();
  }

  lemma {:induction false} SecondIsNew(t: Tables)
    requires FirstDay(t)
    ensures NewBuy(t, Second(), 100.0, 2) && ReleasedPosition(t, Second()) == Held(100.0, 100.0, DAY)
  {
    forall i | i in t.intents.Values ensures i.qty != 200.0 {
      assert i == t.intents[7];
    }
  }

  /** The account after the second call, cut off behind its intent: released, nothing bought. */
  ghost predicate LeftBehind(t: Tables) {
    && Account(t, 100.0, 100.0, DAY, 9000.0, 1_000_000)
    && t.signals.Keys == {1, 2} && t.signals[2] == Wanted() && t.intents.Keys == {7, 8} && t.orders.Keys == {OrderId(7)}
    && t.intents[7].qty == 100.0 && t.intents[7].side == Buy && t.intents[8] == NewIntent(Second(), 100.0)
    && t.intentBySignal == map[1 := 7, 2 := 8]
  }

  /** The cut-off call leaves that account, and the tables in agreement. */
  lemma {:induction false} SecondIsCut(t: Tables) returns (k: nat, t': Tables)
    requires FirstDay(t)
    ensures ValidSubmission(Second()) && ValidConfig(Setting())
    ensures k <= |SubmitSignal(t, Second(), Setting()).writes|
    ensures t' == CommitAll(t, SubmitSignal(t, Second(), Setting()).writes[..k])
    ensures t' == Commit(AdmittedRows(t, Second()), WIntent(NewIntent(Second(), 100.0)))
    ensures AdmittedTables(t, Second(), Setting().policy) == AdmittedRows(t, Second())
    ensures Account(AdmittedRows(t, Second()), 100.0, 100.0, DAY, 9000.0, 1_000_000)
  {
    SecondIsNew(t);
    NewBuyIsAdmitted(t, Second(), 100.0, 0.0, 1_000_000, 100.0, DAY, 9000.0, 1_000_000, 2);
    k := |Admit(t, Second(), Setting().policy).writes| + 1;
    CutBehindIntent(t, Second(), Setting(), NewIntent(Second(), 100.0), k);
    t' := CommitAll(t, SubmitSignal(t, Second(), Setting()).writes[..k]);
  }

  lemma {:induction false} CutLeavesBehind(t: Tables, t0: Tables, t': Tables)
    requires FirstDay(t) && t0 == AdmittedRows(t, Second()) && t' == Commit(t0, WIntent(NewIntent(Second(), 100.0)))
    requires Account(t0, 100.0, 100.0, DAY, 9000.0, 1_000_000)
    ensures LeftBehind(t')
  {
    var i := NewIntent(Second(), 100.0);
    SecondIsNew(t);
    NewIntentIsPlain(t, t0, Second(), 100.0, 2);
    SavedOrFound(t0, i);
    AccountWithIntent(t0, t', i, 100.0, 100.0, DAY, 9000.0, 1_000_000);
  }

  // ------------------------------------------------------------ the call that tops up

  lemma {:induction false} ThirdIsNew(t: Tables)
    requires LeftBehind(t)
    ensures NewBuy(t, Third(), 100.0, 3) && ReleasedPosition(t, Third()) == Held(100.0, 100.0, DAY)
  {
    forall i | i in t.intents.Values ensures i.qty != 300.0 {
      assert i == t.intents[7] || i == t.intents[8];
    }
  }

  /** The account after the third call: 400 shares, 300 of them locked. */
  ghost predicate ToppedUp(t: Tables) {
    && Account(t, 400.0, 100.0, DAY + 1_000_000, 6000.0, DAY + 1_000_000)
    && 2 in t.signals && t.signals[2] == Wanted() && OrderId(8) !in t.orders
    && IntentOf(t, 2) == Some(NewIntent(Second(), 100.0)) && forall i :: i in t.intents.Values ==> i.side == Buy
  }

  lemma {:induction false} ThirdRows(t: Tables, t': Tables)
    requires LeftBehind(t) && BoughtBy(AdmittedRows(t, Third()), t', NewIntent(Third(), 100.0))
    ensures 2 in t'.signals && t'.signals[2] == Wanted() && OrderId(8) !in t'.orders
    ensures IntentOf(t', 2) == Some(NewIntent(Second(), 100.0)) && forall i :: i in t'.intents.Values ==> i.side == Buy
  {
    forall i | i in t'.intents.Values ensures i.side == Buy {
      assert i == t'.intents[7] || i == t'.intents[8] || i == t'.intents[9];
    }
  }

  lemma {:induction false} ThirdTopsUp(t: Tables)
    requires LeftBehind(t)
    ensures ValidSubmission(Third()) && ValidConfig(Setting())
    ensures SubmitSignal(t, Third(), Setting()).outcome == Done && ToppedUp(AfterCall(t, Third(), Setting()))
  {
    ThirdIsNew(t);
    NewBuyIsBooked(t, Third(), 100.0, 100.0, DAY, 100.0, DAY, 9000.0, 1_000_000, 3);
    ThirdRows(t, AfterCall(t, Third(), Setting()));
  }

  // ----------------------------------------------------------------------- the retry

  lemma {:induction false} RetryPasses()
    ensures ValidRule(ShareRule()) && BuildPlan(300.0, ShareRule(), 400.0, 100.0) == SellPlan(300.0, 400.0, 100.0)
    ensures Passes(SellPlan(300.0, 400.0, 100.0), KillSwitch, 400.0, 100.0)
    ensures ValidSubmission(Retry()) && ValidConfig(Setting())
  {
    HundredsArePlanned(300.0, 400.0, 100.0, 1);
    SettingIsValid(Wanted(), KillSwitch, DAY + Seconds(2), 10);
  }

  lemma {:induction false} RetryHolds(t: Tables)
    requires ToppedUp(t)
    ensures ReleasedPosition(t, Retry()) == Held(400.0, 100.0, DAY + 1_000_000)
      && SubmittedSignal(t, Retry()) == Wanted()
  {
  }

  /** The retry is admitted, as a sell of 100. */
  lemma {:induction false} RetryIsAdmitted(t: Tables, p: Plan)
    requires ToppedUp(t) && p == SellPlan(300.0, 400.0, 100.0)
    ensures ValidSubmission(Retry()) && ValidConfig(Setting()) && Admitted(t, Retry(), Setting().policy)
    ensures Admit(t, Retry(), Setting().policy).plan == Some(p)
      && Admit(t, Retry(), Setting().policy).signal == Wanted()
    ensures AdmittedTables(t, Retry(), Setting().policy) == AdmittedRows(t, Retry())
    ensures Account(AdmittedRows(t, Retry()), 400.0, 100.0, DAY + 1_000_000, 6000.0, DAY + 1_000_000)
  {
    RetryHolds(t);
    RetryPasses();
    CallIsAdmitted(t, Retry(), p, 400.0, 100.0, DAY + 1_000_000, 100.0, DAY + 1_000_000, 6000.0, DAY + 1_000_000);
  }

  lemma {:induction false} StoredIntentIsUsed(t: Tables, s: Submission, policy: Policy, p: Plan, i: OrderIntent)
    requires ValidTables(t) && ValidSubmission(s) && Admitted(t, s, policy) && s.decisionPrice.Some?
    requires Admit(t, s, policy).plan == Some(p) && Admit(t, s, policy).signal == s.signal && p.side.Some?
    requires ValidIntent(IntentFor(p, s.signal, s)) && IntentOf(t, s.signal.id) == Some(i)
    ensures Plans(t, s, policy) && CallIntent(t, s, policy) == i
  {
  }

  lemma {:induction false} RetryTimes()
    ensures Retry().scenario.None? && Retry().receivedAt == Retry().venueTime
    ensures DAY + 3_000_000 == Retry().venueTime + Seconds(1) && DateOf(DAY + 1_000_000) == DateOf(DAY + 3_000_000)
  {
  }

  lemma {:induction false} PendingIsPlain(t: Tables, t0: Tables)
    requires ToppedUp(t) && t0.orders == t.orders
    ensures
      var i := NewIntent(Second(), 100.0);
      PlainBuy(t0, i, 1) && i.qty == 200.0 && i.qty * 10.0 == 2000.0
    ensures ValidIntent(IntentFor(SellPlan(300.0, 400.0, 100.0), Wanted(), Retry()))
  {
  }

  lemma {:induction false} RetryPlans(t: Tables, i: OrderIntent, p: Plan)
    requires ToppedUp(t) && i == NewIntent(Second(), 100.0) && p == SellPlan(300.0, 400.0, 100.0)
    ensures ValidSubmission(Retry()) && ValidConfig(Setting()) && Plans(t, Retry(), Setting().policy)
    ensures CallIntent(t, Retry(), Setting().policy) == i && Admit(t, Retry(), Setting().policy).signal.id == i.signalId
  {
    RetryIsAdmitted(t, p);
    PendingIsPlain(t, t);
    StoredIntentIsUsed(t, Retry(), Setting().policy, p, i);
  }

  /** It buys 200 instead. */
  lemma {:induction false} RetryBuys(t: Tables, i: OrderIntent, t0: Tables)
    requires ToppedUp(t) && i == NewIntent(Second(), 100.0) && t0 == AdmittedRows(t, Retry())
    ensures ValidSubmission(Retry()) && ValidConfig(Setting()) && Executes(t, Retry(), Setting())
    ensures Account(AfterCall(t, Retry(), Setting()), 600.0, 100.0, DAY + 3_000_000, 4000.0, DAY + 3_000_000)
  {
    RetryPlans(t, i, SellPlan(300.0, 400.0, 100.0));
    RetryIsAdmitted(t, SellPlan(300.0, 400.0, 100.0));
    PendingIsPlain(t, t0);
    RetryTimes();
    CallBuys(t, Retry(), i, t0, 1, 400.0, 100.0, DAY + 1_000_000, 6000.0, DAY + 1_000_000, 600.0, DAY + 3_000_000,
      4000.0);
  }

  // ---------------------------------------------------------------------- the run

  /** Whatever is cut off behind its intent leaves the tables in agreement. */
  lemma {:induction false} CutAgrees(t: Tables, s: Submission, policy: Policy, i: OrderIntent, m: CostModel, d: int,
                                     t': Tables)
    requires Agrees(t, m, d) && ValidSubmission(s) && Reached(s, d) && ValidIntent(i)
    requires i.id !in t.intents && i.signalId !in t.intentBySignal
    requires t' == Commit(AdmittedTables(t, s, policy), WIntent(i))
    ensures Agrees(t', m, d)
  {
    var t0 := AdmittedTables(t, s, policy);
    AdmissionShape(t, s, policy);
    AdmissionAgrees(t, s, Admit(t, s, policy).writes, m, d, t0);
    AdmissionKeepsValues(t, s, policy);
    IntentAgrees(t0, i, m, d);
  }

  lemma {:induction false} BoughtAgrees()
    ensures ValidConfig(Setting()) && Agrees(Bought(), Setting().costs, 0)
  {
    BuyRuns();
    SeedingGivesSeeded();
    SeedAgrees(0, 0, Setting().initialCash, Setting().costs, 0);
    var states, cuts := [Seeded(), Bought()], [|SubmitSignal(Seeded(), First(), Setting()).writes|];
    RunsAgree(states, [Submit(First())], cuts, Setting(), 0);
    LastAgrees(states, [Submit(First())], Setting().costs, 0);
  }

  lemma {:induction false} SecondTakes(t: Tables) returns (k: nat, t': Tables)
    requires FirstDay(t)
    ensures ValidSubmission(Second()) && ValidConfig(Setting()) && Takes(t, Submit(Second()), k, t', Setting(), 0)
    ensures LeftBehind(t')
    ensures t' == Commit(AdmittedTables(t, Second(), Setting().policy), WIntent(NewIntent(Second(), 100.0)))
  {
    k, t' := SecondIsCut(t);
    CutLeavesBehind(t, AdmittedRows(t, Second()), t');
    LaterVenueFits(t, Submit(Second()), Setting(), 0);
  }

  /** The second call as a step of the run, and the agreement it leaves. */
  lemma {:induction false} SecondStep(t: Tables) returns (k: nat, t': Tables)
    requires FirstDay(t) && ValidConfig(Setting()) && Agrees(t, Setting().costs, 0)
    ensures Takes(t, Submit(Second()), k, t', Setting(), 0) && LeftBehind(t') && Agrees(t', Setting().costs, 1)
  {
    k, t' := SecondTakes(t);
    SecondIsNew(t);
    NewIntentIsPlain(t, t, Second(), 100.0, 2);
    AgreesEventually(t, Setting().costs, 0, 1);
    CutAgrees(t, Second(), Setting().policy, NewIntent(Second(), 100.0), Setting().costs, 1, t');
  }

  lemma {:induction false} ThirdTimes(t: Tables)
    requires LeftBehind(t)
    ensures Third().newIntentId !in t.intents && Horizon(t) < FirstExecution(Third())
    ensures DateAfter(Submit(Third()), 1) <= DateOf(FirstExecution(Third()))
  {
  }

  lemma {:induction false} ThirdTakes(t: Tables)
    requires LeftBehind(t)
    ensures ValidSubmission(Third()) && ValidConfig(Setting()) && ToppedUp(AfterCall(t, Third(), Setting()))
    ensures
      var k := |SubmitSignal(t, Third(), Setting()).writes|;
      && Takes(t, Submit(Third()), k, AfterCall(t, Third(), Setting()), Setting(), 1)
      && Completes(t, Submit(Third()), k, Setting())
  {
    ThirdTopsUp(t);
    ThirdIsNew(t);
    ThirdTimes(t);
    CallTakes(t, Third(), Setting(), 1);
  }

  /** The third call as a step of the run, and the agreement it leaves. */
  lemma {:induction false} ThirdStep(t: Tables) returns (k: nat, t': Tables)
    requires LeftBehind(t) && ValidConfig(Setting()) && Agrees(t, Setting().costs, 1)
    ensures Takes(t, Submit(Third()), k, t', Setting(), 1) && ToppedUp(t') && Agrees(t', Setting().costs, 1)
  {
    ThirdTakes(t);
    k, t' := |SubmitSignal(t, Third(), Setting()).writes|, AfterCall(t, Third(), Setting());
    TakenStepCut(t, Submit(Third()), k, t', Setting(), 1);
  }

  lemma {:induction false} OneMore<T>(xs: seq<T>, a: T)
    ensures |xs| == 1 ==> xs + [a] == [xs[0], a]
    ensures |xs| == 2 ==> xs + [a] == [xs[0], xs[1], a]
    ensures |xs| == 3 ==> xs + [a] == [xs[0], xs[1], xs[2], a]
  {
  }

  lemma {:induction false} SecondRuns(t0: Tables, t1: Tables, a: Step, k: nat, d: int, b: Step, l: nat, t2: Tables)
    requires ValidConfig(Setting()) && IsRun([t0, t1], [a], [k], Setting(), d)
    requires Takes(t1, b, l, t2, Setting(), RunDate([a], d))
    ensures IsRun([t0, t1, t2], [a, b], [k, l], Setting(), d)
    ensures RunDate([a, b], d) == DateAfter(b, RunDate([a], d))
  {
    RunGrows([t0, t1], [a], [k], Setting(), d, b, l, t2);
    OneMore([t0, t1], t2);
    OneMore([a], b);
    OneMore([k], l);
  }

  lemma {:induction false} ThirdRuns(t0: Tables, t1: Tables, t2: Tables, a: Step, k: nat, b: Step, l: nat, d: int,
                                     c: Step, m: nat, t3: Tables)
    requires ValidConfig(Setting()) && IsRun([t0, t1, t2], [a, b], [k, l], Setting(), d)
    requires Takes(t2, c, m, t3, Setting(), RunDate([a, b], d))
    ensures IsRun([t0, t1, t2, t3], [a, b, c], [k, l, m], Setting(), d)
    ensures RunDate([a, b, c], d) == DateAfter(c, RunDate([a, b], d))
  {
    RunGrows([t0, t1, t2], [a, b], [k, l], Setting(), d, c, m, t3);
    OneMore([t0, t1, t2], t3);
    OneMore([a, b], c);
    OneMore([k, l], m);
  }

  lemma {:induction false} AllRun(t0: Tables, t1: Tables, a: Step, k: nat, d: int, b: Step, l: nat, t2: Tables,
                                  c: Step, m: nat, t3: Tables)
    returns (states: seq<Tables>, steps: seq<Step>, cuts: seq<nat>)
    requires ValidConfig(Setting()) && IsRun([t0, t1], [a], [k], Setting(), d)
    requires Takes(t1, b, l, t2, Setting(), RunDate([a], d))
    requires Takes(t2, c, m, t3, Setting(), DateAfter(b, RunDate([a], d)))
    ensures IsRun(states, steps, cuts, Setting(), d) && RunDate(steps, d) == DateAfter(c, DateAfter(b, RunDate([a], d)))
    ensures |states| == 4 && states[0] == t0 && states[3] == t3 && steps == [a, b, c]
  {
    SecondRuns(t0, t1, a, k, d, b, l, t2);
    ThirdRuns(t0, t1, t2, a, k, b, l, d, c, m, t3);
    states, steps, cuts := [t0, t1, t2, t3], [a, b, c], [k, l, m];
  }

  /** With the kill switch on and a sell admitted, the retry buys: 400 shares become 600, and
      the account leaves the caps it was within. */
  lemma {:induction false} RetryBreaches(t: Tables)
    requires ToppedUp(t)
    ensures ValidSubmission(Retry()) && ValidConfig(Setting()) && Protective(Retry().control)
    ensures WithinCaps(t, Setting().policy) && QtyOf(t, 1) == 400.0
    ensures
      var after := AfterCall(t, Retry(), Setting());
      QtyOf(after, 1) == 600.0 && !WithinCaps(after, Setting().policy)
  {
    RetryBuys(t, NewIntent(Second(), 100.0), AdmittedRows(t, Retry()));
    AccountValue(t, 400.0, 100.0, DAY + 1_000_000, 6000.0, DAY + 1_000_000);
    AccountValue(AfterCall(t, Retry(), Setting()), 600.0, 100.0, DAY + 3_000_000, 4000.0, DAY + 3_000_000);
  }

  /** The breach, as a run from the seed: a call that completes, a call cut off behind its
      intent row, a call that completes, and the retry of the second one. Every state up to
      the retry agrees; the retry is admitted as a sell under the kill switch, and buys. */
  lemma {:induction false} StaleIntentBreaches() returns (states: seq<Tables>, steps: seq<Step>, cuts: seq<nat>)
    ensures ValidConfig(Setting()) && ValidTables(EmptyTables) && |states| == 4
    ensures states[0] == CommitAll(EmptyTables, RecoverAccount(EmptyTables, 0, 0, Setting().initialCash))
    ensures steps == [Submit(First()), Submit(Second()), Submit(Third())] && IsRun(states, steps, cuts, Setting(), 0)
    ensures Agrees(states[3], Setting().costs, RunDate(steps, 0))
    ensures ValidSubmission(Retry()) && Protective(Retry().control)
    ensures WithinCaps(states[3], Setting().policy) && QtyOf(states[3], 1) == 400.0
    ensures
      var after := AfterCall(states[3], Retry(), Setting());
      QtyOf(after, 1) == 600.0 && !WithinCaps(after, Setting().policy)
  {
    SeedingGivesSeeded();
    BuyRuns();
    BoughtIsFirstDay();
    BoughtAgrees();
    var k1, t1 := SecondStep(Bought());
    var k2, t2 := ThirdStep(t1);
    RetryBreaches(t2);
    var k := |SubmitSignal(Seeded(), First(), Setting()).writes|;
    states, steps, cuts := AllRun(Seeded(), Bought(), Submit(First()), k, 0, Submit(Second()), k1, t1,
                                  Submit(Third()), k2, t2);
  }
}
