/** The exposure caps of the risk gate, in every reachable state and at every cut. */
module Caps {
  import opened Prelude
  import opened Execution
  import opened Costs
  import opened Ledger
  import opened LedgerRuns
  import opened PaperAdapter
  import opened Planner
  import opened RiskGate
  import opened Store
  import opened Oms
  import opened Reconciler
  import opened OrderAgreement
  import opened Submissions
  import opened Runs
  import opened Protection
  import opened Exposure
  import opened Pending

  // ------------------------------------------------------------ one call, exactly

  /** The intent, filled as it stands, keeps its symbol and the account within the limits. */
  ghost predicate FitsCaps(t: Tables, i: OrderIntent, policy: Policy)
    requires ValidIntent(i)
  {
    var value := NotionalAt(FilledTo(t, i), ExecutionPrice(i));
    value <= policy.maxSingleNotional && OthersValue(t, i.symbol) + value <= policy.maxTotalNotional
  }

  lemma {:induction false} SymbolValue(t: Tables, t': Tables, symbol: Symbol, qty: real, price: real)
    requires (forall x: Symbol :: x != symbol ==> SameValue(t, t', x)) && symbol in t'.positions
    requires t'.positions[symbol].qty == qty
      && t'.positions[symbol].markPrice == (if qty == 0.0 then None else Some(price))
    ensures MarketValue(t'.positions[symbol]) == NotionalAt(qty, price)
    ensures SumMap(t'.positions, MarketValue) == OthersValue(t, symbol) + NotionalAt(qty, price)
  {
    RepricedSum(t'.positions, symbol, qty, price);
    SameValuesExcept(t, t', {symbol});
    SameValuesSameSum(t.positions - {symbol}, t'.positions - {symbol});
  }

  /** With one symbol moved, the caps hold if and only if they hold of that symbol and of the sum. */
  lemma {:induction false} MovedWithinCaps(t: Tables, t': Tables, symbol: Symbol, qty: real, price: real, value: real,
                                           policy: Policy)
    requires ValidTables(t) && WithinCaps(t, policy) && ValidPolicy(policy) && value == NotionalAt(qty, price)
    requires (forall x: Symbol :: x != symbol ==> SameValue(t, t', x)) && symbol in t'.positions
    requires t'.positions[symbol].qty == qty
      && t'.positions[symbol].markPrice == (if qty == 0.0 then None else Some(price))
    ensures WithinCaps(t', policy)
      <==> value <= policy.maxSingleNotional && OthersValue(t, symbol) + value <= policy.maxTotalNotional
  {
    SymbolValue(t, t', symbol, qty, price);
    if value <= policy.maxSingleNotional && OthersValue(t, symbol) + value <= policy.maxTotalNotional {
      RepricedWithinCaps(t, t', symbol, qty, price, value, policy);
    }
  }

  /** The caps, exactly: from a state within them, a call under the default scenario leaves them
      if and only if it executes an intent that does not fit them. */
  lemma {:induction false} CallKeepsCapsExactly(t: Tables, s: Submission, cfg: Config)
    requires ValidTables(t) && ValidSubmission(s) && ValidConfig(cfg) && WithinCaps(t, cfg.policy) && s.scenario.None?
    ensures WithinCaps(AfterCall(t, s, cfg), cfg.policy)
      <==> (Executes(t, s, cfg) ==> FitsCaps(t, CallIntent(t, s, cfg.policy), cfg.policy))
  {
    if Executes(t, s, cfg) {
      var i := CallIntent(t, s, cfg.policy);
      ExecutedCallMoves(t, s, cfg);
      MovedWithinCaps(t, AfterCall(t, s, cfg), i.symbol, FilledTo(t, i), ExecutionPrice(i),
                      NotionalAt(FilledTo(t, i), ExecutionPrice(i)), cfg.policy);
    } else {
      IdleCallMovesNothing(t, s, cfg);
      SameStateWithinCaps(t, AfterCall(t, s, cfg), cfg.policy);
    }
  }

  lemma {:induction false} SameStateWithinCaps(t: Tables, t': Tables, policy: Policy)
    requires ValidTables(t) && WithinCaps(t, policy) && ValidPolicy(policy) && forall x: Symbol :: SameValue(t, t', x)
    ensures WithinCaps(t', policy)
  {
    NothingAddedWithinCaps(t, t', 0, policy);
  }

  // -------------------------------------------------------------- which intents fit

  lemma {:induction false} PlannedIntentFills(t: Tables, s: Submission, p: Plan, i: OrderIntent)
    requires p.side.Some? && s.decisionPrice.Some? && i == IntentFor(p, s.signal, s) && ValidIntent(i)
    requires s.orderType == OrderType.Market
    ensures i.symbol == s.signal.symbol && ExecutionPrice(i) == s.decisionPrice.value
    ensures FilledTo(t, i) == QtyOf(t, s.signal.symbol) + (if p.side == Some(Buy) then p.qty else -p.qty)
  {
  }

  lemma {:induction false} PlannedIntentFits(t: Tables, s: Submission, p: Plan, i: OrderIntent, policy: Policy)
    requires ValidIntent(i) && i.symbol == s.signal.symbol
    requires s.decisionPrice.Some? && ExecutionPrice(i) == s.decisionPrice.value && FilledTo(t, i) == ResultingQty(p)
    requires ResultingNotional(p, s.decisionPrice.value) <= policy.maxSingleNotional
    requires OthersValue(t, s.signal.symbol) + ResultingNotional(p, s.decisionPrice.value) <= policy.maxTotalNotional
    ensures FitsCaps(t, i, policy)
  {
  }

  /** A market order newly planned and admitted always fits: the gate has sized it. */
  lemma {:induction false} NewIntentFits(t: Tables, s: Submission, policy: Policy)
    requires ValidTables(t) && ValidSubmission(s) && WithinCaps(t, policy) && Plans(t, s, policy)
    requires s.orderType == OrderType.Market && SameAsStored(t, s.signal) && IntentOf(t, s.signal.id).None?
    ensures FitsCaps(t, CallIntent(t, s, policy), policy)
  {
    var p, i := Admit(t, s, policy).plan.value, CallIntent(t, s, policy);
    AdmittedWithinCaps(t, s, policy);
    PlannedIntentFills(t, s, p, i);
    PlannedIntentFits(t, s, p, i, policy);
  }

  /** An intent of the signal left pending by an earlier call, if there is one, fits the caps. */
  ghost predicate PendingFits(t: Tables, s: Submission, policy: Policy)
    requires ValidTables(t)
  {
    !NotPending(t, s.signal.id) ==> FitsCaps(t, IntentOf(t, s.signal.id).value, policy)
  }

  /** So market orders leave the caps through pending intents only: an admitted call that
      executes one leaves them if and only if the stored intent does not fit. */
  lemma {:induction false} PendingBreaksCapsExactly(t: Tables, s: Submission, cfg: Config)
    requires ValidTables(t) && ValidSubmission(s) && ValidConfig(cfg) && WithinCaps(t, cfg.policy)
    requires s.scenario.None? && s.orderType == OrderType.Market && SameAsStored(t, s.signal)
    ensures !WithinCaps(AfterCall(t, s, cfg), cfg.policy)
      <==> Executes(t, s, cfg) && !PendingFits(t, s, cfg.policy)
  {
    CallKeepsCapsExactly(t, s, cfg);
    if Executes(t, s, cfg) && IntentOf(t, s.signal.id).None? {
      NewIntentFits(t, s, cfg.policy);
    }
  }

  // -------------------------------------------------------------------- every cut

  lemma {:induction false} ResubmissionOnlyOrders(t: Tables, plan: Plan, signal: Signal, s: Submission, m: CostModel)
    requires ValidTables(t) && ValidCostModel(m) && Actionable(plan) && s.decisionPrice.Some?
    requires IntentOf(t, signal.id).Some? && IntentOf(t, signal.id).value.status == IntentSubmitted
    ensures forall i :: 0 <= i < |Execute(t, plan, signal, s, m).writes| ==>
      Execute(t, plan, signal, s, m).writes[i].WOrder?
  {
    assert CommitAll(t, []) == t;
  }

  /** A call that executes nothing leaves every symbol where it stands. */
  lemma {:induction false} IdleCall(t: Tables, s: Submission, cfg: Config, symbol: Symbol, k: nat)
    requires ValidTables(t) && ValidSubmission(s) && ValidConfig(cfg) && k <= |SubmitSignal(t, s, cfg).writes|
    requires Admitted(t, s, cfg.policy) ==>
      SameAsStored(t, s.signal) && IntentOf(t, s.signal.id).Some?
        && IntentOf(t, s.signal.id).value.status == IntentSubmitted
    ensures Repriced(t, CommitAll(t, SubmitSignal(t, s, cfg).writes[..k]), symbol, 0.0, 0.0)
  {
    var a, ok := Admit(t, s, cfg.policy), Repricing(symbol, 0.0, 0.0);
    var ws := SubmitSignal(t, s, cfg).writes;
    AdmissionReprices(t, s, cfg.policy, symbol, 0.0, 0.0);
    if Admitted(t, s, cfg.policy) {
      var t1 := CommitAll(t, a.writes);
      WritesKeepTablesValid(t, a.writes);
      var rest := Execute(t1, a.plan.value, a.signal, s, cfg.costs).writes;
      ResubmissionOnlyOrders(t1, a.plan.value, a.signal, s, cfg.costs);
      OrdersReprice(t1, rest, symbol, 0.0, 0.0);
      EveryBoth(ok, t, a.writes, rest);
    }
    EveryPrefix(ok, t, ws, k);
    RepricingWrites(t, ws[..k], symbol, 0.0, 0.0);
  }

  lemma {:induction false} NothingAddedWithinCaps(t: Tables, t': Tables, symbol: Symbol, policy: Policy)
    requires ValidTables(t) && WithinCaps(t, policy) && ValidPolicy(policy) && Repriced(t, t', symbol, 0.0, 0.0)
    ensures WithinCaps(t', policy)
  {
    OthersAreNoMore(t, symbol);
    RepricedWithinCaps(t, t', symbol, 0.0, 0.0, 0.0, policy);
  }

  lemma {:induction false} FittingIntentWithinCaps(t: Tables, t': Tables, i: OrderIntent, policy: Policy)
    requires ValidTables(t) && ValidIntent(i) && WithinCaps(t, policy) && ValidPolicy(policy) && FitsCaps(t, i, policy)
    requires Repriced(t, t', i.symbol, FilledTo(t, i), ExecutionPrice(i))
    ensures WithinCaps(t', policy)
  {
    RepricedWithinCaps(t, t', i.symbol, FilledTo(t, i), ExecutionPrice(i),
                       NotionalAt(FilledTo(t, i), ExecutionPrice(i)), policy);
  }

  lemma {:induction false} InvalidIntentIdles(t: Tables, s: Submission, cfg: Config, k: nat)
    requires ValidTables(t) && ValidSubmission(s) && ValidConfig(cfg) && k <= |SubmitSignal(t, s, cfg).writes|
    requires Admitted(t, s, cfg.policy) && s.decisionPrice.Some?
    requires var a := Admit(t, s, cfg.policy); !ValidIntent(IntentFor(a.plan.value, a.signal, s))
    ensures Repriced(t, CommitAll(t, SubmitSignal(t, s, cfg).writes[..k]), s.signal.symbol, 0.0, 0.0)
  {
    var a := Admit(t, s, cfg.policy);
    AdmissionReprices(t, s, cfg.policy, s.signal.symbol, 0.0, 0.0);
    WritesKeepTablesValid(t, a.writes);
    var ws := SubmitSignal(t, s, cfg).writes;
    assert ws == a.writes + [] == a.writes;
    EveryPrefix(Repricing(s.signal.symbol, 0.0, 0.0), t, ws, k);
    RepricingWrites(t, ws[..k], s.signal.symbol, 0.0, 0.0);
  }

  /** The exposure cap, at every cut of every call: market orders under the default scenario
      keep each symbol and the account within the policy's limits at the marks, as long as
      an intent the signal left pending, if there is one, still fits them. */
  lemma {:induction false} CallKeepsCaps(t: Tables, s: Submission, cfg: Config, k: nat)
    requires ValidTables(t) && ValidSubmission(s) && ValidConfig(cfg) && WithinCaps(t, cfg.policy)
    requires s.scenario.None? && s.orderType == OrderType.Market && SameAsStored(t, s.signal)
      && PendingFits(t, s, cfg.policy)
    requires k <= |SubmitSignal(t, s, cfg).writes|
    ensures WithinCaps(CommitAll(t, SubmitSignal(t, s, cfg).writes[..k]), cfg.policy)
  {
    var t' := CommitAll(t, SubmitSignal(t, s, cfg).writes[..k]);
    if Plans(t, s, cfg.policy) && CallIntent(t, s, cfg.policy).status != IntentSubmitted {
      var i := CallIntent(t, s, cfg.policy);
      if IntentOf(t, s.signal.id).None? { NewIntentFits(t, s, cfg.policy); }
      CallReprices(t, s, cfg, i, k);
      FittingIntentWithinCaps(t, t', i, cfg.policy);
    } else {
      UnplannedCallIdles(t, s, cfg, k);
      NothingAddedWithinCaps(t, t', s.signal.symbol, cfg.policy);
    }
  }

  lemma {:induction false} UnplannedCallIdles(t: Tables, s: Submission, cfg: Config, k: nat)
    requires ValidTables(t) && ValidSubmission(s) && ValidConfig(cfg) && k <= |SubmitSignal(t, s, cfg).writes|
    requires SameAsStored(t, s.signal)
    requires Plans(t, s, cfg.policy) ==> CallIntent(t, s, cfg.policy).status == IntentSubmitted
    ensures Repriced(t, CommitAll(t, SubmitSignal(t, s, cfg).writes[..k]), s.signal.symbol, 0.0, 0.0)
  {
    if Admitted(t, s, cfg.policy) {
      var a := Admit(t, s, cfg.policy);
      GatePasses(GateContext(AdmittedTables(t, s, cfg.policy), s, cfg.policy, a.signal, a.position, a.plan),
        cfg.policy);
      if Plans(t, s, cfg.policy) {
        IdleCall(t, s, cfg, s.signal.symbol, k);
      } else {
        InvalidIntentIdles(t, s, cfg, k);
      }
    } else {
      IdleCall(t, s, cfg, s.signal.symbol, k);
    }
  }

  /** A step, cut off anywhere, whose submissions meet the conditions of the cap. */
  ghost predicate CappedStep(t: Tables, step: Step, k: nat, t': Tables, cfg: Config)
    requires ValidConfig(cfg)
  {
    && Steps(t, step, k, t', cfg)
    && (step.Submit? ==>
          var s := step.submission;
          && s.scenario.None? && s.orderType == OrderType.Market && SameAsStored(t, s.signal)
          && PendingFits(t, s, cfg.policy))
  }

  lemma {:induction false} StepKeepsCaps(t: Tables, step: Step, k: nat, t': Tables, cfg: Config)
    requires ValidConfig(cfg) && CappedStep(t, step, k, t', cfg) && WithinCaps(t, cfg.policy)
    ensures WithinCaps(t', cfg.policy)
  {
    if step.Submit? {
      CallKeepsCaps(t, step.submission, cfg, k);
    } else {
      var ok, ws := Repricing(0, 0.0, 0.0), StepTrace(t, step, cfg).writes;
      RepricingAllowsUpkeep(0, 0.0, 0.0);
      UpkeepIsAllowed(ok, t, step, cfg);
      EveryPrefix(ok, t, ws, k);
      RepricingWrites(t, ws[..k], 0, 0.0, 0.0);
      NothingAddedWithinCaps(t, t', 0, cfg.policy);
    }
  }

  ghost predicate CappedRun(states: seq<Tables>, steps: seq<Step>, cuts: seq<nat>, cfg: Config)
    requires ValidConfig(cfg)
  {
    && |states| == |steps| + 1 && |cuts| == |steps|
    && forall j :: 0 <= j < |steps| ==> CappedStep(states[j], steps[j], cuts[j], states[j + 1], cfg)
  }

  lemma {:induction false} RunKeepsCapsOnce(states: seq<Tables>, steps: seq<Step>, cuts: seq<nat>, cfg: Config, j: nat)
    requires ValidConfig(cfg) && CappedRun(states, steps, cuts, cfg) && j < |steps| && WithinCaps(states[j], cfg.policy)
    ensures WithinCaps(states[j + 1], cfg.policy)
  {
    assert CappedStep(states[j], steps[j], cuts[j], states[j + 1], cfg);
    StepKeepsCaps(states[j], steps[j], cuts[j], states[j + 1], cfg);
  }

  /** In every state such a run reaches, crashes included, exposure is within the caps. */
  lemma {:induction false} CapsHoldThroughout(states: seq<Tables>, steps: seq<Step>, cuts: seq<nat>, cfg: Config,
                                              i: nat)
    requires ValidConfig(cfg) && CappedRun(states, steps, cuts, cfg) && WithinCaps(states[0], cfg.policy)
      && i <= |steps|
    ensures WithinCaps(states[i], cfg.policy)
  {
    if i > 0 {
      CapsHoldThroughout(states, steps, cuts, cfg, i - 1);
      RunKeepsCapsOnce(states, steps, cuts, cfg, i - 1);
    }
  }
}
