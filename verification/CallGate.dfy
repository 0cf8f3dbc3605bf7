/** What a call hands to the gate, and what it may write once the gate has answered. */
module CallGate {
  import opened Prelude
  import opened Execution
  import opened Costs
  import opened Ledger
  import opened PaperAdapter
  import opened Planner
  import opened RiskGate
  import opened GateReasons
  import opened Store
  import opened Oms
  import opened Submissions
  import opened Intents

  /** The context the gate is asked with. */
  function CallContext(t: Tables, s: Submission, policy: Policy): Context
    requires ValidTables(t) && ValidSubmission(s)
  {
    var a := Admit(t, s, policy);
    GateContext(CommitAll(t, a.writes), s, policy, a.signal, a.position, a.plan)
  }

  function SignalOf(t: Tables, s: Submission): Signal {
    if s.signal.id in t.signals then t.signals[s.signal.id] else s.signal
  }

  /** The context carries the call as it is, the stored signal if there is one, and the holding with
      the shares that may be sold today. */
  predicate TellsTheCall(c: Context, t: Tables, s: Submission) {
    && c.signal == SignalOf(t, s) && c.decisionPrice == s.decisionPrice && c.receivedAt == s.receivedAt
    && c.rule == s.rule && c.market == s.market && c.orderType == s.orderType && c.price == s.price
    && c.control == s.control
    && (c.position.Some? <==> s.signal.symbol in t.positions)
    && (c.position.Some? ==>
          c.position.value.qty == HeldQty(t, s) && c.position.value.sellableQty == SellableToday(t, s))
    && (c.plan.Some? <==> s.market.Some? && s.rule.Some? && s.decisionPrice.Some? && s.decisionPrice.value > 0.0)
  }

  /** The plan is sized from the signal's target and the holding. */
  predicate SizedFor(p: Plan, target: real, qty: real, sellable: real) {
    p.targetPosition == target && p.currentQty == qty && p.currentSellable == sellable && p.rawDelta == target - qty
  }

  lemma {:induction false} PlanIsSizedFor(target: real, rule: SymbolRule, qty: real, sellable: real)
    requires ValidRule(rule)
    ensures SizedFor(BuildPlan(target, rule, qty, sellable), target, qty, sellable)
  {
  }

  lemma {:induction false} ContextCarriesTheCall(t: Tables, s: Submission, policy: Policy, c: Context)
    requires ValidTables(t) && ValidSubmission(s) && c == CallContext(t, s, policy)
    ensures TellsTheCall(c, t, s)
    ensures c.plan.Some? ==> SizedFor(c.plan.value, c.signal.targetPosition, HeldQty(t, s), SellableToday(t, s))
  {
    if s.signal.symbol in t.positions { assert ValidPosition(t.positions[s.signal.symbol]); }
    if s.rule.Some? {
      PlanIsSizedFor(SignalOf(t, s).targetPosition, s.rule.value, HeldQty(t, s), SellableToday(t, s));
    }
  }

  lemma {:induction false} AdmissionKeepsOrders(t: Tables, s: Submission, policy: Policy)
    requires ValidTables(t) && ValidSubmission(s)
    ensures
      var t1 := CommitAll(t, Admit(t, s, policy).writes);
      t1.intents == t.intents && t1.orders == t.orders
  {
    var ws := Admit(t, s, policy).writes;
    AdmissionShape(t, s, policy);
    CommitOne(t, ws[0]);
    if |ws| == 2 { CommitTwo(t, ws[0], ws[1]); }
  }

  /** An intent of the tables in the duplicate window. */
  ghost predicate IsRecent(t: Tables, i: OrderIntent, symbol: Symbol, after: Time) {
    exists id :: id in t.intents && t.intents[id] == i && InWindow(t, i, symbol, after)
  }

  lemma {:induction false} RecentStaysRecent(t: Tables, t1: Tables, i: OrderIntent, symbol: Symbol, after: Time)
    requires t1.intents == t.intents && t1.orders == t.orders
    ensures IsRecent(t1, i, symbol, after) <==> IsRecent(t, i, symbol, after)
  {
    assert InWindow(t1, i, symbol, after) <==> InWindow(t, i, symbol, after);
  }

  /** The intents an actionable plan is compared with are those of the duplicate window. */
  lemma {:induction false} ContextHoldsTheWindow(t: Tables, s: Submission, policy: Policy, c: Context, i: OrderIntent)
    requires ValidTables(t) && ValidSubmission(s) && c == CallContext(t, s, policy)
    requires c.plan.Some? && Actionable(c.plan.value)
    ensures i in c.recentIntents <==> IsRecent(t, i, c.signal.symbol, c.receivedAt - 1_000_000 * policy.duplicateWindow)
  {
    AdmissionKeepsOrders(t, s, policy);
    var t1 := CommitAll(t, Admit(t, s, policy).writes);
    var symbol, after := c.signal.symbol, c.receivedAt - 1_000_000 * policy.duplicateWindow;
    assert c.recentIntents == RecentActiveIntents(t1, symbol, after);
    RecentIntentsAreExact(t1, symbol, after, i);
    RecentStaysRecent(t, t1, i, symbol, after);
  }

  /** Signal and position rows only. */
  predicate BooksNothing(ws: seq<Write>) {
    forall j :: 0 <= j < |ws| ==> ws[j].WSignal? || ws[j].WPosition?
  }

  lemma {:induction false} AdmissionBooksNothing(t: Tables, s: Submission, policy: Policy)
    requires ValidTables(t) && ValidSubmission(s)
    ensures BooksNothing(Admit(t, s, policy).writes)
  {
    AdmissionShape(t, s, policy);
  }

  /** The call fails before the gate's answer counts: the stored signal is for another symbol
      than the holding it is sized against. */
  predicate Mismatched(t: Tables, s: Submission) {
    && s.signal.symbol in t.positions && SignalOf(t, s).symbol != s.signal.symbol
    && s.market.Some? && s.rule.Some? && s.decisionPrice.Some? && s.decisionPrice.value > 0.0
  }

  lemma {:induction false} AdmissionTells(t: Tables, s: Submission, policy: Policy, c: Context, a: Admission)
    requires ValidTables(t) && ValidSubmission(s) && c == CallContext(t, s, policy) && a == Admit(t, s, policy)
    ensures a.decision == Evaluate(c, policy) && a.plan == c.plan && (a.raised <==> Mismatched(t, s))
  {
  }

  /** A call ends with its admission unless the plan is actionable and allowed. */
  predicate EndsWithAdmission(held: bool, a: Admission, call: Call) {
    && (!held ==> call == Call([], LeaseNotHeld))
    && (held && a.raised ==> call == Call(a.writes, Raised))
    && (held && !a.raised && a.decision.Reject? ==> call == Call(a.writes, RiskRejected(a.decision.reason)))
    && (held && !a.raised && a.decision.Allow? && (a.plan.None? || !Actionable(a.plan.value)) ==>
          call == Call(a.writes, NothingToDo))
  }

  lemma {:induction false} CallEndsWithAdmission(t: Tables, s: Submission, cfg: Config, a: Admission, call: Call)
    requires ValidTables(t) && ValidSubmission(s) && ValidConfig(cfg)
    requires a == Admit(t, s, cfg.policy) && call == SubmitSignal(t, s, cfg)
    ensures EndsWithAdmission(s.leaseHeld, a, call)
  {
  }

  lemma {:induction false} AllowedUnlessSkipped(c: Context, policy: Policy)
    requires c.plan.Some? && Actionable(c.plan.value) && Evaluate(c, policy).Allow?
    ensures Evaluate(c, policy) == Allow(Allowed)
  {
  }

  lemma {:induction false} RefusedUnlessAllowed(c: Context, policy: Policy, a: Admission, held: bool, call: Call)
    requires a.decision == Evaluate(c, policy) && a.plan == c.plan && Evaluate(c, policy) != Allow(Allowed)
    requires EndsWithAdmission(held, a, call) && BooksNothing(a.writes)
    ensures BooksNothing(call.writes)
    ensures held && !a.raised ==>
      call.outcome == if a.decision.Reject? then RiskRejected(a.decision.reason) else NothingToDo
    ensures !held || a.raised ==> call.outcome in {LeaseNotHeld, Raised}
  {
    if c.plan.Some? && Actionable(c.plan.value) && Evaluate(c, policy).Allow? { AllowedUnlessSkipped(c, policy); }
  }

  /** A call that any check refuses writes no intent, no order and no fill. */
  lemma {:induction false} RefusedCallBooksNothing(t: Tables, s: Submission, cfg: Config, c: Context, k: Check,
                                                   call: Call)
    requires ValidTables(t) && ValidSubmission(s) && ValidConfig(cfg)
    requires c == CallContext(t, s, cfg.policy) && call == SubmitSignal(t, s, cfg) && Refuses(k, c, cfg.policy)
    ensures BooksNothing(call.writes)
    ensures s.leaseHeld && !Mismatched(t, s) ==>
      Evaluate(c, cfg.policy) != Allow(Allowed)
      && call.outcome == if Evaluate(c, cfg.policy).Reject? then RiskRejected(Evaluate(c, cfg.policy).reason)
                         else NothingToDo
  {
    var a := Admit(t, s, cfg.policy);
    AdmissionBooksNothing(t, s, cfg.policy);
    AdmissionTells(t, s, cfg.policy, c, a);
    CallEndsWithAdmission(t, s, cfg, a, call);
    PassesIffNoneRefuses(c, cfg.policy);
    RefusedUnlessAllowed(c, cfg.policy, a, s.leaseHeld, call);
  }

  /** The outcome of a call is the gate's first refusal. */
  lemma {:induction false} CallIsRefusedByFirstCheck(t: Tables, s: Submission, cfg: Config, c: Context, k: Check,
                                                     call: Call)
    requires ValidTables(t) && ValidSubmission(s) && ValidConfig(cfg) && s.leaseHeld && !Mismatched(t, s)
    requires c == CallContext(t, s, cfg.policy) && call == SubmitSignal(t, s, cfg)
    requires Refuses(k, c, cfg.policy) && PassesUpTo(k, c, cfg.policy)
    ensures call.outcome == if Answer(k, c).Reject? then RiskRejected(Answer(k, c).reason) else NothingToDo
  {
    RefusedCallBooksNothing(t, s, cfg, c, k, call);
    FirstRefusalDecides(c, cfg.policy, k);
  }

  lemma {:induction false} AdmittedCallExecutes(t: Tables, s: Submission, cfg: Config, a: Admission, t1: Tables,
                                                call: Call)
    requires ValidTables(t) && ValidSubmission(s) && ValidConfig(cfg) && s.leaseHeld
    requires a == Admit(t, s, cfg.policy) && t1 == CommitAll(t, a.writes) && call == SubmitSignal(t, s, cfg)
    requires !a.raised && a.decision.Allow? && a.plan.Some? && Actionable(a.plan.value)
    ensures ValidTables(t1) && s.decisionPrice.Some?
    ensures call.writes == a.writes + Execute(t1, a.plan.value, a.signal, s, cfg.costs).writes
    ensures call.outcome == Execute(t1, a.plan.value, a.signal, s, cfg.costs).outcome
  {
    WritesKeepTablesValid(t, a.writes);
  }

  lemma {:induction false} ExecutionStartsWithIntent(t1: Tables, plan: Plan, signal: Signal, s: Submission,
                                                     costs: CostModel, call: Call)
    requires ValidTables(t1) && Actionable(plan) && s.decisionPrice.Some? && ValidCostModel(costs)
    requires call == Execute(t1, plan, signal, s, costs)
    ensures !ValidIntent(IntentFor(plan, signal, s)) ==> call == Call([], Raised)
    ensures ValidIntent(IntentFor(plan, signal, s)) && IntentOf(t1, signal.id).None? ==>
      && |call.writes| > 0 && call.writes[0] == WIntent(IntentFor(plan, signal, s))
      && (|call.writes| > 1 ==> call.writes[1] == WOrder(OrderOf(IntentFor(plan, signal, s), s)))
  {
  }

  lemma {:induction false} AdmittedIsActionable(t: Tables, s: Submission, cfg: Config, c: Context, a: Admission)
    requires ValidTables(t) && ValidSubmission(s) && ValidConfig(cfg) && !Mismatched(t, s)
    requires c == CallContext(t, s, cfg.policy) && a == Admit(t, s, cfg.policy)
    requires Evaluate(c, cfg.policy) == Allow(Allowed)
    ensures !a.raised && a.decision == Allow(Allowed) && a.plan.Some? && Actionable(a.plan.value)
    ensures c.decisionPrice.Some? && c.decisionPrice.value > 0.0 && c.market.Some?
    ensures c.orderType == Limit ==> c.price.Some? && c.price.value > 0.0
  {
    AdmissionTells(t, s, cfg.policy, c, a);
    GateIsExact(c, cfg.policy);
  }

  /** The signal that is sized is the stored one, and goes by the call's key. */
  lemma {:induction false} AdmittedSignal(t: Tables, s: Submission, policy: Policy, a: Admission)
    requires ValidTables(t) && ValidSubmission(s) && a == Admit(t, s, policy)
    ensures a.signal == SignalOf(t, s)
  {
  }

  /** A call no check refuses gets as far as its intent, a new one if none is found under the
      signal's key; it fails before that only for a market order that comes with a limit price. */
  lemma {:induction false} AdmittedCallReachesItsIntent(t: Tables, s: Submission, cfg: Config, c: Context,
                                                        a: Admission, t1: Tables, call: Call)
    requires ValidTables(t) && ValidSubmission(s) && ValidConfig(cfg) && s.leaseHeld && !Mismatched(t, s)
    requires c == CallContext(t, s, cfg.policy) && call == SubmitSignal(t, s, cfg)
    requires a == Admit(t, s, cfg.policy) && t1 == CommitAll(t, a.writes)
    requires forall k {:trigger Refuses(k, c, cfg.policy)} :: !Refuses(k, c, cfg.policy)
    ensures
      if s.orderType == OrderType.Market && s.price.Some? then call == Call(a.writes, Raised)
      else IntentOf(t1, SignalOf(t, s).id).None? ==> StartsWithIntent(t, s, a.writes, call.writes)
  {
    PassesIffNoneRefuses(c, cfg.policy);
    AdmittedIsActionable(t, s, cfg, c, a);
    ContextCarriesTheCall(t, s, cfg.policy, c);
    AdmittedCallExecutes(t, s, cfg, a, t1, call);
    PlannedIntentCarries(t, s, cfg.policy);
    AdmittedSignal(t, s, cfg.policy, a);
    var planned := IntentFor(a.plan.value, a.signal, s);
    PlannedIsValid(c, planned, t, s);
    var executed := Execute(t1, a.plan.value, a.signal, s, cfg.costs);
    ExecutionStartsWithIntent(t1, a.plan.value, a.signal, s, cfg.costs, executed);
    IntentComesNext(t, s, a.writes, executed, call, planned);
  }

  /** Behind the admission's rows comes a new intent that carries the call, and then its order. */
  predicate StartsWithIntent(t: Tables, s: Submission, admission: seq<Write>, ws: seq<Write>) {
    var n := |admission|;
    && |ws| > n && ws[n].WIntent? && CarriesTheCall(ws[n].intent, t, s)
    && (|ws| > n + 1 ==> ws[n + 1] == WOrder(OrderOf(ws[n].intent, s)))
  }

  /** The order of an intent as it is submitted: nothing filled, at the time of the call. */
  function OrderOf(i: OrderIntent, s: Submission): Order {
    Order(OrderId(i.id), i.id, i.symbol, i.side, i.orderType, i.qty, i.price, 0.0, None, New, s.receivedAt,
      s.receivedAt)
  }

  lemma {:induction false} IntentComesNext(t: Tables, s: Submission, admission: seq<Write>, executed: Call, call: Call,
                                           planned: OrderIntent)
    requires call == Call(admission + executed.writes, executed.outcome) && CarriesTheCall(planned, t, s)
    ensures executed == Call([], Raised) ==> call == Call(admission, Raised)
    ensures
      && executed.writes != [] && executed.writes[0] == WIntent(planned)
      && (|executed.writes| > 1 ==> executed.writes[1] == WOrder(OrderOf(planned, s)))
      ==> StartsWithIntent(t, s, admission, call.writes)
  {
    if executed.writes == [] { assert admission + [] == admission; }
  }

  lemma {:induction false} PlannedIsValid(c: Context, i: OrderIntent, t: Tables, s: Submission)
    requires CarriesTheCall(i, t, s) && TellsTheCall(c, t, s) && i.qty > 0.0
    requires c.decisionPrice.Some? && c.decisionPrice.value > 0.0 && c.market.Some?
    requires c.orderType == Limit ==> c.price.Some? && c.price.value > 0.0
    ensures ValidIntent(i) <==> !(s.orderType == OrderType.Market && s.price.Some?)
  {
  }

  /** A bar that reached the trader too late books nothing, whatever else the call brings, and is
      what the call is rejected for when no earlier check refuses. */
  lemma {:induction false} LateBarBooksNothing(t: Tables, s: Submission, cfg: Config, c: Context, call: Call)
    requires ValidTables(t) && ValidSubmission(s) && ValidConfig(cfg)
    requires c == CallContext(t, s, cfg.policy) && call == SubmitSignal(t, s, cfg)
    requires
      var signal := SignalOf(t, s);
      s.receivedAt - signal.eventTime
      >= 1_000_000 * (MaxInt(cfg.policy.staleThreshold, 2 * signal.timeframe / 1_000_000) + 1)
    ensures BooksNothing(call.writes)
    ensures s.leaseHeld && !Mismatched(t, s) && PassesUpTo(StaleCheck, c, cfg.policy) ==>
      call.outcome == RiskRejected(MarketDataStale)
  {
    ContextCarriesTheCall(t, s, cfg.policy, c);
    assert Refuses(StaleCheck, c, cfg.policy);
    RefusedCallBooksNothing(t, s, cfg, c, StaleCheck, call);
    if s.leaseHeld && !Mismatched(t, s) && PassesUpTo(StaleCheck, c, cfg.policy) {
      CallIsRefusedByFirstCheck(t, s, cfg, c, StaleCheck, call);
    }
  }

  /** An intent of the tables asks what the call plans to ask again, and is still in the window. */
  ghost predicate Repeats(t: Tables, c: Context, policy: Policy) {
    exists id :: id in t.intents && AsksTheSame(t.intents[id], c)
                 && InWindow(t, t.intents[id], c.signal.symbol, c.receivedAt - 1_000_000 * policy.duplicateWindow)
  }

  /** A repeated order is refused: the reason is given exactly when an intent in the window asks for
      the same, and then nothing is booked. */
  lemma {:induction false} RepeatIsRefused(t: Tables, s: Submission, cfg: Config, c: Context, call: Call)
    requires ValidTables(t) && ValidSubmission(s) && ValidConfig(cfg) && s.leaseHeld && !Mismatched(t, s)
    requires c == CallContext(t, s, cfg.policy) && call == SubmitSignal(t, s, cfg)
    requires PassesUpTo(DuplicateCheck, c, cfg.policy)
    ensures call.outcome == RiskRejected(DuplicateOrderIntent) <==> Repeats(t, c, cfg.policy)
    ensures Repeats(t, c, cfg.policy) ==> BooksNothing(call.writes)
  {
    ReadyForDuplicates(c, cfg.policy);
    WindowDecides(t, s, cfg.policy, c);
    if Refuses(DuplicateCheck, c, cfg.policy) {
      RefusedCallBooksNothing(t, s, cfg, c, DuplicateCheck, call);
      CallIsRefusedByFirstCheck(t, s, cfg, c, DuplicateCheck, call);
    } else {
      NoDuplicateNoReason(c, cfg.policy);
      NeverForThisReason(t, s, cfg, c, call);
    }
  }

  lemma {:induction false} NeverForThisReason(t: Tables, s: Submission, cfg: Config, c: Context, call: Call)
    requires ValidTables(t) && ValidSubmission(s) && ValidConfig(cfg)
    requires c == CallContext(t, s, cfg.policy) && call == SubmitSignal(t, s, cfg)
    ensures call.outcome.RiskRejected? ==> Evaluate(c, cfg.policy) == Reject(call.outcome.reason)
  {
    var a := Admit(t, s, cfg.policy);
    AdmissionTells(t, s, cfg.policy, c, a);
    CallEndsWithAdmission(t, s, cfg, a, call);
    if s.leaseHeld && !a.raised && a.decision.Allow? && a.plan.Some? && Actionable(a.plan.value) {
      var t1 := CommitAll(t, a.writes);
      AdmittedCallExecutes(t, s, cfg, a, t1, call);
      ExecutionIsNoRejection(t1, a.plan.value, a.signal, s, cfg.costs);
    }
  }

  lemma {:induction false} ExecutionIsNoRejection(t1: Tables, plan: Plan, signal: Signal, s: Submission,
                                                  costs: CostModel)
    requires ValidTables(t1) && Actionable(plan) && s.decisionPrice.Some? && ValidCostModel(costs)
    ensures !Execute(t1, plan, signal, s, costs).outcome.RiskRejected?
  {
  }

  lemma {:induction false} ReadyForDuplicates(c: Context, policy: Policy)
    requires PassesUpTo(DuplicateCheck, c, policy)
    ensures Ready(c)
  {
    assert !Refuses(SkipCheck, c, policy) && !Refuses(PlanCheck, c, policy) && !Refuses(RuleCheck, c, policy);
    assert !Refuses(MarketCheck, c, policy) && !Refuses(DecisionPriceCheck, c, policy);
  }

  lemma {:induction false} NoDuplicateNoReason(c: Context, policy: Policy)
    requires !Refuses(DuplicateCheck, c, policy)
    ensures Evaluate(c, policy) != Reject(DuplicateOrderIntent)
  {
    if Ready(c) { DuplicateIsTheSame(c, policy); }
  }

  lemma {:induction false} MembersDecide(t: Tables, c: Context, policy: Policy, after: Time)
    requires after == c.receivedAt - 1_000_000 * policy.duplicateWindow
    requires forall i :: i in c.recentIntents <==> IsRecent(t, i, c.signal.symbol, after)
    ensures Refuses(DuplicateCheck, c, policy) <==> Repeats(t, c, policy)
  {
    if Refuses(DuplicateCheck, c, policy) {
      var i :| i in c.recentIntents && AsksTheSame(i, c);
      var id :| id in t.intents && t.intents[id] == i && InWindow(t, i, c.signal.symbol, after);
    }
    if Repeats(t, c, policy) {
      var id :| id in t.intents && AsksTheSame(t.intents[id], c) && InWindow(t, t.intents[id], c.signal.symbol, after);
      assert IsRecent(t, t.intents[id], c.signal.symbol, after);
    }
  }

  lemma {:induction false} WindowDecides(t: Tables, s: Submission, policy: Policy, c: Context)
    requires ValidTables(t) && ValidSubmission(s) && c == CallContext(t, s, policy) && Ready(c)
    ensures Refuses(DuplicateCheck, c, policy) <==> Repeats(t, c, policy)
  {
    var after := c.receivedAt - 1_000_000 * policy.duplicateWindow;
    forall i ensures i in c.recentIntents <==> IsRecent(t, i, c.signal.symbol, after) {
      ContextHoldsTheWindow(t, s, policy, c, i);
    }
    MembersDecide(t, c, policy, after);
  }

  // ------------------------------------------------- what comes before and beside the intent

  /** An admission saves the signal, and the position exactly if shares of earlier dates become free. */
  lemma {:induction false} AdmissionFreesShares(t: Tables, s: Submission, policy: Policy)
    requires ValidTables(t) && ValidSubmission(s)
    ensures
      Admit(t, s, policy).writes
      == [WSignal(s.signal)]
         + (if SellableToday(t, s) > (if s.signal.symbol in t.positions then t.positions[s.signal.symbol].sellableQty
                                      else 0.0)
            then [WPosition(t.positions[s.signal.symbol].(sellableQty := SellableToday(t, s),
              updatedAt := s.receivedAt))]
            else [])
  {
    if s.signal.symbol in t.positions { assert ValidPosition(t.positions[s.signal.symbol]); }
  }

  lemma {:induction false} ExecutionOfSubmitted(t1: Tables, plan: Plan, signal: Signal, s: Submission,
                                                costs: CostModel, i: OrderIntent, call: Call)
    requires ValidTables(t1) && Actionable(plan) && s.decisionPrice.Some? && ValidCostModel(costs)
    requires call == Execute(t1, plan, signal, s, costs) && ValidIntent(IntentFor(plan, signal, s))
    requires IntentOf(t1, signal.id) == Some(i) && i.status == IntentSubmitted
    ensures call == Call(if OrderId(i.id) in t1.orders then [] else [WOrder(OrderOf(i, s))], AlreadySubmitted)
  {
    assert CommitAll(t1, []) == t1;
    var order := if OrderId(i.id) in t1.orders then [] else [WOrder(OrderOf(i, s))];
    assert [] + order == order;
  }

  /** Repeating a call whose intent has been submitted books nothing more: it only puts back the order
      row if that was never written. */
  lemma {:induction false} RepeatedCallRestoresTheOrder(t: Tables, s: Submission, cfg: Config, c: Context,
                                                        a: Admission, t1: Tables, i: OrderIntent, call: Call)
    requires ValidTables(t) && ValidSubmission(s) && ValidConfig(cfg) && s.leaseHeld && !Mismatched(t, s)
    requires c == CallContext(t, s, cfg.policy) && call == SubmitSignal(t, s, cfg)
    requires a == Admit(t, s, cfg.policy) && t1 == CommitAll(t, a.writes)
    requires forall k {:trigger Refuses(k, c, cfg.policy)} :: !Refuses(k, c, cfg.policy)
    requires !(s.orderType == OrderType.Market && s.price.Some?)
    requires IntentOf(t1, SignalOf(t, s).id) == Some(i) && i.status == IntentSubmitted
    ensures call.outcome == AlreadySubmitted
    ensures call.writes == a.writes + if OrderId(i.id) in t.orders then [] else [WOrder(OrderOf(i, s))]
  {
    PassesIffNoneRefuses(c, cfg.policy);
    AdmittedIsActionable(t, s, cfg, c, a);
    ContextCarriesTheCall(t, s, cfg.policy, c);
    AdmittedCallExecutes(t, s, cfg, a, t1, call);
    PlannedIntentCarries(t, s, cfg.policy);
    AdmittedSignal(t, s, cfg.policy, a);
    AdmissionKeepsOrders(t, s, cfg.policy);
    PlannedIsValid(c, IntentFor(a.plan.value, a.signal, s), t, s);
    ExecutionOfSubmitted(t1, a.plan.value, a.signal, s, cfg.costs, i,
                         Execute(t1, a.plan.value, a.signal, s, cfg.costs));
  }

  /** What the launch of an intent starts with: its order, and once the venue has answered the intent
      marked submitted; when the venue raises, the order row again and nothing else. */
  predicate Launches(i: OrderIntent, s: Submission, costs: CostModel, before: seq<Write>, call: Call)
    requires ValidIntent(i) && ValidCostModel(costs)
  {
    var o := OrderOf(i, s);
    if SubmitOrder(o, i, costs, s.scenario, s.venueTime).Error? then
      call == Call(before + [WOrder(o), WOrder(o)], GatewayFailed)
    else
      && before + [WOrder(o), WIntent(i.(status := IntentSubmitted))] <= call.writes
      && (call.outcome == Done || call.outcome == Raised)
  }

  lemma {:induction false} LaunchStarts(t: Tables, i: OrderIntent, s: Submission, costs: CostModel, call: Call)
    requires ValidTables(t) && ValidIntent(i) && ValidCostModel(costs) && OrderId(i.id) !in t.orders
    requires call == Launch(t, i, s, costs)
    ensures Launches(i, s, costs, [], call)
  {
  }

  lemma {:induction false} LaunchesBehind(i: OrderIntent, s: Submission, costs: CostModel, a: seq<Write>,
                                          before: seq<Write>, launched: Call, call: Call)
    requires ValidIntent(i) && ValidCostModel(costs) && Launches(i, s, costs, before, launched)
    requires call == Call(a + launched.writes, launched.outcome)
    ensures Launches(i, s, costs, a + before, call)
  {
    var o := OrderOf(i, s);
    assert a + (before + [WOrder(o), WOrder(o)]) == a + before + [WOrder(o), WOrder(o)];
    var handed := [WOrder(o), WIntent(i.(status := IntentSubmitted))];
    assert a + (before + handed) == a + before + handed;
  }

  lemma {:induction false} ExecutionLaunches(t1: Tables, plan: Plan, signal: Signal, s: Submission, costs: CostModel,
                                             call: Call)
    requires ValidTables(t1) && Actionable(plan) && s.decisionPrice.Some? && ValidCostModel(costs)
    requires ValidIntent(IntentFor(plan, signal, s)) && IntentOf(t1, signal.id).None?
    requires OrderId(s.newIntentId) !in t1.orders && call == Execute(t1, plan, signal, s, costs)
    ensures Launches(IntentFor(plan, signal, s), s, costs, [WIntent(IntentFor(plan, signal, s))], call)
  {
    var i := IntentFor(plan, signal, s);
    WritesKeepTablesValid(t1, [WIntent(i)]);
    CommitOne(t1, WIntent(i));
    var t2 := CommitAll(t1, [WIntent(i)]);
    var launched := Launch(t2, i, s, costs);
    LaunchStarts(t2, i, s, costs, launched);
    LaunchesBehind(i, s, costs, [WIntent(i)], [], launched, call);
    assert [WIntent(i)] + [] == [WIntent(i)];
  }

  /** A new intent is launched: behind the admission come the intent, its order and the venue's answer. */
  lemma {:induction false} NewIntentIsLaunched(t: Tables, s: Submission, cfg: Config, c: Context, a: Admission,
                                               t1: Tables, call: Call) returns (i: OrderIntent)
    requires ValidTables(t) && ValidSubmission(s) && ValidConfig(cfg) && s.leaseHeld && !Mismatched(t, s)
    requires c == CallContext(t, s, cfg.policy) && call == SubmitSignal(t, s, cfg)
    requires a == Admit(t, s, cfg.policy) && t1 == CommitAll(t, a.writes)
    requires forall k {:trigger Refuses(k, c, cfg.policy)} :: !Refuses(k, c, cfg.policy)
    requires !(s.orderType == OrderType.Market && s.price.Some?)
    requires IntentOf(t1, SignalOf(t, s).id).None? && OrderId(s.newIntentId) !in t.orders
    ensures ValidIntent(i) && CarriesTheCall(i, t, s)
    ensures Launches(i, s, cfg.costs, a.writes + [WIntent(i)], call)
  {
    PassesIffNoneRefuses(c, cfg.policy);
    AdmittedIsActionable(t, s, cfg, c, a);
    ContextCarriesTheCall(t, s, cfg.policy, c);
    AdmittedCallExecutes(t, s, cfg, a, t1, call);
    PlannedIntentCarries(t, s, cfg.policy);
    AdmittedSignal(t, s, cfg.policy, a);
    AdmissionKeepsOrders(t, s, cfg.policy);
    i := IntentFor(a.plan.value, a.signal, s);
    PlannedIsValid(c, i, t, s);
    var executed := Execute(t1, a.plan.value, a.signal, s, cfg.costs);
    ExecutionLaunches(t1, a.plan.value, a.signal, s, cfg.costs, executed);
    LaunchesBehind(i, s, cfg.costs, a.writes, [WIntent(i)], executed, call);
  }
}
