/** The gate's verdict told check by check, from the prices, times and quantities themselves. */
module GateReasons {
  import opened Prelude
  import opened Execution
  import opened Ledger
  import opened Planner
  import opened RiskGate

  /** The gate's checks. */
  datatype Check =
    | DecisionPriceCheck
    | RuleCheck
    | SkipCheck
    | MarketCheck
    | StaleCheck
    | SuspensionCheck
    | SessionCheck
    | PlanCheck
    | ControlCheck
    | StepCheck
    | SellableCheck
    | OddLotCheck
    | MinimumCheck
    | LimitPriceCheck
    | TickCheck
    | PriceLimitCheck
    | NotionalCheck
    | DuplicateCheck
    | SingleLimitCheck
    | ReferencePriceCheck
    | TotalLimitCheck

  /** The order in which they are made. */
  function Rank(k: Check): nat {
    match k
    case DecisionPriceCheck => 0
    case RuleCheck => 1
    case SkipCheck => 2
    case MarketCheck => 3
    case StaleCheck => 4
    case SuspensionCheck => 5
    case SessionCheck => 6
    case PlanCheck => 7
    case ControlCheck => 8
    case StepCheck => 9
    case SellableCheck => 10
    case OddLotCheck => 11
    case MinimumCheck => 12
    case LimitPriceCheck => 13
    case TickCheck => 14
    case PriceLimitCheck => 15
    case NotionalCheck => 16
    case DuplicateCheck => 17
    case SingleLimitCheck => 18
    case ReferencePriceCheck => 19
    case TotalLimitCheck => 20
  }

  function Times(n: int, step: real): real { n as real * step }

  ghost predicate IsWholeNumberOf(value: real, step: real) { exists n: int :: Times(n, step) == value }

  /** The bar behind the signal reached the trader too late: a whole second later than both the
      threshold and the whole seconds of two timeframes allow. */
  predicate TooOld(c: Context, policy: Policy) {
    var allowed := MaxInt(policy.staleThreshold, 2 * c.signal.timeframe / 1_000_000);
    c.receivedAt - c.signal.eventTime >= 1_000_000 * (allowed + 1)
  }

  predicate IsSell(c: Context) { c.plan.Some? && c.plan.value.side == Some(Sell) }

  /** A sell of less than a lot, all that may be sold today. */
  predicate SellsOddLot(c: Context) {
    && IsSell(c) && c.rule.Some? && c.plan.value.rawDelta < 0.0
    && 0.0 < c.plan.value.currentSellable < c.rule.value.lotSize
  }

  function QtyAfter(p: Plan): real {
    if p.side == Some(Buy) then (if p.currentQty + p.qty > 0.0 then p.currentQty + p.qty else 0.0)
    else if p.qty <= p.currentQty then p.currentQty - p.qty
    else 0.0
  }

  /** The value the symbol would have after the order, at the decision price. */
  function ValueAfter(c: Context): real {
    if c.plan.None? || c.decisionPrice.None? then 0.0 else QtyAfter(c.plan.value) * c.decisionPrice.value
  }

  /** The value of an open position in another symbol, at the mark or else the entry price. */
  function ValueOf(p: Position, symbol: Symbol): real {
    if p.qty <= 0.0 || p.symbol == symbol then 0.0
    else if p.markPrice.Some? then p.qty * p.markPrice.value
    else if p.avgEntryPrice.Some? then p.qty * p.avgEntryPrice.value
    else 0.0
  }

  function ValueOfOthers(positions: seq<Position>, symbol: Symbol): real {
    if positions == [] then 0.0
    else ValueOfOthers(positions[..|positions| - 1], symbol) + ValueOf(positions[|positions| - 1], symbol)
  }

  /** The open rows of the symbol. */
  function RowsOf(positions: seq<Position>, symbol: Symbol): nat {
    if positions == [] then 0
    else
      var p := positions[|positions| - 1];
      RowsOf(positions[..|positions| - 1], symbol) + if p.qty > 0.0 && p.symbol == symbol then 1 else 0
  }

  /** The value of the account after the order: the symbol counts once, held before or not
      (once for every row, should there be several). */
  function AccountAfter(c: Context): real {
    ValueOfOthers(c.openPositions, c.signal.symbol)
    + MaxInt(1, RowsOf(c.openPositions, c.signal.symbol)) as real * ValueAfter(c)
  }

  /** Some open position in another symbol has no price to value it at. */
  ghost predicate PriceMissing(positions: seq<Position>, symbol: Symbol) {
    exists p :: p in positions && p.qty > 0.0 && p.symbol != symbol && p.markPrice.None? && p.avgEntryPrice.None?
  }

  predicate AsksTheSame(i: OrderIntent, c: Context) {
    && c.plan.Some? && i.signalId != c.signal.id && i.symbol == c.signal.symbol && Some(i.side) == c.plan.value.side
    && i.orderType == c.orderType && i.qty == c.plan.value.qty && i.price == c.price
    && Some(i.decisionPrice) == c.decisionPrice && i.reduceOnly == c.plan.value.reduceOnly
  }

  /** What makes a check refuse. */
  ghost predicate Refuses(k: Check, c: Context, policy: Policy) {
    match k
    case DecisionPriceCheck => c.decisionPrice.None? || c.decisionPrice.value <= 0.0
    case RuleCheck => c.rule.None?
    case SkipCheck => c.plan.Some? && (c.plan.value.side.None? || c.plan.value.qty <= 0.0 || c.plan.value.skip.Some?)
    case MarketCheck => c.market.None?
    case StaleCheck => TooOld(c, policy)
    case SuspensionCheck => c.market.Some? && !c.market.value.active
    case SessionCheck => c.market.Some? && !c.market.value.continuousAuction
    case PlanCheck => c.plan.None?
    case ControlCheck =>
      c.control in {KillSwitch, ProtectionMode} &&
      !(IsSell(c) && c.position.Some? && c.plan.value.qty <= c.position.value.sellableQty && c.position.value.qty > 0.0)
    case StepCheck => c.plan.Some? && c.rule.Some? && !IsWholeNumberOf(c.plan.value.qty, c.rule.value.qtyStep)
    case SellableCheck => IsSell(c) && c.plan.value.qty > c.plan.value.currentSellable
    case OddLotCheck => SellsOddLot(c) && !c.plan.value.oddLotSell
    case MinimumCheck => c.plan.Some? && c.rule.Some? && !SellsOddLot(c) && c.plan.value.qty < c.rule.value.minQty
    case LimitPriceCheck => c.orderType == Limit && (c.price.None? || c.price.value <= 0.0)
    case TickCheck =>
      c.orderType == Limit && c.price.Some? && c.rule.Some? && !IsWholeNumberOf(c.price.value, c.rule.value.priceTick)
    case PriceLimitCheck =>
      var price := if c.orderType == Limit then c.price else c.decisionPrice;
      price.Some? && c.market.Some?
      && (price.value < c.market.value.lowerLimit || price.value > c.market.value.upperLimit)
    case NotionalCheck =>
      c.plan.Some? && c.decisionPrice.Some? && c.plan.value.qty * c.decisionPrice.value < policy.minOrderNotional
    case DuplicateCheck => exists i :: i in c.recentIntents && AsksTheSame(i, c)
    case SingleLimitCheck => ValueAfter(c) > policy.maxSingleNotional
    case ReferencePriceCheck => PriceMissing(c.openPositions, c.signal.symbol)
    case TotalLimitCheck => AccountAfter(c) > policy.maxTotalNotional
  }

  /** What the gate answers when a check is the first to refuse. */
  function Answer(k: Check, c: Context): Decision {
    match k
    case DecisionPriceCheck => Reject(InvalidDecisionPrice)
    case RuleCheck => Reject(SymbolRuleMissing)
    case SkipCheck =>
      if c.plan.None? || c.plan.value.skip.None? then Reject(NonActionableOrderPlan)
      else
        (match c.plan.value.skip.value
         case TargetAlreadySatisfied => Allow(TargetSatisfied)
         case SellableExhausted => Reject(SellableExceeded)
         case BuyBelowMinQty => Reject(MinOrderQtyNotMet)
         case SellBelowMinQty =>
           if c.rule.Some? && c.plan.value.rawDelta < 0.0 && 0.0 < c.plan.value.currentSellable < c.rule.value.lotSize
           then Reject(OddLotRuleViolation) else Reject(MinOrderQtyNotMet))
    case MarketCheck => Reject(if c.orderType == Limit then LimitRequiresMarketState else MarketStateRequired)
    case StaleCheck => Reject(MarketDataStale)
    case SuspensionCheck => Reject(SecuritySuspended)
    case SessionCheck => Reject(TradingSessionUnsupported)
    case PlanCheck => Reject(OrderPlanMissing)
    case ControlCheck => Reject(if c.control == KillSwitch then KillSwitchReduceOnly else ProtectionModeReduceOnly)
    case StepCheck => Reject(QtyStepViolation)
    case SellableCheck => Reject(SellableExceeded)
    case OddLotCheck => Reject(OddLotRuleViolation)
    case MinimumCheck => Reject(MinOrderQtyNotMet)
    case LimitPriceCheck => Reject(LimitPriceRequired)
    case TickCheck => Reject(PriceTickViolation)
    case PriceLimitCheck => Reject(PriceLimitExceeded)
    case NotionalCheck => Reject(MinOrderNotionalNotMet)
    case DuplicateCheck => Reject(DuplicateOrderIntent)
    case SingleLimitCheck => Reject(MaxPositionExceeded)
    case ReferencePriceCheck => Reject(PositionReferencePriceMissing)
    case TotalLimitCheck => Reject(MaxOpenNotionalExceeded)
  }

  // ------------------------------------------------------------- check by check

  lemma {:induction false} StaleIsTooOld(c: Context, policy: Policy)
    requires ValidPolicy(policy)
    ensures MarketStale(c, policy) <==> TooOld(c, policy)
  {
  }

  lemma {:induction false} MultipleIsWholeNumber(value: real, step: real)
    requires step > 0.0
    ensures IsMultiple(value, step) <==> IsWholeNumberOf(value, step)
  {
    MultipleIsWhole(value, step);
    var q := value / step;
    assert q * step == value;
    if IsWholeNumberOf(value, step) {
      var n: int :| Times(n, step) == value;
      ScalingKeepsOrder(n as real, q, step);
    } else {
      assert Times(q.Floor, step) != value;
    }
  }

  lemma {:induction false} PriceMissingGrows(front: seq<Position>, last: Position, symbol: Symbol)
    ensures PriceMissing(front + [last], symbol) <==>
            PriceMissing(front, symbol)
            || (last.qty > 0.0 && last.symbol != symbol && last.markPrice.None? && last.avgEntryPrice.None?)
  {
    assert forall p :: p in front + [last] <==> p in front || p == last;
  }

  lemma {:induction false} OneMoreRow(before: real, n: nat, resulting: real, after: nat)
    requires after == n + 1
    ensures before + n as real * resulting + resulting == before + after as real * resulting
  {
    assert after as real == n as real + 1.0;
  }

  /** What the gate's sum is, told by the rows. */
  ghost predicate SumTold(open: Option<real>, missing: bool, others: real, rows: nat, resulting: real) {
    && (open.None? <==> missing)
    && (open.Some? ==> open.value == others + rows as real * resulting)
  }

  lemma {:induction false} SumToldFurther(front: seq<Position>, last: Position, symbol: Symbol, resulting: real,
                                          open: Option<real>, others: real, rows: nat)
    requires SumTold(open, PriceMissing(front, symbol), others, rows, resulting)
    ensures
      var open' := if open.None? || last.qty <= 0.0 then open
                   else if last.symbol == symbol then Some(open.value + resulting)
                   else if ReferencePrice(last).None? then None
                   else Some(open.value + PositionNotional(last));
      var rows' := rows + if last.qty > 0.0 && last.symbol == symbol then 1 else 0;
      SumTold(open', PriceMissing(front + [last], symbol), others + ValueOf(last, symbol), rows', resulting)
  {
    PriceMissingGrows(front, last, symbol);
    OneMoreRow(others, rows, resulting, rows + 1);
  }

  lemma {:induction false} OpenNotionalTold(positions: seq<Position>, symbol: Symbol, resulting: real)
    ensures SumTold(OpenNotional(positions, symbol, resulting), PriceMissing(positions, symbol),
                    ValueOfOthers(positions, symbol), RowsOf(positions, symbol), resulting)
  {
    if positions != [] {
      var front, last := positions[..|positions| - 1], positions[|positions| - 1];
      assert positions == front + [last];
      OpenNotionalTold(front, symbol, resulting);
      SumToldFurther(front, last, symbol, resulting, OpenNotional(front, symbol, resulting),
                     ValueOfOthers(front, symbol), RowsOf(front, symbol));
    }
  }

  lemma {:induction false} SeenHasRows(positions: seq<Position>, symbol: Symbol)
    ensures SymbolSeen(positions, symbol) <==> RowsOf(positions, symbol) > 0
  {
    if positions != [] {
      var front, last := positions[..|positions| - 1], positions[|positions| - 1];
      assert positions == front + [last];
      SeenHasRows(front, symbol);
      SeenGrows(front, last, symbol);
    }
  }

  lemma {:induction false} CountedOnce(rows: nat, others: real, value: real)
    ensures others + rows as real * value + (if rows > 0 then 0.0 else value)
         == others + MaxInt(1, rows) as real * value
  {
    if rows == 0 { assert rows as real * value == 0.0; }
  }

  lemma {:induction false} TotalIsAccountAfter(c: Context, value: real)
    requires value == ValueAfter(c)
    ensures
      var total := TotalNotional(c.openPositions, c.signal.symbol, value);
      && (total.None? <==> PriceMissing(c.openPositions, c.signal.symbol))
      && (total.Some? ==> total.value == AccountAfter(c))
  {
    var positions, symbol := c.openPositions, c.signal.symbol;
    OpenNotionalTold(positions, symbol, value);
    SeenHasRows(positions, symbol);
    CountedOnce(RowsOf(positions, symbol), ValueOfOthers(positions, symbol), value);
  }

  lemma {:induction false} ResultingIsValueAfter(c: Context)
    requires c.plan.Some? && Actionable(c.plan.value) && c.decisionPrice.Some?
    ensures ResultingNotional(c.plan.value, c.decisionPrice.value) == ValueAfter(c)
  {
    var p := c.plan.value;
    assert ResultingQty(p) == QtyAfter(p);
  }

  lemma {:induction false} NotionalChecksAreExact(c: Context, policy: Policy, p: Plan, price: real)
    requires c.plan == Some(p) && Actionable(p) && c.decisionPrice == Some(price)
    ensures
      NotionalLimits(c, policy, p, price)
      == if ValueAfter(c) > policy.maxSingleNotional then Some(MaxPositionExceeded)
         else if PriceMissing(c.openPositions, c.signal.symbol) then Some(PositionReferencePriceMissing)
         else if AccountAfter(c) > policy.maxTotalNotional then Some(MaxOpenNotionalExceeded)
         else None
  {
    ResultingIsValueAfter(c);
    TotalIsAccountAfter(c, ValueAfter(c));
  }

  lemma {:induction false} DuplicateIsTheSame(c: Context, policy: Policy)
    requires c.plan.Some?
    ensures HasDuplicate(c, c.plan.value) <==> Refuses(DuplicateCheck, c, policy)
  {
    if HasDuplicate(c, c.plan.value) {
      var i :| 0 <= i < |c.recentIntents| && Duplicates(c.recentIntents[i], c, c.plan.value);
      assert c.recentIntents[i] in c.recentIntents && AsksTheSame(c.recentIntents[i], c);
    }
    if Refuses(DuplicateCheck, c, policy) {
      var e :| e in c.recentIntents && AsksTheSame(e, c);
      var i :| 0 <= i < |c.recentIntents| && c.recentIntents[i] == e;
      assert Duplicates(c.recentIntents[i], c, c.plan.value);
    }
  }

  lemma {:induction false} QuantityChecksAreExact(c: Context, policy: Policy)
    requires c.plan.Some? && Actionable(c.plan.value) && c.rule.Some? && ValidRule(c.rule.value)
    ensures
      CheckQuantityRules(c.rule.value, c.plan.value)
      == if Refuses(StepCheck, c, policy) then Some(QtyStepViolation)
         else if Refuses(SellableCheck, c, policy) then Some(SellableExceeded)
         else if Refuses(OddLotCheck, c, policy) then Some(OddLotRuleViolation)
         else if Refuses(MinimumCheck, c, policy) then Some(MinOrderQtyNotMet)
         else None
  {
    MultipleIsWholeNumber(c.plan.value.qty, c.rule.value.qtyStep);
    match c.plan.value.side.value {
      case Buy =>
      case Sell =>
    }
  }

  lemma {:induction false} PriceChecksAreExact(c: Context, policy: Policy)
    requires c.rule.Some? && ValidRule(c.rule.value) && c.market.Some? && c.decisionPrice.Some?
    ensures
      CheckPriceRules(c, c.rule.value, c.market.value, c.decisionPrice.value)
      == if Refuses(LimitPriceCheck, c, policy) then Some(LimitPriceRequired)
         else if Refuses(TickCheck, c, policy) then Some(PriceTickViolation)
         else if Refuses(PriceLimitCheck, c, policy) then Some(PriceLimitExceeded)
         else None
  {
    if c.price.Some? { MultipleIsWholeNumber(c.price.value, c.rule.value.priceTick); }
  }

  /** What the gate is promised of its context. */
  predicate ValidContext(c: Context) { c.rule.Some? ==> ValidRule(c.rule.value) }

  predicate Ready(c: Context) {
    c.plan.Some? && Actionable(c.plan.value) && c.rule.Some? && c.market.Some? && c.decisionPrice.Some?
  }

  /** The checks of an actionable plan, one after the other. */
  function ActionableInOrder(refuses: Check -> bool, c: Context): Decision {
    if refuses(ControlCheck) then Answer(ControlCheck, c)
    else if refuses(StepCheck) then Answer(StepCheck, c)
    else if refuses(SellableCheck) then Answer(SellableCheck, c)
    else if refuses(OddLotCheck) then Answer(OddLotCheck, c)
    else if refuses(MinimumCheck) then Answer(MinimumCheck, c)
    else if refuses(LimitPriceCheck) then Answer(LimitPriceCheck, c)
    else if refuses(TickCheck) then Answer(TickCheck, c)
    else if refuses(PriceLimitCheck) then Answer(PriceLimitCheck, c)
    else if refuses(NotionalCheck) then Answer(NotionalCheck, c)
    else if refuses(DuplicateCheck) then Answer(DuplicateCheck, c)
    else if refuses(SingleLimitCheck) then Answer(SingleLimitCheck, c)
    else if refuses(ReferencePriceCheck) then Answer(ReferencePriceCheck, c)
    else if refuses(TotalLimitCheck) then Answer(TotalLimitCheck, c)
    else Allow(Allowed)
  }

  /** All checks, one after the other. */
  function AllInOrder(refuses: Check -> bool, c: Context): Decision {
    if refuses(DecisionPriceCheck) then Answer(DecisionPriceCheck, c)
    else if refuses(RuleCheck) then Answer(RuleCheck, c)
    else if refuses(SkipCheck) then Answer(SkipCheck, c)
    else if refuses(MarketCheck) then Answer(MarketCheck, c)
    else if refuses(StaleCheck) then Answer(StaleCheck, c)
    else if refuses(SuspensionCheck) then Answer(SuspensionCheck, c)
    else if refuses(SessionCheck) then Answer(SessionCheck, c)
    else if refuses(PlanCheck) then Answer(PlanCheck, c)
    else ActionableInOrder(refuses, c)
  }

  /** r tells which checks refuse. */
  ghost predicate Tells(r: Check -> bool, c: Context, policy: Policy) {
    forall k {:trigger r(k)} :: r(k) <==> Refuses(k, c, policy)
  }

  lemma {:induction false} QuantityInOrder(c: Context, policy: Policy, r: Check -> bool)
    requires Tells(r, c, policy) && Ready(c) && ValidRule(c.rule.value)
    ensures
      CheckQuantityRules(c.rule.value, c.plan.value)
      == if r(StepCheck) then Some(QtyStepViolation)
         else if r(SellableCheck) then Some(SellableExceeded)
         else if r(OddLotCheck) then Some(OddLotRuleViolation)
         else if r(MinimumCheck) then Some(MinOrderQtyNotMet)
         else None
  {
    QuantityChecksAreExact(c, policy);
  }

  lemma {:induction false} PriceInOrder(c: Context, policy: Policy, r: Check -> bool)
    requires Tells(r, c, policy) && Ready(c) && ValidRule(c.rule.value)
    ensures
      CheckPriceRules(c, c.rule.value, c.market.value, c.decisionPrice.value)
      == if r(LimitPriceCheck) then Some(LimitPriceRequired)
         else if r(TickCheck) then Some(PriceTickViolation)
         else if r(PriceLimitCheck) then Some(PriceLimitExceeded)
         else None
  {
    PriceChecksAreExact(c, policy);
  }

  lemma {:induction false} NotionalInOrder(c: Context, policy: Policy, r: Check -> bool)
    requires Tells(r, c, policy) && Ready(c)
    ensures
      NotionalLimits(c, policy, c.plan.value, c.decisionPrice.value)
      == if r(SingleLimitCheck) then Some(MaxPositionExceeded)
         else if r(ReferencePriceCheck) then Some(PositionReferencePriceMissing)
         else if r(TotalLimitCheck) then Some(MaxOpenNotionalExceeded)
         else None
  {
    NotionalChecksAreExact(c, policy, c.plan.value, c.decisionPrice.value);
  }

  lemma {:induction false} OthersInOrder(c: Context, policy: Policy, r: Check -> bool)
    requires Tells(r, c, policy) && Ready(c)
    ensures CheckControlState(c, c.plan.value)
         == if r(ControlCheck)
            then Some(if c.control == KillSwitch then KillSwitchReduceOnly else ProtectionModeReduceOnly) else None
    ensures r(NotionalCheck) <==> c.plan.value.qty * c.decisionPrice.value < policy.minOrderNotional
    ensures r(DuplicateCheck) <==> HasDuplicate(c, c.plan.value)
  {
    DuplicateIsTheSame(c, policy);
  }

  lemma {:induction false} EarlyInOrder(c: Context, policy: Policy, r: Check -> bool)
    requires Tells(r, c, policy) && ValidPolicy(policy)
    ensures r(DecisionPriceCheck) <==> c.decisionPrice.None? || c.decisionPrice.value <= 0.0
    ensures r(RuleCheck) <==> c.rule.None?
    ensures r(SkipCheck) <==> c.plan.Some? && !Actionable(c.plan.value)
    ensures r(MarketCheck) <==> c.market.None?
    ensures r(StaleCheck) <==> MarketStale(c, policy)
    ensures r(SuspensionCheck) <==> c.market.Some? && !c.market.value.active
    ensures r(SessionCheck) <==> c.market.Some? && !c.market.value.continuousAuction
    ensures r(PlanCheck) <==> c.plan.None?
  {
    StaleIsTooOld(c, policy);
  }

  function Verdict(refusal: Option<Reason>): Decision {
    if refusal.Some? then Reject(refusal.value) else Allow(Allowed)
  }

  lemma {:induction false} RefusalsInOrder(c: Context, policy: Policy, r: Check -> bool, control: Option<Reason>,
                                           quantity: Option<Reason>, price: Option<Reason>, limits: Option<Reason>)
    requires control == if r(ControlCheck)
                        then Some(if c.control == KillSwitch then KillSwitchReduceOnly else ProtectionModeReduceOnly)
                        else None
    requires quantity == if r(StepCheck) then Some(QtyStepViolation)
                         else if r(SellableCheck) then Some(SellableExceeded)
                         else if r(OddLotCheck) then Some(OddLotRuleViolation)
                         else if r(MinimumCheck) then Some(MinOrderQtyNotMet)
                         else None
    requires price == if r(LimitPriceCheck) then Some(LimitPriceRequired)
                      else if r(TickCheck) then Some(PriceTickViolation)
                      else if r(PriceLimitCheck) then Some(PriceLimitExceeded)
                      else None
    requires limits == if r(SingleLimitCheck) then Some(MaxPositionExceeded)
                       else if r(ReferencePriceCheck) then Some(PositionReferencePriceMissing)
                       else if r(TotalLimitCheck) then Some(MaxOpenNotionalExceeded)
                       else None
    ensures
      Verdict(FirstReason(control,
              FirstReason(quantity,
              FirstReason(price,
              FirstReason(if r(NotionalCheck) then Some(MinOrderNotionalNotMet) else None,
              FirstReason(if r(DuplicateCheck) then Some(DuplicateOrderIntent) else None, limits))))))
      == ActionableInOrder(r, c)
  {
  }

  lemma {:induction false} ActionableIsInOrder(c: Context, policy: Policy, r: Check -> bool, refusal: Option<Reason>)
    requires Tells(r, c, policy) && Ready(c) && ValidRule(c.rule.value)
    requires refusal == RefuseActionable(c, policy, c.plan.value, c.rule.value, c.market.value, c.decisionPrice.value)
    ensures Verdict(refusal) == ActionableInOrder(r, c)
  {
    var p, rule, market, price := c.plan.value, c.rule.value, c.market.value, c.decisionPrice.value;
    QuantityInOrder(c, policy, r);
    PriceInOrder(c, policy, r);
    NotionalInOrder(c, policy, r);
    OthersInOrder(c, policy, r);
    RefusalsInOrder(c, policy, r, CheckControlState(c, p), CheckQuantityRules(rule, p),
                    CheckPriceRules(c, rule, market, price), NotionalLimits(c, policy, p, price));
  }

  /** The gate is its checks, one after the other. */
  lemma {:induction false} GateAsksInOrder(c: Context, policy: Policy, r: Check -> bool)
    requires ValidContext(c) && ValidPolicy(policy) && Tells(r, c, policy)
    ensures Evaluate(c, policy) == AllInOrder(r, c)
  {
    EarlyInOrder(c, policy, r);
    if Ready(c) {
      ActionableIsInOrder(c, policy, r,
        RefuseActionable(c, policy, c.plan.value, c.rule.value, c.market.value, c.decisionPrice.value));
    }
  }

  /** No check made before this one refuses. */
  ghost predicate PassesUpTo(k: Check, c: Context, policy: Policy) {
    forall e {:trigger Refuses(e, c, policy)} :: Rank(e) < Rank(k) ==> !Refuses(e, c, policy)
  }

  /** Nothing refuses before k. */
  ghost predicate QuietUpTo(r: Check -> bool, k: Check) {
    forall e {:trigger r(e)} :: Rank(e) < Rank(k) ==> !r(e)
  }

  lemma {:induction false} FirstEarlyInOrder(r: Check -> bool, c: Context, k: Check)
    requires r(k) && QuietUpTo(r, k) && Rank(k) < 8
    ensures AllInOrder(r, c) == Answer(k, c)
  {
  }

  lemma {:induction false} QuietEarly(r: Check -> bool, c: Context, k: Check)
    requires QuietUpTo(r, k) && Rank(k) >= 8
    ensures AllInOrder(r, c) == ActionableInOrder(r, c)
  {
  }

  lemma {:induction false} FirstActionableInOrder(r: Check -> bool, c: Context, k: Check)
    requires r(k) && QuietUpTo(r, k) && Rank(k) >= 8
    ensures ActionableInOrder(r, c) == Answer(k, c)
  {
  }

  /** The first check to refuse decides. */
  lemma {:induction false} FirstRefusalDecides(c: Context, policy: Policy, k: Check)
    requires ValidContext(c) && ValidPolicy(policy)
    requires Refuses(k, c, policy) && PassesUpTo(k, c, policy)
    ensures Evaluate(c, policy) == Answer(k, c)
  {
    var r := e => Refuses(e, c, policy);
    GateAsksInOrder(c, policy, r);
    assert QuietUpTo(r, k);
    if Rank(k) < 8 {
      FirstEarlyInOrder(r, c, k);
    } else {
      QuietEarly(r, c, k);
      FirstActionableInOrder(r, c, k);
    }
  }

  lemma {:induction false} NoneEarlyInOrder(r: Check -> bool, c: Context, k: Check)
    requires AllInOrder(r, c) == Allow(Allowed) && Rank(k) < 8
    ensures !r(k)
  {
  }

  lemma {:induction false} NoneActionableInOrder(r: Check -> bool, c: Context, k: Check)
    requires AllInOrder(r, c) == Allow(Allowed) && Rank(k) >= 8
    ensures !r(k)
  {
  }

  /** An order passes exactly when no check refuses it. */
  lemma {:induction false} PassesIffNoneRefuses(c: Context, policy: Policy)
    requires ValidContext(c) && ValidPolicy(policy)
    ensures Evaluate(c, policy) == Allow(Allowed)
      <==> forall k {:trigger Refuses(k, c, policy)} :: !Refuses(k, c, policy)
  {
    var r := e => Refuses(e, c, policy);
    GateAsksInOrder(c, policy, r);
    if Evaluate(c, policy) == Allow(Allowed) {
      forall k: Check ensures !Refuses(k, c, policy) {
        if Rank(k) < 8 { NoneEarlyInOrder(r, c, k); } else { NoneActionableInOrder(r, c, k); }
        assert !r(k);
      }
    }
  }

  lemma {:induction false} NotStaleInOrder(r: Check -> bool, c: Context)
    requires !r(StaleCheck) && QuietUpTo(r, StaleCheck)
    ensures AllInOrder(r, c) != Reject(MarketDataStale)
  {
  }

  /** Stale data is refused by its times alone: when no earlier check refuses, the answer is that the
      market data is stale exactly when the signal's bar came too late. */
  lemma {:induction false} StaleIsExact(c: Context, policy: Policy)
    requires ValidContext(c) && ValidPolicy(policy) && PassesUpTo(StaleCheck, c, policy)
    ensures
      Evaluate(c, policy) == Reject(MarketDataStale) <==>
      c.receivedAt - c.signal.eventTime
      >= 1_000_000 * (MaxInt(policy.staleThreshold, 2 * c.signal.timeframe / 1_000_000) + 1)
  {
    var r := e => Refuses(e, c, policy);
    GateAsksInOrder(c, policy, r);
    assert QuietUpTo(r, StaleCheck);
    if r(StaleCheck) { FirstEarlyInOrder(r, c, StaleCheck); } else { NotStaleInOrder(r, c); }
  }
}
