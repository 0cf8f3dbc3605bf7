/** The pre-trade risk gate: a fixed sequence of checks, the first failing one decides. */
module RiskGate {
  import opened Prelude
  import opened Execution
  import opened Ledger
  import opened Planner

  datatype ControlState = Normal | StrategyPaused | KillSwitch | ProtectionMode

  function ResolveControlState(strategyEnabled: bool, killSwitch: bool, protection: bool): ControlState {
    if protection then ProtectionMode
    else if killSwitch then KillSwitch
    else if !strategyEnabled then StrategyPaused
    else Normal
  }

  predicate Protective(c: ControlState) { c in {KillSwitch, ProtectionMode} }

  datatype Policy = Policy(
    maxSingleNotional: real,
    maxTotalNotional: real,
    minOrderNotional: real,
    staleThreshold: int,     // in seconds
    duplicateWindow: int)    // in seconds

  predicate ValidPolicy(p: Policy) {
    && p.maxSingleNotional > 0.0 && p.maxTotalNotional > 0.0 && p.minOrderNotional > 0.0
    && p.staleThreshold > 0 && p.duplicateWindow > 0
  }

  datatype Reason =
    | Allowed
    | InvalidDecisionPrice
    | SymbolRuleMissing
    | TargetSatisfied
    | SellableExceeded
    | MinOrderQtyNotMet
    | OddLotRuleViolation
    | LimitRequiresMarketState
    | MarketStateRequired
    | MarketDataStale
    | SecuritySuspended
    | TradingSessionUnsupported
    | OrderPlanMissing
    | NonActionableOrderPlan
    | KillSwitchReduceOnly
    | ProtectionModeReduceOnly
    | OrderQtyInvalid
    | QtyStepViolation
    | LimitPriceRequired
    | PriceTickViolation
    | PriceLimitExceeded
    | MinOrderNotionalNotMet
    | DuplicateOrderIntent
    | MaxPositionExceeded
    | PositionReferencePriceMissing
    | MaxOpenNotionalExceeded

  datatype Decision = Allow(reason: Reason) | Reject(reason: Reason)

  datatype Context = Context(
    signal: Signal,
    decisionPrice: Option<real>,
    receivedAt: Time,
    rule: Option<SymbolRule>,
    market: Option<MarketState>,
    position: Option<Position>,
    openPositions: seq<Position>,
    recentIntents: seq<OrderIntent>,
    plan: Option<Plan>,
    orderType: OrderType,
    price: Option<real>,
    control: ControlState)

  // --------------------------------------------------------------- the checks
  // Each returns the reason it refuses for, or None.

  predicate OddLotContext(rule: SymbolRule, p: Plan) {
    p.rawDelta < 0.0 && 0.0 < p.currentSellable < rule.lotSize
  }

  function DecideNonActionable(rule: SymbolRule, p: Plan): Decision {
    match p.skip
    case Some(TargetAlreadySatisfied) => Allow(TargetSatisfied)
    case Some(SellableExhausted) => Reject(SellableExceeded)
    case Some(BuyBelowMinQty) => Reject(MinOrderQtyNotMet)
    case Some(SellBelowMinQty) => Reject(if OddLotContext(rule, p) then OddLotRuleViolation else MinOrderQtyNotMet)
    case None => Reject(NonActionableOrderPlan)
  }

  predicate TrueReduction(position: Option<Position>, p: Plan) {
    var qty := if position.Some? then position.value.qty else 0.0;
    var sellable := if position.Some? then position.value.sellableQty else 0.0;
    p.side == Some(Sell) && qty > 0.0 && p.qty <= sellable && MaxReal(qty - p.qty, 0.0) < qty
  }

  function CheckControlState(c: Context, p: Plan): Option<Reason> {
    if !Protective(c.control) || TrueReduction(c.position, p) then None
    else Some(if c.control == KillSwitch then KillSwitchReduceOnly else ProtectionModeReduceOnly)
  }

  function RoundHalfEven(x: real): int {
    var f := x.Floor;
    var fraction := x - f as real;
    if fraction < 0.5 then f
    else if fraction > 0.5 then f + 1
    else if f % 2 == 0 then f else f + 1
  }

  predicate IsMultiple(value: real, step: real) {
    step > 0.0 && RoundHalfEven(value / step) as real * step == value
  }

  function CheckQuantityRules(rule: SymbolRule, p: Plan): Option<Reason> {
    if p.side.None? || p.qty <= 0.0 then Some(OrderQtyInvalid)
    else if !IsMultiple(p.qty, rule.qtyStep) then Some(QtyStepViolation)
    else if p.side == Some(Buy) then
      if p.qty < rule.minQty then Some(MinOrderQtyNotMet) else None
    else if p.qty > p.currentSellable then Some(SellableExceeded)
    else if OddLotContext(rule, p) then
      if !p.oddLotSell then Some(OddLotRuleViolation) else None
    else if p.qty < rule.minQty then Some(MinOrderQtyNotMet)
    else None
  }

  function CheckPriceRules(c: Context, rule: SymbolRule, market: MarketState, decisionPrice: real): Option<Reason> {
    if c.orderType == Limit && (c.price.None? || c.price.value <= 0.0) then Some(LimitPriceRequired)
    else if c.orderType == Limit && !IsMultiple(c.price.value, rule.priceTick) then Some(PriceTickViolation)
    else
      var reference := if c.orderType == Limit then c.price.value else decisionPrice;
      if market.lowerLimit <= reference <= market.upperLimit then None else Some(PriceLimitExceeded)
  }

  /** A recent active intent of another signal that asks for the same order. */
  predicate Duplicates(existing: OrderIntent, c: Context, p: Plan) {
    && existing.signalId != c.signal.id
    && existing.symbol == c.signal.symbol
    && p.side == Some(existing.side)
    && existing.orderType == c.orderType
    && existing.qty == p.qty
    && existing.price == c.price
    && Some(existing.decisionPrice) == c.decisionPrice
    && existing.reduceOnly == p.reduceOnly
  }

  predicate HasDuplicate(c: Context, p: Plan) {
    p.side.Some? && exists i :: 0 <= i < |c.recentIntents| && Duplicates(c.recentIntents[i], c, p)
  }

  function ResultingQty(p: Plan): real {
    MaxReal(if p.side == Some(Buy) then p.currentQty + p.qty else p.currentQty - p.qty, 0.0)
  }

  function NotionalAt(qty: real, price: real): real { qty * price }

  function ResultingNotional(p: Plan, price: real): real { NotionalAt(ResultingQty(p), price) }

  /** The value the gate gives to another symbol's position: mark, or else entry price. */
  function ReferencePrice(p: Position): Option<real> {
    if p.markPrice.Some? then p.markPrice else p.avgEntryPrice
  }

  function PositionNotional(p: Position): real
    requires ReferencePrice(p).Some?
  {
    p.qty * ReferencePrice(p).value
  }

  /** Open notional if the order fills: the traded symbol at its resulting notional, every
      other position at its reference price. None when one of those has no price. */
  function OpenNotional(positions: seq<Position>, symbol: Symbol, resulting: real): Option<real> {
    if positions == [] then Some(0.0)
    else
      var p := positions[|positions| - 1];
      var before := OpenNotional(positions[..|positions| - 1], symbol, resulting);
      if before.None? then None
      else if p.qty <= 0.0 then before
      else if p.symbol == symbol then Some(before.value + resulting)
      else if ReferencePrice(p).None? then None
      else Some(before.value + PositionNotional(p))
  }

  predicate SymbolSeen(positions: seq<Position>, symbol: Symbol) {
    exists i :: 0 <= i < |positions| && positions[i].qty > 0.0 && positions[i].symbol == symbol
  }

  /** The account's open notional, the traded symbol counted even if not yet held. */
  function TotalNotional(positions: seq<Position>, symbol: Symbol, resulting: real): Option<real> {
    var open := OpenNotional(positions, symbol, resulting);
    if open.None? then None
    else Some(open.value + if SymbolSeen(positions, symbol) then 0.0 else resulting)
  }

  function NotionalLimits(c: Context, policy: Policy, p: Plan, decisionPrice: real): Option<Reason> {
    if p.side.None? then None
    else
      var resulting := ResultingNotional(p, decisionPrice);
      if resulting > policy.maxSingleNotional then Some(MaxPositionExceeded)
      else
        var total := TotalNotional(c.openPositions, c.signal.symbol, resulting);
        if total.None? then Some(PositionReferencePriceMissing)
        else if total.value > policy.maxTotalNotional then Some(MaxOpenNotionalExceeded)
        else None
  }

  // -------------------------------------------------------- the checks that loop

  method CheckDuplicates(c: Context, p: Plan) returns (r: Option<Reason>)
    ensures r == if HasDuplicate(c, p) then Some(DuplicateOrderIntent) else None
  {
    if p.side.None? {
      return None;
    }
    for k := 0 to |c.recentIntents|
      invariant forall i :: 0 <= i < k ==> !Duplicates(c.recentIntents[i], c, p)
    {
      var existing := c.recentIntents[k];
      if existing.signalId == c.signal.id { continue; }
      if existing.symbol != c.signal.symbol { continue; }
      if Some(existing.side) != p.side { continue; }
      if existing.orderType != c.orderType { continue; }
      if existing.qty != p.qty { continue; }
      if existing.price != c.price { continue; }
      if Some(existing.decisionPrice) != c.decisionPrice { continue; }
      if existing.reduceOnly != p.reduceOnly { continue; }
      return Some(DuplicateOrderIntent);
    }
    return None;
  }

  method SumOpenNotional(positions: seq<Position>, symbol: Symbol, resultingQty: real, resulting: real)
    returns (total: Option<real>)
    requires resultingQty > 0.0 || resulting == 0.0
    ensures total == TotalNotional(positions, symbol, resulting)
  {
    var accountNotional, seen := 0.0, false;
    for k := 0 to |positions|
      invariant var open := OpenNotional(positions[..k], symbol, resulting);
        open.Some? && open.value == accountNotional
      invariant seen == SymbolSeen(positions[..k], symbol)
    {
      var position := positions[k];
      assert positions[..k + 1] == positions[..k] + [position];
      OpenNotionalGrows(positions[..k], position, symbol, resulting);
      SeenGrows(positions[..k], position, symbol);
      if position.qty <= 0.0 { continue; }
      if position.symbol == symbol {
        seen := true;
        if resultingQty > 0.0 {
          accountNotional := accountNotional + resulting;
        }
        continue;
      }
      if ReferencePrice(position).None? {
        MissingPriceStays(positions, symbol, resulting, k + 1);
        return None;
      }
      accountNotional := accountNotional + PositionNotional(position);
    }
    assert positions[..|positions|] == positions;
    if !seen && resultingQty > 0.0 {
      accountNotional := accountNotional + resulting;
    }
    return Some(accountNotional);
  }

  method CheckNotionalLimits(c: Context, policy: Policy, p: Plan, decisionPrice: real) returns (r: Option<Reason>)
    ensures r == NotionalLimits(c, policy, p, decisionPrice)
  {
    if p.side.None? {
      return None;
    }
    var resulting := ResultingNotional(p, decisionPrice);
    if resulting > policy.maxSingleNotional {
      return Some(MaxPositionExceeded);
    }
    var total := SumOpenNotional(c.openPositions, c.signal.symbol, ResultingQty(p), resulting);
    if total.None? {
      return Some(PositionReferencePriceMissing);
    }
    return if total.value > policy.maxTotalNotional then Some(MaxOpenNotionalExceeded) else None;
  }

  lemma {:induction false} OpenNotionalGrows(positions: seq<Position>, p: Position, symbol: Symbol, resulting: real)
    ensures
      var before, after := OpenNotional(positions, symbol, resulting), OpenNotional(positions + [p], symbol, resulting);
      after == if before.None? || p.qty <= 0.0 then before
               else if p.symbol == symbol then Some(before.value + resulting)
               else if ReferencePrice(p).None? then None
               else Some(before.value + PositionNotional(p))
  {
    assert (positions + [p])[..|positions|] == positions;
  }

  lemma {:induction false} SeenGrows(positions: seq<Position>, p: Position, symbol: Symbol)
    ensures SymbolSeen(positions + [p], symbol) ==
      (SymbolSeen(positions, symbol) || (p.qty > 0.0 && p.symbol == symbol))
  {
    assert (positions + [p])[|positions|] == p;
    if SymbolSeen(positions, symbol) {
      var i :| 0 <= i < |positions| && positions[i].qty > 0.0 && positions[i].symbol == symbol;
      assert (positions + [p])[i] == positions[i];
    }
  }

  lemma {:induction false} MissingPriceStays(positions: seq<Position>, symbol: Symbol, resulting: real, k: nat)
    requires k <= |positions| && OpenNotional(positions[..k], symbol, resulting).None?
    ensures OpenNotional(positions, symbol, resulting).None?
    decreases |positions| - k
  {
    if k == |positions| {
      assert positions[..k] == positions;
    } else {
      assert positions[..k + 1][..k] == positions[..k];
      MissingPriceStays(positions, symbol, resulting, k + 1);
    }
  }

  // ---------------------------------------------------------------- the verdict

  function MarketStale(c: Context, policy: Policy): bool {
    var twice := WholeSeconds(2 * c.signal.timeframe);
    var threshold := if twice >= policy.staleThreshold then twice else policy.staleThreshold;
    var age := if c.receivedAt > c.signal.eventTime then WholeSeconds(c.receivedAt - c.signal.eventTime) else 0;
    age > threshold
  }

  function FirstReason(a: Option<Reason>, b: Option<Reason>): Option<Reason> {
    if a.Some? then a else b
  }

  /** The checks of an actionable plan, in the gate's order. */
  function RefuseActionable(c: Context, policy: Policy, p: Plan, rule: SymbolRule, market: MarketState, price: real)
      : Option<Reason>
  {
    FirstReason(CheckControlState(c, p),
    FirstReason(CheckQuantityRules(rule, p),
    FirstReason(CheckPriceRules(c, rule, market, price),
    FirstReason(if p.qty * price < policy.minOrderNotional then Some(MinOrderNotionalNotMet) else None,
    FirstReason(if HasDuplicate(c, p) then Some(DuplicateOrderIntent) else None,
                NotionalLimits(c, policy, p, price))))))
  }

  function Evaluate(c: Context, policy: Policy): Decision {
    if c.decisionPrice.None? || c.decisionPrice.value <= 0.0 then Reject(InvalidDecisionPrice)
    else if c.rule.None? then Reject(SymbolRuleMissing)
    else if c.plan.Some? && !Actionable(c.plan.value) then DecideNonActionable(c.rule.value, c.plan.value)
    else if c.market.None? then
      Reject(if c.orderType == Limit then LimitRequiresMarketState else MarketStateRequired)
    else if MarketStale(c, policy) then Reject(MarketDataStale)
    else if !c.market.value.active then Reject(SecuritySuspended)
    else if !c.market.value.continuousAuction then Reject(TradingSessionUnsupported)
    else if c.plan.None? then Reject(OrderPlanMissing)
    else
      var refusal := RefuseActionable(c, policy, c.plan.value, c.rule.value, c.market.value, c.decisionPrice.value);
      if refusal.Some? then Reject(refusal.value) else Allow(Allowed)
  }

  /** The gate as it runs: one check after the other, the first refusal decides. */
  method EvaluateOrder(c: Context, policy: Policy) returns (decision: Decision)
    ensures decision == Evaluate(c, policy)
  {
    if c.decisionPrice.None? || c.decisionPrice.value <= 0.0 {
      return Reject(InvalidDecisionPrice);
    }
    if c.rule.None? {
      return Reject(SymbolRuleMissing);
    }
    if c.plan.Some? && !Actionable(c.plan.value) {
      return DecideNonActionable(c.rule.value, c.plan.value);
    }
    if c.market.None? {
      return Reject(if c.orderType == Limit then LimitRequiresMarketState else MarketStateRequired);
    }
    if MarketStale(c, policy) {
      return Reject(MarketDataStale);
    }
    if !c.market.value.active {
      return Reject(SecuritySuspended);
    }
    if !c.market.value.continuousAuction {
      return Reject(TradingSessionUnsupported);
    }
    if c.plan.None? {
      return Reject(OrderPlanMissing);
    }
    var p, rule, price := c.plan.value, c.rule.value, c.decisionPrice.value;
    var refusal := CheckControlState(c, p);
    if refusal.Some? {
      return Reject(refusal.value);
    }
    refusal := CheckQuantityRules(rule, p);
    if refusal.Some? {
      return Reject(refusal.value);
    }
    refusal := CheckPriceRules(c, rule, c.market.value, price);
    if refusal.Some? {
      return Reject(refusal.value);
    }
    if p.qty * price < policy.minOrderNotional {
      return Reject(MinOrderNotionalNotMet);
    }
    refusal := CheckDuplicates(c, p);
    if refusal.Some? {
      return Reject(refusal.value);
    }
    refusal := CheckNotionalLimits(c, policy, p, price);
    if refusal.Some? {
      return Reject(refusal.value);
    }
    return Allow(Allowed);
  }

  // ------------------------------------------------------------- what it ensures

  /** The step test is exact: it holds of whole multiples only. */
  lemma {:induction false} MultipleIsWhole(value: real, step: real)
    requires step > 0.0
    ensures IsMultiple(value, step) <==> (value / step).Floor as real * step == value
  {
    var q := value / step;
    assert q * step == value;
    ScalingKeepsOrder(RoundHalfEven(q) as real, q, step);
    ScalingKeepsOrder(q.Floor as real, q, step);
  }

  /** What an order must satisfy to pass, written out without the order of the checks. */
  ghost predicate Admissible(c: Context, policy: Policy) {
    && c.decisionPrice.Some? && c.decisionPrice.value > 0.0
    && c.rule.Some? && c.market.Some? && c.plan.Some? && Actionable(c.plan.value)
    && !MarketStale(c, policy) && c.market.value.active && c.market.value.continuousAuction
    && (Protective(c.control) ==> TrueReduction(c.position, c.plan.value))
    && QuantityFits(c.rule.value, c.plan.value)
    && PriceFits(c, c.rule.value, c.market.value, c.decisionPrice.value)
    && c.plan.value.qty * c.decisionPrice.value >= policy.minOrderNotional
    && (forall i :: 0 <= i < |c.recentIntents| ==> !Duplicates(c.recentIntents[i], c, c.plan.value))
    && (var resulting := ResultingNotional(c.plan.value, c.decisionPrice.value);
        var total := TotalNotional(c.openPositions, c.signal.symbol, resulting);
        resulting <= policy.maxSingleNotional && total.Some? && total.value <= policy.maxTotalNotional)
  }

  /** A whole number of steps; a sell within what is sellable, and either the whole odd lot
      or, like a buy, at least the minimum. */
  ghost predicate QuantityFits(rule: SymbolRule, p: Plan) {
    && IsMultiple(p.qty, rule.qtyStep)
    && (p.side == Some(Sell) ==> p.qty <= p.currentSellable)
    && (if p.side == Some(Sell) && OddLotContext(rule, p) then p.oddLotSell else p.qty >= rule.minQty)
  }

  ghost predicate PriceFits(c: Context, rule: SymbolRule, market: MarketState, decisionPrice: real) {
    && (c.orderType == Limit ==> c.price.Some? && c.price.value > 0.0 && IsMultiple(c.price.value, rule.priceTick))
    && market.lowerLimit <= (if c.orderType == Limit then c.price.value else decisionPrice) <= market.upperLimit
  }

  lemma {:induction false} QuantityRulesAreExact(rule: SymbolRule, p: Plan)
    requires Actionable(p)
    ensures CheckQuantityRules(rule, p).None? <==> QuantityFits(rule, p)
  {
    match p.side.value {
      case Buy =>
      case Sell =>
    }
  }

  lemma {:induction false} PriceRulesAreExact(c: Context, rule: SymbolRule, market: MarketState, price: real)
    ensures CheckPriceRules(c, rule, market, price).None? <==> PriceFits(c, rule, market, price)
  {
  }

  /** The gate is exact: it lets an order pass if and only if the order is admissible. */
  lemma {:induction false} GateIsExact(c: Context, policy: Policy)
    ensures Evaluate(c, policy) == Allow(Allowed) <==> Admissible(c, policy)
  {
    if c.plan.Some? && c.rule.Some? && c.market.Some? && c.decisionPrice.Some? && Actionable(c.plan.value) {
      QuantityRulesAreExact(c.rule.value, c.plan.value);
      PriceRulesAreExact(c, c.rule.value, c.market.value, c.decisionPrice.value);
    }
  }

  /** Less than one step is never a multiple, so the step check refuses the odd second order. */
  lemma {:induction false} SecondOrderFailsStepCheck(target: real, rule: SymbolRule, qty: real, sellable: real)
    requires ValidRule(rule) && 0.0 <= sellable <= qty
    requires Actionable(BuildPlan(target, rule, qty, sellable))
    ensures
      var second := Replan(BuildPlan(target, rule, qty, sellable), rule);
      Actionable(second) ==> CheckQuantityRules(rule, second) == Some(QtyStepViolation)
  {
    var second := Replan(BuildPlan(target, rule, qty, sellable), rule);
    if Actionable(second) {
      SecondOrderIsOddRemainder(target, rule, qty, sellable);
      MultipleIsWhole(second.qty, rule.qtyStep);
      BelowOneStep(second.qty, rule.qtyStep);
    }
  }

  /** Of one target on one date the gate admits at most one order: once the first one is
      filled, no context that carries the next plan gets an order through. */
  lemma {:induction false} GateAdmitsOneOrderPerTarget(target: real, rule: SymbolRule, qty: real, sellable: real,
                                                       c: Context, policy: Policy)
    requires ValidRule(rule) && 0.0 <= sellable <= qty
    requires Actionable(BuildPlan(target, rule, qty, sellable))
    requires c.rule == Some(rule) && c.plan == Some(Replan(BuildPlan(target, rule, qty, sellable), rule))
    ensures Evaluate(c, policy) != Allow(Allowed)
  {
    SecondOrderFailsStepCheck(target, rule, qty, sellable);
  }

  /** Under a protective state an admitted plan is a sell that strictly reduces the position. */
  lemma {:induction false} ProtectiveAdmitsOnlyReductions(c: Context, policy: Policy)
    requires Protective(c.control) && Evaluate(c, policy) == Allow(Allowed)
    ensures c.plan.Some? && c.position.Some? && Actionable(c.plan.value)
    ensures c.plan.value.side == Some(Sell)
    ensures 0.0 < c.plan.value.qty <= c.position.value.sellableQty
  {
  }
}
