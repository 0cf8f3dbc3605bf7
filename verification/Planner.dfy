/** From a target position to one executable order. */
module Planner {
  import opened Prelude
  import opened Execution

  datatype SymbolRule = SymbolRule(
    lotSize: real,
    qtyStep: real,
    priceTick: real,
    minQty: real,
    allowOddLotSell: bool)

  predicate ValidRule(r: SymbolRule) {
    && r.lotSize > 0.0 && r.qtyStep > 0.0 && r.priceTick > 0.0 && r.minQty >= r.lotSize
    && (r.minQty / r.qtyStep).Floor as real * r.qtyStep == r.minQty
    && (r.lotSize / r.qtyStep).Floor as real * r.qtyStep == r.lotSize
  }

  datatype SkipReason =
    | TargetAlreadySatisfied
    | BuyBelowMinQty
    | SellableExhausted
    | SellBelowMinQty

  datatype Plan = Plan(
    side: Option<Side>,
    qty: real,
    targetPosition: real,
    currentQty: real,
    currentSellable: real,
    rawDelta: real,
    reduceOnly: bool,
    oddLotSell: bool,
    skip: Option<SkipReason>)

  predicate Actionable(p: Plan) { p.side.Some? && p.qty > 0.0 && p.skip.None? }

  /** Rounds down to a whole number of steps. */
  function FloorToStep(value: real, step: real): (r: real)
    requires step > 0.0
    ensures value >= 0.0 ==> r <= value < r + step
    ensures r >= 0.0
  {
    if value <= 0.0 then 0.0
    else
      FloorTimesStep(value, step);
      (value / step).Floor as real * step
  }

  lemma {:induction false} FloorTimesStep(value: real, step: real)
    requires value > 0.0 && step > 0.0
    ensures var k := (value / step).Floor as real; 0.0 <= k * step <= value < k * step + step
  {
    var q := value / step;
    assert value == q * step;
    StepBracket(q.Floor as real, q, step, value);
  }

  lemma {:induction false} StepBracket(k: real, q: real, step: real, value: real)
    requires k <= q < k + 1.0 && 0.0 <= k && step > 0.0 && value == q * step
    ensures 0.0 <= k * step <= value < k * step + step
  {
    var rest := k + 1.0 - q;
    assert rest * step > 0.0 && rest * step == (k + 1.0) * step - q * step;
    assert (q - k) * step >= 0.0;
  }

  function Skip(target: real, qty: real, sellable: real, reduceOnly: bool, reason: SkipReason): Plan {
    Plan(None, 0.0, target, qty, sellable, target - qty, reduceOnly, false, Some(reason))
  }

  predicate IsOddLot(rule: SymbolRule, sellable: real, desired: real) {
    0.0 < sellable < rule.lotSize && rule.allowOddLotSell && desired >= sellable
  }

  /** Sizes the order that moves the position towards its target. */
  function BuildPlan(target: real, rule: SymbolRule, qty: real, sellable: real): Plan
    requires rule.qtyStep > 0.0
  {
    var delta := target - qty;
    if delta == 0.0 then Skip(target, qty, sellable, false, TargetAlreadySatisfied)
    else if delta > 0.0 then
      var size := FloorToStep(delta, rule.qtyStep);
      if size < rule.minQty then Skip(target, qty, sellable, false, BuyBelowMinQty)
      else Plan(Some(Buy), size, target, qty, sellable, delta, false, false, None)
    else
      var desired := MinReal(-delta, sellable);
      if desired <= 0.0 then Skip(target, qty, sellable, true, SellableExhausted)
      else if IsOddLot(rule, sellable, desired) then
        Plan(Some(Sell), sellable, target, qty, sellable, delta, true, true, None)
      else
        var size := FloorToStep(desired, rule.qtyStep);
        if size < rule.minQty then Skip(target, qty, sellable, true, SellBelowMinQty)
        else Plan(Some(Sell), size, target, qty, sellable, delta, true, false, None)
  }

  /** A plan never trades past the target nor past what is sellable. */
  lemma {:induction false} PlanStaysWithinTarget(target: real, rule: SymbolRule, qty: real, sellable: real)
    requires ValidRule(rule) && 0.0 <= sellable <= qty && Actionable(BuildPlan(target, rule, qty, sellable))
    ensures
      var p := BuildPlan(target, rule, qty, sellable);
      && (p.side == Some(Buy) ==> qty + p.qty <= target && p.qty >= rule.minQty && !p.reduceOnly)
      && (p.side == Some(Sell) ==> qty - p.qty >= target && p.qty <= sellable && p.reduceOnly)
      && (p.side == Some(Sell) && !p.oddLotSell ==> p.qty >= rule.minQty)
      && (p.oddLotSell ==> p.side == Some(Sell) && p.qty == sellable < rule.lotSize)
  {
  }

  predicate WholeSteps(value: real, step: real)
    requires step > 0.0
  {
    (value / step).Floor as real * step == value
  }

  lemma {:induction false} FloorIsTheLargest(value: real, step: real, q: real)
    requires step > 0.0 && 0.0 < q <= value && WholeSteps(q, step)
    ensures q <= FloorToStep(value, step)
  {
    FloorTimesStep(value, step);
    var n, m := (q / step).Floor, (value / step).Floor;
    NoStepBetween(n as real, m as real, step, value);
    StepsKeepOrder(n as real, m as real, step);
  }

  lemma {:induction false} NoStepBetween(n: real, m: real, step: real, value: real)
    requires step > 0.0 && n * step <= value < m * step + step
    ensures n < m + 1.0
  {
    var next := m + 1.0;
    assert next * step == m * step + step;
    ScalingKeepsOrder(n, next, step);
  }

  lemma {:induction false} StepsKeepOrder(n: real, m: real, step: real)
    requires step > 0.0 && n <= m
    ensures n * step <= m * step
  {
    var gap := m - n;
    assert gap * step >= 0.0;
    assert gap * step == m * step - n * step;
  }

  /** Nor does it stop short: whatever whole number of steps of at least the minimum could be
      traded towards the target, the plan trades at least as much. */
  lemma {:induction false} PlanIsTheLargest(target: real, rule: SymbolRule, qty: real, sellable: real, q: real)
    requires ValidRule(rule) && 0.0 <= sellable <= qty && rule.minQty <= q && WholeSteps(q, rule.qtyStep)
    requires if target > qty then q <= target - qty else q <= MinReal(qty - target, sellable)
    ensures
      var p := BuildPlan(target, rule, qty, sellable);
      Actionable(p) && p.qty >= q && p.side == Some(if target > qty then Buy else Sell)
  {
    if target > qty {
      FloorIsTheLargest(target - qty, rule.qtyStep, q);
    } else {
      FloorIsTheLargest(MinReal(qty - target, sellable), rule.qtyStep, q);
    }
  }

  /** The quantities after a plan has filled on the same trade date: shares bought stay locked. */
  function AfterFill(p: Plan): (real, real) {
    if p.side == Some(Buy) then (p.currentQty + p.qty, p.currentSellable)
    else if p.side == Some(Sell) then (p.currentQty - p.qty, p.currentSellable - p.qty)
    else (p.currentQty, p.currentSellable)
  }

  function Replan(p: Plan, rule: SymbolRule): Plan
    requires rule.qtyStep > 0.0
  {
    BuildPlan(p.targetPosition, rule, AfterFill(p).0, AfterFill(p).1)
  }

  /** After an order the gap left to trade is less than one step, or the sellable shares are gone. */
  predicate NearlyThere(target: real, rule: SymbolRule, qty: real, sellable: real) {
    && 0.0 <= sellable <= qty
    && target - qty < rule.qtyStep
    && (target < qty ==> MinReal(qty - target, sellable) < rule.qtyStep)
  }

  lemma {:induction false} OrderLeavesSmallGap(target: real, rule: SymbolRule, qty: real, sellable: real)
    requires ValidRule(rule) && 0.0 <= sellable <= qty
    requires Actionable(BuildPlan(target, rule, qty, sellable))
    ensures
      var after := AfterFill(BuildPlan(target, rule, qty, sellable));
      NearlyThere(target, rule, after.0, after.1)
  {
  }

  lemma {:induction false} SmallGapLeavesOddLot(target: real, rule: SymbolRule, qty: real, sellable: real)
    requires ValidRule(rule) && NearlyThere(target, rule, qty, sellable)
    ensures
      var p := BuildPlan(target, rule, qty, sellable);
      Actionable(p) ==> p.side == Some(Sell) && p.oddLotSell && p.qty == sellable < rule.qtyStep
  {
    var desired := MinReal(qty - target, sellable);
    if target > qty { BelowOneStep(target - qty, rule.qtyStep); }
    if target < qty { BelowOneStep(desired, rule.qtyStep); }
  }

  lemma {:induction false} BelowOneStep(value: real, step: real)
    requires value < step && step > 0.0
    ensures FloorToStep(value, step) == 0.0
  {
    if value > 0.0 {
      assert value == (value / step) * step;
      QuotientBelowOne(value / step, step, value);
    }
  }

  lemma {:induction false} QuotientBelowOne(q: real, step: real, value: real)
    requires 0.0 < value < step && value == q * step
    ensures q.Floor == 0
  {
    ScalingKeepsOrder(q, 1.0, step);
    ScalingKeepsOrder(0.0, q, step);
    assert 0.0 < q < 1.0;
  }

  /** A second order is always the odd remainder of the first: a sell of less than one step. */
  lemma {:induction false} SecondOrderIsOddRemainder(target: real, rule: SymbolRule, qty: real, sellable: real)
    requires ValidRule(rule) && 0.0 <= sellable <= qty
    requires Actionable(BuildPlan(target, rule, qty, sellable))
    requires Actionable(Replan(BuildPlan(target, rule, qty, sellable), rule))
    ensures
      var second := Replan(BuildPlan(target, rule, qty, sellable), rule);
      second.side == Some(Sell) && second.oddLotSell && 0.0 < second.qty < rule.qtyStep
      && second.qty == second.currentSellable
  {
    OrderLeavesSmallGap(target, rule, qty, sellable);
    var after := AfterFill(BuildPlan(target, rule, qty, sellable));
    SmallGapLeavesOddLot(target, rule, after.0, after.1);
  }

  /** Skipping changes nothing, so the same target is skipped again. */
  lemma {:induction false} SkippedStaysSkipped(target: real, rule: SymbolRule, qty: real, sellable: real)
    requires ValidRule(rule) && 0.0 <= sellable <= qty && !Actionable(BuildPlan(target, rule, qty, sellable))
    ensures Replan(BuildPlan(target, rule, qty, sellable), rule) == BuildPlan(target, rule, qty, sellable)
  {
  }

  /** With the sellable shares gone and nothing left to buy, there is no order. */
  lemma {:induction false} SoldOutStops(target: real, rule: SymbolRule, qty: real)
    requires ValidRule(rule) && target < qty
    ensures !Actionable(BuildPlan(target, rule, qty, 0.0))
  {
  }

  lemma {:induction false} ThirdIsSkipped(target: real, rule: SymbolRule, qty: real, sellable: real)
    requires ValidRule(rule) && 0.0 <= sellable <= qty
    requires
      var p := BuildPlan(target, rule, qty, sellable);
      Actionable(p) && p.side == Some(Sell) && p.qty == sellable
    ensures !Actionable(Replan(BuildPlan(target, rule, qty, sellable), rule))
  {
    PlanStaysWithinTarget(target, rule, qty, sellable);
    if qty - sellable > target { SoldOutStops(target, rule, qty - sellable); }
  }

  /** Convergence: replanning one target on one trade date, filling every order,
      gives at most two orders. */
  lemma {:induction false} ReplanningStops(target: real, rule: SymbolRule, qty: real, sellable: real)
    requires ValidRule(rule) && 0.0 <= sellable <= qty
    ensures !Actionable(Replan(Replan(BuildPlan(target, rule, qty, sellable), rule), rule))
  {
    var first := BuildPlan(target, rule, qty, sellable);
    var second := Replan(first, rule);
    if !Actionable(first) {
      SkippedStaysSkipped(target, rule, qty, sellable);
    } else {
      PlanStaysWithinTarget(target, rule, qty, sellable);
      var after := AfterFill(first);
      if Actionable(second) {
        SecondOrderIsOddRemainder(target, rule, qty, sellable);
        ThirdIsSkipped(target, rule, after.0, after.1);
      } else {
        SkippedStaysSkipped(target, rule, after.0, after.1);
      }
    }
  }

  // ------------------------------------------------------------- skips and odd lots

  /** A quantity is worth at least the minimum before rounding down exactly when it is after. */
  lemma {:induction false} MinimumSurvivesRounding(value: real, rule: SymbolRule)
    requires ValidRule(rule)
    ensures FloorToStep(value, rule.qtyStep) < rule.minQty <==> value < rule.minQty
  {
    if rule.minQty <= value { FloorIsTheLargest(value, rule.qtyStep, rule.minQty); }
  }

  /** All that may be sold is less than a lot, and no more than is wanted. */
  predicate OddLotWanted(target: real, rule: SymbolRule, qty: real, sellable: real) {
    0.0 < sellable < rule.lotSize && sellable <= qty - target
  }

  /** When there is no order, and why. */
  lemma {:induction false} SkipIsExact(target: real, rule: SymbolRule, qty: real, sellable: real)
    requires ValidRule(rule) && 0.0 <= sellable <= qty
    ensures
      BuildPlan(target, rule, qty, sellable).skip
      == if target == qty then Some(TargetAlreadySatisfied)
         else if target > qty then if target - qty < rule.minQty then Some(BuyBelowMinQty) else None
         else if sellable == 0.0 then Some(SellableExhausted)
         else if rule.allowOddLotSell && OddLotWanted(target, rule, qty, sellable) then None
         else if MinReal(qty - target, sellable) < rule.minQty then Some(SellBelowMinQty)
         else None
    ensures Actionable(BuildPlan(target, rule, qty, sellable)) <==> BuildPlan(target, rule, qty, sellable).skip.None?
  {
    MinimumSurvivesRounding(target - qty, rule);
    MinimumSurvivesRounding(MinReal(qty - target, sellable), rule);
  }

  /** Less than a lot is sold whole, in one order, exactly when the rule allows it and all of it is
      to go; otherwise it is not sold at all. */
  lemma {:induction false} OddLotIsSoldWhole(target: real, rule: SymbolRule, qty: real, sellable: real)
    requires ValidRule(rule) && 0.0 < sellable <= qty && sellable < rule.lotSize && target < qty
    ensures
      var p := BuildPlan(target, rule, qty, sellable);
      && (Actionable(p) <==> rule.allowOddLotSell && sellable <= qty - target)
      && (Actionable(p) ==> p.side == Some(Sell) && p.qty == sellable && p.oddLotSell)
  {
    SkipIsExact(target, rule, qty, sellable);
  }
}
