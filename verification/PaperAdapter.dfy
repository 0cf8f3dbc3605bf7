/** The paper venue: one order in, a report of order updates and fill events out. */
module PaperAdapter {
  import opened Prelude
  import opened Execution
  import opened Costs
  import opened Ledger

  datatype FillSlice = FillSlice(qty: real, price: Option<real>)
  datatype Scenario = Scenario(slices: seq<FillSlice>, cancelRemaining: bool, rejected: bool)
  datatype ExecutionReport = ExecutionReport(updates: seq<OrderUpdate>, fills: seq<FillEvent>)
  datatype AdapterError = NonPositiveSlice | SlicesExceedOrder | NonPositivePrice

  const EmptyReport := ExecutionReport([], [])

  // ------------------------------------------------- reference definitions
  // A report is determined by the running totals of its slices.

  /** A slice without a price, or with a zero one, takes the default price. */
  function SlicePrice(s: FillSlice, default: real): real {
    if s.price.Some? && s.price.value != 0.0 then s.price.value else default
  }

  function SliceNotional(s: FillSlice, default: real): real { s.qty * SlicePrice(s, default) }

  function CumQty(slices: seq<FillSlice>, n: nat): real
    requires n <= |slices|
  {
    if n == 0 then 0.0 else CumQty(slices, n - 1) + slices[n - 1].qty
  }

  function CumNotional(slices: seq<FillSlice>, default: real, n: nat): real
    requires n <= |slices|
  {
    if n == 0 then 0.0
    else CumNotional(slices, default, n - 1) + SliceNotional(slices[n - 1], default)
  }

  /** What makes the adapter raise at slice i. */
  function SliceError(slices: seq<FillSlice>, qty: real, default: real, i: nat): Option<AdapterError>
    requires i < |slices|
  {
    if slices[i].qty <= 0.0 then Some(NonPositiveSlice)
    else if CumQty(slices, i + 1) > qty then Some(SlicesExceedOrder)
    else if SlicePrice(slices[i], default) <= 0.0 then Some(NonPositivePrice)
    else None
  }

  /** The first such error among the first n slices. */
  function FirstError(slices: seq<FillSlice>, qty: real, default: real, n: nat): (e: Option<AdapterError>)
    requires n <= |slices|
    ensures e.None? <==> forall i :: 0 <= i < n ==> SliceError(slices, qty, default, i).None?
  {
    if n == 0 then None
    else
      var earlier := FirstError(slices, qty, default, n - 1);
      if earlier.Some? then earlier else SliceError(slices, qty, default, n - 1)
  }

  predicate Acceptable(slices: seq<FillSlice>, qty: real, default: real) {
    forall i :: 0 <= i < |slices| ==> SliceError(slices, qty, default, i).None?
  }

  /** What the venue charges for a slice. */
  function BuildCostBreakdown(m: CostModel, side: Side, qty: real, price: real): (c: CostBreakdown)
    requires ValidCostModel(m) && qty > 0.0 && price > 0.0
    ensures qty * price > 0.0 && c.totalFee == TotalFee(m, side, qty * price) && Settles(c, side)
    ensures c.currency == CNY && c.grossNotional == qty * price
  {
    var gross := qty * price;
    assert gross > 0.0;
    var commission := FeeComponent(gross, m.commission);
    var transferFee := FeeComponent(gross, m.transferFee);
    var stampDuty := if side == Sell then FeeComponent(gross, m.stampDutySell) else 0.0;
    var total := commission + transferFee + stampDuty;
    CostBreakdown(CNY, gross, commission, transferFee, stampDuty, total,
                  if side == Sell then gross - total else -(gross + total))
  }

  /** The fill event of one execution: its fee is the cost model's on the notional. */
  function FillEventFor(o: Order, m: CostModel, qty: real, price: real, index: nat, at: Time): (e: FillEvent)
    requires ValidCostModel(m) && qty > 0.0 && price > 0.0
    ensures ValidFillEvent(e) && e.cost == BuildCostBreakdown(m, o.side, qty, price)
    ensures e.fill.fillTime == e.fill.createdAt == e.eventTime == at
  {
    var cost := BuildCostBreakdown(m, o.side, qty, price);
    FillEvent(Fill(FillId(o.id, index), o.id, o.symbol, o.side, qty, price, cost.totalFee, at, at), cost, at)
  }

  function SliceEvent(o: Order, m: CostModel, slices: seq<FillSlice>, default: real, base: Time, i: nat): FillEvent
    requires ValidCostModel(m) && i < |slices| && SliceError(slices, o.qty, default, i).None?
  {
    FillEventFor(o, m, slices[i].qty, SlicePrice(slices[i], default), i + 1, base + Seconds(i + 1))
  }

  function Update(o: Order, status: OrderStatus, filledQty: real, avg: Option<real>, at: Time): OrderUpdate {
    OrderUpdate(o.id, o.intentId, o.symbol, status, filledQty, avg, at)
  }

  function Average(notional: real, qty: real): Option<real> {
    if qty == 0.0 then None else Some(notional / qty)
  }

  /** The average price of the first n slices. */
  function AveragePrice(slices: seq<FillSlice>, default: real, n: nat): Option<real>
    requires n <= |slices|
  {
    Average(CumNotional(slices, default, n), CumQty(slices, n))
  }

  function SliceUpdate(o: Order, slices: seq<FillSlice>, default: real, base: Time, i: nat): OrderUpdate
    requires i < |slices|
  {
    Update(o, if CumQty(slices, i + 1) == o.qty then Filled else PartiallyFilled,
           CumQty(slices, i + 1), AveragePrice(slices, default, i + 1), base + Seconds(i + 1))
  }

  function CancelUpdates(o: Order, slices: seq<FillSlice>, cancelRemaining: bool, default: real, base: Time)
    : seq<OrderUpdate>
  {
    var n := |slices|;
    if cancelRemaining && CumQty(slices, n) < o.qty
    then [Update(o, Canceled, CumQty(slices, n), AveragePrice(slices, default, n), base + Seconds(n + 1))]
    else []
  }

  /** The updates of the first n slices. */
  function SliceUpdates(o: Order, slices: seq<FillSlice>, default: real, base: Time, n: nat): (us: seq<OrderUpdate>)
    requires n <= |slices|
    ensures |us| == n
  {
    if n == 0 then []
    else SliceUpdates(o, slices, default, base, n - 1) + [SliceUpdate(o, slices, default, base, n - 1)]
  }

  /** The fill events of the first n slices. */
  function SliceEvents(o: Order, m: CostModel, slices: seq<FillSlice>, default: real, base: Time, n: nat)
      : (es: seq<FillEvent>)
    requires ValidCostModel(m) && n <= |slices| && FirstError(slices, o.qty, default, n).None?
    ensures |es| == n && ValidFillEvents(es)
  {
    if n == 0 then []
    else SliceEvents(o, m, slices, default, base, n - 1) + [SliceEvent(o, m, slices, default, base, n - 1)]
  }

  function RejectReport(o: Order, base: Time): ExecutionReport {
    ExecutionReport([Update(o, Rejected, 0.0, None, base)], [])
  }

  function DefaultPrice(o: Order, i: OrderIntent): real
    requires ValidOrder(o)
  {
    if o.orderType == OrderType.Market then i.decisionPrice else o.price.value
  }

  /** The acknowledgement, one update and one fill event per slice, then the cancel. */
  function PaperReport(o: Order, m: CostModel, s: Scenario, default: real, base: Time)
      : (r: Result<ExecutionReport, AdapterError>)
    requires ValidCostModel(m)
  {
    if s.rejected then Ok(RejectReport(o, base))
    else
      var error := FirstError(s.slices, o.qty, default, |s.slices|);
      if error.Some? then Error(error.value)
      else Ok(ExecutionReport(
        [Update(o, Ack, 0.0, None, base)]
          + SliceUpdates(o, s.slices, default, base, |s.slices|)
          + CancelUpdates(o, s.slices, s.cancelRemaining, default, base),
        SliceEvents(o, m, s.slices, default, base, |s.slices|)))
  }

  // -------------------------------------------------------- the adapter's loop

  datatype Expansion = Expansion(updates: seq<OrderUpdate>, fills: seq<FillEvent>, qty: real, notional: real)

  /** The slices one by one, carrying the running totals. */
  method ExpandSlices(o: Order, m: CostModel, slices: seq<FillSlice>, default: real, base: Time)
    returns (r: Result<Expansion, AdapterError>)
    requires ValidCostModel(m)
    ensures
      var error, n := FirstError(slices, o.qty, default, |slices|), |slices|;
      r == if error.Some? then Error(error.value) else
             Ok(Expansion([Update(o, Ack, 0.0, None, base)] + SliceUpdates(o, slices, default, base, n),
                          SliceEvents(o, m, slices, default, base, n), CumQty(slices, n),
                            CumNotional(slices, default, n)))
  {
    var updates := [Update(o, Ack, 0.0, None, base)];
    var fills: seq<FillEvent> := [];
    var cumulativeQty, cumulativeNotional := 0.0, 0.0;
    var eventIndex := 1;
    for k := 0 to |slices|
      invariant FirstError(slices, o.qty, default, k).None?
      invariant eventIndex == k + 1
      invariant cumulativeQty == CumQty(slices, k)
      invariant cumulativeNotional == CumNotional(slices, default, k)
      invariant updates == [Update(o, Ack, 0.0, None, base)] + SliceUpdates(o, slices, default, base, k)
      invariant fills == SliceEvents(o, m, slices, default, base, k)
    {
      var slice := slices[k];
      if slice.qty <= 0.0 {
        ErrorStops(slices, o.qty, default, k);
        return Error(NonPositiveSlice);
      }
      cumulativeQty := cumulativeQty + slice.qty;
      if cumulativeQty > o.qty {
        ErrorStops(slices, o.qty, default, k);
        return Error(SlicesExceedOrder);
      }
      var price := if slice.price.Some? && slice.price.value != 0.0 then slice.price.value else default;
      if price <= 0.0 {
        ErrorStops(slices, o.qty, default, k);
        return Error(NonPositivePrice);
      }
      var at := base + Seconds(eventIndex);
      eventIndex := eventIndex + 1;
      var traded := slice.qty * price;
      assert price == SlicePrice(slice, default) && traded == SliceNotional(slice, default);
      cumulativeNotional := cumulativeNotional + traded;
      fills := fills + [FillEventFor(o, m, slice.qty, price, k + 1, at)];
      updates := updates + [Update(o, if cumulativeQty == o.qty then Filled else PartiallyFilled,
                                   cumulativeQty, Average(cumulativeNotional, cumulativeQty), at)];
    }
    return Ok(Expansion(updates, fills, cumulativeQty, cumulativeNotional));
  }

  /** Expands a scenario into the standard report, and cancels what is left if asked to. */
  method BuildExecutionReport(o: Order, m: CostModel, s: Scenario, default: real, base: Time)
    returns (r: Result<ExecutionReport, AdapterError>)
    requires ValidCostModel(m)
    ensures r == PaperReport(o, m, s, default, base)
  {
    if s.rejected {
      return Ok(RejectReport(o, base));
    }
    var expanded := ExpandSlices(o, m, s.slices, default, base);
    if expanded.Error? {
      return Error(expanded.error);
    }
    var Expansion(updates, fills, qty, notional) := expanded.value;
    var cancels := [];
    if s.cancelRemaining && qty < o.qty {
      cancels := [Update(o, Canceled, qty, Average(notional, qty), base + Seconds(|s.slices| + 1))];
    }
    return Ok(ExecutionReport(updates + cancels, fills));
  }

  lemma {:induction false} ErrorStops(slices: seq<FillSlice>, qty: real, default: real, k: nat)
    requires k < |slices|
    requires FirstError(slices, qty, default, k).None? && SliceError(slices, qty, default, k).Some?
    ensures FirstError(slices, qty, default, |slices|) == SliceError(slices, qty, default, k)
  {
    var n := k + 1;
    while n < |slices|
      invariant k < n <= |slices|
      invariant FirstError(slices, qty, default, n) == SliceError(slices, qty, default, k)
    {
      n := n + 1;
    }
  }

  // -------------------------------------- the report refines the order lifecycle

  lemma {:induction false} TotalsArePositive(slices: seq<FillSlice>, qty: real, default: real, n: nat)
    requires n <= |slices| && Acceptable(slices, qty, default)
    ensures CumQty(slices, n) >= 0.0 && CumNotional(slices, default, n) >= 0.0
    ensures n > 0 ==> CumQty(slices, n) > 0.0 && CumNotional(slices, default, n) > 0.0
    ensures n > 0 ==> CumQty(slices, n) <= qty
  {
    if n > 0 {
      TotalsArePositive(slices, qty, default, n - 1);
      assert SliceError(slices, qty, default, n - 1).None?;
      assert SliceNotional(slices[n - 1], default) > 0.0;
    }
  }

  /** Only the last slice can complete the order. */
  lemma {:induction false} EarlierSlicesLeaveQuantity(slices: seq<FillSlice>, qty: real, default: real, n: nat)
    requires n < |slices| && Acceptable(slices, qty, default)
    ensures CumQty(slices, n) < qty
  {
    assert SliceError(slices, qty, default, n).None?;
  }

  /** The order once acknowledged and filled by the first n slices. */
  function FilledBy(o: Order, slices: seq<FillSlice>, default: real, base: Time, n: nat): Order
    requires n <= |slices|
  {
    o.(status := if n == 0 then Ack else if CumQty(slices, n) == o.qty then Filled else PartiallyFilled,
       filledQty := CumQty(slices, n),
       avgFillPrice := AveragePrice(slices, default, n),
       updatedAt := base + Seconds(n))
  }

  predicate Fresh(o: Order) {
    ValidOrder(o) && o.status == New && o.filledQty == 0.0 && o.avgFillPrice.None?
  }

  lemma {:induction false} AverageOfPositive(notional: real, qty: real)
    requires notional > 0.0 && qty > 0.0
    ensures Average(notional, qty).Some? && Average(notional, qty).value > 0.0
    ensures Average(notional, qty).value * qty == notional
  {
  }

  lemma {:induction false} FilledByIsValid(o: Order, slices: seq<FillSlice>, default: real, base: Time, n: nat)
    requires Fresh(o) && o.submittedAt <= base && n <= |slices| && Acceptable(slices, o.qty, default)
    ensures ValidOrder(FilledBy(o, slices, default, base, n))
  {
    TotalsArePositive(slices, o.qty, default, n);
    if n > 0 {
      AverageOfPositive(CumNotional(slices, default, n), CumQty(slices, n));
    }
  }

  /** Every prefix of the slice updates is accepted and leaves the running totals. */
  lemma {:induction false} SlicePrefixIsAccepted(o: Order, slices: seq<FillSlice>, default: real, base: Time, n: nat)
    requires Fresh(o) && o.submittedAt <= base && n <= |slices| && Acceptable(slices, o.qty, default)
    ensures ApplyUpdates(o, [Update(o, Ack, 0.0, None, base)] + SliceUpdates(o, slices, default, base, n))
         == Ok(FilledBy(o, slices, default, base, n))
  {
    var us := [Update(o, Ack, 0.0, None, base)] + SliceUpdates(o, slices, default, base, n);
    FilledByIsValid(o, slices, default, base, n);
    if n == 0 {
      assert us[..0] == [];
    } else {
      SlicePrefixIsAccepted(o, slices, default, base, n - 1);
      EarlierSlicesLeaveQuantity(slices, o.qty, default, n - 1);
      TotalsArePositive(slices, o.qty, default, n);
      assert us[..n] == [Update(o, Ack, 0.0, None, base)] + SliceUpdates(o, slices, default, base, n - 1);
    }
  }

  /** The final order: filled by the slice total at its average price; FILLED exactly when
      the total is the order quantity, CANCELED exactly when a remainder is cancelled. */
  function FinalOrder(o: Order, s: Scenario, default: real, base: Time): Order {
    var n := |s.slices|;
    var filled := FilledBy(o, s.slices, default, base, n);
    if s.cancelRemaining && CumQty(s.slices, n) < o.qty
    then filled.(status := Canceled, updatedAt := base + Seconds(n + 1))
    else filled
  }

  lemma {:induction false} ReportIsAccepted(o: Order, s: Scenario, default: real, base: Time)
    requires Fresh(o) && o.submittedAt <= base && Acceptable(s.slices, o.qty, default)
    ensures
      var us := [Update(o, Ack, 0.0, None, base)] + SliceUpdates(o, s.slices, default, base, |s.slices|)
                + CancelUpdates(o, s.slices, s.cancelRemaining, default, base);
      ApplyUpdates(o, us) == Ok(FinalOrder(o, s, default, base)) && ValidOrder(FinalOrder(o, s, default, base))
  {
    var n := |s.slices|;
    SlicePrefixIsAccepted(o, s.slices, default, base, n);
    FilledByIsValid(o, s.slices, default, base, n);
    TotalsArePositive(s.slices, o.qty, default, n);
    var us := [Update(o, Ack, 0.0, None, base)] + SliceUpdates(o, s.slices, default, base, n);
    var cancels := CancelUpdates(o, s.slices, s.cancelRemaining, default, base);
    if cancels == [] {
      assert us + cancels == us;
    } else {
      assert (us + cancels)[..n + 1] == us;
    }
  }

  /** The final order carries the slice total, its average price and the right status. */
  lemma {:induction false} FinalOrderTellsTotals(o: Order, s: Scenario, default: real, base: Time)
    requires o.qty > 0.0 && Acceptable(s.slices, o.qty, default)
    ensures
      var final, n := FinalOrder(o, s, default, base), |s.slices|;
      && final.filledQty == CumQty(s.slices, n)
      && (n == 0 <==> final.avgFillPrice.None?)
      && (n > 0 ==> final.avgFillPrice.value * final.filledQty == CumNotional(s.slices, default, n))
      && (final.status == Filled <==> CumQty(s.slices, n) == o.qty)
      && (final.status == Canceled <==> s.cancelRemaining && CumQty(s.slices, n) < o.qty)
      && (final.status == Ack <==> n == 0 && !s.cancelRemaining)
  {
    var n := |s.slices|;
    TotalsArePositive(s.slices, o.qty, default, n);
    if n > 0 { AverageOfPositive(CumNotional(s.slices, default, n), CumQty(s.slices, n)); }
  }

  /** Adapter/order refinement: a scenario within the order is reported without error,
      and every update reported is accepted by the order lifecycle in turn. */
  lemma {:induction false} ReportRefinesLifecycle(o: Order, m: CostModel, s: Scenario, default: real, base: Time)
    requires Fresh(o) && o.submittedAt <= base && ValidCostModel(m) && !s.rejected
    ensures PaperReport(o, m, s, default, base).Ok? <==> Acceptable(s.slices, o.qty, default)
    ensures Acceptable(s.slices, o.qty, default) ==>
      && ApplyUpdates(o, PaperReport(o, m, s, default, base).value.updates) == Ok(FinalOrder(o, s, default, base))
      && ValidOrder(FinalOrder(o, s, default, base))
  {
    if Acceptable(s.slices, o.qty, default) {
      ReportIsAccepted(o, s, default, base);
    }
  }

  lemma {:induction false} TotalsPassTheValidator(o: Order, slices: seq<FillSlice>, default: real,
                                                  status: OrderStatus, n: nat, at: Time)
    requires n <= |slices| && Acceptable(slices, o.qty, default)
    requires status == Canceled || (n > 0 && status in {PartiallyFilled, Filled})
    ensures ValidUpdate(Update(o, status, CumQty(slices, n), AveragePrice(slices, default, n), at))
  {
    TotalsArePositive(slices, o.qty, default, n);
    if n > 0 { AverageOfPositive(CumNotional(slices, default, n), CumQty(slices, n)); }
  }

  lemma {:induction false} SliceUpdatesPassTheValidator(o: Order, slices: seq<FillSlice>, default: real, base: Time,
                                                        n: nat)
    requires n <= |slices| && Acceptable(slices, o.qty, default)
    ensures forall i :: 0 <= i < n ==> ValidUpdate(SliceUpdates(o, slices, default, base, n)[i])
  {
    if n > 0 {
      SliceUpdatesPassTheValidator(o, slices, default, base, n - 1);
      TotalsPassTheValidator(o, slices, default, if CumQty(slices, n) == o.qty then Filled else PartiallyFilled, n,
                             base + Seconds(n));
    }
  }

  /** Every update reported passes the update validators, so building a report never raises there. */
  lemma {:induction false} ReportedUpdatesAreValid(o: Order, m: CostModel, s: Scenario, default: real, base: Time)
    requires ValidCostModel(m) && PaperReport(o, m, s, default, base).Ok?
    ensures
      var us := PaperReport(o, m, s, default, base).value.updates;
      forall i :: 0 <= i < |us| ==> ValidUpdate(us[i])
  {
    if !s.rejected {
      var n := |s.slices|;
      SliceUpdatesPassTheValidator(o, s.slices, default, base, n);
      TotalsPassTheValidator(o, s.slices, default, Canceled, n, base + Seconds(n + 1));
    }
  }

  // ------------------------------------------------- submission and cancellation

  datatype RejectCode =
    | MarketStateRequired
    | SymbolSuspended
    | UnsupportedTradingPhase
    | DecisionPriceOutOfBand
    | LimitPriceOutOfBand
    | RestingLimitNotSupported

  predicate PriceWithinLimits(price: real, market: MarketState) {
    market.lowerLimit <= price <= market.upperLimit
  }

  predicate LimitIsMarketable(side: Side, limit: real, reference: real) {
    if side == Buy then limit >= reference else limit <= reference
  }

  /** The venue rules a submitted order must meet. */
  function ContractViolation(o: Order, i: OrderIntent): Option<RejectCode>
    requires ValidOrder(o)
  {
    if i.market.None? then Some(MarketStateRequired)
    else
      var market := i.market.value;
      if !market.active then Some(SymbolSuspended)
      else if !market.continuousAuction then Some(UnsupportedTradingPhase)
      else if o.orderType == OrderType.Market then
        if PriceWithinLimits(i.decisionPrice, market) then None else Some(DecisionPriceOutOfBand)
      else if !PriceWithinLimits(o.price.value, market) then Some(LimitPriceOutOfBand)
      else if !LimitIsMarketable(o.side, o.price.value, i.decisionPrice) then Some(RestingLimitNotSupported)
      else None
  }

  /** Without a resolver, the whole quantity fills in one slice at the execution price. */
  function DefaultScenario(o: Order, i: OrderIntent): Scenario
    requires ValidOrder(o)
  {
    Scenario([FillSlice(o.qty, Some(DefaultPrice(o, i)))], false, false)
  }

  function SubmitOrder(o: Order, i: OrderIntent, m: CostModel, scenario: Option<Scenario>, base: Time)
      : Result<ExecutionReport, AdapterError>
    requires ValidOrder(o) && ValidCostModel(m)
  {
    if ContractViolation(o, i).Some? then Ok(RejectReport(o, base))
    else PaperReport(o, m, if scenario.Some? then scenario.value else DefaultScenario(o, i), DefaultPrice(o, i), base)
  }

  function CancelOrder(o: Order, at: Time): ExecutionReport {
    if Active(o) then ExecutionReport([Update(o, Canceled, o.filledQty, o.avgFillPrice, at)], []) else EmptyReport
  }

  /** Cancelling an active order is accepted and keeps what was filled. */
  lemma {:induction false} CancelRefinesLifecycle(o: Order, at: Time)
    requires ValidOrder(o) && Active(o) && o.submittedAt <= at
    ensures ApplyUpdates(o, CancelOrder(o, at).updates) == Ok(o.(status := Canceled, updatedAt := at))
    ensures ValidOrder(o.(status := Canceled, updatedAt := at))
  {
    var us := CancelOrder(o, at).updates;
    assert us[..0] == [];
  }

  // ---------------------------------------------------------- what the venue answers

  function PriceOf(s: FillSlice, default: real): real {
    match s.price
    case None => default
    case Some(price) => if price == 0.0 then default else price
  }

  lemma {:induction false} TotalsOnlyGrow(slices: seq<FillSlice>, n: nat, k: nat)
    requires n <= k <= |slices| && forall i :: 0 <= i < |slices| ==> slices[i].qty > 0.0
    ensures CumQty(slices, n) <= CumQty(slices, k)
    decreases k
  {
    if n < k { TotalsOnlyGrow(slices, n, k - 1); }
  }

  /** Slices are accepted exactly when every quantity and every price is positive and together
      they do not exceed the order. */
  lemma {:induction false} AcceptableIsExact(slices: seq<FillSlice>, qty: real, default: real)
    requires qty > 0.0
    ensures Acceptable(slices, qty, default) <==>
            && (forall i :: 0 <= i < |slices| ==> slices[i].qty > 0.0 && PriceOf(slices[i], default) > 0.0)
            && CumQty(slices, |slices|) <= qty
  {
    var n := |slices|;
    if Acceptable(slices, qty, default) {
      forall i | 0 <= i < n ensures slices[i].qty > 0.0 && PriceOf(slices[i], default) > 0.0 {
        assert SliceError(slices, qty, default, i).None?;
      }
      if n > 0 { assert SliceError(slices, qty, default, n - 1).None?; }
    } else {
      var i :| 0 <= i < n && SliceError(slices, qty, default, i).Some?;
      if forall j :: 0 <= j < n ==> slices[j].qty > 0.0 { TotalsOnlyGrow(slices, i + 1, n); }
    }
  }

  /** What the venue does not take: no market state, a suspended symbol, a closed session, a price
      outside the limits, or a limit order that could not trade at the decision price. */
  predicate Untradable(o: Order, i: OrderIntent) {
    || i.market.None? || !i.market.value.active || !i.market.value.continuousAuction
    || (var price := if o.orderType == Limit && o.price.Some? then o.price.value else i.decisionPrice;
        || price < i.market.value.lowerLimit || price > i.market.value.upperLimit
        || (o.side == Buy && price < i.decisionPrice) || (o.side == Sell && price > i.decisionPrice))
  }

  /** The venue rejects exactly what is untradable or scripted to be rejected, with one update that
      fills nothing; otherwise it reports or raises, and a report starts by acknowledging. */
  lemma {:induction false} VenueRejectsExactly(o: Order, i: OrderIntent, m: CostModel, scenario: Option<Scenario>,
                                               base: Time)
    requires ValidOrder(o) && ValidCostModel(m)
    ensures
      var r := SubmitOrder(o, i, m, scenario, base);
      if Untradable(o, i) || (scenario.Some? && scenario.value.rejected) then
        r == Ok(ExecutionReport([OrderUpdate(o.id, o.intentId, o.symbol, Rejected, 0.0, None, base)], []))
      else
        r.Ok? ==> |r.value.updates| > 0
                  && r.value.updates[0] == OrderUpdate(o.id, o.intentId, o.symbol, Ack, 0.0, None, base)
  {
  }

  /** Fill i of a report is slice i: its quantity, its price, one second after the one before. */
  ghost predicate FillsAreSlices(fills: seq<FillEvent>, o: Order, slices: seq<FillSlice>, default: real, base: Time,
                                 n: nat)
    requires n <= |slices|
  {
    && |fills| == n
    && forall i :: 0 <= i < n ==>
         var f := fills[i].fill;
         && f.id == FillId(o.id, i + 1) && f.orderId == o.id && f.symbol == o.symbol && f.side == o.side
         && f.qty == slices[i].qty && f.price == PriceOf(slices[i], default)
         && f.fillTime == f.createdAt == fills[i].eventTime == base + 1_000_000 * (i + 1)
  }

  lemma {:induction false} SliceEventsAreSlices(o: Order, m: CostModel, slices: seq<FillSlice>, default: real,
                                                base: Time, n: nat)
    requires ValidCostModel(m) && n <= |slices| && FirstError(slices, o.qty, default, n).None?
    ensures FillsAreSlices(SliceEvents(o, m, slices, default, base, n), o, slices, default, base, n)
  {
    if n > 0 { SliceEventsAreSlices(o, m, slices, default, base, n - 1); }
  }

  /** A report fills its slices, one for one. */
  lemma {:induction false} ReportFillsTheSlices(o: Order, m: CostModel, s: Scenario, default: real, base: Time)
    requires ValidCostModel(m) && !s.rejected && PaperReport(o, m, s, default, base).Ok?
    ensures FillsAreSlices(PaperReport(o, m, s, default, base).value.fills, o, s.slices, default, base, |s.slices|)
  {
    SliceEventsAreSlices(o, m, s.slices, default, base, |s.slices|);
  }

  /** Without a script a tradable order is filled at once and whole: a market order at the decision
      price, a limit order at its limit. */
  lemma {:induction false} DefaultFillsWhole(o: Order, i: OrderIntent, m: CostModel, base: Time)
    requires ValidOrder(o) && ValidCostModel(m) && i.decisionPrice > 0.0 && !Untradable(o, i)
    ensures
      var r := SubmitOrder(o, i, m, None, base);
      var price := if o.orderType == Limit then o.price.value else i.decisionPrice;
      && r.Ok? && |r.value.fills| == 1
      && r.value.fills[0].fill.qty == o.qty && r.value.fills[0].fill.price == price
      && r.value.fills[0].eventTime == base + 1_000_000
      && |r.value.updates| == 2 && r.value.updates[1].status == Filled && r.value.updates[1].filledQty == o.qty
  {
    VenueRejectsExactly(o, i, m, None, base);
    var s, d := DefaultScenario(o, i), DefaultPrice(o, i);
    assert CumQty(s.slices, 1) == o.qty by { assert CumQty(s.slices, 0) == 0.0; }
    AcceptableIsExact(s.slices, o.qty, d);
    ReportFillsTheSlices(o, m, s, d, base);
    assert SliceUpdates(o, s.slices, d, base, 0) == [];
  }
}
