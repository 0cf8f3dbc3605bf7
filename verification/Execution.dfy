/** Execution objects: intents, orders, fills and the order lifecycle. */
module Execution {
  import opened Prelude

  datatype Side = Buy | Sell
  datatype OrderType = Market | Limit
  datatype OrderStatus = New | Ack | PartiallyFilled | Filled | Canceled | Rejected
  datatype IntentStatus = IntentNew | IntentSubmitted | IntentRejected | IntentExpired

  /** Identifiers. An order id is derived from its intent and a fill id from its
      order, as the name-based UUIDs are. */
  type SignalId = nat
  type IntentId = nat
  datatype OrderId = OrderId(intent: IntentId)
  datatype FillId = FillId(order: OrderId, index: nat)

  datatype MarketState = MarketState(
    tradeDate: int,
    previousClose: real,
    upperLimit: real,
    lowerLimit: real,
    active: bool,              // not suspended
    continuousAuction: bool)   // the trading phase accepts orders

  datatype Signal = Signal(
    id: SignalId,
    symbol: Symbol,
    targetPosition: real,
    timeframe: Time,
    eventTime: Time)

  datatype OrderIntent = OrderIntent(
    id: IntentId,
    signalId: SignalId,
    symbol: Symbol,
    side: Side,
    orderType: OrderType,
    qty: real,
    price: Option<real>,
    decisionPrice: real,
    reduceOnly: bool,
    market: Option<MarketState>,
    status: IntentStatus,
    createdAt: Time)

  datatype Order = Order(
    id: OrderId,
    intentId: IntentId,
    symbol: Symbol,
    side: Side,
    orderType: OrderType,
    qty: real,
    price: Option<real>,
    filledQty: real,
    avgFillPrice: Option<real>,
    status: OrderStatus,
    submittedAt: Time,
    updatedAt: Time)

  datatype OrderUpdate = OrderUpdate(
    orderId: OrderId,
    intentId: IntentId,
    symbol: Symbol,
    status: OrderStatus,
    filledQty: real,
    avgFillPrice: Option<real>,
    eventTime: Time)

  datatype Fill = Fill(
    id: FillId,
    orderId: OrderId,
    symbol: Symbol,
    side: Side,
    qty: real,
    price: real,
    fee: real,
    fillTime: Time,
    createdAt: Time)

  function Notional(f: Fill): real { f.qty * f.price }

  datatype ExecutionError = IllegalTransition | InvalidOrder | UpdateMismatch

  predicate Positive(x: Option<real>) { x.Some? ==> x.value > 0.0 }

  predicate ValidIntent(i: OrderIntent) {
    && i.qty > 0.0 && i.decisionPrice > 0.0 && Positive(i.price)
    && (i.orderType == Market ==> i.price.None?)
    && (i.orderType == Limit ==> i.price.Some? && i.market.Some?)
    && (i.reduceOnly ==> i.side == Sell)
  }

  predicate ValidOrder(o: Order) {
    && o.qty > 0.0 && Positive(o.price) && o.filledQty >= 0.0 && Positive(o.avgFillPrice)
    && (o.orderType == Market ==> o.price.None?)
    && (o.orderType == Limit ==> o.price.Some?)
    && o.filledQty <= o.qty
    && o.submittedAt <= o.updatedAt
    && (o.avgFillPrice.Some? ==> o.filledQty != 0.0)
    && (o.status in {New, Ack, Rejected} ==> o.filledQty == 0.0)
    && (o.status == PartiallyFilled ==> 0.0 < o.filledQty < o.qty && o.avgFillPrice.Some?)
    && (o.status == Filled ==> o.filledQty == o.qty && o.avgFillPrice.Some?)
    && (o.status == Canceled && o.filledQty > 0.0 ==> o.avgFillPrice.Some?)
  }

  predicate ValidUpdate(u: OrderUpdate) {
    && u.filledQty >= 0.0 && Positive(u.avgFillPrice)
    && (u.avgFillPrice.Some? ==> u.filledQty != 0.0)
    && (u.status in {New, Ack, Rejected} ==> u.filledQty == 0.0)
    && (u.status in {PartiallyFilled, Filled} ==> u.filledQty > 0.0 && u.avgFillPrice.Some?)
    && (u.status == Canceled && u.filledQty > 0.0 ==> u.avgFillPrice.Some?)
  }

  function NextStatuses(s: OrderStatus): set<OrderStatus> {
    match s
    case New => {Ack, Rejected, Canceled}
    case Ack => {PartiallyFilled, Filled, Canceled, Rejected}
    case PartiallyFilled => {PartiallyFilled, Filled, Canceled}
    case Filled => {}
    case Canceled => {}
    case Rejected => {}
  }

  predicate CanTransition(current: OrderStatus, next: OrderStatus) {
    current == next || next in NextStatuses(current)
  }

  const ActiveStatuses: set<OrderStatus> := {New, Ack, PartiallyFilled}

  predicate Active(o: Order) { o.status in ActiveStatuses }

  /** A validated copy of the order in its new status. */
  function TransitionTo(o: Order, status: OrderStatus, filledQty: real, avg: Option<real>, at: Time)
      : (r: Result<Order, ExecutionError>)
    ensures r.Ok? ==> ValidOrder(r.value) && CanTransition(o.status, r.value.status)
  {
    if !CanTransition(o.status, status) then Error(IllegalTransition)
    else
      var next := o.(status := status, filledQty := filledQty, avgFillPrice := avg, updatedAt := at);
      if ValidOrder(next) then Ok(next) else Error(InvalidOrder)
  }

  function ApplyOrderUpdate(o: Order, u: OrderUpdate): (r: Result<Order, ExecutionError>)
    ensures r.Ok? ==> ValidOrder(r.value) && r.value.id == o.id && r.value.qty == o.qty
  {
    if o.id != u.orderId || o.intentId != u.intentId || o.symbol != u.symbol then Error(UpdateMismatch)
    else TransitionTo(o, u.status, u.filledQty, u.avgFillPrice, u.eventTime)
  }

  /** The updates of one report, applied in order, stopping at the first refusal. */
  function ApplyUpdates(o: Order, us: seq<OrderUpdate>): (r: Result<Order, ExecutionError>)
  {
    if us == [] then Ok(o)
    else
      var before :- ApplyUpdates(o, us[..|us| - 1]);
      ApplyOrderUpdate(before, us[|us| - 1])
  }

  function CreateOrderFromIntent(i: OrderIntent, submittedAt: Time): (o: Order)
    ensures ValidIntent(i) ==> ValidOrder(o)
  {
    Order(OrderId(i.id), i.id, i.symbol, i.side, i.orderType, i.qty, i.price,
          0.0, None, New, submittedAt, submittedAt)
  }

  /** Closed statuses are closed for good: no accepted update leaves one. */
  lemma {:induction false} ClosedOrdersStayClosed(o: Order, us: seq<OrderUpdate>)
    requires !Active(o)
    requires ApplyUpdates(o, us).Ok?
    ensures ApplyUpdates(o, us).value.status == o.status
  {
    if us != [] {
      ClosedOrdersStayClosed(o, us[..|us| - 1]);
    }
  }

  // ------------------------------------------------------------ the lifecycle, told

  function Stage(s: OrderStatus): nat {
    match s
    case New => 0
    case Ack => 1
    case PartiallyFilled => 2
    case _ => 3
  }

  /** An order moves on to a later stage or stays as it is; it is not filled before it is acknowledged,
      and not rejected once it has fills. */
  lemma {:induction false} TransitionsAreExact(current: OrderStatus, next: OrderStatus)
    ensures CanTransition(current, next) <==>
            current == next
            || (Stage(current) < Stage(next)
                && !(current == New && next in {PartiallyFilled, Filled})
                && !(current == PartiallyFilled && next == Rejected))
  {
  }

  /** What a status says about the filled quantity and its average price. */
  predicate FillsFitStatus(status: OrderStatus, filledQty: real, avg: Option<real>, qty: real) {
    match status
    case New => filledQty == 0.0 && avg.None?
    case Ack => filledQty == 0.0 && avg.None?
    case Rejected => filledQty == 0.0 && avg.None?
    case PartiallyFilled => 0.0 < filledQty < qty && avg.Some? && avg.value > 0.0
    case Filled => filledQty == qty && avg.Some? && avg.value > 0.0
    case Canceled =>
      0.0 <= filledQty <= qty && if filledQty == 0.0 then avg.None? else avg.Some? && avg.value > 0.0
  }

  /** A valid order takes exactly the transitions whose quantities fit the new status, not earlier
      than its submission, and changes nothing else. */
  lemma {:induction false} TransitionIsExact(o: Order, status: OrderStatus, filledQty: real, avg: Option<real>,
                                             at: Time)
    requires ValidOrder(o)
    ensures FillsFitStatus(o.status, o.filledQty, o.avgFillPrice, o.qty)
    ensures TransitionTo(o, status, filledQty, avg, at).Ok? <==>
            CanTransition(o.status, status) && FillsFitStatus(status, filledQty, avg, o.qty) && o.submittedAt <= at
    ensures TransitionTo(o, status, filledQty, avg, at).Ok? ==>
      TransitionTo(o, status, filledQty, avg, at).value
      == o.(status := status, filledQty := filledQty, avgFillPrice := avg, updatedAt := at)
  {
  }

  /** Over any accepted updates an order never falls back, and from a new order there is no fill
      without an acknowledgement before it. */
  lemma {:induction false} OrdersMoveForward(o: Order, us: seq<OrderUpdate>)
    requires ApplyUpdates(o, us).Ok?
    ensures Stage(o.status) <= Stage(ApplyUpdates(o, us).value.status)
    ensures Stage(o.status) == Stage(ApplyUpdates(o, us).value.status) ==> ApplyUpdates(o, us).value.status == o.status
    ensures o.status == New && ApplyUpdates(o, us).value.status in {PartiallyFilled, Filled} ==>
      exists k :: 0 <= k <= |us| && Reaches(o, us[..k], Ack)
  {
    if us != [] {
      var n := |us| - 1;
      OrdersMoveForward(o, us[..n]);
      var before, after := ApplyUpdates(o, us[..n]).value, ApplyUpdates(o, us).value;
      TransitionsAreExact(before.status, after.status);
      if before.status == Ack { assert Reaches(o, us[..n], Ack); }
      if k :| 0 <= k <= n && Reaches(o, us[..n][..k], Ack) {
        assert us[..n][..k] == us[..k];
        assert Reaches(o, us[..k], Ack);
      }
    }
  }

  predicate Reaches(o: Order, us: seq<OrderUpdate>, status: OrderStatus) {
    ApplyUpdates(o, us).Ok? && ApplyUpdates(o, us).value.status == status
  }

  /** An update is taken exactly when it is the order's own and fits its lifecycle; then the order
      shows what the update says, and is otherwise as it was. */
  lemma {:induction false} UpdateIsTakenExactly(o: Order, u: OrderUpdate)
    requires ValidOrder(o)
    ensures ApplyOrderUpdate(o, u).Ok? <==>
            && u.orderId == o.id && u.intentId == o.intentId && u.symbol == o.symbol
            && CanTransition(o.status, u.status) && FillsFitStatus(u.status, u.filledQty, u.avgFillPrice, o.qty)
            && o.submittedAt <= u.eventTime
    ensures ApplyOrderUpdate(o, u).Ok? ==>
      ApplyOrderUpdate(o, u).value
      == o.(status := u.status, filledQty := u.filledQty, avgFillPrice := u.avgFillPrice, updatedAt := u.eventTime)
  {
    TransitionIsExact(o, u.status, u.filledQty, u.avgFillPrice, u.eventTime);
  }
}
