/** The order table tells what the fill table holds, and a venue report keeps it so. */
module OrderAgreement {
  import opened Prelude
  import opened Execution
  import opened Costs
  import opened Ledger
  import opened PaperAdapter
  import opened Store
  import opened Oms
  import opened Reconciler
  import opened LedgerAgreement

  /** Every fill belongs to an order it names, every order tells its intent and its fills,
      and intents and idempotency keys lead to each other. */
  ghost predicate OrdersAgree(t: Tables) {
    && AllOrdered(t.fills, t.orders)
    && (forall i :: 0 <= i < |t.fills| ==> t.fills[i].id.order == t.fills[i].orderId)
    && (forall id :: id in t.orders ==> OrderTellsFills(t, id))
    && IntentsIndexed(t)
  }

  ghost predicate OrderTellsFills(t: Tables, id: OrderId)
    requires id in t.orders
  {
    var o := t.orders[id];
    && o.id == id == OrderId(o.intentId)
    && OrderConsistent(o, Get(t.intents, o.intentId), FilledQty(t.fills, id), FilledNotional(t.fills, id))
  }

  ghost predicate IntentsIndexed(t: Tables) {
    && (forall id :: id in t.intents ==>
          t.intents[id].id == id
          && t.intents[id].signalId in t.intentBySignal && t.intentBySignal[t.intents[id].signalId] == id)
    && (forall s :: s in t.intentBySignal ==> t.intentBySignal[s] in t.intents
                                              && t.intents[t.intentBySignal[s]].signalId == s)
  }

  /** The invariant of every reachable state. */
  ghost predicate Agrees(t: Tables, m: CostModel, d: int) {
    LedgerAgrees(t, m, d) && OrdersAgree(t)
  }

  lemma {:induction false} AgreesEventually(t: Tables, m: CostModel, d: int, later: int)
    requires Agrees(t, m, d) && d <= later
    ensures Agrees(t, m, later)
  {
    AgreesLater(t, m, d, later);
  }

  // --------------------------------------------------------------- fill totals

  ghost predicate NoFillsOf(fills: seq<Fill>, o: OrderId) {
    forall i :: 0 <= i < |fills| ==> fills[i].orderId != o
  }

  lemma {:induction false} NoFillsNoTotals(fills: seq<Fill>, o: OrderId)
    requires ValidFills(fills)
    ensures FilledQty(fills, o) >= 0.0
    ensures NoFillsOf(fills, o) <==> FilledQty(fills, o) == 0.0
    ensures NoFillsOf(fills, o) ==> FilledNotional(fills, o) == 0.0
  {
    if fills != [] {
      NoFillsNoTotals(fills[..|fills| - 1], o);
    }
  }

  lemma {:induction false} TotalsOfBoth(a: seq<Fill>, b: seq<Fill>, o: OrderId)
    ensures FilledQty(a + b, o) == FilledQty(a, o) + FilledQty(b, o)
    ensures FilledNotional(a + b, o) == FilledNotional(a, o) + FilledNotional(b, o)
  {
    if b == [] {
      assert a + b == a;
    } else {
      TotalsOfBoth(a, b[..|b| - 1], o);
      assert (a + b)[..|a + b| - 1] == a + b[..|b| - 1];
    }
  }

  // --------------------------------------------------------- booking fill events

  function FillsOfEvents(es: seq<FillEvent>): (fs: seq<Fill>)
    ensures |fs| == |es| && forall i :: 0 <= i < |es| ==> fs[i] == es[i].fill
  {
    if es == [] then [] else FillsOfEvents(es[..|es| - 1]) + [es[|es| - 1].fill]
  }

  /** New events, later than every booking and each later than the one before. */
  ghost predicate Bookable(t: Tables, es: seq<FillEvent>, m: CostModel, d: int) {
    && ValidCostModel(m) && ValidFillEvents(es)
    && (forall i :: 0 <= i < |es| ==> Replayable(es[i], m) && Comes(t, es[i], d))
    && (forall i, j :: 0 <= i < j < |es| ==> es[i].eventTime < es[j].eventTime && es[i].fill.id != es[j].fill.id)
  }

  /** The tables after all of the events: in agreement, with the fills appended. */
  ghost predicate EventsBooked(t: Tables, t': Tables, es: seq<FillEvent>, m: CostModel, d: int) {
    && LedgerAgrees(t', m, d) && t.balances != []
    && Horizon(t') == (if es == [] then Horizon(t) else es[|es| - 1].eventTime)
    && t'.fills == t.fills + FillsOfEvents(es)
    && t'.orders == t.orders && t'.intents == t.intents && t'.intentBySignal == t.intentBySignal
  }

  lemma {:induction false} FrontIsBookable(t: Tables, es: seq<FillEvent>, m: CostModel, d: int)
    requires Bookable(t, es, m, d) && es != []
    ensures Bookable(t, es[..|es| - 1], m, d)
  {
  }

  /** The last event still comes after all the others have been booked. */
  lemma {:induction false} LastComes(t: Tables, t1: Tables, es: seq<FillEvent>, m: CostModel, d: int)
    requires Bookable(t, es, m, d) && es != [] && EventsBooked(t, t1, es[..|es| - 1], m, d)
    ensures Comes(t1, es[|es| - 1], d)
  {
    var e := es[|es| - 1];
    forall i | 0 <= i < |t1.fills| ensures t1.fills[i].id != e.fill.id {
      if i < |t.fills| {
        assert t1.fills[i] == t.fills[i];
      } else {
        assert t1.fills[i] == es[i - |t.fills|].fill;
      }
    }
  }

  /** The writes of n events extend those of n - 1, unless the ledger has refused before. */
  lemma {:induction false} FillWritesGrow(t: Tables, es: seq<FillEvent>)
    requires ValidTables(t) && ValidFillEvents(es) && es != []
    ensures
      var before, r := AllFillWrites(t, es[..|es| - 1]), AllFillWrites(t, es);
      && ValidTables(CommitAll(t, before.writes))
      && r == if before.raised then before else
                var last := FillWrites(CommitAll(t, before.writes), es[|es| - 1]);
                Trace(before.writes + last.writes, last.raised)
  {
    WritesKeepTablesValid(t, AllFillWrites(t, es[..|es| - 1]).writes);
  }

  /** As long as the ledger accepts them, events are booked three writes each, and the
      tables agree after every one. */
  lemma {:induction false} EventsAgree(t: Tables, es: seq<FillEvent>, m: CostModel, d: int)
    requires LedgerAgrees(t, m, d) && Bookable(t, es, m, d) && !AllFillWrites(t, es).raised
    ensures
      var r := AllFillWrites(t, es);
      |r.writes| == 3 * |es| && EventsBooked(t, CommitAll(t, r.writes), es, m, d)
  {
    if es == [] {
      assert t.fills + FillsOfEvents([]) == t.fills;
    } else {
      var front, e := es[..|es| - 1], es[|es| - 1];
      assert es == front + [e];
      FrontIsBookable(t, es, m, d);
      FillWritesGrow(t, es);
      EventsAgree(t, front, m, d);
      var before := AllFillWrites(t, front);
      var t1 := CommitAll(t, before.writes);
      LastComes(t, t1, es, m, d);
      BookOneMore(t, before.writes, FillWrites(t1, e), front, e, m, d);
    }
  }

  lemma {:induction false} BookOneMore(t: Tables, before: seq<Write>, last: Trace, es: seq<FillEvent>, e: FillEvent,
                                       m: CostModel, d: int)
    requires EventsBooked(t, CommitAll(t, before), es, m, d)
    requires Replayable(e, m) && Comes(CommitAll(t, before), e, d)
    requires last == FillWrites(CommitAll(t, before), e) && !last.raised
    ensures |last.writes| == 3 && EventsBooked(t, CommitAll(t, before + last.writes), es + [e], m, d)
  {
    var t1 := CommitAll(t, before);
    OneMoreEvent(t1, e, m, d);
    CommitAllConcat(t, before, last.writes);
    BookedByOneMore(t, t1, CommitAll(t1, last.writes), es, e, m, d);
  }

  lemma {:induction false} BookedByOneMore(t: Tables, t1: Tables, t2: Tables, es: seq<FillEvent>, e: FillEvent,
                                           m: CostModel, d: int)
    requires EventsBooked(t, t1, es, m, d) && LedgerAgrees(t2, m, d) && Horizon(t2) == e.eventTime
    requires t2.fills == t1.fills + [e.fill]
    requires t2.orders == t1.orders && t2.intents == t1.intents && t2.intentBySignal == t1.intentBySignal
    ensures EventsBooked(t, t2, es + [e], m, d)
  {
    assert FillsOfEvents(es + [e]) == FillsOfEvents(es) + [e.fill];
  }

  lemma {:induction false} OneMoreEvent(t: Tables, e: FillEvent, m: CostModel, d: int)
    requires LedgerAgrees(t, m, d) && Replayable(e, m) && Comes(t, e, d) && !FillWrites(t, e).raised
    ensures
      var r := FillWrites(t, e);
      var t' := CommitAll(t, r.writes);
      && |r.writes| == 3 && LedgerAgrees(t', m, d) && Horizon(t') == e.eventTime && t'.fills == t.fills + [e.fill]
      && t'.orders == t.orders && t'.intents == t.intents && t'.intentBySignal == t.intentBySignal
  {
    FillAgrees(t, e, m, d);
    FillWritesAreABooking(t, e, m);
    var r, booked := FillWrites(t, e), Book(Current(t), e);
    ThreeWrites(t, e.fill, booked.value.positions[e.fill.symbol], booked.value.balances[CNY]);
  }

  // -------------------------------------------------------- the slices of a report

  /** The first execution of a report based at this time is later than every booking and
      not of a date before the releases. */
  predicate Awaits(t: Tables, base: Time, d: int) {
    t.balances != [] && Horizon(t) < base + Seconds(1) && d <= DateOf(base + Seconds(1))
  }

  ghost predicate ReadyToBook(t: Tables, o: OrderId, m: CostModel, d: int) {
    && LedgerAgrees(t, m, d)
    && NoFillsOf(t.fills, o)
    && (forall i :: 0 <= i < |t.fills| ==> t.fills[i].id.order == t.fills[i].orderId)
  }

  lemma {:induction false} RebuiltComponentIsTheCharge(gross: real, rate: real)
    requires gross >= 0.0 && rate >= 0.0
    ensures RebuiltComponent(gross, rate) == FeeComponent(gross, rate)
  {
    RoundFeeIsQuantizeFee(gross * rate);
  }

  /** Two breakdowns written apart, the venue's for an execution and the reconciler's for the
      persisted fill, are one. */
  lemma {:induction false} RebuiltCostIsTheCharge(f: Fill, m: CostModel)
    requires ValidCostModel(m) && f.qty > 0.0 && f.price > 0.0
    ensures FillCost(f, m) == BuildCostBreakdown(m, f.side, f.qty, f.price)
  {
    var gross := f.qty * f.price;
    assert gross > 0.0 && gross == Notional(f);
    RebuiltComponentIsTheCharge(gross, m.commission);
    RebuiltComponentIsTheCharge(gross, m.transferFee);
    RebuiltComponentIsTheCharge(gross, m.stampDutySell);
  }

  /** What the venue reports is what the reconciler makes of the fill row. */
  lemma {:induction false} FillEventIsReplayable(o: Order, m: CostModel, qty: real, price: real, index: nat, at: Time)
    requires ValidCostModel(m) && qty > 0.0 && price > 0.0
    ensures Replayable(FillEventFor(o, m, qty, price, index, at), m)
  {
    RebuiltCostIsTheCharge(FillEventFor(o, m, qty, price, index, at).fill, m);
  }

  /** The event names its order and its place in the report, one second after the one before. */
  ghost predicate TellsSlice(e: FillEvent, o: OrderId, m: CostModel, base: Time, i: nat)
    requires ValidCostModel(m)
  {
    && e.fill.id == FillId(o, i + 1) && e.fill.orderId == o
    && e.eventTime == base + Seconds(i + 1) && Replayable(e, m)
  }

  lemma {:induction false} SliceEventTells(o: Order, m: CostModel, slices: seq<FillSlice>, default: real, base: Time,
                                           i: nat)
    requires ValidCostModel(m) && i < |slices| && SliceError(slices, o.qty, default, i).None?
    ensures TellsSlice(SliceEvent(o, m, slices, default, base, i), o.id, m, base, i)
  {
    FillEventIsReplayable(o, m, slices[i].qty, SlicePrice(slices[i], default), i + 1, base + Seconds(i + 1));
  }

  lemma {:induction false} SliceEventsTell(o: Order, m: CostModel, slices: seq<FillSlice>, default: real, base: Time,
                                           n: nat)
    requires ValidCostModel(m) && n <= |slices| && FirstError(slices, o.qty, default, n).None?
    ensures forall i :: 0 <= i < n ==> TellsSlice(SliceEvents(o, m, slices, default, base, n)[i], o.id, m, base, i)
  {
    if n > 0 {
      SliceEventsTell(o, m, slices, default, base, n - 1);
      SliceEventTells(o, m, slices, default, base, n - 1);
    }
  }

  /** Their fills add up to the running totals. */
  lemma {:induction false} SliceEventsAddUp(o: Order, m: CostModel, slices: seq<FillSlice>, default: real, base: Time,
                                            n: nat)
    requires ValidCostModel(m) && n <= |slices| && FirstError(slices, o.qty, default, n).None?
    ensures
      var fs := FillsOfEvents(SliceEvents(o, m, slices, default, base, n));
      FilledQty(fs, o.id) == CumQty(slices, n) && FilledNotional(fs, o.id) == CumNotional(slices, default, n)
  {
    if n > 0 {
      SliceEventsAddUp(o, m, slices, default, base, n - 1);
      var es := SliceEvents(o, m, slices, default, base, n);
      assert es[..n - 1] == SliceEvents(o, m, slices, default, base, n - 1);
      var fs := FillsOfEvents(es);
      assert fs[..n - 1] == FillsOfEvents(es[..n - 1]);
      assert Notional(fs[n - 1]) == SliceNotional(slices[n - 1], default);
    }
  }

  lemma {:induction false} SliceEventsPrefix(o: Order, m: CostModel, slices: seq<FillSlice>, default: real, base: Time,
                                             i: nat, n: nat)
    requires ValidCostModel(m) && i <= n <= |slices| && FirstError(slices, o.qty, default, n).None?
    ensures FirstError(slices, o.qty, default, i).None?
    ensures SliceEvents(o, m, slices, default, base, n)[..i] == SliceEvents(o, m, slices, default, base, i)
  {
    if i < n {
      SliceEventsPrefix(o, m, slices, default, base, i, n - 1);
      var es := SliceEvents(o, m, slices, default, base, n);
      assert es[..i] == es[..n - 1][..i];
      assert es[..n - 1] == SliceEvents(o, m, slices, default, base, n - 1);
    }
  }

  lemma {:induction false} SliceComes(t: Tables, o: OrderId, m: CostModel, e: FillEvent, base: Time, i: nat, d: int)
    requires ReadyToBook(t, o, m, d) && Awaits(t, base, d) && TellsSlice(e, o, m, base, i)
    ensures Comes(t, e, d)
  {
    DateOfIsMonotone(base + Seconds(1), e.eventTime);
  }

  lemma {:induction false} SlicesAreBookable(t: Tables, o: Order, m: CostModel, slices: seq<FillSlice>, default: real,
                                             base: Time, d: int)
    requires ReadyToBook(t, o.id, m, d) && FirstError(slices, o.qty, default, |slices|).None?
    requires slices != [] ==> Awaits(t, base, d)
    ensures Bookable(t, SliceEvents(o, m, slices, default, base, |slices|), m, d)
  {
    SliceEventsTell(o, m, slices, default, base, |slices|);
    var es := SliceEvents(o, m, slices, default, base, |slices|);
    forall i | 0 <= i < |es| ensures Comes(t, es[i], d) { SliceComes(t, o.id, m, es[i], base, i, d); }
  }
}
