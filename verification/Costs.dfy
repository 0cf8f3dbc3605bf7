/** The paper cost model: rounded fees, and what splitting an order does to them. */
module Costs {
  import opened Prelude
  import opened Execution

  datatype CostModel = CostModel(commission: real, transferFee: real, stampDutySell: real)

  predicate ValidCostModel(m: CostModel) {
    m.commission >= 0.0 && m.transferFee >= 0.0 && m.stampDutySell >= 0.0
  }

  datatype CostBreakdown = CostBreakdown(
    currency: Asset,
    grossNotional: real,
    commission: real,
    transferFee: real,
    stampDuty: real,
    totalFee: real,
    netCashFlow: real)

  const HALF_QUANTUM: real := 0.00005

  predicate OnGrid(r: real) { (r * 10000.0).Floor as real == r * 10000.0 }

  /** The venue's rounding to four decimals, ties upwards. */
  function QuantizeFee(v: real): (r: real)
    requires v >= 0.0
    ensures r >= 0.0
  {
    ((v * 10000.0 + 0.5).Floor as real) / 10000.0
  }

  lemma {:induction false} QuantizeFeeRounds(v: real)
    requires v >= 0.0
    ensures OnGrid(QuantizeFee(v)) && -HALF_QUANTUM < QuantizeFee(v) - v <= HALF_QUANTUM
  {
  }

  /** Those two clauses leave no other value. */
  lemma {:induction false} QuantizeFeeIsUnique(v: real, r: real)
    requires v >= 0.0
    requires OnGrid(r) && -HALF_QUANTUM < r - v <= HALF_QUANTUM
    ensures r == QuantizeFee(v)
  {
    QuantizeFeeRounds(v);
    var q := QuantizeFee(v);
    var a, b := (r * 10000.0).Floor, (q * 10000.0).Floor;
    assert a as real - b as real == (r - q) * 10000.0;
    assert -1.0 < (r - q) * 10000.0 < 1.0;
    assert a == b;
  }

  /** One fee component: the rounded product of a gross notional and a rate. */
  function FeeComponent(gross: real, rate: real): (fee: real)
    requires gross >= 0.0 && rate >= 0.0
    ensures fee >= 0.0
  {
    QuantizeFee(gross * rate)
  }

  /** The fee on one gross notional: commission, transfer fee and, on a sell, stamp duty. */
  function TotalFee(m: CostModel, side: Side, gross: real): (fee: real)
    requires ValidCostModel(m) && gross >= 0.0
    ensures fee >= 0.0
  {
    FeeComponent(gross, m.commission) + FeeComponent(gross, m.transferFee)
    + if side == Sell then FeeComponent(gross, m.stampDutySell) else 0.0
  }

  /** Cash moves by the gross notional and by the fee, and the fee is the sum of its parts. */
  predicate Settles(c: CostBreakdown, side: Side) {
    && c.totalFee == c.commission + c.transferFee + c.stampDuty
    && c.netCashFlow == (if side == Sell then c.grossNotional else -c.grossNotional) - c.totalFee
  }

  // ------------------------------------------------------------ fee splitting

  function Sum(xs: seq<real>): real {
    if xs == [] then 0.0 else Sum(xs[..|xs| - 1]) + xs[|xs| - 1]
  }

  predicate NonNegative(xs: seq<real>) { forall i :: 0 <= i < |xs| ==> xs[i] >= 0.0 }

  lemma {:induction false} SumIsNonNegative(xs: seq<real>)
    requires NonNegative(xs)
    ensures Sum(xs) >= 0.0
  {
    if xs != [] { SumIsNonNegative(xs[..|xs| - 1]); }
  }

  /** One fee component charged slice by slice. */
  ghost function SplitComponent(notionals: seq<real>, rate: real): real
    requires NonNegative(notionals) && rate >= 0.0
  {
    if notionals == [] then 0.0
    else SplitComponent(notionals[..|notionals| - 1], rate) + FeeComponent(notionals[|notionals| - 1], rate)
  }

  /** The whole fee charged slice by slice. */
  ghost function SplitFee(m: CostModel, side: Side, notionals: seq<real>): real
    requires ValidCostModel(m) && NonNegative(notionals)
  {
    if notionals == [] then 0.0
    else SplitFee(m, side, notionals[..|notionals| - 1])
         + TotalFee(m, side, notionals[|notionals| - 1])
  }

  lemma {:induction false} SplitComponentBound(notionals: seq<real>, rate: real)
    requires NonNegative(notionals) && rate >= 0.0
    ensures -(|notionals| as real) * HALF_QUANTUM
            <= SplitComponent(notionals, rate) - Sum(notionals) * rate
            <= (|notionals| as real) * HALF_QUANTUM
  {
    if notionals != [] {
      var front, last := notionals[..|notionals| - 1], notionals[|notionals| - 1];
      SplitComponentBound(front, rate);
      QuantizeFeeRounds(last * rate);
      assert (Sum(front) + last) * rate == Sum(front) * rate + last * rate;
    }
  }

  lemma {:induction false} SplitFeeIsItsComponents(m: CostModel, side: Side, notionals: seq<real>)
    requires ValidCostModel(m) && NonNegative(notionals)
    ensures SplitFee(m, side, notionals)
         == SplitComponent(notionals, m.commission) + SplitComponent(notionals, m.transferFee)
            + (if side == Sell then SplitComponent(notionals, m.stampDutySell) else 0.0)
  {
    if notionals != [] {
      SplitFeeIsItsComponents(m, side, notionals[..|notionals| - 1]);
    }
  }

  /** One component charged over n slices, against the component charged once:
      n roundings on one side and one on the other. */
  lemma {:induction false} ComponentSplittingBound(notionals: seq<real>, rate: real)
    requires NonNegative(notionals) && rate >= 0.0
    ensures Sum(notionals) >= 0.0
    ensures -(|notionals| as real + 1.0) * HALF_QUANTUM
            <= SplitComponent(notionals, rate) - FeeComponent(Sum(notionals), rate)
            <= (|notionals| as real + 1.0) * HALF_QUANTUM
  {
    SumIsNonNegative(notionals);
    SplitComponentBound(notionals, rate);
    QuantizeFeeRounds(Sum(notionals) * rate);
  }

  /** Charging n slices differs from charging the whole by at most half a quantum
      for each rounding done: n + 1 per component, two components on a buy, three on a sell. */
  lemma {:induction false} FeeSplittingBound(m: CostModel, side: Side, notionals: seq<real>)
    requires ValidCostModel(m) && NonNegative(notionals)
    ensures Sum(notionals) >= 0.0
    ensures
      var drift := SplitFee(m, side, notionals) - TotalFee(m, side, Sum(notionals));
      var components := if side == Sell then 3.0 else 2.0;
      -components * ((|notionals| as real + 1.0) * HALF_QUANTUM) <= drift
        <= components * ((|notionals| as real + 1.0) * HALF_QUANTUM)
  {
    SplitFeeIsItsComponents(m, side, notionals);
    ComponentSplittingBound(notionals, m.commission);
    ComponentSplittingBound(notionals, m.transferFee);
    ComponentSplittingBound(notionals, m.stampDutySell);
  }
}
