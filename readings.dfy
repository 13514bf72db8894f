/** Indicator readings as the enriched table really holds them: during the
    warm-up of each indicator the column is NaN, and every ordered
    comparison with NaN is false. The rule is evaluated here comparison by
    comparison, as the Python code does, and tied back to SignalRule. */
module Readings {
  import opened SignalRule

  datatype Reading = Num(value: real) | NaN

  /** `x > y` on floats: false as soon as either side is NaN. */
  predicate Gt(x: Reading, y: Reading) {
    x.Num? && y.Num? && x.value > y.value
  }

  /** `x < y` on floats: false as soon as either side is NaN. */
  predicate Lt(x: Reading, y: Reading) {
    x.Num? && y.Num? && x.value < y.value
  }

  /** One row of the enriched table, restricted to the columns the rule reads. */
  datatype Row = Row(
    rsi: Reading,
    adx: Reading,
    close: Reading,
    ema200: Reading,
    macdLine: Reading,
    macdSignal: Reading,
    vwap: Reading
  )

  /** True when at least one column the rule reads is still NaN. */
  predicate InWarmUp(row: Row) {
    || row.rsi.NaN? || row.adx.NaN? || row.close.NaN? || row.ema200.NaN?
    || row.macdLine.NaN? || row.macdSignal.NaN? || row.vwap.NaN?
  }

  /** A fully defined row, as a row of the table. */
  function Lift(b: Bar): (row: Row)
    ensures !InWarmUp(row)
  {
    Row(Num(b.rsi), Num(b.adx), Num(b.close), Num(b.ema200), Num(b.macdLine), Num(b.macdSignal), Num(b.vwap))
  }

  /** The bar of a fully defined row. */
  function Defined(row: Row): (b: Bar)
    requires !InWarmUp(row)
    ensures Lift(b) == row
  {
    Bar(row.rsi.value, row.adx.value, row.close.value, row.ema200.value,
        row.macdLine.value, row.macdSignal.value, row.vwap.value)
  }

  /** The rule's if/elif/else with float comparison semantics. */
  function RowSignal(row: Row): (r: Signal)
    ensures r == BUY <==> !InWarmUp(row) && Bullish(Defined(row))
    ensures r == SELL <==> !InWarmUp(row) && Bearish(Defined(row))
    ensures r == HOLD <==> InWarmUp(row) || (!Bullish(Defined(row)) && !Bearish(Defined(row)))
  {
    if Gt(row.rsi, Num(RsiMidline)) && Gt(row.adx, Num(AdxTrendFloor)) && Gt(row.close, row.ema200)
       && Gt(row.macdLine, row.macdSignal) && Gt(row.close, row.vwap)
    then BUY
    else if Lt(row.rsi, Num(RsiMidline)) && Gt(row.adx, Num(AdxTrendFloor)) && Lt(row.close, row.ema200)
       && Lt(row.macdLine, row.macdSignal) && Lt(row.close, row.vwap)
    then SELL
    else HOLD
  }

  /** On defined readings the row rule and the bar rule give the same label. */
  lemma RowSignalAgrees(b: Bar)
    ensures RowSignal(Lift(b)) == GetSignal(b)
  {
  }

  /** A row with any column still in warm-up is always HOLD: every column
      takes part in both the BUY and the SELL conjunction. */
  lemma WarmUpRowHolds(row: Row)
    requires InWarmUp(row)
    ensures RowSignal(row) == HOLD
  {
  }

  /** The row rule decides a directional label exactly when the row is
      defined and the bar rule gives that label. */
  lemma RowSignalCharacterised(row: Row)
    ensures RowSignal(row) != HOLD <==> !InWarmUp(row) && GetSignal(Defined(row)) != HOLD
    ensures !InWarmUp(row) ==> RowSignal(row) == GetSignal(Defined(row))
  {
    if InWarmUp(row) {
      WarmUpRowHolds(row);
    } else {
      RowSignalAgrees(Defined(row));
    }
  }
}
