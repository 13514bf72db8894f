/** The trading-signal rule of the dashboard: a pure decision over the
    indicator columns of one enriched price bar. */
module SignalRule {

  /** The indicator columns the rule reads from one enriched row, all defined. */
  datatype Bar = Bar(
    rsi: real,
    adx: real,
    close: real,
    ema200: real,
    macdLine: real,
    macdSignal: real,
    vwap: real
  )

  datatype Signal = BUY | SELL | HOLD

  /** RSI above this level reads as bullish momentum, below it as bearish. */
  const RsiMidline: real := 50.0

  /** ADX must exceed this level for either directional label. */
  const AdxTrendFloor: real := 20.0

  /** The five strict bullish comparisons of the BUY branch. */
  predicate Bullish(b: Bar) {
    && b.rsi > RsiMidline
    && b.adx > AdxTrendFloor
    && b.close > b.ema200
    && b.macdLine > b.macdSignal
    && b.close > b.vwap
  }

  /** The five strict bearish comparisons of the SELL branch. */
  predicate Bearish(b: Bar) {
    && b.rsi < RsiMidline
    && b.adx > AdxTrendFloor
    && b.close < b.ema200
    && b.macdLine < b.macdSignal
    && b.close < b.vwap
  }

  /** The ordered decision: BUY is tested first, then SELL, otherwise HOLD.
      Each label is characterised exactly by its own comparisons, even SELL,
      which the decision only reaches once BUY has failed. */
  function GetSignal(b: Bar): (r: Signal)
    ensures r == BUY <==>
      b.rsi > 50.0 && b.adx > 20.0 && b.close > b.ema200 && b.macdLine > b.macdSignal && b.close > b.vwap
    ensures r == SELL <==>
      b.rsi < 50.0 && b.adx > 20.0 && b.close < b.ema200 && b.macdLine < b.macdSignal && b.close < b.vwap
    ensures r == HOLD <==> !Bullish(b) && !Bearish(b)
  {
    if Bullish(b) then BUY
    else if Bearish(b) then SELL
    else HOLD
  }

  /** The two conjunctions never hold together, since no RSI is both above
      and below the midline. */
  lemma BullishBearishExclusive(b: Bar)
    ensures !(Bullish(b) && Bearish(b))
  {
  }

  /** The same rule with the SELL test placed first. */
  function SellFirstSignal(b: Bar): Signal {
    if Bearish(b) then SELL
    else if Bullish(b) then BUY
    else HOLD
  }

  /** The order of the two branches does not change the label. */
  lemma BranchOrderIrrelevant(b: Bar)
    ensures SellFirstSignal(b) == GetSignal(b)
  {
    BullishBearishExclusive(b);
  }

  /** Without trend strength above the floor the label is HOLD, whatever the
      directional readings are. */
  lemma WeakTrendHolds(b: Bar)
    requires b.adx <= AdxTrendFloor
    ensures GetSignal(b) == HOLD
  {
  }

  /** Boundary values fall through to HOLD: each of the strict comparisons
      fails in both directions at equality. */
  lemma BoundaryHolds(b: Bar)
    requires b.rsi == RsiMidline || b.adx == AdxTrendFloor || b.close == b.ema200
          || b.macdLine == b.macdSignal || b.close == b.vwap
    ensures GetSignal(b) == HOLD
  {
  }

  /** The direction one comparison points in. */
  datatype Direction = Up | Down | Flat

  function Vote(x: real, reference: real): (d: Direction)
    ensures d == Up <==> x > reference
    ensures d == Down <==> x < reference
  {
    if x > reference then Up else if x < reference then Down else Flat
  }

  /** The four directional readings of a bar: momentum (RSI against its
      midline), long trend (close against EMA200), crossover (MACD line
      against its signal line) and value (close against VWAP). */
  function Votes(b: Bar): (vs: seq<Direction>)
    ensures |vs| == 4
  {
    [Vote(b.rsi, RsiMidline), Vote(b.close, b.ema200), Vote(b.macdLine, b.macdSignal), Vote(b.close, b.vwap)]
  }

  /** A reference statement of the rule as a vote: with a strong enough
      trend, a unanimous direction gives its label; anything else is HOLD. */
  function UnanimousSignal(b: Bar): Signal {
    if b.adx <= AdxTrendFloor then HOLD
    else if forall i | 0 <= i < 4 :: Votes(b)[i] == Up then BUY
    else if forall i | 0 <= i < 4 :: Votes(b)[i] == Down then SELL
    else HOLD
  }

  lemma GetSignalIsUnanimousVote(b: Bar)
    ensures GetSignal(b) == UnanimousSignal(b)
  {
    var vs := Votes(b);
    if b.adx > AdxTrendFloor {
      assert (forall i | 0 <= i < 4 :: vs[i] == Up) <==> vs[0] == Up && vs[1] == Up && vs[2] == Up && vs[3] == Up;
      assert (forall i | 0 <= i < 4 :: vs[i] == Down) <==> vs[0] == Down && vs[1] == Down && vs[2] == Down && vs[3] == Down;
    }
  }

  /** Mixed directional evidence gives HOLD: one bullish and one bearish
      reading among the four are enough. */
  lemma MixedEvidenceHolds(b: Bar, i: nat, j: nat)
    requires i < 4 && j < 4
    requires Votes(b)[i] == Up && Votes(b)[j] == Down
    ensures GetSignal(b) == HOLD
  {
    GetSignalIsUnanimousVote(b);
  }

  function Opposite(s: Signal): Signal {
    match s
    case BUY => SELL
    case SELL => BUY
    case HOLD => HOLD
  }

  /** The bar reflected through every threshold: RSI about its midline and
      every price-like level about zero, with trend strength unchanged. */
  function Mirror(b: Bar): Bar {
    Bar(2.0 * RsiMidline - b.rsi, b.adx, -b.close, -b.ema200, -b.macdLine, -b.macdSignal, -b.vwap)
  }

  /** SELL is the exact mirror image of BUY. */
  lemma MirrorSwapsSignal(b: Bar)
    ensures GetSignal(Mirror(b)) == Opposite(GetSignal(b))
  {
  }

  /** Worked examples: a bullish bar, a bearish bar, a weak-trend bar and a bar with RSI on its midline. */
  lemma WorkedExamples()
    ensures GetSignal(Bar(60.0, 25.0, 105.0, 100.0, 2.0, 1.0, 102.0)) == BUY
    ensures GetSignal(Bar(40.0, 25.0, 95.0, 100.0, -2.0, -1.0, 97.0)) == SELL
    ensures GetSignal(Bar(55.0, 15.0, 110.0, 100.0, 2.0, 1.0, 105.0)) == HOLD
    ensures GetSignal(Bar(50.0, 25.0, 105.0, 100.0, 2.0, 1.0, 102.0)) == HOLD
  {
  }
}
