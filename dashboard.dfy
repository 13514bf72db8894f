/** The driver around the rule: choose a data provider from the symbol,
    take the enriched series it yields and classify its last row. Fetching
    and indicator computation are outside the model; their outcome is a
    parameter. */
module Dashboard {
  import opened SignalRule
  import opened Readings

  /** Why the dashboard shows an error instead of a signal. */
  datatype Failure =
    | ProviderFailure(message: string)  // fetching or enriching raised
    | NoRows                            // the last row of an empty table does not exist

  datatype Result<T> = Ok(value: T) | Err(error: Failure)

  datatype Source = Crypto | Stock

  /** `needle` occurs in `hay` starting at index `i`. */
  predicate OccursAt(hay: string, needle: string, i: int) {
    0 <= i && i + |needle| <= |hay| && hay[i..i + |needle|] == needle
  }

  predicate StartsWith(hay: string, needle: string) {
    |needle| <= |hay| && hay[..|needle|] == needle
  }

  /** Python's `needle in hay` on strings: a substring test, searched from
      the front. */
  function Contains(hay: string, needle: string): (found: bool)
    ensures needle == [] ==> found
    ensures found ==> |needle| <= |hay|
    decreases |hay|
  {
    StartsWith(hay, needle) || (|hay| > 0 && Contains(hay[1..], needle))
  }

  /** Shifting the search window by one character. */
  lemma OccursAtShift(hay: string, needle: string, i: int)
    requires |hay| > 0 && 0 < i
    ensures OccursAt(hay, needle, i) <==> OccursAt(hay[1..], needle, i - 1)
  {
    if i + |needle| <= |hay| {
      assert hay[i..i + |needle|] == hay[1..][i - 1..i - 1 + |needle|];
    }
  }

  /** The search finds `needle` exactly when it occurs somewhere in `hay`. */
  lemma {:induction false} ContainsIffOccurs(hay: string, needle: string)
    ensures Contains(hay, needle) <==> exists i :: OccursAt(hay, needle, i)
    decreases |hay|
  {
    if StartsWith(hay, needle) {
      assert OccursAt(hay, needle, 0);
    } else if |hay| > 0 {
      var tail := hay[1..];
      ContainsIffOccurs(tail, needle);
      forall i | 0 < i
        ensures OccursAt(hay, needle, i) <==> OccursAt(tail, needle, i - 1)
      {
        OccursAtShift(hay, needle, i);
      }
      if Contains(tail, needle) {
        var j :| OccursAt(tail, needle, j);
        assert OccursAt(hay, needle, j + 1);
      }
    }
  }

  /** For a one-character needle the substring test is membership. */
  lemma ContainsCharIffMember(hay: string, c: char)
    ensures Contains(hay, [c]) <==> c in hay
  {
    ContainsIffOccurs(hay, [c]);
    forall i | OccursAt(hay, [c], i) ensures 0 <= i < |hay| && hay[i] == c {
      assert hay[i..i + 1][0] == hay[i];
    }
    if c in hay {
      var i :| 0 <= i < |hay| && hay[i] == c;
      assert hay[i..i + 1] == [c];
      assert OccursAt(hay, [c], i);
    }
  }

  /** A symbol with a '/' is a crypto pair; every other symbol is a stock ticker. */
  function Route(symbol: string): (src: Source)
    ensures src == Crypto <==> '/' in symbol
    ensures src == Stock <==> '/' !in symbol
  {
    ContainsCharIffMember(symbol, '/');
    if Contains(symbol, "/") then Crypto else Stock
  }

  /** The label of the last row of the enriched series; an empty series has
      no last row, which the dashboard reports as an error. */
  function ClassifyLatest(series: seq<Row>): (r: Result<Signal>)
    ensures series == [] <==> r == Err(NoRows)
    ensures series != [] ==> r == Ok(RowSignal(series[|series| - 1]))
  {
    if |series| == 0 then Err(NoRows) else Ok(RowSignal(series[|series| - 1]))
  }

  /** Earlier rows never influence the label: two series with the same last
      row are classified alike. */
  lemma LatestOnlyDependsOnLastRow(s: seq<Row>, t: seq<Row>)
    requires s != [] && t != []
    requires s[|s| - 1] == t[|t| - 1]
    ensures ClassifyLatest(s) == ClassifyLatest(t)
  {
  }

  /** Appending a row replaces the label by that row's label. */
  lemma ClassifyAfterAppend(history: seq<Row>, row: Row)
    ensures ClassifyLatest(history + [row]) == Ok(RowSignal(row))
  {
  }

  /** A series whose last row is fully defined is classified by the bar rule. */
  lemma DefinedLastRowUsesBarRule(history: seq<Row>, b: Bar)
    ensures ClassifyLatest(history + [Lift(b)]) == Ok(GetSignal(b))
  {
    RowSignalAgrees(b);
  }

  /** One request: route the symbol, take the enriched series of the chosen
      provider (or the failure it raised) and classify its last row. Only
      the chosen provider's outcome is used. */
  function Request(symbol: string, cryptoSeries: Result<seq<Row>>, stockSeries: Result<seq<Row>>)
    : (r: Result<Signal>)
    ensures '/' in symbol && cryptoSeries.Err? ==> r == Err(cryptoSeries.error)
    ensures '/' !in symbol && stockSeries.Err? ==> r == Err(stockSeries.error)
    ensures '/' in symbol && cryptoSeries.Ok? ==> r == ClassifyLatest(cryptoSeries.value)
    ensures '/' !in symbol && stockSeries.Ok? ==> r == ClassifyLatest(stockSeries.value)
  {
    var chosen := if Route(symbol) == Crypto then cryptoSeries else stockSeries;
    match chosen
    case Err(e) => Err(e)
    case Ok(series) => ClassifyLatest(series)
  }

  /** The provider a symbol is not routed to has no effect on the outcome. */
  lemma UnusedProviderIrrelevant(symbol: string, crypto: Result<seq<Row>>, stock: Result<seq<Row>>,
                                 other: Result<seq<Row>>)
    ensures '/' in symbol ==> Request(symbol, crypto, stock) == Request(symbol, crypto, other)
    ensures '/' !in symbol ==> Request(symbol, crypto, stock) == Request(symbol, other, stock)
  {
  }
}
