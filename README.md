# Smart trading dashboard: the signal rule, verified

This project models the decision logic of a one-page trading dashboard. The
dashboard fetches recent price bars for a symbol and adds technical
indicators (RSI, ADX, MACD line and signal, EMA200, VWAP). It then labels the
latest bar `BUY`, `SELL` or `HOLD`.

- `signal_rule.dfy`, module `SignalRule`: the rule `get_signal` over a `Bar`
  whose seven indicator fields are all defined reals. BUY needs five strict
  bullish comparisons: RSI above 50, ADX above 20, close above EMA200, MACD
  line above MACD signal and close above VWAP. SELL needs the five mirror-image
  comparisons. Everything else is HOLD. The rule is also restated as a
  unanimous vote of four directional readings, gated by trend strength, and the
  two statements are proved equal.
- `readings.dfy`, module `Readings`: the same rule on rows of the enriched
  table as they really are. Each column may still be NaN during indicator
  warm-up, and every float comparison with NaN is false. Such rows are always
  HOLD. On fully defined rows the row rule equals the bar rule.
- `dashboard.dfy`, module `Dashboard`: the driver. Python's `"/" in symbol`
  is modelled as a substring search and proved equal to "the symbol contains
  '/'". Such a symbol goes to the crypto provider, any other to the stock
  provider. The label is computed from the last row of the enriched series.
  An empty series has no last row (`df.iloc[-1]` raises), and the top-level
  handler shows that as an error: this is `Err(NoRows)`. A failure of the
  provider is `Err(ProviderFailure(..))`. What each provider returns, already
  enriched, is a parameter of `Request`.

`GetSignal`, `RowSignal`, `Route`, `ClassifyLatest` and `Request` have no
`requires`. Every input therefore yields exactly one result, and as Dafny
functions they are deterministic. This is the totality and purity the rule
promises.

Two facts about the code shape the model:

- An indicator column is NaN until the indicator has enough bars. The rule
  compares floats, so a NaN field makes every comparison false and the row is
  HOLD (`Readings.WarmUpRowHolds`).
- The rule reads seven columns: rsi, adx, close, ema200, macd_line,
  macd_signal and vwap. `Bar` and `Row` hold exactly these.

## Model

| member | source | states |
|---|---|---|
| SignalRule.GetSignal | app.py:33-51 | BUY exactly when all five strict bullish comparisons hold. SELL exactly when all five strict bearish comparisons hold, although SELL is tested only after BUY fails. HOLD exactly when neither conjunction holds |
| SignalRule.BullishBearishExclusive | app.py:35-49 | the BUY and SELL conjunctions never hold together, since RSI cannot be both above and below 50 |
| SignalRule.BranchOrderIrrelevant | app.py:34-51 | testing SELL before BUY gives the same label for every bar |
| SignalRule.WeakTrendHolds | app.py:36 | with ADX at or below 20 the label is HOLD, whatever the other fields are |
| SignalRule.BoundaryHolds | app.py:35-47 | a bar with RSI equal to 50, ADX equal to 20, close equal to EMA200, MACD line equal to MACD signal or close equal to VWAP is HOLD |
| SignalRule.GetSignalIsUnanimousVote | app.py:33-51 | the rule equals an independent vote-based definition: with ADX above 20, four Up readings give BUY, four Down readings give SELL, anything else gives HOLD |
| SignalRule.MixedEvidenceHolds | app.py:34-51 | if one directional reading is bullish and another is bearish, the label is HOLD |
| SignalRule.MirrorSwapsSignal | app.py:34-49 | reflecting a bar through its thresholds swaps BUY and SELL and keeps HOLD. SELL is the exact mirror of BUY |
| SignalRule.WorkedExamples | app.py:33-51 | the worked examples: a bullish bar is BUY, a bearish bar is SELL, a bar with ADX 15 is HOLD, a bar with RSI 50 is HOLD |
| Readings.RowSignal | app.py:33-51 | the rule as the dashboard applies it, with float comparisons: BUY exactly when the row has no NaN column and its values pass the five bullish comparisons. SELL exactly when the row has no NaN column and its values pass the five bearish comparisons. HOLD otherwise |
| Readings.RowSignalAgrees | app.py:33-51 | on a row with every column defined, the float-comparison evaluation equals the bar rule |
| Readings.WarmUpRowHolds | app.py:34-51 | a row with any NaN column in the seven read is HOLD, because every such comparison is false |
| Readings.RowSignalCharacterised | app.py:33-51 | a row gets BUY or SELL exactly when it is fully defined and the bar rule gives that label. A defined row always gets the bar rule's label |
| Dashboard.Contains | app.py:57 | Python's substring test `needle in hay`: an empty needle is always found, and a needle longer than the text is never found. `ContainsIffOccurs` gives the full characterisation |
| Dashboard.ContainsIffOccurs | app.py:57 | the substring search succeeds exactly when the needle occurs at some index of the symbol |
| Dashboard.ContainsCharIffMember | app.py:57 | for a one-character needle, the substring test is membership of that character |
| Dashboard.Route | app.py:57-60 | the crypto source is chosen exactly when the symbol contains '/'. The stock source is chosen exactly when it does not |
| Dashboard.ClassifyLatest | app.py:63 | an empty series is an error. A non-empty series gets the label of its last row |
| Dashboard.LatestOnlyDependsOnLastRow | app.py:63 | two non-empty series with the same last row get the same label. Earlier rows do not matter |
| Dashboard.ClassifyAfterAppend | app.py:63 | after a row is appended, the label is that row's label |
| Dashboard.DefinedLastRowUsesBarRule | app.py:63 | a series that ends in a fully defined bar gets the bar rule's label for that bar |
| Dashboard.Request | app.py:56-63 | the failure of the routed provider is the outcome. Otherwise the outcome is the classification of that provider's series |
| Dashboard.UnusedProviderIrrelevant | app.py:57-60 | what the provider that was not chosen returns has no effect on the outcome |

## Left out

- Fetching (`fetch_crypto`, `fetch_stock`): these are network calls through ccxt and yfinance plus DataFrame reshaping. Their outcome, a series or a failure, is a parameter of `Request`.
- Indicator computation (`add_indicators`): RSI, ADX, MACD and EMA come from the `ta` library, and VWAP is a floating-point cumulative-sum ratio. The model takes the enriched values as given and does not derive them. When a column is still in warm-up is therefore not modelled either.
- Floating point: readings are exact reals or NaN. Rounding is not modelled, and neither are infinities. The rule only compares values, so rounding cannot change which branch is taken for given readings.
- Exception text: the handler shows `Error: <exception text>`. The model keeps only the kind of failure and a message parameter.
- Rendering: the Streamlit title, text input, chart, subheader and five-row table are not modelled, and neither is Streamlit's rerun on input.
