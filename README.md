# Forecast form model

A Dafny model of the forecasting form of a stock, crypto and forex
prediction front end (`src/ForecastForm.js`). The user picks an instrument
type, a symbol or a currency pair from static lookup tables, a model and a
horizon. The form posts a prediction request and then shows a forecast list,
a forecast chart with a padded y-axis, accuracy metrics and a chart that
overlays historical prices with test predictions.

The model has these parts:

- `Instruments`: the three instrument types and the static lookup tables
  (lines 12-24). It also gives the options each selector offers and the
  defaults that the type-change effect picks.
- `Requests`: the request builder (`requestData`, lines 60-68). It is a
  total function. It has a read-back function and lemmas showing the
  request carries exactly the fields that belong to its type.
- `Horizon`: the clamp on the horizon field (line 260).
- `Series` and `Charts`: the point series and the `.map` projections that
  build the two chart data objects (lines 87-105 and 140-151). Each
  projection has a zip-back inverse.
- `Ranges`: `getPriceRange` (lines 131-138) and the tick step (line 168),
  computed over exact reals.
- `Responses`: the response body and the gate for the accuracy block
  (line 276).
- `Form`: the component state as the class `ForecastForm`, with one field
  per `useState` (lines 26-39). The class has the type-change effect, one
  method per input handler, and the submission split into three steps:
  `StartSubmit`, then `OnSuccess(response)` or `OnFailure()`. `HandleSubmit`
  runs a whole submission, with the network's answer passed in. The render
  gates (lines 267, 274, 276, 284, 298, 307) are predicates; the accuracy
  block has two, the gate as written and the intended one (see Findings). The invariant
  `ValidState` holds in every reachable state.

In these places the model follows what the code does:

- A base-currency change does not reset the target currency (line 215).
  The target can therefore be one the table does not allow for the new
  base (`Instruments.StaleTargetAfterBaseEdit`, `Form.StaleTargetScenario`).
- The request builder has no failure path. An unset currency goes into the
  request as an absent value. In reachable states this happens only for
  stock, where the currency fields are not used (`Form.ValidStateRequest`).
- No guard rejects a horizon outside [1, 14]. Instead, every edit is
  clamped, so the posted `dayCount` is always in range.
- Response series are assigned without defaulting.
- The overlay chart draws test prediction `i` against historical date `i`,
  counting from the start of the series. It is not aligned to the tail.

## Model

| member | source | states |
|---|---|---|
| Wrappers.Option.GetOr | src/ForecastForm.js:77 | the or-default returns the value when one is present and the default otherwise |
| Instruments.ParseType | src/ForecastForm.js:184-187 | a selector value reads back as the type whose tag it is; every other string is rejected |
| Instruments.TypeTag | src/ForecastForm.js:185-187 | stock, crypto and forex have the selector values "stock", "crypto" and "forex", and each value belongs to exactly one type |
| Instruments.TypeTagRoundTrip | src/ForecastForm.js:184-187 | reading back the tag of a type gives that type |
| Instruments.Keys | src/ForecastForm.js:217 | `Object.keys` lists each entry's key, in table order |
| Instruments.Lookup | src/ForecastForm.js:234-236 | `table[key]` is present exactly when the key is one of the table's keys, and it is the list of that key's entry |
| Instruments.HasKeyIff | src/ForecastForm.js:217 | the recursive key test agrees with membership in `Object.keys` |
| Instruments.CurrencyTable | src/ForecastForm.js:217 | the selectors read the crypto table for crypto and the forex table for forex |
| Instruments.BaseOptions | src/ForecastForm.js:217 | the base options are the active table's keys, one per entry, in table order |
| Instruments.TargetOptions | src/ForecastForm.js:234-236 | no base gives no options; a base that is a key gives exactly that key's list |
| Instruments.TablesHaveTargets | src/ForecastForm.js:13-24 | every entry of both currency tables allows at least one target |
| Instruments.TargetOptionsEmptyIff | src/ForecastForm.js:234-236 | the target options are empty exactly when the base is absent or not a key of the active table |
| Instruments.TargetOptionsInTable | src/ForecastForm.js:231-236 | every offered target is a target currency of the active table |
| Instruments.DefaultBase | src/ForecastForm.js:43-46 | the default base is a key of the active table |
| Instruments.DefaultTarget | src/ForecastForm.js:44-47 | the default target is the first option offered for the default base |
| Instruments.DefaultsValid | src/ForecastForm.js:41-51 | crypto resets to BTC/USD and forex to EUR/USD; the base is a key of its table and the target is allowed for it |
| Instruments.StaleTargetAfterBaseEdit | src/ForecastForm.js:215 | picking base GBP after the pair EUR/RUB keeps RUB, which GBP does not allow |
| Horizon.Min | src/ForecastForm.js:260 | `Math.min` is the smaller of its arguments |
| Horizon.Max | src/ForecastForm.js:260 | `Math.max` is the larger of its arguments |
| Horizon.Clamp | src/ForecastForm.js:260 | the result is in [1, 14]; values in range are kept; values below become 1 and values above become 14 |
| Horizon.ClampIdempotent | src/ForecastForm.js:260 | clamping twice is the same as clamping once |
| Horizon.ClampMonotone | src/ForecastForm.js:260 | a larger entry never gives a smaller horizon |
| Horizon.ClampNearest | src/ForecastForm.js:260 | no horizon in [1, 14] is closer to the entry than the clamped value |
| Horizon.ClampEdges | src/ForecastForm.js:260 | 0 becomes 1, 15 becomes 14, and 1 and 14 are kept |
| Requests.BuildRequest | src/ForecastForm.js:60-68 | type, dayCount and model are copied; stock sends its symbol; crypto sends base as symbol and target as market; forex sends base and target as fromSymbol and toSymbol; fields of other types are null |
| Requests.RequestSubject | src/ForecastForm.js:60-68 | a request reads back only when its null fields match its type |
| Requests.RequestRoundTrip | src/ForecastForm.js:60-68 | reading back a built request gives exactly the type-relevant selection |
| Requests.RequestDeterminedBySubject | src/ForecastForm.js:60-68 | two form states give the same request if and only if they agree on the type, the type-relevant selection, the horizon and the model |
| Requests.RequestComplete | src/ForecastForm.js:62-65 | once the active type's currency pair is set, every field of that type is non-null |
| Requests.EquityScenario | src/ForecastForm.js:60-68 | stock IBM with model lstm and horizon 3 gives the request with symbol IBM and null market and currency fields |
| Requests.CryptoScenario | src/ForecastForm.js:60-68 | crypto BTC/USD with horizon 1 gives symbol BTC, market USD, and null forex fields |
| Series.MapSeq | src/ForecastForm.js:141-145 | `.map` gives one result per element, at the same index |
| Series.Dates | src/ForecastForm.js:141 | one label per prediction: label `i` is the date of prediction `i` |
| Series.ClosePrices | src/ForecastForm.js:132 | one value per prediction: value `i` is the predicted close price of prediction `i` |
| Series.RecordDates | src/ForecastForm.js:88 | one label per historical point: label `i` is its `recordDate` |
| Series.HistoricalCloses | src/ForecastForm.js:92 | one value per historical point: value `i` is its `closePrice` |
| Series.TestPredictions | src/ForecastForm.js:99 | one value per predicted-test point: value `i` is its `predicted` |
| Charts.ForecastChartData | src/ForecastForm.js:140-151 | labels and data have the length of the predictions; label `i` is the date of prediction `i` and data `i` is its price |
| Charts.HistoricalChartData | src/ForecastForm.js:87-105 | labels and close prices follow the historical series by index; the test series follows the predicted-test series by index; the two lengths are independent |
| Charts.ForecastChartRoundTrip | src/ForecastForm.js:140-151 | zipping the forecast chart's labels and data gives back the predictions |
| Charts.HistoricalChartRoundTrip | src/ForecastForm.js:87-105 | zipping the overlay's labels and close prices gives back the historical series; its test series gives back the test points |
| Ranges.SeqMin | src/ForecastForm.js:133 | the minimum is one of the prices and no price is below it |
| Ranges.SeqMax | src/ForecastForm.js:134 | the maximum is one of the prices and no price is above it |
| Ranges.GetPriceRange | src/ForecastForm.js:131-138 | every predicted price lies in the range; both ends are padded by 5% of the spread between the lowest and highest price |
| Ranges.StepSize | src/ForecastForm.js:168 | five steps span the range exactly; the step is non-negative when min <= max |
| Ranges.ForecastAxis | src/ForecastForm.js:153-172 | the axis ends are the padded range of `getPriceRange`; min <= max; the step is non-negative and five steps span the axis; every price lies on the axis |
| Ranges.MinMaxEqualIff | src/ForecastForm.js:133-134 | the lowest price equals the highest exactly when all prices are equal |
| Ranges.RangeDegenerateIff | src/ForecastForm.js:131-138 | the range collapses, and the padding is zero, exactly when all prices are equal |
| Ranges.SinglePointAxis | src/ForecastForm.js:168 | one point gives an axis from its price to its price, with step 0 |
| Ranges.ThreePointAxis | src/ForecastForm.js:131-138 | prices 100, 110 and 90 give min 89, max 111 and step 4.4 |
| Responses.MetricsGateAsWritten | src/ForecastForm.js:276 | the written gate `rmse !== null && mae !== null` passes for two numbers and fails when either metric is null |
| Responses.MetricsGate | src/ForecastForm.js:276 | the intended gate passes exactly when both metrics are numbers |
| Responses.AbsentMetricsPassGate | src/ForecastForm.js:276 | with `rmse` and `mae` missing from the body, the written gate passes and the intended gate does not |
| Responses.MetricsGatesDiffer | src/ForecastForm.js:276 | the intended gate implies the written one; they differ exactly when neither metric is null and at least one is missing |
| Form.RequestOf | src/ForecastForm.js:60-68 | the posted request carries the state's type, horizon and model, and its nulls match its type |
| Form.ValidStateFrame | src/ForecastForm.js:26-39 | the invariant depends only on the selection fields |
| Form.InitialStateValid | src/ForecastForm.js:26-39 | the mounted state satisfies the invariant |
| Form.ValidStateRequest | src/ForecastForm.js:60-68 | from a reachable state the request is complete, its nulls match its type, dayCount is in [1, 14], and its symbol or base comes from the tables |
| Form.ValidStateOffersTargets | src/ForecastForm.js:234-236 | in a reachable crypto or forex state the target options are never empty |
| Form.ForecastForm.constructor | src/ForecastForm.js:26-51 | the mounted state is: stock IBM, no currencies, horizon 1, lstm, empty series, empty result and error, not loading, null metrics |
| Form.ForecastForm.ApplyTypeEffect | src/ForecastForm.js:41-51 | crypto and forex get their default pair and stock its first symbol; nothing else changes; the invariant holds afterwards |
| Form.ForecastForm.SelectType | src/ForecastForm.js:184 | choosing the current type changes nothing; choosing another type sets it and applies that type's reset; the invariant is kept |
| Form.ForecastForm.SelectSymbol | src/ForecastForm.js:197 | only the symbol changes |
| Form.ForecastForm.SelectBaseCurrency | src/ForecastForm.js:215 | only the base changes; the target keeps its old value |
| Form.ForecastForm.SelectTargetCurrency | src/ForecastForm.js:232 | only the target changes, to one of the offered options |
| Form.ForecastForm.SelectModel | src/ForecastForm.js:249 | only the model changes |
| Form.ForecastForm.EditForecastCount | src/ForecastForm.js:260 | only the horizon changes, to the clamped entry |
| Form.ForecastForm.StartSubmit | src/ForecastForm.js:53-68 | loading is set, the error and metrics are cleared, and nothing else changes; the request is built from the state when submit was pressed |
| Form.ForecastForm.OnSuccess | src/ForecastForm.js:70-83 | the series and metrics are replaced by the response's; result becomes the response's result or the empty string; the error is cleared; loading ends; the accuracy block as written shows exactly when neither metric is null, and with the intended gate exactly when both are numbers; the forecast shows exactly when there are predictions |
| Form.ForecastForm.OnFailure | src/ForecastForm.js:79-84 | a non-empty error is set and loading ends; the series, result and metrics are unchanged |
| Form.ForecastForm.HandleSubmit | src/ForecastForm.js:53-85 | after a failure, the series and result are as before the submission and the metrics are null; after a success they are the response's |
| Form.ForecastForm.SubmitEnabled | src/ForecastForm.js:267 | the submit button is enabled exactly when no request is in flight |
| Form.ForecastForm.ShowsError | src/ForecastForm.js:274 | the alert is shown exactly when the error text is non-empty |
| Form.ForecastForm.ShowsMetrics | src/ForecastForm.js:276 | the accuracy block as written: shown for two numbers and for two missing metrics, never when a metric is null |
| Form.ForecastForm.ShowsMetricsIntended | src/ForecastForm.js:276 | the accuracy block with the intended gate: shown exactly when both metrics are numbers, and then the written gate shows it too |
| Form.ForecastForm.ShowsForecast | src/ForecastForm.js:284 | the forecast list and chart are shown exactly when the forecast chart has a point |
| Form.ForecastForm.ShowsHistoricalChart | src/ForecastForm.js:307 | the overlay is shown exactly when both of its series have a point |
| Form.ForecastForm.ForecastView | src/ForecastForm.js:298-302 | when the forecast chart is shown, label `i` and value `i` are the date and price of prediction `i`, the axis ends are the padded range of `getPriceRange`, and every value lies on the axis; five steps span it |
| Form.StaleTargetScenario | src/ForecastForm.js:214-236 | switching to forex, picking RUB and then base GBP posts the pair GBP/RUB |

## Left out

- Rendering: the JSX, the react-bootstrap widgets, Chart.js registration, titles, colours and chart options other than the y-axis (lines 107-129 and the dataset styling), and `src/App.js`. These are presentation only.
- The axios POST, `await` and `console.error` (lines 71 and 80). The network's answer is a parameter of `OnSuccess` or `HandleSubmit`, and any failure is one `OnFailure`. React re-renders and the `[type]` effect run synchronously inside `SelectType` and the constructor.
- `e.preventDefault()` (line 54); it affects only the browser.
- Ranges.GetPriceRange: requires a non-empty list. Line 153 also runs it when there are no predictions. JavaScript then gives `Math.min()` = Infinity and `Math.max()` = -Infinity, so the buffer is -Infinity, the range is min Infinity and max -Infinity, and the step at line 168 is -Infinity. The chart is shown only for non-empty predictions (line 298). Prices are exact reals, not IEEE doubles.
- Form.ForecastForm.EditForecastCount: takes an integer. On the raw input string, JavaScript coerces `""` to 0, gives NaN for text and keeps fractions like 2.5; the model does not represent these cases.
- Responses.Response: the three series are always present. When the body omits one, the code stores `undefined`, and the next render fails on `.length` or `.map`. The `result` field is a string or absent. Other falsy values that `|| ''` would also replace are not modelled.
- Instruments.Lookup: a key that is an inherited object property, such as `constructor`, is not modelled. The selectors never offer one.
- Form.ForecastForm.SelectSymbol, SelectBaseCurrency, SelectTargetCurrency, SelectModel: each requires its value to be an option of the selector and the selector to be on screen (lines 191 and 208). The DOM delivers no other values.
- The request's `type` field is `instrument` in the model, because `type` is a Dafny keyword. Its wire value is `Instruments.TypeTag`.

## Findings

| source | as written | input that shows it | evidently intended | confidence | as-written member | corrected member |
|---|---|---|---|---|---|---|
| src/ForecastForm.js:276 | `rmse !== null && mae !== null` tests strictly against `null`, but lines 75-76 store `undefined` when the body has no `rmse` or `mae` | a successful response body with `predictions` but no `rmse` and `mae` fields: the accuracy block is drawn with two empty values | show the accuracy block only when both metrics are numbers | not executed; medium | Responses.AbsentMetricsPassGate | Form.ForecastForm.ShowsMetricsIntended |
