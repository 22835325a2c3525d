/** The state of the `ForecastForm` component (lines 26-39) and the
    transitions its handlers and effect make on it, run synchronously: the
    network call of `handleSubmit` is split into `StartSubmit` and the
    completion `OnSuccess` or `OnFailure`. */
module Form {
  import opened Wrappers
  import opened Instruments
  import opened Requests
  import opened Horizon
  import opened Series
  import opened Charts
  import opened Ranges
  import opened Responses

  /** The values of the model selector (lines 250-251). */
  const MODELS: seq<string> := ["lstm", "linear_regression"]

  /** A snapshot of every state field of the component. */
  datatype FormState = FormState(
    instrument: InstrumentType,
    symbol: string,
    baseCurrency: Option<string>,
    targetCurrency: Option<string>,
    forecastCount: int,
    model: string,
    predictions: seq<ForecastPoint>,
    predictedTest: seq<PredictedTestPoint>,
    historicalData: seq<HistoricalPoint>,
    result: string,
    error: string,
    loading: bool,
    rmse: MetricField,
    mae: MetricField)

  /** The state after mounting: lines 26-39, then the effect for `stock`,
      which sets the symbol it already has. */
  const INITIAL_STATE: FormState :=
    FormState(Stock, "IBM", None, None, 1, "lstm", [], [], [], "", "", false, Null, Null)

  /** What every reachable state satisfies: the horizon is clamped, the
      symbol and model are selector values, and for crypto and forex the
      base is a key of the active table and the target one of its target
      currencies (though not necessarily one allowed for that base). */
  ghost predicate ValidState(s: FormState)
  {
    && ValidInputs(s)
    && (s.instrument != Stock ==>
          && s.baseCurrency.Some? && HasKey(CurrencyTable(s.instrument), s.baseCurrency.value)
          && s.targetCurrency.Some? && HasTarget(CurrencyTable(s.instrument), s.targetCurrency.value))
  }

  /** The part of `ValidState` that the type-change effect does not touch:
      the horizon is clamped and the symbol and model are selector values. */
  ghost predicate ValidInputs(s: FormState)
  {
    && MIN_HORIZON <= s.forecastCount <= MAX_HORIZON
    && s.symbol in STOCK_SYMBOLS
    && s.model in MODELS
  }

  /** The request `handleSubmit` posts from state `s`. */
  function RequestOf(s: FormState): (r: ForecastRequest)
    ensures r.instrument == s.instrument && r.dayCount == s.forecastCount && r.model == s.model
    ensures NullsMatchType(r)
  {
    BuildRequest(s.instrument, s.symbol, s.baseCurrency, s.targetCurrency, s.forecastCount, s.model)
  }

  /** Only the selection fields matter to `ValidState`. */
  lemma ValidStateFrame(s: FormState, s': FormState)
    requires ValidState(s)
    requires s'.instrument == s.instrument && s'.symbol == s.symbol && s'.model == s.model
    requires s'.baseCurrency == s.baseCurrency && s'.targetCurrency == s.targetCurrency
    requires s'.forecastCount == s.forecastCount
    ensures ValidState(s')
  {
  }

  lemma InitialStateValid()
    ensures ValidState(INITIAL_STATE)
  {
  }

  /** From a reachable state the request is complete, its horizon lies in
      [1, 14], and its instrument fields come from the lookup tables. */
  lemma ValidStateRequest(s: FormState)
    requires ValidState(s)
    ensures Complete(RequestOf(s)) && NullsMatchType(RequestOf(s))
    ensures MIN_HORIZON <= RequestOf(s).dayCount <= MAX_HORIZON
    ensures RequestOf(s).instrument == Stock ==> RequestOf(s).symbol.value in STOCK_SYMBOLS
    ensures RequestOf(s).instrument == Crypto ==> RequestOf(s).symbol.value in BaseOptions(Crypto)
    ensures RequestOf(s).instrument == Forex ==> RequestOf(s).fromSymbol.value in BaseOptions(Forex)
  {
    RequestComplete(s.instrument, s.symbol, s.baseCurrency, s.targetCurrency, s.forecastCount, s.model);
    if s.instrument != Stock {
      HasKeyIff(CurrencyTable(s.instrument), s.baseCurrency.value);
    }
  }

  /** In a reachable crypto or forex state the target selector is never
      the empty `|| []` fallback. */
  lemma ValidStateOffersTargets(s: FormState)
    requires ValidState(s) && s.instrument != Stock
    ensures TargetOptions(s.instrument, s.baseCurrency) != []
  {
    HasKeyIff(CurrencyTable(s.instrument), s.baseCurrency.value);
    TargetOptionsEmptyIff(s.instrument, s.baseCurrency);
  }

  class ForecastForm {
    var instrument: InstrumentType
    var symbol: string
    var baseCurrency: Option<string>
    var targetCurrency: Option<string>
    var forecastCount: int
    var model: string
    var predictions: seq<ForecastPoint>
    var predictedTest: seq<PredictedTestPoint>
    var historicalData: seq<HistoricalPoint>
    var result: string
    var error: string
    var loading: bool
    var rmse: MetricField
    var mae: MetricField

    function State(): FormState
      reads this
    {
      FormState(instrument, symbol, baseCurrency, targetCurrency, forecastCount, model,
                predictions, predictedTest, historicalData, result, error, loading, rmse, mae)
    }

    ghost predicate Valid()
      reads this
    {
      ValidState(State())
    }

    constructor ()
      ensures State() == INITIAL_STATE && Valid()
    {
      instrument, symbol, baseCurrency, targetCurrency := Stock, "IBM", None, None;
      forecastCount, model := 1, "lstm";
      predictions, predictedTest, historicalData := [], [], [];
      result, error, loading, rmse, mae := "", "", false, Null, Null;
      new;
      ApplyTypeEffect();
    }

    /** The effect on `[type]` (lines 41-51): crypto and forex get their
        default pair, stock its first symbol; nothing else changes. It runs
        only from the constructor and from `SelectType`, where the type may
        have just changed, so it needs only `ValidInputs` and restores the
        whole invariant. */
    method ApplyTypeEffect()
      requires ValidInputs(State())
      modifies this
      ensures Valid()
      ensures instrument == Crypto || instrument == Forex ==>
                State() == old(State()).(baseCurrency := Some(DefaultBase(instrument)),
                                         targetCurrency := Some(DefaultTarget(instrument)))
      ensures instrument == Stock ==> State() == old(State()).(symbol := STOCK_SYMBOLS[0])
      ensures instrument != Stock ==>
                baseCurrency.value in BaseOptions(instrument)
                && targetCurrency.value in TargetOptions(instrument, baseCurrency)
    {
      if instrument == Crypto || instrument == Forex {
        DefaultsValid(instrument);
        baseCurrency := Some(DefaultBase(instrument));
        targetCurrency := Some(DefaultTarget(instrument));
      } else {
        symbol := STOCK_SYMBOLS[0];
      }
    }

    /** The type selector (line 184). Choosing the current type changes
        nothing, so the effect does not run; otherwise the effect resets
        the new type's fields. */
    method SelectType(t: InstrumentType)
      requires Valid()
      modifies this
      ensures Valid() && instrument == t
      ensures t == old(instrument) ==> State() == old(State())
      ensures t != old(instrument) && t != Stock ==>
                State() == old(State()).(instrument := t, baseCurrency := Some(DefaultBase(t)),
                                         targetCurrency := Some(DefaultTarget(t)))
      ensures t != old(instrument) && t == Stock ==>
                State() == old(State()).(instrument := t, symbol := STOCK_SYMBOLS[0])
    {
      if t != instrument {
        instrument := t;
        ApplyTypeEffect();
      }
    }

    /** The symbol selector, shown for stock (lines 191-197). */
    method SelectSymbol(s: string)
      requires Valid() && instrument == Stock && s in STOCK_SYMBOLS
      modifies this
      ensures Valid() && State() == old(State()).(symbol := s)
    {
      symbol := s;
    }

    /** The base-currency selector (lines 214-217): only the base changes;
        the target keeps its old value. */
    method SelectBaseCurrency(b: string)
      requires Valid() && instrument != Stock && b in BaseOptions(instrument)
      modifies this
      ensures Valid() && State() == old(State()).(baseCurrency := Some(b))
      ensures targetCurrency == old(targetCurrency)
    {
      HasKeyIff(CurrencyTable(instrument), b);
      baseCurrency := Some(b);
    }

    /** The target-currency selector, offering `table[base] || []` (lines
        231-236). */
    method SelectTargetCurrency(c: string)
      requires Valid() && instrument != Stock && c in TargetOptions(instrument, baseCurrency)
      modifies this
      ensures Valid() && State() == old(State()).(targetCurrency := Some(c))
      ensures targetCurrency.value in TargetOptions(instrument, baseCurrency)
    {
      TargetOptionsInTable(instrument, baseCurrency, c);
      targetCurrency := Some(c);
    }

    /** The model selector (line 249). */
    method SelectModel(m: string)
      requires Valid() && m in MODELS
      modifies this
      ensures Valid() && State() == old(State()).(model := m)
    {
      model := m;
    }

    /** The horizon field (line 260): the entry is clamped into [1, 14]. */
    method EditForecastCount(v: int)
      requires Valid()
      modifies this
      ensures Valid() && State() == old(State()).(forecastCount := Clamp(v))
      ensures MIN_HORIZON <= v <= MAX_HORIZON ==> forecastCount == v
    {
      forecastCount := Clamp(v);
    }

    /** The start of `handleSubmit` (lines 55-68), allowed only while the
        submit button is enabled (line 267): loading is set, the error and
        the metrics are cleared, and the request is built. */
    method StartSubmit() returns (req: ForecastRequest)
      requires Valid() && !loading
      modifies this
      ensures Valid() && State() == old(State()).(loading := true, error := "", rmse := Null, mae := Null)
      ensures req == RequestOf(old(State()))
      ensures !SubmitEnabled() && !ShowsError() && !ShowsMetrics() && !ShowsMetricsIntended()
    {
      ghost var before := State();
      loading := true;
      error := "";
      rmse := Null;
      mae := Null;
      req := BuildRequest(instrument, symbol, baseCurrency, targetCurrency, forecastCount, model);
      ValidStateFrame(before, State());
    }

    /** A successful reply (lines 72-78, then 83): every series and metric
        is replaced by the response's, `result || ''` is stored, the error
        is cleared and loading ends. */
    method OnSuccess(resp: Response)
      requires Valid() && loading
      modifies this
      ensures Valid()
      ensures State() == old(State()).(predictions := resp.predictions, predictedTest := resp.predictedTest,
                                       historicalData := resp.historicalData, rmse := resp.rmse, mae := resp.mae,
                                       result := resp.result.GetOr(""), error := "", loading := false)
      ensures SubmitEnabled() && !ShowsError()
      ensures ShowsMetrics() <==> resp.rmse != Null && resp.mae != Null
      ensures ShowsMetricsIntended() <==> resp.rmse.Value? && resp.mae.Value?
      ensures ShowsForecast() <==> |resp.predictions| > 0
    {
      ghost var before := State();
      predictions := resp.predictions;
      predictedTest := resp.predictedTest;
      historicalData := resp.historicalData;
      rmse := resp.rmse;
      mae := resp.mae;
      result := resp.result.GetOr("");
      error := "";
      loading := false;
      ValidStateFrame(before, State());
    }

    /** A failed request (lines 81 and 83): the error message is set and
        loading ends; the previous results stay. */
    method OnFailure()
      requires Valid() && loading
      modifies this
      ensures Valid() && State() == old(State()).(error := FAILURE_MESSAGE, loading := false)
      ensures SubmitEnabled() && ShowsError()
    {
      ghost var before := State();
      error := FAILURE_MESSAGE;
      loading := false;
      ValidStateFrame(before, State());
    }

    /** One whole submission, with the network's answer as a parameter:
        `Some(resp)` for a response, `None` for any failure. A failure
        leaves every series and `result` as they were before and the
        metrics `null`. */
    method HandleSubmit(reply: Option<Response>) returns (req: ForecastRequest)
      requires Valid() && !loading
      modifies this
      ensures Valid() && req == RequestOf(old(State())) && !loading
      ensures reply.Some? ==>
                State() == old(State()).(predictions := reply.value.predictions, predictedTest := reply.value.predictedTest,
                                         historicalData := reply.value.historicalData, rmse := reply.value.rmse,
                                         mae := reply.value.mae, result := reply.value.result.GetOr(""), error := "")
      ensures reply.None? ==>
                State() == old(State()).(error := FAILURE_MESSAGE, rmse := Null, mae := Null)
    {
      req := StartSubmit();
      match reply
      case Some(resp) => OnSuccess(resp);
      case None => OnFailure();
    }

    /** The submit button is enabled (line 267): no request is in flight. */
    function SubmitEnabled(): (r: bool)
      reads this
      ensures r <==> !loading
    {
      !loading
    }

    /** The error alert is shown (line 274): the error text is non-empty. */
    function ShowsError(): (r: bool)
      reads this
      ensures r <==> |error| > 0
    {
      error != ""
    }

    /** The accuracy block is shown (line 276), with the gate as written:
        it is drawn for two numbers, never when a metric is `null`, and
        also when a metric is missing. */
    function ShowsMetrics(): (r: bool)
      reads this
      ensures rmse.Value? && mae.Value? ==> r
      ensures rmse == Null || mae == Null ==> !r
      ensures rmse == Absent && mae == Absent ==> r
    {
      MetricsGateAsWritten(rmse, mae)
    }

    /** The accuracy block with the intended gate: drawn only when both
        metrics are numbers, and then the written gate agrees. */
    function ShowsMetricsIntended(): (r: bool)
      reads this
      ensures r <==> rmse.Value? && mae.Value?
      ensures r ==> ShowsMetrics()
    {
      MetricsGate(rmse, mae)
    }

    /** The forecast list and chart are shown (lines 284 and 298): exactly
        when the forecast chart has at least one point. */
    function ShowsForecast(): (r: bool)
      reads this
      ensures r <==> |ForecastChartData(predictions).labels| > 0
    {
      |predictions| > 0
    }

    /** The overlay chart is shown (line 307): exactly when both of its
        series have at least one point. */
    function ShowsHistoricalChart(): (r: bool)
      reads this
      ensures r <==> |HistoricalChartData(historicalData, predictedTest).closePrices| > 0
                     && |HistoricalChartData(historicalData, predictedTest).testPredictions| > 0
    {
      |historicalData| > 0 && |predictedTest| > 0
    }

    /** The forecast chart's data and y-axis, defined whenever it is shown. */
    function ForecastView(): (v: (ForecastChart, Axis))
      reads this
      requires ShowsForecast()
      ensures |v.0.labels| == |predictions| && |v.0.data| == |predictions| && v.1.stepSize >= 0.0
      ensures forall i :: 0 <= i < |predictions| ==>
                v.0.labels[i] == predictions[i].date && v.0.data[i] == predictions[i].predictedClosePrice
      ensures forall i :: 0 <= i < |predictions| ==> v.1.min <= v.0.data[i] <= v.1.max
      ensures v.1.min == GetPriceRange(predictions).min && v.1.max == GetPriceRange(predictions).max
      ensures 5.0 * v.1.stepSize == v.1.max - v.1.min
    {
      (ForecastChartData(predictions), ForecastAxis(predictions))
    }
  }

  /** A client scenario: switching to forex, picking EUR/RUB and then base GBP
      posts GBP/RUB, a pair the forex table does not allow for GBP. */
  method StaleTargetScenario() returns (req: ForecastRequest)
    ensures req.fromSymbol == Some("GBP") && req.toSymbol == Some("RUB")
    ensures "RUB" !in TargetOptions(Forex, Some("GBP"))
  {
    var f := new ForecastForm();
    f.SelectType(Forex);
    assert f.baseCurrency == Some("EUR");
    StaleTargetAfterBaseEdit();
    f.SelectTargetCurrency("RUB");
    f.SelectBaseCurrency("GBP");
    req := f.HandleSubmit(None);
  }
}
