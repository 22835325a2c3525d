/** The body the prediction service answers with, as the form reads it
    (lines 72-77), and the accuracy-block gate (line 276). */
module Responses {
  import opened Wrappers
  import opened Series

  /** A metric field as JavaScript reads it: a field missing from the body
      is `undefined`, which is not `null`. */
  datatype MetricField = Absent | Null | Value(v: real)

  /** `response.data`. The series are taken as given: the form assigns them
      without defaulting or checking. */
  datatype Response = Response(
    predictions: seq<ForecastPoint>,
    predictedTest: seq<PredictedTestPoint>,
    historicalData: seq<HistoricalPoint>,
    rmse: MetricField,
    mae: MetricField,
    result: Option<string>)

  /** The text stored on a failed request (line 81). */
  const FAILURE_MESSAGE: string := "Ошибка при получении прогноза"

  /** The accuracy gate as written: `rmse !== null && mae !== null`. */
  function MetricsGateAsWritten(rmse: MetricField, mae: MetricField): (r: bool)
    ensures rmse.Value? && mae.Value? ==> r
    ensures rmse == Null || mae == Null ==> !r
  {
    rmse != Null && mae != Null
  }

  /** The accuracy gate as intended: both metrics are numbers. */
  function MetricsGate(rmse: MetricField, mae: MetricField): (r: bool)
    ensures r ==> rmse.Value? && mae.Value?
    ensures rmse.Value? && mae.Value? ==> r
  {
    rmse.Value? && mae.Value?
  }

  /** A body without `rmse` and `mae` passes the written gate, so the block
      is drawn with two empty values; the intended gate hides it. */
  lemma AbsentMetricsPassGate()
    ensures MetricsGateAsWritten(Absent, Absent)
    ensures !MetricsGate(Absent, Absent)
  {
  }

  /** The two gates disagree exactly when neither metric is `null` and at
      least one is missing; otherwise the intended gate agrees with the
      written one. */
  lemma MetricsGatesDiffer(rmse: MetricField, mae: MetricField)
    ensures MetricsGate(rmse, mae) ==> MetricsGateAsWritten(rmse, mae)
    ensures MetricsGateAsWritten(rmse, mae) && !MetricsGate(rmse, mae)
            <==> rmse != Null && mae != Null && (rmse == Absent || mae == Absent)
  {
  }
}
