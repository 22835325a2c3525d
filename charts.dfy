/** The data objects handed to the two line charts: `chartData` (lines
    140-151) and `historicalChartData` (lines 87-105). Colours, titles and
    dataset labels are presentation and are not modelled. */
module Charts {
  import opened Series

  /** The forecast chart: one category label and one value per point. */
  datatype ForecastChart = ForecastChart(labels: seq<string>, data: seq<real>)

  /** The overlay chart: the historical labels, the historical close prices
      and the test predictions, drawn against the labels by position. */
  datatype HistoricalChart = HistoricalChart(labels: seq<string>, closePrices: seq<real>, testPredictions: seq<real>)

  function ForecastChartData(predictions: seq<ForecastPoint>): (c: ForecastChart)
    ensures |c.labels| == |predictions| && |c.data| == |predictions|
    ensures forall i :: 0 <= i < |predictions| ==>
              c.labels[i] == predictions[i].date && c.data[i] == predictions[i].predictedClosePrice
  {
    ForecastChart(Dates(predictions), ClosePrices(predictions))
  }

  /** The series lengths are independent: the test series follows
      `predictedTest`, never `historicalData`. */
  function HistoricalChartData(historical: seq<HistoricalPoint>, predictedTest: seq<PredictedTestPoint>): (c: HistoricalChart)
    ensures |c.labels| == |historical| && |c.closePrices| == |historical|
    ensures |c.testPredictions| == |predictedTest|
    ensures forall i :: 0 <= i < |historical| ==>
              c.labels[i] == historical[i].recordDate && c.closePrices[i] == historical[i].closePrice
    ensures forall i :: 0 <= i < |predictedTest| ==> c.testPredictions[i] == predictedTest[i].predicted
  {
    HistoricalChart(RecordDates(historical), HistoricalCloses(historical), TestPredictions(predictedTest))
  }

  /** Pairs labels with values again: the forecast points a chart shows. */
  function ZipForecast(labels: seq<string>, data: seq<real>): (ps: seq<ForecastPoint>)
    requires |labels| == |data|
    ensures |ps| == |labels|
  {
    if labels == [] then [] else [ForecastPoint(labels[0], data[0])] + ZipForecast(labels[1..], data[1..])
  }

  /** Pairs labels with close prices again. */
  function ZipHistorical(labels: seq<string>, closes: seq<real>): (hs: seq<HistoricalPoint>)
    requires |labels| == |closes|
    ensures |hs| == |labels|
  {
    if labels == [] then [] else [HistoricalPoint(labels[0], closes[0])] + ZipHistorical(labels[1..], closes[1..])
  }

  /** The forecast chart loses nothing and reorders nothing: zipping its
      labels and data gives back the predictions. */
  lemma {:induction false} ForecastChartRoundTrip(predictions: seq<ForecastPoint>)
    ensures ZipForecast(ForecastChartData(predictions).labels, ForecastChartData(predictions).data) == predictions
  {
    if predictions != [] {
      var c := ForecastChartData(predictions);
      var rest := ForecastChartData(predictions[1..]);
      assert c.labels[1..] == rest.labels;
      assert c.data[1..] == rest.data;
      ForecastChartRoundTrip(predictions[1..]);
    }
  }

  /** Likewise for the historical series of the overlay chart, and the
      test series reads back as the test points. */
  lemma {:induction false} HistoricalChartRoundTrip(historical: seq<HistoricalPoint>, predictedTest: seq<PredictedTestPoint>)
    ensures var c := HistoricalChartData(historical, predictedTest);
            ZipHistorical(c.labels, c.closePrices) == historical
            && MapSeq((v: real) => PredictedTestPoint(v), c.testPredictions) == predictedTest
    decreases |historical|
  {
    var c := HistoricalChartData(historical, predictedTest);
    if historical != [] {
      var rest := HistoricalChartData(historical[1..], predictedTest);
      assert c.labels[1..] == rest.labels;
      assert c.closePrices[1..] == rest.closePrices;
      HistoricalChartRoundTrip(historical[1..], predictedTest);
    }
    var back := MapSeq((v: real) => PredictedTestPoint(v), c.testPredictions);
    assert |back| == |predictedTest|;
    forall i | 0 <= i < |predictedTest| ensures back[i] == predictedTest[i] {
    }
  }
}
