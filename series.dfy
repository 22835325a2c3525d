/** The point series of a prediction response and the order-preserving
    `Array.prototype.map` the form projects them with. */
module Series {

  /** One forecast point: `date` and `predicted_close_price`. */
  datatype ForecastPoint = ForecastPoint(date: string, predictedClosePrice: real)

  /** One historical point: `recordDate` and `closePrice`. */
  datatype HistoricalPoint = HistoricalPoint(recordDate: string, closePrice: real)

  /** One prediction over the test period: `predicted`. */
  datatype PredictedTestPoint = PredictedTestPoint(predicted: real)

  /** `s.map(f)`: one result per element, in the same order. */
  function MapSeq<A, B>(f: A -> B, s: seq<A>): (r: seq<B>)
    ensures |r| == |s|
    ensures forall i :: 0 <= i < |s| ==> r[i] == f(s[i])
  {
    if s == [] then [] else [f(s[0])] + MapSeq(f, s[1..])
  }

  /** `predictions.map(pred => pred.date)` (line 141). */
  function Dates(ps: seq<ForecastPoint>): (r: seq<string>)
    ensures |r| == |ps|
    ensures forall i :: 0 <= i < |ps| ==> r[i] == ps[i].date
  {
    MapSeq((p: ForecastPoint) => p.date, ps)
  }

  /** `predictions.map(pred => pred.predicted_close_price)` (lines 132, 145). */
  function ClosePrices(ps: seq<ForecastPoint>): (r: seq<real>)
    ensures |r| == |ps|
    ensures forall i :: 0 <= i < |ps| ==> r[i] == ps[i].predictedClosePrice
  {
    MapSeq((p: ForecastPoint) => p.predictedClosePrice, ps)
  }

  /** `historicalData.map((data) => data.recordDate)` (line 88). */
  function RecordDates(hs: seq<HistoricalPoint>): (r: seq<string>)
    ensures |r| == |hs|
    ensures forall i :: 0 <= i < |hs| ==> r[i] == hs[i].recordDate
  {
    MapSeq((h: HistoricalPoint) => h.recordDate, hs)
  }

  /** `historicalData.map((data) => data.closePrice)` (line 92). */
  function HistoricalCloses(hs: seq<HistoricalPoint>): (r: seq<real>)
    ensures |r| == |hs|
    ensures forall i :: 0 <= i < |hs| ==> r[i] == hs[i].closePrice
  {
    MapSeq((h: HistoricalPoint) => h.closePrice, hs)
  }

  /** `predictedTest.map((data) => data.predicted)` (line 99). */
  function TestPredictions(ts: seq<PredictedTestPoint>): (r: seq<real>)
    ensures |r| == |ts|
    ensures forall i :: 0 <= i < |ts| ==> r[i] == ts[i].predicted
  {
    MapSeq((t: PredictedTestPoint) => t.predicted, ts)
  }
}
