/** The padded y-axis of the forecast chart: `getPriceRange` (lines
    131-138) and the tick step `(max - min) / 5` (line 168). Prices are
    exact reals, not IEEE doubles. */
module Ranges {
  import opened Series

  /** `Math.min(...s)` for a non-empty list. */
  function SeqMin(s: seq<real>): (m: real)
    requires |s| > 0
    ensures m in s
    ensures forall i :: 0 <= i < |s| ==> m <= s[i]
  {
    if |s| == 1 then s[0]
    else
      var rest := SeqMin(s[1..]);
      if s[0] <= rest then s[0] else rest
  }

  /** `Math.max(...s)` for a non-empty list. */
  function SeqMax(s: seq<real>): (m: real)
    requires |s| > 0
    ensures m in s
    ensures forall i :: 0 <= i < |s| ==> s[i] <= m
  {
    if |s| == 1 then s[0]
    else
      var rest := SeqMax(s[1..]);
      if s[0] >= rest then s[0] else rest
  }

  /** True when every price is the same. */
  predicate AllEqual(s: seq<real>)
  {
    forall i, j :: 0 <= i < |s| && 0 <= j < |s| ==> s[i] == s[j]
  }

  /** The fraction of the spread added below the lowest and above the
      highest price. */
  const PADDING_FRACTION: real := 0.05

  datatype PriceRange = PriceRange(min: real, max: real)

  /** The y-axis settings of the forecast chart (lines 163-170). */
  datatype Axis = Axis(min: real, max: real, stepSize: real)

  /** `getPriceRange(predictions)`; the chart using it is rendered only for
      non-empty predictions (line 298). */
  function GetPriceRange(predictions: seq<ForecastPoint>): (r: PriceRange)
    requires |predictions| > 0
    ensures forall i :: 0 <= i < |predictions| ==> r.min <= predictions[i].predictedClosePrice <= r.max
    ensures var lo, hi := SeqMin(ClosePrices(predictions)), SeqMax(ClosePrices(predictions));
            lo - r.min == r.max - hi == (hi - lo) * PADDING_FRACTION
  {
    var prices := ClosePrices(predictions);
    var minPrice := SeqMin(prices);
    var maxPrice := SeqMax(prices);
    var buffer := (maxPrice - minPrice) * PADDING_FRACTION;
    PriceRange(minPrice - buffer, maxPrice + buffer)
  }

  /** The tick step: a fifth of the padded span. */
  function StepSize(r: PriceRange): (step: real)
    ensures 5.0 * step == r.max - r.min
    ensures r.min <= r.max ==> step >= 0.0
  {
    (r.max - r.min) / 5.0
  }

  /** The y-axis of the forecast chart: min, max and a step that divides
      the span into five equal non-negative ticks. */
  function ForecastAxis(predictions: seq<ForecastPoint>): (a: Axis)
    requires |predictions| > 0
    ensures a.min == GetPriceRange(predictions).min && a.max == GetPriceRange(predictions).max
    ensures a.min <= a.max
    ensures a.stepSize >= 0.0 && 5.0 * a.stepSize == a.max - a.min
    ensures forall i :: 0 <= i < |predictions| ==> a.min <= predictions[i].predictedClosePrice <= a.max
  {
    var r := GetPriceRange(predictions);
    Axis(r.min, r.max, StepSize(r))
  }

  /** The lowest price equals the highest exactly when all prices agree. */
  lemma MinMaxEqualIff(s: seq<real>)
    requires |s| > 0
    ensures SeqMin(s) == SeqMax(s) <==> AllEqual(s)
  {
  }

  /** The padded range collapses to a point, and the padding to nothing,
      exactly when all predicted prices are equal. */
  lemma RangeDegenerateIff(predictions: seq<ForecastPoint>)
    requires |predictions| > 0
    ensures var r := GetPriceRange(predictions);
            (r.min == r.max <==> AllEqual(ClosePrices(predictions)))
            && (r.min == SeqMin(ClosePrices(predictions)) <==> AllEqual(ClosePrices(predictions)))
  {
  }

  /** A single point gives a zero-width axis with a zero step. */
  lemma SinglePointAxis(p: ForecastPoint)
    ensures ForecastAxis([p]) == Axis(p.predictedClosePrice, p.predictedClosePrice, 0.0)
  {
  }

  /** Prices 100, 110, 90: min 89, max 111, step 4.4. */
  lemma ThreePointAxis(d1: string, d2: string, d3: string)
    ensures ForecastAxis([ForecastPoint(d1, 100.0), ForecastPoint(d2, 110.0), ForecastPoint(d3, 90.0)])
            == Axis(89.0, 111.0, 4.4)
  {
    var ps := [ForecastPoint(d1, 100.0), ForecastPoint(d2, 110.0), ForecastPoint(d3, 90.0)];
    assert ClosePrices(ps) == [100.0, 110.0, 90.0];
    assert SeqMin([100.0, 110.0, 90.0]) == 90.0;
    assert SeqMax([100.0, 110.0, 90.0]) == 110.0;
  }
}
