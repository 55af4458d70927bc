/**
 * Bar arithmetic of the detailed pollutant view: the 48 seasonal bars of
 * `generate_monthly_graph_from_real_data` and the bar heights of
 * `generate_real_historical_graph`.
 */
module Graphs {
  import opened Numeric
  import opened Wrappers

  // ---- monthly bars ---------------------------------------------------

  const MonthNames: seq<string> := ["Jan", "Feb", "Mar", "Apr", "May", "Jun",
                                    "Jul", "Aug", "Sep", "Oct", "Nov", "Dec"]

  /** A month's average relative to the current value; 1.0 when the current value is not positive. */
  function MonthlyFactor(average: real, current: real): (f: real)
    ensures current > 0.0 ==> f * current == average
    ensures current <= 0.0 ==> f == 1.0
  {
    if current > 0.0 then average / current else 1.0
  }

  /** The `monthly_factors` dictionary, keyed by month number, from the monthly averages. */
  function MonthlyFactors(averages: map<int, real>, current: real): (m: map<int, real>)
    ensures m.Keys == averages.Keys
    ensures forall k :: k in m ==> m[k] == MonthlyFactor(averages[k], current)
  {
    map k | k in averages :: MonthlyFactor(averages[k], current)
  }

  /** `monthly_factors.get(month, 1.0)` */
  function FactorOf(factors: map<int, real>, month: int): (f: real)
    ensures month in factors ==> f == factors[month]
    ensures month !in factors ==> f == 1.0
  {
    if month in factors then factors[month] else 1.0
  }

  /** The factor of week `week` (0..3) of a month: from 0.8 to 1.2 times the month's factor. */
  function WeekFactor(factor: real, week: nat): (wf: real)
    requires week < 4
    ensures week == 0 ==> wf == 0.8 * factor
    ensures week == 3 ==> wf == 1.2 * factor
  {
    factor * (0.8 + 0.4 * week as real / 3.0)
  }

  /** `min(100, max(5, week_factor * 50))`: the bar height in percent, clamped to 5..100. */
  function HeightPercent(weekFactor: real): (h: real)
    ensures 5.0 <= h <= 100.0
    ensures 5.0 <= weekFactor * 50.0 <= 100.0 ==> h == weekFactor * 50.0
    ensures weekFactor * 50.0 < 5.0 ==> h == 5.0
    ensures weekFactor * 50.0 > 100.0 ==> h == 100.0
  {
    MinReal(100.0, MaxReal(5.0, weekFactor * 50.0))
  }

  /** One entry of `graph_bars`; the `title` text is its month and value. */
  datatype MonthBar = MonthBar(height: real, month: string, value: real)

  /** Bar `k` of the 48: week `k % 4` of month `k / 4 + 1`. */
  function BarAt(factors: map<int, real>, current: real, k: nat): (b: MonthBar)
    requires k < 48
    ensures 5.0 <= b.height <= 100.0 && b.month == MonthNames[k / 4]
    ensures b.value == current * WeekFactor(FactorOf(factors, k / 4 + 1), k % 4)
  {
    var wf := WeekFactor(FactorOf(factors, k / 4 + 1), k % 4);
    MonthBar(HeightPercent(wf), MonthNames[k / 4], current * wf)
  }

  /** The nested loops over the twelve months and their four weeks. */
  method MonthlyBars(factors: map<int, real>, current: real) returns (bars: seq<MonthBar>)
    ensures |bars| == 48
    ensures forall k :: 0 <= k < 48 ==> bars[k] == BarAt(factors, current, k)
    ensures forall k :: 0 <= k < 48 ==> 5.0 <= bars[k].height <= 100.0 && bars[k].month == MonthNames[k / 4]
  {
    bars := [];
    var i := 1;
    while i <= 12
      invariant 1 <= i <= 13
      invariant |bars| == 4 * (i - 1)
      invariant forall k :: 0 <= k < |bars| ==> bars[k] == BarAt(factors, current, k)
    {
      var month := MonthNames[i - 1];
      var factor := FactorOf(factors, i);
      var week := 0;
      while week < 4
        invariant 0 <= week <= 4
        invariant |bars| == 4 * (i - 1) + week
        invariant forall k :: 0 <= k < |bars| ==> bars[k] == BarAt(factors, current, k)
      {
        var weekFactor := WeekFactor(factor, week);
        var height := HeightPercent(weekFactor);
        var value := current * weekFactor;
        BarOfWeek(factors, current, i - 1, week, |bars|, month, factor);
        AppendBar(bars, factors, current, MonthBar(height, month, value));
        bars := bars + [MonthBar(height, month, value)];
        week := week + 1;
      }
      i := i + 1;
    }
  }

  /** Appending the next bar keeps the bars built so far equal to the first bars of the 48. */
  lemma AppendBar(bars: seq<MonthBar>, factors: map<int, real>, current: real, b: MonthBar)
    requires |bars| < 48 && b == BarAt(factors, current, |bars|)
    requires forall k :: 0 <= k < |bars| ==> bars[k] == BarAt(factors, current, k)
    ensures forall k :: 0 <= k < |bars| + 1 ==> (bars + [b])[k] == BarAt(factors, current, k)
  {
  }

  /** Bar number 4*m + w is week w of month m + 1. */
  lemma BarOfWeek(factors: map<int, real>, current: real, m: nat, w: nat, k: nat, month: string, factor: real)
    requires m < 12 && w < 4 && k == 4 * m + w
    requires month == MonthNames[m] && factor == FactorOf(factors, m + 1)
    ensures BarAt(factors, current, k) == MonthBar(HeightPercent(WeekFactor(factor, w)), month, current * WeekFactor(factor, w))
  {
    assert k / 4 == m && k % 4 == w;
  }

  lemma MulMonotoneReal(a: real, x: real, y: real)
    requires a >= 0.0 && x <= y
    ensures a * x <= a * y
  {
  }

  /** Within a month with a non-negative factor the bars never get lower from one week to the next. */
  lemma WeeksRise(factors: map<int, real>, current: real, k: nat)
    requires k < 47 && k % 4 < 3
    requires FactorOf(factors, k / 4 + 1) >= 0.0
    ensures BarAt(factors, current, k).height <= BarAt(factors, current, k + 1).height
  {
    var w := k % 4;
    assert (k + 1) / 4 == k / 4 && (k + 1) % 4 == w + 1;
    var f := FactorOf(factors, k / 4 + 1);
    MulMonotoneReal(f, 0.8 + 0.4 * w as real / 3.0, 0.8 + 0.4 * (w + 1) as real / 3.0);
  }

  /**
   * With a positive current value, the bar values reproduce the month's
   * average, scaled by the week's 0.8..1.2 ramp.
   */
  lemma BarValueIsScaledAverage(averages: map<int, real>, current: real, k: nat)
    requires k < 48 && current > 0.0 && (k / 4 + 1) in averages
    ensures BarAt(MonthlyFactors(averages, current), current, k).value
            == averages[k / 4 + 1] * (0.8 + 0.4 * (k % 4) as real / 3.0)
  {
    var f := MonthlyFactor(averages[k / 4 + 1], current);
    var c := 0.8 + 0.4 * (k % 4) as real / 3.0;
    assert current * (f * c) == (f * current) * c;
  }

  // ---- historical bar heights ---------------------------------------

  /** The height of one bar: its distance above the minimum as a share of the range, 50 when the range is not positive. */
  function BarHeight(value: real, minVal: real, valueRange: real): (h: real)
    ensures valueRange <= 0.0 ==> h == 50.0
    ensures valueRange > 0.0 && value == minVal ==> h == 0.0
  {
    if valueRange > 0.0 then (value - minVal) / valueRange * 100.0 else 50.0
  }

  /**
   * `generate_real_historical_graph` as written: no graph for no data;
   * otherwise the range is `max - min`, or `max` itself when all values
   * are equal.
   */
  function BarHeightsAsWritten(values: seq<real>): (r: Option<seq<real>>)
    ensures values == [] <==> r.None?
    ensures r.Some? ==> |r.value| == |values|
  {
    if values == [] then None
    else
      var maxVal, minVal := SeqMax(values), SeqMin(values);
      var valueRange := if maxVal != minVal then maxVal - minVal else maxVal;
      Some(seq(|values|, i requires 0 <= i < |values| => BarHeight(values[i], minVal, valueRange)))
  }

  /** The heights with the range taken as `max - min` in every case, so equal values get the default 50. */
  function BarHeights(values: seq<real>): (r: Option<seq<real>>)
    ensures values == [] <==> r.None?
    ensures r.Some? ==> |r.value| == |values|
  {
    if values == [] then None
    else
      var maxVal, minVal := SeqMax(values), SeqMin(values);
      Some(seq(|values|, i requires 0 <= i < |values| => BarHeight(values[i], minVal, maxVal - minVal)))
  }

  /** One bar: between 0 and 100, exactly 0 at the minimum and 100 at the maximum. */
  lemma BarHeightBounds(v: real, minVal: real, maxVal: real)
    requires minVal <= v <= maxVal
    ensures 0.0 <= BarHeight(v, minVal, maxVal - minVal) <= 100.0
    ensures maxVal > minVal && v == minVal ==> BarHeight(v, minVal, maxVal - minVal) == 0.0
    ensures maxVal > minVal && v == maxVal ==> BarHeight(v, minVal, maxVal - minVal) == 100.0
  {
    if maxVal > minVal {
      var d := maxVal - minVal;
      var q := (v - minVal) / d;
      assert q * d == v - minVal;
      assert 0.0 <= q <= 1.0;
      assert d / d == 1.0;
    }
  }

  /** Every height lies in 0..100; unless all values are equal, the lowest gets 0 and the highest 100. */
  lemma BarHeightsBounded(values: seq<real>)
    requires values != []
    ensures forall i :: 0 <= i < |values| ==> 0.0 <= BarHeights(values).value[i] <= 100.0
    ensures SeqMax(values) != SeqMin(values) ==>
      forall i :: 0 <= i < |values| ==>
        (values[i] == SeqMin(values) ==> BarHeights(values).value[i] == 0.0) &&
        (values[i] == SeqMax(values) ==> BarHeights(values).value[i] == 100.0)
  {
    var maxVal, minVal := SeqMax(values), SeqMin(values);
    var h := BarHeights(values).value;
    forall i | 0 <= i < |values|
      ensures 0.0 <= h[i] <= 100.0
      ensures maxVal != minVal && values[i] == minVal ==> h[i] == 0.0
      ensures maxVal != minVal && values[i] == maxVal ==> h[i] == 100.0
    {
      assert h[i] == BarHeight(values[i], minVal, maxVal - minVal);
      BarHeightBounds(values[i], minVal, maxVal);
    }
  }

  /** When all values are equal every bar gets the default height 50. */
  lemma EqualValuesGetDefault(values: seq<real>)
    requires values != []
    requires forall i :: 0 <= i < |values| ==> values[i] == values[0]
    ensures forall i :: 0 <= i < |values| ==> BarHeights(values).value[i] == 50.0
  {
    assert SeqMax(values) == values[0] && SeqMin(values) == values[0];
  }

  /** The two agree whenever the values are not all equal. */
  lemma BarHeightsAgreeOnSpread(values: seq<real>)
    requires values != [] && SeqMax(values) != SeqMin(values)
    ensures BarHeightsAsWritten(values) == BarHeights(values)
  {
  }

  /** As written, every height still lies in 0..100. */
  lemma BarHeightsAsWrittenBounded(values: seq<real>)
    requires values != []
    ensures forall i :: 0 <= i < |values| ==> 0.0 <= BarHeightsAsWritten(values).value[i] <= 100.0
  {
    var maxVal, minVal := SeqMax(values), SeqMin(values);
    var h := BarHeightsAsWritten(values).value;
    forall i | 0 <= i < |values|
      ensures 0.0 <= h[i] <= 100.0
    {
      if maxVal != minVal {
        assert h[i] == BarHeight(values[i], minVal, maxVal - minVal);
        BarHeightBounds(values[i], minVal, maxVal);
      } else {
        assert values[i] == minVal;
      }
    }
  }

  /**
   * As written, a constant series gets height 0 for every bar when the
   * value is positive, and the default 50 only when it is zero or negative.
   */
  lemma ConstantSeriesAsWritten(values: seq<real>)
    requires values != []
    requires forall i :: 0 <= i < |values| ==> values[i] == values[0]
    ensures forall i :: 0 <= i < |values| ==>
      BarHeightsAsWritten(values).value[i] == if values[0] > 0.0 then 0.0 else 50.0
  {
    assert SeqMax(values) == values[0] && SeqMin(values) == values[0];
  }

  /**
   * As written, a series of equal positive values gets range `max > 0`,
   * so every bar has height 0 rather than the default 50.
   */
  lemma EqualPositiveValuesFlattenAsWritten()
    ensures BarHeightsAsWritten([5.0, 5.0]) == Some([0.0, 0.0])
    ensures BarHeights([5.0, 5.0]) == Some([50.0, 50.0])
  {
    var s := [5.0, 5.0];
    assert SeqMax(s) == 5.0 && SeqMin(s) == 5.0;
    assert BarHeightsAsWritten(s).value == [0.0, 0.0];
    assert BarHeights(s).value == [50.0, 50.0];
  }
}
