/**
 * The Fibonacci retracement levels of `src/Indicators/fibonacci.py`: the highest High and the
 * lowest Low of the frame, and the prices that retrace 23.6%, 38.2%, 50% and 61.8% of the distance
 * from that high down to that low. pandas' `max` and `min` of an empty column are NaN.
 */
module Fibonacci {
  import opened Wrappers
  import opened Numbers
  import opened Frames

  datatype Levels = Levels(level0: Num, level236: Num, level382: Num, level50: Num, level618: Num, level100: Num)

  function SeriesMax(s: seq<real>): (r: Num)
    ensures r.None? <==> |s| == 0
    ensures r.Some? ==> (exists i :: 0 <= i < |s| && s[i] == r.value) && forall i :: 0 <= i < |s| ==> s[i] <= r.value
    decreases |s|
  {
    if |s| == 0 then None
    else
      var m := SeriesMax(s[..|s| - 1]);
      if m.Some? && m.value >= s[|s| - 1] then m else Some(s[|s| - 1])
  }

  function SeriesMin(s: seq<real>): (r: Num)
    ensures r.None? <==> |s| == 0
    ensures r.Some? ==> (exists i :: 0 <= i < |s| && s[i] == r.value) && forall i :: 0 <= i < |s| ==> r.value <= s[i]
    decreases |s|
  {
    if |s| == 0 then None
    else
      var m := SeriesMin(s[..|s| - 1]);
      if m.Some? && m.value <= s[|s| - 1] then m else Some(s[|s| - 1])
  }

  /** `max_price - ratio * (max_price - min_price)`; NaN when either end is NaN. */
  function Retrace(high: Num, low: Num, ratio: real): Num
  {
    if high.Some? && low.Some? then Some(high.value - ratio * (high.value - low.value)) else None
  }

  /** `FibonacciRetracement(data).calculate_levels()`: KeyError for a missing High or Low column. */
  function CalculateLevels(data: Table): (r: Result<Levels>)
    ensures "High" !in data.columns ==> r == Err(KeyError("High"))
    ensures "High" in data.columns && "Low" !in data.columns ==> r == Err(KeyError("Low"))
    ensures r.Ok? <==> "High" in data.columns && "Low" in data.columns
    ensures r.Ok? ==> r.value.level0 == SeriesMax(data.columns["High"]) && r.value.level100 == SeriesMin(data.columns["Low"])
  {
    if "High" !in data.columns then Err(KeyError("High"))
    else if "Low" !in data.columns then Err(KeyError("Low"))
    else
      var hi := SeriesMax(data.columns["High"]);
      var lo := SeriesMin(data.columns["Low"]);
      Ok(Levels(hi, Retrace(hi, lo, 0.236), Retrace(hi, lo, 0.382), Retrace(hi, lo, 0.5), Retrace(hi, lo, 0.618), lo))
  }

  /** The returned dictionary. */
  function ToMap(l: Levels): (m: map<string, Num>)
    ensures m.Keys == {"0%", "23.6%", "38.2%", "50%", "61.8%", "100%"}
    ensures m["0%"] == l.level0 && m["23.6%"] == l.level236 && m["38.2%"] == l.level382 && m["50%"] == l.level50
    ensures m["61.8%"] == l.level618 && m["100%"] == l.level100
  {
    map["0%" := l.level0, "23.6%" := l.level236, "38.2%" := l.level382, "50%" := l.level50,
        "61.8%" := l.level618, "100%" := l.level100]
  }

  /**
   * Whenever the highest High is at least the lowest Low, the levels are defined and descend from
   * that High to that Low, every one within the range, with the 50% level halfway between them.
   */
  lemma LevelsDescend(data: Table)
    requires "High" in data.columns && "Low" in data.columns
    requires SeriesMax(data.columns["High"]).Some? && SeriesMin(data.columns["Low"]).Some?
    requires SeriesMax(data.columns["High"]).value >= SeriesMin(data.columns["Low"]).value
    ensures var l := CalculateLevels(data).value;
      var hi := SeriesMax(data.columns["High"]).value;
      var lo := SeriesMin(data.columns["Low"]).value;
      l.level0 == Some(hi) && l.level100 == Some(lo) &&
      l.level236.Some? && l.level382.Some? && l.level50.Some? && l.level618.Some? &&
      hi >= l.level236.value >= l.level382.value >= l.level50.value >= l.level618.value >= lo &&
      l.level50.value == (hi + lo) / 2.0
  {
    var hi := SeriesMax(data.columns["High"]);
    var lo := SeriesMin(data.columns["Low"]);
    var d := hi.value - lo.value;
    assert 0.236 * d <= 0.382 * d <= 0.5 * d <= 0.618 * d <= d;
  }

  /** A non-empty frame with every High at least its row's Low meets the range premise above. */
  lemma RowBoundsGiveRange(data: Table)
    requires "High" in data.columns && "Low" in data.columns
    requires |data.columns["High"]| == |data.columns["Low"]| > 0
    requires forall i :: 0 <= i < |data.columns["High"]| ==> data.columns["Low"][i] <= data.columns["High"][i]
    ensures SeriesMax(data.columns["High"]).Some? && SeriesMin(data.columns["Low"]).Some?
    ensures SeriesMax(data.columns["High"]).value >= SeriesMin(data.columns["Low"]).value
  {
    assert data.columns["Low"][0] <= data.columns["High"][0];
  }

  /** A frame without rows has every level NaN. */
  lemma EmptyFrameHasNoLevels(data: Table)
    requires "High" in data.columns && "Low" in data.columns
    requires |data.columns["High"]| == 0 && |data.columns["Low"]| == 0
    ensures CalculateLevels(data).value == Levels(None, None, None, None, None, None)
  {
  }
}
