/**
 * The Bollinger bands of `src/Indicators/backtest_bollinger.py`: over each full trailing window of
 * `period` closing prices, the moving average plus and minus `numStd` sample standard deviations
 * (pandas' `rolling(window).mean()` and `.std()`, which divides by n - 1). Rows before the first
 * full window, and every row when a window holds fewer than two prices, have no standard deviation.
 * The square root is a parameter; the lemmas assume only that it is one.
 */
module BollingerBands {
  import opened Wrappers
  import opened Numbers
  import opened Frames

  datatype Config = Config(period: int := 10, numStd: real := 2.0)

  /** The dictionary with keys 'Upper Band', 'Lower Band' and 'Moving Average'. */
  datatype Bands = Bands(upper: seq<Num>, lower: seq<Num>, movingAverage: seq<Num>)

  /** `sqrt` maps every non-negative number to its non-negative square root. */
  ghost predicate IsSqrt(sqrt: real -> real)
  {
    sqrt(0.0) == 0.0 && forall v :: v >= 0.0 ==> sqrt(v) >= 0.0 && sqrt(v) * sqrt(v) == v
  }

  /** The full window of `period` rows ending at row t. */
  function Window(x: seq<real>, period: int, t: nat): (w: seq<real>)
    requires 1 <= period <= t + 1 && t < |x|
    ensures |w| == period
  {
    x[t + 1 - period..t + 1]
  }

  function SquaredDeviations(w: seq<real>, m: real): (r: real)
    ensures r >= 0.0
    decreases |w|
  {
    if |w| == 0 then 0.0
    else
      var d := w[|w| - 1] - m;
      SquaredDeviations(w[..|w| - 1], m) + d * d
  }

  /** Sample variance: squared deviations from the mean divided by n - 1. */
  function SampleVariance(w: seq<real>): (v: real)
    requires |w| >= 2
    ensures v >= 0.0
  {
    SquaredDeviations(w, Mean(w)) / (|w| - 1) as real
  }

  function RollingMean(x: seq<real>, period: int): (r: seq<Num>)
    ensures |r| == |x|
    ensures forall t :: 0 <= t < |x| ==> (r[t].Some? <==> 1 <= period <= t + 1)
  {
    seq(|x|, t requires 0 <= t < |x| => if 1 <= period <= t + 1 then Some(Mean(Window(x, period, t))) else None)
  }

  function RollingStd(x: seq<real>, period: int, sqrt: real -> real): (r: seq<Num>)
    ensures |r| == |x|
    ensures forall t :: 0 <= t < |x| ==> (r[t].Some? <==> 2 <= period <= t + 1)
  {
    seq(|x|, t requires 0 <= t < |x| =>
      if 2 <= period <= t + 1 then Some(sqrt(SampleVariance(Window(x, period, t)))) else None)
  }

  /** `ma + sd * k` and `ma - sd * k` row by row; NaN in, NaN out. */
  function Offset(ma: seq<Num>, sd: seq<Num>, k: real): (r: seq<Num>)
    requires |ma| == |sd|
    ensures |r| == |ma|
  {
    seq(|ma|, t requires 0 <= t < |ma| =>
      if ma[t].Some? && sd[t].Some? then Some(ma[t].value + sd[t].value * k) else None)
  }

  /** `BollingerBands(data, period, num_std).calculate_bands()`: KeyError without a Close column. */
  function CalculateBands(config: Config, data: Table, sqrt: real -> real): (r: Result<Bands>)
    ensures "Close" !in data.columns ==> r == Err(KeyError("Close"))
    ensures "Close" in data.columns ==> (r.Ok? <==> config.period >= 0)
    ensures r.Ok? ==> var close := data.columns["Close"];
      var ma, sd := RollingMean(close, config.period), RollingStd(close, config.period, sqrt);
      r.value.movingAverage == ma && r.value.upper == Offset(ma, sd, config.numStd) && r.value.lower == Offset(ma, sd, -config.numStd)
  {
    if "Close" !in data.columns then Err(KeyError("Close"))
    else if config.period < 0 then Err(ValueError("window must be an integer 0 or greater"))
    else
      var close := data.columns["Close"];
      var ma := RollingMean(close, config.period);
      var sd := RollingStd(close, config.period, sqrt);
      Ok(Bands(Offset(ma, sd, config.numStd), Offset(ma, sd, -config.numStd), ma))
  }

  /** The bands are defined exactly from the first full window on, and only for windows of two or more. */
  lemma BandsWarmUp(config: Config, data: Table, sqrt: real -> real, t: nat)
    requires CalculateBands(config, data, sqrt).Ok? && t < |data.columns["Close"]|
    ensures var b := CalculateBands(config, data, sqrt).value;
      (b.upper[t].Some? <==> 2 <= config.period <= t + 1) && (b.lower[t].Some? <==> 2 <= config.period <= t + 1)
  {
  }

  /** With a non-negative multiplier, lower band <= moving average <= upper band, symmetrically. */
  lemma BandsBracketAverage(config: Config, data: Table, sqrt: real -> real, t: nat)
    requires IsSqrt(sqrt) && config.numStd >= 0.0
    requires CalculateBands(config, data, sqrt).Ok? && t < |data.columns["Close"]|
    requires 2 <= config.period <= t + 1
    ensures var b := CalculateBands(config, data, sqrt).value;
      b.lower[t].value <= b.movingAverage[t].value <= b.upper[t].value &&
      b.upper[t].value - b.movingAverage[t].value == b.movingAverage[t].value - b.lower[t].value
  {
    var close := data.columns["Close"];
    var v := SampleVariance(Window(close, config.period, t));
    assert sqrt(v) >= 0.0;
    assert sqrt(v) * config.numStd >= 0.0;
  }

  /** The moving average of a full window lies between the window's lowest and highest price. */
  lemma AverageWithinWindow(close: seq<real>, period: int, t: nat, lo: real, hi: real)
    requires 1 <= period <= t + 1 && t < |close|
    requires forall i :: t + 1 - period <= i <= t ==> lo <= close[i] <= hi
    ensures lo <= RollingMean(close, period)[t].value <= hi
  {
    var w := Window(close, period, t);
    assert forall i :: 0 <= i < |w| ==> w[i] == close[t + 1 - period + i];
    MeanBounds(w, lo, hi);
  }

  /** Over a window of equal prices the bands close onto the price itself. */
  lemma FlatWindowCollapses(config: Config, data: Table, sqrt: real -> real, t: nat, c: real)
    requires IsSqrt(sqrt)
    requires CalculateBands(config, data, sqrt).Ok? && t < |data.columns["Close"]|
    requires 2 <= config.period <= t + 1
    requires forall i :: t + 1 - config.period <= i <= t ==> data.columns["Close"][i] == c
    ensures var b := CalculateBands(config, data, sqrt).value;
      b.upper[t] == Some(c) && b.lower[t] == Some(c) && b.movingAverage[t] == Some(c)
  {
    var w := Window(data.columns["Close"], config.period, t);
    assert forall i :: 0 <= i < |w| ==> w[i] == c;
    MeanConstant(w, c);
    ZeroDeviations(w, c);
    assert SampleVariance(w) == 0.0;
    assert sqrt(0.0) * config.numStd == 0.0 && sqrt(0.0) * -config.numStd == 0.0;
  }

  lemma {:induction false} ZeroDeviations(w: seq<real>, c: real)
    requires forall i :: 0 <= i < |w| ==> w[i] == c
    ensures SquaredDeviations(w, c) == 0.0
    decreases |w|
  {
    if |w| > 0 {
      ZeroDeviations(w[..|w| - 1], c);
    }
  }
}
