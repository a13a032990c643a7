/**
 * The MACD indicator of `src/Indicators/macd_indicator.py`: the MACD line is the fast EMA of the
 * closing prices minus the slow EMA, the signal line is an EMA of the MACD line, and the histogram
 * is their difference.
 */
module MacdIndicator {
  import opened Wrappers
  import opened Frames
  import opened Ema

  /** The three series, one value per input row. */
  datatype Lines = Lines(macd: seq<real>, signal: seq<real>, histogram: seq<real>)

  /** The result frame: the input's index and the columns MACD, Signal and Histogram. */
  datatype MacdFrame = MacdFrame(index: Index, lines: Lines)

  /** The indicator's configuration. */
  datatype Config = Config(fastPeriod: int := 12, slowPeriod: int := 26, signalPeriod: int := 9)

  function MacdLine(close: seq<real>, fast: int, slow: int): (m: seq<real>)
    requires fast >= 1 && slow >= 1
    ensures |m| == |close|
  {
    Minus(Ewm(close, Alpha(fast)), Ewm(close, Alpha(slow)))
  }

  function ComputeLines(close: seq<real>, fast: int, slow: int, signal: int): (r: Lines)
    requires fast >= 1 && slow >= 1 && signal >= 1
    ensures |r.macd| == |close| && |r.signal| == |close| && |r.histogram| == |close|
    ensures forall t :: 0 <= t < |close| ==> r.histogram[t] == r.macd[t] - r.signal[t]
    ensures forall t :: 0 <= t < |close| ==>
      r.macd[t] == Ewm(close, Alpha(fast))[t] - Ewm(close, Alpha(slow))[t]
    ensures r.signal == Ewm(r.macd, Alpha(signal))
  {
    var m := MacdLine(close, fast, slow);
    var s := Ewm(m, Alpha(signal));
    Lines(m, s, Minus(m, s))
  }

  /**
   * `MACDIndicator(fast, slow, signal).calculate(data)`: ValueError when there is no Close
   * column, and the ValueError of `ewm` when a period is below 1.
   */
  function Calculate(config: Config, data: Table): (r: Result<MacdFrame>)
    ensures "Close" !in data.columns ==> r == Err(ValueError("Data must contain 'Close' prices."))
    ensures "Close" in data.columns ==>
      (r.Ok? <==> config.fastPeriod >= 1 && config.slowPeriod >= 1 && config.signalPeriod >= 1)
    ensures "Close" in data.columns && r.Err? ==> r.error == ValueError("span must satisfy: span >= 1")
    ensures r.Ok? ==> r.value.index == data.index
    ensures r.Ok? ==> r.value.lines == ComputeLines(data.columns["Close"], config.fastPeriod, config.slowPeriod,
                                                   config.signalPeriod)
  {
    if "Close" !in data.columns then Err(ValueError("Data must contain 'Close' prices."))
    else
      var close := data.columns["Close"];
      if config.fastPeriod < 1 || config.slowPeriod < 1 || config.signalPeriod < 1 then
        Err(ValueError("span must satisfy: span >= 1"))
      else
        Ok(MacdFrame(data.index, ComputeLines(close, config.fastPeriod, config.slowPeriod, config.signalPeriod)))
  }

  /** The result has one row per input row whenever the input's columns are aligned with its index. */
  lemma CalculateRows(config: Config, data: Table)
    requires Aligned(data) && Calculate(config, data).Ok?
    ensures var l := Calculate(config, data).value.lines;
      |l.macd| == Length(data.index) && |l.signal| == Length(data.index) && |l.histogram| == Length(data.index)
  {
  }

  /** A flat price series has MACD, signal and histogram all zero. */
  lemma ConstantPricesGiveZero(close: seq<real>, c: real, fast: int, slow: int, signal: int)
    requires fast >= 1 && slow >= 1 && signal >= 1
    requires forall t :: 0 <= t < |close| ==> close[t] == c
    ensures var r := ComputeLines(close, fast, slow, signal);
      forall t :: 0 <= t < |close| ==> r.macd[t] == 0.0 && r.signal[t] == 0.0 && r.histogram[t] == 0.0
  {
    var r := ComputeLines(close, fast, slow, signal);
    forall t | 0 <= t < |close|
      ensures r.macd[t] == 0.0
    {
      EwmConstant(close, Alpha(fast), c, t);
      EwmConstant(close, Alpha(slow), c, t);
    }
    forall t | 0 <= t < |close|
      ensures r.signal[t] == 0.0
    {
      EwmConstant(r.macd, Alpha(signal), 0.0, t);
    }
  }

  /** Equal fast and slow periods make the MACD line, and with it everything else, zero. */
  lemma EqualPeriodsGiveZero(close: seq<real>, period: int, signal: int)
    requires period >= 1 && signal >= 1
    ensures var r := ComputeLines(close, period, period, signal);
      forall t :: 0 <= t < |close| ==> r.macd[t] == 0.0 && r.signal[t] == 0.0 && r.histogram[t] == 0.0
  {
    var r := ComputeLines(close, period, period, signal);
    forall t | 0 <= t < |close|
      ensures r.signal[t] == 0.0
    {
      EwmConstant(r.macd, Alpha(signal), 0.0, t);
    }
  }

  /** The MACD line never moves further from zero than the spread of the prices. */
  lemma MacdWithinPriceRange(close: seq<real>, lo: real, hi: real, fast: int, slow: int, t: nat)
    requires fast >= 1 && slow >= 1 && t < |close|
    requires forall i :: 0 <= i < |close| ==> lo <= close[i] <= hi
    ensures lo - hi <= MacdLine(close, fast, slow)[t] <= hi - lo
  {
    EwmBounds(close, Alpha(fast), lo, hi, t);
    EwmBounds(close, Alpha(slow), lo, hi, t);
  }

  /** Values at row t depend only on the prices up to row t: later rows never revise them. */
  lemma LinesArePrefixClosed(close: seq<real>, k: nat, fast: int, slow: int, signal: int)
    requires fast >= 1 && slow >= 1 && signal >= 1 && k <= |close|
    ensures var whole, part := ComputeLines(close, fast, slow, signal), ComputeLines(close[..k], fast, slow, signal);
      part.macd == whole.macd[..k] && part.signal == whole.signal[..k] && part.histogram == whole.histogram[..k]
  {
    var m := MacdLine(close, fast, slow);
    MacdLinePrefix(close, k, fast, slow);
    EwmPrefix(m, k, Alpha(signal));
    var s := Ewm(m, Alpha(signal));
    MinusPrefix(m, s, k);
  }

  lemma MacdLinePrefix(close: seq<real>, k: nat, fast: int, slow: int)
    requires fast >= 1 && slow >= 1 && k <= |close|
    ensures MacdLine(close[..k], fast, slow) == MacdLine(close, fast, slow)[..k]
  {
    EwmPrefix(close, k, Alpha(fast));
    EwmPrefix(close, k, Alpha(slow));
    MinusPrefix(Ewm(close, Alpha(fast)), Ewm(close, Alpha(slow)), k);
  }

  lemma MinusPrefix(a: seq<real>, b: seq<real>, k: nat)
    requires |a| == |b| && k <= |a|
    ensures Minus(a[..k], b[..k]) == Minus(a, b)[..k]
  {
  }
}
