/**
 * The MACD calculator of `src/Indicators/macd.py`, which writes its intermediate series into the
 * caller's frame as the columns EMA12, EMA26, MACD and Signal_Line and returns the last two.
 */
module MacdColumns {
  import opened Wrappers
  import opened Frames
  import opened Ema
  import MacdIndicator

  /** The returned frame `data[['MACD', 'Signal_Line']]`. */
  datatype MacdSignal = MacdSignal(index: Index, macd: seq<real>, signalLine: seq<real>)

  const SpanError := ValueError("span must satisfy: span >= 1")

  /** The frame's columns after a complete calculation: four columns written, all others kept. */
  function WithMacd(columns: map<string, seq<real>>, short: int, long: int, signal: int): (r: map<string, seq<real>>)
    requires "Close" in columns && short >= 1 && long >= 1 && signal >= 1
    ensures r.Keys == columns.Keys + {"EMA12", "EMA26", "MACD", "Signal_Line"}
    ensures forall c :: c in columns && c !in {"EMA12", "EMA26", "MACD", "Signal_Line"} ==> r[c] == columns[c]
  {
    var close := columns["Close"];
    var e12 := Ewm(close, Alpha(short));
    var e26 := Ewm(close, Alpha(long));
    var m := Minus(e12, e26);
    columns["EMA12" := e12]["EMA26" := e26]["MACD" := m]["Signal_Line" := Ewm(m, Alpha(signal))]
  }

  class MacdCalculator {
    const data: DataFrame
    const shortWindow: int
    const longWindow: int
    const signalWindow: int

    constructor (data: DataFrame, shortWindow: int := 12, longWindow: int := 26, signalWindow: int := 9)
      ensures this.data == data && this.shortWindow == shortWindow
      ensures this.longWindow == longWindow && this.signalWindow == signalWindow
    {
      this.data := data;
      this.shortWindow := shortWindow;
      this.longWindow := longWindow;
      this.signalWindow := signalWindow;
    }

    /**
     * `calculate_macd()`. A missing Close column raises KeyError before anything is written; a
     * window below 1 raises ValueError after the columns computed before it have been written.
     */
    method CalculateMacd() returns (r: Result<MacdSignal>)
      modifies data
      ensures data.index == old(data.index)
      ensures "Close" !in old(data.columns) ==> r == Err(KeyError("Close")) && data.columns == old(data.columns)
      ensures "Close" in old(data.columns) ==>
        var cols, close := old(data.columns), old(data.columns)["Close"];
        if shortWindow < 1 then
          r == Err(SpanError) && data.columns == cols
        else if longWindow < 1 then
          r == Err(SpanError) && data.columns == cols["EMA12" := Ewm(close, Alpha(shortWindow))]
        else if signalWindow < 1 then
          r == Err(SpanError) && data.columns == cols["EMA12" := Ewm(close, Alpha(shortWindow))]
                                                      ["EMA26" := Ewm(close, Alpha(longWindow))]
                                                      ["MACD" := MacdIndicator.MacdLine(close, shortWindow, longWindow)]
        else
          data.columns == WithMacd(cols, shortWindow, longWindow, signalWindow) &&
          r == Ok(MacdSignal(data.index, data.columns["MACD"], data.columns["Signal_Line"]))
    {
      if "Close" !in data.columns {
        return Err(KeyError("Close"));
      }
      if shortWindow < 1 {
        return Err(SpanError);
      }
      data.Assign("EMA12", Ewm(data.columns["Close"], Alpha(shortWindow)));
      if longWindow < 1 {
        return Err(SpanError);
      }
      data.Assign("EMA26", Ewm(data.columns["Close"], Alpha(longWindow)));
      data.Assign("MACD", Minus(data.columns["EMA12"], data.columns["EMA26"]));
      if signalWindow < 1 {
        return Err(SpanError);
      }
      data.Assign("Signal_Line", Ewm(data.columns["MACD"], Alpha(signalWindow)));
      r := Ok(MacdSignal(data.index, data.columns["MACD"], data.columns["Signal_Line"]));
    }
  }

  /** The written MACD and Signal_Line columns are the MACD and signal lines of the other module. */
  lemma AgreesWithIndicator(columns: map<string, seq<real>>, short: int, long: int, signal: int)
    requires "Close" in columns && short >= 1 && long >= 1 && signal >= 1
    ensures var lines := MacdIndicator.ComputeLines(columns["Close"], short, long, signal);
      WithMacd(columns, short, long, signal)["MACD"] == lines.macd &&
      WithMacd(columns, short, long, signal)["Signal_Line"] == lines.signal
  {
  }

  /** Calculating twice leaves the frame as calculating once: the second pass rewrites equal values. */
  lemma CalculateTwiceIsOnce(columns: map<string, seq<real>>, short: int, long: int, signal: int)
    requires "Close" in columns && short >= 1 && long >= 1 && signal >= 1
    ensures WithMacd(WithMacd(columns, short, long, signal), short, long, signal) == WithMacd(columns, short, long, signal)
  {
    var once := WithMacd(columns, short, long, signal);
    assert once["Close"] == columns["Close"];
  }
}
