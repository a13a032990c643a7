/**
 * The reversal backtest of `src/Backtesting/backtest_divergence.py`. At construction the
 * indicator name is checked and the divergence crew's first task output is read for its lists of
 * bullish and bearish dates; each bar then buys with 90% of the cash when its date is a bullish
 * date and the strategy is flat, and sells everything when its date is a bearish date and the
 * strategy holds.
 */
module DivergenceStrategy {
  import opened Wrappers
  import opened Text
  import opened Dates
  import opened Broker

  /** The indicators the divergence crew can be given. */
  datatype Indicator = Macd | Rsi

  /** Lines 44-49: the indicator named by the `indicator_name` parameter. */
  function IndicatorFor(indicatorName: string): (r: Result<Indicator>)
    ensures r == Ok(Macd) <==> indicatorName == "MACD"
    ensures r == Ok(Rsi) <==> indicatorName == "RSI"
    ensures r.Err? <==> indicatorName != "MACD" && indicatorName != "RSI"
    ensures r.Err? ==> r.error.ValueError?
  {
    if indicatorName == "MACD" then Ok(Macd)
    else if indicatorName == "RSI" then Ok(Rsi)
    else Err(ValueError("Indicator name must be 'MACD' or 'RSI'."))
  }

  /** A task output: its `content` dictionary of date lists, when it has that attribute. */
  datatype TaskOutput = TaskOutput(content: Option<seq<(string, seq<string>)>>)

  /** `content.get(key, [])`. */
  function GetList(content: seq<(string, seq<string>)>, key: string): (r: seq<string>)
    ensures (forall i :: 0 <= i < |content| ==> content[i].0 != key) ==> r == []
    ensures forall i :: 0 <= i < |content| && content[i].0 == key && (forall j :: 0 <= j < i ==> content[j].0 != key) ==>
      r == content[i].1
    decreases |content|
  {
    if |content| == 0 then []
    else if content[0].0 == key then content[0].1
    else
      var r := GetList(content[1..], key);
      assert forall i :: 1 <= i < |content| ==> content[1..][i - 1] == content[i];
      r
  }

  function StripAll(dates: seq<string>): (r: seq<string>)
    ensures |r| == |dates| && forall i :: 0 <= i < |dates| ==> r[i] == Strip(dates[i])
  {
    seq(|dates|, i requires 0 <= i < |dates| => Strip(dates[i]))
  }

  /** `parse_divergence_signals`: the bullish and bearish dates, stripped of surrounding whitespace. */
  function ParseDivergenceSignals(tasksOutput: Option<seq<TaskOutput>>): (r: (seq<string>, seq<string>))
    ensures tasksOutput.None? || |tasksOutput.value| == 0 || tasksOutput.value[0].content.None? ==> r == ([], [])
    ensures tasksOutput.Some? && |tasksOutput.value| > 0 && tasksOutput.value[0].content.Some? ==>
      var content := tasksOutput.value[0].content.value;
      r.0 == StripAll(GetList(content, "Bullish Divergences")) && r.1 == StripAll(GetList(content, "Bearish Divergences"))
  {
    if tasksOutput.None? || |tasksOutput.value| == 0 || tasksOutput.value[0].content.None? then ([], [])
    else
      var content := tasksOutput.value[0].content.value;
      (StripAll(GetList(content, "Bullish Divergences")), StripAll(GetList(content, "Bearish Divergences")))
  }

  /** A date listed with whitespace around it is still recognised as that date. */
  lemma PaddedDateListed(tasksOutput: Option<seq<TaskOutput>>, k: nat, d: Date, pad: string)
    requires Valid(d) && forall i :: 0 <= i < |pad| ==> IsSpace(pad[i])
    requires tasksOutput.Some? && |tasksOutput.value| > 0 && tasksOutput.value[0].content.Some?
    requires var dates := GetList(tasksOutput.value[0].content.value, "Bullish Divergences");
      k < |dates| && dates[k] == pad + IsoFormat(d) + pad
    ensures IsoFormat(d) in ParseDivergenceSignals(tasksOutput).0
  {
    var dates := GetList(tasksOutput.value[0].content.value, "Bullish Divergences");
    StripPadded(pad, IsoFormat(d));
    assert ParseDivergenceSignals(tasksOutput).0[k] == Strip(dates[k]);
  }

  /** Stripping removes whitespace padding from a text that starts and ends with non-space characters. */
  lemma StripPadded(pad: string, s: string)
    requires forall i :: 0 <= i < |pad| ==> IsSpace(pad[i])
    requires |s| > 0 && !IsSpace(s[0]) && !IsSpace(s[|s| - 1])
    ensures Strip(pad + s + pad) == s
  {
    TrimStartPadded(pad, s + pad);
    assert pad + s + pad == pad + (s + pad);
    TrimEndPadded(s, pad);
  }

  lemma {:induction false} TrimStartPadded(pad: string, s: string)
    requires forall i :: 0 <= i < |pad| ==> IsSpace(pad[i])
    requires |s| > 0 && !IsSpace(s[0])
    ensures TrimStart(pad + s) == s
    decreases |pad|
  {
    if |pad| > 0 {
      assert (pad + s)[1..] == pad[1..] + s;
      TrimStartPadded(pad[1..], s);
    }
  }

  lemma {:induction false} TrimEndPadded(s: string, pad: string)
    requires forall i :: 0 <= i < |pad| ==> IsSpace(pad[i])
    requires |s| > 0 && !IsSpace(s[|s| - 1])
    ensures TrimEnd(s + pad) == s
    decreases |pad|
  {
    if |pad| > 0 {
      assert (s + pad)[..|s + pad| - 1] == s + pad[..|pad| - 1];
      TrimEndPadded(s, pad[..|pad| - 1]);
    }
  }

  /** The date of a bar, which is always a real calendar date. */
  type BarDate = d: Date | Valid(d) witness Date(2024, 1, 1)

  /** What one bar sees: its date, the cash and the close price. */
  datatype Bar = Bar(date: BarDate, cash: real, close: real)

  /** `ReversalTradingSystem.next`. */
  function ReversalRule(bullishDates: seq<string>, bearishDates: seq<string>, position: int, bar: Bar): (r: Decision)
    ensures IsoFormat(bar.date) in bullishDates && position == 0 ==> r == BuyFor(bar.cash, 0.9, bar.close)
    ensures !(IsoFormat(bar.date) in bullishDates && position == 0) ==>
      r == Ok(if IsoFormat(bar.date) in bearishDates && position != 0 then Some(Sell(position)) else None)
  {
    var day := IsoFormat(bar.date);
    if day in bullishDates && position == 0 then BuyFor(bar.cash, 0.9, bar.close)
    else if day in bearishDates && position != 0 then Ok(Some(Sell(position)))
    else Ok(None)
  }

  /** Over a whole run, purchases happen only on bullish dates while flat, sales only on bearish dates while holding. */
  lemma OrdersFollowDates(bullishDates: seq<string>, bearishDates: seq<string>, bars: seq<Bar>, position: int)
    ensures var rule := (b: Bar, p: int) => ReversalRule(bullishDates, bearishDates, p, b);
      var orders, ps := Run(rule, bars, position), Positions(rule, bars, position);
      |orders| <= |bars| && |ps| == |orders| &&
      forall i :: 0 <= i < |orders| && orders[i].Some? ==>
        if orders[i].value.Buy? then IsoFormat(bars[i].date) in bullishDates && ps[i] == 0
        else IsoFormat(bars[i].date) in bearishDates && ps[i] != 0 && orders[i].value.size == ps[i]
  {
    var rule := (b: Bar, p: int) => ReversalRule(bullishDates, bearishDates, p, b);
    var orders, ps := Run(rule, bars, position), Positions(rule, bars, position);
    forall i | 0 <= i < |orders| && orders[i].Some?
      ensures if orders[i].value.Buy? then IsoFormat(bars[i].date) in bullishDates && ps[i] == 0
        else IsoFormat(bars[i].date) in bearishDates && ps[i] != 0 && orders[i].value.size == ps[i]
    {
      RunAt(rule, bars, position, i);
    }
  }

  class ReversalTradingSystem {
    const indicator: Indicator
    const bullishDates: seq<string>
    const bearishDates: seq<string>
    var position: int

    constructor(indicator: Indicator, crewOutput: Option<seq<TaskOutput>>)
      ensures this.indicator == indicator && position == 0
      ensures (bullishDates, bearishDates) == ParseDivergenceSignals(crewOutput)
    {
      this.indicator := indicator;
      var signals := ParseDivergenceSignals(crewOutput);
      bullishDates := signals.0;
      bearishDates := signals.1;
      position := 0;
    }

    /**
     * `__init__` (parameters at lines 21-25): an unknown indicator name raises ValueError before the
     * crew runs; otherwise the crew's output for that indicator is parsed.
     */
    static method Create(indicatorName: string, crewOutput: Indicator -> Option<seq<TaskOutput>>)
      returns (r: Result<ReversalTradingSystem>)
      ensures r.Err? <==> IndicatorFor(indicatorName).Err?
      ensures r.Ok? ==> fresh(r.value) && r.value.position == 0 && r.value.indicator == IndicatorFor(indicatorName).value
      ensures r.Ok? ==> (r.value.bullishDates, r.value.bearishDates) == ParseDivergenceSignals(crewOutput(r.value.indicator))
    {
      match IndicatorFor(indicatorName)
      case Err(e) =>
        r := Err(e);
      case Ok(indicator) =>
        var s := new ReversalTradingSystem(indicator, crewOutput(indicator));
        r := Ok(s);
    }

    method Next(bar: Bar) returns (r: Decision)
      modifies this
      ensures r == ReversalRule(bullishDates, bearishDates, old(position), bar)
      ensures position == if r.Ok? then Fill(old(position), r.value) else old(position)
    {
      var day := IsoFormat(bar.date);
      if day in bullishDates && position == 0 {
        var size := SizeFor(bar.cash, 0.9, bar.close);
        if size.Err? {
          return Err(size.error);
        }
        r := Ok(Some(Buy(size.value)));
        position := position + size.value;
      } else if day in bearishDates && position != 0 {
        r := Ok(Some(Sell(position)));
        position := 0;
      } else {
        r := Ok(None);
      }
    }
  }
}
