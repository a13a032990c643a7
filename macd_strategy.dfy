/**
 * The MACD backtest of `src/Backtesting/backtest_macd.py`. `MACDCrewAIStrategy` and
 * `MACDStrategy` trade alike (the first also runs an analysis crew whose answer it never reads):
 * the MACD and signal lines are computed once over the whole frame, and every bar compares their
 * LAST values, buying one share when MACD is above the signal line and the strategy is flat, and
 * selling one when it is below and the strategy holds.
 *
 * Since the compared values are the same on every bar, a run that starts flat either buys on its
 * first bar and then holds, or never trades; it never sells.
 */
module MacdStrategy {
  import opened Wrappers
  import opened Frames
  import opened Broker
  import opened MacdColumns

  /** Lines 57-64 once the values are read. */
  function MacdRule(macdValue: real, signalValue: real, position: int): (r: Decision)
    ensures r.Ok?
    ensures r.value == Some(Buy(1)) <==> macdValue > signalValue && position == 0
    ensures r.value == Some(Sell(1)) <==> macdValue < signalValue && position != 0
    ensures r.value.None? <==> !(macdValue > signalValue && position == 0) && !(macdValue < signalValue && position != 0)
  {
    if macdValue > signalValue && position == 0 then Ok(Some(Buy(1)))
    else if macdValue < signalValue && position != 0 then Ok(Some(Sell(1)))
    else Ok(None)
  }

  /** `next`: the last MACD and signal values (IndexError for an empty frame), then the rule. */
  function MacdNext(lines: MacdSignal, position: int): (r: Decision)
    ensures |lines.macd| == 0 || |lines.signalLine| == 0 ==> r == Err(IndexError)
    ensures |lines.macd| > 0 && |lines.signalLine| > 0 ==>
      r == MacdRule(lines.macd[|lines.macd| - 1], lines.signalLine[|lines.signalLine| - 1], position)
  {
    match LastValue(lines.macd)
    case Err(e) => Err(e)
    case Ok(m) =>
      match LastValue(lines.signalLine)
      case Err(e) => Err(e)
      case Ok(s) => MacdRule(m, s, position)
  }

  /** Starting flat, a run never sells: holding needs MACD above the signal line, selling needs it below. */
  lemma FlatRunNeverSells<B>(lines: MacdSignal, bars: seq<B>)
    ensures var rule := (b: B, p: int) => MacdNext(lines, p);
      forall i :: 0 <= i < |Run(rule, bars, 0)| ==> NotSell(Run(rule, bars, 0)[i])
  {
    var rule := (b: B, p: int) => MacdNext(lines, p);
    var inv := p => p == 0 || Above(lines);
    forall b: B, p | inv(p) && rule(b, p).Ok?
      ensures NotSell(rule(b, p).value) && inv(Fill(p, rule(b, p).value))
    {
      assert rule(b, p) == MacdNext(lines, p);
      assert |lines.macd| > 0 && |lines.signalLine| > 0;
      var m, s := lines.macd[|lines.macd| - 1], lines.signalLine[|lines.signalLine| - 1];
      assert MacdNext(lines, p) == MacdRule(m, s, p);
      var o := MacdRule(m, s, p).value;
      if p != 0 {
        assert Above(lines) && m > s;
        assert o == None;
      } else if o.Some? {
        assert o == Some(Buy(1)) && m > s;
        assert Above(lines);
      }
    }
    RunNeverSells(rule, inv, bars, 0);
  }

  /** MACD is above the signal line on the last row. */
  predicate Above(lines: MacdSignal)
  {
    |lines.macd| > 0 && |lines.signalLine| > 0 && lines.macd[|lines.macd| - 1] > lines.signalLine[|lines.signalLine| - 1]
  }

  /** Holding with MACD above, or flat without it, the strategy never places an order again. */
  lemma {:induction false} Quiet<B>(lines: MacdSignal, bars: seq<B>, position: int)
    requires (position != 0 && Above(lines)) || (position == 0 && !Above(lines))
    ensures var rule := (b: B, p: int) => MacdNext(lines, p);
      forall i :: 0 <= i < |Run(rule, bars, position)| ==> Run(rule, bars, position)[i].None?
    decreases |bars|
  {
    var rule := (b: B, p: int) => MacdNext(lines, p);
    if |bars| > 0 && rule(bars[0], position).Ok? {
      assert rule(bars[0], position).value.None?;
      Quiet(lines, bars[1..], position);
      assert Run(rule, bars, position) == [None] + Run(rule, bars[1..], position);
    }
  }

  /** A run that starts flat places at most one order, on its first bar, and only with MACD above. */
  lemma AtMostOneOrder<B>(lines: MacdSignal, bars: seq<B>)
    ensures var rule := (b: B, p: int) => MacdNext(lines, p);
      forall i :: 0 <= i < |Run(rule, bars, 0)| ==> (i == 0 && Above(lines)) || Run(rule, bars, 0)[i].None?
  {
    var rule := (b: B, p: int) => MacdNext(lines, p);
    if |bars| > 0 && rule(bars[0], 0).Ok? {
      var o := rule(bars[0], 0).value;
      var next := Fill(0, o);
      Quiet(lines, bars[1..], next);
      assert Run(rule, bars, 0) == [o] + Run(rule, bars[1..], next);
    }
  }

  /** Both strategy classes of the file; the lines are `calculate_macd()` of the frame. */
  class MacdStrategy {
    const macdData: MacdSignal
    var position: int

    constructor(macdData: MacdSignal)
      ensures this.macdData == macdData && position == 0
    {
      this.macdData := macdData;
      position := 0;
    }

    method Next() returns (r: Decision)
      modifies this
      ensures r == MacdNext(macdData, old(position))
      ensures position == if r.Ok? then Fill(old(position), r.value) else old(position)
    {
      var m := LastValue(macdData.macd);
      var s := LastValue(macdData.signalLine);
      if m.Err? || s.Err? {
        return Err(IndexError);
      }
      if m.value > s.value && position == 0 {
        r := Ok(Some(Buy(1)));
        position := position + 1;
      } else if m.value < s.value && position != 0 {
        r := Ok(Some(Sell(1)));
        position := position - 1;
      } else {
        r := Ok(None);
      }
    }
  }
}
