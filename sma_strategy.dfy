/**
 * The moving-average crossover backtest of `src/Backtesting/backtest_sma.py`. backtrader's
 * `CrossOver` of the 50- and 200-bar simple moving averages is an input of each bar (positive on
 * an upward cross, negative on a downward one, zero otherwise): a flat strategy buys with the
 * allotted cash on an upward cross, a holding one sells everything on a downward cross.
 */
module SmaStrategy {
  import opened Wrappers
  import opened Broker

  /** What one bar sees: the crossover value, the cash and the close price. */
  datatype Bar = Bar(crossover: real, cash: real, close: real)

  /** `SmaCross.next`: the `elif` belongs to the position check, so a holding strategy tests only for a downward cross. */
  function SmaRule(allocation: real, position: int, bar: Bar): (r: Decision)
    ensures position == 0 ==> r == if bar.crossover > 0.0 then BuyFor(bar.cash, allocation, bar.close) else Ok(None)
    ensures position != 0 ==> r == Ok(if bar.crossover < 0.0 then Some(Sell(position)) else None)
  {
    if position == 0 then
      if bar.crossover > 0.0 then BuyFor(bar.cash, allocation, bar.close) else Ok(None)
    else if bar.crossover < 0.0 then Ok(Some(Sell(position)))
    else Ok(None)
  }

  /** Over a whole run, purchases happen only on upward crosses while flat, and sales sell the whole position on downward ones. */
  lemma OrdersFollowCrossover(allocation: real, bars: seq<Bar>, position: int)
    ensures var rule := (b: Bar, p: int) => SmaRule(allocation, p, b);
      var orders, ps := Run(rule, bars, position), Positions(rule, bars, position);
      |orders| <= |bars| && |ps| == |orders| &&
      forall i :: 0 <= i < |orders| && orders[i].Some? ==>
        if orders[i].value.Buy? then bars[i].crossover > 0.0 && ps[i] == 0
        else bars[i].crossover < 0.0 && ps[i] != 0 && orders[i].value.size == ps[i]
  {
    var rule := (b: Bar, p: int) => SmaRule(allocation, p, b);
    var orders, ps := Run(rule, bars, position), Positions(rule, bars, position);
    forall i | 0 <= i < |orders| && orders[i].Some?
      ensures if orders[i].value.Buy? then bars[i].crossover > 0.0 && ps[i] == 0
        else bars[i].crossover < 0.0 && ps[i] != 0 && orders[i].value.size == ps[i]
    {
      RunAt(rule, bars, position, i);
    }
  }

  /** Bars without a cross never trade, whatever the position. */
  lemma {:induction false} NoCrossNoTrade(allocation: real, bars: seq<Bar>, position: int)
    requires forall i :: 0 <= i < |bars| ==> bars[i].crossover == 0.0
    ensures var rule := (b: Bar, p: int) => SmaRule(allocation, p, b);
      Run(rule, bars, position) == seq(|bars|, _ => None)
    decreases |bars|
  {
    var rule := (b: Bar, p: int) => SmaRule(allocation, p, b);
    if |bars| > 0 {
      NoCrossNoTrade(allocation, bars[1..], position);
      assert Run(rule, bars, position) == [None] + Run(rule, bars[1..], position);
    }
  }

  class SmaCross {
    const shortPeriod: int
    const longPeriod: int
    const allocation: real
    var position: int

    /** The parameters at lines 13-17; the periods only shape the crossover input. */
    constructor(shortPeriod: int := 50, longPeriod: int := 200, allocation: real := 1.0)
      ensures this.shortPeriod == shortPeriod && this.longPeriod == longPeriod && this.allocation == allocation
      ensures position == 0
    {
      this.shortPeriod := shortPeriod;
      this.longPeriod := longPeriod;
      this.allocation := allocation;
      position := 0;
    }

    method Next(bar: Bar) returns (r: Decision)
      modifies this
      ensures r == SmaRule(allocation, old(position), bar)
      ensures position == if r.Ok? then Fill(old(position), r.value) else old(position)
    {
      r := Ok(None);
      if position == 0 {
        if bar.crossover > 0.0 {
          var size := SizeFor(bar.cash, allocation, bar.close);
          if size.Err? {
            return Err(size.error);
          }
          r := Ok(Some(Buy(size.value)));
          position := position + size.value;
        }
      } else if bar.crossover < 0.0 {
        r := Ok(Some(Sell(position)));
        position := 0;
      }
    }
  }
}
