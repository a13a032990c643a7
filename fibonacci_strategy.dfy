/**
 * The Fibonacci backtest of `src/Backtesting/backtest_fibonacci.py`. `FibonacciCrewAIStrategy`
 * and `FibonacciStrategy` trade alike (the first also runs an analysis crew whose answer it never
 * reads): the retracement levels are computed once over the whole frame, and each bar buys one
 * share at or below the 61.8% level when flat and sells one at or above the 38.2% level when
 * holding.
 */
module FibonacciStrategy {
  import opened Wrappers
  import opened Numbers
  import opened Frames
  import opened Broker
  import opened Fibonacci

  /** `next` on a bar closing at `close`; NaN levels compare false and never trigger an order. */
  function FibRule(levels: Levels, close: real, position: int): (r: Decision)
    ensures r.Ok?
    ensures r.value == Some(Buy(1)) <==> Le(Some(close), levels.level618) && position == 0
    ensures r.value == Some(Sell(1)) <==> !(Le(Some(close), levels.level618) && position == 0) && Ge(Some(close), levels.level382) && position != 0
    ensures r.value.None? <==> !(Le(Some(close), levels.level618) && position == 0) && !(Ge(Some(close), levels.level382) && position != 0)
  {
    if Le(Some(close), levels.level618) && position == 0 then Ok(Some(Buy(1)))
    else if Ge(Some(close), levels.level382) && position != 0 then Ok(Some(Sell(1)))
    else Ok(None)
  }

  /** Starting flat, the strategy holds zero or one share before every bar. */
  lemma AtMostOneShare(levels: Levels, closes: seq<real>)
    ensures var rule := (c: real, p: int) => FibRule(levels, c, p);
      forall i :: 0 <= i < |Positions(rule, closes, 0)| ==> 0 <= Positions(rule, closes, 0)[i] <= 1
  {
    var rule := (c: real, p: int) => FibRule(levels, c, p);
    RunKeeps(rule, p => 0 <= p <= 1, closes, 0);
  }

  /**
   * On a frame whose highest High is at least its lowest Low (as when every High is at least its
   * row's Low, by RowBoundsGiveRange), the 61.8% level lies below the 38.2% level, so every sale of a run happens at a close at least as high as that of every purchase.
   */
  lemma SellsAboveBuys(data: Table, closes: seq<real>, position: int)
    requires "High" in data.columns && "Low" in data.columns
    requires SeriesMax(data.columns["High"]).Some? && SeriesMin(data.columns["Low"]).Some?
    requires SeriesMax(data.columns["High"]).value >= SeriesMin(data.columns["Low"]).value
    ensures var levels := CalculateLevels(data).value;
      var rule := (c: real, p: int) => FibRule(levels, c, p);
      var orders := Run(rule, closes, position);
      |orders| <= |closes| &&
      forall i, j :: 0 <= i < |orders| && 0 <= j < |orders| && orders[i] == Some(Buy(1)) && orders[j] == Some(Sell(1)) ==>
        closes[i] <= closes[j]
  {
    var levels := CalculateLevels(data).value;
    LevelsDescend(data);
    var rule := (c: real, p: int) => FibRule(levels, c, p);
    var orders := Run(rule, closes, position);
    forall i, j | 0 <= i < |orders| && 0 <= j < |orders| && orders[i] == Some(Buy(1)) && orders[j] == Some(Sell(1))
      ensures closes[i] <= closes[j]
    {
      RunAt(rule, closes, position, i);
      RunAt(rule, closes, position, j);
      var ps := Positions(rule, closes, position);
      assert FibRule(levels, closes[i], ps[i]).value == Some(Buy(1));
      assert FibRule(levels, closes[j], ps[j]).value == Some(Sell(1));
      assert closes[i] <= levels.level618.value;
      assert closes[j] >= levels.level382.value;
    }
  }

  /** Lines 139-144: the `company` parameter reaches the strategy exactly when it is given and not empty. */
  function CompanyParam(company: Option<string>): (r: Option<string>)
    ensures r.Some? <==> company.Some? && company.value != ""
    ensures r.Some? ==> r == company
  {
    if company.Some? && company.value != "" then company else None
  }

  /** Both strategy classes of the file; the levels are `calculate_levels()` of the frame (lines 30-31, 89-90). */
  class FibonacciStrategy {
    const fibLevels: Levels
    var position: int

    constructor(fibLevels: Levels)
      ensures this.fibLevels == fibLevels && position == 0
    {
      this.fibLevels := fibLevels;
      position := 0;
    }

    method Next(close: real) returns (r: Decision)
      modifies this
      ensures r == FibRule(fibLevels, close, old(position))
      ensures position == Fill(old(position), r.value)
    {
      var levels := ToMap(fibLevels);
      if Le(Some(close), levels["61.8%"]) && position == 0 {
        r := Ok(Some(Buy(1)));
        position := position + 1;
      } else if Ge(Some(close), levels["38.2%"]) && position != 0 {
        r := Ok(Some(Sell(1)));
        position := position - 1;
      } else {
        r := Ok(None);
      }
    }
  }
}
