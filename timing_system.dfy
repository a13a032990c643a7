/**
 * The earnings-timing backtest of `src/Backtesting/backtest_timing_trading_system.py`. On each
 * bar where it is flat, the strategy fetches the (fixed) earnings date and decides 'buy' when the
 * earnings are at most five whole days away from the current time (read from the clock, here a
 * parameter of each bar) and 'sell' otherwise; on 'buy' it spends all its cash.
 *
 * The selling branch is nested inside the flat check and itself asks for a position, so it can
 * never run: the strategy never sells.
 */
module TimingSystem {
  import opened Wrappers
  import opened Dates
  import opened Broker

  type DateTime = m: Moment | ValidMoment(m) witness Moment(Date(2024, 1, 1), 0)

  /** `fetch_earnings_date`: the fixed datetime 2024-10-31 00:00. */
  function FetchEarningsDate(): (r: DateTime)
    ensures r.date == Date(2024, 10, 31) && r.micros == 0
  {
    Moment(Date(2024, 10, 31), 0)
  }

  /** `analyze_sentiment(earnings_date)` at the time `now`: a missing date is 'sell'. */
  function AnalyzeSentiment(earningsDate: Option<DateTime>, now: DateTime): (r: string)
    ensures r in {"buy", "sell"}
    ensures r == "buy" <==> earningsDate.Some? && MomentDaysBetween(now, earningsDate.value) <= 5
  {
    if earningsDate.Some? && MomentDaysBetween(now, earningsDate.value) <= 5 then "buy" else "sell"
  }

  /**
   * `(earnings - now).days <= 5` rounds the difference down to whole days, so the window opens
   * strictly later than six days before the earnings time, and stays open afterwards.
   */
  lemma BuysWithinSixDays(earningsDate: DateTime, now: DateTime)
    ensures AnalyzeSentiment(Some(earningsDate), now) == "buy" <==> Stamp(earningsDate) - Stamp(now) < 6 * MicrosPerDay
  {
    var n := MomentDaysBetween(now, earningsDate);
    var diff := Stamp(earningsDate) - Stamp(now);
    if n <= 5 {
      assert (n + 1) * MicrosPerDay <= 6 * MicrosPerDay;
    } else {
      assert n * MicrosPerDay >= 6 * MicrosPerDay;
    }
  }

  /** What one bar sees: the clock, the cash and the close price. */
  datatype Bar = Bar(now: DateTime, cash: real, close: real)

  /** Lines 41-55: the decision is made, and acted on, only while flat. */
  function TimingSystemRule(position: int, bar: Bar): (r: Decision)
    ensures position != 0 ==> r == Ok(None)
    ensures position == 0 ==>
      r == if AnalyzeSentiment(Some(FetchEarningsDate()), bar.now) == "buy" then BuyFor(bar.cash, 1.0, bar.close) else Ok(None)
  {
    if position == 0 then
      var decision := AnalyzeSentiment(Some(FetchEarningsDate()), bar.now);
      if decision == "buy" then BuyFor(bar.cash, 1.0, bar.close)
      else if decision == "sell" && position != 0 then Ok(Some(Sell(position)))
      else Ok(None)
    else Ok(None)
  }

  /** The strategy never sells, from any position. */
  lemma NeverSells(bars: seq<Bar>, position: int)
    ensures var rule := (b: Bar, p: int) => TimingSystemRule(p, b);
      forall i :: 0 <= i < |Run(rule, bars, position)| ==> NotSell(Run(rule, bars, position)[i])
  {
    var rule := (b: Bar, p: int) => TimingSystemRule(p, b);
    RunNeverSells(rule, _ => true, bars, position);
  }

  class TimingTradingSystemStrategy {
    const stock: string
    /** The last decision, None before the first flat bar. */
    var decision: Option<string>
    var position: int

    constructor(stock: string := "AAPL")
      ensures this.stock == stock && decision == None && position == 0
    {
      this.stock := stock;
      decision := None;
      position := 0;
    }

    method Next(bar: Bar) returns (r: Decision)
      modifies this
      ensures decision == if old(position) == 0 then Some(AnalyzeSentiment(Some(FetchEarningsDate()), bar.now)) else old(decision)
      ensures r == TimingSystemRule(old(position), bar)
      ensures position == if r.Ok? then Fill(old(position), r.value) else old(position)
    {
      r := Ok(None);
      if position == 0 {
        var earningsDate := FetchEarningsDate();
        var d := AnalyzeSentiment(Some(earningsDate), bar.now);
        decision := Some(d);
        if d == "buy" {
          var size := SizeFor(bar.cash, 1.0, bar.close);
          if size.Err? {
            return Err(size.error);
          }
          r := Ok(Some(Buy(size.value)));
          position := position + size.value;
        } else if d == "sell" && position != 0 {
          // Lines 52-55: the strategy is flat here, so this sale never happens.
          assert false;
        }
      }
    }
  }
}
