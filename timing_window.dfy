/**
 * The earnings-window backtest of `src/Backtesting/backtesting_timing_trading_system.py`. The
 * earnings date is given as text (`YYYY-MM-DD`) or as a datetime. On each bar the strategy
 * records whether the earnings day is at most five days after the bar's date (which includes every
 * date after the earnings), buys with the allotted cash inside that window when flat, and sells
 * everything outside it when holding.
 *
 * On bars in calendar order the window, once entered, never closes again, so a run that starts
 * flat never sells.
 */
module TimingWindow {
  import opened Wrappers
  import opened Dates
  import opened Broker

  /** A Python datetime, which always names a real date and time of day. */
  type DateTime = m: Moment | ValidMoment(m) witness Moment(Date(2024, 1, 1), 0)

  /** The `earnings_date` argument: a string to be parsed, or a datetime used as given. */
  datatype EarningsArg = Text(text: string) | Given(moment: DateTime)

  /** Line 14: a string is parsed as `%Y-%m-%d` (midnight), anything else is taken as it is. */
  function EarningsMoment(earningsDate: EarningsArg): (r: Result<DateTime>)
    ensures earningsDate.Text? ==> (r.Ok? <==> ParseYmd(earningsDate.text).Some?)
    ensures earningsDate.Text? && r.Ok? ==> r.value == Moment(ParseYmd(earningsDate.text).value, 0)
    ensures r.Err? ==> r.error == ValueError("time data does not match format '%Y-%m-%d'")
    ensures earningsDate.Given? ==> r == Ok(earningsDate.moment)
  {
    match earningsDate
    case Given(m) => Ok(m)
    case Text(s) =>
      match ParseYmd(s)
      case Some(d) =>
        var m: DateTime := Moment(d, 0);
        Ok(m)
      case None => Err(ValueError("time data does not match format '%Y-%m-%d'"))
  }

  /** A parsed date comes back as the midnight of the written day. */
  lemma ParsedEarningsDate(d: Date)
    requires Valid(d)
    ensures EarningsMoment(Text(IsoFormat(d))) == Ok(Moment(d, 0))
  {
    ParseIsoFormat(d);
  }

  type BarDate = d: Date | Valid(d) witness Date(2024, 1, 1)

  /** Line 19: the earnings day is at most five days after the bar's date. */
  predicate InWindow(earnings: BarDate, current: BarDate)
  {
    DaysBetween(current, earnings) <= 5
  }

  /** What one bar sees: its date, the cash and the close price. */
  datatype Bar = Bar(date: BarDate, cash: real, close: real)

  /** Lines 21-31. */
  function TimingRule(earnings: BarDate, allocation: real, position: int, bar: Bar): (r: Decision)
    ensures InWindow(earnings, bar.date) && position == 0 ==> r == BuyFor(bar.cash, allocation, bar.close)
    ensures !InWindow(earnings, bar.date) && position != 0 ==> r == Ok(Some(Sell(position)))
    ensures InWindow(earnings, bar.date) != (position == 0) ==> r == Ok(None)
  {
    if InWindow(earnings, bar.date) && position == 0 then BuyFor(bar.cash, allocation, bar.close)
    else if !InWindow(earnings, bar.date) && position != 0 then Ok(Some(Sell(position)))
    else Ok(None)
  }

  /** Calendar order of dates. */
  predicate DateLe(a: Date, b: Date)
  {
    a.year < b.year || (a.year == b.year && (a.month < b.month || (a.month == b.month && a.day <= b.day)))
  }

  /** A later bar is at least as close to (or past) the earnings day: the window never closes again. */
  lemma WindowStaysOpen(earnings: BarDate, a: BarDate, b: BarDate)
    requires DateLe(a, b) && InWindow(earnings, a)
    ensures InWindow(earnings, b)
  {
    if a != b {
      OrdinalMonotone(a, b);
    }
  }

  predicate Chronological(bars: seq<Bar>)
  {
    forall i :: 0 <= i < |bars| - 1 ==> DateLe(bars[i].date, bars[i + 1].date)
  }

  /** On bars in calendar order, a strategy that is flat or inside the window never sells. */
  lemma {:induction false} NeverSells(earnings: BarDate, allocation: real, bars: seq<Bar>, position: int)
    requires Chronological(bars)
    requires position != 0 && |bars| > 0 ==> InWindow(earnings, bars[0].date)
    ensures var rule := (b: Bar, p: int) => TimingRule(earnings, allocation, p, b);
      forall i :: 0 <= i < |Run(rule, bars, position)| ==> NotSell(Run(rule, bars, position)[i])
    decreases |bars|
  {
    var rule := (b: Bar, p: int) => TimingRule(earnings, allocation, p, b);
    if |bars| > 0 && rule(bars[0], position).Ok? {
      var o := rule(bars[0], position).value;
      var next := Fill(position, o);
      assert NotSell(o);
      if |bars| > 1 {
        assert DateLe(bars[0].date, bars[1].date);
        if next != 0 {
          assert InWindow(earnings, bars[0].date);
          WindowStaysOpen(earnings, bars[0].date, bars[1].date);
        }
      }
      assert Chronological(bars[1..]) by {
        forall i | 0 <= i < |bars[1..]| - 1
          ensures DateLe(bars[1..][i].date, bars[1..][i + 1].date)
        {
          assert bars[1..][i] == bars[i + 1] && bars[1..][i + 1] == bars[i + 2];
        }
      }
      NeverSells(earnings, allocation, bars[1..], next);
      assert Run(rule, bars, position) == [o] + Run(rule, bars[1..], next);
    }
  }

  class TimingTradingStrategy {
    const stock: string
    const earningsDate: DateTime
    const allocation: real
    var inEarningsWindow: bool
    var position: int

    constructor(stock: string, earningsDate: DateTime, allocation: real)
      ensures this.stock == stock && this.earningsDate == earningsDate && this.allocation == allocation
      ensures !inEarningsWindow && position == 0
    {
      this.stock := stock;
      this.earningsDate := earningsDate;
      this.allocation := allocation;
      inEarningsWindow := false;
      position := 0;
    }

    /** `__init__` (parameters at line 10): a string that is not a `%Y-%m-%d` date raises ValueError. */
    static method Create(stock: string, earningsDate: EarningsArg, allocation: real := 1.0)
      returns (r: Result<TimingTradingStrategy>)
      ensures r.Err? <==> EarningsMoment(earningsDate).Err?
      ensures r.Ok? ==> fresh(r.value) && r.value.earningsDate == EarningsMoment(earningsDate).value
      ensures r.Ok? ==> r.value.position == 0 && !r.value.inEarningsWindow && r.value.allocation == allocation
    {
      match EarningsMoment(earningsDate)
      case Err(e) =>
        r := Err(e);
      case Ok(m) =>
        var s := new TimingTradingStrategy(stock, m, allocation);
        r := Ok(s);
    }

    method Next(bar: Bar) returns (r: Decision)
      modifies this
      ensures inEarningsWindow == InWindow(earningsDate.date, bar.date)
      ensures r == TimingRule(earningsDate.date, allocation, old(position), bar)
      ensures position == if r.Ok? then Fill(old(position), r.value) else old(position)
    {
      inEarningsWindow := DaysBetween(bar.date, earningsDate.date) <= 5;
      r := Ok(None);
      if inEarningsWindow && position == 0 {
        var size := SizeFor(bar.cash, allocation, bar.close);
        if size.Err? {
          return Err(size.error);
        }
        r := Ok(Some(Buy(size.value)));
        position := position + size.value;
      } else if !inEarningsWindow && position != 0 {
        r := Ok(Some(Sell(position)));
        position := 0;
      }
    }
  }
}
