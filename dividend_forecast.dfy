/**
 * The dividend-growth backtest of `src/Backtesting/backtest_dividend_forecast_updated.py`. The
 * forecast text is cleaned of markdown `*` and `_`, every "Year N: X% increase" in it is found
 * (`re.findall`, case-insensitive), and the mean of the X values, as a fraction, decides a single
 * all-in purchase when it exceeds 5%.
 *
 * The pattern `Year\s*\d+:\s*(\d+(\.\d+)?)%\s*increase` never needs to backtrack: each greedy run
 * stops at a character the next element of the pattern must see, so the scanner below reads it
 * left to right, trying each start position in turn and resuming after each match.
 */
module DividendForecast {
  import opened Wrappers
  import opened Numbers
  import opened Text
  import opened Broker

  /** The markdown characters removed at line 93. */
  const Markdown: set<char> := {'*', '_'}

  /** The literal `lit` (lower case) at position i, compared without regard to ASCII case. */
  predicate WordAtCI(s: string, lit: string, i: nat)
  {
    i + |lit| <= |s| && forall k :: 0 <= k < |lit| ==> LowerChar(s[i + k]) == lit[k]
  }

  /** `(\d+(\.\d+)?)%` at j: the value and the position of the '%'. */
  function RateAt(s: string, j: nat): (r: Option<(real, nat)>)
    requires j <= |s|
    ensures r.Some? ==> j < r.value.1 < |s| && s[r.value.1] == '%' && r.value.0 >= 0.0
  {
    var e := RunEnd(s, j, IsDigit);
    if e == j then None
    else
      assert AllDigits(s[j..e]);
      if e + 1 < |s| && s[e] == '.' && IsDigit(s[e + 1]) then
        var f := RunEnd(s, e + 1, IsDigit);
        assert AllDigits(s[e + 1..f]);
        if f < |s| && s[f] == '%' then Some((DecimalValue(s[j..e], s[e + 1..f]), f)) else None
      else if e < |s| && s[e] == '%' then Some((DecimalValue(s[j..e], ""), e))
      else None
  }

  /** The whole pattern anchored at i: the captured percentage and where the match ends. */
  function GrowthAt(s: string, i: nat): (r: Option<(real, nat)>)
    requires i <= |s|
    ensures r.Some? ==> i < r.value.1 <= |s| && r.value.0 >= 0.0
  {
    if !WordAtCI(s, "year", i) then None
    else
      var j := RunEnd(s, i + 4, IsSpace);
      var k := RunEnd(s, j, IsDigit);
      if k == j || k >= |s| || s[k] != ':' then None
      else
        var m := RunEnd(s, k + 1, IsSpace);
        match RateAt(s, m)
        case None => None
        case Some((v, pct)) =>
          var q := RunEnd(s, pct + 1, IsSpace);
          if WordAtCI(s, "increase", q) then Some((v, q + 8)) else None
  }

  /** `re.findall` from position `from` on: matches are taken left to right and never overlap. */
  function FindAll(s: string, from: nat): (rates: seq<real>)
    requires from <= |s|
    ensures forall i :: 0 <= i < |rates| ==> rates[i] >= 0.0
    decreases |s| - from
  {
    if from == |s| then []
    else
      match GrowthAt(s, from)
      case Some((v, e)) => [v] + FindAll(s, e)
      case None => FindAll(s, from + 1)
  }

  /** The mean of non-negative percentages as a fraction; 0.0 for none. */
  function MeanRate(rates: seq<real>): (rate: real)
    requires forall i :: 0 <= i < |rates| ==> rates[i] >= 0.0
    ensures rate >= 0.0
    ensures |rates| == 0 ==> rate == 0.0
    ensures |rates| > 0 ==> rate * 100.0 == Mean(rates)
  {
    if |rates| == 0 then 0.0
    else
      SumLowerBound(rates);
      var mean := Sum(rates) / |rates| as real;
      assert mean >= 0.0 by {
        if mean < 0.0 {
          MulMonoStrict(mean, 0.0, |rates| as real);
        }
      }
      mean / 100.0
  }

  /**
   * `parse_dividend_growth`: never negative; 0.0 without a match, otherwise the mean of the matched
   * percentages over 100.
   */
  function ParseDividendGrowth(forecastText: string): (rate: real)
    ensures var rates := FindAll(RemoveChars(forecastText, Markdown), 0);
      rate >= 0.0 && (|rates| == 0 ==> rate == 0.0) && (|rates| > 0 ==> rate * 100.0 == Mean(rates))
  {
    MeanRate(FindAll(RemoveChars(forecastText, Markdown), 0))
  }

  /** Removing markdown twice is removing it once. */
  lemma {:induction false} RemoveCharsIdempotent(s: string, drop: set<char>)
    ensures RemoveChars(RemoveChars(s, drop), drop) == RemoveChars(s, drop)
    decreases |s|
  {
    if |s| > 0 {
      RemoveCharsIdempotent(s[1..], drop);
      var tail := RemoveChars(s[1..], drop);
      if s[0] in drop {
        assert RemoveChars(s, drop) == tail;
      } else {
        assert RemoveChars(s, drop) == [s[0]] + tail;
        assert ([s[0]] + tail)[1..] == tail;
      }
    }
  }

  /** Removing `*` and `_` from the forecast beforehand never changes the parsed rate. */
  lemma MarkdownIgnored(forecastText: string)
    ensures ParseDividendGrowth(RemoveChars(forecastText, Markdown)) == ParseDividendGrowth(forecastText)
  {
    RemoveCharsIdempotent(forecastText, Markdown);
  }

  /** The CrewAI strategy at lines 107-113: one purchase with all the cash while the rate beats 5%. */
  function CrewRule(forecastedGrowthRate: real, position: int, cash: real, close: real): (r: Decision)
    ensures r.Ok? && r.value.Some? <==> forecastedGrowthRate > 0.05 && position == 0 && close != 0.0
    ensures r.Ok? && r.value.Some? ==> r.value.value == Buy(SizeFor(cash, 1.0, close).value)
    ensures r.Err? <==> forecastedGrowthRate > 0.05 && position == 0 && close == 0.0
  {
    if forecastedGrowthRate > 0.05 && position == 0 then BuyFor(cash, 1.0, close) else Ok(None)
  }

  /** The CrewAI strategy never sells, and without a rate above 5% it never trades. */
  lemma CrewNeverSells(rate: real, bars: seq<(real, real)>, position: int)
    ensures var rule := (b: (real, real), p: int) => CrewRule(rate, p, b.0, b.1);
      forall i :: 0 <= i < |Run(rule, bars, position)| ==>
        NotSell(Run(rule, bars, position)[i]) && (rate <= 0.05 ==> Run(rule, bars, position)[i].None?)
  {
    var rule := (b: (real, real), p: int) => CrewRule(rate, p, b.0, b.1);
    RunNeverSells(rule, _ => true, bars, position);
    if rate <= 0.05 {
      NoRateNoTrade(rate, bars, position);
    }
  }

  lemma {:induction false} NoRateNoTrade(rate: real, bars: seq<(real, real)>, position: int)
    requires rate <= 0.05
    ensures var rule := (b: (real, real), p: int) => CrewRule(rate, p, b.0, b.1);
      forall i :: 0 <= i < |Run(rule, bars, position)| ==> Run(rule, bars, position)[i].None?
    decreases |bars|
  {
    var rule := (b: (real, real), p: int) => CrewRule(rate, p, b.0, b.1);
    if |bars| > 0 {
      NoRateNoTrade(rate, bars[1..], position);
      assert Run(rule, bars, position) == [None] + Run(rule, bars[1..], position);
    }
  }

  /** `CrewAIStrategy`, with the parsed forecast fixed at construction (line 89). */
  class CrewAIStrategy {
    const forecastedGrowthRate: real
    var position: int

    constructor(forecastText: string)
      ensures forecastedGrowthRate == ParseDividendGrowth(forecastText) && position == 0
    {
      forecastedGrowthRate := ParseDividendGrowth(forecastText);
      position := 0;
    }

    method Next(cash: real, close: real) returns (r: Decision)
      modifies this
      ensures r == CrewRule(forecastedGrowthRate, old(position), cash, close)
      ensures position == if r.Ok? then Fill(old(position), r.value) else old(position)
    {
      r := Ok(None);
      if forecastedGrowthRate > 0.05 && position == 0 {
        var size := SizeFor(cash, 1.0, close);
        if size.Err? {
          return Err(size.error);
        }
        r := Ok(Some(Buy(size.value)));
        position := position + size.value;
      }
    }
  }
}
