/**
 * The correlated-stocks backtest of `src/Backtesting/backtest_correlated_stocks.py`. The
 * correlation crew's answer is searched once, at construction, for
 * `correlation between \w+ and \w+ is: ([\d.]+)`; the strategy may buy only when the captured
 * correlation reaches the threshold. On each bar the investment-decision crew's answer then
 * decides: 'buy' in it buys with the allotted cash when flat, 'sell' in it sells everything when
 * holding.
 *
 * Each `\w+` of the pattern is followed by a space, which `\w` does not match, so the greedy runs
 * never need to give characters back and the pattern is read left to right.
 */
module CorrelatedStocks {
  import opened Wrappers
  import opened Text
  import opened Broker

  /** Characters of the class `[\d.]`. */
  predicate IsNumeralChar(c: char)
  {
    IsDigit(c) || c == '.'
  }

  /** The pattern anchored at i: the text of the captured group. */
  function CorrelationAt(s: string, i: nat): (r: Option<string>)
    requires i <= |s|
    ensures r.Some? ==> |r.value| > 0 && forall k :: 0 <= k < |r.value| ==> IsNumeralChar(r.value[k])
    ensures r.Some? ==> OccursAt(s, "correlation between ", i)
  {
    if !OccursAt(s, "correlation between ", i) then None
    else
      var a := i + 20;
      var e1 := RunEnd(s, a, IsWordChar);
      if e1 == a || !OccursAt(s, " and ", e1) then None
      else
        var b := e1 + 5;
        var e2 := RunEnd(s, b, IsWordChar);
        if e2 == b || !OccursAt(s, " is: ", e2) then None
        else
          var c := e2 + 5;
          var e3 := RunEnd(s, c, IsNumeralChar);
          if e3 == c then None else Some(s[c..e3])
  }

  /** `re.search` from position `from` on: the group of the leftmost match. */
  function Search(s: string, from: nat): (r: Option<string>)
    requires from <= |s|
    ensures r.Some? ==> |r.value| > 0 && forall k :: 0 <= k < |r.value| ==> IsNumeralChar(r.value[k])
    ensures r.None? ==> forall i :: from <= i <= |s| ==> CorrelationAt(s, i).None?
    decreases |s| - from
  {
    match CorrelationAt(s, from)
    case Some(g) => Some(g)
    case None => if from == |s| then None else Search(s, from + 1)
  }

  /** Line 41: `float(group.strip().rstrip('.'))`; None where Python raises ValueError. */
  function CorrelationValue(group: string): Option<real>
  {
    ParseFloat(RStripChar(Strip(group), '.'))
  }

  /** `check_initial_correlation` on the crew's raw answer: whether the correlation reaches the threshold. */
  function CheckInitialCorrelation(correlationResult: string, threshold: real): (r: Result<bool>)
    ensures Search(correlationResult, 0).None? ==> r == Ok(false)
    ensures Search(correlationResult, 0).Some? ==>
      var v := CorrelationValue(Search(correlationResult, 0).value);
      (r.Err? <==> v.None?) && (r == Ok(true) <==> v.Some? && v.value >= threshold)
    ensures r.Err? ==> r.error == ValueError("could not convert string to float")
  {
    match Search(correlationResult, 0)
    case None => Ok(false)
    case Some(group) =>
      match CorrelationValue(group)
      case None => Err(ValueError("could not convert string to float"))
      case Some(v) => Ok(v >= threshold)
  }

  /** A run of digits and points contains no whitespace, so stripping it changes nothing. */
  lemma {:induction false} StripNumeral(g: string)
    requires forall k :: 0 <= k < |g| ==> IsNumeralChar(g[k])
    ensures Strip(g) == g
  {
    assert TrimStart(g) == g by {
      if |g| > 0 {
        assert !IsSpace(g[0]);
      }
    }
    if |g| > 0 {
      assert !IsSpace(g[|g| - 1]);
    }
  }

  /** A captured correlation that converts is never negative: the pattern admits no sign. */
  lemma CorrelationNonNegative(correlationResult: string)
    requires Search(correlationResult, 0).Some?
    requires CorrelationValue(Search(correlationResult, 0).value).Some?
    ensures CorrelationValue(Search(correlationResult, 0).value).value >= 0.0
  {
    var g := Search(correlationResult, 0).value;
    StripNumeral(g);
    var u := RStripChar(g, '.');
    assert forall k :: 0 <= k < |u| ==> u[k] == g[k];
    StripNumeral(u);
    if |u| > 0 {
      assert IsNumeralChar(u[0]);
    }
    UnsignedNonNegative(u);
  }

  /** A text the threshold lets through is let through by every lower threshold too. */
  lemma ThresholdMonotone(correlationResult: string, lower: real, higher: real)
    requires lower <= higher
    requires CheckInitialCorrelation(correlationResult, higher) == Ok(true)
    ensures CheckInitialCorrelation(correlationResult, lower) == Ok(true)
  {
  }

  /** What one bar sees: the cash, the close price and the decision crew's raw answer. */
  datatype Bar = Bar(cash: real, close: real, decision: string)

  /** `CorrelatedStocksStrategy.next`. */
  function CorrelatedRule(correlationMet: bool, allocation: real, position: int, bar: Bar): (r: Decision)
    ensures position == 0 ==>
      r == if correlationMet && Contains(Lower(bar.decision), "buy") then BuyFor(bar.cash, allocation, bar.close) else Ok(None)
    ensures position != 0 ==>
      r == Ok(if Contains(Lower(bar.decision), "sell") then Some(Sell(position)) else None)
  {
    if position == 0 then
      if correlationMet && Contains(Lower(bar.decision), "buy") then BuyFor(bar.cash, allocation, bar.close) else Ok(None)
    else if Contains(Lower(bar.decision), "sell") then Ok(Some(Sell(position)))
    else Ok(None)
  }

  /** Without the correlation, a strategy that starts flat never places an order. */
  lemma {:induction false} UncorrelatedNeverTrades(allocation: real, bars: seq<Bar>)
    ensures var rule := (b: Bar, p: int) => CorrelatedRule(false, allocation, p, b);
      Run(rule, bars, 0) == seq(|bars|, _ => None)
    decreases |bars|
  {
    var rule := (b: Bar, p: int) => CorrelatedRule(false, allocation, p, b);
    if |bars| > 0 {
      UncorrelatedNeverTrades(allocation, bars[1..]);
      assert Run(rule, bars, 0) == [None] + Run(rule, bars[1..], 0);
    }
  }

  class CorrelatedStocksStrategy {
    const correlationThreshold: real
    const allocation: real
    const correlationMet: bool
    var position: int

    constructor(correlationThreshold: real, allocation: real, correlationMet: bool)
      ensures this.correlationThreshold == correlationThreshold && this.allocation == allocation
      ensures this.correlationMet == correlationMet && position == 0
    {
      this.correlationThreshold := correlationThreshold;
      this.allocation := allocation;
      this.correlationMet := correlationMet;
      position := 0;
    }

    /** `__init__` (parameters at lines 16-19): the correlation is checked once; its ValueError escapes. */
    static method Create(correlationResult: string, correlationThreshold: real := 0.8, allocation: real := 1.0)
      returns (r: Result<CorrelatedStocksStrategy>)
      ensures r.Err? <==> CheckInitialCorrelation(correlationResult, correlationThreshold).Err?
      ensures r.Ok? ==> fresh(r.value) && r.value.position == 0 && r.value.allocation == allocation
      ensures r.Ok? ==> r.value.correlationMet == CheckInitialCorrelation(correlationResult, correlationThreshold).value
    {
      match CheckInitialCorrelation(correlationResult, correlationThreshold)
      case Err(e) =>
        r := Err(e);
      case Ok(met) =>
        var s := new CorrelatedStocksStrategy(correlationThreshold, allocation, met);
        r := Ok(s);
    }

    method Next(bar: Bar) returns (r: Decision)
      modifies this
      ensures r == CorrelatedRule(correlationMet, allocation, old(position), bar)
      ensures position == if r.Ok? then Fill(old(position), r.value) else old(position)
    {
      r := Ok(None);
      if position == 0 {
        if correlationMet && Contains(Lower(bar.decision), "buy") {
          var size := SizeFor(bar.cash, allocation, bar.close);
          if size.Err? {
            return Err(size.error);
          }
          r := Ok(Some(Buy(size.value)));
          position := position + size.value;
        }
      } else if Contains(Lower(bar.decision), "sell") {
        r := Ok(Some(Sell(position)));
        position := 0;
      }
    }
  }
}
