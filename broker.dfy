/**
 * The part of the backtrader engine that the strategies' `next` rules see. Orders fill at once:
 * after each bar the strategy's position (`self.position.size`) has moved by the order's size.
 * `self.position` is true exactly when that size is not zero. `buy()` and `sell()` without a size
 * use the default stake of one share. Cash (`self.broker.getcash()`) and the close price are
 * inputs of each bar. A Python exception inside `next` ends the backtest.
 */
module Broker {
  import opened Wrappers
  import opened Numbers

  datatype Order = Buy(size: int) | Sell(size: int)

  /** What `next` did on one bar: no order, one order, or an exception. */
  type Decision = Result<Option<Order>>

  /** The position after the bar's order has filled. */
  function Fill(position: int, order: Option<Order>): int
  {
    match order
    case None => position
    case Some(Buy(n)) => position + n
    case Some(Sell(n)) => position - n
  }

  /** `(cash * fraction) // price`: the most whole shares the allotted cash pays for at the price. */
  function SizeFor(cash: real, fraction: real, price: real): (r: Result<int>)
    ensures r.Err? <==> price == 0.0
    ensures r.Err? ==> r.error == ZeroDivisionError
  {
    FloorDiv(cash * fraction, price)
  }

  /** At a positive price the size is affordable, and one more share would not be. */
  lemma SizeAffordable(cash: real, fraction: real, price: real)
    requires price > 0.0
    ensures SizeFor(cash, fraction, price).Ok?
    ensures var n := SizeFor(cash, fraction, price).value;
      n as real * price <= cash * fraction < (n + 1) as real * price
    ensures cash * fraction >= 0.0 ==> SizeFor(cash, fraction, price).value >= 0
  {
    FloorDivBounds(cash * fraction, price);
    var n := SizeFor(cash, fraction, price).value;
    if cash * fraction >= 0.0 && n < 0 {
      MulMono((n + 1) as real, 0.0, price);
    }
  }

  /** A buy order with the size `(cash * fraction) // price`, or the ZeroDivisionError it raises. */
  function BuyFor(cash: real, fraction: real, price: real): (r: Decision)
    ensures r.Err? <==> price == 0.0
    ensures r.Ok? ==> r.value == Some(Buy(SizeFor(cash, fraction, price).value))
  {
    match SizeFor(cash, fraction, price)
    case Err(e) => Err(e)
    case Ok(n) => Ok(Some(Buy(n)))
  }

  predicate NotSell(o: Option<Order>)
  {
    o.None? || o.value.Buy?
  }

  /** The orders of a run over `bars` from `position` on; an exception ends the run. */
  function Run<B>(rule: (B, int) -> Decision, bars: seq<B>, position: int): (orders: seq<Option<Order>>)
    ensures |orders| <= |bars|
    decreases |bars|
  {
    if |bars| == 0 then []
    else
      match rule(bars[0], position)
      case Err(_) => []
      case Ok(o) => [o] + Run(rule, bars[1..], Fill(position, o))
  }

  /** The position held before each bar of the run. */
  function Positions<B>(rule: (B, int) -> Decision, bars: seq<B>, position: int): (ps: seq<int>)
    ensures |ps| == |Run(rule, bars, position)|
    decreases |bars|
  {
    if |bars| == 0 then []
    else
      match rule(bars[0], position)
      case Err(_) => []
      case Ok(o) => [position] + Positions(rule, bars[1..], Fill(position, o))
  }

  /** The order of bar i of a run is the rule's answer for that bar at the position held before it. */
  lemma {:induction false} RunAt<B>(rule: (B, int) -> Decision, bars: seq<B>, position: int, i: nat)
    requires i < |Run(rule, bars, position)|
    ensures i < |bars| && i < |Positions(rule, bars, position)|
    ensures rule(bars[i], Positions(rule, bars, position)[i]).Ok?
    ensures Run(rule, bars, position)[i] == rule(bars[i], Positions(rule, bars, position)[i]).value
    decreases |bars|
  {
    var o := rule(bars[0], position).value;
    var next := Fill(position, o);
    assert Run(rule, bars, position) == [o] + Run(rule, bars[1..], next);
    assert Positions(rule, bars, position) == [position] + Positions(rule, bars[1..], next);
    if i > 0 {
      RunAt(rule, bars[1..], next, i - 1);
    }
  }

  /** A property of the position that every order keeps holds before every bar of a run. */
  lemma {:induction false} RunKeeps<B>(rule: (B, int) -> Decision, inv: int -> bool, bars: seq<B>, position: int)
    requires inv(position)
    requires forall b, p :: inv(p) && rule(b, p).Ok? ==> inv(Fill(p, rule(b, p).value))
    ensures forall i :: 0 <= i < |Positions(rule, bars, position)| ==> inv(Positions(rule, bars, position)[i])
    decreases |bars|
  {
    if |bars| > 0 && rule(bars[0], position).Ok? {
      var next := Fill(position, rule(bars[0], position).value);
      RunKeeps(rule, inv, bars[1..], next);
      assert Positions(rule, bars, position) == [position] + Positions(rule, bars[1..], next);
    }
  }

  /** A rule that never sells from positions of a kept property, run from such a position, never sells. */
  lemma {:induction false} RunNeverSells<B>(rule: (B, int) -> Decision, inv: int -> bool, bars: seq<B>, position: int)
    requires inv(position)
    requires forall b, p :: inv(p) && rule(b, p).Ok? ==> NotSell(rule(b, p).value) && inv(Fill(p, rule(b, p).value))
    ensures forall i :: 0 <= i < |Run(rule, bars, position)| ==> NotSell(Run(rule, bars, position)[i])
    decreases |bars|
  {
    if |bars| > 0 && rule(bars[0], position).Ok? {
      var o := rule(bars[0], position).value;
      RunNeverSells(rule, inv, bars[1..], Fill(position, o));
      assert Run(rule, bars, position) == [o] + Run(rule, bars[1..], Fill(position, o));
    }
  }

  /** One bar of a buy-and-hold baseline: whenever flat, buy `(cash * allocation) // price` shares. */
  function HoldRule(allocation: real, position: int, cash: real, close: real): (r: Decision)
    ensures position != 0 ==> r == Ok(None)
    ensures position == 0 ==> r == BuyFor(cash, allocation, close)
  {
    if position == 0 then BuyFor(cash, allocation, close) else Ok(None)
  }

  /** The buy-and-hold baseline never sells. */
  lemma HoldNeverSells(allocation: real, bars: seq<(real, real)>, position: int)
    ensures var rule := (b: (real, real), p: int) => HoldRule(allocation, p, b.0, b.1);
      forall i :: 0 <= i < |Run(rule, bars, position)| ==> NotSell(Run(rule, bars, position)[i])
  {
    var rule := (b: (real, real), p: int) => HoldRule(allocation, p, b.0, b.1);
    RunNeverSells(rule, _ => true, bars, position);
  }

  /** Once holding, the baseline places no further order on any bar. */
  lemma {:induction false} HoldingStaysPut(allocation: real, bars: seq<(real, real)>, position: int)
    requires position != 0
    ensures var rule := (b: (real, real), p: int) => HoldRule(allocation, p, b.0, b.1);
      Run(rule, bars, position) == seq(|bars|, _ => None)
    decreases |bars|
  {
    var rule := (b: (real, real), p: int) => HoldRule(allocation, p, b.0, b.1);
    if |bars| > 0 {
      HoldingStaysPut(allocation, bars[1..], position);
      assert Run(rule, bars, position) == [None] + Run(rule, bars[1..], position);
    }
  }

  /**
   * The buy-and-hold baseline, written out in each backtest file (`BuyAndHold`, `BuyAndHoldStrategy`,
   * `NonCrewAIStrategy`) with the same `next`.
   */
  class BuyAndHold {
    const allocation: real
    var position: int

    constructor(allocation: real := 1.0)
      ensures this.allocation == allocation && position == 0
    {
      this.allocation := allocation;
      position := 0;
    }

    method Next(cash: real, close: real) returns (r: Decision)
      modifies this
      ensures r == HoldRule(allocation, old(position), cash, close)
      ensures position == if r.Ok? then Fill(old(position), r.value) else old(position)
    {
      if position == 0 {
        var size := SizeFor(cash, allocation, close);
        if size.Err? {
          return Err(size.error);
        }
        r := Ok(Some(Buy(size.value)));
        position := position + size.value;
      } else {
        r := Ok(None);
      }
    }
  }
}
