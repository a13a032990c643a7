/**
 * The RSI indicator of `src/Indicators/rsi_divergence.py`: per row, the trailing mean gain and the
 * trailing mean loss of the closing price over at most `period` rows, turned into
 * RSI = 100 - 100 / (1 + gain / loss). Division follows numpy: x / 0 is infinite for x > 0 and
 * NaN for x = 0, so the RSI is 100 when only gains occurred and NaN when the price did not move.
 */
module RsiIndicator {
  import opened Wrappers
  import opened Numbers
  import opened Frames

  datatype Config = Config(period: int := 14)

  datatype RsiFrame = RsiFrame(index: Index, rsi: seq<Num>)

  /** `delta.where(delta > 0, 0)`: the rise from the previous row, 0 for a fall and for the first row. */
  function Gains(close: seq<real>): (g: seq<real>)
    ensures |g| == |close|
    ensures forall t :: 0 <= t < |g| ==> g[t] >= 0.0
    ensures |close| > 0 ==> g[0] == 0.0
    ensures forall t :: 0 < t < |close| ==> g[t] == (if close[t] > close[t - 1] then close[t] - close[t - 1] else 0.0)
  {
    seq(|close|, t requires 0 <= t < |close| =>
      if t > 0 && close[t] > close[t - 1] then close[t] - close[t - 1] else 0.0)
  }

  /** `-delta.where(delta < 0, 0)`: the fall from the previous row, 0 for a rise and for the first row. */
  function Losses(close: seq<real>): (l: seq<real>)
    ensures |l| == |close|
    ensures forall t :: 0 <= t < |l| ==> l[t] >= 0.0
    ensures |close| > 0 ==> l[0] == 0.0
    ensures forall t :: 0 < t < |close| ==> l[t] == (if close[t] < close[t - 1] then close[t - 1] - close[t] else 0.0)
  {
    seq(|close|, t requires 0 <= t < |close| =>
      if t > 0 && close[t] < close[t - 1] then close[t - 1] - close[t] else 0.0)
  }

  /** First row of the trailing window of `period` rows that ends at row t. */
  function WindowStart(period: int, t: nat): (s: nat)
    requires period >= 1
    ensures s <= t && t - s < period
  {
    if t + 1 >= period then t + 1 - period else 0
  }

  /** `rolling(window=period, min_periods=1).mean()` at row t. */
  function TrailingMean(x: seq<real>, period: int, t: nat): real
    requires period >= 1 && t < |x|
  {
    Mean(x[WindowStart(period, t)..t + 1])
  }

  /** `100 - 100 / (1 + g / l)` with numpy's division. */
  function RsiOf(g: real, l: real): Num
  {
    if l == 0.0 then (if g == 0.0 then None else if g > 0.0 then Some(100.0) else Some(0.0))
    else
      var rs := g / l;
      if rs == -1.0 then None
      else Some(100.0 - 100.0 / (1.0 + rs))
  }

  function RsiSeries(close: seq<real>, period: int): (r: seq<Num>)
    requires period >= 1
    ensures |r| == |close|
  {
    seq(|close|, t requires 0 <= t < |close| =>
      RsiOf(TrailingMean(Gains(close), period, t), TrailingMean(Losses(close), period, t)))
  }

  /**
   * `RSIIndicator(period).calculate(data)`. pandas refuses a negative window, and a window of 0
   * with at least one required observation.
   */
  function Calculate(config: Config, data: Table): (r: Result<RsiFrame>)
    ensures "Close" !in data.columns ==> r == Err(ValueError("Data must contain 'Close' prices."))
    ensures "Close" in data.columns ==> (r.Ok? <==> config.period >= 1)
    ensures r.Ok? ==> r.value.index == data.index && r.value.rsi == RsiSeries(data.columns["Close"], config.period)
  {
    if "Close" !in data.columns then Err(ValueError("Data must contain 'Close' prices."))
    else if config.period < 0 then Err(ValueError("window must be an integer 0 or greater"))
    else if config.period == 0 then Err(ValueError("min_periods 1 must be <= window 0"))
    else Ok(RsiFrame(data.index, RsiSeries(data.columns["Close"], config.period)))
  }

  /** How RSI depends on the mean gain g and mean loss l, both non-negative. */
  lemma RsiOfCases(g: real, l: real)
    requires g >= 0.0 && l >= 0.0
    ensures RsiOf(g, l).None? <==> g == 0.0 && l == 0.0
    ensures RsiOf(g, l) == Some(100.0) <==> g > 0.0 && l == 0.0
    ensures RsiOf(g, l) == Some(0.0) <==> g == 0.0 && l > 0.0
    ensures RsiOf(g, l).Some? ==> 0.0 <= RsiOf(g, l).value <= 100.0
    ensures l > 0.0 ==> RsiOf(g, l) == Some(100.0 * g / (g + l))
  {
    if l > 0.0 {
      ClosedForm(g, l);
      var d := g + l;
      var f := g / d;
      assert f * d == g;
      assert 0.0 <= f <= 1.0;
      assert 100.0 * g / d == 100.0 * f;
    }
  }

  /** For l > 0: 100 - 100 / (1 + g / l) = 100 g / (g + l). */
  lemma ClosedForm(g: real, l: real)
    requires g >= 0.0 && l > 0.0
    ensures g / l != -1.0
    ensures 100.0 - 100.0 / (1.0 + g / l) == 100.0 * g / (g + l)
  {
    var rs := g / l;
    assert rs * l == g;
    var a := 1.0 + rs;
    assert a * l == l + g;
    var q := 100.0 / a;
    assert q * a == 100.0;
    assert q * (g + l) == (q * a) * l;
    var d := g + l;
    assert q * d == 100.0 * l;
    var h := 100.0 * g / d;
    assert h * d == 100.0 * g;
    assert (100.0 - q) * d == 100.0 * d - q * d;
    Cancel(100.0 - q, h, d);
  }

  /** The mean of non-negative values is non-negative, and zero exactly when every value is. */
  lemma MeanOfNonNegative(w: seq<real>)
    requires |w| > 0 && forall k :: 0 <= k < |w| ==> w[k] >= 0.0
    ensures Mean(w) >= 0.0
    ensures Mean(w) == 0.0 <==> forall k :: 0 <= k < |w| ==> w[k] == 0.0
  {
    SumLowerBound(w);
    var n := |w| as real;
    assert Mean(w) * n == Sum(w);
    if forall k :: 0 <= k < |w| ==> w[k] == 0.0 {
      SumConstant(w, 0.0);
    } else {
      var k :| 0 <= k < |w| && w[k] != 0.0;
      assert Sum(w) > 0.0;
    }
  }

  /** A trailing mean of non-negative values is zero exactly when every value in the window is. */
  lemma TrailingMeanZero(x: seq<real>, period: int, t: nat)
    requires period >= 1 && t < |x|
    requires forall i :: 0 <= i < |x| ==> x[i] >= 0.0
    ensures TrailingMean(x, period, t) >= 0.0
    ensures TrailingMean(x, period, t) == 0.0 <==> forall i :: WindowStart(period, t) <= i <= t ==> x[i] == 0.0
  {
    var s := WindowStart(period, t);
    var w := x[s..t + 1];
    assert forall k :: 0 <= k < |w| ==> w[k] == x[s + k];
    MeanOfNonNegative(w);
    if forall k :: 0 <= k < |w| ==> w[k] == 0.0 {
      forall i | s <= i <= t
        ensures x[i] == 0.0
      {
        assert w[i - s] == x[i];
      }
    }
  }

  /** Every defined RSI value lies between 0 and 100, and the first row is never defined. */
  lemma RsiInRange(close: seq<real>, period: int, t: nat)
    requires period >= 1 && t < |close|
    ensures var r := RsiSeries(close, period)[t]; r.Some? ==> 0.0 <= r.value <= 100.0
    ensures t == 0 ==> RsiSeries(close, period)[t].None?
  {
    TrailingMeanZero(Gains(close), period, t);
    TrailingMeanZero(Losses(close), period, t);
    RsiOfCases(TrailingMean(Gains(close), period, t), TrailingMean(Losses(close), period, t));
  }

  /**
   * The RSI at row t is NaN exactly when the price did not move within the window, and 100 exactly
   * when it moved and never fell.
   */
  lemma RsiExtremes(close: seq<real>, period: int, t: nat)
    requires period >= 1 && t < |close|
    ensures var s := WindowStart(period, t);
      RsiSeries(close, period)[t].None? <==> forall i :: s <= i <= t && i > 0 ==> close[i] == close[i - 1]
    ensures var s := WindowStart(period, t);
      RsiSeries(close, period)[t] == Some(100.0) <==>
        (forall i :: s <= i <= t && i > 0 ==> close[i] >= close[i - 1]) &&
        (exists i :: s <= i <= t && i > 0 && close[i] > close[i - 1])
  {
    var s := WindowStart(period, t);
    var g, l := Gains(close), Losses(close);
    TrailingMeanZero(g, period, t);
    TrailingMeanZero(l, period, t);
    RsiOfCases(TrailingMean(g, period, t), TrailingMean(l, period, t));
    assert (forall i :: s <= i <= t ==> g[i] == 0.0) <==> (forall i :: s <= i <= t && i > 0 ==> close[i] <= close[i - 1]);
    assert (forall i :: s <= i <= t ==> l[i] == 0.0) <==> (forall i :: s <= i <= t && i > 0 ==> close[i] >= close[i - 1]);
  }

  /** The RSI at row t depends only on the closes of rows t - period through t. */
  lemma RsiIsLocal(a: seq<real>, b: seq<real>, period: int, t: nat)
    requires period >= 1 && t < |a| && t < |b|
    requires forall i :: t - period <= i <= t && 0 <= i ==> a[i] == b[i]
    ensures RsiSeries(a, period)[t] == RsiSeries(b, period)[t]
  {
    var s := WindowStart(period, t);
    MovesAgree(a, b, s, t);
  }

  /** Closes that agree from row s - 1 through row t give the same gains and losses on rows s through t. */
  lemma MovesAgree(a: seq<real>, b: seq<real>, s: nat, t: nat)
    requires s <= t < |a| && t < |b|
    requires forall i :: s - 1 <= i <= t && 0 <= i ==> a[i] == b[i]
    ensures Gains(a)[s..t + 1] == Gains(b)[s..t + 1]
    ensures Losses(a)[s..t + 1] == Losses(b)[s..t + 1]
  {
    forall k | s <= k <= t
      ensures Gains(a)[k] == Gains(b)[k] && Losses(a)[k] == Losses(b)[k]
    {
      if k > 0 {
        assert a[k] == b[k] && a[k - 1] == b[k - 1];
      }
    }
  }
}
