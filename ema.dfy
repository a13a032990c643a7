/**
 * pandas `Series.ewm(span=s, adjust=False).mean()`: the exponentially weighted moving average with
 * smoothing factor 2 / (s + 1), started at the first value.
 */
module Ema {
  import opened Wrappers

  function Alpha(span: int): (a: real)
    requires span >= 1
    ensures 0.0 < a <= 1.0
  {
    2.0 / (span as real + 1.0)
  }

  /** The average of `x` with smoothing factor `alpha`, one value per element. */
  function Ewm(x: seq<real>, alpha: real): (r: seq<real>)
    ensures |r| == |x|
    ensures |x| > 0 ==> r[0] == x[0]
    decreases |x|
  {
    if |x| == 0 then []
    else
      var p := Ewm(x[..|x| - 1], alpha);
      p + [if |p| == 0 then x[0] else alpha * x[|x| - 1] + (1.0 - alpha) * p[|p| - 1]]
  }

  /** `ewm(span=span, adjust=False).mean()`; pandas refuses a span below 1. */
  function EwmSpan(x: seq<real>, span: int): (r: Result<seq<real>>)
    ensures span < 1 <==> r.Err?
    ensures r.Err? ==> r.error == ValueError("span must satisfy: span >= 1")
    ensures r.Ok? ==> r.value == Ewm(x, Alpha(span))
  {
    if span < 1 then Err(ValueError("span must satisfy: span >= 1")) else Ok(Ewm(x, Alpha(span)))
  }

  /** Element-wise difference of two equally long series. */
  function Minus(a: seq<real>, b: seq<real>): (r: seq<real>)
    requires |a| == |b|
    ensures |r| == |a| && forall t :: 0 <= t < |a| ==> r[t] == a[t] - b[t]
  {
    seq(|a|, t requires 0 <= t < |a| => a[t] - b[t])
  }

  /** The average at position t depends only on the first t + 1 values. */
  lemma {:induction false} EwmPrefix(x: seq<real>, k: nat, alpha: real)
    requires k <= |x|
    ensures Ewm(x[..k], alpha) == Ewm(x, alpha)[..k]
    decreases |x|
  {
    if k < |x| {
      EwmPrefix(x[..|x| - 1], k, alpha);
      assert x[..|x| - 1][..k] == x[..k];
    } else {
      assert x[..k] == x;
    }
  }

  /** Each average blends the new value with the previous average. */
  lemma EwmStep(x: seq<real>, alpha: real, t: nat)
    requires 0 < t < |x|
    ensures Ewm(x, alpha)[t] == alpha * x[t] + (1.0 - alpha) * Ewm(x, alpha)[t - 1]
  {
    EwmPrefix(x, t + 1, alpha);
    EwmPrefix(x, t, alpha);
    assert x[..t + 1][..t] == x[..t];
  }

  /** The average of a constant series is that constant. */
  lemma {:induction false} EwmConstant(x: seq<real>, alpha: real, c: real, t: nat)
    requires t < |x|
    requires forall i :: 0 <= i < |x| ==> x[i] == c
    ensures Ewm(x, alpha)[t] == c
    decreases t
  {
    if t > 0 {
      EwmConstant(x, alpha, c, t - 1);
      EwmStep(x, alpha, t);
    }
  }

  /** With a factor in (0, 1] the average stays within the range of the values. */
  lemma {:induction false} EwmBounds(x: seq<real>, alpha: real, lo: real, hi: real, t: nat)
    requires 0.0 < alpha <= 1.0 && t < |x|
    requires forall i :: 0 <= i < |x| ==> lo <= x[i] <= hi
    ensures lo <= Ewm(x, alpha)[t] <= hi
    decreases t
  {
    if t > 0 {
      EwmBounds(x, alpha, lo, hi, t - 1);
      EwmStep(x, alpha, t);
      Blend(alpha, x[t], Ewm(x, alpha)[t - 1], lo, hi);
    }
  }

  lemma Blend(alpha: real, u: real, v: real, lo: real, hi: real)
    requires 0.0 < alpha <= 1.0 && lo <= u <= hi && lo <= v <= hi
    ensures lo <= alpha * u + (1.0 - alpha) * v <= hi
  {
    var d := u - v;
    var m := alpha * d;
    assert alpha * u + (1.0 - alpha) * v == v + m;
    if d >= 0.0 {
      ScaleDown(alpha, d);
    } else {
      ScaleDown(alpha, -d);
      assert alpha * -d == -m;
    }
  }

  lemma ScaleDown(alpha: real, d: real)
    requires 0.0 < alpha <= 1.0 && d >= 0.0
    ensures 0.0 <= alpha * d <= d
  {
    assert d - alpha * d == (1.0 - alpha) * d;
  }

  /** Averaging commutes with taking differences: the average of a - b is avg(a) - avg(b). */
  lemma {:induction false} EwmMinus(a: seq<real>, b: seq<real>, alpha: real, t: nat)
    requires |a| == |b| && t < |a|
    ensures Ewm(Minus(a, b), alpha)[t] == Ewm(a, alpha)[t] - Ewm(b, alpha)[t]
    decreases t
  {
    if t > 0 {
      EwmMinus(a, b, alpha, t - 1);
      EwmStep(a, alpha, t);
      EwmStep(b, alpha, t);
      EwmStep(Minus(a, b), alpha, t);
    }
  }
}
