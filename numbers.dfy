/**
 * Python floats as exact rationals. A float that may be NaN is a `Num`, with `None` for NaN;
 * every ordered comparison with NaN is false, as in Python.
 */
module Numbers {
  import opened Wrappers

  type Num = Option<real>

  predicate Gt(a: Num, b: Num) { a.Some? && b.Some? && a.value > b.value }
  predicate Lt(a: Num, b: Num) { a.Some? && b.Some? && a.value < b.value }
  predicate Ge(a: Num, b: Num) { a.Some? && b.Some? && a.value >= b.value }
  predicate Le(a: Num, b: Num) { a.Some? && b.Some? && a.value <= b.value }

  function Abs(x: real): (r: real)
    ensures r >= 0.0 && (r == x || r == -x)
  {
    if x < 0.0 then -x else x
  }

  /** Python's two-argument `min`: the first argument unless the second compares smaller. */
  function PyMin(a: Num, b: Num): (r: Num)
    ensures r == a || r == b
    ensures Lt(b, a) <==> r == b && r != a
  {
    if Lt(b, a) then b else a
  }

  function Sum(s: seq<real>): real
    decreases |s|
  {
    if |s| == 0 then 0.0 else Sum(s[..|s| - 1]) + s[|s| - 1]
  }

  function Mean(s: seq<real>): real
    requires |s| > 0
  {
    Sum(s) / |s| as real
  }

  /** Python's float floor division `a // b`; a zero divisor raises ZeroDivisionError. */
  function FloorDiv(a: real, b: real): (r: Result<int>)
    ensures b == 0.0 <==> r == Err(ZeroDivisionError)
  {
    if b == 0.0 then Err(ZeroDivisionError) else Ok((a / b).Floor)
  }

  /** With a positive divisor, `a // b` is the largest whole number of divisors that fits in `a`. */
  lemma FloorDivBounds(a: real, b: real)
    requires b > 0.0
    ensures FloorDiv(a, b).Ok?
    ensures FloorDiv(a, b).value as real * b <= a < (FloorDiv(a, b).value + 1) as real * b
  {
    var q := a / b;
    var k := q.Floor;
    assert k as real <= q < (k + 1) as real;
    assert q * b == a;
    MulMono(k as real, q, b);
    MulMonoStrict(q, (k + 1) as real, b);
    assert FloorDiv(a, b).value == k;
    assert (k + 1) as real * b > a;
  }

  lemma MulMono(x: real, y: real, c: real)
    requires x <= y && c > 0.0
    ensures x * c <= y * c
  {
  }

  lemma MulMonoStrict(x: real, y: real, c: real)
    requires x < y && c > 0.0
    ensures x * c < y * c
  {
  }

  lemma {:induction false} SumAppend(s: seq<real>, t: seq<real>)
    ensures Sum(s + t) == Sum(s) + Sum(t)
    decreases |t|
  {
    if |t| == 0 {
      assert s + t == s;
    } else {
      assert (s + t)[..|s + t| - 1] == s + t[..|t| - 1];
      SumAppend(s, t[..|t| - 1]);
    }
  }

  lemma {:induction false} SumBounds(s: seq<real>, lo: real, hi: real)
    requires forall i :: 0 <= i < |s| ==> lo <= s[i] <= hi
    ensures lo * |s| as real <= Sum(s) <= hi * |s| as real
    decreases |s|
  {
    if |s| > 0 {
      SumBounds(s[..|s| - 1], lo, hi);
    }
  }

  lemma {:induction false} SumConstant(s: seq<real>, c: real)
    requires forall i :: 0 <= i < |s| ==> s[i] == c
    ensures Sum(s) == c * |s| as real
    decreases |s|
  {
    if |s| > 0 {
      SumConstant(s[..|s| - 1], c);
    }
  }

  lemma MeanBounds(s: seq<real>, lo: real, hi: real)
    requires |s| > 0
    requires forall i :: 0 <= i < |s| ==> lo <= s[i] <= hi
    ensures lo <= Mean(s) <= hi
  {
    SumBounds(s, lo, hi);
    var n := |s| as real;
    assert lo * n <= Sum(s) <= hi * n;
    assert Mean(s) * n == Sum(s);
  }

  lemma MeanConstant(s: seq<real>, c: real)
    requires |s| > 0
    requires forall i :: 0 <= i < |s| ==> s[i] == c
    ensures Mean(s) == c
  {
    SumConstant(s, c);
  }

  /** A quotient by a positive divisor keeps the bounds its dividend has in multiples of the divisor. */
  lemma QuotientBounds(p: real, v: real, lo: real, hi: real)
    requires v > 0.0 && lo * v <= p <= hi * v
    ensures lo <= p / v <= hi
  {
    var q := p / v;
    assert q * v == p;
    if q < lo {
      MulMonoStrict(q, lo, v);
    }
    if q > hi {
      MulMonoStrict(hi, q, v);
    }
  }

  lemma Cancel(x: real, y: real, d: real)
    requires d != 0.0 && x * d == y * d
    ensures x == y
  {
    assert (x - y) * d == 0.0;
  }

  lemma {:induction false} SumLowerBound(s: seq<real>)
    requires forall i :: 0 <= i < |s| ==> s[i] >= 0.0
    ensures Sum(s) >= 0.0
    ensures forall i :: 0 <= i < |s| ==> s[i] <= Sum(s)
    decreases |s|
  {
    if |s| > 0 {
      SumLowerBound(s[..|s| - 1]);
      assert forall i :: 0 <= i < |s| - 1 ==> s[i] == s[..|s| - 1][i];
    }
  }
}
