/**
 * The intraday VWAP of `src/Indicators/vwap.py`. Rows are grouped by the calendar date of their
 * timestamp; within each date the VWAP at a row is the running sum of typical price times volume
 * divided by the running sum of volume, over that date's rows up to this one. The model keeps
 * the rows in their input order; pandas does too unless a timestamp repeats after rows of another
 * date, in which case its grouped apply moves the later occurrences up next to the first one.
 */
module Vwap {
  import opened Wrappers
  import opened Numbers
  import opened Text
  import opened Dates
  import opened Frames

  const Required: seq<string> := ["Close", "High", "Low", "Volume"]

  /** The result frame: the VWAP and Close columns on the input's index. */
  datatype VwapFrame = VwapFrame(index: Index, vwap: seq<Num>, close: seq<real>)

  /** The required columns the frame lacks, in the order they are required. */
  function Missing(columns: set<string>): (m: seq<string>)
    ensures forall c :: c in m <==> c in Required && c !in columns
  {
    (if "Close" in columns then [] else ["Close"]) + (if "High" in columns then [] else ["High"])
      + (if "Low" in columns then [] else ["Low"]) + (if "Volume" in columns then [] else ["Volume"])
  }

  function MissingMessage(missing: seq<string>): string
  {
    "Data must contain " + Join(Required, ", ") + " columns. Missing: " + Join(missing, ", ")
  }

  function TypicalPrice(high: seq<real>, low: seq<real>, close: seq<real>): (tp: seq<real>)
    requires |high| == |low| == |close|
    ensures |tp| == |close| && forall t :: 0 <= t < |tp| ==> tp[t] == (high[t] + low[t] + close[t]) / 3.0
  {
    seq(|close|, t requires 0 <= t < |close| => (high[t] + low[t] + close[t]) / 3.0)
  }

  /** Sum of `x` over the first `n` rows whose date is `d`. */
  function DaySum(x: seq<real>, dates: seq<Date>, n: nat, d: Date): real
    requires n <= |x| && n <= |dates|
    decreases n
  {
    if n == 0 then 0.0
    else DaySum(x, dates, n - 1, d) + (if dates[n - 1] == d then x[n - 1] else 0.0)
  }

  function Products(tp: seq<real>, vol: seq<real>): (p: seq<real>)
    requires |tp| == |vol|
    ensures |p| == |tp| && forall t :: 0 <= t < |p| ==> p[t] == tp[t] * vol[t]
  {
    seq(|tp|, t requires 0 <= t < |tp| => tp[t] * vol[t])
  }

  /**
   * VWAP at row t. A zero running volume leaves it undefined (NaN, or an infinity when price times
   * volume does not also sum to zero).
   */
  function VwapAt(tp: seq<real>, vol: seq<real>, dates: seq<Date>, t: nat): Num
    requires |tp| == |vol| == |dates| && t < |tp|
  {
    var v := DaySum(vol, dates, t + 1, dates[t]);
    if v == 0.0 then None else Some(DaySum(Products(tp, vol), dates, t + 1, dates[t]) / v)
  }

  function VwapColumn(tp: seq<real>, vol: seq<real>, dates: seq<Date>): (r: seq<Num>)
    requires |tp| == |vol| == |dates|
    ensures |r| == |tp| && forall t :: 0 <= t < |r| ==> r[t] == VwapAt(tp, vol, dates, t)
  {
    seq(|tp|, t requires 0 <= t < |tp| => VwapAt(tp, vol, dates, t))
  }

  function DatesOf(stamps: seq<Moment>): (d: seq<Date>)
    ensures |d| == |stamps| && forall t :: 0 <= t < |d| ==> d[t] == stamps[t].date
  {
    seq(|stamps|, t requires 0 <= t < |stamps| => stamps[t].date)
  }

  /** The per-date sums of `x` over the first `t` rows, held for the dates seen so far. */
  ghost predicate Tracks(sums: map<Date, real>, x: seq<real>, dates: seq<Date>, t: nat)
    requires t <= |x| && t <= |dates|
  {
    forall d :: (d in sums ==> sums[d] == DaySum(x, dates, t, d)) && (d !in sums ==> DaySum(x, dates, t, d) == 0.0)
  }

  /** Adding row t to the sum of its date keeps the sums exact. */
  lemma TracksStep(sums: map<Date, real>, x: seq<real>, dates: seq<Date>, t: nat)
    requires t < |x| && t < |dates| && Tracks(sums, x, dates, t)
    ensures var d := dates[t];
      Tracks(sums[d := (if d in sums then sums[d] else 0.0) + x[t]], x, dates, t + 1)
  {
    var d := dates[t];
    var sums' := sums[d := (if d in sums then sums[d] else 0.0) + x[t]];
    forall e
      ensures (e in sums' ==> sums'[e] == DaySum(x, dates, t + 1, e)) && (e !in sums' ==> DaySum(x, dates, t + 1, e) == 0.0)
    {
      assert DaySum(x, dates, t + 1, e) == DaySum(x, dates, t, e) + (if dates[t] == e then x[t] else 0.0);
    }
  }

  /**
   * `VWAPIndicator().calculate(data)`. The grouped running sums are accumulated row by row in one
   * pass, keeping per date the sums seen so far. A frame without rows has no group for the grouped
   * apply to run on, so no VWAP column is made and selecting it raises KeyError.
   */
  method Calculate(data: Table) returns (r: Result<VwapFrame>)
    requires Aligned(data)
    ensures |Missing(data.columns.Keys)| > 0 ==> r == Err(ValueError(MissingMessage(Missing(data.columns.Keys))))
    ensures |Missing(data.columns.Keys)| == 0 && !data.index.DatetimeIndex? ==>
      r == Err(ValueError("DataFrame index must be a DatetimeIndex."))
    ensures |Missing(data.columns.Keys)| == 0 && data.index.DatetimeIndex? && Length(data.index) == 0 ==>
      r == Err(KeyError("VWAP"))
    ensures r.Ok? <==> |Missing(data.columns.Keys)| == 0 && data.index.DatetimeIndex? && Length(data.index) > 0
    ensures r.Ok? ==> var c := data.columns;
      r.value == VwapFrame(data.index,
        VwapColumn(TypicalPrice(c["High"], c["Low"], c["Close"]), c["Volume"], DatesOf(data.index.stamps)), c["Close"])
  {
    var missing := Missing(data.columns.Keys);
    if |missing| > 0 {
      return Err(ValueError(MissingMessage(missing)));
    }
    var close, vol := data.columns["Close"], data.columns["Volume"];
    var tp := TypicalPrice(data.columns["High"], data.columns["Low"], close);
    if !data.index.DatetimeIndex? {
      return Err(ValueError("DataFrame index must be a DatetimeIndex."));
    }
    if |close| == 0 {
      return Err(KeyError("VWAP"));
    }
    var dates := DatesOf(data.index.stamps);
    var vwap := GroupedVwap(tp, vol, dates);
    r := Ok(VwapFrame(data.index, vwap, close));
  }

  /**
   * `groupby(date)` with running sums: one pass over the rows, keeping per date the sums of
   * typical price times volume and of volume seen so far.
   */
  method GroupedVwap(tp: seq<real>, vol: seq<real>, dates: seq<Date>) returns (vwap: seq<Num>)
    requires |tp| == |vol| == |dates|
    ensures vwap == VwapColumn(tp, vol, dates)
  {
    var tpv := Products(tp, vol);
    var tpvSoFar: map<Date, real> := map[];
    var volSoFar: map<Date, real> := map[];
    vwap := [];
    var t := 0;
    while t < |tp|
      invariant 0 <= t <= |tp|
      invariant Tracks(volSoFar, vol, dates, t) && Tracks(tpvSoFar, tpv, dates, t)
      invariant vwap == VwapColumn(tp, vol, dates)[..t]
    {
      var d := dates[t];
      var v := (if d in volSoFar then volSoFar[d] else 0.0) + vol[t];
      var p := (if d in tpvSoFar then tpvSoFar[d] else 0.0) + tpv[t];
      TracksStep(volSoFar, vol, dates, t);
      TracksStep(tpvSoFar, tpv, dates, t);
      volSoFar := volSoFar[d := v];
      tpvSoFar := tpvSoFar[d := p];
      assert v == DaySum(vol, dates, t + 1, d) && p == DaySum(tpv, dates, t + 1, d);
      vwap := vwap + [if v == 0.0 then None else Some(p / v)];
      t := t + 1;
    }
  }

  /** The first row of a date has the typical price as its VWAP, when it traded. */
  lemma FirstRowOfDay(tp: seq<real>, vol: seq<real>, dates: seq<Date>, t: nat)
    requires |tp| == |vol| == |dates| && t < |tp|
    requires forall j :: 0 <= j < t ==> dates[j] != dates[t]
    requires vol[t] != 0.0
    ensures VwapAt(tp, vol, dates, t) == Some(tp[t])
  {
    OtherDaysIgnored(vol, dates, t, dates[t]);
    OtherDaysIgnored(Products(tp, vol), dates, t, dates[t]);
    var q := (tp[t] * vol[t]) / vol[t];
    assert q * vol[t] == tp[t] * vol[t];
    Cancel(q, tp[t], vol[t]);
  }

  lemma {:induction false} OtherDaysIgnored(x: seq<real>, dates: seq<Date>, n: nat, d: Date)
    requires n <= |x| && n <= |dates|
    requires forall j :: 0 <= j < n ==> dates[j] != d
    ensures DaySum(x, dates, n, d) == 0.0
    decreases n
  {
    if n > 0 {
      OtherDaysIgnored(x, dates, n - 1, d);
    }
  }

  /**
   * When the date's rows so far all traded a positive volume at typical prices within [lo, hi],
   * the VWAP lies within [lo, hi] too.
   */
  lemma VwapWithinPriceRange(tp: seq<real>, vol: seq<real>, dates: seq<Date>, t: nat, lo: real, hi: real)
    requires |tp| == |vol| == |dates| && t < |tp|
    requires forall j :: 0 <= j <= t && dates[j] == dates[t] ==> vol[j] > 0.0 && lo <= tp[j] <= hi
    ensures VwapAt(tp, vol, dates, t).Some?
    ensures lo <= VwapAt(tp, vol, dates, t).value <= hi
  {
    var d := dates[t];
    WeightedBounds(tp, vol, dates, t, d, lo, hi);
    WeightedBounds(tp, vol, dates, t + 1, d, lo, hi);
    var v := DaySum(vol, dates, t + 1, d);
    var p := DaySum(Products(tp, vol), dates, t + 1, d);
    assert v == DaySum(vol, dates, t, d) + vol[t];
    QuotientBounds(p, v, lo, hi);
  }

  /** A non-negative volume sum v whose price-times-volume sum p lies between lo * v and hi * v. */
  predicate Bracketed(lo: real, hi: real, v: real, p: real)
  {
    v >= 0.0 && lo * v <= p <= hi * v
  }

  lemma {:induction false} WeightedBounds(tp: seq<real>, vol: seq<real>, dates: seq<Date>, n: nat, d: Date, lo: real, hi: real)
    requires |tp| == |vol| == |dates| && n <= |tp|
    requires forall j :: 0 <= j < n && dates[j] == d ==> vol[j] > 0.0 && lo <= tp[j] <= hi
    ensures Bracketed(lo, hi, DaySum(vol, dates, n, d), DaySum(Products(tp, vol), dates, n, d))
    decreases n
  {
    if n > 0 {
      WeightedBounds(tp, vol, dates, n - 1, d, lo, hi);
      WeightedRow(tp, vol, dates, n - 1, d, lo, hi);
    }
  }

  /** The bounds of the sums over the first j rows extend to the first j + 1 rows. */
  lemma WeightedRow(tp: seq<real>, vol: seq<real>, dates: seq<Date>, j: nat, d: Date, lo: real, hi: real)
    requires |tp| == |vol| == |dates| && j < |tp|
    requires dates[j] == d ==> vol[j] > 0.0 && lo <= tp[j] <= hi
    requires Bracketed(lo, hi, DaySum(vol, dates, j, d), DaySum(Products(tp, vol), dates, j, d))
    ensures Bracketed(lo, hi, DaySum(vol, dates, j + 1, d), DaySum(Products(tp, vol), dates, j + 1, d))
  {
    var y := Products(tp, vol);
    assert y[j] == tp[j] * vol[j];
    WeightedStep(lo, hi, DaySum(vol, dates, j, d), DaySum(y, dates, j, d),
      DaySum(vol, dates, j + 1, d), DaySum(y, dates, j + 1, d), tp[j], vol[j], dates[j] == d);
  }

  /**
   * One more row keeps the running sums' bounds: a row of another date adds nothing, and a row of
   * the date adds a positive volume at a price within [lo, hi].
   */
  lemma WeightedStep(lo: real, hi: real, v: real, p: real, v': real, p': real, price: real, volume: real, sameDate: bool)
    requires Bracketed(lo, hi, v, p)
    requires sameDate ==> volume > 0.0 && lo <= price <= hi
    requires v' == v + (if sameDate then volume else 0.0) && p' == p + (if sameDate then price * volume else 0.0)
    ensures Bracketed(lo, hi, v', p')
  {
    if !sameDate {
      return;
    }
    MulMono(lo, price, volume);
    MulMono(price, hi, volume);
    assert lo * (v + volume) == lo * v + lo * volume;
    assert hi * (v + volume) == hi * v + hi * volume;
  }
}
