/**
 * The trend detection agent of `src/Agents/Analysis/trend_detection_agent.py`. Three indicators
 * each vote +1, -1 or 0 on the last row: the close against its SMA(50) and EMA(20), the MACD line
 * against its signal line, and the RSI(14) against 70 and 30 (overbought votes down). A mean vote
 * above 0.3 is an uptrend, below -0.3 a downtrend, anything else sideways; any failure is
 * "Unknown". The indicator library is a parameter: it maps the closes to the last values of the
 * four indicators, or to None where the library yields nothing and the agent's code then raises.
 */
module TrendDetection {
  import opened Wrappers
  import opened Numbers
  import opened Frames

  datatype Trend = Uptrend | Downtrend | Sideways | Unknown

  function TrendName(t: Trend): string
  {
    match t
    case Uptrend => "Uptrend"
    case Downtrend => "Downtrend"
    case Sideways => "Sideways"
    case Unknown => "Unknown"
  }

  /** Last values of SMA(50), EMA(20), MACD(12, 26, 9), its signal line and RSI(14); NaN possible. */
  datatype Snapshot = Snapshot(sma: Num, ema: Num, macd: Num, signal: Num, rsi: Num)

  /** The indicator library applied to a series of closes. */
  type Indicators = seq<real> -> Option<Snapshot>

  function PriceVote(close: real, s: Snapshot): int
  {
    if Gt(Some(close), s.sma) && Gt(Some(close), s.ema) then 1
    else if Lt(Some(close), s.sma) && Lt(Some(close), s.ema) then -1
    else 0
  }

  function MacdVote(s: Snapshot): int
  {
    if Gt(s.macd, s.signal) then 1 else if Lt(s.macd, s.signal) then -1 else 0
  }

  function RsiVote(s: Snapshot): int
  {
    if Gt(s.rsi, Some(70.0)) then -1 else if Lt(s.rsi, Some(30.0)) then 1 else 0
  }

  /** The label for the mean of three votes. */
  function Classify(votes: seq<int>): (t: Trend)
    requires |votes| == 3
    ensures t != Unknown
  {
    var mean := (votes[0] + votes[1] + votes[2]) as real / 3.0;
    if mean > 0.3 then Uptrend else if mean < -0.3 then Downtrend else Sideways
  }

  function Votes(close: real, s: Snapshot): (v: seq<int>)
    ensures |v| == 3 && forall i :: 0 <= i < 3 ==> -1 <= v[i] <= 1
  {
    [PriceVote(close, s), MacdVote(s), RsiVote(s)]
  }

  /**
   * `analyze_trend(data)`: "Unknown" exactly when the Close column is missing or empty or the
   * library fails; otherwise the net vote on the last close decides, at least one up vote more
   * than down votes being an uptrend and at least one down vote more a downtrend.
   */
  function AnalyzeTrend(ind: Indicators, data: Table): (t: Trend)
    ensures t == Unknown <==>
      "Close" !in data.columns || |data.columns["Close"]| == 0 || ind(data.columns["Close"]).None?
    ensures t != Unknown ==>
      var close := data.columns["Close"];
      var v := Votes(close[|close| - 1], ind(close).value);
      var sum := v[0] + v[1] + v[2];
      (t == Uptrend <==> sum >= 1) && (t == Downtrend <==> sum <= -1) && (t == Sideways <==> sum == 0)
  {
    if "Close" !in data.columns || |data.columns["Close"]| == 0 then Unknown
    else
      var close := data.columns["Close"];
      match ind(close)
      case None => Unknown
      case Some(s) =>
        var v := Votes(close[|close| - 1], s);
        ClassifyBySum(v);
        Classify(v)
  }

  /** One net vote decides: the trend is up exactly when the votes sum to at least 1, down at most -1. */
  lemma ClassifyBySum(votes: seq<int>)
    requires |votes| == 3
    ensures var sum := votes[0] + votes[1] + votes[2];
      (Classify(votes) == Uptrend <==> sum >= 1) && (Classify(votes) == Downtrend <==> sum <= -1) &&
      (Classify(votes) == Sideways <==> sum == 0)
  {
  }

  /** A close above both averages with a bullish MACD is an uptrend whatever the RSI says. */
  lemma PriceAndMacdOutvoteRsi(close: real, s: Snapshot)
    requires Gt(Some(close), s.sma) && Gt(Some(close), s.ema) && Gt(s.macd, s.signal)
    ensures Classify(Votes(close, s)) == Uptrend
  {
    ClassifyBySum(Votes(close, s));
  }

  /** `get_trend_strength(data)`: the RSI share for an uptrend, its complement for a downtrend. */
  function TrendStrength(ind: Indicators, data: Table): (r: Num)
    ensures AnalyzeTrend(ind, data) !in {Uptrend, Downtrend} ==> r == Some(0.5)
  {
    var trend := AnalyzeTrend(ind, data);
    if trend == Uptrend then
      var s := ind(data.columns["Close"]).value;
      PyMin(if s.rsi.Some? then Some(s.rsi.value / 100.0) else None, Some(1.0))
    else if trend == Downtrend then
      var s := ind(data.columns["Close"]).value;
      PyMin(if s.rsi.Some? then Some((100.0 - s.rsi.value) / 100.0) else None, Some(1.0))
    else Some(0.5)
  }

  /** With an RSI in [0, 100], or NaN, the strength is in [0, 1] or NaN, and NaN only with a NaN RSI. */
  lemma StrengthInUnitInterval(ind: Indicators, data: Table)
    requires "Close" in data.columns && ind(data.columns["Close"]).Some?
    requires var rsi := ind(data.columns["Close"]).value.rsi; rsi.Some? ==> 0.0 <= rsi.value <= 100.0
    ensures var r := TrendStrength(ind, data); r.Some? ==> 0.0 <= r.value <= 1.0
    ensures TrendStrength(ind, data).None? <==>
      AnalyzeTrend(ind, data) in {Uptrend, Downtrend} && ind(data.columns["Close"]).value.rsi.None?
  {
  }

  /**
   * `get_trend_duration(data)`: how many of the trailing prefixes of the frame, longest first,
   * have the same trend as the whole frame.
   */
  method TrendDuration(ind: Indicators, data: Table) returns (duration: nat)
    ensures duration <= Length(data.index)
    ensures TrailingAgreement(ind, data, duration)
    ensures CloseAligned(data) && Length(data.index) > 0 ==> duration >= 1
  {
    var trendOfPrefix := (k: nat) => AnalyzeTrend(ind, Head(data, k));
    duration := TrailingRun(trendOfPrefix, Length(data.index), AnalyzeTrend(ind, data));
    PrefixTrends(ind, data, trendOfPrefix, duration);
  }

  /**
   * The `duration` longest prefixes, from the whole frame down, have the frame's trend, and the
   * next shorter one, if any, has not.
   */
  predicate TrailingAgreement(ind: Indicators, data: Table, duration: nat)
    requires duration <= Length(data.index)
  {
    (forall k :: Length(data.index) - duration < k <= Length(data.index) ==>
      AnalyzeTrend(ind, Head(data, k)) == AnalyzeTrend(ind, data)) &&
    (duration < Length(data.index) ==>
      AnalyzeTrend(ind, Head(data, Length(data.index) - duration)) != AnalyzeTrend(ind, data))
  }

  /** What the run over `trendOfPrefix` means for the prefixes of the frame. */
  lemma PrefixTrends(ind: Indicators, data: Table, trendOfPrefix: nat -> Trend, duration: nat)
    requires forall k: nat :: trendOfPrefix(k) == AnalyzeTrend(ind, Head(data, k))
    requires var n, current := Length(data.index), AnalyzeTrend(ind, data);
      duration <= n &&
      (forall k :: n - duration < k <= n ==> trendOfPrefix(k) == current) &&
      (duration < n ==> trendOfPrefix(n - duration) != current) &&
      (n > 0 && trendOfPrefix(n) == current ==> duration >= 1)
    ensures TrailingAgreement(ind, data, duration)
    ensures CloseAligned(data) && Length(data.index) > 0 ==> duration >= 1
  {
    if CloseAligned(data) {
      HeadOfAll(ind, data);
    }
  }

  /**
   * The loop of `get_trend_duration` over the prefixes of n rows, n - 1 rows and so on: how many
   * of them, longest first, have the trend `current` before the first that does not.
   */
  method TrailingRun(trendOfPrefix: nat -> Trend, n: nat, current: Trend) returns (duration: nat)
    ensures duration <= n
    ensures forall k :: n - duration < k <= n ==> trendOfPrefix(k) == current
    ensures duration < n ==> trendOfPrefix(n - duration) != current
    ensures n > 0 && trendOfPrefix(n) == current ==> duration >= 1
  {
    duration := 0;
    var i := n;
    while i > 0
      invariant 0 <= i <= n && duration == n - i
      invariant forall k :: i < k <= n ==> trendOfPrefix(k) == current
    {
      if trendOfPrefix(i) == current {
        duration := duration + 1;
        i := i - 1;
      } else {
        break;
      }
    }
  }

  /** The Close column, when there is one, has a value for every row of the index. */
  predicate CloseAligned(data: Table)
  {
    "Close" in data.columns ==> |data.columns["Close"]| == Length(data.index)
  }

  /** The head of an aligned frame that spans all its rows has the same trend as the frame. */
  lemma HeadOfAll(ind: Indicators, data: Table)
    requires CloseAligned(data)
    ensures AnalyzeTrend(ind, Head(data, Length(data.index))) == AnalyzeTrend(ind, data)
  {
    if "Close" in data.columns {
      assert Head(data, Length(data.index)).columns["Close"] == data.columns["Close"];
    }
  }

  /**
   * The volume comparison of `analyze_volume_trend` goes through: the Volume column exists with one
   * value per row and the SMA, when the library yields one, has one value per volume.
   */
  predicate VolumeAligned(data: Table, volumeSma: seq<real> -> Option<seq<Num>>)
  {
    "Volume" in data.columns && |data.columns["Volume"]| == Length(data.index) &&
    (volumeSma(data.columns["Volume"]).Some? ==> |volumeSma(data.columns["Volume"]).value| == |data.columns["Volume"]|)
  }

  /**
   * `analyze_volume_trend(data)`: +1 where the volume is above its 20-row SMA and -1 elsewhere,
   * including the warm-up rows where the SMA is NaN. The SMA is a parameter, None where pandas_ta
   * yields no series at all (fewer than 20 rows); the comparison with None is then false on every
   * row, so every row is -1. A missing Volume column, or a result that does not fit the index,
   * fails and gives a series of NaN (None) on the same index.
   */
  function VolumeTrend(data: Table, volumeSma: seq<real> -> Option<seq<Num>>): (r: seq<Option<int>>)
    ensures |r| == Length(data.index)
    ensures !VolumeAligned(data, volumeSma) ==> forall t :: 0 <= t < |r| ==> r[t].None?
    ensures VolumeAligned(data, volumeSma) ==>
      var vol := data.columns["Volume"];
      var sma := volumeSma(vol);
      forall t :: 0 <= t < |r| ==>
        (r[t] == Some(1) <==> sma.Some? && Gt(Some(vol[t]), sma.value[t])) && (r[t] != Some(1) ==> r[t] == Some(-1))
  {
    var rows := Length(data.index);
    if "Volume" !in data.columns then seq(rows, _ => None)
    else
      var vol := data.columns["Volume"];
      if |vol| != rows then seq(rows, _ => None)
      else
        match volumeSma(vol)
        case None => seq(rows, _ => Some(-1))
        case Some(sma) =>
          if |sma| != |vol| then seq(rows, _ => None)
          else seq(rows, t requires 0 <= t < rows => if Gt(Some(vol[t]), sma[t]) then Some(1) else Some(-1))
  }

  /**
   * Every row votes +1 or -1 exactly when the comparison goes through; the failure series, and
   * only it, has no value at all. With no SMA series every row votes -1.
   */
  lemma VolumeTrendValues(data: Table, volumeSma: seq<real> -> Option<seq<Num>>)
    ensures |VolumeTrend(data, volumeSma)| == Length(data.index)
    ensures var r := VolumeTrend(data, volumeSma);
      (VolumeAligned(data, volumeSma) ==> forall t :: 0 <= t < |r| ==> r[t] in {Some(1), Some(-1)}) &&
      (!VolumeAligned(data, volumeSma) ==> forall t :: 0 <= t < |r| ==> r[t].None?)
    ensures var r := VolumeTrend(data, volumeSma);
      VolumeAligned(data, volumeSma) && volumeSma(data.columns["Volume"]).None? ==> forall t :: 0 <= t < |r| ==> r[t] == Some(-1)
  {
  }
}
