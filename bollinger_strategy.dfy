/**
 * The Bollinger-band backtest of `src/Backtesting/backtest_bollinger.py`. `BollingerCrewAIStrategy`
 * and `BollingerStrategy` trade alike (the first also runs an analysis crew whose answer it never
 * reads): the bands are computed once over the whole frame, and every bar compares its close with
 * the bands' LAST row, buying one share below the lower band when flat and selling one above the
 * upper band when holding.
 */
module BollingerStrategy {
  import opened Wrappers
  import opened Numbers
  import opened Frames
  import opened Broker
  import opened BollingerBands

  /** Lines 55-63 once the bands are read: NaN bands compare false and never trigger an order. */
  function BandRule(close: real, upper: Num, lower: Num, position: int): (r: Decision)
    ensures r.Ok?
    ensures r.value == Some(Buy(1)) <==> Lt(Some(close), lower) && position == 0
    ensures r.value == Some(Sell(1)) <==> !(Lt(Some(close), lower) && position == 0) && Gt(Some(close), upper) && position != 0
    ensures r.value.None? <==> !(Lt(Some(close), lower) && position == 0) && !(Gt(Some(close), upper) && position != 0)
  {
    if Lt(Some(close), lower) && position == 0 then Ok(Some(Buy(1)))
    else if Gt(Some(close), upper) && position != 0 then Ok(Some(Sell(1)))
    else Ok(None)
  }

  /** `next` on a bar closing at `close`: the last upper and lower band, then the rule. */
  function BollingerNext(bands: Bands, position: int, close: real): (r: Decision)
    ensures |bands.upper| == 0 || |bands.lower| == 0 ==> r == Err(IndexError)
    ensures |bands.upper| > 0 && |bands.lower| > 0 ==>
      r == BandRule(close, bands.upper[|bands.upper| - 1], bands.lower[|bands.lower| - 1], position)
  {
    match LastValue(bands.upper)
    case Err(e) => Err(e)
    case Ok(upper) =>
      match LastValue(bands.lower)
      case Err(e) => Err(e)
      case Ok(lower) => BandRule(close, upper, lower, position)
  }

  /** Starting flat, the strategy holds zero or one share before every bar. */
  lemma AtMostOneShare(bands: Bands, closes: seq<real>)
    ensures var rule := (c: real, p: int) => BollingerNext(bands, p, c);
      forall i :: 0 <= i < |Positions(rule, closes, 0)| ==> 0 <= Positions(rule, closes, 0)[i] <= 1
  {
    var rule := (c: real, p: int) => BollingerNext(bands, p, c);
    RunKeeps(rule, p => 0 <= p <= 1, closes, 0);
  }

  /** A flat strategy whose last lower band is NaN never places an order. */
  lemma {:induction false} NaNLowerBandNeverTrades(bands: Bands, closes: seq<real>)
    requires |bands.upper| > 0 && |bands.lower| > 0 && bands.lower[|bands.lower| - 1].None?
    ensures var rule := (c: real, p: int) => BollingerNext(bands, p, c);
      Run(rule, closes, 0) == seq(|closes|, _ => None)
    decreases |closes|
  {
    var rule := (c: real, p: int) => BollingerNext(bands, p, c);
    if |closes| > 0 {
      NaNLowerBandNeverTrades(bands, closes[1..]);
      assert Run(rule, closes, 0) == [None] + Run(rule, closes[1..], 0);
    }
  }

  /**
   * A frame shorter than the band period (or a period below two) leaves the last row without
   * bands, so the strategy never trades on it. This holds for the band computation of
   * `CalculateBands`, which follows `src/Indicators/backtest_bollinger.py`; the backtest imports
   * `src.Indicators.bollinger`, which is not part of this model.
   */
  lemma ShortHistoryNeverTrades(config: Config, data: Table, sqrt: real -> real, closes: seq<real>)
    requires CalculateBands(config, data, sqrt).Ok?
    requires var n := |data.columns["Close"]|; n > 0 && !(2 <= config.period <= n)
    ensures var bands := CalculateBands(config, data, sqrt).value;
      var rule := (c: real, p: int) => BollingerNext(bands, p, c);
      Run(rule, closes, 0) == seq(|closes|, _ => None)
  {
    var n := |data.columns["Close"]|;
    BandsWarmUp(config, data, sqrt, n - 1);
    NaNLowerBandNeverTrades(CalculateBands(config, data, sqrt).value, closes);
  }

  /** Both strategy classes of the file; the bands are `calculate_bands()` of the frame. */
  class BollingerStrategy {
    const bollingerBands: Bands
    var position: int

    constructor(bollingerBands: Bands)
      ensures this.bollingerBands == bollingerBands && position == 0
    {
      this.bollingerBands := bollingerBands;
      position := 0;
    }

    method Next(close: real) returns (r: Decision)
      modifies this
      ensures r == BollingerNext(bollingerBands, old(position), close)
      ensures position == if r.Ok? then Fill(old(position), r.value) else old(position)
    {
      var upper := LastValue(bollingerBands.upper);
      var lower := LastValue(bollingerBands.lower);
      if upper.Err? || lower.Err? {
        return Err(IndexError);
      }
      if Lt(Some(close), lower.value) && position == 0 {
        r := Ok(Some(Buy(1)));
        position := position + 1;
      } else if Gt(Some(close), upper.value) && position != 0 {
        r := Ok(Some(Sell(1)));
        position := position - 1;
      } else {
        r := Ok(None);
      }
    }
  }
}
