/**
 * The trend prediction agent of `src/Agents/Analysis/trend_prediction_agent.py`. An ARIMA model
 * or an LSTM network forecasts the closing price; the first forecast price against the last close
 * gives the trend label and a confidence capped at 1. Any failure yields ("Unknown", 0.0, an empty
 * forecast). The agent caches its trained models and its scaler in fields.
 *
 * The statistical and neural models are parameters: `fitArima` fits an ARIMA model to a frame
 * (None where fitting raises) and yields a forecaster from step counts to forecasts; `fitNet`
 * trains a network on windows and targets and yields its one-step prediction function. The
 * scaler is sklearn's MinMaxScaler with feature range (0, 1), written out.
 */
module TrendPrediction {
  import opened Wrappers
  import opened Numbers
  import opened Frames
  import opened Fibonacci
  import opened TrendDetection

  /** The LSTM looks back over 60 scaled closes. */
  const Lookback: nat := 60

  /** `predict_trend`'s default number of forecast steps. */
  const DefaultSteps: int := 30

  /** The triple (trend, confidence, forecast). */
  datatype Prediction = Prediction(trend: Trend, confidence: Num, forecast: seq<real>)

  /** `("Unknown", 0.0, pd.Series())`, the answer of every exception handler. */
  const Failed := Prediction(Unknown, Some(0.0), [])

  /** A fitted ARIMA model's `forecast(steps=...)`; None where it raises. */
  type Forecaster = int -> Option<seq<real>>

  /** A trained network's prediction for one window of scaled closes. */
  type Network = seq<real> -> real

  function Last(s: seq<real>): real
    requires |s| > 0
  {
    s[|s| - 1]
  }

  /** A tie between the forecast and the last close is a downtrend. */
  function TrendLabel(predicted: real, last: real): (t: Trend)
    ensures t == Uptrend <==> predicted > last
    ensures t == Downtrend <==> predicted <= last
  {
    if predicted > last then Uptrend else Downtrend
  }

  /**
   * `min(abs(predicted - last) / last, 1.0)` on numpy floats: a zero last price divides to inf,
   * which the cap turns into 1.0, or to NaN when the prices are both zero.
   */
  function Confidence(predicted: real, last: real): (c: Num)
    ensures last == 0.0 ==> (c.None? <==> predicted == 0.0)
    ensures last != 0.0 ==> c.Some?
  {
    var d := Abs(predicted - last);
    if last == 0.0 then (if d == 0.0 then None else Some(1.0))
    else PyMin(Some(d / last), Some(1.0))
  }

  /** For a positive last price the confidence is the relative move, capped at 1, and lies in [0, 1]. */
  lemma ConfidenceInUnitInterval(predicted: real, last: real)
    requires last > 0.0
    ensures Confidence(predicted, last).Some?
    ensures 0.0 <= Confidence(predicted, last).value <= 1.0
    ensures Abs(predicted - last) <= last ==> Confidence(predicted, last).value * last == Abs(predicted - last)
    ensures Abs(predicted - last) >= last ==> Confidence(predicted, last).value == 1.0
  {
    var d := Abs(predicted - last);
    var q := d / last;
    assert q * last == d;
    if q > 1.0 {
      MulMonoStrict(1.0, q, last);
    }
    if q < 1.0 {
      MulMonoStrict(q, 1.0, last);
    }
  }

  /**
   * Lines 44-55 and 77-86 once a forecast exists (None where producing it raised): the last index
   * label plus one day, the last close and the first forecast value. Any exception gives Failed.
   */
  function Outcome(data: Table, steps: int, forecast: Option<seq<real>>): (p: Prediction)
    ensures p.trend == Unknown <==> p == Failed
    ensures p != Failed <==>
      data.index.DatetimeIndex? && |data.index.stamps| > 0 && "Close" in data.columns &&
      |data.columns["Close"]| > 0 && forecast.Some? && |forecast.value| == steps && steps > 0
    ensures p != Failed ==>
      var last, predicted := Last(data.columns["Close"]), forecast.value[0];
      p == Prediction(TrendLabel(predicted, last), Confidence(predicted, last), forecast.value)
  {
    if !data.index.DatetimeIndex? || |data.index.stamps| == 0 then Failed
    else if "Close" !in data.columns || |data.columns["Close"]| == 0 then Failed
    else if forecast.None? then Failed
    else
      var f := forecast.value;
      if |f| != steps || |f| == 0 then Failed
      else
        var last := Last(data.columns["Close"]);
        Prediction(TrendLabel(f[0], last), Confidence(f[0], last), f)
  }

  /** What a cached ARIMA model forecasts; None without a model. */
  function ArimaForecast(model: Option<Forecaster>, steps: int): (f: Option<seq<real>>)
    ensures model.None? ==> f.None?
  {
    if model.Some? then model.value(steps) else None
  }

  /** A forecast pointing up has a positive confidence, given a positive last price. */
  lemma LabelAgreesWithMove(data: Table, steps: int, forecast: Option<seq<real>>)
    requires Outcome(data, steps, forecast) != Failed
    requires Last(data.columns["Close"]) > 0.0
    ensures var p := Outcome(data, steps, forecast);
      (p.trend == Uptrend ==> p.confidence.value > 0.0) &&
      (p.trend == Downtrend ==> p.confidence.value >= 0.0) &&
      (p.confidence.value == 0.0 ==> p.trend == Downtrend && p.forecast[0] == Last(data.columns["Close"]))
  {
    var last, predicted := Last(data.columns["Close"]), forecast.value[0];
    ConfidenceInUnitInterval(predicted, last);
    var c := Confidence(predicted, last).value;
  }

  /** MinMaxScaler(feature_range=(0, 1)): `x * scale + min_` with `min_ = -dataMin * scale`. */
  datatype Scaler = Unfitted | MinMax(dataMin: real, scale: real)

  /** `fit` on a non-empty series; a zero range is replaced by 1, as sklearn does. */
  function FitScaler(s: seq<real>): (sc: Scaler)
    requires |s| > 0
    ensures sc.MinMax? && sc.scale > 0.0
    ensures sc.dataMin == SeriesMin(s).value
  {
    var lo, hi := SeriesMin(s).value, SeriesMax(s).value;
    var range := if hi - lo == 0.0 then 1.0 else hi - lo;
    MinMax(lo, 1.0 / range)
  }

  function Scale(sc: Scaler, x: real): real
    requires sc.MinMax?
  {
    x * sc.scale + -sc.dataMin * sc.scale
  }

  function Unscale(sc: Scaler, y: real): real
    requires sc.MinMax? && sc.scale != 0.0
  {
    (y - -sc.dataMin * sc.scale) / sc.scale
  }

  /** `inverse_transform` undoes `transform`, and the other way round. */
  lemma ScaleRoundTrip(sc: Scaler, x: real, y: real)
    requires sc.MinMax? && sc.scale != 0.0
    ensures Unscale(sc, Scale(sc, x)) == x
    ensures Scale(sc, Unscale(sc, y)) == y
  {
    var m := -sc.dataMin * sc.scale;
    assert Scale(sc, x) - m == x * sc.scale;
    var u := (y - m) / sc.scale;
    assert u * sc.scale == y - m;
  }

  /** Every value of the series the scaler was fitted on is mapped into [0, 1]. */
  lemma FittedValuesInUnitInterval(s: seq<real>, i: nat)
    requires i < |s|
    ensures 0.0 <= Scale(FitScaler(s), s[i]) <= 1.0
  {
    var lo, hi := SeriesMin(s).value, SeriesMax(s).value;
    assert lo <= s[i] <= hi;
    ScaleWithinRange(lo, hi, s[i]);
  }

  /** A value between the minimum and the maximum is scaled into [0, 1]. */
  lemma ScaleWithinRange(lo: real, hi: real, x: real)
    requires lo <= x <= hi
    ensures var range := if hi - lo == 0.0 then 1.0 else hi - lo;
      0.0 <= Scale(MinMax(lo, 1.0 / range), x) <= 1.0
  {
    var range := if hi - lo == 0.0 then 1.0 else hi - lo;
    var sc := MinMax(lo, 1.0 / range);
    var d := x - lo;
    assert Scale(sc, x) == d * sc.scale;
    if hi - lo == 0.0 {
      assert d == 0.0;
    } else {
      QuotientBounds(d, range, 0.0, 1.0);
      assert d * sc.scale == d / range;
    }
  }

  function Transform(sc: Scaler, s: seq<real>): (r: seq<real>)
    requires sc.MinMax?
    ensures |r| == |s| && forall i :: 0 <= i < |s| ==> r[i] == Scale(sc, s[i])
  {
    seq(|s|, i requires 0 <= i < |s| => Scale(sc, s[i]))
  }

  function Untransform(sc: Scaler, s: seq<real>): (r: seq<real>)
    requires sc.MinMax? && sc.scale != 0.0
    ensures |r| == |s| && forall i :: 0 <= i < |s| ==> r[i] == Unscale(sc, s[i])
  {
    seq(|s|, i requires 0 <= i < |s| => Unscale(sc, s[i]))
  }

  /** The training inputs of `_train_lstm`: every window of 60 consecutive values. */
  function Windows(s: seq<real>): (xs: seq<seq<real>>)
    ensures |xs| == if |s| > Lookback then |s| - Lookback else 0
  {
    seq(if |s| > Lookback then |s| - Lookback else 0, j requires 0 <= j < |s| - Lookback => s[j..j + Lookback])
  }

  /** The training targets: the value right after each window. */
  function Targets(s: seq<real>): (ys: seq<real>)
    ensures |ys| == |Windows(s)|
  {
    seq(if |s| > Lookback then |s| - Lookback else 0, j requires 0 <= j < |s| - Lookback => s[j + Lookback])
  }

  /** Lines 101-104: X and y, built one sample per position from 60 on. */
  method TrainingWindows(scaled: seq<real>) returns (xs: seq<seq<real>>, ys: seq<real>)
    ensures xs == Windows(scaled) && ys == Targets(scaled)
  {
    xs, ys := [], [];
    var i := Lookback;
    while i < |scaled|
      invariant Lookback <= i && (i <= |scaled| || i == Lookback)
      invariant |xs| == |ys| == i - Lookback
      invariant forall j :: 0 <= j < |xs| ==> xs[j] == scaled[j..j + Lookback] && ys[j] == scaled[j + Lookback]
    {
      xs := xs + [scaled[i - Lookback..i]];
      ys := ys + [scaled[i]];
      i := i + 1;
    }
    assert |xs| == |Windows(scaled)|;
  }

  /** Each training window followed by its target is a run of 61 consecutive values of the series. */
  lemma WindowThenTarget(s: seq<real>, j: nat)
    requires j < |Windows(s)|
    ensures |Windows(s)[j]| == Lookback
    ensures Windows(s)[j] + [Targets(s)[j]] == s[j..j + Lookback + 1]
  {
  }

  /**
   * The forecast the loop at lines 70-74 produces: each step predicts from the current batch,
   * then drops the batch's oldest value and appends the prediction.
   */
  function Roll(batch: seq<real>, steps: int, net: Network): (f: seq<real>)
    requires |batch| == Lookback
    ensures |f| == if steps > 0 then steps else 0
    decreases steps
  {
    if steps <= 0 then []
    else
      var y := net(batch);
      [y] + Roll(batch[1..] + [y], steps - 1, net)
  }

  /** Every forecast value is the network's prediction on the 60 values before it, forecasts included. */
  lemma {:induction false} RollWindowAt(batch: seq<real>, steps: int, net: Network, k: nat)
    requires |batch| == Lookback && k < |Roll(batch, steps, net)|
    ensures var f := Roll(batch, steps, net);
      f[k] == net((batch + f)[k..k + Lookback])
    decreases k
  {
    var y := net(batch);
    var next := batch[1..] + [y];
    var rest := Roll(next, steps - 1, net);
    var f := Roll(batch, steps, net);
    assert f == [y] + rest;
    if k == 0 {
      assert (batch + f)[k..k + Lookback] == batch;
    } else {
      RollWindowAt(next, steps - 1, net, k - 1);
      assert next + rest == (batch + f)[1..];
      assert (next + rest)[k - 1..k - 1 + Lookback] == (batch + f)[k..k + Lookback];
    }
  }

  /** Lines 68-74: the forecast loop over a batch of 60 scaled closes. */
  method RollForecast(batch: seq<real>, steps: int, net: Network) returns (forecast: seq<real>)
    requires |batch| == Lookback
    ensures forecast == Roll(batch, steps, net)
  {
    forecast := [];
    var current := batch;
    var i := 0;
    while i < steps
      invariant |current| == Lookback
      invariant forecast + Roll(current, steps - i, net) == Roll(batch, steps, net)
    {
      var next := net(current);
      assert Roll(current, steps - i, net) == [next] + Roll(current[1..] + [next], steps - i - 1, net);
      assert forecast + Roll(current, steps - i, net) == (forecast + [next]) + Roll(current[1..] + [next], steps - i - 1, net);
      forecast := forecast + [next];
      current := current[1..] + [next];
      i := i + 1;
    }
    assert forecast + [] == forecast;
  }

  /**
   * The scaler `_train_lstm` leaves: refitted on the closes, unless reading or fitting them raised.
   * On an empty Close column sklearn's `fit` resets the scaler before it refuses the input, so the
   * agent's scaler is then unfitted rather than the old one. That reset is not modelled: no network
   * is stored in that case, and every later LSTM prediction refits the scaler before reading it.
   */
  function TrainedScaler(old_scaler: Scaler, data: Table): (sc: Scaler)
    ensures sc == old_scaler || (sc.MinMax? && sc.scale > 0.0)
  {
    if "Close" !in data.columns || |data.columns["Close"]| == 0 then old_scaler
    else FitScaler(data.columns["Close"])
  }

  /**
   * The network `_train_lstm` stores, or None where it raises: with 60 closes or fewer there are
   * no samples and the reshape at line 106 fails.
   */
  function TrainedNet(data: Table, fitNet: (seq<seq<real>>, seq<real>) -> Network): (n: Option<Network>)
    ensures n.Some? <==> "Close" in data.columns && |data.columns["Close"]| > Lookback
  {
    if "Close" !in data.columns || |data.columns["Close"]| <= Lookback then None
    else
      var close := data.columns["Close"];
      var scaled := Transform(FitScaler(close), close);
      Some(fitNet(Windows(scaled), Targets(scaled)))
  }

  /**
   * `_predict_lstm` with a trained network: forecast from the last 60 scaled closes, then scale
   * the forecast back. Fewer than 60 closes fail the reshape (or, with no steps, the inverse
   * transform of an empty forecast).
   */
  function LstmOutcome(sc: Scaler, net: Option<Network>, data: Table, steps: int): (p: Prediction)
    requires net.Some? ==> sc.MinMax? && sc.scale > 0.0
    ensures p != Failed ==> net.Some? && steps > 0 && "Close" in data.columns && |data.columns["Close"]| >= Lookback
  {
    if net.None? || "Close" !in data.columns || |data.columns["Close"]| < Lookback then Failed
    else
      var close := data.columns["Close"];
      var scaled := Transform(sc, close);
      var f := Roll(scaled[|scaled| - Lookback..], steps, net.value);
      Outcome(data, steps, Some(Untransform(sc, f)))
  }

  /** A successful LSTM prediction forecasts, in price terms, what the network predicts in scaled terms. */
  lemma LstmForecastUnscales(sc: Scaler, net: Option<Network>, data: Table, steps: int, k: nat)
    requires net.Some? ==> sc.MinMax? && sc.scale > 0.0
    requires LstmOutcome(sc, net, data, steps) != Failed
    requires k < |LstmOutcome(sc, net, data, steps).forecast|
    ensures var p := LstmOutcome(sc, net, data, steps);
      var close := data.columns["Close"];
      var batch := Transform(sc, close)[|close| - Lookback..];
      var scaledForecast := Transform(sc, p.forecast);
      |p.forecast| == steps &&
      scaledForecast[k] == net.value((batch + scaledForecast)[k..k + Lookback])
  {
    var close := data.columns["Close"];
    var batch := Transform(sc, close)[|close| - Lookback..];
    var f := Roll(batch, steps, net.value);
    RollWindowAt(batch, steps, net.value, k);
    var p := LstmOutcome(sc, net, data, steps);
    assert p.forecast == Untransform(sc, f);
    forall i | 0 <= i < |f|
      ensures Transform(sc, p.forecast)[i] == f[i]
    {
      ScaleRoundTrip(sc, 0.0, f[i]);
    }
    assert Transform(sc, p.forecast) == f;
    assert batch == Transform(sc, close)[|Transform(sc, close)| - Lookback..];
    assert |p.forecast| == steps;
    assert f[k] == net.value((batch + f)[k..k + Lookback]);
  }

  /** `predict_price_target`'s dictionary: a target with bounds 5% either side. */
  datatype Target = Target(priceTarget: real, lowerBound: real, upperBound: real)

  function Around(price: real): Target
  {
    Target(price, price * 0.95, price * 1.05)
  }

  /**
   * Lines 124-135: up 5% when both models say Uptrend, down 5% when both say Downtrend, the last
   * price when they disagree or agree on anything else; the bounds lie 5% either side of the target.
   */
  function PriceTarget(last: real, arima: Trend, lstm: Trend): (t: Target)
    ensures t.lowerBound == t.priceTarget * 0.95 && t.upperBound == t.priceTarget * 1.05
    ensures arima == lstm == Uptrend ==> t.priceTarget == last * 1.05
    ensures arima == lstm == Downtrend ==> t.priceTarget == last * 0.95
    ensures arima != lstm || arima !in {Uptrend, Downtrend} ==> t.priceTarget == last
  {
    if arima == lstm == Uptrend then Around(last * 1.05)
    else if arima == lstm == Downtrend then Around(last * 0.95)
    else Around(last)
  }

  /** For a non-negative last price the target is bracketed by its bounds and moves at most 5%. */
  lemma TargetBracketed(last: real, arima: Trend, lstm: Trend)
    requires last >= 0.0
    ensures var t := PriceTarget(last, arima, lstm);
      t.lowerBound <= t.priceTarget <= t.upperBound &&
      last * 0.95 <= t.priceTarget <= last * 1.05 &&
      (t.priceTarget > last <==> arima == lstm == Uptrend && last > 0.0) &&
      (t.priceTarget < last <==> arima == lstm == Downtrend && last > 0.0)
  {
  }

  /**
   * `predict_price_target` as written: line 121 calls `_predict_arima(data)` without
   * `forecast_steps`, which raises TypeError before any model runs, so the handler answers around
   * the last price. Where reading the last price itself raised, the handler's `last_price` is
   * unbound.
   */
  function PredictPriceTargetAsWritten(data: Table): (r: Result<Target>)
    ensures r.Err? <==> "Close" !in data.columns || |data.columns["Close"]| == 0
    ensures r.Err? ==> r.error == UnboundLocalError
    ensures r.Ok? ==> r.value.priceTarget == Last(data.columns["Close"])
  {
    if "Close" !in data.columns || |data.columns["Close"]| == 0 then Err(UnboundLocalError)
    else Ok(Around(Last(data.columns["Close"])))
  }

  /** As written, two models that agree on a trend never move the target. */
  lemma AsWrittenIgnoresAgreement(data: Table)
    requires "Close" in data.columns && |data.columns["Close"]| > 0
    requires Last(data.columns["Close"]) > 0.0
    ensures var last := Last(data.columns["Close"]);
      PredictPriceTargetAsWritten(data).value != PriceTarget(last, Uptrend, Uptrend) &&
      PredictPriceTargetAsWritten(data).value != PriceTarget(last, Downtrend, Downtrend)
  {
  }

  class TrendPredictionAgent {
    var arimaModel: Option<Forecaster>
    var lstmModel: Option<Network>
    var scaler: Scaler

    /** A stored network was trained after the scaler was fitted. */
    predicate Valid()
      reads this
    {
      (lstmModel.Some? ==> scaler.MinMax?) && (scaler.MinMax? ==> scaler.scale > 0.0)
    }

    constructor()
      ensures Valid() && arimaModel.None? && lstmModel.None? && scaler == Unfitted
    {
      arimaModel := None;
      lstmModel := None;
      scaler := Unfitted;
    }

    /** `_predict_arima`: fits a model only when none is cached. */
    method PredictArima(data: Table, steps: int, fitArima: Table -> Option<Forecaster>) returns (p: Prediction)
      modifies this
      ensures lstmModel == old(lstmModel) && scaler == old(scaler)
      ensures arimaModel == if old(arimaModel).None? then fitArima(data) else old(arimaModel)
      ensures p == Outcome(data, steps, ArimaForecast(arimaModel, steps))
    {
      if arimaModel.None? {
        arimaModel := fitArima(data);
      }
      var forecast := ArimaForecast(arimaModel, steps);
      p := Outcome(data, steps, forecast);
    }

    /** `_train_lstm`: refits the scaler, then trains and stores a network where there are samples. */
    method TrainLstm(data: Table, fitNet: (seq<seq<real>>, seq<real>) -> Network)
      requires Valid()
      modifies this
      ensures Valid() && arimaModel == old(arimaModel)
      ensures scaler == TrainedScaler(old(scaler), data)
      ensures lstmModel == if TrainedNet(data, fitNet).Some? then TrainedNet(data, fitNet) else old(lstmModel)
    {
      if "Close" !in data.columns || |data.columns["Close"]| == 0 {
        return;
      }
      var close := data.columns["Close"];
      scaler := FitScaler(close);
      var scaled := Transform(scaler, close);
      if |scaled| <= Lookback {
        return;
      }
      var xs, ys := TrainingWindows(scaled);
      lstmModel := Some(fitNet(xs, ys));
    }

    /** `_predict_lstm`: trains only when no network is cached. */
    method PredictLstm(data: Table, steps: int, fitNet: (seq<seq<real>>, seq<real>) -> Network) returns (p: Prediction)
      requires Valid()
      modifies this
      ensures Valid() && arimaModel == old(arimaModel)
      ensures old(lstmModel).Some? ==> lstmModel == old(lstmModel) && scaler == old(scaler)
      ensures old(lstmModel).None? ==> scaler == TrainedScaler(old(scaler), data) && lstmModel == TrainedNet(data, fitNet)
      ensures p == LstmOutcome(scaler, lstmModel, data, steps)
    {
      if lstmModel.None? {
        TrainLstm(data, fitNet);
      }
      p := ForecastLstm(data, steps);
    }

    /** Lines 64-85 of `_predict_lstm`, after any training: the forecast with the current scaler and network. */
    method ForecastLstm(data: Table, steps: int) returns (p: Prediction)
      requires Valid()
      ensures p == LstmOutcome(scaler, lstmModel, data, steps)
    {
      if lstmModel.None? || "Close" !in data.columns || |data.columns["Close"]| < Lookback {
        return Failed;
      }
      var close := data.columns["Close"];
      var scaled := Transform(scaler, close);
      var f := RollForecast(scaled[|scaled| - Lookback..], steps, lstmModel.value);
      p := Outcome(data, steps, Some(Untransform(scaler, f)));
    }

    /** `predict_trend`: an unsupported model type raises ValueError, which the handler turns into Failed. */
    method PredictTrend(data: Table, modelType: string, steps: int,
                        fitArima: Table -> Option<Forecaster>, fitNet: (seq<seq<real>>, seq<real>) -> Network)
      returns (p: Prediction)
      requires Valid()
      modifies this
      ensures Valid()
      ensures modelType == "arima" ==>
        lstmModel == old(lstmModel) && scaler == old(scaler) &&
        arimaModel == (if old(arimaModel).None? then fitArima(data) else old(arimaModel)) &&
        p == Outcome(data, steps, ArimaForecast(arimaModel, steps))
      ensures modelType == "lstm" ==>
        arimaModel == old(arimaModel) &&
        (old(lstmModel).Some? ==> lstmModel == old(lstmModel) && scaler == old(scaler)) &&
        (old(lstmModel).None? ==> scaler == TrainedScaler(old(scaler), data) && lstmModel == TrainedNet(data, fitNet)) &&
        p == LstmOutcome(scaler, lstmModel, data, steps)
      ensures modelType != "arima" && modelType != "lstm" ==>
        p == Failed && arimaModel == old(arimaModel) && lstmModel == old(lstmModel) && scaler == old(scaler)
    {
      if modelType == "arima" {
        p := PredictArima(data, steps, fitArima);
      } else if modelType == "lstm" {
        p := PredictLstm(data, steps, fitNet);
      } else {
        p := Failed;
      }
    }

    /**
     * `predict_price_target` with the calls at lines 121-122 unpacking a full prediction: the
     * models' labels decide the target. A missing or empty Close column still leaves the
     * handler's `last_price` unbound.
     */
    method PredictPriceTarget(data: Table, steps: int,
                              fitArima: Table -> Option<Forecaster>, fitNet: (seq<seq<real>>, seq<real>) -> Network)
      returns (r: Result<Target>)
      requires Valid()
      modifies this
      ensures Valid()
      ensures r.Err? <==> "Close" !in data.columns || |data.columns["Close"]| == 0
      ensures r.Err? ==> r.error == UnboundLocalError && unchanged(this)
      ensures r.Ok? ==> arimaModel == if old(arimaModel).None? then fitArima(data) else old(arimaModel)
      ensures r.Ok? && old(lstmModel).Some? ==> lstmModel == old(lstmModel) && scaler == old(scaler)
      ensures r.Ok? && old(lstmModel).None? ==> scaler == TrainedScaler(old(scaler), data) && lstmModel == TrainedNet(data, fitNet)
      ensures r.Ok? ==> r.value == PriceTarget(Last(data.columns["Close"]),
        Outcome(data, steps, ArimaForecast(arimaModel, steps)).trend,
        LstmOutcome(scaler, lstmModel, data, steps).trend)
    {
      if "Close" !in data.columns || |data.columns["Close"]| == 0 {
        return Err(UnboundLocalError);
      }
      var last := Last(data.columns["Close"]);
      var arima := PredictArima(data, steps, fitArima);
      var lstm := PredictLstm(data, steps, fitNet);
      r := Ok(PriceTarget(last, arima.trend, lstm.trend));
    }
  }
}
