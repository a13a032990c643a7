/**
 * The signal generation agent of `src/Agents/Analysis/signal_generation_agent.py`: the detected
 * trend, its strength and the ARIMA prediction choose one of five signals, and the risk
 * tolerance sets stop-loss and take-profit levels around the current price.
 *
 * As written, line 44 unpacks the three-value prediction into two names. That raises ValueError
 * inside the `try`, so every call that gets past the column checks answers with the HOLD record
 * of lines 81-97. `GenerateSignalAsWritten` models that; `GenerateSignal` unpacks all three
 * values and is the behaviour the rest of the file describes; its price target comes from the
 * corrected `predict_price_target` of the trend prediction agent.
 */
module SignalGeneration {
  import opened Wrappers
  import opened Numbers
  import opened Text
  import opened Frames
  import opened TrendDetection
  import opened TrendPrediction

  datatype Signal = StrongBuy | Buy | StrongSell | Sell | Hold

  function SignalName(s: Signal): string
  {
    match s
    case StrongBuy => "STRONG BUY"
    case Buy => "BUY"
    case StrongSell => "STRONG SELL"
    case Sell => "SELL"
    case Hold => "HOLD"
  }

  /** `"BUY" in signal` holds for the two buy labels only, `"SELL" in signal` for the two sell labels. */
  lemma SignalWords(s: Signal)
    ensures Contains(SignalName(s), "BUY") <==> s == StrongBuy || s == Buy
    ensures Contains(SignalName(s), "SELL") <==> s == StrongSell || s == Sell
  {
    var name := SignalName(s);
    match s
    case StrongBuy =>
      assert OccursAt(name, "BUY", 7);
      NoSell(name);
    case Buy =>
      assert OccursAt(name, "BUY", 0);
      NoSell(name);
    case StrongSell =>
      assert OccursAt(name, "SELL", 7);
      NoBuy(name);
    case Sell =>
      assert OccursAt(name, "SELL", 0);
      NoBuy(name);
    case Hold =>
      NoBuy(name);
      NoSell(name);
  }

  /** A label without the letter 'U' after a 'B' has no "BUY" in it. */
  lemma NoBuy(name: string)
    requires forall i :: 0 <= i < |name| && name[i] == 'B' ==> i + 1 >= |name| || name[i + 1] != 'U'
    ensures !Contains(name, "BUY")
  {
    forall i | 0 <= i <= |name| - 3
      ensures !OccursAt(name, "BUY", i)
    {
      assert name[i..i + 3][0] == name[i] && name[i..i + 3][1] == name[i + 1];
    }
  }

  /** A label without the letter 'E' after an 'S' has no "SELL" in it. */
  lemma NoSell(name: string)
    requires forall i :: 0 <= i < |name| && name[i] == 'S' ==> i + 1 >= |name| || name[i + 1] != 'E'
    ensures !Contains(name, "SELL")
  {
    forall i | 0 <= i <= |name| - 4
      ensures !OccursAt(name, "SELL", i)
    {
      assert name[i..i + 4][0] == name[i] && name[i..i + 4][1] == name[i + 1];
    }
  }

  /**
   * `determine_signal`, first match wins: STRONG needs strength above 0.7 and confidence above
   * 0.8, a plain signal strength above 0.5, and both need the detected and predicted trends to
   * agree on up or down. NaN compares false.
   */
  function DetermineSignal(detected: Trend, predicted: Trend, strength: Num, confidence: Num): (s: Signal)
    ensures var up := detected == Uptrend && predicted == Uptrend;
      var down := detected == Downtrend && predicted == Downtrend;
      var strong := Gt(strength, Some(0.7)) && Gt(confidence, Some(0.8));
      (s == StrongBuy <==> up && strong) &&
      (s == Buy <==> up && !strong && Gt(strength, Some(0.5))) &&
      (s == StrongSell <==> down && strong) &&
      (s == Sell <==> down && !strong && Gt(strength, Some(0.5))) &&
      (s == Hold <==> !(up || down) || !Gt(strength, Some(0.5)))
  {
    if detected == Uptrend && predicted == Uptrend && Gt(strength, Some(0.7)) && Gt(confidence, Some(0.8)) then StrongBuy
    else if detected == Uptrend && predicted == Uptrend && Gt(strength, Some(0.5)) then Buy
    else if detected == Downtrend && predicted == Downtrend && Gt(strength, Some(0.7)) && Gt(confidence, Some(0.8)) then StrongSell
    else if detected == Downtrend && predicted == Downtrend && Gt(strength, Some(0.5)) then Sell
    else Hold
  }

  /** Sideways, Unknown and disagreeing trends never trade. */
  lemma NoAgreementHolds(detected: Trend, predicted: Trend, strength: Num, confidence: Num)
    requires detected != predicted || detected in {Sideways, Unknown}
    ensures DetermineSignal(detected, predicted, strength, confidence) == Hold
  {
  }

  /** The per-tier percentages of lines 13-14. */
  const DefaultStopLoss: map<string, real> := map["low" := 0.02, "medium" := 0.05, "high" := 0.10]
  const DefaultTakeProfit: map<string, real> := map["low" := 0.03, "medium" := 0.08, "high" := 0.15]

  /** Higher tolerance widens both levels, and every take-profit lies further out than its stop-loss. */
  lemma RiskTiersIncrease()
    ensures DefaultStopLoss.Keys == DefaultTakeProfit.Keys == {"low", "medium", "high"}
    ensures DefaultStopLoss["low"] < DefaultStopLoss["medium"] < DefaultStopLoss["high"]
    ensures DefaultTakeProfit["low"] < DefaultTakeProfit["medium"] < DefaultTakeProfit["high"]
    ensures forall k :: k in DefaultStopLoss ==> 0.0 < DefaultStopLoss[k] < DefaultTakeProfit[k] < 1.0
  {
  }

  /**
   * `calculate_stop_loss`: below the price for a buy, above it for a sell, none for a hold; an
   * unknown tolerance is a KeyError.
   */
  function StopLoss(percentages: map<string, real>, risk: string, price: real, signal: Signal): (r: Result<Option<real>>)
    ensures r.Err? <==> risk !in percentages
    ensures r.Err? ==> r.error == KeyError(risk)
  {
    if risk !in percentages then Err(KeyError(risk))
    else
      var p := percentages[risk];
      if Contains(SignalName(signal), "BUY") then Ok(Some(price * (1.0 - p)))
      else if Contains(SignalName(signal), "SELL") then Ok(Some(price * (1.0 + p)))
      else Ok(None)
  }

  /** `calculate_take_profit`: above the price for a buy, below it for a sell, none for a hold. */
  function TakeProfit(percentages: map<string, real>, risk: string, price: real, signal: Signal): (r: Result<Option<real>>)
    ensures r.Err? <==> risk !in percentages
    ensures r.Err? ==> r.error == KeyError(risk)
  {
    if risk !in percentages then Err(KeyError(risk))
    else
      var p := percentages[risk];
      if Contains(SignalName(signal), "BUY") then Ok(Some(price * (1.0 + p)))
      else if Contains(SignalName(signal), "SELL") then Ok(Some(price * (1.0 - p)))
      else Ok(None)
  }

  /**
   * With a positive price and positive percentages, a buy's stop lies below the price and its
   * take above; a sell's the other way round; a hold has neither.
   */
  lemma ProtectiveLevels(stops: map<string, real>, takes: map<string, real>, risk: string, price: real, signal: Signal)
    requires risk in stops && risk in takes && stops[risk] > 0.0 && takes[risk] > 0.0 && price > 0.0
    ensures var stop, take := StopLoss(stops, risk, price, signal).value, TakeProfit(takes, risk, price, signal).value;
      (signal in {StrongBuy, Buy} ==> stop.Some? && take.Some? && stop.value < price < take.value) &&
      (signal in {StrongSell, Sell} ==> stop.Some? && take.Some? && take.value < price < stop.value) &&
      (signal == Hold ==> stop.None? && take.None?)
  {
    SignalWords(signal);
    MulMonoStrict(1.0 - stops[risk], 1.0, price);
    MulMonoStrict(1.0, 1.0 + takes[risk], price);
    MulMonoStrict(1.0 - takes[risk], 1.0, price);
    MulMonoStrict(1.0, 1.0 + stops[risk], price);
  }

  datatype VolumeLabel = Increasing | Decreasing | UnknownVolume

  /** The signal dictionary; `price_target` with its lower and upper bounds. */
  datatype SignalRecord = SignalRecord(
    asset: string, signal: Signal, price: real, timestamp: Label,
    stopLoss: Option<real>, takeProfit: Option<real>,
    detectedTrend: Trend, predictedTrend: Trend, trendStrength: Num, trendDuration: nat,
    predictionConfidence: Num, volumeTrend: VolumeLabel, priceTarget: Target)

  /** Lines 81-97: the answer of the exception handler. */
  function Fallback(symbol: string, price: real, timestamp: Label): (r: SignalRecord)
    ensures r.signal == Hold && r.stopLoss.None? && r.takeProfit.None?
    ensures r.detectedTrend == r.predictedTrend == Unknown && r.volumeTrend == UnknownVolume
    ensures r.priceTarget == Around(price)
  {
    SignalRecord(symbol, Hold, price, timestamp, None, None, Unknown, Unknown, Some(0.0), 0, Some(0.0), UnknownVolume, Around(price))
  }

  /** Lines 28-35 before the `try`: a missing Close column is a ValueError, no last row an IndexError. */
  function Preconditions(data: Table): (r: Result<(real, Label)>)
    ensures r.Err? <==> "Close" !in data.columns || |data.columns["Close"]| == 0 || Length(data.index) == 0
    ensures "Close" !in data.columns ==> r == Err(ValueError("DataFrame must contain a 'Close' column"))
    ensures r.Ok? ==> r.value == (Last(data.columns["Close"]), LabelAt(data.index, Length(data.index) - 1))
  {
    if "Close" !in data.columns then Err(ValueError("DataFrame must contain a 'Close' column"))
    else if |data.columns["Close"]| == 0 || Length(data.index) == 0 then Err(IndexError)
    else Ok((Last(data.columns["Close"]), LabelAt(data.index, Length(data.index) - 1)))
  }

  /** `generate_signal` as written: past the column checks, the HOLD record. */
  function SignalAsWritten(data: Table, symbol: string): (r: Result<SignalRecord>)
    ensures r.Err? <==> Preconditions(data).Err?
    ensures r.Ok? ==> r.value == Fallback(symbol, Preconditions(data).value.0, Preconditions(data).value.1)
  {
    match Preconditions(data)
    case Err(e) => Err(e)
    case Ok((price, stamp)) => Ok(Fallback(symbol, price, stamp))
  }

  /** As written, no frame ever yields a trade signal or a protective level. */
  lemma AsWrittenAlwaysHolds(data: Table, symbol: string)
    requires SignalAsWritten(data, symbol).Ok?
    ensures SignalAsWritten(data, symbol).value.signal == Hold
    ensures SignalAsWritten(data, symbol).value.stopLoss.None?
  {
  }

  /** Agreeing strong uptrends do call for STRONG BUY. */
  lemma StrongAgreementBuys()
    ensures DetermineSignal(Uptrend, Uptrend, Some(0.9), Some(0.9)) == StrongBuy
  {
  }

  function VolumeLabelOf(v: Option<int>): VolumeLabel
  {
    if v == Some(1) then Increasing else Decreasing
  }

  class SignalGenerationAgent {
    const prediction: TrendPredictionAgent
    const riskTolerance: string
    const stopLossPercentages: map<string, real>
    const takeProfitPercentages: map<string, real>

    constructor(riskTolerance: string := "medium")
      ensures fresh(prediction) && prediction.Valid()
      ensures prediction.arimaModel.None? && prediction.lstmModel.None? && prediction.scaler == Unfitted
      ensures this.riskTolerance == riskTolerance
      ensures stopLossPercentages == DefaultStopLoss && takeProfitPercentages == DefaultTakeProfit
    {
      prediction := new TrendPredictionAgent();
      this.riskTolerance := riskTolerance;
      stopLossPercentages := DefaultStopLoss;
      takeProfitPercentages := DefaultTakeProfit;
    }

    /** The tolerance names a tier of both tables. */
    predicate RiskKnown()
    {
      riskTolerance in stopLossPercentages && riskTolerance in takeProfitPercentages
    }

    /**
     * `generate_signal` as written: the ARIMA prediction at line 44 runs (and may fit and cache a
     * model) before the unpacking fails; the answer is then the HOLD record.
     */
    method GenerateSignalAsWritten(data: Table, symbol: string, fitArima: Table -> Option<Forecaster>)
      returns (r: Result<SignalRecord>)
      modifies prediction
      ensures r == SignalAsWritten(data, symbol)
      ensures r.Err? ==> unchanged(prediction)
      ensures r.Ok? ==> prediction.lstmModel == old(prediction.lstmModel) && prediction.scaler == old(prediction.scaler)
      ensures r.Ok? ==> prediction.arimaModel == if old(prediction.arimaModel).None? then fitArima(data) else old(prediction.arimaModel)
    {
      var pre := Preconditions(data);
      if pre.Err? {
        return Err(pre.error);
      }
      var _ := prediction.PredictArima(data, DefaultSteps, fitArima);
      r := Ok(Fallback(symbol, pre.value.0, pre.value.1));
    }

    /**
     * `generate_signal` with line 44 unpacking all three values. An unknown risk tolerance raises
     * KeyError inside the `try` after the prediction, giving the HOLD record. The trend duration is
     * the one `get_trend_duration` counts. The price target of line 65 is that of the corrected
     * `predict_price_target` (`PredictPriceTarget`, which passes the step count to both models and
     * unpacks three values): it follows the ARIMA and LSTM trends, where the code as written
     * always answers the last price.
     */
    method GenerateSignal(data: Table, symbol: string, ind: Indicators, volumeSma: seq<real> -> Option<seq<Num>>,
                          fitArima: Table -> Option<Forecaster>, fitNet: (seq<seq<real>>, seq<real>) -> Network)
      returns (r: Result<SignalRecord>)
      requires prediction.Valid()
      modifies prediction
      ensures prediction.Valid()
      ensures r.Err? <==> Preconditions(data).Err?
      ensures r.Err? ==> r.error == Preconditions(data).error && unchanged(prediction)
      ensures r.Ok? ==> prediction.arimaModel == if old(prediction.arimaModel).None? then fitArima(data) else old(prediction.arimaModel)
      ensures r.Ok? && !RiskKnown() ==>
        r.value == Fallback(symbol, Preconditions(data).value.0, Preconditions(data).value.1) &&
        prediction.lstmModel == old(prediction.lstmModel) && prediction.scaler == old(prediction.scaler)
      ensures r.Ok? && RiskKnown() && old(prediction.lstmModel).Some? ==>
        prediction.lstmModel == old(prediction.lstmModel) && prediction.scaler == old(prediction.scaler)
      ensures r.Ok? && RiskKnown() && old(prediction.lstmModel).None? ==>
        prediction.scaler == TrainedScaler(old(prediction.scaler), data) && prediction.lstmModel == TrainedNet(data, fitNet)
      ensures r.Ok? && RiskKnown() ==>
        var price := Preconditions(data).value.0;
        var p := Outcome(data, DefaultSteps, ArimaForecast(prediction.arimaModel, DefaultSteps));
        var detected, strength := AnalyzeTrend(ind, data), TrendStrength(ind, data);
        var s := DetermineSignal(detected, p.trend, strength, p.confidence);
        var volume := VolumeTrend(data, volumeSma);
        r.value.asset == symbol && r.value.price == price && r.value.timestamp == Preconditions(data).value.1 &&
        r.value.signal == s && r.value.detectedTrend == detected && r.value.predictedTrend == p.trend &&
        r.value.trendStrength == strength && r.value.predictionConfidence == p.confidence &&
        r.value.stopLoss == StopLoss(stopLossPercentages, riskTolerance, price, s).value &&
        r.value.takeProfit == TakeProfit(takeProfitPercentages, riskTolerance, price, s).value &&
        |volume| > 0 && r.value.volumeTrend == VolumeLabelOf(volume[|volume| - 1]) &&
        r.value.priceTarget == PriceTarget(price, p.trend,
          LstmOutcome(prediction.scaler, prediction.lstmModel, data, DefaultSteps).trend)
      ensures r.Ok? && RiskKnown() ==>
        r.value.trendDuration <= Length(data.index) && TrailingAgreement(ind, data, r.value.trendDuration)
      ensures r.Ok? && RiskKnown() && CloseAligned(data) ==> r.value.trendDuration >= 1
    {
      var pre := Preconditions(data);
      if pre.Err? {
        return Err(pre.error);
      }
      var price, stamp := pre.value.0, pre.value.1;
      var detected := AnalyzeTrend(ind, data);
      var strength := TrendStrength(ind, data);
      var duration := TrendDuration(ind, data);
      ghost var arima0 := prediction.arimaModel;
      var p := prediction.PredictTrend(data, "arima", DefaultSteps, fitArima, fitNet);
      assert prediction.arimaModel == if arima0.None? then fitArima(data) else arima0;
      assert p == Outcome(data, DefaultSteps, ArimaForecast(prediction.arimaModel, DefaultSteps));
      ghost var arima1 := prediction.arimaModel;
      var s := DetermineSignal(detected, p.trend, strength, p.confidence);
      var stop := StopLoss(stopLossPercentages, riskTolerance, price, s);
      var take := TakeProfit(takeProfitPercentages, riskTolerance, price, s);
      if stop.Err? || take.Err? {
        return Ok(Fallback(symbol, price, stamp));
      }
      var record := Assemble(data, symbol, price, stamp, s, stop.value, take.value, detected, p, strength, duration,
                             volumeSma, fitArima, fitNet);
      assert prediction.arimaModel == arima1;
      r := Ok(record);
    }

    /** Lines 60-79: the volume trend and the price target are computed and the dictionary is built. */
    method Assemble(data: Table, symbol: string, price: real, stamp: Label, s: Signal, stop: Option<real>,
                    take: Option<real>, detected: Trend, p: Prediction, strength: Num, duration: nat,
                    volumeSma: seq<real> -> Option<seq<Num>>,
                    fitArima: Table -> Option<Forecaster>, fitNet: (seq<seq<real>>, seq<real>) -> Network)
      returns (r: SignalRecord)
      requires prediction.Valid()
      requires "Close" in data.columns && |data.columns["Close"]| > 0 && Length(data.index) > 0
      requires price == Last(data.columns["Close"])
      modifies prediction
      ensures prediction.Valid()
      ensures prediction.arimaModel == if old(prediction.arimaModel).None? then fitArima(data) else old(prediction.arimaModel)
      ensures old(prediction.lstmModel).Some? ==>
        prediction.lstmModel == old(prediction.lstmModel) && prediction.scaler == old(prediction.scaler)
      ensures old(prediction.lstmModel).None? ==>
        prediction.scaler == TrainedScaler(old(prediction.scaler), data) && prediction.lstmModel == TrainedNet(data, fitNet)
      ensures var volume := VolumeTrend(data, volumeSma);
        |volume| > 0 &&
        r == SignalRecord(symbol, s, price, stamp, stop, take, detected, p.trend, strength, duration, p.confidence,
          VolumeLabelOf(volume[|volume| - 1]),
          PriceTarget(price, Outcome(data, DefaultSteps, ArimaForecast(prediction.arimaModel, DefaultSteps)).trend,
            LstmOutcome(prediction.scaler, prediction.lstmModel, data, DefaultSteps).trend))
    {
      var volume := VolumeTrend(data, volumeSma);
      VolumeTrendValues(data, volumeSma);
      var target := prediction.PredictPriceTarget(data, DefaultSteps, fitArima, fitNet);
      r := SignalRecord(symbol, s, price, stamp, stop, take, detected, p.trend, strength, duration,
                        p.confidence, VolumeLabelOf(volume[|volume| - 1]), target.value);
    }
  }
}
