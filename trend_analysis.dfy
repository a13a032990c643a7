/**
 * The trend analysis agent of `src/Agents/Analysis/trend_analysis_agent.py`. It reads the verdicts
 * of an RSI and an SMA agent from their text answers (the words between the first and second
 * colon) and combines them into one of four trend labels by case-sensitive keyword search. The two
 * indicator agents' answers are parameters.
 */
module TrendAnalysis {
  import opened Wrappers
  import opened Text

  datatype Verdict = StrongUptrend | StrongDowntrend | Sideways | MixedSignals

  function VerdictName(v: Verdict): string
  {
    match v
    case StrongUptrend => "Strong Uptrend"
    case StrongDowntrend => "Strong Downtrend"
    case Sideways => "Sideways"
    case MixedSignals => "Mixed Signals"
  }

  /** `analysis.split(":")[1].strip()`; None where the text has no colon and Python raises IndexError. */
  function SignalText(analysis: string): (r: Option<string>)
    ensures r.Some? <==> Contains(analysis, ":")
    ensures r.Some? ==> r.value == Strip(SecondField(analysis, ":").value)
  {
    match SecondField(analysis, ":")
    case None => None
    case Some(field) => Some(Strip(field))
  }

  /** An occurrence in a text copied into another at offset `off` is an occurrence there, shifted by `off`. */
  lemma ShiftedOccurrence(s: string, q: string, off: nat, p: string, i: int)
    requires off + |q| <= |s| && forall k :: 0 <= k < |q| ==> q[k] == s[off + k]
    requires OccursAt(q, p, i)
    ensures OccursAt(s, p, off + i)
  {
    forall k | 0 <= k < |p|
      ensures s[off + i + k] == p[k]
    {
      assert q[i..i + |p|][k] == q[i + k];
    }
    assert s[off + i..off + i + |p|] == p;
  }

  /** Text found in the stripped text is found in the text. */
  lemma ContainsAfterStrip(s: string, p: string)
    ensures Contains(Strip(s), p) ==> Contains(s, p)
  {
    if Contains(Strip(s), p) {
      var i :| 0 <= i <= |Strip(s)| - |p| && OccursAt(Strip(s), p, i);
      StripIsSlice(s);
      var off := |s| - |TrimStart(s)|;
      ShiftedOccurrence(s, Strip(s), off, p, i);
      assert OccursAt(s, p, off + i);
    }
  }

  /** The signal text is the second colon-separated field, stripped, so it holds no colon itself. */
  lemma SignalHasNoColon(analysis: string)
    requires Contains(analysis, ":")
    ensures !Contains(SignalText(analysis).value, ":")
    ensures var t := SignalText(analysis).value; t == [] || (!IsSpace(t[0]) && !IsSpace(t[|t| - 1]))
  {
    ContainsAfterStrip(SecondField(analysis, ":").value, ":");
  }

  /** Lines 24-31, first match wins. */
  function Combine(rsiSignal: string, smaSignal: string): (v: Verdict)
    ensures v == StrongUptrend <==> Contains(smaSignal, "Bullish") && !Contains(rsiSignal, "Overbought")
    ensures v == StrongDowntrend <==>
      !(Contains(smaSignal, "Bullish") && !Contains(rsiSignal, "Overbought")) &&
      Contains(smaSignal, "Bearish") && !Contains(rsiSignal, "Oversold")
    ensures v == Sideways <==>
      !(Contains(smaSignal, "Bullish") && !Contains(rsiSignal, "Overbought")) &&
      !(Contains(smaSignal, "Bearish") && !Contains(rsiSignal, "Oversold")) &&
      Contains(smaSignal, "Neutral")
  {
    if Contains(smaSignal, "Bullish") && !Contains(rsiSignal, "Overbought") then StrongUptrend
    else if Contains(smaSignal, "Bearish") && !Contains(rsiSignal, "Oversold") then StrongDowntrend
    else if Contains(smaSignal, "Neutral") then Sideways
    else MixedSignals
  }

  /** `analyze_trend`: IndexError when either answer lacks a colon, the RSI answer read first. */
  function AnalyzeTrend(rsiAnalysis: string, smaAnalysis: string): (r: Result<Verdict>)
    ensures r.Err? <==> !Contains(rsiAnalysis, ":") || !Contains(smaAnalysis, ":")
    ensures r.Err? ==> r.error == IndexError
    ensures r.Ok? ==> r.value == Combine(SignalText(rsiAnalysis).value, SignalText(smaAnalysis).value)
  {
    match (SignalText(rsiAnalysis), SignalText(smaAnalysis))
    case (Some(rsi), Some(sma)) => Ok(Combine(rsi, sma))
    case _ => Err(IndexError)
  }

  /** `respond`: "Trend Analysis: " followed by the label. */
  function Respond(rsiAnalysis: string, smaAnalysis: string): (r: Result<string>)
    ensures r.Err? <==> AnalyzeTrend(rsiAnalysis, smaAnalysis).Err?
    ensures r.Ok? ==> r.value == "Trend Analysis: " + VerdictName(AnalyzeTrend(rsiAnalysis, smaAnalysis).value)
  {
    match AnalyzeTrend(rsiAnalysis, smaAnalysis)
    case Err(e) => Err(e)
    case Ok(v) => Ok("Trend Analysis: " + VerdictName(v))
  }

  /** Every answer is the fixed prefix and one of the four labels, and the label can be read back. */
  lemma RespondLabels(rsiAnalysis: string, smaAnalysis: string)
    requires Respond(rsiAnalysis, smaAnalysis).Ok?
    ensures var text := Respond(rsiAnalysis, smaAnalysis).value;
      StartsWith(text, "Trend Analysis: ") &&
      text[16..] in {"Strong Uptrend", "Strong Downtrend", "Sideways", "Mixed Signals"} &&
      exists v :: text[16..] == VerdictName(v) && v == AnalyzeTrend(rsiAnalysis, smaAnalysis).value
  {
    var v := AnalyzeTrend(rsiAnalysis, smaAnalysis).value;
    var text := Respond(rsiAnalysis, smaAnalysis).value;
    assert text[16..] == VerdictName(v);
    assert text[..16] == "Trend Analysis: ";
  }
}
