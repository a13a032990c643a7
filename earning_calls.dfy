/**
 * The earnings-call backtest of `src/Backtesting/backtesting_earning_calls.py`. On each bar whose
 * date is an earnings-call date the crew's analysis replaces the stored output (unless there is
 * no data to analyse); every bar then reads a recommendation from the stored output by keyword
 * and buys or sells one share (backtrader's default stake).
 */
module EarningCalls {
  import opened Wrappers
  import opened Text
  import opened Dates
  import opened Broker

  /** The crew output as the strategy reads it: keys and their text, in iteration order. */
  type CrewOutput = seq<(string, string)>

  /** Lines 90-91: the values concatenated in key order. */
  function Concat(crewOutput: CrewOutput): string
    decreases |crewOutput|
  {
    if |crewOutput| == 0 then ""
    else Concat(crewOutput[..|crewOutput| - 1]) + crewOutput[|crewOutput| - 1].1
  }

  /** Line 93: the text the keywords are searched in. */
  function AnalysisText(crewOutput: CrewOutput): string
  {
    Lower(Concat(crewOutput))
  }

  predicate BuyWords(text: string)
  {
    Contains(text, "buy") || Contains(text, "strong growth") || Contains(text, "positive outlook")
  }

  predicate SellWords(text: string)
  {
    Contains(text, "sell") || Contains(text, "decline") || Contains(text, "negative outlook")
  }

  /** `get_recommendation_from_crew_output`: buying words win over selling words; neither is 'hold'. */
  function Recommendation(crewOutput: CrewOutput): (r: string)
    ensures r in {"buy", "sell", "hold"}
    ensures r == "buy" <==> BuyWords(AnalysisText(crewOutput))
    ensures r == "sell" <==> !BuyWords(AnalysisText(crewOutput)) && SellWords(AnalysisText(crewOutput))
  {
    var text := AnalysisText(crewOutput);
    if BuyWords(text) then "buy" else if SellWords(text) then "sell" else "hold"
  }

  /** Before any analysis (`crew_output = {}`, line 34) the recommendation is 'hold'. */
  lemma InitialHold()
    ensures Recommendation([]) == "hold"
  {
  }

  /** Each value of the output appears, in order, inside the concatenation. */
  lemma {:induction false} ValueOffset(crewOutput: CrewOutput, i: nat) returns (off: nat)
    requires i < |crewOutput|
    ensures off + |crewOutput[i].1| <= |Concat(crewOutput)|
    ensures Concat(crewOutput)[off..off + |crewOutput[i].1|] == crewOutput[i].1
    decreases |crewOutput|
  {
    var front := crewOutput[..|crewOutput| - 1];
    if i == |crewOutput| - 1 {
      off := |Concat(front)|;
    } else {
      assert front[i] == crewOutput[i];
      off := ValueOffset(front, i);
      assert Concat(crewOutput)[..|Concat(front)|] == Concat(front);
    }
  }

  /** A keyword in any one value of the output is a keyword of the whole analysis text. */
  lemma KeywordInValue(crewOutput: CrewOutput, i: nat, word: string)
    requires i < |crewOutput|
    requires Contains(Lower(crewOutput[i].1), word)
    ensures Contains(AnalysisText(crewOutput), word)
  {
    var v := crewOutput[i].1;
    var off := ValueOffset(crewOutput, i);
    var j :| 0 <= j <= |v| - |word| && OccursAt(Lower(v), word, j);
    var text := AnalysisText(crewOutput);
    forall k | 0 <= k < |word|
      ensures text[off + j + k] == word[k]
    {
      assert Concat(crewOutput)[off + j + k] == v[j + k];
      assert Lower(v)[j..j + |word|][k] == Lower(v)[j + k];
    }
    assert text[off + j..off + j + |word|] == word;
    assert OccursAt(text, word, off + j);
  }

  /** Any value that mentions buying makes the recommendation 'buy', whatever the other values say. */
  lemma BuyInAnyValue(crewOutput: CrewOutput, i: nat)
    requires i < |crewOutput|
    requires Contains(Lower(crewOutput[i].1), "buy")
    ensures Recommendation(crewOutput) == "buy"
  {
    KeywordInValue(crewOutput, i, "buy");
  }

  /** Lines 108-121 once the recommendation is known: one share on 'buy' when flat, one on 'sell' when holding. */
  function EarningsRule(recommendation: string, position: int): (r: Decision)
    ensures r.Ok?
    ensures r.value == Some(Buy(1)) <==> recommendation == "buy" && position == 0
    ensures r.value == Some(Sell(1)) <==> recommendation == "sell" && position != 0
    ensures r.value.None? <==> !(recommendation == "buy" && position == 0) && !(recommendation == "sell" && position != 0)
  {
    if recommendation == "buy" && position == 0 then Ok(Some(Buy(1)))
    else if recommendation == "sell" && position != 0 then Ok(Some(Sell(1)))
    else Ok(None)
  }

  /** Starting flat, the strategy only ever holds zero or one share, whatever it is recommended. */
  lemma AtMostOneShare(recommendations: seq<string>)
    ensures var rule := (rec: string, p: int) => EarningsRule(rec, p);
      forall i :: 0 <= i < |Positions(rule, recommendations, 0)| ==> 0 <= Positions(rule, recommendations, 0)[i] <= 1
  {
    var rule := (rec: string, p: int) => EarningsRule(rec, p);
    RunKeeps(rule, p => 0 <= p <= 1, recommendations, 0);
  }

  class CrewAIEarningsCallsStrategy {
    /** The dates of the earnings events, or none when fetching them failed (lines 45-64). */
    const earningsCallDates: seq<Date>
    var crewOutput: CrewOutput
    var position: int

    constructor(earningsCallDates: seq<Date>)
      ensures this.earningsCallDates == earningsCallDates && crewOutput == [] && position == 0
    {
      this.earningsCallDates := earningsCallDates;
      crewOutput := [];
      position := 0;
    }

    /** `get_recommendation_from_crew_output`: the values are appended one by one, then the text is searched. */
    method GetRecommendation() returns (r: string)
      ensures r == Recommendation(crewOutput)
    {
      var analysisText := "";
      var i := 0;
      while i < |crewOutput|
        invariant 0 <= i <= |crewOutput|
        invariant analysisText == Concat(crewOutput[..i])
      {
        assert crewOutput[..i + 1][..i] == crewOutput[..i];
        analysisText := analysisText + crewOutput[i].1;
        i := i + 1;
      }
      assert crewOutput[..|crewOutput|] == crewOutput;
      analysisText := Lower(analysisText);
      if BuyWords(analysisText) {
        r := "buy";
      } else if SellWords(analysisText) {
        r := "sell";
      } else {
        r := "hold";
      }
    }

    /**
     * `next` on a bar dated `currentDate`. `analysis` is what `perform_crewai_analysis` would
     * produce on that date: the crew's output, or None when there is neither SEC nor earnings data.
     */
    method Next(currentDate: Date, analysis: Option<CrewOutput>) returns (r: Decision)
      modifies this
      ensures crewOutput == if currentDate in earningsCallDates && analysis.Some? then analysis.value else old(crewOutput)
      ensures r == EarningsRule(Recommendation(crewOutput), old(position))
      ensures position == Fill(old(position), r.value)
    {
      if currentDate in earningsCallDates && analysis.Some? {
        crewOutput := analysis.value;
      }
      var recommendation := GetRecommendation();
      if recommendation == "buy" && position == 0 {
        r := Ok(Some(Buy(1)));
        position := position + 1;
      } else if recommendation == "sell" && position != 0 {
        r := Ok(Some(Sell(1)));
        position := position - 1;
      } else {
        r := Ok(None);
      }
    }
  }
}
