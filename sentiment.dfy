/**
 * The sentiment backtest of `src/Backtesting/backtest_sentiment_analysis.py`. The sentiment
 * crew's first task output is read once, at construction, into 'buy', 'sell' or 'hold' by keyword
 * search and, failing that, by a sentiment score; each bar then buys with all the cash on 'buy'
 * when flat and sells everything on 'sell' when holding. Every exception raised while reading
 * the output is caught and reads as 'hold'.
 */
module Sentiment {
  import opened Wrappers
  import opened Text
  import opened Broker

  /** A task output and which of its `summary` and `description` attributes it has. */
  datatype TaskOutput = TaskOutput(summary: Option<string>, description: Option<string>)

  /** Lines 62-66: the lower-cased summary, else the lower-cased description, else "". */
  function SentimentText(t: TaskOutput): string
  {
    if t.summary.Some? then Lower(t.summary.value)
    else if t.description.Some? then Lower(t.description.value)
    else ""
  }

  predicate BuyWords(text: string)
  {
    Contains(text, "buy") || Contains(text, "positive") || Contains(text, "stability")
  }

  predicate SellWords(text: string)
  {
    Contains(text, "sell") || Contains(text, "negative") || Contains(text, "caution")
  }

  /**
   * Line 76: `float(text.split("score")[1].strip().split()[0])`, the first word after the first
   * "score"; None where that word is missing (IndexError) or is not a numeral (ValueError).
   */
  function ScoreValue(text: string): Option<real>
  {
    match SecondField(text, "score")
    case None => None
    case Some(after) =>
      match FirstWord(Strip(after))
      case None => None
      case Some(word) => ParseFloat(word)
  }

  /** `parse_sentiment`. */
  function ParseSentiment(tasksOutput: Option<seq<TaskOutput>>): (r: string)
    ensures r in {"buy", "sell", "hold"}
    ensures tasksOutput.None? || |tasksOutput.value| == 0 ==> r == "hold"
    ensures tasksOutput.Some? && |tasksOutput.value| > 0 ==>
      var text := SentimentText(tasksOutput.value[0]);
      var score := ScoreValue(text);
      (r == "buy" <==> BuyWords(text) || (!SellWords(text) && score.Some? && score.value > 0.3)) &&
      (r == "sell" <==> !BuyWords(text) && (SellWords(text) || (score.Some? && score.value < -0.3)))
  {
    if tasksOutput.None? || |tasksOutput.value| == 0 then "hold"
    else
      var text := SentimentText(tasksOutput.value[0]);
      if BuyWords(text) then "buy"
      else if SellWords(text) then "sell"
      else if Contains(text, "score") then
        match ScoreValue(text)
        case None => "hold"
        case Some(score) => if score > 0.3 then "buy" else if score < -0.3 then "sell" else "hold"
      else "hold"
  }

  /** A score exactly at a threshold, or between them, holds. */
  lemma ThresholdsHold(t: TaskOutput)
    requires !BuyWords(SentimentText(t)) && !SellWords(SentimentText(t))
    requires ScoreValue(SentimentText(t)).Some? && -0.3 <= ScoreValue(SentimentText(t)).value <= 0.3
    ensures ParseSentiment(Some([t])) == "hold"
  {
    assert [t][0] == t;
  }

  /** `SentimentBasedStrategy.next`: an all-in purchase on 'buy' when flat, a full sale on 'sell' when holding. */
  function SentimentRule(decision: string, position: int, cash: real, close: real): (r: Decision)
    ensures position == 0 && decision == "buy" ==> r == BuyFor(cash, 1.0, close)
    ensures position != 0 && decision == "sell" ==> r == Ok(Some(Sell(position)))
    ensures !(position == 0 && decision == "buy") && !(position != 0 && decision == "sell") ==> r == Ok(None)
  {
    if position == 0 && decision == "buy" then BuyFor(cash, 1.0, close)
    else if position != 0 && decision == "sell" then Ok(Some(Sell(position)))
    else Ok(None)
  }

  /** Selling the whole position always leaves the strategy flat. */
  lemma SellFlattens(decision: string, position: int, cash: real, close: real)
    requires SentimentRule(decision, position, cash, close).Ok?
    requires !NotSell(SentimentRule(decision, position, cash, close).value)
    ensures Fill(position, SentimentRule(decision, position, cash, close).value) == 0
  {
  }

  /** A strategy that read anything but 'sell' never sells over a whole run. */
  lemma OnlySellSells(decision: string, bars: seq<(real, real)>, position: int)
    requires decision != "sell"
    ensures var rule := (b: (real, real), p: int) => SentimentRule(decision, p, b.0, b.1);
      forall i :: 0 <= i < |Run(rule, bars, position)| ==> NotSell(Run(rule, bars, position)[i])
  {
    var rule := (b: (real, real), p: int) => SentimentRule(decision, p, b.0, b.1);
    RunNeverSells(rule, _ => true, bars, position);
  }

  class SentimentBasedStrategy {
    const sentimentDecision: string
    var position: int

    /** Lines 45-50: the crew runs once and its output is parsed. */
    constructor(sentimentOutput: Option<seq<TaskOutput>>)
      ensures sentimentDecision == ParseSentiment(sentimentOutput) && position == 0
    {
      sentimentDecision := ParseSentiment(sentimentOutput);
      position := 0;
    }

    method Next(cash: real, close: real) returns (r: Decision)
      modifies this
      ensures r == SentimentRule(sentimentDecision, old(position), cash, close)
      ensures position == if r.Ok? then Fill(old(position), r.value) else old(position)
    {
      if position == 0 && sentimentDecision == "buy" {
        var size := SizeFor(cash, 1.0, close);
        if size.Err? {
          return Err(size.error);
        }
        r := Ok(Some(Buy(size.value)));
        position := position + size.value;
      } else if position != 0 && sentimentDecision == "sell" {
        r := Ok(Some(Sell(position)));
        position := 0;
      } else {
        r := Ok(None);
      }
    }
  }
}
