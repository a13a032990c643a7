/**
 * The sector-rotation backtest of `src/Backtesting/backtest_predict_sectors.py`. The sectors the
 * crew predicts, read once at construction, are compared as a set with the configured sectors;
 * while the two sets differ, a flat strategy buys with half of its cash. Nothing ever sells.
 */
module PredictSectors {
  import opened Wrappers
  import opened Broker

  /** The default of the `sectors` parameter (line 36). */
  const DefaultSectors: seq<string> := ["Technology", "Healthcare", "Finance"]

  /** `parse_sectors`: the crew's output is ignored and the same two sectors come back. */
  function ParseSectors(crewOutput: string): (r: seq<string>)
    ensures |r| == 2 && r[0] == "Technology" && r[1] == "Healthcare"
  {
    ["Technology", "Healthcare"]
  }

  function AsSet(s: seq<string>): (r: set<string>)
    ensures forall x :: x in r <==> x in s
  {
    set x | x in s
  }

  /** `CrewAISectorRotationStrategy.next`. */
  function SectorRule(predictedSectors: seq<string>, sectors: seq<string>, position: int, cash: real, close: real): (r: Decision)
    ensures AsSet(predictedSectors) != AsSet(sectors) && position == 0 ==> r == BuyFor(cash, 0.5, close)
    ensures AsSet(predictedSectors) == AsSet(sectors) || position != 0 ==> r == Ok(None)
  {
    if AsSet(predictedSectors) != AsSet(sectors) then
      if position == 0 then BuyFor(cash, 0.5, close) else Ok(None)
    else Ok(None)
  }

  /** With the default sectors the prediction (which lacks "Finance") differs, so the first flat bar buys. */
  lemma DefaultBuysWhenFlat(crewOutput: string, cash: real, close: real)
    ensures SectorRule(ParseSectors(crewOutput), DefaultSectors, 0, cash, close) == BuyFor(cash, 0.5, close)
  {
    assert "Finance" in AsSet(DefaultSectors);
    assert "Finance" !in AsSet(ParseSectors(crewOutput));
  }

  /** The strategy never sells. */
  lemma NeverSells(predictedSectors: seq<string>, sectors: seq<string>, bars: seq<(real, real)>, position: int)
    ensures var rule := (b: (real, real), p: int) => SectorRule(predictedSectors, sectors, p, b.0, b.1);
      forall i :: 0 <= i < |Run(rule, bars, position)| ==> NotSell(Run(rule, bars, position)[i])
  {
    var rule := (b: (real, real), p: int) => SectorRule(predictedSectors, sectors, p, b.0, b.1);
    RunNeverSells(rule, _ => true, bars, position);
  }

  /** Sectors configured to the predicted set, in any order or with repeats, never trade. */
  lemma {:induction false} SameSectorsNeverTrade(predictedSectors: seq<string>, sectors: seq<string>, bars: seq<(real, real)>, position: int)
    requires forall x :: x in predictedSectors <==> x in sectors
    ensures var rule := (b: (real, real), p: int) => SectorRule(predictedSectors, sectors, p, b.0, b.1);
      Run(rule, bars, position) == seq(|bars|, _ => None)
    decreases |bars|
  {
    var rule := (b: (real, real), p: int) => SectorRule(predictedSectors, sectors, p, b.0, b.1);
    assert AsSet(predictedSectors) == AsSet(sectors);
    if |bars| > 0 {
      SameSectorsNeverTrade(predictedSectors, sectors, bars[1..], position);
      assert Run(rule, bars, position) == [None] + Run(rule, bars[1..], position);
    }
  }

  class CrewAISectorRotationStrategy {
    const sectors: seq<string>
    const predictedSectors: seq<string>
    var position: int

    /** `__init__`: the crew runs once and its output goes through `parse_sectors`. */
    constructor(crewOutput: string, sectors: seq<string> := DefaultSectors)
      ensures this.sectors == sectors && predictedSectors == ParseSectors(crewOutput) && position == 0
    {
      this.sectors := sectors;
      predictedSectors := ParseSectors(crewOutput);
      position := 0;
    }

    method Next(cash: real, close: real) returns (r: Decision)
      modifies this
      ensures r == SectorRule(predictedSectors, sectors, old(position), cash, close)
      ensures position == if r.Ok? then Fill(old(position), r.value) else old(position)
    {
      r := Ok(None);
      if AsSet(predictedSectors) != AsSet(sectors) {
        if position == 0 {
          var size := SizeFor(cash, 0.5, close);
          if size.Err? {
            return Err(size.error);
          }
          r := Ok(Some(Buy(size.value)));
          position := position + size.value;
        }
      }
    }
  }
}
