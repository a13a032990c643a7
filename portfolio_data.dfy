/**
 * The portfolio data agent of `src/Agents/Scenario_Agents/portfolio_data_agent.py`. It holds a
 * sample portfolio, groups its assets by asset class into a dictionary of total positions and total
 * weights, and accepts the grouping when the weights add up to 1 within 0.01.
 *
 * A Python dictionary keeps its keys in insertion order, so a grouping is a list of
 * (asset class, totals) pairs. Fernet encryption and the `eval` that reads the decrypted text back
 * are not modelled: the ciphertext is represented by the assets it decrypts to.
 */
module PortfolioData {
  import opened Wrappers
  import opened Numbers

  datatype Asset = Asset(assetClass: string, position: real, weight: real)

  /** The inner dictionary `{'total_position': ..., 'total_weight': ...}`. */
  datatype Totals = Totals(totalPosition: real, totalWeight: real)

  type Grouping = seq<(string, Totals)>

  /** The portfolio of `retrieve_portfolio_data`, lines 31-37. */
  const SampleAssets: seq<Asset> := [
    Asset("Equity", 100000.0, 0.5),
    Asset("Fixed Income", 50000.0, 0.25),
    Asset("Commodities", 50000.0, 0.25)
  ]

  predicate DistinctPairs(m: Grouping)
  {
    forall i, j :: 0 <= i < j < |m| ==> m[i].0 != m[j].0
  }

  /** `m.get(c)`. */
  function Get(m: Grouping, c: string): Option<Totals>
    decreases |m|
  {
    if |m| == 0 then None
    else if m[|m| - 1].0 == c then Some(m[|m| - 1].1)
    else Get(m[..|m| - 1], c)
  }

  /** `c in m`. */
  predicate HasKey(m: Grouping, c: string)
  {
    Get(m, c).Some?
  }

  /** A key is in the dictionary exactly when some entry carries it. */
  lemma {:induction false} HasKeyIndex(m: Grouping, c: string)
    ensures HasKey(m, c) <==> exists i :: 0 <= i < |m| && m[i].0 == c
    decreases |m|
  {
    if |m| > 0 {
      var front := m[..|m| - 1];
      assert forall i :: 0 <= i < |front| ==> front[i] == m[i];
      HasKeyIndex(front, c);
    }
  }

  /** Lines 60-61: the entry under `c` gains a position and a weight. */
  function Increment(m: Grouping, c: string, position: real, weight: real): (r: Grouping)
    ensures |r| == |m| && forall i :: 0 <= i < |m| ==> r[i].0 == m[i].0
  {
    seq(|m|, i requires 0 <= i < |m| =>
      if m[i].0 == c then (c, Totals(m[i].1.totalPosition + position, m[i].1.totalWeight + weight)) else m[i])
  }

  /** One pass of the loop at lines 56-61: a zero entry is created for a new class, then incremented. */
  function Add(m: Grouping, a: Asset): Grouping
  {
    var c := a.assetClass;
    Increment(if HasKey(m, c) then m else m + [(c, Totals(0.0, 0.0))], c, a.position, a.weight)
  }

  /** The dictionary the loop at lines 56-61 has built after the assets `assets`. */
  function MapAssets(assets: seq<Asset>): Grouping
    decreases |assets|
  {
    if |assets| == 0 then [] else Add(MapAssets(assets[..|assets| - 1]), assets[|assets| - 1])
  }

  function TotalPosition(m: Grouping): real
    decreases |m|
  {
    if |m| == 0 then 0.0 else TotalPosition(m[..|m| - 1]) + m[|m| - 1].1.totalPosition
  }

  /** Line 70: the sum of the total weights. */
  function TotalWeight(m: Grouping): real
    decreases |m|
  {
    if |m| == 0 then 0.0 else TotalWeight(m[..|m| - 1]) + m[|m| - 1].1.totalWeight
  }

  function AssetPosition(assets: seq<Asset>): real
    decreases |assets|
  {
    if |assets| == 0 then 0.0 else AssetPosition(assets[..|assets| - 1]) + assets[|assets| - 1].position
  }

  function AssetWeight(assets: seq<Asset>): real
    decreases |assets|
  {
    if |assets| == 0 then 0.0 else AssetWeight(assets[..|assets| - 1]) + assets[|assets| - 1].weight
  }

  /** The positions of the assets of class `c`, added up. */
  function ClassPosition(assets: seq<Asset>, c: string): real
    decreases |assets|
  {
    if |assets| == 0 then 0.0
    else
      var a := assets[|assets| - 1];
      ClassPosition(assets[..|assets| - 1], c) + (if a.assetClass == c then a.position else 0.0)
  }

  /** The weights of the assets of class `c`, added up. */
  function ClassWeight(assets: seq<Asset>, c: string): real
    decreases |assets|
  {
    if |assets| == 0 then 0.0
    else
      var a := assets[|assets| - 1];
      ClassWeight(assets[..|assets| - 1], c) + (if a.assetClass == c then a.weight else 0.0)
  }

  /** Some asset is of class `c`. */
  predicate HasClass(assets: seq<Asset>, c: string)
    decreases |assets|
  {
    |assets| > 0 && (assets[|assets| - 1].assetClass == c || HasClass(assets[..|assets| - 1], c))
  }

  /** Lines 67-75: a grouping that exists, is not empty, and whose weights add up to 1 within 0.01. */
  predicate Validated(m: Option<Grouping>)
  {
    m.Some? && |m.value| > 0 && Abs(TotalWeight(m.value) - 1.0) <= 0.01
  }

  /** Incrementing changes the entry under `c` and no other. */
  lemma {:induction false} GetIncrement(m: Grouping, c: string, p: real, w: real, d: string)
    ensures Get(Increment(m, c, p, w), d) ==
      if d != c then Get(m, d)
      else match Get(m, c)
        case None => None
        case Some(t) => Some(Totals(t.totalPosition + p, t.totalWeight + w))
    decreases |m|
  {
    if |m| > 0 {
      var front := m[..|m| - 1];
      var r := Increment(m, c, p, w);
      assert r[..|r| - 1] == Increment(front, c, p, w);
      GetIncrement(front, c, p, w, d);
    }
  }

  lemma GetAppend(m: Grouping, c: string, t: Totals, d: string)
    ensures Get(m + [(c, t)], d) == if d == c then Some(t) else Get(m, d)
  {
    assert (m + [(c, t)])[..|m|] == m;
  }

  /** After one asset, its class holds the old totals (zero for a new class) plus the asset. */
  lemma GetAdd(m: Grouping, a: Asset, d: string)
    ensures d != a.assetClass ==> Get(Add(m, a), d) == Get(m, d)
    ensures d == a.assetClass && HasKey(m, d) ==>
      Get(Add(m, a), d) == Some(Totals(Get(m, d).value.totalPosition + a.position, Get(m, d).value.totalWeight + a.weight))
    ensures d == a.assetClass && !HasKey(m, d) ==> Get(Add(m, a), d) == Some(Totals(a.position, a.weight))
  {
    if HasKey(m, a.assetClass) {
      assert Add(m, a) == Increment(m, a.assetClass, a.position, a.weight);
      GetIncrement(m, a.assetClass, a.position, a.weight, d);
    } else {
      GetAddNew(m, a, d);
    }
  }

  /** An asset of a new class adds its class with the asset's own position and weight. */
  lemma GetAddNew(m: Grouping, a: Asset, d: string)
    requires !HasKey(m, a.assetClass)
    ensures Get(Add(m, a), d) == if d != a.assetClass then Get(m, d) else Some(Totals(0.0 + a.position, 0.0 + a.weight))
  {
    var c := a.assetClass;
    var m' := m + [(c, Totals(0.0, 0.0))];
    GetIncrement(m', c, a.position, a.weight, d);
    GetAppend(m, c, Totals(0.0, 0.0), d);
    GetAppend(m, c, Totals(0.0, 0.0), c);
  }

  /** One asset adds its class as a key if it is new and keeps the keys distinct. */
  lemma AddKeys(m: Grouping, a: Asset)
    requires DistinctPairs(m)
    ensures DistinctPairs(Add(m, a))
    ensures forall d :: HasKey(Add(m, a), d) <==> HasKey(m, d) || d == a.assetClass
    ensures HasKey(m, a.assetClass) ==> |Add(m, a)| == |m|
    ensures !HasKey(m, a.assetClass) ==> |Add(m, a)| == |m| + 1
  {
    var c := a.assetClass;
    var m' := if HasKey(m, c) then m else m + [(c, Totals(0.0, 0.0))];
    if !HasKey(m, c) {
      HasKeyIndex(m, c);
      assert forall i :: 0 <= i < |m| ==> m'[i] == m[i];
    }
    assert DistinctPairs(m');
    forall d
      ensures HasKey(Add(m, a), d) <==> HasKey(m, d) || d == a.assetClass
    {
      GetAdd(m, a, d);
    }
  }

  /** The grouping's entry under each class is the class's summed position and weight; other names are absent. */
  lemma {:induction false} MapAssetsByClass(assets: seq<Asset>, c: string)
    ensures Get(MapAssets(assets), c) ==
      if HasClass(assets, c) then Some(Totals(ClassPosition(assets, c), ClassWeight(assets, c))) else None
    decreases |assets|
  {
    if |assets| > 0 {
      var front := assets[..|assets| - 1];
      var a := assets[|assets| - 1];
      assert MapAssets(assets) == Add(MapAssets(front), a);
      MapAssetsByClass(front, c);
      if !HasClass(front, c) {
        NoClassSumsZero(front, c);
      }
      var had, p, w := HasClass(front, c), ClassPosition(front, c), ClassWeight(front, c);
      ByClassStep(MapAssets(front), a, c, had, p, w);
      assert HasClass(assets, c) == (had || a.assetClass == c);
      assert ClassPosition(assets, c) == p + (if a.assetClass == c then a.position else 0.0);
      assert ClassWeight(assets, c) == w + (if a.assetClass == c then a.weight else 0.0);
    }
  }

  /** One asset moves the entry under `c` from the totals so far to the totals with the asset counted. */
  lemma ByClassStep(g: Grouping, a: Asset, c: string, had: bool, p: real, w: real)
    requires Get(g, c) == if had then Some(Totals(p, w)) else None
    requires !had ==> p == 0.0 && w == 0.0
    ensures Get(Add(g, a), c) ==
      if had || a.assetClass == c then
        Some(Totals(p + (if a.assetClass == c then a.position else 0.0), w + (if a.assetClass == c then a.weight else 0.0)))
      else None
  {
    GetAdd(g, a, c);
  }

  lemma {:induction false} NoClassSumsZero(assets: seq<Asset>, c: string)
    requires !HasClass(assets, c)
    ensures ClassPosition(assets, c) == 0.0 && ClassWeight(assets, c) == 0.0
    decreases |assets|
  {
    if |assets| > 0 {
      NoClassSumsZero(assets[..|assets| - 1], c);
    }
  }

  /** The keys are exactly the distinct asset classes of the input. */
  lemma {:induction false} MapAssetsKeys(assets: seq<Asset>)
    ensures DistinctPairs(MapAssets(assets))
    ensures forall c :: HasKey(MapAssets(assets), c) <==> HasClass(assets, c)
    ensures |MapAssets(assets)| == 0 <==> |assets| == 0
    decreases |assets|
  {
    if |assets| > 0 {
      var front := assets[..|assets| - 1];
      var a := assets[|assets| - 1];
      MapAssetsKeys(front);
      AddKeys(MapAssets(front), a);
    }
  }

  lemma TotalsAppend(m: Grouping, e: (string, Totals))
    ensures TotalPosition(m + [e]) == TotalPosition(m) + e.1.totalPosition
    ensures TotalWeight(m + [e]) == TotalWeight(m) + e.1.totalWeight
  {
    assert (m + [e])[..|m|] == m;
  }

  /** Incrementing a key that occurs at most once adds the amounts once if the key is there, and not at all otherwise. */
  lemma {:induction false} IncrementTotals(m: Grouping, c: string, p: real, w: real)
    requires DistinctPairs(m)
    ensures TotalPosition(Increment(m, c, p, w)) == TotalPosition(m) + (if HasKey(m, c) then p else 0.0)
    ensures TotalWeight(Increment(m, c, p, w)) == TotalWeight(m) + (if HasKey(m, c) then w else 0.0)
    decreases |m|
  {
    if |m| > 0 {
      var front := m[..|m| - 1];
      var r := Increment(m, c, p, w);
      assert r[..|r| - 1] == Increment(front, c, p, w);
      assert forall i :: 0 <= i < |front| ==> front[i] == m[i];
      IncrementTotals(front, c, p, w);
      assert HasKey(m, c) <==> HasKey(front, c) || m[|m| - 1].0 == c;
      if m[|m| - 1].0 == c {
        HasKeyIndex(front, c);
      }
    }
  }

  /** One asset adds its position and its weight to the grouping's totals. */
  lemma AddTotals(m: Grouping, a: Asset)
    requires DistinctPairs(m)
    ensures TotalPosition(Add(m, a)) == TotalPosition(m) + a.position
    ensures TotalWeight(Add(m, a)) == TotalWeight(m) + a.weight
  {
    var c := a.assetClass;
    if HasKey(m, c) {
      IncrementTotals(m, c, a.position, a.weight);
    } else {
      TotalsAppend(m, (c, Totals(0.0, 0.0)));
      var m' := m + [(c, Totals(0.0, 0.0))];
      GetAppend(m, c, Totals(0.0, 0.0), c);
      HasKeyIndex(m, c);
      assert forall i :: 0 <= i < |m| ==> m'[i] == m[i];
      IncrementTotals(m', c, a.position, a.weight);
    }
  }

  /** Lines 60-61 conserve the totals: the grouping holds the same total position and weight as the assets. */
  lemma {:induction false} MapAssetsConserves(assets: seq<Asset>)
    ensures TotalPosition(MapAssets(assets)) == AssetPosition(assets)
    ensures TotalWeight(MapAssets(assets)) == AssetWeight(assets)
    decreases |assets|
  {
    if |assets| > 0 {
      var front := assets[..|assets| - 1];
      var a := assets[|assets| - 1];
      var m := MapAssets(front);
      assert MapAssets(assets) == Add(m, a);
      MapAssetsConserves(front);
      MapAssetsKeys(front);
      AddTotals(m, a);
    }
  }

  /** A grouping validates exactly when there were assets and their weights add up to 1 within 0.01. */
  lemma MappedValidates(assets: seq<Asset>)
    ensures |MapAssets(assets)| > 0 && Abs(TotalWeight(MapAssets(assets)) - 1.0) <= 0.01 <==>
      |assets| > 0 && Abs(AssetWeight(assets) - 1.0) <= 0.01
  {
    MapAssetsEmpty(assets);
    MapAssetsWeightClose(assets);
  }

  /** The grouping's weights are within 0.01 of 1 exactly when the assets' weights are. */
  lemma MapAssetsWeightClose(assets: seq<Asset>)
    ensures Abs(TotalWeight(MapAssets(assets)) - 1.0) <= 0.01 <==> Abs(AssetWeight(assets) - 1.0) <= 0.01
  {
    MapAssetsConserves(assets);
  }

  /** The grouping is empty exactly when there are no assets. */
  lemma MapAssetsEmpty(assets: seq<Asset>)
    ensures |MapAssets(assets)| == 0 <==> |assets| == 0
  {
    if |assets| > 0 {
      var m := MapAssets(assets[..|assets| - 1]);
      if HasKey(m, assets[|assets| - 1].assetClass) {
        assert |m| > 0;
      }
    }
  }

  /** A class not yet in the dictionary is appended with the asset's own position and weight. */
  lemma AddFresh(m: Grouping, a: Asset)
    requires forall i :: 0 <= i < |m| ==> m[i].0 != a.assetClass
    ensures Add(m, a) == m + [(a.assetClass, Totals(0.0 + a.position, 0.0 + a.weight))]
  {
    HasKeyIndex(m, a.assetClass);
  }

  /** The first asset of the sample opens the dictionary. */
  lemma SampleFirstClass()
    ensures MapAssets(SampleAssets[..1]) == [("Equity", Totals(100000.0, 0.5))]
  {
    assert SampleAssets[..1][..0] == [];
    AddFresh([], SampleAssets[0]);
  }

  /** The second asset of the sample is of a new class and is appended. */
  lemma SampleSecondClass()
    ensures MapAssets(SampleAssets[..2]) == [("Equity", Totals(100000.0, 0.5)), ("Fixed Income", Totals(50000.0, 0.25))]
  {
    SampleFirstClass();
    assert SampleAssets[..2][..1] == SampleAssets[..1];
    AddFresh([("Equity", Totals(100000.0, 0.5))], SampleAssets[1]);
  }

  /** The sample groups into its three classes in order, each holding its one asset. */
  lemma SampleGroups()
    ensures MapAssets(SampleAssets) == [
      ("Equity", Totals(100000.0, 0.5)),
      ("Fixed Income", Totals(50000.0, 0.25)),
      ("Commodities", Totals(50000.0, 0.25))]
  {
    SampleSecondClass();
    assert SampleAssets[..3][..2] == SampleAssets[..2] && SampleAssets[..3] == SampleAssets;
    AddFresh([("Equity", Totals(100000.0, 0.5)), ("Fixed Income", Totals(50000.0, 0.25))], SampleAssets[2]);
  }

  /** The sample's weights add up to exactly 1. */
  lemma SampleWeight()
    ensures AssetWeight(SampleAssets) == 1.0
  {
    var s := SampleAssets;
    assert s[..1][..0] == [] && s[..2][..1] == s[..1] && s[..3][..2] == s[..2] && s[..3] == s;
    assert AssetWeight(s[..1]) == 0.5;
    assert AssetWeight(s[..2]) == 0.75;
  }

  /** The sample validates. */
  lemma SampleValidates()
    ensures Validated(Some(MapAssets(SampleAssets)))
  {
    SampleWeight();
    MappedValidates(SampleAssets);
  }

  class PortfolioDataAgent {
    var encryptedPortfolioData: Option<seq<Asset>>
    var decryptedPortfolioData: Option<seq<Asset>>
    var mappedPortfolioData: Option<Grouping>

    /** The three attributes start as None (lines 7-9). */
    constructor()
      ensures encryptedPortfolioData == None && decryptedPortfolioData == None && mappedPortfolioData == None
    {
      encryptedPortfolioData := None;
      decryptedPortfolioData := None;
      mappedPortfolioData := None;
    }

    /** Lines 30-40: stores the sample portfolio, encrypted. */
    method RetrievePortfolioData()
      modifies this
      ensures encryptedPortfolioData == Some(SampleAssets)
      ensures decryptedPortfolioData == old(decryptedPortfolioData) && mappedPortfolioData == old(mappedPortfolioData)
    {
      encryptedPortfolioData := Some(SampleAssets);
    }

    /** Lines 42-49: nothing happens without encrypted data; otherwise the decryption is stored. */
    method DecryptPortfolioData()
      modifies this
      ensures decryptedPortfolioData == if old(encryptedPortfolioData).None? then old(decryptedPortfolioData) else old(encryptedPortfolioData)
      ensures encryptedPortfolioData == old(encryptedPortfolioData) && mappedPortfolioData == old(mappedPortfolioData)
    {
      if encryptedPortfolioData.None? {
        return;
      }
      decryptedPortfolioData := encryptedPortfolioData;
    }

    /** `map_portfolio_data`: None, and nothing changed, without decrypted data; otherwise the grouping, also stored. */
    method MapPortfolioData() returns (r: Option<Grouping>)
      modifies this
      ensures old(decryptedPortfolioData).None? ==> r.None? && mappedPortfolioData == old(mappedPortfolioData)
      ensures old(decryptedPortfolioData).Some? ==> r == Some(MapAssets(old(decryptedPortfolioData).value)) && mappedPortfolioData == r
      ensures encryptedPortfolioData == old(encryptedPortfolioData) && decryptedPortfolioData == old(decryptedPortfolioData)
    {
      if decryptedPortfolioData.None? {
        return None;
      }
      var assets := decryptedPortfolioData.value;
      var mapped: Grouping := [];
      for i := 0 to |assets|
        invariant mapped == MapAssets(assets[..i])
      {
        assert assets[..i + 1][..i] == assets[..i];
        var assetClass := assets[i].assetClass;
        if !HasKey(mapped, assetClass) {
          mapped := mapped + [(assetClass, Totals(0.0, 0.0))];
        }
        mapped := Increment(mapped, assetClass, assets[i].position, assets[i].weight);
      }
      assert assets[..|assets|] == assets;
      mappedPortfolioData := Some(mapped);
      return Some(mapped);
    }

    /** `validate_mapped_data`: the weights are summed by a loop and compared with 1 within 0.01. */
    method ValidateMappedData() returns (ok: bool)
      ensures ok <==> Validated(mappedPortfolioData)
    {
      if mappedPortfolioData.None? || |mappedPortfolioData.value| == 0 {
        return false;
      }
      var m := mappedPortfolioData.value;
      var totalWeight := 0.0;
      for i := 0 to |m|
        invariant totalWeight == TotalWeight(m[..i])
      {
        assert m[..i + 1][..i] == m[..i];
        totalWeight := totalWeight + m[i].1.totalWeight;
      }
      assert m[..|m|] == m;
      if Abs(totalWeight - 1.0) > 0.01 {
        return false;
      }
      return true;
    }

    /** `setup` without the message to the simulation agent: the sample is grouped by class and validates. */
    method Setup() returns (ok: bool)
      modifies this
      ensures mappedPortfolioData == Some(MapAssets(SampleAssets))
      ensures ok
    {
      RetrievePortfolioData();
      DecryptPortfolioData();
      var _ := MapPortfolioData();
      ok := ValidateMappedData();
      SampleValidates();
    }
  }
}
