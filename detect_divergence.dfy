/**
 * The divergence detector of `src/Indicators/detect_divergence.py`. A bullish divergence is a row
 * where the close falls while the indicator rises; a bearish one is a row where the close rises
 * while the indicator falls. Each detector returns the index labels of those rows, in row order.
 */
module DetectDivergence {
  import opened Wrappers
  import opened Numbers
  import opened Frames

  datatype Kind = Bullish | Bearish

  /** The price half of the condition, tested first. */
  predicate PriceMoves(kind: Kind, close: seq<real>, i: int)
    requires 1 <= i < |close|
  {
    match kind
    case Bullish => close[i] < close[i - 1]
    case Bearish => close[i] > close[i - 1]
  }

  /** The indicator half, evaluated only when the price half holds. */
  predicate IndicatorMoves(kind: Kind, ind: seq<Num>, i: int)
    requires 1 <= i < |ind|
  {
    match kind
    case Bullish => Gt(ind[i], ind[i - 1])
    case Bearish => Lt(ind[i], ind[i - 1])
  }

  /**
   * The loop over rows 1 .. n-1: the rows found so far, or the IndexError raised when the price
   * condition holds at a row the indicator or the price index has no entry for.
   */
  function Scan(kind: Kind, close: seq<real>, ind: seq<Num>, rows: nat, n: nat): Result<seq<nat>>
    requires n <= |close|
    decreases n
  {
    if n <= 1 then Ok([])
    else
      match Scan(kind, close, ind, rows, n - 1)
      case Err(e) => Err(e)
      case Ok(found) =>
        var i := n - 1;
        if !PriceMoves(kind, close, i) then Ok(found)
        else if i >= |ind| then Err(IndexError)
        else if !IndicatorMoves(kind, ind, i) then Ok(found)
        else if i >= rows then Err(IndexError)
        else Ok(found + [i])
  }

  /** The row is a divergence of the given kind. */
  predicate Diverges(kind: Kind, close: seq<real>, ind: seq<Num>, i: int)
  {
    1 <= i < |close| && PriceMoves(kind, close, i) && i < |ind| && IndicatorMoves(kind, ind, i)
  }

  /** The scan raises exactly when some row it reaches lacks the entries its condition reads. */
  predicate Faults(kind: Kind, close: seq<real>, ind: seq<Num>, rows: nat, n: nat)
    requires n <= |close|
  {
    exists i :: 1 <= i < n && PriceMoves(kind, close, i) && (i >= |ind| || (IndicatorMoves(kind, ind, i) && i >= rows))
  }

  /**
   * The scan finds exactly the divergent rows, in increasing order, unless it faults.
   */
  lemma {:induction false} ScanFindsDivergences(kind: Kind, close: seq<real>, ind: seq<Num>, rows: nat, n: nat)
    requires n <= |close|
    ensures Scan(kind, close, ind, rows, n).Err? <==> Faults(kind, close, ind, rows, n)
    ensures Scan(kind, close, ind, rows, n).Err? ==> Scan(kind, close, ind, rows, n).error == IndexError
    ensures var r := Scan(kind, close, ind, rows, n); r.Ok? ==>
      (forall k: int :: k in r.value <==> k < n && Diverges(kind, close, ind, k)) &&
      (forall a, b :: 0 <= a < b < |r.value| ==> r.value[a] < r.value[b]) &&
      (forall a :: 0 <= a < |r.value| ==> r.value[a] < rows)
    decreases n
  {
    ScanFaults(kind, close, ind, rows, n);
    ScanFinds(kind, close, ind, rows, n);
  }

  /** The fault half of `ScanFindsDivergences`. */
  lemma {:induction false} ScanFaults(kind: Kind, close: seq<real>, ind: seq<Num>, rows: nat, n: nat)
    requires n <= |close|
    ensures Scan(kind, close, ind, rows, n).Err? <==> Faults(kind, close, ind, rows, n)
    ensures Scan(kind, close, ind, rows, n).Err? ==> Scan(kind, close, ind, rows, n).error == IndexError
    decreases n
  {
    if n > 1 {
      ScanFaults(kind, close, ind, rows, n - 1);
      if Faults(kind, close, ind, rows, n - 1) {
        assert Faults(kind, close, ind, rows, n) by {
          var j :| 1 <= j < n - 1 && PriceMoves(kind, close, j) && (j >= |ind| || (IndicatorMoves(kind, ind, j) && j >= rows));
        }
      } else if Faults(kind, close, ind, rows, n) {
        var j :| 1 <= j < n && PriceMoves(kind, close, j) && (j >= |ind| || (IndicatorMoves(kind, ind, j) && j >= rows));
        assert j == n - 1;
      }
    }
  }

  /** The result half of `ScanFindsDivergences`. */
  lemma {:induction false} ScanFinds(kind: Kind, close: seq<real>, ind: seq<Num>, rows: nat, n: nat)
    requires n <= |close|
    ensures var r := Scan(kind, close, ind, rows, n); r.Ok? ==>
      (forall k: int :: k in r.value <==> k < n && Diverges(kind, close, ind, k)) &&
      (forall a, b :: 0 <= a < b < |r.value| ==> r.value[a] < r.value[b]) &&
      (forall a :: 0 <= a < |r.value| ==> r.value[a] < rows)
    decreases n
  {
    if n > 1 {
      ScanFinds(kind, close, ind, rows, n - 1);
      var prev := Scan(kind, close, ind, rows, n - 1);
      if prev.Ok? {
        assert forall a :: 0 <= a < |prev.value| ==> prev.value[a] in prev.value;
        assert forall a :: 0 <= a < |prev.value| ==> prev.value[a] < n - 1;
      }
    }
  }

  /** Once the scan has raised, scanning further rows does not change that. */
  lemma {:induction false} ScanErrorPersists(kind: Kind, close: seq<real>, ind: seq<Num>, rows: nat, n: nat, m: nat)
    requires n <= m <= |close|
    requires Scan(kind, close, ind, rows, n) == Err(IndexError)
    ensures Scan(kind, close, ind, rows, m) == Err(IndexError)
    decreases m - n
  {
    if n < m {
      assert Scan(kind, close, ind, rows, n + 1) == Err(IndexError);
      ScanErrorPersists(kind, close, ind, rows, n + 1, m);
    }
  }

  /** No row is both a bullish and a bearish divergence. */
  lemma KindsAreDisjoint(close: seq<real>, ind: seq<Num>, rows: nat)
    requires Scan(Bullish, close, ind, rows, |close|).Ok? && Scan(Bearish, close, ind, rows, |close|).Ok?
    ensures forall k :: k in Scan(Bullish, close, ind, rows, |close|).value ==> k !in Scan(Bearish, close, ind, rows, |close|).value
  {
    ScanFindsDivergences(Bullish, close, ind, rows, |close|);
    ScanFindsDivergences(Bearish, close, ind, rows, |close|);
  }

  function LabelsAt(index: Index, rows: seq<nat>): (r: seq<Label>)
    requires forall a :: 0 <= a < |rows| ==> rows[a] < Length(index)
    ensures |r| == |rows| && forall a :: 0 <= a < |rows| ==> r[a] == LabelAt(index, rows[a])
  {
    seq(|rows|, a requires 0 <= a < |rows| => LabelAt(index, rows[a]))
  }

  class DivergenceDetector {
    const priceData: Table
    const indicatorData: NumTable
    const indicatorName: string

    constructor (priceData: Table, indicatorData: NumTable, indicatorName: string)
      ensures this.priceData == priceData && this.indicatorData == indicatorData
      ensures this.indicatorName == indicatorName
    {
      this.priceData := priceData;
      this.indicatorData := indicatorData;
      this.indicatorName := indicatorName;
    }

    /** What a detection of the given kind returns: the divergent rows' labels, or the exception. */
    function Expected(kind: Kind): Result<seq<Label>>
    {
      if "Close" !in priceData.columns then Err(KeyError("Close"))
      else if indicatorName !in indicatorData.columns then Err(KeyError(indicatorName))
      else
        var close, ind := priceData.columns["Close"], indicatorData.columns[indicatorName];
        var rows := Length(priceData.index);
        match Scan(kind, close, ind, rows, |close|)
        case Err(e) => Err(e)
        case Ok(found) =>
          ScanFindsDivergences(kind, close, ind, rows, |close|);
          Ok(LabelsAt(priceData.index, found))
    }

    method Detect(kind: Kind) returns (r: Result<seq<Label>>)
      ensures r == Expected(kind)
    {
      if "Close" !in priceData.columns {
        return Err(KeyError("Close"));
      }
      if indicatorName !in indicatorData.columns {
        return Err(KeyError(indicatorName));
      }
      var close, ind := priceData.columns["Close"], indicatorData.columns[indicatorName];
      var rows := Length(priceData.index);
      if |close| == 0 {
        return Ok([]);
      }
      ghost var found: seq<nat> := [];
      var signals: seq<Label> := [];
      var i := 1;
      while i < |close|
        invariant 1 <= i <= |close|
        invariant Scan(kind, close, ind, rows, i) == Ok(found)
        invariant forall a :: 0 <= a < |found| ==> found[a] < rows
        invariant signals == LabelsAt(priceData.index, found)
      {
        if PriceMoves(kind, close, i) {
          if i >= |ind| {
            ScanErrorPersists(kind, close, ind, rows, i + 1, |close|);
            return Err(IndexError);
          }
          if IndicatorMoves(kind, ind, i) {
            if i >= rows {
              ScanErrorPersists(kind, close, ind, rows, i + 1, |close|);
              return Err(IndexError);
            }
            signals := signals + [LabelAt(priceData.index, i)];
            found := found + [i];
          }
        }
        i := i + 1;
      }
      return Ok(signals);
    }

    /** `detect_bullish_divergence()`. */
    method DetectBullishDivergence() returns (r: Result<seq<Label>>)
      ensures r == Expected(Bullish)
    {
      r := Detect(Bullish);
    }

    /** `detect_bearish_divergence()`. */
    method DetectBearishDivergence() returns (r: Result<seq<Label>>)
      ensures r == Expected(Bearish)
    {
      r := Detect(Bearish);
    }
  }

  /** The series of the divergence unit tests: closes and MACD values with one bullish and two bearish rows. */
  lemma ExampleSeries()
    ensures var close := [100.0, 102.0, 101.0, 103.0, 105.0, 104.0, 106.0, 108.0];
      var macd := [Some(0.5), Some(0.6), Some(0.4), Some(0.7), Some(0.5), Some(0.8), Some(0.3), Some(0.9)];
      Scan(Bullish, close, macd, 8, 8) == Ok([5]) && Scan(Bearish, close, macd, 8, 8) == Ok([4, 6])
  {
    var close := [100.0, 102.0, 101.0, 103.0, 105.0, 104.0, 106.0, 108.0];
    var macd := [Some(0.5), Some(0.6), Some(0.4), Some(0.7), Some(0.5), Some(0.8), Some(0.3), Some(0.9)];
    assert Scan(Bullish, close, macd, 8, 2) == Ok([]);
    assert Scan(Bullish, close, macd, 8, 3) == Ok([]);
    assert Scan(Bullish, close, macd, 8, 4) == Ok([]);
    assert Scan(Bullish, close, macd, 8, 5) == Ok([]);
    assert [] + [5] == [5];
    assert Scan(Bullish, close, macd, 8, 6) == Ok([5]);
    assert Scan(Bullish, close, macd, 8, 7) == Ok([5]);
    assert Scan(Bearish, close, macd, 8, 2) == Ok([]);
    assert Scan(Bearish, close, macd, 8, 3) == Ok([]);
    assert Scan(Bearish, close, macd, 8, 4) == Ok([]);
    assert [] + [4] == [4];
    assert Scan(Bearish, close, macd, 8, 5) == Ok([4]);
    assert Scan(Bearish, close, macd, 8, 6) == Ok([4]);
    assert [4] + [6] == [4, 6];
    assert Scan(Bearish, close, macd, 8, 7) == Ok([4, 6]);
  }
}
