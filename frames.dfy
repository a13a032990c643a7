/**
 * pandas DataFrames reduced to what the modelled code uses: a row index and named columns of
 * floats. `Table` is a frame as a value; `DataFrame` is a frame that code updates in place.
 */
module Frames {
  import opened Wrappers
  import opened Dates
  import opened Numbers

  /** A row index: timestamps (a DatetimeIndex) or any other kind, of which only the length matters. */
  datatype Index = DatetimeIndex(stamps: seq<Moment>) | OtherIndex(length: nat)

  /** The label of one row: its timestamp or its position. */
  datatype Label = At(moment: Moment) | Row(position: nat)

  function Length(index: Index): nat
  {
    match index
    case DatetimeIndex(stamps) => |stamps|
    case OtherIndex(n) => n
  }

  function LabelAt(index: Index, i: nat): Label
    requires i < Length(index)
  {
    match index
    case DatetimeIndex(stamps) => At(stamps[i])
    case OtherIndex(_) => Row(i)
  }

  datatype Table = Table(index: Index, columns: map<string, seq<real>>)

  /** Every column has one value per row. */
  predicate Aligned(t: Table)
  {
    forall c :: c in t.columns ==> |t.columns[c]| == Length(t.index)
  }

  /** `t[name]`: the column, or KeyError. */
  function Column(t: Table, name: string): (r: Result<seq<real>>)
    ensures r.Ok? <==> name in t.columns
    ensures r.Ok? ==> r.value == t.columns[name]
    ensures r.Err? ==> r.error == KeyError(name)
  {
    if name in t.columns then Ok(t.columns[name]) else Err(KeyError(name))
  }

  function HeadIndex(index: Index, k: nat): (r: Index)
    ensures Length(r) == if k <= Length(index) then k else Length(index)
  {
    match index
    case DatetimeIndex(stamps) => DatetimeIndex(if k <= |stamps| then stamps[..k] else stamps)
    case OtherIndex(n) => OtherIndex(if k <= n then k else n)
  }

  /** `series.iloc[-1]`: the last value, or IndexError for an empty series. */
  function LastValue<T>(s: seq<T>): (r: Result<T>)
    ensures r.Err? <==> |s| == 0
    ensures r.Err? ==> r.error == IndexError
    ensures r.Ok? ==> r.value == s[|s| - 1]
  {
    if |s| == 0 then Err(IndexError) else Ok(s[|s| - 1])
  }

  /** `t.iloc[:k]`: the first k rows. */
  function Head(t: Table, k: nat): (r: Table)
    ensures r.columns.Keys == t.columns.Keys
    ensures forall c :: c in t.columns ==> r.columns[c] == if k <= |t.columns[c]| then t.columns[c][..k] else t.columns[c]
  {
    Table(HeadIndex(t.index, k), map c | c in t.columns :: if k <= |t.columns[c]| then t.columns[c][..k] else t.columns[c])
  }

  /** A frame of indicator values, which may be NaN. */
  datatype NumTable = NumTable(index: Index, columns: map<string, seq<Num>>)

  /** A frame whose columns code assigns in place (`df[name] = values`). */
  class DataFrame {
    var index: Index
    var columns: map<string, seq<real>>

    constructor (t: Table)
      ensures index == t.index && columns == t.columns
    {
      index := t.index;
      columns := t.columns;
    }

    function Value(): Table
      reads this
    {
      Table(index, columns)
    }

    /** `self[name] = values`: adds the column or overwrites it. */
    method Assign(name: string, values: seq<real>)
      modifies this
      ensures columns == old(columns)[name := values]
      ensures index == old(index)
    {
      columns := columns[name := values];
    }
  }
}
