/** On-Balance Volume: a running total of the taker-buy volume, added on
    rows where the close rose and subtracted where it fell, written into
    the `obv` column of a data frame; and the decider that compares the
    last two totals. */
module Obv {
  import opened Results
  import opened Signals

  const CloseColumn: string := "close"
  const VolumeColumn: string := "taker_buy_base_asset_volume"
  const ObvColumn: string := "obv"

  /** `rows` zeros: the column `df['obv'] = 0` creates. */
  function Zeros(rows: nat): (z: seq<real>)
    ensures |z| == rows
    ensures forall i :: 0 <= i < rows ==> z[i] == 0.0
  {
    seq(rows, _ => 0.0)
  }

  /** The change a row contributes: the row's volume when its close is
      above the previous close, minus it when below, 0 otherwise and on
      the first row, which has no previous close. */
  function SignedVolume(close: seq<real>, volume: seq<real>, i: nat): real
    requires |close| == |volume|
    requires i < |close|
  {
    if i > 0 && close[i] > close[i - 1] then volume[i]
    else if i > 0 && close[i] < close[i - 1] then -volume[i]
    else 0.0
  }

  /** What the first masked assignment leaves in a row: the volume where
      the close rose, 0 elsewhere. */
  function RiseVolume(close: seq<real>, volume: seq<real>, i: nat): real
    requires |close| == |volume|
    requires i < |close|
  {
    if i > 0 && close[i] > close[i - 1] then volume[i] else 0.0
  }

  /** The running total up to and including row i. */
  function ObvAt(close: seq<real>, volume: seq<real>, i: nat): real
    requires |close| == |volume|
    requires i < |close|
  {
    if i == 0 then SignedVolume(close, volume, 0)
    else ObvAt(close, volume, i - 1) + SignedVolume(close, volume, i)
  }

  /** The whole `obv` column. */
  function ObvSeries(close: seq<real>, volume: seq<real>): (obv: seq<real>)
    requires |close| == |volume|
    ensures |obv| == |close|
    ensures forall i :: 0 <= i < |close| ==> obv[i] == ObvAt(close, volume, i)
  {
    seq(|close|, i requires 0 <= i < |close| => ObvAt(close, volume, i))
  }

  /** The first total is 0, and each later total differs from the one
      before by the row's volume, signed by the direction of the close. */
  lemma ObvSteps(close: seq<real>, volume: seq<real>, i: nat)
    requires |close| == |volume|
    requires 0 < i < |close|
    ensures ObvAt(close, volume, 0) == 0.0
    ensures close[i] > close[i - 1] ==> ObvAt(close, volume, i) - ObvAt(close, volume, i - 1) == volume[i]
    ensures close[i] < close[i - 1] ==> ObvAt(close, volume, i) - ObvAt(close, volume, i - 1) == -volume[i]
    ensures close[i] == close[i - 1] ==> ObvAt(close, volume, i) == ObvAt(close, volume, i - 1)
  {
  }

  /** Constant closes leave every total at 0. */
  lemma {:induction false} ConstantClosesZero(close: seq<real>, volume: seq<real>, i: nat)
    requires |close| == |volume|
    requires i < |close|
    requires forall k :: 0 <= k < |close| ==> close[k] == close[0]
    ensures ObvAt(close, volume, i) == 0.0
  {
    if i > 0 {
      ConstantClosesZero(close, volume, i - 1);
    }
  }

  /** With non-negative volumes and closes that never fall, the totals
      never fall. */
  lemma {:induction false} NonDecreasing(close: seq<real>, volume: seq<real>, i: nat, j: nat)
    requires |close| == |volume|
    requires i <= j < |close|
    requires forall k :: 0 <= k < |volume| ==> volume[k] >= 0.0
    requires forall k :: 0 < k < |close| ==> close[k - 1] <= close[k]
    ensures ObvAt(close, volume, i) <= ObvAt(close, volume, j)
  {
    if i < j {
      NonDecreasing(close, volume, i, j - 1);
      assert SignedVolume(close, volume, j) >= 0.0;
    }
  }

  /** `df.loc[df['close'] > df['close'].shift(1), 'obv'] = volume` on a
      zero column: rows whose close rose take their volume. The first
      row's shifted close is missing, so its comparison is false. */
  method MarkRises(close: seq<real>, volume: seq<real>, cells: array<real>)
    requires |close| == |volume| == cells.Length
    requires forall k :: 0 <= k < cells.Length ==> cells[k] == 0.0
    modifies cells
    ensures forall k :: 0 <= k < cells.Length ==> cells[k] == RiseVolume(close, volume, k)
  {
    var i := 0;
    while i < cells.Length
      invariant 0 <= i <= cells.Length
      invariant forall k :: 0 <= k < i ==> cells[k] == RiseVolume(close, volume, k)
      invariant forall k :: i <= k < cells.Length ==> cells[k] == 0.0
    {
      if i > 0 && close[i] > close[i - 1] {
        cells[i] := volume[i];
      }
      i := i + 1;
    }
  }

  /** `df.loc[df['close'] < df['close'].shift(1), 'obv'] = -volume`:
      rows whose close fell take their negated volume. */
  method MarkFalls(close: seq<real>, volume: seq<real>, cells: array<real>)
    requires |close| == |volume| == cells.Length
    requires forall k :: 0 <= k < cells.Length ==> cells[k] == RiseVolume(close, volume, k)
    modifies cells
    ensures forall k :: 0 <= k < cells.Length ==> cells[k] == SignedVolume(close, volume, k)
  {
    var i := 0;
    while i < cells.Length
      invariant 0 <= i <= cells.Length
      invariant forall k :: 0 <= k < i ==> cells[k] == SignedVolume(close, volume, k)
      invariant forall k :: i <= k < cells.Length ==> cells[k] == RiseVolume(close, volume, k)
    {
      if i > 0 && close[i] < close[i - 1] {
        cells[i] := -volume[i];
      }
      i := i + 1;
    }
  }

  /** `df['obv'].cumsum()`, in place: each row's signed volume becomes the
      running total up to that row. */
  method Accumulate(close: seq<real>, volume: seq<real>, cells: array<real>)
    requires |close| == |volume| == cells.Length
    requires forall k :: 0 <= k < cells.Length ==> cells[k] == SignedVolume(close, volume, k)
    modifies cells
    ensures forall k :: 0 <= k < cells.Length ==> cells[k] == ObvAt(close, volume, k)
  {
    var total := 0.0;
    var i := 0;
    while i < cells.Length
      invariant 0 <= i <= cells.Length
      invariant total == if i == 0 then 0.0 else ObvAt(close, volume, i - 1)
      invariant forall k :: 0 <= k < i ==> cells[k] == ObvAt(close, volume, k)
      invariant forall k :: i <= k < cells.Length ==> cells[k] == SignedVolume(close, volume, k)
    {
      total := total + cells[i];
      cells[i] := total;
      i := i + 1;
    }
  }

  /** The `obv` column `calculate_obv` computes once both columns are
      present: a zero column, the two masked assignments, then the
      cumulative sum. */
  method RunningTotals(close: seq<real>, volume: seq<real>) returns (obv: seq<real>)
    requires |close| == |volume|
    ensures obv == ObvSeries(close, volume)
  {
    var cells := new real[|close|](_ => 0.0);
    MarkRises(close, volume, cells);
    MarkFalls(close, volume, cells);
    Accumulate(close, volume, cells);
    obv := cells[..];
  }

  /** A pandas data frame: named columns, each `rows` long. */
  class Frame {
    var rows: nat
    var columns: map<string, seq<real>>

    predicate Valid()
      reads this
    {
      forall name :: name in columns ==> |columns[name]| == rows
    }

    constructor (rows: nat, columns: map<string, seq<real>>)
      requires forall name :: name in columns ==> |columns[name]| == rows
      ensures Valid()
      ensures this.rows == rows && this.columns == columns
    {
      this.rows := rows;
      this.columns := columns;
    }

    /** `calculate_obv`. The `obv` column is reset to zeros first; a
        missing volume column, which the first masked assignment reads
        before its mask, then raises KeyError, as does a missing `close`
        column. Otherwise the masked assignments and the cumulative sum
        leave the running totals in `obv`, which is also returned. No
        other column changes. */
    method CalculateObv() returns (r: Result<seq<real>>)
      requires Valid()
      modifies this
      ensures Valid()
      ensures rows == old(rows)
      ensures r.Ok? <==> VolumeColumn in old(columns) && CloseColumn in old(columns)
      ensures VolumeColumn !in old(columns) ==> r == Fail(MissingKey(VolumeColumn))
      ensures VolumeColumn in old(columns) && CloseColumn !in old(columns) ==> r == Fail(MissingKey(CloseColumn))
      ensures r.Fail? ==> columns == old(columns)[ObvColumn := Zeros(rows)]
      ensures r.Ok? ==>
        r.value == ObvSeries(old(columns)[CloseColumn], old(columns)[VolumeColumn]) &&
        columns == old(columns)[ObvColumn := r.value]
    {
      columns := columns[ObvColumn := Zeros(rows)];
      if VolumeColumn !in columns {
        return Fail(MissingKey(VolumeColumn));
      }
      if CloseColumn !in columns {
        return Fail(MissingKey(CloseColumn));
      }
      var close := columns[CloseColumn];
      var volume := columns[VolumeColumn];
      assert |close| == rows && |volume| == rows;
      var obv := RunningTotals(close, volume);
      r := Ok(obv);
      columns := columns[ObvColumn := obv];
    }
  }

  /** `decide_buy_sell_hold_signals`: the last total against the one
      before; fewer than two totals fail at `iloc[-2]`. */
  function Decide(obv: seq<real>): (r: Result<Signal>)
    ensures r.Fail? <==> |obv| < 2
    ensures r.Fail? ==> r.error == IndexOutOfRange
    ensures r.Ok? ==>
      var n := |obv|;
      (r.value == Buy <==> obv[n - 1] > obv[n - 2]) &&
      (r.value == Sell <==> obv[n - 1] < obv[n - 2]) &&
      (r.value == Hold <==> obv[n - 1] == obv[n - 2])
  {
    if |obv| < 2 then Fail(IndexOutOfRange)
    else if obv[|obv| - 1] > obv[|obv| - 2] then Ok(Buy)
    else if obv[|obv| - 1] < obv[|obv| - 2] then Ok(Sell)
    else Ok(Hold)
  }

  /** Constant closes never give a buy or sell. */
  lemma ConstantClosesHold(close: seq<real>, volume: seq<real>)
    requires |close| == |volume| >= 2
    requires forall k :: 0 <= k < |close| ==> close[k] == close[0]
    ensures Decide(ObvSeries(close, volume)) == Ok(Hold)
  {
    ConstantClosesZero(close, volume, |close| - 1);
    ConstantClosesZero(close, volume, |close| - 2);
  }
}
