/** The rescalings of helperfuncs.py. standardize_data and normalize_data
    overwrite, in place, every column of a 2-D float array from `column` on
    (the slice data[:, column:]) and return that same array; the columns before
    `column` (the data set's leading columns) are left as they are. */
module Preprocessing {
  import opened Base

  /** The contents of a 2-D array, row by row. */
  function Rows(a: array2<real>): (m: seq<seq<real>>)
    reads a
    ensures |m| == a.Length0
    ensures forall i :: 0 <= i < a.Length0 ==> |m[i]| == a.Length1
    ensures forall i, j :: 0 <= i < a.Length0 && 0 <= j < a.Length1 ==> m[i][j] == a[i, j]
  {
    seq(a.Length0, i requires 0 <= i < a.Length0 reads a =>
      seq(a.Length1, j requires 0 <= j < a.Length1 reads a => a[i, j]))
  }

  /** The array after data[:, first:] = (data[:, first:] - offset) / scale,
      where the row vector `offset` is broadcast over every row: the entries
      left of `first` are unchanged. */
  function Rescaled(m: seq<seq<real>>, width: nat, first: nat, offset: seq<real>, scale: real): (n: seq<seq<real>>)
    requires Rectangular(m, width) && |offset| == width && scale != 0.0
    ensures |n| == |m| && Rectangular(n, width)
    ensures forall i, j :: 0 <= i < |m| && 0 <= j < width ==>
      n[i][j] == if first <= j then (m[i][j] - offset[j]) / scale else m[i][j]
  {
    seq(|m|, i requires 0 <= i < |m| =>
      seq(width, j requires 0 <= j < width =>
        if first <= j then (m[i][j] - offset[j]) / scale else m[i][j]))
  }

  /** The entries of one row from column `column` on (empty past its end). */
  function Suffix(row: seq<real>, column: nat): seq<real> {
    if column <= |row| then row[column..] else []
  }

  /** The entries of data[:, column:], row after row. */
  function Block(m: seq<seq<real>>, column: nat): (b: seq<real>)
    ensures |m| > 0 && column < |m[|m| - 1]| ==> |b| > 0
  {
    if |m| == 0 then [] else Block(m[..|m| - 1], column) + Suffix(m[|m| - 1], column)
  }

  /** Every entry at or right of `column` belongs to the block. */
  lemma {:induction false} BlockContains(m: seq<seq<real>>, column: nat, i: nat, j: nat)
    requires i < |m| && column <= j < |m[i]|
    ensures m[i][j] in Block(m, column)
  {
    var last := |m| - 1;
    if i == last {
      assert Suffix(m[i], column)[j - column] == m[i][j];
    } else {
      BlockContains(m[..last], column, i, j);
      assert m[..last][i] == m[i];
    }
  }

  /** Every entry of the block is an entry at or right of `column`. */
  lemma {:induction false} BlockEntryOrigin(m: seq<seq<real>>, column: nat, k: nat) returns (i: nat, j: nat)
    requires k < |Block(m, column)|
    ensures i < |m| && column <= j < |m[i]| && m[i][j] == Block(m, column)[k]
  {
    var last := |m| - 1;
    var init := Block(m[..last], column);
    if k < |init| {
      i, j := BlockEntryOrigin(m[..last], column, k);
      assert m[..last][i] == m[i];
    } else {
      i, j := last, column + (k - |init|);
    }
  }

  /** The block is empty exactly when there are no rows or no columns from `column` on. */
  lemma {:induction false} BlockEmptyIff(m: seq<seq<real>>, column: nat, width: nat)
    requires Rectangular(m, width)
    ensures |Block(m, column)| == 0 <==> |m| == 0 || column >= width
  {
    if |m| > 0 {
      BlockEmptyIff(m[..|m| - 1], column, width);
    }
  }

  /** The smallest entry (np.min). */
  function SeqMin(s: seq<real>): real
    requires |s| > 0
  {
    if |s| == 1 then s[0]
    else
      var rest := SeqMin(s[..|s| - 1]);
      if s[|s| - 1] < rest then s[|s| - 1] else rest
  }

  /** The largest entry (np.max). */
  function SeqMax(s: seq<real>): real
    requires |s| > 0
  {
    if |s| == 1 then s[0]
    else
      var rest := SeqMax(s[..|s| - 1]);
      if s[|s| - 1] > rest then s[|s| - 1] else rest
  }

  /** SeqMin is an entry of the sequence and bounds it from below. */
  lemma {:induction false} SeqMinIsMinimum(s: seq<real>)
    requires |s| > 0
    ensures SeqMin(s) in s
    ensures forall k :: 0 <= k < |s| ==> SeqMin(s) <= s[k]
  {
    if |s| > 1 {
      var init := s[..|s| - 1];
      SeqMinIsMinimum(init);
      assert forall k :: 0 <= k < |init| ==> init[k] == s[k];
    }
  }

  /** SeqMax is an entry of the sequence and bounds it from above. */
  lemma {:induction false} SeqMaxIsMaximum(s: seq<real>)
    requires |s| > 0
    ensures SeqMax(s) in s
    ensures forall k :: 0 <= k < |s| ==> s[k] <= SeqMax(s)
  {
    if |s| > 1 {
      var init := s[..|s| - 1];
      SeqMaxIsMaximum(init);
      assert forall k :: 0 <= k < |init| ==> init[k] == s[k];
    }
  }

  /** np.min(data[:, column:]): one minimum over all the selected columns. */
  function BlockMin(m: seq<seq<real>>, column: nat): real
    requires |Block(m, column)| > 0
  {
    SeqMin(Block(m, column))
  }

  /** np.max(data[:, column:]): one maximum over all the selected columns. */
  function BlockMax(m: seq<seq<real>>, column: nat): real
    requires |Block(m, column)| > 0
  {
    SeqMax(Block(m, column))
  }

  /** The array after line 49 of helperfuncs.py: the selected entries mapped by
      (x - min) / (max - min), with one minimum and one maximum for the whole
      selection. */
  function Normalized(m: seq<seq<real>>, width: nat, column: nat): (n: seq<seq<real>>)
    requires Rectangular(m, width) && |Block(m, column)| > 0
    requires BlockMin(m, column) < BlockMax(m, column)
    ensures |n| == |m| && Rectangular(n, width)
    ensures var lo, hi := BlockMin(m, column), BlockMax(m, column);
      forall i, j :: 0 <= i < |m| && 0 <= j < width ==>
        n[i][j] == if column <= j then (m[i][j] - lo) / (hi - lo) else m[i][j]
  {
    var lo, hi := BlockMin(m, column), BlockMax(m, column);
    Rescaled(m, width, column, Constant(width, lo), hi - lo)
  }

  /** A row vector whose every entry is v. */
  function Constant(width: nat, v: real): (c: seq<real>)
    ensures |c| == width && forall j :: 0 <= j < width ==> c[j] == v
  {
    seq(width, _ => v)
  }

  /** One selected entry after normalizing lies in [0, 1]; it is 0 exactly
      when it was the block's minimum and 1 exactly when it was its maximum. */
  lemma NormalizedEntry(m: seq<seq<real>>, width: nat, column: nat, i: nat, j: nat)
    requires Rectangular(m, width) && |Block(m, column)| > 0
    requires BlockMin(m, column) < BlockMax(m, column)
    requires i < |m| && column <= j < width
    ensures var x, lo, hi := Normalized(m, width, column)[i][j], BlockMin(m, column), BlockMax(m, column);
      0.0 <= x <= 1.0 && (x == 0.0 <==> m[i][j] == lo) && (x == 1.0 <==> m[i][j] == hi)
  {
    NormalizedEntryValue(m, width, column, i, j);
    var lo, hi := BlockMin(m, column), BlockMax(m, column);
    assert lo <= m[i][j] <= hi by {
      var b := Block(m, column);
      BlockContains(m, column, i, j);
      SeqMinIsMinimum(b);
      SeqMaxIsMaximum(b);
    }
    UnitRescale(m[i][j], lo, hi);
  }

  /** The value of one selected entry after normalizing. */
  lemma NormalizedEntryValue(m: seq<seq<real>>, width: nat, column: nat, i: nat, j: nat)
    requires Rectangular(m, width) && |Block(m, column)| > 0
    requires BlockMin(m, column) < BlockMax(m, column)
    requires i < |m| && column <= j < width
    ensures Normalized(m, width, column)[i][j] ==
      (m[i][j] - BlockMin(m, column)) / (BlockMax(m, column) - BlockMin(m, column))
  {
  }

  /** Every rescaled entry lies in [0, 1]; it is 0 exactly where the block's
      minimum was and 1 exactly where its maximum was. */
  lemma NormalizedInUnitInterval(m: seq<seq<real>>, width: nat, column: nat)
    requires Rectangular(m, width) && |Block(m, column)| > 0
    requires BlockMin(m, column) < BlockMax(m, column)
    ensures var n, lo, hi := Normalized(m, width, column), BlockMin(m, column), BlockMax(m, column);
      forall i, j :: 0 <= i < |m| && column <= j < width ==>
        0.0 <= n[i][j] <= 1.0 &&
        (n[i][j] == 0.0 <==> m[i][j] == lo) &&
        (n[i][j] == 1.0 <==> m[i][j] == hi)
  {
    forall i: nat, j: nat | i < |m| && column <= j < width {
      NormalizedEntry(m, width, column, i, j);
    }
  }

  /** (x - lo) / (hi - lo) maps [lo, hi] onto [0, 1], lo to 0 and hi to 1. */
  lemma UnitRescale(x: real, lo: real, hi: real)
    requires lo <= x <= hi && lo < hi
    ensures 0.0 <= (x - lo) / (hi - lo) <= 1.0
    ensures (x - lo) / (hi - lo) == 0.0 <==> x == lo
    ensures (x - lo) / (hi - lo) == 1.0 <==> x == hi
  {
    var d := hi - lo;
    var y := (x - lo) / d;
    assert y * d == x - lo;
    if y == 1.0 {
      assert x - lo == d;
    }
    if x == hi {
      assert (y - 1.0) * d == 0.0;
    }
  }

  /** A value that occurs in a sequence and bounds it from below is its minimum. */
  lemma IsSeqMin(s: seq<real>, x: real)
    requires x in s && forall k :: 0 <= k < |s| ==> x <= s[k]
    ensures SeqMin(s) == x
  {
    SeqMinIsMinimum(s);
  }

  /** A value that occurs in a sequence and bounds it from above is its maximum. */
  lemma IsSeqMax(s: seq<real>, x: real)
    requires x in s && forall k :: 0 <= k < |s| ==> s[k] <= x
    ensures SeqMax(s) == x
  {
    SeqMaxIsMaximum(s);
  }

  /** After normalizing, the selected columns have minimum 0 and maximum 1. */
  lemma NormalizedExtremes(m: seq<seq<real>>, width: nat, column: nat)
    requires Rectangular(m, width) && |Block(m, column)| > 0
    requires BlockMin(m, column) < BlockMax(m, column)
    ensures |Block(Normalized(m, width, column), column)| > 0
    ensures BlockMin(Normalized(m, width, column), column) == 0.0
    ensures BlockMax(Normalized(m, width, column), column) == 1.0
  {
    var n := Normalized(m, width, column);
    NormalizedInUnitInterval(m, width, column);
    var b := Block(m, column);
    SeqMinIsMinimum(b);
    SeqMaxIsMaximum(b);
    var kLo :| 0 <= kLo < |b| && b[kLo] == BlockMin(m, column);
    var kHi :| 0 <= kHi < |b| && b[kHi] == BlockMax(m, column);
    var i0, j0 := BlockEntryOrigin(m, column, kLo);
    var i1, j1 := BlockEntryOrigin(m, column, kHi);
    BlockContains(n, column, i0, j0);
    BlockContains(n, column, i1, j1);
    var nb := Block(n, column);
    forall k | 0 <= k < |nb| ensures 0.0 <= nb[k] <= 1.0 {
      var i, j := BlockEntryOrigin(n, column, k);
    }
    IsSeqMin(nb, 0.0);
    IsSeqMax(nb, 1.0);
  }

  /** np.sum(data[:, j]). */
  function ColumnSum(m: seq<seq<real>>, j: nat): real
    requires forall i :: 0 <= i < |m| ==> j < |m[i]|
  {
    if |m| == 0 then 0.0 else ColumnSum(m[..|m| - 1], j) + m[|m| - 1][j]
  }

  /** np.mean(data[:, j]). */
  function ColumnMean(m: seq<seq<real>>, j: nat): real
    requires |m| > 0
    requires forall i :: 0 <= i < |m| ==> j < |m[i]|
  {
    ColumnSum(m, j) / |m| as real
  }

  /** The column means np.mean(data[:, column:], axis = 0), one per column of the array. */
  function ColumnMeans(m: seq<seq<real>>, width: nat): (mean: seq<real>)
    requires Rectangular(m, width) && |m| > 0
    ensures |mean| == width
  {
    seq(width, j requires 0 <= j < width => ColumnMean(m, j))
  }

  /** The array after line 30 of helperfuncs.py: each selected entry has its own
      column's mean subtracted and is divided by the one standard deviation
      `std` of the whole selection. An array without rows is left as it is. */
  function Standardized(m: seq<seq<real>>, width: nat, column: nat, std: real): (n: seq<seq<real>>)
    requires Rectangular(m, width)
    requires std > 0.0
    ensures |n| == |m| && Rectangular(n, width)
    ensures forall i, j :: 0 <= i < |m| && 0 <= j < width ==>
      n[i][j] == if column <= j then (m[i][j] - ColumnMean(m, j)) / std else m[i][j]
  {
    if |m| == 0 then m else Rescaled(m, width, column, ColumnMeans(m, width), std)
  }

  /** When each entry of column j of n, times d, is that of m less c, the
      column's sum, times d, is m's less |m| c: shifting a column by c and
      dividing it by d shifts its sum by |m| c and divides it by d. */
  lemma {:induction false} ColumnSumAffine(m: seq<seq<real>>, n: seq<seq<real>>, j: nat, c: real, d: real)
    requires |n| == |m|
    requires forall i :: 0 <= i < |m| ==> j < |m[i]| && j < |n[i]|
    requires forall i :: 0 <= i < |m| ==> n[i][j] * d == m[i][j] - c
    ensures ColumnSum(n, j) * d == ColumnSum(m, j) - |m| as real * c
  {
    if |m| > 0 {
      var last := |m| - 1;
      var m', n' := m[..last], n[..last];
      forall i | 0 <= i < last ensures j < |m'[i]| && j < |n'[i]| && n'[i][j] * d == m'[i][j] - c {
        assert m'[i] == m[i] && n'[i] == n[i];
      }
      ColumnSumAffine(m', n', j, c, d);
      AffineStep(ColumnSum(n', j), ColumnSum(m', j), n[last][j], m[last][j], c, d, last as real);
    }
  }

  /** One row's step of ColumnSumAffine. */
  lemma AffineStep(sn: real, sm: real, y: real, x: real, c: real, d: real, k: real)
    requires sn * d == sm - k * c && y * d == x - c
    ensures (sn + y) * d == (sm + x) - (k + 1.0) * c
  {
    assert (sn + y) * d == sn * d + y * d;
  }

  /** Every standardized column has mean 0. */
  lemma StandardizedColumnsHaveMeanZero(m: seq<seq<real>>, width: nat, column: nat, std: real)
    requires Rectangular(m, width) && |m| > 0
    requires std > 0.0
    ensures var n := Standardized(m, width, column, std);
      forall j :: column <= j < width ==> ColumnMean(n, j) == 0.0
  {
    var n := Standardized(m, width, column, std);
    forall j | column <= j < width ensures ColumnMean(n, j) == 0.0 {
      var mean := ColumnMean(m, j);
      forall i | 0 <= i < |m| ensures n[i][j] * std == m[i][j] - mean {
        assert n[i][j] == (m[i][j] - mean) / std;
      }
      ColumnSumAffine(m, n, j, mean, std);
      assert mean * |m| as real == ColumnSum(m, j);
      assert ColumnSum(n, j) * std == 0.0;
    }
  }

  /** One row of the slice assignment data[:, first:] = (data[:, first:] - offset) / scale. */
  method RescaleRow(data: array2<real>, i: nat, first: nat, offset: seq<real>, scale: real)
    requires i < data.Length0
    requires |offset| == data.Length1 && scale != 0.0
    modifies data
    ensures forall p, q :: 0 <= p < data.Length0 && 0 <= q < data.Length1 ==>
      data[p, q] == if p == i && first <= q then (old(data[p, q]) - offset[q]) / scale else old(data[p, q])
  {
    var start := if first < data.Length1 then first else data.Length1;
    for j := start to data.Length1
      invariant forall p, q :: 0 <= p < data.Length0 && 0 <= q < data.Length1 ==>
        data[p, q] == if p == i && first <= q < j then (old(data[p, q]) - offset[q]) / scale else old(data[p, q])
    {
      data[i, j] := (data[i, j] - offset[j]) / scale;
    }
  }

  /** The slice assignment itself, column by column within each row. */
  method AssignRescaled(data: array2<real>, first: nat, offset: seq<real>, scale: real)
    requires |offset| == data.Length1 && scale != 0.0
    modifies data
    ensures Rows(data) == Rescaled(old(Rows(data)), data.Length1, first, offset, scale)
  {
    ghost var m := Rows(data);
    for i := 0 to data.Length0
      invariant forall p, q :: 0 <= p < data.Length0 && 0 <= q < data.Length1 ==>
        data[p, q] == if p < i && first <= q then (m[p][q] - offset[q]) / scale else m[p][q]
    {
      RescaleRow(data, i, first, offset, scale);
    }
    ghost var n := Rescaled(m, data.Length1, first, offset, scale);
    forall i | 0 <= i < data.Length0 ensures Rows(data)[i] == n[i] {
      assert forall j :: 0 <= j < data.Length1 ==> Rows(data)[i][j] == n[i][j];
    }
  }

  /** The first column of the slice data[:, column:] in an array `width`
      columns wide: a negative `column` counts from the right-hand end, and one
      further left than the first column starts the slice at column 0. */
  function SliceStart(column: int, width: nat): (s: nat)
    ensures column < 0 ==> s <= width
    ensures column >= 0 ==> s == column
  {
    if column >= 0 then column else if column + width >= 0 then column + width else 0
  }

  /** Column `j` is in data[:, column:] exactly when it is at or right of
      `column`, counting a negative `column` from the right-hand end. */
  lemma SliceStartSelects(column: int, width: nat, j: nat)
    requires j < width
    ensures SliceStart(column, width) <= j <==> column <= (if column < 0 then j - width else j)
  {
  }

  /** normalize_data. np.min of an empty selection (no rows, or a slice that
      starts past the last column) raises ValueError before anything is
      written. A selection whose entries are all equal is excluded: numpy
      would divide 0 by 0 and write nan. */
  method NormalizeData(data: array2<real>, column: int) returns (r: Result<array2<real>>)
    requires var first := SliceStart(column, data.Length1);
      data.Length0 > 0 && first < data.Length1 ==>
        BlockMin(Rows(data), first) < BlockMax(Rows(data), first)
    modifies data
    ensures r.Raised? <==> data.Length0 == 0 || SliceStart(column, data.Length1) >= data.Length1
    ensures r.Raised? ==> r.exception == ValueError && Rows(data) == old(Rows(data))
    ensures r.Ok? ==> r.value == data
    ensures r.Ok? ==> Rows(data) == Normalized(old(Rows(data)), data.Length1, SliceStart(column, data.Length1))
  {
    var m := Rows(data);
    var first := SliceStart(column, data.Length1);
    if data.Length0 == 0 || first >= data.Length1 {
      return Raised(ValueError);
    }
    var lo, hi := BlockMin(m, first), BlockMax(m, first);
    AssignRescaled(data, first, Constant(data.Length1, lo), hi - lo);
    return Ok(data);
  }

  /** standardize_data. The standard deviation np.std(data[:, column:]) is
      given as `std`; it must be positive (numpy would write inf or nan for 0). */
  method StandardizeData(data: array2<real>, column: int, std: real) returns (r: array2<real>)
    requires std > 0.0
    modifies data
    ensures r == data
    ensures Rows(data) == Standardized(old(Rows(data)), data.Length1, SliceStart(column, data.Length1), std)
  {
    var m := Rows(data);
    var first := SliceStart(column, data.Length1);
    if data.Length0 > 0 {
      AssignRescaled(data, first, ColumnMeans(m, data.Length1), std);
    }
    return data;
  }
}
