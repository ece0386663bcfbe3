/**
 * `update_google_sheet`: the cells one category writes, staged as a list
 * before the single batched write. Each advisor of the mapping gets the
 * primary series at `start_row + start_row_offset` and the i-th further
 * series on the i-th row below it, all in the column of the selected day.
 */
module Writer {
  import opened Grouping
  import opened Grid

  /** One staged grid cell: its row and column (from 1) and the value written there. */
  datatype StagedCell = StagedCell(row: int, col: int, value: real)

  /** The cells of one advisor: series `i` of `series` (the primary first) at row
      `startRow + offset + i`; an advisor a series lacks gets 0. */
  function AdvisorCells(series: seq<map<string, real>>, b: Block, dateCol: int, offset: int): (r: seq<StagedCell>)
    ensures |r| == |series|
  {
    seq(|series|, i requires 0 <= i < |series| => StagedCell(b.startRow + offset + i, dateCol, Get(series[i], b.name)))
  }

  /** The cells of the whole mapping, advisor after advisor in mapping order. */
  function SheetCells(series: seq<map<string, real>>, mapping: seq<Block>, dateCol: int, offset: int): seq<StagedCell> {
    if mapping == [] then []
    else SheetCells(series, mapping[..|mapping| - 1], dateCol, offset)
         + AdvisorCells(series, mapping[|mapping| - 1], dateCol, offset)
  }

  /** The staging loop: for each advisor, the primary value and then one value per further series. */
  method UpdateSheet(primary: map<string, real>, extras: seq<map<string, real>>,
                     dateCol: int, offset: int, mapping: seq<Block>) returns (cells: seq<StagedCell>)
    ensures cells == SheetCells([primary] + extras, mapping, dateCol, offset)
  {
    ghost var series := [primary] + extras;
    cells := [];
    var a := 0;
    while a < |mapping|
      invariant 0 <= a <= |mapping|
      invariant cells == SheetCells(series, mapping[..a], dateCol, offset)
    {
      var b := mapping[a];
      var rowIndex := b.startRow + offset;
      ghost var before := cells;
      cells := cells + [StagedCell(rowIndex, dateCol, Get(primary, b.name))];
      var i := 0;
      while i < |extras|
        invariant 0 <= i <= |extras|
        invariant cells == before + AdvisorCells(series[..i + 1], b, dateCol, offset)
      {
        cells := cells + [StagedCell(rowIndex + i + 1, dateCol, Get(extras[i], b.name))];
        i := i + 1;
      }
      assert series[..|extras| + 1] == series;
      assert mapping[..a + 1][..a] == mapping[..a];
      a := a + 1;
    }
    assert mapping[..a] == mapping;
  }

  /** One cell per advisor and series. */
  lemma {:induction false} SheetCellsCount(series: seq<map<string, real>>, mapping: seq<Block>, dateCol: int, offset: int)
    ensures |SheetCells(series, mapping, dateCol, offset)| == |mapping| * |series|
  {
    if mapping != [] {
      var n := |mapping| - 1;
      SheetCellsCount(series, mapping[..n], dateCol, offset);
      assert |mapping| * |series| == n * |series| + |series| by {
        MulSucc(n, |series|);
      }
    }
  }

  /** Where each value lands: series `i` of advisor `a` is cell `a·|series| + i`, in the
      day's column, at the advisor's start row plus the offset plus `i`, holding the
      advisor's value in that series or 0 when the series lacks the advisor. */
  lemma {:induction false} SheetCellsAt(series: seq<map<string, real>>, mapping: seq<Block>, dateCol: int, offset: int,
                                         a: nat, i: nat)
    requires a < |mapping| && i < |series|
    ensures a * |series| + i < |SheetCells(series, mapping, dateCol, offset)|
    ensures SheetCells(series, mapping, dateCol, offset)[a * |series| + i]
         == StagedCell(mapping[a].startRow + offset + i, dateCol,
                       if mapping[a].name in series[i] then series[i][mapping[a].name] else 0.0)
  {
    var front := mapping[..|mapping| - 1];
    SheetCellsCount(series, front, dateCol, offset);
    SheetCellsCount(series, mapping, dateCol, offset);
    if a < |front| {
      SheetCellsAt(series, front, dateCol, offset, a, i);
      assert front[a] == mapping[a];
      assert a * |series| + i < |front| * |series| by {
        MulBound(a, |front|, |series|, i);
      }
    } else {
      assert a * |series| == |front| * |series|;
    }
  }

  lemma MulSucc(n: nat, m: nat)
    ensures (n + 1) * m == n * m + m
  {
  }

  lemma MulBound(a: nat, n: nat, m: nat, i: nat)
    requires a < n && i < m
    ensures a * m + i < n * m
  {
    assert (a + 1) * m <= n * m;
  }

  /** Nothing is written outside the mapping: every staged cell is in the day's column
      and belongs to some advisor of the mapping and some series. */
  lemma {:induction false} SheetCellsOnlyMapped(series: seq<map<string, real>>, mapping: seq<Block>, dateCol: int, offset: int,
                                                c: StagedCell)
    requires c in SheetCells(series, mapping, dateCol, offset)
    ensures c.col == dateCol
    ensures exists a, i :: 0 <= a < |mapping| && 0 <= i < |series| && c.row == mapping[a].startRow + offset + i
                           && c.value == Get(series[i], mapping[a].name)
  {
    var front := mapping[..|mapping| - 1];
    var last := |mapping| - 1;
    if c in SheetCells(series, front, dateCol, offset) {
      SheetCellsOnlyMapped(series, front, dateCol, offset, c);
      var a, i :| 0 <= a < |front| && 0 <= i < |series| && c.row == front[a].startRow + offset + i
                  && c.value == Get(series[i], front[a].name);
      assert mapping[a] == front[a];
    } else {
      var cells := AdvisorCells(series, mapping[last], dateCol, offset);
      assert c in cells;
      var i :| 0 <= i < |cells| && cells[i] == c;
      assert c.row == mapping[last].startRow + offset + i;
    }
  }
}
