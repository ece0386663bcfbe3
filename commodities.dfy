/**
 * The Commodities action: the per-commodity readings collected from the uploads
 * (`main`'s collection step) and `update_commodities_in_sheet`, which stages one
 * count cell per commodity and advisor and then, per advisor, the Labor Gross and
 * Parts Gross totals accumulated over all commodities.
 */
module Commodities {
  import opened Wrappers
  import opened Tables
  import opened Grouping
  import opened Aggregators
  import opened TiresFormat
  import opened Grid
  import opened Writer
  import opened Layout

  datatype Commodity = AirFilters | CabinFilters | Batteries | Tires | Brakes
                     | Alignments | Wipers | Belts | Fluids | FactoryChemicals

  /** The commodity's row within an advisor block. */
  function CommodityRowOffset(c: Commodity): (r: nat)
    ensures 8 <= r <= 17
  {
    match c
    case AirFilters => 8
    case CabinFilters => 9
    case Batteries => 10
    case Tires => 11
    case Brakes => 12
    case Alignments => 13
    case Wipers => 14
    case Belts => 15
    case Fluids => 16
    case FactoryChemicals => 17
  }

  /** Distinct commodities have distinct rows. */
  lemma CommodityRowsDistinct(c: Commodity, d: Commodity)
    ensures CommodityRowOffset(c) == CommodityRowOffset(d) <==> c == d
  {
  }

  /** The commodities that have an upload of their own, in upload order. */
  const CommoditiesList := [AirFilters, CabinFilters, Batteries, Tires, Brakes, Wipers, Belts, Fluids, FactoryChemicals]

  /** The order in which the commodity rows are written: every upload, then Alignments. */
  const UpdateList := CommoditiesList + [Alignments]

  /** A commodity's reading. An entry lacks the series its kind does not produce;
      a missing series reads as empty, as `dict.get(key, {})` does. */
  datatype CommodityData = CommodityData(
    counts: map<string, real>,
    partsGross: map<string, real>,
    laborGross: map<string, real>,
    quantity: map<string, real>,
    gross: map<string, real>)

  const NoData := CommodityData(map[], map[], map[], map[], map[])

  /** `commodities_data.get(commodity, {})`. */
  function DataOf(data: map<Commodity, CommodityData>, c: Commodity): (r: CommodityData)
    ensures c !in data ==> r == NoData
  {
    if c in data then data[c] else NoData
  }

  /** The figure written in a commodity's row: the tire quantity for Tires, the count otherwise. */
  function CountValue(d: CommodityData, c: Commodity, name: string): real {
    if c == Tires then Get(d.quantity, name) else Get(d.counts, name)
  }

  /** What the commodity adds to the advisor's parts gross. */
  function PartsValue(d: CommodityData, c: Commodity, name: string): real {
    if c == Tires then Get(d.gross, name) else Get(d.partsGross, name)
  }

  /** What the commodity adds to the advisor's labor gross: only Alignments has any. */
  function LaborValue(d: CommodityData, c: Commodity, name: string): real {
    if c == Alignments then Get(d.laborGross, name) else 0.0
  }

  /** The count cell of one commodity and advisor: in the commodity's row of the
      advisor's block, in the day's column. */
  function CountCell(data: map<Commodity, CommodityData>, c: Commodity, b: Block, dateCol: int): StagedCell {
    StagedCell(b.startRow + CommodityRowOffset(c) - 1, dateCol, CountValue(DataOf(data, c), c, b.name))
  }

  /** The count cells of one commodity, advisor after advisor. */
  function CommodityRow(data: map<Commodity, CommodityData>, c: Commodity, mapping: seq<Block>, dateCol: int): (r: seq<StagedCell>)
    ensures |r| == |mapping|
  {
    seq(|mapping|, i requires 0 <= i < |mapping| => CountCell(data, c, mapping[i], dateCol))
  }

  /** The count cells of every commodity of `list`, commodity after commodity. */
  function CountCells(data: map<Commodity, CommodityData>, list: seq<Commodity>, mapping: seq<Block>, dateCol: int): seq<StagedCell> {
    if list == [] then []
    else CountCells(data, list[..|list| - 1], mapping, dateCol) + CommodityRow(data, list[|list| - 1], mapping, dateCol)
  }

  /** An advisor's parts gross over the commodities of `list`. */
  function PartsTotal(data: map<Commodity, CommodityData>, list: seq<Commodity>, name: string): real {
    if list == [] then 0.0
    else PartsTotal(data, list[..|list| - 1], name) + PartsValue(DataOf(data, list[|list| - 1]), list[|list| - 1], name)
  }

  /** An advisor's labor gross over the commodities of `list`. */
  function LaborTotal(data: map<Commodity, CommodityData>, list: seq<Commodity>, name: string): real {
    if list == [] then 0.0
    else LaborTotal(data, list[..|list| - 1], name) + LaborValue(DataOf(data, list[|list| - 1]), list[|list| - 1], name)
  }

  /** The two total cells of each advisor: labor gross, then parts gross. */
  function TotalCells(data: map<Commodity, CommodityData>, list: seq<Commodity>, mapping: seq<Block>, dateCol: int): seq<StagedCell> {
    if mapping == [] then []
    else
      var b := mapping[|mapping| - 1];
      TotalCells(data, list, mapping[..|mapping| - 1], dateCol)
      + [StagedCell(b.startRow + LaborGrossOffset - 1, dateCol, LaborTotal(data, list, b.name)),
         StagedCell(b.startRow + PartsGrossOffset - 1, dateCol, PartsTotal(data, list, b.name))]
  }

  /** Everything the action stages: the count cells, then the totals. */
  function CommodityCells(data: map<Commodity, CommodityData>, list: seq<Commodity>, mapping: seq<Block>, dateCol: int): seq<StagedCell> {
    CountCells(data, list, mapping, dateCol) + TotalCells(data, list, mapping, dateCol)
  }

  /** `update_commodities_in_sheet`: stages the count cells while accumulating both
      totals per advisor, then stages the totals. */
  method UpdateCommodities(dateCol: int, data: map<Commodity, CommodityData>, list: seq<Commodity>, mapping: seq<Block>)
    returns (cells: seq<StagedCell>)
    ensures cells == CommodityCells(data, list, mapping, dateCol)
  {
    var totalParts, totalLabor;
    cells, totalParts, totalLabor := StageCounts(dateCol, data, list, mapping);
    ghost var counted := cells;
    var a := 0;
    while a < |mapping|
      invariant 0 <= a <= |mapping|
      invariant cells == counted + TotalCells(data, list, mapping[..a], dateCol)
    {
      var b := mapping[a];
      var laborGross := totalLabor[a];
      cells := cells + [StagedCell(b.startRow + LaborGrossOffset - 1, dateCol, laborGross)];
      var partsGross := totalParts[a];
      cells := cells + [StagedCell(b.startRow + PartsGrossOffset - 1, dateCol, partsGross)];
      TotalCellsStep(data, list, mapping, dateCol, a);
      a := a + 1;
    }
    assert mapping[..a] == mapping;
  }

  /** The commodity loop of `update_commodities_in_sheet`: the count cells of every
      commodity, and each advisor's totals over all commodities, started at 0. The two
      running-total dictionaries are kept as sequences parallel to the mapping: their
      keys are exactly the mapping's names. */
  method StageCounts(dateCol: int, data: map<Commodity, CommodityData>, list: seq<Commodity>, mapping: seq<Block>)
    returns (cells: seq<StagedCell>, totalParts: seq<real>, totalLabor: seq<real>)
    ensures cells == CountCells(data, list, mapping, dateCol)
    ensures |totalParts| == |mapping| == |totalLabor|
    ensures forall a :: 0 <= a < |mapping| ==> totalParts[a] == PartsTotal(data, list, mapping[a].name)
    ensures forall a :: 0 <= a < |mapping| ==> totalLabor[a] == LaborTotal(data, list, mapping[a].name)
  {
    cells := [];
    totalParts := seq(|mapping|, _ => 0.0);
    totalLabor := seq(|mapping|, _ => 0.0);
    var ci := 0;
    while ci < |list|
      invariant 0 <= ci <= |list|
      invariant cells == CountCells(data, list[..ci], mapping, dateCol)
      invariant |totalParts| == |mapping| == |totalLabor|
      invariant forall a :: 0 <= a < |mapping| ==> totalParts[a] == PartsTotal(data, list[..ci], mapping[a].name)
      invariant forall a :: 0 <= a < |mapping| ==> totalLabor[a] == LaborTotal(data, list[..ci], mapping[a].name)
    {
      var row;
      row, totalParts, totalLabor := StageCommodity(dateCol, data, list[ci], mapping, totalParts, totalLabor);
      cells := cells + row;
      CommodityStep(data, list, mapping, dateCol, ci);
      ci := ci + 1;
    }
    assert list[..ci] == list;
  }

  /** Taking one more commodity of `list` appends its row and adds its figures to every total. */
  lemma CommodityStep(data: map<Commodity, CommodityData>, list: seq<Commodity>, mapping: seq<Block>, dateCol: int, ci: nat)
    requires ci < |list|
    ensures CountCells(data, list[..ci + 1], mapping, dateCol)
         == CountCells(data, list[..ci], mapping, dateCol) + CommodityRow(data, list[ci], mapping, dateCol)
    ensures forall n :: PartsTotal(data, list[..ci + 1], n) == PartsTotal(data, list[..ci], n) + PartsValue(DataOf(data, list[ci]), list[ci], n)
    ensures forall n :: LaborTotal(data, list[..ci + 1], n) == LaborTotal(data, list[..ci], n) + LaborValue(DataOf(data, list[ci]), list[ci], n)
  {
    assert list[..ci + 1][..ci] == list[..ci];
  }

  /** Taking one more advisor appends its two total cells. */
  lemma TotalCellsStep(data: map<Commodity, CommodityData>, list: seq<Commodity>, mapping: seq<Block>, dateCol: int, a: nat)
    requires a < |mapping|
    ensures TotalCells(data, list, mapping[..a + 1], dateCol)
         == TotalCells(data, list, mapping[..a], dateCol)
            + [StagedCell(mapping[a].startRow + LaborGrossOffset - 1, dateCol, LaborTotal(data, list, mapping[a].name)),
               StagedCell(mapping[a].startRow + PartsGrossOffset - 1, dateCol, PartsTotal(data, list, mapping[a].name))]
  {
    assert mapping[..a + 1][..a] == mapping[..a];
  }

  /** One pass of the commodity loop: the commodity's count cell for each advisor, and
      its parts and labor figures added to each advisor's running totals. */
  method StageCommodity(dateCol: int, data: map<Commodity, CommodityData>, c: Commodity, mapping: seq<Block>,
                        parts0: seq<real>, labor0: seq<real>)
    returns (row: seq<StagedCell>, totalParts: seq<real>, totalLabor: seq<real>)
    requires |parts0| == |mapping| == |labor0|
    ensures row == CommodityRow(data, c, mapping, dateCol)
    ensures |totalParts| == |mapping| == |totalLabor|
    ensures forall i :: 0 <= i < |mapping| ==> totalParts[i] == parts0[i] + PartsValue(DataOf(data, c), c, mapping[i].name)
    ensures forall i :: 0 <= i < |mapping| ==> totalLabor[i] == labor0[i] + LaborValue(DataOf(data, c), c, mapping[i].name)
  {
    var d := DataOf(data, c);
    row, totalParts, totalLabor := [], parts0, labor0;
    var a := 0;
    while a < |mapping|
      invariant 0 <= a <= |mapping|
      invariant |row| == a && forall i :: 0 <= i < a ==> row[i] == CountCell(data, c, mapping[i], dateCol)
      invariant |totalParts| == |mapping| == |totalLabor|
      invariant forall i :: 0 <= i < a ==> totalParts[i] == parts0[i] + PartsValue(d, c, mapping[i].name)
      invariant forall i :: 0 <= i < a ==> totalLabor[i] == labor0[i] + LaborValue(d, c, mapping[i].name)
      invariant forall i :: a <= i < |mapping| ==> totalParts[i] == parts0[i] && totalLabor[i] == labor0[i]
    {
      row, totalParts, totalLabor := StageAdvisor(dateCol, d, c, mapping[a], a, row, totalParts, totalLabor);
      a := a + 1;
    }
  }

  /** The body of the advisor loop: advisor `a`'s count cell for the commodity, and the
      commodity's figures added to that advisor's running totals. */
  method StageAdvisor(dateCol: int, d: CommodityData, c: Commodity, b: Block, a: nat,
                      row0: seq<StagedCell>, parts0: seq<real>, labor0: seq<real>)
    returns (row: seq<StagedCell>, totalParts: seq<real>, totalLabor: seq<real>)
    requires a < |parts0| && a < |labor0|
    ensures row == row0 + [StagedCell(b.startRow + CommodityRowOffset(c) - 1, dateCol, CountValue(d, c, b.name))]
    ensures totalParts == parts0[a := parts0[a] + PartsValue(d, c, b.name)]
    ensures totalLabor == labor0[a := labor0[a] + LaborValue(d, c, b.name)]
  {
    row, totalParts, totalLabor := row0, parts0, labor0;
    var baseRow := b.startRow + CommodityRowOffset(c) - 1;
    if c == Tires {
      row := row + [StagedCell(baseRow, dateCol, Get(d.quantity, b.name))];
      totalParts := totalParts[a := totalParts[a] + Get(d.gross, b.name)];
      assert totalLabor == labor0[a := labor0[a] + 0.0];
    } else {
      row := row + [StagedCell(baseRow, dateCol, Get(d.counts, b.name))];
      totalParts := totalParts[a := totalParts[a] + Get(d.partsGross, b.name)];
      if c == Alignments {
        totalLabor := totalLabor[a := totalLabor[a] + Get(d.laborGross, b.name)];
      } else {
        assert totalLabor == labor0[a := labor0[a] + 0.0];
      }
    }
  }

  /** One count cell per commodity and advisor, and two total cells per advisor. */
  lemma {:induction false} CountCellsCount(data: map<Commodity, CommodityData>, list: seq<Commodity>, mapping: seq<Block>, dateCol: int)
    ensures |CountCells(data, list, mapping, dateCol)| == |list| * |mapping|
  {
    if list != [] {
      var n := |list| - 1;
      CountCellsCount(data, list[..n], mapping, dateCol);
      MulSucc(n, |mapping|);
    }
  }

  lemma {:induction false} TotalCellsCount(data: map<Commodity, CommodityData>, list: seq<Commodity>, mapping: seq<Block>, dateCol: int)
    ensures |TotalCells(data, list, mapping, dateCol)| == 2 * |mapping|
  {
    if mapping != [] {
      TotalCellsCount(data, list, mapping[..|mapping| - 1], dateCol);
    }
  }

  /** Where each count lands: commodity `ci`'s count for advisor `a` is cell
      `ci·|mapping| + a`, in the commodity's row of that advisor's block, holding the
      tire quantity (Tires) or the count (any other commodity), 0 when the commodity
      has no entry or the entry lacks the advisor. */
  lemma {:induction false} CountCellsAt(data: map<Commodity, CommodityData>, list: seq<Commodity>, mapping: seq<Block>, dateCol: int,
                                         ci: nat, a: nat)
    requires ci < |list| && a < |mapping|
    ensures ci * |mapping| + a < |CommodityCells(data, list, mapping, dateCol)|
    ensures CommodityCells(data, list, mapping, dateCol)[ci * |mapping| + a]
         == StagedCell(mapping[a].startRow + CommodityRowOffset(list[ci]) - 1, dateCol,
                       if list[ci] !in data then 0.0
                       else if list[ci] == Tires then Get(data[Tires].quantity, mapping[a].name)
                       else Get(data[list[ci]].counts, mapping[a].name))
  {
    var front := list[..|list| - 1];
    CountCellsCount(data, list, mapping, dateCol);
    CountCellsCount(data, front, mapping, dateCol);
    MulBound(ci, |list|, |mapping|, a);
    if ci < |front| {
      CountCellsAt(data, front, mapping, dateCol, ci, a);
      MulBound(ci, |front|, |mapping|, a);
      assert front[ci] == list[ci];
      assert CountCells(data, front, mapping, dateCol)[ci * |mapping| + a]
          == CommodityCells(data, front, mapping, dateCol)[ci * |mapping| + a];
    } else {
      assert ci * |mapping| == |front| * |mapping|;
    }
  }

  /** Where each total lands: advisor `a`'s labor gross and parts gross are the two cells
      after all counts, at offsets `2a` and `2a + 1`, in the Labor Gross and Parts Gross
      rows of its block. */
  lemma {:induction false} TotalCellsAt(data: map<Commodity, CommodityData>, list: seq<Commodity>, mapping: seq<Block>, dateCol: int,
                                         a: nat)
    requires a < |mapping|
    ensures |TotalCells(data, list, mapping, dateCol)| == 2 * |mapping|
    ensures TotalCells(data, list, mapping, dateCol)[2 * a]
         == StagedCell(mapping[a].startRow + LaborGrossOffset - 1, dateCol, LaborTotal(data, list, mapping[a].name))
    ensures TotalCells(data, list, mapping, dateCol)[2 * a + 1]
         == StagedCell(mapping[a].startRow + PartsGrossOffset - 1, dateCol, PartsTotal(data, list, mapping[a].name))
  {
    var front := mapping[..|mapping| - 1];
    TotalCellsCount(data, list, mapping, dateCol);
    TotalCellsCount(data, list, front, dateCol);
    if a < |front| {
      TotalCellsAt(data, list, front, dateCol, a);
      assert front[a] == mapping[a];
    }
  }

  /** The parts gross over a concatenation is the sum of the two parts. */
  lemma {:induction false} PartsTotalAppend(data: map<Commodity, CommodityData>, xs: seq<Commodity>, ys: seq<Commodity>, n: string)
    ensures PartsTotal(data, xs + ys, n) == PartsTotal(data, xs, n) + PartsTotal(data, ys, n)
  {
    if ys != [] {
      var k := |ys| - 1;
      assert (xs + ys)[..|xs + ys| - 1] == xs + ys[..k];
      PartsTotalAppend(data, xs, ys[..k], n);
    } else {
      assert xs + ys == xs;
    }
  }

  /** An advisor's parts gross does not depend on the order in which the commodities are
      visited: any rearrangement of the list gives the same total. */
  lemma {:induction false} PartsTotalPermutation(data: map<Commodity, CommodityData>, xs: seq<Commodity>, ys: seq<Commodity>, n: string)
    requires multiset(xs) == multiset(ys)
    ensures PartsTotal(data, xs, n) == PartsTotal(data, ys, n)
    decreases |xs|
  {
    if xs == [] {
      assert |ys| == |multiset(ys)| == 0;
    } else {
      var k := |xs| - 1;
      var x := xs[k];
      var j := PickOut(xs, ys);
      var rest := ys[..j] + ys[j + 1..];
      PartsTotalPermutation(data, xs[..k], rest, n);
      assert ys == ys[..j] + [x] + ys[j + 1..];
      PartsTotalAppend(data, ys[..j], ys[j + 1..], n);
      PartsTotalAppend(data, ys[..j] + [x], ys[j + 1..], n);
      PartsTotalAppend(data, ys[..j], [x], n);
      assert PartsTotal(data, [x], n) == PartsValue(DataOf(data, x), x, n) by {
        assert [x][..0] == [];
      }
    }
  }

  /** The last element of `xs` occurs in its rearrangement `ys`; taking one occurrence out
      of each leaves two rearrangements of each other. */
  lemma PickOut<T>(xs: seq<T>, ys: seq<T>) returns (j: nat)
    requires xs != [] && multiset(xs) == multiset(ys)
    ensures j < |ys| && ys[j] == xs[|xs| - 1]
    ensures multiset(xs[..|xs| - 1]) == multiset(ys[..j] + ys[j + 1..])
  {
    var k := |xs| - 1;
    var x := xs[k];
    assert xs == xs[..k] + [x];
    assert x in multiset(ys);
    j :| 0 <= j < |ys| && ys[j] == x;
    assert ys == ys[..j] + [x] + ys[j + 1..];
    assert multiset(xs) == multiset(xs[..k]) + multiset{x};
    assert multiset(ys) == multiset(ys[..j]) + multiset{x} + multiset(ys[j + 1..]);
    assert multiset(ys[..j] + ys[j + 1..]) == multiset(ys[..j]) + multiset(ys[j + 1..]);
    var left, right := multiset(xs[..k]), multiset(ys[..j] + ys[j + 1..]);
    assert left + multiset{x} == right + multiset{x};
    forall y ensures left[y] == right[y] {
      assert (left + multiset{x})[y] == (right + multiset{x})[y];
    }
    assert left == right;
  }

  /** Dropping the last element of `xs` lowers the count of that element by one. */
  lemma CountLast<T>(xs: seq<T>, x: T)
    requires xs != []
    ensures multiset(xs)[x] == multiset(xs[..|xs| - 1])[x] + (if xs[|xs| - 1] == x then 1 else 0)
  {
    assert xs == xs[..|xs| - 1] + [xs[|xs| - 1]];
  }

  /** Only Alignments contributes labor gross: an advisor's labor gross is the Alignments
      labor gross taken once for every occurrence of Alignments in the list. */
  lemma {:induction false} LaborTotalOnlyAlignments(data: map<Commodity, CommodityData>, list: seq<Commodity>, n: string)
    ensures LaborTotal(data, list, n) == (multiset(list)[Alignments] as real) * Get(DataOf(data, Alignments).laborGross, n)
  {
    if list != [] {
      var k := |list| - 1;
      var g := Get(DataOf(data, Alignments).laborGross, n);
      var count := multiset(list[..k])[Alignments];
      LaborTotalOnlyAlignments(data, list[..k], n);
      CountLast(list, Alignments);
      var v := LaborValue(DataOf(data, list[k]), list[k], n);
      assert LaborTotal(data, list, n) == LaborTotal(data, list[..k], n) + v;
      if list[k] == Alignments {
        assert v == g;
        RealMulSucc(count, g);
      } else {
        assert v == 0.0;
      }
    }
  }

  lemma RealMulSucc(count: nat, g: real)
    ensures ((count + 1) as real) * g == (count as real) * g + g
  {
  }

  /** In the run's order, where Alignments comes once, the labor gross written for an
      advisor is exactly the Alignments labor gross (0 without an Alignments entry). */
  lemma LaborGrossIsAlignments(data: map<Commodity, CommodityData>, n: string)
    ensures LaborTotal(data, UpdateList, n) == Get(DataOf(data, Alignments).laborGross, n)
  {
    var k := |UpdateList| - 1;
    assert UpdateList[..k] == CommoditiesList;
    assert UpdateList[k] == Alignments;
    NoAlignmentsNoLabor(data, CommoditiesList, n);
  }

  /** A list without Alignments adds no labor gross. */
  lemma {:induction false} NoAlignmentsNoLabor(data: map<Commodity, CommodityData>, list: seq<Commodity>, n: string)
    requires forall i :: 0 <= i < |list| ==> list[i] != Alignments
    ensures LaborTotal(data, list, n) == 0.0
  {
    if list != [] {
      NoAlignmentsNoLabor(data, list[..|list| - 1], n);
    }
  }

  /** Two data sets that read the same for every commodity stage the same cells: an
      entry of empty series (an upload that could not be processed) writes what no
      entry writes. */
  lemma {:induction false} SameReadingSameCells(data: map<Commodity, CommodityData>, other: map<Commodity, CommodityData>,
                                                list: seq<Commodity>, mapping: seq<Block>, dateCol: int)
    requires forall c :: DataOf(data, c) == DataOf(other, c)
    ensures CommodityCells(data, list, mapping, dateCol) == CommodityCells(other, list, mapping, dateCol)
  {
    SameReadingSameCounts(data, other, list, mapping, dateCol);
    SameReadingSameTotals(data, other, list, mapping, dateCol);
  }

  lemma {:induction false} SameReadingSameCounts(data: map<Commodity, CommodityData>, other: map<Commodity, CommodityData>,
                                                 list: seq<Commodity>, mapping: seq<Block>, dateCol: int)
    requires forall c :: DataOf(data, c) == DataOf(other, c)
    ensures CountCells(data, list, mapping, dateCol) == CountCells(other, list, mapping, dateCol)
  {
    if list != [] {
      var c := list[|list| - 1];
      SameReadingSameCounts(data, other, list[..|list| - 1], mapping, dateCol);
      assert CommodityRow(data, c, mapping, dateCol) == CommodityRow(other, c, mapping, dateCol) by {
        assert DataOf(data, c) == DataOf(other, c);
      }
    }
  }

  lemma {:induction false} SameReadingSameTotals(data: map<Commodity, CommodityData>, other: map<Commodity, CommodityData>,
                                                 list: seq<Commodity>, mapping: seq<Block>, dateCol: int)
    requires forall c :: DataOf(data, c) == DataOf(other, c)
    ensures TotalCells(data, list, mapping, dateCol) == TotalCells(other, list, mapping, dateCol)
  {
    if mapping != [] {
      var n := mapping[|mapping| - 1].name;
      SameReadingSameTotals(data, other, list, mapping[..|mapping| - 1], dateCol);
      SameReadingSameSums(data, other, list, n);
    }
  }

  lemma {:induction false} SameReadingSameSums(data: map<Commodity, CommodityData>, other: map<Commodity, CommodityData>,
                                               list: seq<Commodity>, n: string)
    requires forall c :: DataOf(data, c) == DataOf(other, c)
    ensures PartsTotal(data, list, n) == PartsTotal(other, list, n)
    ensures LaborTotal(data, list, n) == LaborTotal(other, list, n)
  {
    if list != [] {
      var c := list[|list| - 1];
      SameReadingSameSums(data, other, list[..|list| - 1], n);
      assert DataOf(data, c) == DataOf(other, c);
    }
  }

  /** A failed upload: its entry of empty series writes the same cells as no entry at all. */
  lemma FailedEntryIsNoEntry(data: map<Commodity, CommodityData>, c: Commodity,
                             list: seq<Commodity>, mapping: seq<Block>, dateCol: int)
    ensures CommodityCells(data[c := NoData], list, mapping, dateCol)
         == CommodityCells(data - {c}, list, mapping, dateCol)
  {
    forall d ensures DataOf(data[c := NoData], d) == DataOf(data - {c}, d) {
    }
    SameReadingSameCells(data[c := NoData], data - {c}, list, mapping, dateCol);
  }

  /** With no entry at all every staged cell holds 0: the day's commodity rows and both
      totals are overwritten with zeros. */
  lemma {:induction false} NoDataWritesZeros(list: seq<Commodity>, mapping: seq<Block>, dateCol: int)
    ensures forall x :: x in CommodityCells(map[], list, mapping, dateCol) ==> x.value == 0.0
  {
    NoDataCountsZero(list, mapping, dateCol);
    NoDataTotalsZero(list, mapping, dateCol);
  }

  lemma {:induction false} NoDataCountsZero(list: seq<Commodity>, mapping: seq<Block>, dateCol: int)
    ensures forall x :: x in CountCells(map[], list, mapping, dateCol) ==> x.value == 0.0
  {
    if list != [] {
      NoDataCountsZero(list[..|list| - 1], mapping, dateCol);
    }
  }

  lemma {:induction false} NoDataTotalsZero(list: seq<Commodity>, mapping: seq<Block>, dateCol: int)
    ensures forall x :: x in TotalCells(map[], list, mapping, dateCol) ==> x.value == 0.0
  {
    if mapping != [] {
      NoDataTotalsZero(list, mapping[..|mapping| - 1], dateCol);
      NoDataSumsZero(list, mapping[|mapping| - 1].name);
    }
  }

  lemma {:induction false} NoDataSumsZero(list: seq<Commodity>, n: string)
    ensures PartsTotal(map[], list, n) == 0.0 && LaborTotal(map[], list, n) == 0.0
  {
    if list != [] {
      NoDataSumsZero(list[..|list| - 1], n);
    }
  }

  /** The Tires upload, parsed twice: with its first row as header, and with the two
      rows above the header skipped (the GM layout). */
  datatype TiresReadings = TiresReadings(original: Table, skipped: Table)

  /** The Tires entry: the first reading that processes, or empty series. */
  function TiresEntry(r: TiresReadings): CommodityData {
    var t := TiresUpload(r.original, r.skipped);
    CommodityData(map[], map[], map[], t.quantity, t.gross)
  }

  /** The entry of another commodity's upload: its counts and parts gross, or empty
      series when the upload cannot be processed. */
  function FileEntry(t: Table): CommodityData {
    match ProcessCommodityFile(t, "Primary Advisor Name", "Gross")
    case Ok(v) => CommodityData(v.counts, v.partsGross, map[], map[], map[])
    case Err(_) => NoData
  }

  /** The Alignments entry of the two alignment uploads: counts, parts and labor gross,
      or empty series when they cannot be processed. */
  function AlignmentsEntry(menus: Table, alacarte: Table): CommodityData {
    match ProcessAlignments(menus, alacarte, "Advisor Name")
    case Ok(v) => CommodityData(v.counts, v.partsGross, v.laborGross, map[], map[])
    case Err(_) => NoData
  }

  /** The entry the run records for a commodity: `None` when nothing was uploaded for
      it; Alignments needs both of its files. */
  function EntryFor(c: Commodity, uploads: map<Commodity, Table>, tires: Option<TiresReadings>,
                    menus: Option<Table>, alacarte: Option<Table>): Option<CommodityData>
  {
    if c == Tires then
      if tires.None? then None else Some(TiresEntry(tires.value))
    else if c == Alignments then
      if menus.None? || alacarte.None? then None else Some(AlignmentsEntry(menus.value, alacarte.value))
    else
      if c !in uploads then None else Some(FileEntry(uploads[c]))
  }

  /** The entries recorded for the commodities of `cs`, visited in order. */
  function Collected(cs: seq<Commodity>, uploads: map<Commodity, Table>, tires: Option<TiresReadings>,
                     menus: Option<Table>, alacarte: Option<Table>): map<Commodity, CommodityData>
  {
    if cs == [] then map[]
    else
      var m := Collected(cs[..|cs| - 1], uploads, tires, menus, alacarte);
      var c := cs[|cs| - 1];
      match EntryFor(c, uploads, tires, menus, alacarte)
      case None => m
      case Some(e) => m[c := e]
  }

  lemma CollectedStep(cs: seq<Commodity>, i: nat, uploads: map<Commodity, Table>, tires: Option<TiresReadings>,
                      menus: Option<Table>, alacarte: Option<Table>)
    requires i < |cs|
    ensures Collected(cs[..i + 1], uploads, tires, menus, alacarte)
         == match EntryFor(cs[i], uploads, tires, menus, alacarte)
            case None => Collected(cs[..i], uploads, tires, menus, alacarte)
            case Some(e) => Collected(cs[..i], uploads, tires, menus, alacarte)[cs[i] := e]
  {
    assert cs[..i + 1][..i] == cs[..i];
  }

  /** Each commodity of `cs` has its own entry, when it has one; no other commodity has any. */
  lemma {:induction false} CollectedMeaning(cs: seq<Commodity>, uploads: map<Commodity, Table>, tires: Option<TiresReadings>,
                                             menus: Option<Table>, alacarte: Option<Table>)
    ensures forall c :: c in Collected(cs, uploads, tires, menus, alacarte)
                        <==> c in cs && EntryFor(c, uploads, tires, menus, alacarte).Some?
    ensures forall c :: c in Collected(cs, uploads, tires, menus, alacarte)
                        ==> Collected(cs, uploads, tires, menus, alacarte)[c] == EntryFor(c, uploads, tires, menus, alacarte).value
  {
    if cs != [] {
      var front := cs[..|cs| - 1];
      CollectedMeaning(front, uploads, tires, menus, alacarte);
      assert cs == front + [cs[|cs| - 1]];
    }
  }

  /** The collection step of the Commodities action: every uploaded commodity in upload
      order (Tires through its two readings), then Alignments when both of its files are
      present. Uploads keyed by a commodity without an upload slot of its own are
      never read. */
  method CollectCommodityData(uploads: map<Commodity, Table>, tires: Option<TiresReadings>,
                              menus: Option<Table>, alacarte: Option<Table>)
    returns (data: map<Commodity, CommodityData>)
    ensures data == Collected(UpdateList, uploads, tires, menus, alacarte)
  {
    data := CollectUploads(CommoditiesList, uploads, tires, menus, alacarte);
    CollectedStep(UpdateList, |CommoditiesList|, uploads, tires, menus, alacarte);
    assert UpdateList[..|CommoditiesList|] == CommoditiesList;
    if menus.Some? && alacarte.Some? {
      var entry := ReadAlignments(menus.value, alacarte.value);
      data := data[Alignments := entry];
    }
  }

  /** The loop over the commodities that have an upload of their own, in the order of `cs`. */
  method CollectUploads(cs: seq<Commodity>, uploads: map<Commodity, Table>, tires: Option<TiresReadings>,
                        menus: Option<Table>, alacarte: Option<Table>)
    returns (data: map<Commodity, CommodityData>)
    requires Alignments !in cs
    ensures data == Collected(cs, uploads, tires, menus, alacarte)
  {
    data := map[];
    var i := 0;
    while i < |cs|
      invariant 0 <= i <= |cs|
      invariant data == Collected(cs[..i], uploads, tires, menus, alacarte)
    {
      CollectedStep(cs, i, uploads, tires, menus, alacarte);
      data := RecordUpload(data, cs[i], uploads, tires, menus, alacarte);
      i := i + 1;
    }
    assert cs[..i] == cs;
  }

  /** One turn of the collection loop: Tires through its two readings, any other
      commodity through its own file. */
  method RecordUpload(data: map<Commodity, CommodityData>, c: Commodity, uploads: map<Commodity, Table>,
                      tires: Option<TiresReadings>, menus: Option<Table>, alacarte: Option<Table>)
    returns (next: map<Commodity, CommodityData>)
    requires c != Alignments
    ensures next == match EntryFor(c, uploads, tires, menus, alacarte)
                    case None => data
                    case Some(e) => data[c := e]
  {
    if c == Tires {
      next := RecordTires(data, tires);
    } else {
      next := RecordFile(data, c, uploads);
    }
  }

  /** The Tires branch of the collection loop: the upload read as is first and, only if
      that fails, with the two rows above its header skipped; empty series if both fail. */
  method RecordTires(data: map<Commodity, CommodityData>, tires: Option<TiresReadings>)
    returns (next: map<Commodity, CommodityData>)
    ensures next == if tires.None? then data else data[Tires := TiresEntry(tires.value)]
  {
    next := data;
    if tires.Some? {
      var first := ProcessTiresData(tires.value.original);
      var totals: TiresTotals;
      if first.Ok? {
        totals := first.value;
      } else {
        var second := ProcessTiresData(tires.value.skipped);
        if second.Ok? {
          totals := second.value;
        } else {
          totals := TiresTotals(map[], map[]);
        }
      }
      next := next[Tires := CommodityData(map[], map[], map[], totals.quantity, totals.gross)];
    }
  }

  /** The branch of the collection loop for any other commodity: its upload, when there
      is one, processed; empty series when that fails. */
  method RecordFile(data: map<Commodity, CommodityData>, c: Commodity, uploads: map<Commodity, Table>)
    returns (next: map<Commodity, CommodityData>)
    ensures next == if c !in uploads then data else data[c := FileEntry(uploads[c])]
  {
    next := data;
    if c in uploads {
      match ProcessCommodityFile(uploads[c], "Primary Advisor Name", "Gross")
      case Ok(v) =>
        next := next[c := CommodityData(v.counts, v.partsGross, map[], map[], map[])];
      case Err(_) =>
        next := next[c := NoData];
    }
  }

  /** The Alignments step: both uploads processed together; empty series when that fails. */
  method ReadAlignments(menus: Table, alacarte: Table) returns (entry: CommodityData)
    ensures entry == AlignmentsEntry(menus, alacarte)
  {
    match ProcessAlignments(menus, alacarte, "Advisor Name")
    case Ok(v) =>
      entry := CommodityData(v.counts, v.partsGross, v.laborGross, map[], map[]);
    case Err(_) =>
      entry := NoData;
  }
}
