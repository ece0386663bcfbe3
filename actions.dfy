/**
 * The run of the page: locating the day's column and the advisor blocks in the
 * grid, then the action of each button. Every action processes its uploads and
 * stages one batch of cells; a processing error is reported and writes nothing.
 * The grid reads (header row 2 and column A) are given as sequences of texts and
 * the batched write is the returned list of staged cells.
 */
module Actions {
  import opened Wrappers
  import opened Tables
  import opened Aggregators
  import opened Grid
  import opened Writer
  import opened Layout
  import opened Commodities

  /** What the run reads from the grid: row 2 and column A, each from column or row 1. */
  datatype SheetView = SheetView(row2: seq<string>, colA: seq<string>)

  /** Where the run writes: the day's column and the advisor mapping. */
  datatype Target = Target(dateCol: nat, mapping: seq<Block>)

  /** The files the page holds. */
  datatype Uploads = Uploads(
    menuSales: Option<Table>,
    alaCarte: Option<Table>,
    recommendations: Option<Table>,
    daily: Option<Table>,
    commodities: map<Commodity, Table>,
    tires: Option<TiresReadings>,
    alignmentMenus: Option<Table>,
    alignmentAlaCarte: Option<Table>)

  /** The four categories written by `update_google_sheet`. */
  datatype Category = MenuSales | AlaCarte | Recommendations | Daily

  /** The result of one action: the batch it stages, the error that stopped it, or
      nothing when the action was not offered. */
  datatype Outcome = Written(cells: seq<StagedCell>) | Failed(error: Error) | Skipped

  /** The button a visit presses: one of the four categories, the commodities, or all. */
  datatype Press = CategoryButton(category: Category) | CommoditiesButton | InputAllButton

  /** The run's preparation: the day's column in row 2 and the dictionary of advisor
      blocks found in column A. A day missing from row 2 stops the run. */
  method Locate(view: SheetView, day: nat) returns (r: Result<Target, Error>)
    requires 1 <= day <= 31
    ensures r.Err? <==> DayLabel(day) !in Drop(view.row2, 2)
    ensures r.Err? ==> r.error == DateNotFound(DayLabel(day))
    ensures r.Ok? ==> 3 <= r.value.dateCol <= |view.row2| && view.row2[r.value.dateCol - 1] == DayLabel(day)
                      && DayLabel(day) !in view.row2[2..r.value.dateCol - 1]
    ensures r.Ok? ==> r.value == Target(DateColumn(view.row2, DayLabel(day)).value, AdvisorMapping(Blocks(view.colA)))
  {
    var dayLabel := DayLabel(day);
    var column := DateColumn(view.row2, dayLabel);
    if column.Err? {
      return Err(column.error);
    }
    var names, startRows := DiscoverBlocks(view.colA);
    r := Ok(Target(column.value, AdvisorMapping(Zip(names, startRows))));
  }

  /** The upload of a category. */
  function FileOf(u: Uploads, c: Category): Option<Table> {
    match c
    case MenuSales => u.menuSales
    case AlaCarte => u.alaCarte
    case Recommendations => u.recommendations
    case Daily => u.daily
  }

  /** The first and last row, within an advisor block, that a category fills. */
  function FirstRow(c: Category): nat {
    match c
    case MenuSales => MenuSalesOffset
    case AlaCarte => AlaCarteCountOffset
    case Recommendations => RecCountOffset
    case Daily => DailyLaborGrossOffset
  }

  function LastRow(c: Category): nat {
    match c
    case MenuSales => MenuSalesPartsGrossOffset
    case AlaCarte => AlaCartePartsGrossOffset
    case Recommendations => RecSoldAmountOffset
    case Daily => DailyPartsGrossOffset
  }

  /** The series a category's upload yields, primary first, in the order of its rows;
      one series per row from `FirstRow` to `LastRow`. */
  function Series(c: Category, t: Table): (r: Result<seq<map<string, real>>, Error>)
    ensures r.Ok? ==> |r.value| == LastRow(c) - FirstRow(c) + 1
  {
    match c
    case MenuSales =>
      (match ProcessMenuSales(t, "Advisor Name")
       case Ok(s) => Ok([s.counts, s.laborGross, s.partsGross])
       case Err(e) => Err(e))
    case AlaCarte =>
      (match ProcessAlaCarte(t, "Advisor Name")
       case Ok(s) => Ok([s.counts, s.laborGross, s.partsGross])
       case Err(e) => Err(e))
    case Recommendations =>
      (match ProcessRecommendations(t, "Name")
       case Ok(s) => Ok([s.recs, s.sold, s.amount, s.soldAmount])
       case Err(e) => Err(e))
    case Daily =>
      (match ProcessDaily(t, "Name")
       case Ok(s) => Ok([s.laborGross, s.partsGross])
       case Err(e) => Err(e))
  }

  /** A category's action on its upload: the processing error, or the cells of every
      series for every advisor, starting at the category's first row. */
  method UpdateCategory(c: Category, t: Table, target: Target) returns (o: Outcome)
    ensures o.Failed? <==> Series(c, t).Err?
    ensures o.Failed? ==> o.error == Series(c, t).error
    ensures o.Written? ==> o.cells == SheetCells(Series(c, t).value, target.mapping, target.dateCol, FirstRow(c) - 1)
    ensures !o.Skipped?
  {
    var series := Series(c, t);
    if series.Err? {
      return Failed(series.error);
    }
    var cells := UpdateSheet(series.value[0], series.value[1..], target.dateCol, FirstRow(c) - 1, target.mapping);
    assert [series.value[0]] + series.value[1..] == series.value;
    o := Written(cells);
  }

  /** Every cell a category writes lies in the day's column, in an advisor's block,
      between the category's first and last row of that block. */
  lemma CategoryCellsInRows(c: Category, t: Table, target: Target, x: StagedCell)
    requires Series(c, t).Ok?
    requires x in SheetCells(Series(c, t).value, target.mapping, target.dateCol, FirstRow(c) - 1)
    ensures x.col == target.dateCol
    ensures exists a :: 0 <= a < |target.mapping|
                        && target.mapping[a].startRow + FirstRow(c) - 1 <= x.row <= target.mapping[a].startRow + LastRow(c) - 1
  {
    var series := Series(c, t).value;
    SheetCellsOnlyMapped(series, target.mapping, target.dateCol, FirstRow(c) - 1, x);
  }

  /** The rows of a block that the actions fill do not overlap: each category, the ten
      commodity rows and the two totals have rows of their own, all below the name row
      and above the block's last, empty row. */
  lemma RowsDisjoint(c: Category, d: Category, k: Commodity)
    ensures 1 < FirstRow(c) <= LastRow(c) < BlockHeight
    ensures c != d ==> LastRow(c) < FirstRow(d) || LastRow(d) < FirstRow(c)
    ensures CommodityRowOffset(k) < FirstRow(c) || LastRow(c) < CommodityRowOffset(k)
    ensures LaborGrossOffset < FirstRow(c) || LastRow(c) < LaborGrossOffset
    ensures PartsGrossOffset < FirstRow(c) || LastRow(c) < PartsGrossOffset
    ensures CommodityRowOffset(k) < LaborGrossOffset < PartsGrossOffset < BlockHeight
  {
  }

  /** The commodities button is offered once any commodity or alignment file is uploaded. */
  predicate CommoditiesOffered(u: Uploads) {
    (exists c :: c in u.commodities && c in CommoditiesList && c != Tires) || u.tires.Some?
    || u.alignmentMenus.Some? || u.alignmentAlaCarte.Some?
  }

  /** The commodities action: collect every reading, then stage the count rows and the
      totals of every commodity of the update list. Unreadable uploads do not stop it. */
  method UpdateAllCommodities(u: Uploads, target: Target) returns (o: Outcome)
    ensures o == CommoditiesWritten(u, target)
  {
    var data := CollectCommodityData(u.commodities, u.tires, u.alignmentMenus, u.alignmentAlaCarte);
    var cells := UpdateCommodities(target.dateCol, data, UpdateList, target.mapping);
    o := Written(cells);
  }

  /** What a category's button does: nothing without an upload, the processing error
      when the upload cannot be processed, else the cells of its series. */
  predicate CategoryAnswer(o: Outcome, c: Category, u: Uploads, target: Target) {
    && (o.Skipped? <==> FileOf(u, c).None?)
    && (o.Failed? <==> FileOf(u, c).Some? && Series(c, FileOf(u, c).value).Err?)
    && (o.Written? ==> o.cells == SheetCells(Series(c, FileOf(u, c).value).value, target.mapping,
                                             target.dateCol, FirstRow(c) - 1))
  }

  /** A category's button: offered only with an upload. */
  method PressCategory(c: Category, u: Uploads, target: Target) returns (o: Outcome)
    ensures CategoryAnswer(o, c, u, target)
  {
    var file := FileOf(u, c);
    if file.None? {
      return Skipped;
    }
    o := UpdateCategory(c, file.value, target);
  }

  /** What the commodities action stages for the uploads `u`. */
  function CommoditiesWritten(u: Uploads, target: Target): Outcome {
    Written(CommodityCells(Collected(UpdateList, u.commodities, u.tires, u.alignmentMenus, u.alignmentAlaCarte),
                           UpdateList, target.mapping, target.dateCol))
  }

  /** "Input All" runs the commodities action even when no commodity file is uploaded;
      it then overwrites the day's commodity rows and both totals with zeros. */
  lemma UnofferedCommoditiesWriteZeros(u: Uploads, target: Target)
    requires !CommoditiesOffered(u)
    ensures forall x :: x in CommoditiesWritten(u, target).cells ==> x.value == 0.0
  {
    CollectedMeaning(UpdateList, u.commodities, u.tires, u.alignmentMenus, u.alignmentAlaCarte);
    assert Collected(UpdateList, u.commodities, u.tires, u.alignmentMenus, u.alignmentAlaCarte) == map[];
    NoDataWritesZeros(UpdateList, target.mapping, target.dateCol);
  }

  /** What pressing a button yields, one outcome per action it runs: a category's button
      runs that category; the commodities button runs the commodities action when it is
      offered; "Input All" runs every category that has an upload, in the page's order,
      and the commodities action third, whatever was uploaded. */
  predicate Answered(outcomes: seq<Outcome>, press: Press, u: Uploads, target: Target) {
    match press
    case CategoryButton(c) => |outcomes| == 1 && CategoryAnswer(outcomes[0], c, u, target)
    case CommoditiesButton =>
      outcomes == if CommoditiesOffered(u) then [CommoditiesWritten(u, target)] else [Skipped]
    case InputAllButton =>
      && |outcomes| == 5 && outcomes[2] == CommoditiesWritten(u, target)
      && CategoryAnswer(outcomes[0], MenuSales, u, target) && CategoryAnswer(outcomes[1], AlaCarte, u, target)
      && CategoryAnswer(outcomes[3], Recommendations, u, target) && CategoryAnswer(outcomes[4], Daily, u, target)
  }

  /** The actions of the pressed button, on a located grid. */
  method Dispatch(u: Uploads, press: Press, target: Target) returns (outcomes: seq<Outcome>)
    ensures Answered(outcomes, press, u, target)
  {
    match press
    case CategoryButton(c) =>
      var o := PressCategory(c, u, target);
      outcomes := [o];
    case CommoditiesButton =>
      var o := Skipped;
      if CommoditiesOffered(u) {
        o := UpdateAllCommodities(u, target);
      }
      outcomes := [o];
    case InputAllButton =>
      outcomes := InputAll(u, target);
  }

  /** "Input All": the four categories and the commodities, in the page's order. */
  method InputAll(u: Uploads, target: Target) returns (outcomes: seq<Outcome>)
    ensures Answered(outcomes, InputAllButton, u, target)
  {
    var menu := PressCategory(MenuSales, u, target);
    var alaCarte := PressCategory(AlaCarte, u, target);
    var commodities := UpdateAllCommodities(u, target);
    var recs := PressCategory(Recommendations, u, target);
    var daily := PressCategory(Daily, u, target);
    outcomes := [menu, alaCarte, commodities, recs, daily];
  }

  /** A visit: locate the day and the blocks, then run the pressed button. A day missing
      from row 2 stops the visit before anything is processed or written. */
  method Run(view: SheetView, day: nat, u: Uploads, press: Press) returns (r: Result<seq<Outcome>, Error>)
    requires 1 <= day <= 31
    ensures r.Err? <==> DayLabel(day) !in Drop(view.row2, 2)
    ensures r.Err? ==> r.error == DateNotFound(DayLabel(day))
    ensures r.Ok? ==> Answered(r.value, press, u, Target(DateColumn(view.row2, DayLabel(day)).value, AdvisorMapping(Blocks(view.colA))))
  {
    var located := Locate(view, day);
    if located.Err? {
      return Err(located.error);
    }
    var outcomes := Dispatch(u, press, located.value);
    r := Ok(outcomes);
  }
}
