/**
 * The layout of one advisor block of the destination grid: the row, counted
 * from 1 at the block's name row, of every figure the run writes. A block is
 * 26 rows high, the last of them left empty.
 */
module Layout {
  const BlockHeight := 26

  const MenuSalesOffset := 2
  const MenuSalesLaborGrossOffset := 3
  const MenuSalesPartsGrossOffset := 4
  const AlaCarteCountOffset := 5
  const AlaCarteLaborGrossOffset := 6
  const AlaCartePartsGrossOffset := 7
  // the ten commodity rows are 8 to 17
  const LaborGrossOffset := 18
  const PartsGrossOffset := 19
  const RecCountOffset := 20
  const RecSoldCountOffset := 21
  const RecAmountOffset := 22
  const RecSoldAmountOffset := 23
  const DailyLaborGrossOffset := 24
  const DailyPartsGrossOffset := 25
}
