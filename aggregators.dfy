/**
 * The category aggregators: each reads its columns from one upload,
 * normalises the advisor key, drops the rows the category does not trust,
 * cleans its amounts and groups by advisor.
 */
module Aggregators {
  import opened Wrappers
  import opened Text
  import opened Tables
  import opened Grouping

  const LaborColumn := "Opcode Labor Gross"
  const PartsColumn := "Opcode Parts Gross"

  /** count, labor gross and parts gross per advisor (menu sales, a-la-carte, alignments). */
  datatype SalesTotals = SalesTotals(counts: map<string, real>, laborGross: map<string, real>, partsGross: map<string, real>)

  /** count and gross per advisor of one commodity upload. */
  datatype CommodityTotals = CommodityTotals(counts: map<string, real>, partsGross: map<string, real>)

  /** the four recommendation series per advisor. */
  datatype RecommendationTotals = RecommendationTotals(
    recs: map<string, real>, sold: map<string, real>, amount: map<string, real>, soldAmount: map<string, real>)

  /** labor and parts gross per advisor of the daily report. */
  datatype DailyTotals = DailyTotals(laborGross: map<string, real>, partsGross: map<string, real>)

  /** `clean_column_data(df[name])`: a missing column, then a cell that does not clean, is an error. */
  function Cleaned(t: Table, name: string): (r: Result<seq<Option<real>>, Error>)
    ensures r.Ok? ==> name in t.columns && |r.value| == |t.rows|
    ensures name !in t.columns ==> r == Err(ColumnMissing(name))
    ensures name in t.columns && r.Err? ==> r.error == NotNumeric(name)
  {
    var cells :- RequireColumn(t, name);
    CleanColumn(name, cells)
  }

  /** `process_menu_sales_data` (divisor 2) and `process_alacarte_data` (divisor 1): the
      names go through `.str` (so a numeric names column is an error), the count is
      `value_counts() / divisor`, the two gross columns are cleaned and summed. */
  function SalesReport(t: Table, names: string, divisor: nat): (r: Result<SalesTotals, Error>)
    requires divisor > 0
    ensures names !in t.columns ==> r == Err(ColumnMissing(names))
    ensures names in t.columns && !TextTyped(Column(t, names).value) ==> r == Err(NotText(names))
    ensures r.Ok? <==> names in t.columns && TextTyped(Column(t, names).value)
                       && Cleaned(t, LaborColumn).Ok? && Cleaned(t, PartsColumn).Ok?
  {
    var nameCells :- RequireText(t, names);
    var labor :- Cleaned(t, LaborColumn);
    var parts :- Cleaned(t, PartsColumn);
    var keys := NameKeys(nameCells);
    Ok(SalesTotals(CountsOver(CountBy(keys), divisor), SumBy(keys, labor), SumBy(keys, parts)))
  }

  function ProcessMenuSales(t: Table, names: string): Result<SalesTotals, Error> {
    SalesReport(t, names, 2)
  }

  function ProcessAlaCarte(t: Table, names: string): Result<SalesTotals, Error> {
    SalesReport(t, names, 1)
  }

  /** What a sales report says of each advisor: the count is the number of rows whose
      normalised name is theirs, divided by the divisor (so menu sales may be fractional),
      and each gross is the NaN-skipping sum of the cleaned amounts of those rows.
      Every series has exactly the advisors named in the upload. */
  lemma SalesReportMeaning(t: Table, names: string, divisor: nat)
    requires divisor > 0 && SalesReport(t, names, divisor).Ok?
    ensures var r := SalesReport(t, names, divisor).value;
      var keys := NameKeys(Column(t, names).value);
      var labor := Cleaned(t, LaborColumn).value;
      var parts := Cleaned(t, PartsColumn).value;
      && (forall k :: k in r.counts <==> Some(k) in keys)
      && r.laborGross.Keys == r.counts.Keys && r.partsGross.Keys == r.counts.Keys
      && (forall k :: k in r.counts ==> r.counts[k] == multiset(keys)[Some(k)] as real / divisor as real)
      && (forall k :: k in r.laborGross ==> r.laborGross[k] == Sum(Group(keys, labor, k)))
      && (forall k :: k in r.partsGross ==> r.partsGross[k] == Sum(Group(keys, parts, k)))
  {
    var keys := NameKeys(Column(t, names).value);
    var labor := Cleaned(t, LaborColumn).value;
    var parts := Cleaned(t, PartsColumn).value;
    var r := SalesReport(t, names, divisor).value;
    assert r == SalesTotals(CountsOver(CountBy(keys), divisor), SumBy(keys, labor), SumBy(keys, parts));
    CountByCounts(keys);
    CountAndSumSameKeys(keys, labor);
    CountAndSumSameKeys(keys, parts);
    SumByGroups(keys, labor);
    SumByGroups(keys, parts);
  }

  /** A sales report fails on the first problem in the order the source meets it: the
      names column, then the labor column, then the parts column. */
  lemma SalesReportErrors(t: Table, names: string, divisor: nat)
    requires divisor > 0
    ensures names in t.columns && TextTyped(Column(t, names).value) && Cleaned(t, LaborColumn).Err? ==>
      SalesReport(t, names, divisor) == Err(Cleaned(t, LaborColumn).error)
    ensures names in t.columns && TextTyped(Column(t, names).value)
            && Cleaned(t, LaborColumn).Ok? && Cleaned(t, PartsColumn).Err? ==>
      SalesReport(t, names, divisor) == Err(Cleaned(t, PartsColumn).error)
  {
  }

  /** `process_commodity_file`: names through `astype(str)` (a blank name is the advisor
      "NAN"), the gross column cleaned, then counted and summed per advisor. */
  function ProcessCommodityFile(t: Table, names: string, gross: string): (r: Result<CommodityTotals, Error>)
    ensures names !in t.columns ==> r == Err(ColumnMissing(names))
    ensures r.Ok? <==> names in t.columns && Cleaned(t, gross).Ok?
  {
    var nameCells :- RequireColumn(t, names);
    var amounts :- Cleaned(t, gross);
    var keys := NameKeysAsText(nameCells);
    Ok(CommodityTotals(CountsOver(CountBy(keys), 1), SumBy(keys, amounts)))
  }

  /** Each advisor's count is the number of rows naming them and their gross is the sum
      over those rows; the two series have the same advisors. */
  lemma CommodityFileMeaning(t: Table, names: string, gross: string)
    requires ProcessCommodityFile(t, names, gross).Ok?
    ensures var r := ProcessCommodityFile(t, names, gross).value;
      var keys := NameKeysAsText(Column(t, names).value);
      var amounts := Cleaned(t, gross).value;
      && (forall k :: k in r.counts <==> Some(k) in keys)
      && r.partsGross.Keys == r.counts.Keys
      && (forall k :: k in r.counts ==> r.counts[k] == multiset(keys)[Some(k)] as real)
      && (forall k :: k in r.partsGross ==> r.partsGross[k] == Sum(Group(keys, amounts, k)))
  {
    var keys := NameKeysAsText(Column(t, names).value);
    var amounts := Cleaned(t, gross).value;
    var r := ProcessCommodityFile(t, names, gross).value;
    assert r == CommodityTotals(CountsOver(CountBy(keys), 1), SumBy(keys, amounts));
    CountByCounts(keys);
    CountAndSumSameKeys(keys, amounts);
    SumByGroups(keys, amounts);
  }

  /** A row with a blank advisor name is not dropped: it is counted under "NAN". */
  lemma CommodityFileCountsBlankNames(t: Table, names: string, gross: string, i: nat)
    requires ProcessCommodityFile(t, names, gross).Ok?
    requires i < |t.rows| && Column(t, names).value[i] == Blank
    ensures "NAN" in ProcessCommodityFile(t, names, gross).value.counts
  {
    var keys := NameKeysAsText(Column(t, names).value);
    assert keys[i] == Some("NAN");
    CommodityFileMeaning(t, names, gross);
  }

  /** A row whose name is a whole number is not dropped either: it is counted under that
      number's numeral, the text `astype(str)` makes of it. */
  lemma CommodityFileCountsNumericNames(t: Table, names: string, gross: string, i: nat, n: int)
    requires ProcessCommodityFile(t, names, gross).Ok?
    requires i < |t.rows| && Column(t, names).value[i] == Num(n as real)
    ensures ShowInt(n) in ProcessCommodityFile(t, names, gross).value.counts
  {
    var keys := NameKeysAsText(Column(t, names).value);
    assert keys[i] == Some(ShowInt(n));
    CommodityFileMeaning(t, names, gross);
  }

  /** A column of one upload, or blanks where that upload lacks it (as `pd.concat` fills). */
  function ColumnOrBlank(t: Table, name: string): (r: seq<Cell>)
    ensures |r| == |t.rows|
  {
    match Column(t, name)
    case Some(cells) => cells
    case None => seq(|t.rows|, i => Blank)
  }

  /** `pd.concat([a, b], ignore_index=True)[name]`: the rows of `a` then those of `b`;
      a KeyError only when neither upload has the column. */
  function StackedColumn(a: Table, b: Table, name: string): (r: Result<seq<Cell>, Error>)
    ensures r.Err? <==> name !in a.columns && name !in b.columns
    ensures r.Err? ==> r.error == ColumnMissing(name)
    ensures r.Ok? ==> |r.value| == |a.rows| + |b.rows|
  {
    if name !in a.columns && name !in b.columns then Err(ColumnMissing(name))
    else Ok(ColumnOrBlank(a, name) + ColumnOrBlank(b, name))
  }

  function StackedCleaned(a: Table, b: Table, name: string): (r: Result<seq<Option<real>>, Error>)
    ensures r.Ok? ==> |r.value| == |a.rows| + |b.rows|
  {
    var cells :- StackedColumn(a, b, name);
    CleanColumn(name, cells)
  }

  /** `process_alignment_files`: menus and a-la-carte rows stacked, names through
      `astype(str)`, both gross columns cleaned, counts halved. */
  function ProcessAlignments(menus: Table, alacarte: Table, names: string): (r: Result<SalesTotals, Error>)
    ensures names !in menus.columns && names !in alacarte.columns ==> r == Err(ColumnMissing(names))
    ensures r.Ok? <==> (StackedColumn(menus, alacarte, names).Ok?
                        && StackedCleaned(menus, alacarte, LaborColumn).Ok?
                        && StackedCleaned(menus, alacarte, PartsColumn).Ok?)
  {
    var nameCells :- StackedColumn(menus, alacarte, names);
    var labor :- StackedCleaned(menus, alacarte, LaborColumn);
    var parts :- StackedCleaned(menus, alacarte, PartsColumn);
    var keys := NameKeysAsText(nameCells);
    Ok(SalesTotals(CountsOver(CountBy(keys), 2), SumBy(keys, labor), SumBy(keys, parts)))
  }

  /** One upload's own contribution to the alignment figures: its name keys and a cleaned gross column. */
  function UploadKeys(t: Table, names: string): (r: seq<Option<string>>)
    ensures |r| == |t.rows|
  {
    NameKeysAsText(ColumnOrBlank(t, names))
  }

  /** The alignment figures of an advisor are those of the two uploads added together:
      the count is (rows in menus + rows in a-la-carte) / 2 and each gross is the sum of the
      two uploads' group sums. An upload without the names column counts under "NAN". */
  lemma AlignmentsAddUp(menus: Table, alacarte: Table, names: string, k: string)
    requires ProcessAlignments(menus, alacarte, names).Ok?
    ensures CleanColumn(LaborColumn, ColumnOrBlank(menus, LaborColumn)).Ok?
    ensures CleanColumn(LaborColumn, ColumnOrBlank(alacarte, LaborColumn)).Ok?
    ensures CleanColumn(PartsColumn, ColumnOrBlank(menus, PartsColumn)).Ok?
    ensures CleanColumn(PartsColumn, ColumnOrBlank(alacarte, PartsColumn)).Ok?
    ensures var r := ProcessAlignments(menus, alacarte, names).value;
      var km := UploadKeys(menus, names);
      var ka := UploadKeys(alacarte, names);
      && Get(r.counts, k) == (multiset(km)[Some(k)] + multiset(ka)[Some(k)]) as real / 2.0
      && Get(r.laborGross, k)
         == Get(SumBy(km, CleanColumn(LaborColumn, ColumnOrBlank(menus, LaborColumn)).value), k)
          + Get(SumBy(ka, CleanColumn(LaborColumn, ColumnOrBlank(alacarte, LaborColumn)).value), k)
      && Get(r.partsGross, k)
         == Get(SumBy(km, CleanColumn(PartsColumn, ColumnOrBlank(menus, PartsColumn)).value), k)
          + Get(SumBy(ka, CleanColumn(PartsColumn, ColumnOrBlank(alacarte, PartsColumn)).value), k)
  {
    var km := UploadKeys(menus, names);
    var ka := UploadKeys(alacarte, names);
    var cells := ColumnOrBlank(menus, names) + ColumnOrBlank(alacarte, names);
    NameKeysAppend(ColumnOrBlank(menus, names), ColumnOrBlank(alacarte, names));
    var keys := NameKeysAsText(cells);
    assert keys == km + ka;
    var lm := ColumnOrBlank(menus, LaborColumn);
    var la := ColumnOrBlank(alacarte, LaborColumn);
    CleanColumnAppend(LaborColumn, lm, la);
    var labor := CleanColumn(LaborColumn, lm + la).value;
    var pm := ColumnOrBlank(menus, PartsColumn);
    var pa := ColumnOrBlank(alacarte, PartsColumn);
    CleanColumnAppend(PartsColumn, pm, pa);
    var parts := CleanColumn(PartsColumn, pm + pa).value;
    var r := ProcessAlignments(menus, alacarte, names).value;
    assert r == SalesTotals(CountsOver(CountBy(keys), 2), SumBy(keys, labor), SumBy(keys, parts));
    CountByCounts(keys);
    assert multiset(keys) == multiset(km) + multiset(ka);
    SumByAppend(km, CleanColumn(LaborColumn, lm).value, ka, CleanColumn(LaborColumn, la).value, k);
    SumByAppend(km, CleanColumn(PartsColumn, pm).value, ka, CleanColumn(PartsColumn, pa).value, k);
  }

  const RecsColumn := "Recommendations"
  const SoldColumn := "Recommendations Sold"
  const AmountColumn := "Recommendations $ amount"
  const SoldAmountColumn := "Recommendations Sold $ amount"
  const RecommendationColumns := [RecsColumn, SoldColumn, AmountColumn, SoldAmountColumn]

  /** `df[names].str.strip().str.upper() != "TOTAL"`: a blank or numeric name (NaN) is kept. */
  function NotTotal(names: seq<Cell>): (m: seq<bool>)
    ensures |m| == |names|
    ensures forall i :: 0 <= i < |names| ==> (m[i] <==> NameKey(names[i]) != Some("TOTAL"))
  {
    seq(|names|, i requires 0 <= i < |names| => NameKey(names[i]) != Some("TOTAL"))
  }

  /** One column of the filtered frame, through `clean_column_data`. */
  function KeptCleaned(t: Table, name: string, keep: seq<bool>): (r: Result<seq<Option<real>>, Error>)
    requires name in t.columns && |keep| == |t.rows|
    ensures r.Ok? ==> |r.value| == Kept(keep)
  {
    CleanColumn(name, Where(Column(t, name).value, keep))
  }

  /** `process_recommendations_data` with every series cleaned before it is summed (the
      source sums first and cleans the sums: see `ProcessRecommendationsAsWritten`). Header
      names are stripped, "TOTAL" rows dropped, the four columns required in order. */
  function ProcessRecommendations(t0: Table, names: string): (r: Result<RecommendationTotals, Error>)
    ensures var t := StripHeaders(t0);
      && (names !in t.columns ==> r == Err(ColumnMissing(names)))
      && (names in t.columns && !TextTyped(Column(t, names).value) ==> r == Err(NotText(names)))
      && (names in t.columns && TextTyped(Column(t, names).value)
          && FirstMissing(t.columns, RecommendationColumns).Some? ==>
            r == Err(ColumnMissing(FirstMissing(t.columns, RecommendationColumns).value)))
  {
    RecommendationsOf(StripHeaders(t0), names)
  }

  /** The report once its header names are stripped. */
  function RecommendationsOf(t: Table, names: string): (r: Result<RecommendationTotals, Error>)
    ensures names !in t.columns ==> r == Err(ColumnMissing(names))
    ensures names in t.columns && !TextTyped(Column(t, names).value) ==> r == Err(NotText(names))
    ensures names in t.columns && TextTyped(Column(t, names).value)
            && FirstMissing(t.columns, RecommendationColumns).Some? ==>
              r == Err(ColumnMissing(FirstMissing(t.columns, RecommendationColumns).value))
  {
    var nameCells :- RequireText(t, names);
    match FirstMissing(t.columns, RecommendationColumns)
    case Some(c) => Err(ColumnMissing(c))
    case None => RecommendationSums(t, nameCells)
  }

  function RecommendationSums(t: Table, nameCells: seq<Cell>): Result<RecommendationTotals, Error>
    requires |nameCells| == |t.rows|
    requires forall c :: c in RecommendationColumns ==> c in t.columns
  {
    var keep := NotTotal(nameCells);
    var recs :- KeptCleaned(t, RecsColumn, keep);
    var sold :- KeptCleaned(t, SoldColumn, keep);
    var amount :- KeptCleaned(t, AmountColumn, keep);
    var soldAmount :- KeptCleaned(t, SoldAmountColumn, keep);
    var keys := Where(NameKeys(nameCells), keep);
    Ok(RecommendationTotals(SumBy(keys, recs), SumBy(keys, sold), SumBy(keys, amount), SumBy(keys, soldAmount)))
  }

  /** The "TOTAL" row of a report never becomes an advisor. */
  lemma RecommendationsHaveNoTotal(t0: Table, names: string)
    requires ProcessRecommendations(t0, names).Ok?
    ensures var r := ProcessRecommendations(t0, names).value;
      && "TOTAL" !in r.recs && "TOTAL" !in r.sold && "TOTAL" !in r.amount && "TOTAL" !in r.soldAmount
  {
    var t := StripHeaders(t0);
    var nameCells := Column(t, names).value;
    var keep := NotTotal(nameCells);
    var keys := Where(NameKeys(nameCells), keep);
    if Some("TOTAL") in keys {
      WhereMember(NameKeys(nameCells), keep, Some("TOTAL"));
      assert false;
    }
    var r := ProcessRecommendations(t0, names).value;
    assert r == RecommendationTotals(
      SumBy(keys, KeptCleaned(t, RecsColumn, keep).value),
      SumBy(keys, KeptCleaned(t, SoldColumn, keep).value),
      SumBy(keys, KeptCleaned(t, AmountColumn, keep).value),
      SumBy(keys, KeptCleaned(t, SoldAmountColumn, keep).value));
    SumByGroups(keys, KeptCleaned(t, RecsColumn, keep).value);
    SumByGroups(keys, KeptCleaned(t, SoldColumn, keep).value);
    SumByGroups(keys, KeptCleaned(t, AmountColumn, keep).value);
    SumByGroups(keys, KeptCleaned(t, SoldAmountColumn, keep).value);
  }

  /** Rows a mask drops, wherever they stand, never reach a kept-and-cleaned column. */
  lemma KeptCleanedIgnores(columns: seq<string>, front: seq<Row>, extra: seq<Row>, back: seq<Row>, name: string,
                           mf: seq<bool>, me: seq<bool>, mb: seq<bool>)
    requires name in columns && |mf| == |front| && |me| == |extra| && |mb| == |back|
    requires forall i :: 0 <= i < |me| ==> !me[i]
    ensures KeptCleaned(Table(columns, front + extra + back), name, mf + me + mb)
         == KeptCleaned(Table(columns, front + back), name, mf + mb)
  {
    ColumnInsertRows(columns, front, extra, back, name);
    WhereSkips(Column(Table(columns, front), name).value, Column(Table(columns, extra), name).value,
               Column(Table(columns, back), name).value, mf, me, mb);
  }

  /** The advisor keys of the kept rows are unchanged by rows the mask drops, wherever they stand. */
  lemma KeptKeysIgnore(nf: seq<Cell>, ne: seq<Cell>, nb: seq<Cell>, mf: seq<bool>, me: seq<bool>, mb: seq<bool>)
    requires |mf| == |nf| && |me| == |ne| && |mb| == |nb|
    requires forall i :: 0 <= i < |me| ==> !me[i]
    ensures Where(NameKeys(nf + ne + nb), mf + me + mb) == Where(NameKeys(nf + nb), mf + mb)
  {
    NameKeysAppend(nf + ne, nb);
    NameKeysAppend(nf, ne);
    NameKeysAppend(nf, nb);
    WhereSkips(NameKeys(nf), NameKeys(ne), NameKeys(nb), mf, me, mb);
  }

  /** Rows whose advisor is "TOTAL" change nothing, wherever they stand in the upload:
      taking them out of a report that names an advisor by text leaves the result (and
      any error) as it was. */
  lemma RecommendationsIgnoreTotalRows(columns: seq<string>, front: seq<Row>, extra: seq<Row>, back: seq<Row>,
                                       names: string, j: nat)
    requires names in columns
    requires j < |front + back| && Column(Table(columns, front + back), names).value[j].Str?
    requires forall c :: c in Column(Table(columns, extra), names).value ==> NameKey(c) == Some("TOTAL")
    ensures RecommendationsOf(Table(columns, front + extra + back), names)
         == RecommendationsOf(Table(columns, front + back), names)
  {
    ColumnInsertRows(columns, front, extra, back, names);
    var nf := Column(Table(columns, front), names).value;
    var ne := Column(Table(columns, extra), names).value;
    var nb := Column(Table(columns, back), names).value;
    TextTypedInsert(nf, ne, nb, j);
    assert forall i :: 0 <= i < |ne| ==> NameKey(ne[i]) == Some("TOTAL") by {
      forall i | 0 <= i < |ne| ensures NameKey(ne[i]) == Some("TOTAL") {
        assert ne[i] in ne;
      }
    }
    if FirstMissing(columns, RecommendationColumns).None? {
      SumsIgnoreTotalRows(columns, front, extra, back, nf, ne, nb);
    }
  }

  /** `NotTotal` is computed row by row, so it distributes over stacked name columns. */
  lemma NotTotalAppend(a: seq<Cell>, b: seq<Cell>)
    ensures NotTotal(a + b) == NotTotal(a) + NotTotal(b)
  {
    var c := a + b;
    forall i | 0 <= i < |c| ensures NotTotal(c)[i] == (NotTotal(a) + NotTotal(b))[i] {
      if i < |a| { assert c[i] == a[i]; } else { assert c[i] == b[i - |a|]; }
    }
  }

  lemma SumsIgnoreTotalRows(columns: seq<string>, front: seq<Row>, extra: seq<Row>, back: seq<Row>,
                            nf: seq<Cell>, ne: seq<Cell>, nb: seq<Cell>)
    requires forall c :: c in RecommendationColumns ==> c in columns
    requires |nf| == |front| && |ne| == |extra| && |nb| == |back|
    requires forall i :: 0 <= i < |ne| ==> NameKey(ne[i]) == Some("TOTAL")
    ensures RecommendationSums(Table(columns, front + extra + back), nf + ne + nb)
         == RecommendationSums(Table(columns, front + back), nf + nb)
  {
    var mf := NotTotal(nf);
    var me := NotTotal(ne);
    var mb := NotTotal(nb);
    NotTotalAppend(nf + ne, nb);
    NotTotalAppend(nf, ne);
    NotTotalAppend(nf, nb);
    KeptKeysIgnore(nf, ne, nb, mf, me, mb);
    KeptCleanedIgnores(columns, front, extra, back, RecsColumn, mf, me, mb);
    KeptCleanedIgnores(columns, front, extra, back, SoldColumn, mf, me, mb);
    KeptCleanedIgnores(columns, front, extra, back, AmountColumn, mf, me, mb);
    KeptCleanedIgnores(columns, front, extra, back, SoldAmountColumn, mf, me, mb);
  }

  /** What the recommendations report says of each advisor, wherever its "TOTAL" rows
      stand: the advisors are exactly the keys of the rows not named "TOTAL", and each
      series is the sum of that advisor's cleaned values over those rows. */
  lemma RecommendationsMeaning(t: Table, names: string)
    requires RecommendationsOf(t, names).Ok?
    ensures names in t.columns && forall c :: c in RecommendationColumns ==> c in t.columns
    ensures var keep := NotTotal(Column(t, names).value);
      && KeptCleaned(t, RecsColumn, keep).Ok? && KeptCleaned(t, SoldColumn, keep).Ok?
      && KeptCleaned(t, AmountColumn, keep).Ok? && KeptCleaned(t, SoldAmountColumn, keep).Ok?
    ensures var keep := NotTotal(Column(t, names).value);
      var keys := Where(NameKeys(Column(t, names).value), keep);
      var r := RecommendationsOf(t, names).value;
      && (forall k :: k in r.recs <==> Some(k) in keys)
      && r.sold.Keys == r.recs.Keys && r.amount.Keys == r.recs.Keys && r.soldAmount.Keys == r.recs.Keys
      && (forall k :: k in r.recs ==> r.recs[k] == Sum(Group(keys, KeptCleaned(t, RecsColumn, keep).value, k)))
      && (forall k :: k in r.sold ==> r.sold[k] == Sum(Group(keys, KeptCleaned(t, SoldColumn, keep).value, k)))
      && (forall k :: k in r.amount ==> r.amount[k] == Sum(Group(keys, KeptCleaned(t, AmountColumn, keep).value, k)))
      && (forall k :: k in r.soldAmount ==>
            r.soldAmount[k] == Sum(Group(keys, KeptCleaned(t, SoldAmountColumn, keep).value, k)))
  {
    var n := Column(t, names).value;
    assert FirstMissing(t.columns, RecommendationColumns).None?;
    assert RecommendationsOf(t, names) == RecommendationSums(t, n);
    var keep := NotTotal(n);
    var keys := Where(NameKeys(n), keep);
    var recs := KeptCleaned(t, RecsColumn, keep).value;
    var sold := KeptCleaned(t, SoldColumn, keep).value;
    var amount := KeptCleaned(t, AmountColumn, keep).value;
    var soldAmount := KeptCleaned(t, SoldAmountColumn, keep).value;
    assert RecommendationsOf(t, names).value == RecommendationTotals(
      SumBy(keys, recs), SumBy(keys, sold), SumBy(keys, amount), SumBy(keys, soldAmount));
    SumByGroups(keys, recs);
    SumByGroups(keys, sold);
    SumByGroups(keys, amount);
    SumByGroups(keys, soldAmount);
  }

  /** On a report without a "TOTAL" row every series is the plain per-advisor group sum
      of its cleaned column. */
  lemma RecommendationsWithoutTotal(t: Table, names: string)
    requires RecommendationsOf(t, names).Ok?
    requires forall c :: c in Column(t, names).value ==> NameKey(c) != Some("TOTAL")
    ensures var keys := NameKeys(Column(t, names).value);
      var r := RecommendationsOf(t, names).value;
      && Cleaned(t, RecsColumn).Ok? && r.recs == SumBy(keys, Cleaned(t, RecsColumn).value)
      && Cleaned(t, SoldColumn).Ok? && r.sold == SumBy(keys, Cleaned(t, SoldColumn).value)
      && Cleaned(t, AmountColumn).Ok? && r.amount == SumBy(keys, Cleaned(t, AmountColumn).value)
      && Cleaned(t, SoldAmountColumn).Ok? && r.soldAmount == SumBy(keys, Cleaned(t, SoldAmountColumn).value)
  {
    var n := Column(t, names).value;
    var keep := NotTotal(n);
    assert forall i :: 0 <= i < |keep| ==> keep[i] by {
      forall i | 0 <= i < |keep| ensures keep[i] {
        assert n[i] in n;
      }
    }
    assert FirstMissing(t.columns, RecommendationColumns).None?;
    assert RecommendationsOf(t, names) == RecommendationSums(t, n);
    WhereConstant(NameKeys(n), keep);
    WhereConstant(Column(t, RecsColumn).value, keep);
    WhereConstant(Column(t, SoldColumn).value, keep);
    WhereConstant(Column(t, AmountColumn).value, keep);
    WhereConstant(Column(t, SoldAmountColumn).value, keep);
    var keys := NameKeys(n);
    assert RecommendationSums(t, n).value == RecommendationTotals(
      SumBy(keys, Cleaned(t, RecsColumn).value), SumBy(keys, Cleaned(t, SoldColumn).value),
      SumBy(keys, Cleaned(t, AmountColumn).value), SumBy(keys, Cleaned(t, SoldAmountColumn).value));
  }

  /** The recommendation series exactly as the source computes them: the rows are summed
      per advisor first, and only the two dollar series are cleaned, after summing. */
  datatype RecommendationsAsWritten = RecommendationsAsWritten(
    recs: map<string, Cell>, sold: map<string, Cell>, amount: map<string, real>, soldAmount: map<string, real>)

  /** One step of pandas' `sum()` over an object column, adding the cell `c` in front of the
      sum `acc` of the later rows: a blank is skipped, numbers add, texts concatenate in row
      order, and a number meeting a text is a TypeError (`None`). An `acc` of `Blank` means
      no value yet. */
  function AddCell(c: Cell, acc: Cell): Option<Cell> {
    match (c, acc)
    case (Blank, _) => Some(acc)
    case (_, Blank) => Some(c)
    case (Num(x), Num(y)) => Some(Num(x + y))
    case (Str(a), Str(b)) => Some(Str(a + b))
    case _ => None
  }

  /** `groupby(keys)[column].sum()` on an object column, before an all-blank group becomes 0. */
  function ObjectSumBy(column: string, keys: seq<Option<string>>, cells: seq<Cell>): (r: Result<map<string, Cell>, Error>)
    requires |keys| == |cells|
    ensures r.Ok? ==> forall k :: k in r.value <==> Some(k) in keys
    ensures r.Err? ==> r.error == MixedSum(column)
  {
    if keys == [] then Ok(map[])
    else
      var m :- ObjectSumBy(column, keys[1..], cells[1..]);
      assert keys == [keys[0]] + keys[1..];
      match keys[0]
      case None => Ok(m)
      case Some(k) =>
        match AddCell(cells[0], if k in m then m[k] else Blank)
        case None => Err(MixedSum(column))
        case Some(v) => Ok(m[k := v])
  }

  /** An all-blank group sums to 0. */
  function Settle(m: map<string, Cell>): (r: map<string, Cell>)
    ensures r.Keys == m.Keys && forall k :: k in r ==> !r[k].Blank?
  {
    map k | k in m :: if m[k].Blank? then Num(0.0) else m[k]
  }

  function GroupObjectSum(column: string, keys: seq<Option<string>>, cells: seq<Cell>): Result<map<string, Cell>, Error>
    requires |keys| == |cells|
  {
    var m :- ObjectSumBy(column, keys, cells);
    Ok(Settle(m))
  }

  /** `clean_column_data` applied to a series of sums: every sum must clean to a number. */
  function CleanSums(column: string, m: map<string, Cell>): (r: Result<map<string, real>, Error>)
    requires forall k :: k in m ==> !m[k].Blank?
    ensures r.Ok? <==> forall k :: k in m ==> CleanCell(column, m[k]).Ok?
    ensures r.Ok? ==> (r.value.Keys == m.Keys
                       && forall k :: k in m ==> CleanCell(column, m[k]) == Ok(Some(r.value[k])))
  {
    if forall k :: k in m ==> CleanCell(column, m[k]).Ok? then
      Ok(map k | k in m :: CleanCell(column, m[k]).value.value)
    else
      Err(NotNumeric(column))
  }

  /** `process_recommendations_data` as written (see `ProcessRecommendations` for the
      corrected computation the rest of the model uses). */
  function ProcessRecommendationsAsWritten(t0: Table, names: string): (r: Result<RecommendationsAsWritten, Error>)
    ensures var t := StripHeaders(t0);
      && (names !in t.columns ==> r == Err(ColumnMissing(names)))
      && (names in t.columns && !TextTyped(Column(t, names).value) ==> r == Err(NotText(names)))
      && (names in t.columns && TextTyped(Column(t, names).value)
          && FirstMissing(t.columns, RecommendationColumns).Some? ==>
            r == Err(ColumnMissing(FirstMissing(t.columns, RecommendationColumns).value)))
  {
    RecommendationsAsWrittenOf(StripHeaders(t0), names)
  }

  function RecommendationsAsWrittenOf(t: Table, names: string): (r: Result<RecommendationsAsWritten, Error>)
    ensures names !in t.columns ==> r == Err(ColumnMissing(names))
    ensures names in t.columns && !TextTyped(Column(t, names).value) ==> r == Err(NotText(names))
    ensures names in t.columns && TextTyped(Column(t, names).value)
            && FirstMissing(t.columns, RecommendationColumns).Some? ==>
              r == Err(ColumnMissing(FirstMissing(t.columns, RecommendationColumns).value))
  {
    var nameCells :- RequireText(t, names);
    match FirstMissing(t.columns, RecommendationColumns)
    case Some(c) => Err(ColumnMissing(c))
    case None => RecommendationSumsAsWritten(t, nameCells)
  }

  function KeptCells(t: Table, name: string, keep: seq<bool>): (r: seq<Cell>)
    requires name in t.columns && |keep| == |t.rows|
    ensures |r| == Kept(keep)
  {
    Where(Column(t, name).value, keep)
  }

  function RecommendationSumsAsWritten(t: Table, nameCells: seq<Cell>): Result<RecommendationsAsWritten, Error>
    requires |nameCells| == |t.rows|
    requires forall c :: c in RecommendationColumns ==> c in t.columns
  {
    var keep := NotTotal(nameCells);
    var keys := Where(NameKeys(nameCells), keep);
    var recs :- GroupObjectSum(RecsColumn, keys, KeptCells(t, RecsColumn, keep));
    var sold :- GroupObjectSum(SoldColumn, keys, KeptCells(t, SoldColumn, keep));
    var amountSums :- GroupObjectSum(AmountColumn, keys, KeptCells(t, AmountColumn, keep));
    var amount :- CleanSums(AmountColumn, amountSums);
    var soldAmountSums :- GroupObjectSum(SoldAmountColumn, keys, KeptCells(t, SoldAmountColumn, keep));
    var soldAmount :- CleanSums(SoldAmountColumn, soldAmountSums);
    Ok(RecommendationsAsWritten(recs, sold, amount, soldAmount))
  }

  /** The number a blank-or-number cell stands for in a sum. */
  function NumberOf(c: Cell): real {
    if c.Num? then c.x else 0.0
  }

  /** An object sum `m` and a numeric sum `s` give the same figures: same advisors, and
      each advisor's cell is a number (or blank, for an all-blank group) of that sum. */
  predicate SameFigures(m: map<string, Cell>, s: map<string, real>) {
    m.Keys == s.Keys && forall k :: k in m ==> !m[k].Str? && NumberOf(m[k]) == s[k]
  }

  /** On numbers and blanks the object sum is the numeric group sum. */
  lemma {:induction false} ObjectSumOfNumbers(column: string, keys: seq<Option<string>>, cells: seq<Cell>)
    requires |keys| == |cells| && forall i :: 0 <= i < |cells| ==> !cells[i].Str?
    ensures CleanColumn(column, cells).Ok? && ObjectSumBy(column, keys, cells).Ok?
    ensures SameFigures(ObjectSumBy(column, keys, cells).value, SumBy(keys, CleanColumn(column, cells).value))
  {
    if keys != [] {
      ObjectSumOfNumbers(column, keys[1..], cells[1..]);
      CleanColumnOfNumbers(column, cells);
      ObjectSumStep(column, keys, cells);
    }
  }

  /** Cleaning a column that starts with a number or a blank: that cell's value, then the rest. */
  lemma CleanColumnOfNumbers(column: string, cells: seq<Cell>)
    requires cells != [] && !cells[0].Str? && CleanColumn(column, cells[1..]).Ok?
    ensures CleanColumn(column, cells).Ok?
    ensures CleanColumn(column, cells).value
         == [if cells[0].Num? then Some(NumberOf(cells[0])) else None] + CleanColumn(column, cells[1..]).value
  {
    assert CleanCell(column, cells[0]) == Ok(if cells[0].Num? then Some(NumberOf(cells[0])) else None);
  }

  /** One row more on both sides keeps the figures the same. */
  lemma ObjectSumStep(column: string, keys: seq<Option<string>>, cells: seq<Cell>)
    requires |keys| == |cells| && keys != [] && !cells[0].Str?
    requires ObjectSumBy(column, keys[1..], cells[1..]).Ok? && CleanColumn(column, cells[1..]).Ok?
    requires SameFigures(ObjectSumBy(column, keys[1..], cells[1..]).value, SumBy(keys[1..], CleanColumn(column, cells[1..]).value))
    requires CleanColumn(column, cells).Ok?
    requires CleanColumn(column, cells).value
          == [if cells[0].Num? then Some(NumberOf(cells[0])) else None] + CleanColumn(column, cells[1..]).value
    ensures ObjectSumBy(column, keys, cells).Ok?
    ensures SameFigures(ObjectSumBy(column, keys, cells).value, SumBy(keys, CleanColumn(column, cells).value))
  {
    var m' := ObjectSumBy(column, keys[1..], cells[1..]).value;
    var s' := SumBy(keys[1..], CleanColumn(column, cells[1..]).value);
    SumByCons(keys, CleanColumn(column, cells).value, CleanColumn(column, cells[1..]).value,
              if cells[0].Num? then Some(NumberOf(cells[0])) else None);
    if keys[0].Some? {
      AddRow(m', s', keys[0].value, cells[0]);
      ObjectSumByCons(column, keys, cells);
    }
  }

  /** The object sum over one row more, when adding that row's cell succeeds. */
  lemma ObjectSumByCons(column: string, keys: seq<Option<string>>, cells: seq<Cell>)
    requires |keys| == |cells| && keys != [] && keys[0].Some?
    requires ObjectSumBy(column, keys[1..], cells[1..]).Ok?
    requires var m := ObjectSumBy(column, keys[1..], cells[1..]).value;
      AddCell(cells[0], if keys[0].value in m then m[keys[0].value] else Blank).Some?
    ensures var m := ObjectSumBy(column, keys[1..], cells[1..]).value;
      var k := keys[0].value;
      ObjectSumBy(column, keys, cells) == Ok(m[k := AddCell(cells[0], if k in m then m[k] else Blank).value])
  {
  }

  /** The numeric sum over one row more. */
  lemma SumByCons(keys: seq<Option<string>>, vals: seq<Option<real>>, tail: seq<Option<real>>, x: Option<real>)
    requires |keys| == |vals| && keys != [] && vals == [x] + tail
    ensures keys[0].None? ==> SumBy(keys, vals) == SumBy(keys[1..], tail)
    ensures keys[0].Some? ==>
      var s := SumBy(keys[1..], tail);
      SumBy(keys, vals) == s[keys[0].value := Get(s, keys[0].value) + (if x.Some? then x.value else 0.0)]
  {
    assert vals[1..] == tail;
  }

  /** A row of the advisor `k` holding a number or blank adds its number on both sides. */
  lemma AddRow(m: map<string, Cell>, s: map<string, real>, k: string, c: Cell)
    requires SameFigures(m, s) && !c.Str?
    ensures var acc := if k in m then m[k] else Blank;
      && AddCell(c, acc).Some?
      && SameFigures(m[k := AddCell(c, acc).value], s[k := Get(s, k) + NumberOf(c)])
  {
    var acc := if k in m then m[k] else Blank;
    AddNumbers(c, acc);
    AddStep(m, s, k, AddCell(c, acc).value, NumberOf(c));
  }

  /** Adding a number or blank to a number or blank gives a number or blank of the sum. */
  lemma AddNumbers(c: Cell, acc: Cell)
    requires !c.Str? && !acc.Str?
    ensures AddCell(c, acc).Some? && !AddCell(c, acc).value.Str?
    ensures NumberOf(AddCell(c, acc).value) == NumberOf(c) + NumberOf(acc)
  {
  }

  lemma AddStep(m: map<string, Cell>, s: map<string, real>, k: string, c: Cell, v: real)
    requires SameFigures(m, s)
    requires !c.Str? && NumberOf(c) == v + Get(s, k)
    ensures SameFigures(m[k := c], s[k := Get(s, k) + v])
  {
  }

  /** One series of numbers and blanks gives the same figures both ways: the as-written sum
      is the corrected sum as a number cell, and cleaning it after summing changes nothing. */
  lemma SeriesAgreesOnNumbers(column: string, keys: seq<Option<string>>, cells: seq<Cell>)
    requires |keys| == |cells| && forall x :: x in cells ==> !x.Str?
    ensures CleanColumn(column, cells).Ok?
    ensures var s := SumBy(keys, CleanColumn(column, cells).value);
      && GroupObjectSum(column, keys, cells) == Ok(map k | k in s :: Num(s[k]))
      && CleanSums(column, map k | k in s :: Num(s[k])) == Ok(s)
  {
    assert forall i :: 0 <= i < |cells| ==> !cells[i].Str? by {
      forall i | 0 <= i < |cells| ensures !cells[i].Str? {
        assert cells[i] in cells;
      }
    }
    ObjectSumOfNumbers(column, keys, cells);
    var s := SumBy(keys, CleanColumn(column, cells).value);
    var m := ObjectSumBy(column, keys, cells).value;
    var ns := map k | k in s :: Num(s[k]);
    assert Settle(m) == ns;
    assert forall k :: k in ns ==> CleanCell(column, ns[k]) == Ok(Some(s[k]));
    assert CleanSums(column, ns).value == s;
  }

  /** No count or amount of the report is text. */
  predicate NumericColumn(t: Table, name: string) {
    name in t.columns && forall x :: x in Column(t, name).value ==> !x.Str?
  }

  /** Where every count and amount is a number (or blank), the source's order (sum, then
      clean) makes no difference: as written it agrees with the corrected computation. */
  lemma AsWrittenAgreesOnNumbers(t: Table, names: string)
    requires names in t.columns && TextTyped(Column(t, names).value)
    requires NumericColumn(t, RecsColumn) && NumericColumn(t, SoldColumn)
    requires NumericColumn(t, AmountColumn) && NumericColumn(t, SoldAmountColumn)
    ensures RecommendationsOf(t, names).Ok? && RecommendationsAsWrittenOf(t, names).Ok?
    ensures var r := RecommendationsOf(t, names).value;
      var w := RecommendationsAsWrittenOf(t, names).value;
      && w.recs == (map k | k in r.recs :: Num(r.recs[k]))
      && w.sold == (map k | k in r.sold :: Num(r.sold[k]))
      && w.amount == r.amount && w.soldAmount == r.soldAmount
  {
    var n := Column(t, names).value;
    assert FirstMissing(t.columns, RecommendationColumns).None?;
    var keep := NotTotal(n);
    var keys := Where(NameKeys(n), keep);
    SeriesAgreesOnNumbers(RecsColumn, keys, KeptCells(t, RecsColumn, keep));
    SeriesAgreesOnNumbers(SoldColumn, keys, KeptCells(t, SoldColumn, keep));
    SeriesAgreesOnNumbers(AmountColumn, keys, KeptCells(t, AmountColumn, keep));
    SeriesAgreesOnNumbers(SoldAmountColumn, keys, KeptCells(t, SoldAmountColumn, keep));
    assert RecommendationsOf(t, names) == RecommendationSums(t, n);
    assert RecommendationsAsWrittenOf(t, names) == RecommendationSumsAsWritten(t, n);
  }

  /** Two text amounts "$p" and "$q" (digits) of one advisor, as written: the group sum
      concatenates the texts and the cleaning then reads "$p$q" as the number whose digits
      are p followed by q, which overshoots p + q whenever p is not zero ("$100" and "$50"
      give 10050; `TextAmountsAdded` gives the intended 150). */
  lemma TextAmountsConcatenated(column: string, k: string, p: string, q: string)
    requires AllDigits(p) && AllDigits(q) && p != [] && q != []
    ensures AllDigits(p + q)
    ensures GroupObjectSum(column, [Some(k), Some(k)], [Str("$" + p), Str("$" + q)])
         == Ok(map[k := Str("$" + p + "$" + q)])
    ensures CleanSums(column, map[k := Str("$" + p + "$" + q)]) == Ok(map[k := DigitsValue(p + q) as real])
    ensures DigitsValue(p) > 0 ==> DigitsValue(p + q) > DigitsValue(p) + DigitsValue(q)
  {
    TwoTextsConcatenate(column, k, "$" + p, "$" + q);
    assert ("$" + p) + ("$" + q) == "$" + p + "$" + q;
    CleanTwoDollarTexts(column, p, q);
    var m := map[k := Str("$" + p + "$" + q)];
    assert CleanSums(column, m).value == map[k := DigitsValue(p + q) as real];
    if DigitsValue(p) > 0 {
      ConcatenationOvershoots(p, q);
    }
  }

  /** Two amounts "$p" and "$q" cleaned before they are summed, as the other reports do:
      the advisor is credited with the sum of the two numbers. */
  lemma TextAmountsAdded(column: string, k: string, p: string, q: string, x: real, y: real)
    requires NoCurrencyMarks(p) && NoCurrencyMarks(q)
    requires ParseNumber(p) == Some(x) && ParseNumber(q) == Some(y)
    ensures CleanColumn(column, [Str("$" + p), Str("$" + q)]) == Ok([Some(x), Some(y)])
    ensures SumBy([Some(k), Some(k)], [Some(x), Some(y)]) == map[k := x + y]
  {
    CleanDollarText(column, p, x);
    CleanDollarText(column, q, y);
    TwoCellsClean(column, Str("$" + p), Str("$" + q), x, y);
    TwoRowsSum(k, x, y);
  }

  predicate NoCurrencyMarks(s: string) {
    forall i :: 0 <= i < |s| ==> !IsCurrencyMark(s[i])
  }

  /** The object sum of two texts of one advisor is their concatenation, in row order. */
  lemma TwoTextsConcatenate(column: string, k: string, a: string, b: string)
    ensures GroupObjectSum(column, [Some(k), Some(k)], [Str(a), Str(b)]) == Ok(map[k := Str(a + b)])
  {
    assert ObjectSumBy(column, [Some(k)], [Str(b)]) == Ok(map[k := Str(b)]) by {
      assert [Some(k)][1..] == [] && [Str(b)][1..] == [];
      assert AddCell(Str(b), Blank) == Some(Str(b));
    }
    assert [Some(k), Some(k)][1..] == [Some(k)] && [Str(a), Str(b)][1..] == [Str(b)];
    assert AddCell(Str(a), Str(b)) == Some(Str(a + b));
    assert map[k := Str(b)][k := Str(a + b)] == map[k := Str(a + b)];
    assert Settle(map[k := Str(a + b)]) == map[k := Str(a + b)];
  }

  /** "$p" cleans to the number p reads as. */
  lemma CleanDollarText(column: string, p: string, x: real)
    requires NoCurrencyMarks(p) && ParseNumber(p) == Some(x)
    ensures CleanCell(column, Str("$" + p)) == Ok(Some(x))
  {
    RemoveCurrencyMarksOfClean(p);
    assert RemoveCurrencyMarks("$") == [] by { assert "$"[1..] == []; }
    RemoveCurrencyMarksAppend("$", p);
  }

  /** "$p$q" cleans to the number whose digits are p followed by q. */
  lemma CleanTwoDollarTexts(column: string, p: string, q: string)
    requires AllDigits(p) && AllDigits(q) && p != [] && q != []
    ensures AllDigits(p + q)
    ensures CleanCell(column, Str("$" + p + "$" + q)) == Ok(Some(DigitsValue(p + q) as real))
  {
    var w := p + q;
    assert AllDigits(w) by { AllDigitsAppend(p, q); }
    CleanDigitsText(column, "$" + p + "$" + q, w) by {
      RemoveTwoDollars(p, q);
    }
  }

  /** Reading the digits of q after those of p overshoots p + q as soon as p is not zero. */
  lemma ConcatenationOvershoots(p: string, q: string)
    requires AllDigits(p) && AllDigits(q) && q != [] && DigitsValue(p) > 0
    ensures AllDigits(p + q)
    ensures DigitsValue(p + q) > DigitsValue(p) + DigitsValue(q)
  {
    DigitsValueAppend(p, q);
    assert Pow10(|q|) == 10 * Pow10(|q| - 1);
    ShiftGrows(DigitsValue(p), Pow10(|q|));
  }

  lemma ShiftGrows(a: nat, s: nat)
    requires a > 0 && s > 1
    ensures a * s > a
  {
    var k := s - 1;
    assert a * s == a * k + a;
  }

  lemma CleanDigitsText(column: string, s: string, w: string)
    requires AllDigits(w) && w != [] && RemoveCurrencyMarks(s) == w
    ensures CleanCell(column, Str(s)) == Ok(Some(DigitsValue(w) as real))
  {
    ParseDigits(w);
  }

  lemma RemoveTwoDollars(p: string, q: string)
    requires AllDigits(p) && AllDigits(q)
    ensures RemoveCurrencyMarks("$" + p + "$" + q) == p + q
  {
    DigitsHaveNoMarks(p);
    DigitsHaveNoMarks(q);
    RemoveCurrencyMarksOfClean(p);
    RemoveCurrencyMarksOfClean(q);
    assert RemoveCurrencyMarks("$") == [] by { assert "$"[1..] == []; }
    RemoveCurrencyMarksAppend("$", p);
    RemoveCurrencyMarksAppend("$", q);
    RemoveCurrencyMarksAppend("$" + p, "$" + q);
    assert ("$" + p) + ("$" + q) == "$" + p + "$" + q;
  }

  lemma CleanText(column: string, s: string, x: real)
    requires ParseNumber(RemoveCurrencyMarks(s)) == Some(x)
    ensures CleanCell(column, Str(s)) == Ok(Some(x))
  {
  }

  lemma TwoCellsClean(column: string, a: Cell, b: Cell, x: real, y: real)
    requires CleanCell(column, a) == Ok(Some(x)) && CleanCell(column, b) == Ok(Some(y))
    ensures CleanColumn(column, [a, b]) == Ok([Some(x), Some(y)])
  {
    assert CleanColumn(column, [b]) == Ok([Some(y)]) by {
      assert [b][0] == b && [b][1..] == [];
      assert CleanColumn(column, []) == Ok([]);
      assert [Some(y)] + [] == [Some(y)];
    }
    assert [a, b][0] == a && [a, b][1..] == [b];
    assert [Some(x)] + [Some(y)] == [Some(x), Some(y)];
  }

  lemma TwoRowsSum(k: string, x: real, y: real)
    ensures SumBy([Some(k), Some(k)], [Some(x), Some(y)]) == map[k := x + y]
  {
    assert [Some(k), Some(k)][1..] == [Some(k)] && [Some(x), Some(y)][1..] == [Some(y)];
    assert SumBy([Some(k)], [Some(y)]) == map[k := y] by {
      assert [Some(k)][1..] == [] && [Some(y)][1..] == [];
    }
  }

  const PayTypeColumn := "Pay Type"
  const DailyLaborColumn := "Labor Gross"
  const DailyPartsColumn := "Parts Gross"

  /** `df['Pay Type'].str.upper() == "ALL"`: no stripping, and a blank or numeric pay type
      (NaN) is not ALL. */
  predicate IsAllPayType(c: Cell) {
    c.Str? && Upper(c.s) == "ALL"
  }

  /** The rows the daily report keeps: not the "TOTAL" row, and pay type ALL. */
  function DailyMask(names: seq<Cell>, pays: seq<Cell>): (m: seq<bool>)
    requires |names| == |pays|
    ensures |m| == |names|
    ensures forall i :: 0 <= i < |names| ==>
              (m[i] <==> NameKey(names[i]) != Some("TOTAL") && IsAllPayType(pays[i]))
  {
    seq(|names|, i requires 0 <= i < |names| => NameKey(names[i]) != Some("TOTAL") && IsAllPayType(pays[i]))
  }

  /** `process_daily_data`: header names stripped, "TOTAL" rows dropped, only pay type ALL
      kept, the two gross columns required in order, cleaned and summed per advisor. */
  function ProcessDaily(t0: Table, names: string): (r: Result<DailyTotals, Error>)
    ensures var t := StripHeaders(t0);
      && (names !in t.columns ==> r == Err(ColumnMissing(names)))
      && (names in t.columns && !TextTyped(Column(t, names).value) ==> r == Err(NotText(names)))
      && (RequireText(t, names).Ok? && PayTypeColumn !in t.columns ==> r == Err(ColumnMissing(PayTypeColumn)))
      && (RequireText(t, names).Ok? && PayTypeColumn in t.columns && !TextTyped(Column(t, PayTypeColumn).value) ==>
            r == Err(NotText(PayTypeColumn)))
  {
    DailyOf(StripHeaders(t0), names)
  }

  /** The daily report once its header names are stripped. */
  function DailyOf(t: Table, names: string): (r: Result<DailyTotals, Error>)
    ensures names !in t.columns ==> r == Err(ColumnMissing(names))
    ensures names in t.columns && !TextTyped(Column(t, names).value) ==> r == Err(NotText(names))
    ensures RequireText(t, names).Ok? && PayTypeColumn !in t.columns ==> r == Err(ColumnMissing(PayTypeColumn))
    ensures RequireText(t, names).Ok? && PayTypeColumn in t.columns && !TextTyped(Column(t, PayTypeColumn).value) ==>
              r == Err(NotText(PayTypeColumn))
    ensures RequireText(t, names).Ok? && RequireText(t, PayTypeColumn).Ok?
            && FirstMissing(t.columns, [DailyLaborColumn, DailyPartsColumn]).Some? ==>
              r == Err(ColumnMissing(FirstMissing(t.columns, [DailyLaborColumn, DailyPartsColumn]).value))
  {
    var nameCells :- RequireText(t, names);
    var pays :- RequireText(t, PayTypeColumn);
    match FirstMissing(t.columns, [DailyLaborColumn, DailyPartsColumn])
    case Some(c) => Err(ColumnMissing(c))
    case None => DailySums(t, nameCells, pays)
  }

  function DailySums(t: Table, nameCells: seq<Cell>, pays: seq<Cell>): Result<DailyTotals, Error>
    requires |nameCells| == |t.rows| && |pays| == |t.rows|
    requires DailyLaborColumn in t.columns && DailyPartsColumn in t.columns
  {
    var keep := DailyMask(nameCells, pays);
    var labor :- KeptCleaned(t, DailyLaborColumn, keep);
    var parts :- KeptCleaned(t, DailyPartsColumn, keep);
    var keys := Where(NameKeys(nameCells), keep);
    Ok(DailyTotals(SumBy(keys, labor), SumBy(keys, parts)))
  }

  /** The "TOTAL" row never becomes an advisor of the daily report. */
  lemma DailyHasNoTotal(t: Table, names: string)
    requires DailyOf(t, names).Ok?
    ensures "TOTAL" !in DailyOf(t, names).value.laborGross
    ensures "TOTAL" !in DailyOf(t, names).value.partsGross
  {
    var nameCells := Column(t, names).value;
    var pays := Column(t, PayTypeColumn).value;
    assert FirstMissing(t.columns, [DailyLaborColumn, DailyPartsColumn]).None?;
    var keep := DailyMask(nameCells, pays);
    var keys := Where(NameKeys(nameCells), keep);
    if Some("TOTAL") in keys {
      WhereMember(NameKeys(nameCells), keep, Some("TOTAL"));
      assert false;
    }
    var labor := KeptCleaned(t, DailyLaborColumn, keep).value;
    var parts := KeptCleaned(t, DailyPartsColumn, keep).value;
    assert DailyOf(t, names).value == DailyTotals(SumBy(keys, labor), SumBy(keys, parts));
    SumByGroups(keys, labor);
    SumByGroups(keys, parts);
  }

  /** What the daily report says of each advisor, whatever the order of its lines: the
      advisors are exactly the keys of the kept rows (not "TOTAL", pay type ALL), and each
      gross is the NaN-skipping sum of that advisor's cleaned amounts over the kept rows. */
  lemma DailyMeaning(t: Table, names: string)
    requires DailyOf(t, names).Ok?
    ensures names in t.columns && PayTypeColumn in t.columns
    ensures DailyLaborColumn in t.columns && DailyPartsColumn in t.columns
    ensures var keep := DailyMask(Column(t, names).value, Column(t, PayTypeColumn).value);
      KeptCleaned(t, DailyLaborColumn, keep).Ok? && KeptCleaned(t, DailyPartsColumn, keep).Ok?
    ensures var keep := DailyMask(Column(t, names).value, Column(t, PayTypeColumn).value);
      var keys := Where(NameKeys(Column(t, names).value), keep);
      var labor := KeptCleaned(t, DailyLaborColumn, keep).value;
      var parts := KeptCleaned(t, DailyPartsColumn, keep).value;
      var r := DailyOf(t, names).value;
      && (forall k :: k in r.laborGross <==> Some(k) in keys)
      && r.partsGross.Keys == r.laborGross.Keys
      && (forall k :: k in r.laborGross ==> r.laborGross[k] == Sum(Group(keys, labor, k)))
      && (forall k :: k in r.partsGross ==> r.partsGross[k] == Sum(Group(keys, parts, k)))
  {
    var n := Column(t, names).value;
    var p := Column(t, PayTypeColumn).value;
    assert FirstMissing(t.columns, [DailyLaborColumn, DailyPartsColumn]).None?;
    assert DailyOf(t, names) == DailySums(t, n, p);
    var keep := DailyMask(n, p);
    var keys := Where(NameKeys(n), keep);
    var labor := KeptCleaned(t, DailyLaborColumn, keep).value;
    var parts := KeptCleaned(t, DailyPartsColumn, keep).value;
    assert DailyOf(t, names).value == DailyTotals(SumBy(keys, labor), SumBy(keys, parts));
    SumByGroups(keys, labor);
    SumByGroups(keys, parts);
  }

  /** Rows the daily report excludes (the "TOTAL" row, any pay type but ALL) change nothing,
      wherever they stand: a cash or warranty line of 50 between an advisor's ALL lines leaves
      the advisor at the ALL figures, and a malformed amount on an excluded row is never cleaned. */
  lemma DailyIgnoresExcludedRows(columns: seq<string>, front: seq<Row>, extra: seq<Row>, back: seq<Row>,
                                 names: string, j: nat, k: nat)
    requires names in columns && PayTypeColumn in columns
    requires j < |front + back| && Column(Table(columns, front + back), names).value[j].Str?
    requires k < |front + back| && Column(Table(columns, front + back), PayTypeColumn).value[k].Str?
    requires var n := Column(Table(columns, extra), names).value;
      var p := Column(Table(columns, extra), PayTypeColumn).value;
      forall i :: 0 <= i < |extra| ==> NameKey(n[i]) == Some("TOTAL") || !IsAllPayType(p[i])
    ensures DailyOf(Table(columns, front + extra + back), names) == DailyOf(Table(columns, front + back), names)
  {
    ColumnInsertRows(columns, front, extra, back, names);
    ColumnInsertRows(columns, front, extra, back, PayTypeColumn);
    var nf := Column(Table(columns, front), names).value;
    var ne := Column(Table(columns, extra), names).value;
    var nb := Column(Table(columns, back), names).value;
    var pf := Column(Table(columns, front), PayTypeColumn).value;
    var pe := Column(Table(columns, extra), PayTypeColumn).value;
    var pb := Column(Table(columns, back), PayTypeColumn).value;
    TextTypedInsert(nf, ne, nb, j);
    TextTypedInsert(pf, pe, pb, k);
    if FirstMissing(columns, [DailyLaborColumn, DailyPartsColumn]).None? {
      DailySumsIgnore(columns, front, extra, back, nf, ne, nb, pf, pe, pb);
    }
  }

  lemma DailySumsIgnore(columns: seq<string>, front: seq<Row>, extra: seq<Row>, back: seq<Row>,
                        nf: seq<Cell>, ne: seq<Cell>, nb: seq<Cell>, pf: seq<Cell>, pe: seq<Cell>, pb: seq<Cell>)
    requires DailyLaborColumn in columns && DailyPartsColumn in columns
    requires |nf| == |front| == |pf| && |ne| == |extra| == |pe| && |nb| == |back| == |pb|
    requires forall i :: 0 <= i < |extra| ==> NameKey(ne[i]) == Some("TOTAL") || !IsAllPayType(pe[i])
    ensures DailySums(Table(columns, front + extra + back), nf + ne + nb, pf + pe + pb)
         == DailySums(Table(columns, front + back), nf + nb, pf + pb)
  {
    var mf := DailyMask(nf, pf);
    var me := DailyMask(ne, pe);
    var mb := DailyMask(nb, pb);
    MaskAppend(nf + ne, nb, pf + pe, pb);
    MaskAppend(nf, ne, pf, pe);
    MaskAppend(nf, nb, pf, pb);
    assert forall i :: 0 <= i < |me| ==> !me[i];
    KeptKeysIgnore(nf, ne, nb, mf, me, mb);
    KeptCleanedIgnores(columns, front, extra, back, DailyLaborColumn, mf, me, mb);
    KeptCleanedIgnores(columns, front, extra, back, DailyPartsColumn, mf, me, mb);
  }

  lemma MaskAppend(n1: seq<Cell>, n2: seq<Cell>, p1: seq<Cell>, p2: seq<Cell>)
    requires |n1| == |p1| && |n2| == |p2|
    ensures DailyMask(n1 + n2, p1 + p2) == DailyMask(n1, p1) + DailyMask(n2, p2)
  {
    var m := DailyMask(n1 + n2, p1 + p2);
    var m' := DailyMask(n1, p1) + DailyMask(n2, p2);
    forall i | 0 <= i < |m| ensures m[i] == m'[i] {
      if i < |n1| {
        assert (n1 + n2)[i] == n1[i] && (p1 + p2)[i] == p1[i];
      } else {
        assert (n1 + n2)[i] == n2[i - |n1|] && (p1 + p2)[i] == p2[i - |n1|];
      }
    }
  }

  /** When every row is an advisor's ALL line, the daily report is the plain per-advisor
      group sum of each cleaned gross column. */
  lemma DailyOfAllRows(t: Table, names: string)
    requires DailyOf(t, names).Ok?
    requires var n := Column(t, names).value;
      var p := Column(t, PayTypeColumn).value;
      forall i :: 0 <= i < |t.rows| ==> NameKey(n[i]) != Some("TOTAL") && IsAllPayType(p[i])
    ensures var keys := NameKeys(Column(t, names).value);
      var r := DailyOf(t, names).value;
      && Cleaned(t, DailyLaborColumn).Ok? && r.laborGross == SumBy(keys, Cleaned(t, DailyLaborColumn).value)
      && Cleaned(t, DailyPartsColumn).Ok? && r.partsGross == SumBy(keys, Cleaned(t, DailyPartsColumn).value)
  {
    var n := Column(t, names).value;
    var p := Column(t, PayTypeColumn).value;
    assert FirstMissing(t.columns, [DailyLaborColumn, DailyPartsColumn]).None?;
    assert DailyOf(t, names) == DailySums(t, n, p);
    var keep := DailyMask(n, p);
    assert forall i :: 0 <= i < |keep| ==> keep[i];
    var keys := NameKeys(n);
    assert Where(keys, keep) == keys by { WhereConstant(keys, keep); }
    assert KeptCleaned(t, DailyLaborColumn, keep) == Cleaned(t, DailyLaborColumn) by {
      WhereConstant(Column(t, DailyLaborColumn).value, keep);
    }
    assert KeptCleaned(t, DailyPartsColumn, keep) == Cleaned(t, DailyPartsColumn) by {
      WhereConstant(Column(t, DailyPartsColumn).value, keep);
    }
    assert DailySums(t, n, p).value
        == DailyTotals(SumBy(keys, Cleaned(t, DailyLaborColumn).value), SumBy(keys, Cleaned(t, DailyPartsColumn).value));
  }
}
