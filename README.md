# Advisor performance sheet updater, modelled in Dafny

This project models the core of `streamlit_app.py`. The page takes a service
department's report uploads and computes per-advisor figures from them: counts
and gross sums. It then stages each figure into one cell of a shared grid, at
the advisor's block and the selected day's column. The model covers:

- **Text** (`text.dfy`): Python's `strip()` and `upper()`, the advisor key
  `strip().upper()`, the `in` test on strings, and `list.index`. It also covers
  `clean_column_data`'s removal of `$` and `,` and the `float()` reading of the
  cleaned decimal text.
- **Tables** (`tables.dfy`): parsed uploads as header names plus rows of cells
  (text, number or blank/NaN). Also column lookup with its KeyError, the `.str`
  accessor with its AttributeError on a numeric column, `clean_column_data` on a
  cell and on a column, and boolean-mask filtering.
- **Grouping** (`grouping.dfy`): `value_counts()` and `groupby().sum()` as folds
  over the rows. Each is proved equal to a reference definition: a multiplicity
  for counts, and "split into groups, then sum" for sums.
- **Aggregators** (`aggregators.dfy`): `process_menu_sales_data`,
  `process_alacarte_data`, `process_commodity_file`, `process_alignment_files`,
  `process_recommendations_data` and `process_daily_data`, including the errors
  each one raises.
- **Tires format detection** (`tires.dfy`): the keyword scan over the headers, as
  a loop and as a specification. Also `process_tires_data` and the fallback from
  the header-row reading to the GM reading.
- **Grid** (`grid.dfy`): the day label (`strftime('%d').lstrip('0')`), the date
  column lookup in row 2, the advisor-block search in column A, and
  `dict(zip(names, rows))`.
- **Writer** (`writer.dfy`): `update_google_sheet`'s staging loop.
- **Layout** (`layout.dfy`): the `data_row_offsets` of a block.
- **Commodities** (`commodities.dfy`): the collection of commodity readings in
  `main`, and `update_commodities_in_sheet`. The latter writes the count cells
  and accumulates the parts and labor gross totals in one pass, then writes the
  totals.
- **Actions** (`actions.dfy`): a visit to the page. It locates the day and the
  blocks, then runs the five category buttons or "Input All".

Grid reads are input sequences: header row 2 and column A. The batched write is
the returned list of staged `(row, column, value)` cells. Numbers are `real`.

Where the code and its written description disagree, the model follows the code:

- Only `$` and `,` are removed before parsing. Spaces are not removed;
  `float()` ignores only surrounding whitespace.
- A menu-sales count is the row count divided by 2 with no rounding, so one row
  gives 0.5.
- The primary series of a category is written at `start_row + offset - 1`. For
  menu sales that is the row after the name row, not the name row itself.

## Model

| member | source | states |
|---|---|---|
| Text.TrimStartShape | streamlit_app.py:105 | `lstrip` drops only leading whitespace, and what it keeps does not start with whitespace |
| Text.TrimEndShape | streamlit_app.py:105 | `rstrip` drops only trailing whitespace, and what it keeps does not end with whitespace |
| Text.StripEnds | streamlit_app.py:105 | a stripped text has no whitespace at either end, and only whitespace was removed |
| Text.StripOfTrimmed | streamlit_app.py:105 | a text without whitespace at its ends is its own strip |
| Text.StripIdempotent | streamlit_app.py:105 | stripping twice is stripping once |
| Text.UpperIdempotent | streamlit_app.py:105 | upper-casing leaves no lower-case ASCII letter and is idempotent |
| Text.NormalizeKeyIdempotent | streamlit_app.py:572 | the advisor key of an advisor key is itself, so keys from the grid and from uploads compare as equals |
| Text.Contains | streamlit_app.py:172 | `sub in s` holds exactly when `sub` occurs at some position of `s` |
| Text.RemoveCurrencyMarks | streamlit_app.py:102 | the cleaned text contains no `$` and no `,` |
| Text.RemoveCurrencyMarksKeepsOthers | streamlit_app.py:102 | cleaning keeps every other character exactly as often as before |
| Text.RemoveCurrencyMarksOfClean | streamlit_app.py:102 | text without `$` or `,` is unchanged by cleaning |
| Text.RemoveCurrencyMarksIdempotent | streamlit_app.py:102 | cleaning twice is cleaning once |
| Text.RemoveCurrencyMarksAppend | streamlit_app.py:102 | cleaning distributes over concatenation |
| Text.IndexOf | streamlit_app.py:556-557 | `list.index` gives the first position holding the value, and none exactly when the value is absent |
| Text.ParseShowNat | streamlit_app.py:102 | `float` of the decimal text of a natural number is that number |
| Text.ParseShowInt | streamlit_app.py:138 | `float` of `str(n)` for an integer n, sign included, is n again |
| Text.NormalizeShowInt | streamlit_app.py:138 | `str(n).strip().upper()` is `str(n)`: an integer's text is already a normalised key |
| Text.ParseDigits | streamlit_app.py:102 | a run of digits reads as the number it spells |
| Text.DigitsValueAppend | streamlit_app.py:102 | digits written after digits shift the first number by the length of the second |
| Text.ParseDecimalText | streamlit_app.py:102 | text `w.f` reads as w + f / 10^\|f\| |
| Text.RemoveMarksFromCurrencyText | streamlit_app.py:102 | currency text `$a,b.f` cleans to the plain decimal `ab.f` |
| Tables.Column | streamlit_app.py:106 | `df[name]` fails exactly when the header lacks the name; otherwise row i's cell under the first header with that name, for every row |
| Tables.RequireColumn | streamlit_app.py:106 | a missing column is the error naming that column |
| Tables.RequireText | streamlit_app.py:105 | `df[name].str` fails exactly when the column is missing (KeyError) or has rows but no text cell (AttributeError); otherwise it is that column |
| Tables.TextTypedInsert | streamlit_app.py:299 | a column with a text cell keeps `.str` usable when rows are inserted anywhere in it |
| Tables.CleanCell | streamlit_app.py:99-102 | only a blank cell stays NaN; only text can fail, and it fails with the column's NotNumeric error |
| Tables.CleanColumn | streamlit_app.py:99-102 | a column cleans exactly when every cell does; the result is the cells' values, in order |
| Tables.CleanCellIdempotent | streamlit_app.py:102 | cleaning already cleaned text reads the same number, and a number passes unchanged |
| Tables.CleanCurrencyCell | streamlit_app.py:102 | the cell `$a,b.f` reads as the number `ab.f` |
| Tables.FirstMissing | streamlit_app.py:309-312 | it is the first required column, in checking order, that the header lacks; none exactly when all are present |
| Tables.Where | streamlit_app.py:299 | boolean indexing keeps one element per true mask entry, and only elements of the input |
| Tables.WhereAppend | streamlit_app.py:299 | filtering two stacked frames is stacking the filtered frames |
| Tables.WhereSkips | streamlit_app.py:299 | rows the mask drops, wherever they stand, leave the filtered frame as it was |
| Tables.WhereConstant | streamlit_app.py:299 | an all-false mask keeps nothing and an all-true mask keeps everything |
| Tables.WhereMember | streamlit_app.py:299 | every kept element comes from a position the mask keeps |
| Tables.ColumnAppendRows | streamlit_app.py:250 | a column of stacked rows is the two columns stacked |
| Tables.ColumnInsertRows | streamlit_app.py:299 | a column of rows with a stretch inserted is the column with that stretch's cells inserted |
| Tables.CleanColumnAppend | streamlit_app.py:257-258 | stacked columns clean exactly when both halves do, to the stacked results |
| Tables.NameKeyAsText | streamlit_app.py:138 | a text name is its stripped upper-cased key, a blank is "NAN", a whole number gets a key that reads back as that number; every key is already normalised |
| Tables.NameKeysAppend | streamlit_app.py:253 | advisor keys of stacked rows are the stacked keys |
| Grouping.CountByCounts | streamlit_app.py:108 | `value_counts` has exactly the non-NaN keys, each with its multiplicity in the column |
| Grouping.CountByAppend | streamlit_app.py:250-263 | counting stacked rows adds the two counts of every key |
| Grouping.CountsOver | streamlit_app.py:108 | dividing the counts keeps exactly the same advisors |
| Grouping.SumByGroups | streamlit_app.py:109-110 | the one-pass `groupby().sum()` has exactly the non-NaN keys, each with the NaN-skipping sum of its group |
| Grouping.GroupSize | streamlit_app.py:109-110 | a group holds one value per row carrying its key |
| Grouping.SumByAppend | streamlit_app.py:266-267 | summing stacked rows adds the two per-key sums |
| Grouping.CountAndSumSameKeys | streamlit_app.py:108-110 | the counts and the sums over one key column name the same advisors |
| Aggregators.Cleaned | streamlit_app.py:106-107 | a missing column is ColumnMissing, a bad cell is NotNumeric, and success gives one value per row |
| Aggregators.SalesReport | streamlit_app.py:104-120 | the report succeeds exactly when the name column is present and text-typed and both gross columns clean; a missing or numeric name column is the error naming it |
| Aggregators.SalesReportMeaning | streamlit_app.py:104-120 | count = rows naming the advisor ÷ divisor (2 for menu sales, 1 for a-la-carte); each gross = the sum of that advisor's cleaned amounts; all series name the same advisors |
| Aggregators.SalesReportErrors | streamlit_app.py:106-107 | after the name column, a labor gross that does not clean fails the report first, then parts gross |
| Aggregators.ProcessCommodityFile | streamlit_app.py:137-151 | the file processes exactly when the name column is present and the gross column cleans |
| Aggregators.CommodityFileMeaning | streamlit_app.py:137-151 | count = rows naming the advisor; gross = sum of their cleaned gross; the same advisors in both |
| Aggregators.CommodityFileCountsBlankNames | streamlit_app.py:138 | a blank name is not dropped but counted under "NAN" |
| Aggregators.CommodityFileCountsNumericNames | streamlit_app.py:138 | a whole-number name is not dropped but counted under its numeral |
| Aggregators.StackedColumn | streamlit_app.py:250-253 | a stacked column fails only when neither upload has it, and it has one cell per row of both |
| Aggregators.ProcessAlignments | streamlit_app.py:245-274 | the alignment files process exactly when the stacked name column exists and both gross columns clean |
| Aggregators.AlignmentsAddUp | streamlit_app.py:250-272 | an advisor's alignment count is (menu rows + a-la-carte rows) ÷ 2, and the labor gross and the parts gross are each the menus' sum plus the a-la-carte sum |
| Aggregators.NotTotal | streamlit_app.py:299 | a row is kept exactly when its normalised name is not "TOTAL" |
| Aggregators.KeptCleaned | streamlit_app.py:299-346 | one cleaned value per kept row |
| Aggregators.ProcessRecommendations | streamlit_app.py:291-320 | after headers are stripped, a missing name column, then a numeric one, then the first missing required column, is the error |
| Aggregators.RecommendationsOf | streamlit_app.py:299-320 | the same error order, on a frame whose headers are already stripped |
| Aggregators.RecommendationsHaveNoTotal | streamlit_app.py:299 | "TOTAL" is never an advisor of any of the four series |
| Aggregators.RecommendationsIgnoreTotalRows | streamlit_app.py:299 | "TOTAL" rows inserted anywhere in a report that names an advisor by text change no series and no error |
| Aggregators.RecommendationsMeaning | streamlit_app.py:299-318 | for every successful report: the advisors are exactly the keys of the non-"TOTAL" rows, and each series is the per-advisor sum of its cleaned values over those rows |
| Aggregators.RecommendationsWithoutTotal | streamlit_app.py:315-318 | without a "TOTAL" row, each series is the per-advisor sum of its cleaned column |
| Aggregators.ObjectSumBy | streamlit_app.py:315-318 | an object-column group sum has exactly the non-NaN keys, and fails only on mixing text with numbers |
| Aggregators.Settle | streamlit_app.py:315-318 | an all-NaN group sums to 0: same advisors, no blank sum |
| Aggregators.CleanSums | streamlit_app.py:317-318 | cleaning a series of sums succeeds exactly when each sum cleans, and gives each one's number |
| Aggregators.ProcessRecommendationsAsWritten | streamlit_app.py:291-320 | the source's own order (sum, then clean) has the same column and name-type errors as the corrected one |
| Aggregators.ObjectSumOfNumbers | streamlit_app.py:315-316 | on numbers and blanks, the object group sum gives the numeric group sum's figures |
| Aggregators.SeriesAgreesOnNumbers | streamlit_app.py:315-318 | on numbers and blanks, "sum then clean" and "clean then sum" give the same series |
| Aggregators.AsWrittenAgreesOnNumbers | streamlit_app.py:315-318 | when the names are text-typed and no count or amount is text, the as-written report equals the corrected one |
| Aggregators.TextAmountsConcatenated | streamlit_app.py:317-318 | two text amounts "$p" and "$q" of one advisor, as written, are concatenated and then read as the number with digits pq, which exceeds p + q |
| Aggregators.TextAmountsAdded | streamlit_app.py:317-318 | cleaned before summing, the same two amounts add up to p + q |
| Aggregators.TwoTextsConcatenate | streamlit_app.py:317 | pandas' sum of two texts of one advisor is their concatenation in row order |
| Aggregators.CleanTwoDollarTexts | streamlit_app.py:317-318 | "$p$q" cleans to the number whose digits are p then q |
| Aggregators.ConcatenationOvershoots | streamlit_app.py:317-318 | that number is larger than p + q whenever p is not zero |
| Aggregators.DailyMask | streamlit_app.py:330-333 | a row is kept exactly when its name is not "TOTAL" and its upper-cased pay type is "ALL" |
| Aggregators.ProcessDaily | streamlit_app.py:322-352 | after headers are stripped, a missing then a numeric name column, then a missing then a numeric Pay Type column, is the error |
| Aggregators.DailyOf | streamlit_app.py:327-352 | the error order continues with the first missing gross column |
| Aggregators.DailyHasNoTotal | streamlit_app.py:330 | "TOTAL" is never an advisor of the daily report |
| Aggregators.DailyIgnoresExcludedRows | streamlit_app.py:330-333 | "TOTAL" rows or rows of another pay type inserted anywhere in a report with text names and pay types change nothing |
| Aggregators.DailyMeaning | streamlit_app.py:330-350 | for every successful report: the advisors are exactly the keys of the kept rows (not "TOTAL", pay type ALL), and each gross is the per-advisor sum of its cleaned amounts over those rows |
| Aggregators.DailyOfAllRows | streamlit_app.py:345-350 | when every row is an advisor's ALL line, each series is the per-advisor sum of its cleaned column |
| TiresFormat.LastWithRoleMeaning | streamlit_app.py:170-177 | the header kept for a role is the last one taken for it; none exactly when no header is taken for it |
| TiresFormat.LastWithRoleStep | streamlit_app.py:170-177 | scanning one more header replaces the role's header exactly when that header is taken for the role |
| TiresFormat.LastWithRoleFound | streamlit_app.py:170-177 | a found header is one of the headers and is taken for its role |
| TiresFormat.RoleOfChain | streamlit_app.py:171-177 | the rule table is the source's chain of `if`/`elif` keyword tests on the lower-cased header |
| TiresFormat.DetectTires | streamlit_app.py:170-186 | detection succeeds exactly when all three roles are found; otherwise the format error; GM exactly when the names header contains "advisor name group"; each column found is the last header with its role |
| TiresFormat.DetectedColumnsDistinct | streamlit_app.py:172-177 | the three columns found are three different headers |
| TiresFormat.DetectTiresColumns | streamlit_app.py:164-186 | the scan loop overwriting three variables yields the detection |
| TiresFormat.TiresOf | streamlit_app.py:153-209 | processing succeeds exactly when detection succeeds and both found columns clean |
| TiresFormat.ProcessTiresData | streamlit_app.py:153-209 | the procedure computes that result |
| TiresFormat.TiresMeaning | streamlit_app.py:189-204 | quantity and gross are the per-advisor sums of the cleaned columns, over the same advisors |
| TiresFormat.TiresUpload | streamlit_app.py:649-674 | the header-row reading if it processes, else the GM reading if it processes, else empty series |
| TiresFormat.TiresFallbackOnlyOnFailure | streamlit_app.py:650-663 | the GM reading is never consulted when the first reading succeeds |
| Grid.TwoDigits | streamlit_app.py:545 | `%d` gives two digits |
| Grid.LStrip | streamlit_app.py:545 | `lstrip('0')` removes a prefix and leaves no leading '0' |
| Grid.DayLabelIsNumeral | streamlit_app.py:545 | the label of day d is d's plain decimal numeral, with no leading zero |
| Grid.Drop | streamlit_app.py:554 | `s[n:]` is empty when s is shorter than n |
| Grid.DateColumn | streamlit_app.py:554-560 | not found exactly when the label is absent from row 2 after column B; otherwise the column is the first column from C holding the label, counted from 1 |
| Grid.BlocksFromStep | streamlit_app.py:568-575 | a blank cell ends the search; a name adds its block and moves 26 rows on |
| Grid.BlocksFromItems | streamlit_app.py:563-575 | block i, counted from idx, starts 26·i rows on and holds the normalised non-blank name there |
| Grid.BlocksFromStop | streamlit_app.py:568-571 | the search stops at the first block position that is blank or past the column's end |
| Grid.BlocksShape | streamlit_app.py:563-575 | block i starts at grid row 4 + 26·i with the normalised name of column A there; the next position is blank or past the end |
| Grid.DiscoverBlocks | streamlit_app.py:563-575 | the search loop's names and start rows, zipped, are the blocks |
| Grid.Zip | streamlit_app.py:576 | `zip` gives one pair per name |
| Grid.AdvisorMappingKeys | streamlit_app.py:576 | the dictionary holds each discovered name exactly once |
| Grid.AdvisorMappingLastWins | streamlit_app.py:576 | a name is mapped to the row of its last block |
| Grid.AdvisorMappingOfDistinct | streamlit_app.py:576 | with distinct names, the dictionary is the discovered list itself |
| Writer.AdvisorCells | streamlit_app.py:380-395 | one cell per series for each advisor |
| Writer.UpdateSheet | streamlit_app.py:373-398 | the staging loop stages the advisors' cells in mapping order, the primary series first |
| Writer.SheetCellsCount | streamlit_app.py:379-395 | exactly (1 + number of extra series) cells per advisor |
| Writer.SheetCellsAt | streamlit_app.py:380-395 | series i of advisor a is at row start + offset + i of the day's column, and holds the advisor's value or 0 when missing |
| Writer.SheetCellsOnlyMapped | streamlit_app.py:379-395 | every staged cell is in the day's column, in a row of some mapped advisor, with that advisor's value; other keys are never written |
| Commodities.CommodityRowOffset | streamlit_app.py:407-418 | every commodity row is one of rows 8 to 17 of a block |
| Commodities.CommodityRowsDistinct | streamlit_app.py:407-418 | two commodities share a row only if they are the same |
| Commodities.DataOf | streamlit_app.py:429 | a commodity without an entry reads as empty series |
| Commodities.CommodityRow | streamlit_app.py:439-457 | one count cell per advisor |
| Commodities.UpdateCommodities | streamlit_app.py:400-483 | the procedure stages every count cell, then every advisor's labor and parts totals |
| Commodities.StageCounts | streamlit_app.py:428-466 | the commodity loop stages the count cells; each advisor's running totals are the labor and parts sums over the list |
| Commodities.StageCommodity | streamlit_app.py:439-466 | one pass adds one count cell per advisor and adds the commodity's figures to each advisor's totals |
| Commodities.StageAdvisor | streamlit_app.py:440-466 | for Tires, the quantity is written and the gross added to parts; otherwise the count is written and the parts gross added (labor gross only for Alignments) |
| Commodities.CountCellsCount | streamlit_app.py:428-457 | one count cell per commodity and advisor |
| Commodities.TotalCellsCount | streamlit_app.py:469-480 | two total cells per advisor |
| Commodities.CountCellsAt | streamlit_app.py:439-457 | a commodity's count for an advisor is at row start + offset − 1 of the day's column: the Tires quantity, another commodity's count, 0 with no data |
| Commodities.TotalCellsAt | streamlit_app.py:469-480 | labor gross at row start + 18 − 1 and parts gross at row start + 19 − 1, holding the accumulated totals |
| Commodities.PartsTotalAppend | streamlit_app.py:449-461 | the parts total over two lists is the sum of their totals |
| Commodities.PartsTotalPermutation | streamlit_app.py:425-461 | the parts total does not depend on the order of the commodities |
| Commodities.LaborTotalOnlyAlignments | streamlit_app.py:437-466 | the labor total is the Alignments labor gross times the number of times Alignments is listed |
| Commodities.LaborGrossIsAlignments | streamlit_app.py:463-471 | in the run's list, the labor total written is exactly the Alignments labor gross |
| Commodities.NoAlignmentsNoLabor | streamlit_app.py:437 | a list without Alignments adds no labor gross |
| Commodities.SameReadingSameCells | streamlit_app.py:429-437 | two collections that read alike for every commodity stage the same cells |
| Commodities.FailedEntryIsNoEntry | streamlit_app.py:684-689 | the empty entry of a failed upload writes what no entry writes |
| Commodities.NoDataWritesZeros | streamlit_app.py:429-480 | with no entry at all, every staged count and total is 0 |
| Commodities.CollectedMeaning | streamlit_app.py:644-717 | a commodity has an entry exactly when it is listed and was uploaded, and the entry is that upload's reading |
| Commodities.CollectCommodityData | streamlit_app.py:644-717 | the collection step records the uploads in list order, then Alignments |
| Commodities.CollectUploads | streamlit_app.py:647-689 | the loop over the commodities with their own upload records their entries |
| Commodities.RecordUpload | streamlit_app.py:648-689 | one turn records the commodity's entry when it was uploaded, else changes nothing |
| Commodities.RecordTires | streamlit_app.py:649-674 | the Tires turn records the Tires reading when there is an upload |
| Commodities.RecordFile | streamlit_app.py:675-689 | any other commodity's turn records its file's reading, or empty series on failure |
| Commodities.ReadAlignments | streamlit_app.py:692-714 | the alignment entry is the combined reading, or empty series on failure |
| Actions.Locate | streamlit_app.py:545-576 | the run stops with DateNotFound exactly when the day is not in row 2 after column B; otherwise the target is the day's column and the advisor dictionary |
| Actions.Series | streamlit_app.py:602-772 | a category yields one series per row it fills |
| Actions.UpdateCategory | streamlit_app.py:602-618 | an action fails exactly when processing fails, with that error; otherwise it writes the staged cells of its series from the category's first row |
| Actions.CategoryCellsInRows | streamlit_app.py:579-595 | a category writes only in the day's column, between its first and last row of some block |
| Actions.RowsDisjoint | streamlit_app.py:579-595 | categories, commodity rows and the two totals fill disjoint rows inside the 26-row block |
| Actions.UpdateAllCommodities | streamlit_app.py:642-732 | the commodities action stages the cells of the collected readings for the run's list |
| Actions.PressCategory | streamlit_app.py:600-618 | a category button is skipped without an upload, fails when processing fails, and otherwise writes its series |
| Actions.UnofferedCommoditiesWriteZeros | streamlit_app.py:814-901 | with no commodity or alignment file, "Input All" still writes 0 in every commodity and total cell |
| Actions.Dispatch | streamlit_app.py:600-773 | each button runs its own action; the commodities button only when a commodity or alignment file is uploaded |
| Actions.InputAll | streamlit_app.py:775-941 | "Input All" runs the four categories in the page's order, and the commodities action third, unconditionally |
| Actions.Run | streamlit_app.py:553-560 | a missing day stops the visit before any processing; otherwise the pressed button's actions run on the located target |

## Left out

- The Streamlit page itself: `set_bg_color`, widgets, messages, `st.success`/`st.error`, and the `time.sleep` delays. These are presentation only. An upload is present or absent, and a press is one button.
- `connect_to_google_sheet`, and the failure to connect, are remote I/O. So are `row_values`, `col_values` and `update_cells`. The model takes the two reads as inputs and returns the staged cells in place of the write. An exception raised by `update_cells` is not modelled.
- `pd.read_excel` is file parsing. Each upload is given as an already parsed table. The Tires upload is given as its two readings: header row first, then two rows skipped.
- `process_tires_gm_format` only re-reads the file. Its processing is `process_tires_data` on the second reading.
- `preprocess_gm_excel` is never called.
- `commodities_row_mapping` and `process_commodities_data` are never used.
- Floating-point arithmetic and text formats: numbers are exact reals, and `float()` is modelled on decimal text with an optional sign. Exponents, "inf" and "nan" texts are not accepted. Nor are digit-group underscores ("1_000") or non-ASCII decimal digits, which `float()` reads as numbers; for such a cell `Tables.CleanCell` reports `NotNumeric` where the source reads a number. Integer and float results are not distinguished.
- Tables.RequireText: the `.str` accessor is checked on the column as read. After a filter (streamlit_app.py:306, 333, 336) pandas also refuses it on a text column whose kept rows hold numbers but no text; that case is not modelled, so Aggregators.RecommendationsOf and Aggregators.DailyOf then report instead of failing.
- Tables.NameKeyAsText: a whole-number name cell is keyed by its integer numeral ("1234"), as `astype(str)` renders it in a text (object) column or an integer column. A float column renders it as "1234.0", which is not modelled. A fractional number's float text is not modelled either: that row gets no key, so it is neither counted nor summed.
- Aggregators.ProcessCommodityFile, Aggregators.ProcessAlignments and TiresFormat.TiresOf inherit that limit of `Tables.NameKeyAsText`: rows whose name is a fractional number are dropped, and whole numbers are keyed without ".0".
- `convert_to_native_type`: only the missing key → 0 rule is modelled. No modelled series can hold NaN, because `groupby().sum()` skips it and `value_counts()` never makes it. The bool/str/Series dispatch is not modelled.
- Case mapping is ASCII only, with no Unicode case folding.
- Duplicate header names in an upload, and pandas' handling of them, are not modelled.
- Tables.StripHeaders: header names are text only. `read_excel` keeps a numeric or date header cell as a number or datetime. On such a header `df.columns.str.strip()` (streamlit_app.py:296, 327) gives NaN, and it raises when no header is text. Neither case is modelled.
- TiresFormat.DetectTires and TiresFormat.TiresUpload: because headers are text only, the model misses one case. A non-text header makes `col.lower()` (streamlit_app.py:171) raise, so the source falls back to the GM reading (650-663) even when the text headers resolve all three roles. The model processes the header-row reading instead.
- Commodities.UpdateCommodities: the two per-advisor total dictionaries are kept as sequences parallel to the advisor mapping, not as dictionaries keyed by name. They agree because the mapping has distinct names (Grid.AdvisorMappingKeys).
- Aggregators.ProcessRecommendations: the model's run uses this corrected definition (clean, then sum). The source's order is modelled separately as Aggregators.ProcessRecommendationsAsWritten (see Findings).
- Aggregators.ProcessRecommendations: it also cleans the two count columns, which the source sums without cleaning. When the counts are numbers the two agree (Aggregators.AsWrittenAgreesOnNumbers).

## Findings

| source | as written | input that shows it | evidently intended | confidence | as-written member | corrected member |
|---|---|---|---|---|---|---|
| streamlit_app.py:317-318 | the dollar amounts are summed per advisor before `clean_column_data`, so two text amounts of one advisor are concatenated | one advisor with amount cells "$100" and "$50": the sum is the text "$100$50", which cleans to 10050 | clean each amount, then sum, giving 150 | not executed | Aggregators.TextAmountsConcatenated | Aggregators.TextAmountsAdded |
