/**
 * A parsed upload, as pandas hands it to the aggregators: named columns
 * over rows of cells, where a cell is text, a number, or missing (NaN).
 */
module Tables {
  import opened Wrappers
  import opened Text

  /** One spreadsheet cell: text, a number, or blank (pandas' NaN). */
  datatype Cell = Str(s: string) | Num(x: real) | Blank

  type Row = seq<Cell>

  /** A data frame: its header names and its rows. A row shorter than the
      header reads as blank in the columns it lacks, as `read_excel` fills them with NaN. */
  datatype Table = Table(columns: seq<string>, rows: seq<Row>)

  /** The errors the aggregators raise and the run reports. */
  datatype Error =
    | ColumnMissing(column: string)     // KeyError / "Column '…' not found"
    | NotNumeric(column: string)        // astype(float) fails after cleaning
    | FormatNotRecognized(category: string)
    | DateNotFound(day: string)
    | MixedSum(column: string)          // a group sum meets text and numbers: TypeError
    | NotText(column: string)           // `.str` on a numeric column: AttributeError

  function CellAt(row: Row, j: nat): Cell {
    if j < |row| then row[j] else Blank
  }

  /** `df[name]`: the column's cells, top to bottom, or `None` where pandas raises KeyError. */
  function Column(t: Table, name: string): (r: Option<seq<Cell>>)
    ensures r.None? <==> name !in t.columns
    ensures r.Some? ==> |r.value| == |t.rows|
    ensures r.Some? ==> IndexOf(t.columns, name).Some?
    ensures r.Some? ==> forall i :: 0 <= i < |t.rows| ==>
              r.value[i] == CellAt(t.rows[i], IndexOf(t.columns, name).value)
  {
    match IndexOf(t.columns, name)
    case None => None
    case Some(j) => Some(seq(|t.rows|, i requires 0 <= i < |t.rows| => CellAt(t.rows[i], j)))
  }

  /** `df[name]` inside an aggregator: a missing column is an error naming it. */
  function RequireColumn(t: Table, name: string): (r: Result<seq<Cell>, Error>)
    ensures r.Err? <==> name !in t.columns
    ensures r.Err? ==> r.error == ColumnMissing(name)
    ensures r.Ok? ==> Some(r.value) == Column(t, name)
  {
    match Column(t, name)
    case None => Err(ColumnMissing(name))
    case Some(cells) => Ok(cells)
  }

  /** Whether `read_excel` gives a column a text (object) dtype, on which `.str` works:
      a column with rows but no text cell is numeric (an all-blank one is float NaN), and
      pandas refuses the `.str` accessor there. */
  predicate TextTyped(cells: seq<Cell>) {
    cells == [] || exists i :: 0 <= i < |cells| && cells[i].Str?
  }

  /** `df[name].str` inside an aggregator: a missing column is the KeyError naming it,
      a numeric one the AttributeError. */
  function RequireText(t: Table, name: string): (r: Result<seq<Cell>, Error>)
    ensures r.Ok? <==> name in t.columns && TextTyped(Column(t, name).value)
    ensures name !in t.columns ==> r == Err(ColumnMissing(name))
    ensures name in t.columns && !TextTyped(Column(t, name).value) ==> r == Err(NotText(name))
    ensures r.Ok? ==> Some(r.value) == Column(t, name)
  {
    var cells :- RequireColumn(t, name);
    if TextTyped(cells) then Ok(cells) else Err(NotText(name))
  }

  /** A column with a text cell stays text-typed when more rows are inserted anywhere in it. */
  lemma TextTypedInsert(a: seq<Cell>, e: seq<Cell>, b: seq<Cell>, i: nat)
    requires i < |a + b| && (a + b)[i].Str?
    ensures TextTyped(a + b) && TextTyped(a + e + b)
  {
    if i < |a| {
      assert (a + e + b)[i] == a[i];
    } else {
      assert (a + e + b)[i + |e|] == b[i - |a|] == (a + b)[i];
    }
  }

  /** `df.columns = df.columns.str.strip()`. */
  function StripHeaders(t: Table): Table {
    Table(seq(|t.columns|, j requires 0 <= j < |t.columns| => Strip(t.columns[j])), t.rows)
  }

  /** One cell through `clean_column_data`: a number passes unchanged, a blank stays NaN
      (`None`), text loses its `$` and `,` and must then read as a decimal number. */
  function CleanCell(column: string, c: Cell): (r: Result<Option<real>, Error>)
    ensures r == Ok(None) <==> c.Blank?
    ensures r.Err? ==> c.Str? && r.error == NotNumeric(column)
  {
    match c
    case Num(x) => Ok(Some(x))
    case Blank => Ok(None)
    case Str(s) =>
      match ParseNumber(RemoveCurrencyMarks(s))
      case Some(x) => Ok(Some(x))
      case None => Err(NotNumeric(column))
  }

  /** A whole column through `clean_column_data`: one cell that does not parse fails the column. */
  function CleanColumn(column: string, cells: seq<Cell>): (r: Result<seq<Option<real>>, Error>)
    ensures r.Ok? <==> forall i :: 0 <= i < |cells| ==> CleanCell(column, cells[i]).Ok?
    ensures r.Ok? ==> (|r.value| == |cells|
      && forall i :: 0 <= i < |cells| ==> CleanCell(column, cells[i]) == Ok(r.value[i]))
    ensures r.Err? ==> r.error == NotNumeric(column)
  {
    if cells == [] then Ok([])
    else
      match CleanCell(column, cells[0])
      case Err(e) => Err(e)
      case Ok(v) =>
        match CleanColumn(column, cells[1..])
        case Err(e) => Err(e)
        case Ok(vs) => Ok([v] + vs)
  }

  /** Cleaning is idempotent: text that was already cleaned cleans to the same number,
      and a number passes through unchanged. */
  lemma CleanCellIdempotent(column: string, s: string, x: real)
    ensures CleanCell(column, Str(RemoveCurrencyMarks(s))) == CleanCell(column, Str(s))
    ensures CleanCell(column, Num(x)) == Ok(Some(x))
  {
    RemoveCurrencyMarksIdempotent(s);
  }

  /** Currency text `$a,b.f` cleans to the number the plain text `ab.f` reads as
      (with `ParseDecimalText`: `$1,234.50` is 1234.5). */
  lemma CleanCurrencyCell(column: string, a: string, b: string, f: string)
    requires AllDigits(a) && AllDigits(b) && AllDigits(f)
    ensures CleanCell(column, Str("$" + a + "," + b + "." + f)) == CleanCell(column, Str(a + b + "." + f))
  {
    RemoveMarksFromCurrencyText(a, b, f);
    var t := a + b + "." + f;
    assert forall i :: 0 <= i < |t| ==> !IsCurrencyMark(t[i]) by {
      DigitsHaveNoMarks(a + b) by { AllDigitsAppend(a, b); }
      DigitsHaveNoMarks(f);
      forall i | 0 <= i < |t| ensures !IsCurrencyMark(t[i]) {
        if i < |a + b| { assert t[i] == (a + b)[i]; }
        else if i > |a + b| { assert t[i] == f[i - |a + b| - 1]; }
      }
    }
    RemoveCurrencyMarksOfClean(t);
  }

  /** `.str.strip().str.upper()`: text is normalised; a blank or numeric cell is NaN
      and drops out of `value_counts` and `groupby`. */
  function NameKey(c: Cell): Option<string> {
    if c.Str? then Some(NormalizeKey(c.s)) else None
  }

  /** `.astype(str).str.strip().str.upper()`: a blank cell becomes the text "NAN" and a
      whole number its numeral ("1234"), each grouped like any other name. A fractional
      number's text is not modelled: that row has no key. */
  function NameKeyAsText(c: Cell): (r: Option<string>)
    ensures c.Str? ==> r == NameKey(c)
    ensures c.Blank? ==> r == Some("NAN")
    ensures c.Num? ==> (r.Some? <==> c.x == c.x.Floor as real)
    ensures c.Num? && r.Some? ==> ParseNumber(r.value) == Some(c.x)
    ensures r.Some? ==> NormalizeKey(r.value) == r.value
  {
    match c
    case Str(s) => NormalizeKeyIdempotent(s); Some(NormalizeKey(s))
    case Blank => assert NormalizeKey("NAN") == "NAN"; Some("NAN")
    case Num(x) =>
      if x == x.Floor as real then
        ParseShowInt(x.Floor); NormalizeShowInt(x.Floor); Some(ShowInt(x.Floor))
      else
        None
  }

  function NameKeys(cells: seq<Cell>): (r: seq<Option<string>>)
    ensures |r| == |cells|
  {
    seq(|cells|, i requires 0 <= i < |cells| => NameKey(cells[i]))
  }

  function NameKeysAsText(cells: seq<Cell>): (r: seq<Option<string>>)
    ensures |r| == |cells|
  {
    seq(|cells|, i requires 0 <= i < |cells| => NameKeyAsText(cells[i]))
  }

  /** How many rows a mask keeps. */
  function Kept(mask: seq<bool>): nat {
    if mask == [] then 0 else (if mask[0] then 1 else 0) + Kept(mask[1..])
  }

  /** Boolean indexing `df[mask]`: the elements whose mask entry is true, in order. */
  function Where<T>(xs: seq<T>, mask: seq<bool>): (r: seq<T>)
    requires |xs| == |mask|
    ensures |r| == Kept(mask)
    ensures forall x :: x in r ==> x in xs
  {
    if xs == [] then []
    else (if mask[0] then [xs[0]] else []) + Where(xs[1..], mask[1..])
  }

  /** The first of `names` that the header lacks, in the order the aggregator checks them. */
  function FirstMissing(columns: seq<string>, names: seq<string>): (r: Option<string>)
    ensures r.None? <==> forall n :: n in names ==> n in columns
    ensures r.Some? ==> r.value in names && r.value !in columns
    ensures r.Some? ==> exists i :: 0 <= i < |names| && names[i] == r.value
                          && forall j :: 0 <= j < i ==> names[j] in columns
  {
    if names == [] then None
    else if names[0] !in columns then Some(names[0])
    else
      var r := FirstMissing(columns, names[1..]);
      assert forall n :: n in names[1..] ==> n in names;
      if r.Some? then
        var i :| 0 <= i < |names[1..]| && names[1..][i] == r.value
                 && forall j :: 0 <= j < i ==> names[1..][j] in columns;
        assert names[i + 1] == r.value;
        assert forall j :: 0 <= j < i + 1 ==> names[j] in columns by {
          forall j | 0 <= j < i + 1 ensures names[j] in columns {
            if j > 0 { assert names[j] == names[1..][j - 1]; }
          }
        }
        r
      else r
  }

  /** Stacking rows under the same header stacks every column. */
  lemma ColumnAppendRows(columns: seq<string>, a: seq<Row>, b: seq<Row>, name: string)
    requires name in columns
    ensures Column(Table(columns, a + b), name).value
         == Column(Table(columns, a), name).value + Column(Table(columns, b), name).value
  {
  }

  lemma StripHeadersRows(columns: seq<string>, rows: seq<Row>)
    ensures StripHeaders(Table(columns, rows)) == Table(StripHeaders(Table(columns, [])).columns, rows)
  {
  }

  lemma CleanColumnAppend(column: string, a: seq<Cell>, b: seq<Cell>)
    ensures CleanColumn(column, a + b).Ok? <==> CleanColumn(column, a).Ok? && CleanColumn(column, b).Ok?
    ensures CleanColumn(column, a + b).Ok? ==>
      CleanColumn(column, a + b).value == CleanColumn(column, a).value + CleanColumn(column, b).value
  {
    var ab := a + b;
    var r, ra, rb := CleanColumn(column, ab), CleanColumn(column, a), CleanColumn(column, b);
    if ra.Ok? && rb.Ok? {
      forall i | 0 <= i < |ab| ensures CleanCell(column, ab[i]) == Ok((ra.value + rb.value)[i]) {
        if i < |a| {
          assert ab[i] == a[i];
        } else {
          assert ab[i] == b[i - |a|];
        }
      }
      assert r.Ok?;
    }
    if r.Ok? {
      forall i | 0 <= i < |a| ensures CleanCell(column, a[i]).Ok? {
        assert ab[i] == a[i];
      }
      forall i | 0 <= i < |b| ensures CleanCell(column, b[i]).Ok? {
        assert ab[|a| + i] == b[i];
      }
    }
  }

  lemma NameKeysAppend(a: seq<Cell>, b: seq<Cell>)
    ensures NameKeys(a + b) == NameKeys(a) + NameKeys(b)
    ensures NameKeysAsText(a + b) == NameKeysAsText(a) + NameKeysAsText(b)
  {
    var c := a + b;
    forall i | 0 <= i < |c|
      ensures NameKeys(c)[i] == (NameKeys(a) + NameKeys(b))[i]
      ensures NameKeysAsText(c)[i] == (NameKeysAsText(a) + NameKeysAsText(b))[i]
    {
      if i < |a| { assert c[i] == a[i]; } else { assert c[i] == b[i - |a|]; }
    }
  }

  lemma {:induction false} WhereAppend<T>(xs: seq<T>, ys: seq<T>, m: seq<bool>, n: seq<bool>)
    requires |xs| == |m| && |ys| == |n|
    ensures Where(xs + ys, m + n) == Where(xs, m) + Where(ys, n)
  {
    if xs == [] {
      assert xs + ys == ys && m + n == n;
    } else {
      var head := if m[0] then [xs[0]] else [];
      assert (xs + ys)[0] == xs[0] && (m + n)[0] == m[0];
      assert (xs + ys)[1..] == xs[1..] + ys && (m + n)[1..] == m[1..] + n;
      assert Where(xs + ys, m + n) == head + Where(xs[1..] + ys, m[1..] + n);
      WhereAppend(xs[1..], ys, m[1..], n);
      var a, b := Where(xs[1..], m[1..]), Where(ys, n);
      assert Where(xs[1..] + ys, m[1..] + n) == a + b;
      assert Where(xs, m) == head + a;
      assert head + (a + b) == (head + a) + b;
    }
  }

  /** A mask that keeps nothing selects nothing; one that keeps everything selects everything. */
  lemma {:induction false} WhereConstant<T>(xs: seq<T>, mask: seq<bool>)
    requires |xs| == |mask|
    ensures (forall i :: 0 <= i < |mask| ==> !mask[i]) ==> Where(xs, mask) == []
    ensures (forall i :: 0 <= i < |mask| ==> mask[i]) ==> Where(xs, mask) == xs
  {
    if xs != [] {
      WhereConstant(xs[1..], mask[1..]);
    }
  }

  /** A stretch the mask drops, wherever it stands, leaves the selection as it was. */
  lemma WhereSkips<T>(a: seq<T>, e: seq<T>, b: seq<T>, ma: seq<bool>, me: seq<bool>, mb: seq<bool>)
    requires |a| == |ma| && |e| == |me| && |b| == |mb|
    requires forall i :: 0 <= i < |me| ==> !me[i]
    ensures Where(a + e + b, ma + me + mb) == Where(a + b, ma + mb)
  {
    WhereAppend(a + e, b, ma + me, mb);
    WhereAppend(a, e, ma, me);
    WhereAppend(a, b, ma, mb);
    WhereConstant(e, me);
    assert Where(a, ma) + [] == Where(a, ma);
  }

  /** A column of rows with a stretch inserted is the column with that stretch's cells inserted. */
  lemma ColumnInsertRows(columns: seq<string>, a: seq<Row>, e: seq<Row>, b: seq<Row>, name: string)
    requires name in columns
    ensures Column(Table(columns, a + e + b), name).value
         == Column(Table(columns, a), name).value + Column(Table(columns, e), name).value
          + Column(Table(columns, b), name).value
    ensures Column(Table(columns, a + b), name).value
         == Column(Table(columns, a), name).value + Column(Table(columns, b), name).value
  {
    ColumnAppendRows(columns, a + e, b, name);
    ColumnAppendRows(columns, a, e, name);
    ColumnAppendRows(columns, a, b, name);
  }

  /** Every selected element comes from a position the mask keeps. */
  lemma {:induction false} WhereMember<T>(xs: seq<T>, mask: seq<bool>, x: T)
    requires |xs| == |mask| && x in Where(xs, mask)
    ensures exists i :: 0 <= i < |xs| && mask[i] && xs[i] == x
  {
    if mask[0] && x == xs[0] {
    } else {
      WhereMember(xs[1..], mask[1..], x);
      var i :| 0 <= i < |xs[1..]| && mask[1..][i] && xs[1..][i] == x;
      assert mask[i + 1] && xs[i + 1] == x;
    }
  }
}
