/**
 * What the run reads from the destination grid before it writes: the column
 * of the selected day (found in header row 2, from column C on) and the
 * advisor blocks (found in column A, from row 4 on, one block every 26 rows).
 * Rows and columns are numbered from 1, as the grid numbers them.
 */
module Grid {
  import opened Wrappers
  import opened Text
  import opened Tables

  /** `strftime('%d')`: the day of the month as two digits. */
  function TwoDigits(d: nat): (r: string)
    requires d < 100
    ensures |r| == 2 && AllDigits(r)
  {
    [DigitChar(d / 10), DigitChar(d % 10)]
  }

  /** `s.lstrip(c)`: every leading `c` removed. */
  function LStrip(s: string, c: char): (r: string)
    ensures |r| <= |s| && r == s[|s| - |r|..]
    ensures r != [] ==> r[0] != c
  {
    if s != [] && s[0] == c then LStrip(s[1..], c) else s
  }

  /** The label the run looks for: the day of the month with its leading zero removed. */
  function DayLabel(day: nat): string
    requires 1 <= day <= 31
  {
    LStrip(TwoDigits(day), '0')
  }

  /** The label of a day is its plain decimal numeral ("5", "17"): no leading zero. */
  lemma DayLabelIsNumeral(day: nat)
    requires 1 <= day <= 31
    ensures DayLabel(day) == ShowNat(day)
    ensures DayLabel(day)[0] != '0'
  {
    var q, r := day / 10, day % 10;
    assert TwoDigits(day) == [DigitChar(q), DigitChar(r)];
    if q == 0 {
      OneDigitLabel(r);
    } else {
      TwoDigitLabel(q, r);
      assert ShowNat(day) == ShowNat(q) + [DigitChar(r)];
    }
  }

  lemma OneDigitLabel(r: nat)
    requires 1 <= r < 10
    ensures LStrip([DigitChar(0), DigitChar(r)], '0') == ShowNat(r) && ShowNat(r)[0] != '0'
  {
    var t := [DigitChar(0), DigitChar(r)];
    assert DigitValue(DigitChar(r)) == r;
    assert t[1..] == [DigitChar(r)];
  }

  lemma TwoDigitLabel(q: nat, r: nat)
    requires 1 <= q < 10 && r < 10
    ensures LStrip([DigitChar(q), DigitChar(r)], '0') == ShowNat(q) + [DigitChar(r)]
    ensures DigitChar(q) != '0'
  {
    assert DigitValue(DigitChar(q)) == q;
  }

  /** `s[n:]`: an empty slice when `s` is shorter than `n`. */
  function Drop<T>(s: seq<T>, n: nat): (r: seq<T>)
    ensures |s| <= n ==> r == []
    ensures n < |s| ==> r == s[n..]
  {
    if |s| <= n then [] else s[n..]
  }

  /** The column of the selected day: the first cell of header row 2, from column C on,
      that holds the label. Without one the run stops before it reads or writes anything. */
  function DateColumn(row2: seq<string>, dayLabel: string): (r: Result<nat, Error>)
    ensures r.Err? <==> dayLabel !in Drop(row2, 2)
    ensures r.Err? ==> r.error == DateNotFound(dayLabel)
    ensures r.Ok? ==> 3 <= r.value <= |row2| && row2[r.value - 1] == dayLabel
                      && dayLabel !in row2[2..r.value - 1]
  {
    var dates := Drop(row2, 2);
    match IndexOf(dates, dayLabel)
    case None => Err(DateNotFound(dayLabel))
    case Some(i) =>
      assert dates[..i] == row2[2..i + 2];
      Ok(i + 3)
  }

  /** One advisor block: the advisor's normalised name and the row that holds it. */
  datatype Block = Block(name: string, startRow: int)

  /** The blocks found from index `idx` of the column-A values read from row 4 on:
      a blank cell, or the end of the column, ends the search. */
  function BlocksFrom(values: seq<string>, idx: nat): seq<Block>
    decreases |values| - idx
  {
    if idx >= |values| || values[idx] == "" then []
    else [Block(NormalizeKey(values[idx]), 4 + idx)] + BlocksFrom(values, idx + 26)
  }

  /** One step of the search: a blank cell ends it, a name adds a block and moves on 26 rows. */
  lemma BlocksFromStep(values: seq<string>, idx: nat)
    requires idx < |values|
    ensures values[idx] == "" ==> BlocksFrom(values, idx) == []
    ensures values[idx] != "" ==>
      BlocksFrom(values, idx) == [Block(NormalizeKey(values[idx]), 4 + idx)] + BlocksFrom(values, idx + 26)
  {
  }

  /** The blocks of a column A read from row 1: its values from row 4 on, searched from the first. */
  function Blocks(colA: seq<string>): seq<Block> {
    BlocksFrom(Drop(colA, 3), 0)
  }

  /** Block `i` starts at row 4 + 26·i and names the advisor written there. */
  lemma {:induction false} BlocksFromItems(values: seq<string>, idx: nat)
    ensures var bs := BlocksFrom(values, idx);
      forall i :: 0 <= i < |bs| ==>
        idx + 26 * i < |values| && values[idx + 26 * i] != ""
        && bs[i] == Block(NormalizeKey(values[idx + 26 * i]), 4 + idx + 26 * i)
    decreases |values| - idx
  {
    if idx < |values| && values[idx] != "" {
      BlocksFromItems(values, idx + 26);
      var rest := BlocksFrom(values, idx + 26);
      var bs := BlocksFrom(values, idx);
      assert bs == [Block(NormalizeKey(values[idx]), 4 + idx)] + rest;
      forall i | 0 <= i < |bs|
        ensures idx + 26 * i < |values| && values[idx + 26 * i] != ""
                && bs[i] == Block(NormalizeKey(values[idx + 26 * i]), 4 + idx + 26 * i)
      {
        if i > 0 {
          var k := i - 1;
          assert idx + 26 + 26 * k == idx + 26 * i;
          assert bs[i] == rest[k];
        }
      }
    }
  }

  /** The search stops at the first block position that is blank or past the end of the column. */
  lemma {:induction false} BlocksFromStop(values: seq<string>, idx: nat)
    ensures var n := |BlocksFrom(values, idx)|;
      idx + 26 * n >= |values| || values[idx + 26 * n] == ""
    decreases |values| - idx
  {
    if idx < |values| && values[idx] != "" {
      BlocksFromStop(values, idx + 26);
      var n := |BlocksFrom(values, idx + 26)|;
      assert |BlocksFrom(values, idx)| == n + 1;
      assert idx + 26 * (n + 1) == idx + 26 + 26 * n;
    } else {
      assert BlocksFrom(values, idx) == [];
    }
  }

  /** Discovery as a whole: every block sits at row 4 + 26·i of the grid and carries the
      stripped, upper-cased name in column A there; the first blank (or missing) cell at
      such a row ends the list, so no name below it is found. */
  lemma BlocksShape(colA: seq<string>)
    ensures var bs := Blocks(colA);
      && (forall i :: 0 <= i < |bs| ==>
            3 + 26 * i < |colA| && colA[3 + 26 * i] != ""
            && bs[i] == Block(NormalizeKey(colA[3 + 26 * i]), 4 + 26 * i))
      && (3 + 26 * |bs| >= |colA| || colA[3 + 26 * |bs|] == "")
  {
    BlocksFromItems(Drop(colA, 3), 0);
    BlocksFromStop(Drop(colA, 3), 0);
  }

  /** The search in column A as the run performs it: a cursor advanced by 26 rows that
      collects names and start rows until it meets a blank cell or the end. */
  method DiscoverBlocks(colA: seq<string>) returns (names: seq<string>, startRows: seq<int>)
    ensures |names| == |startRows| && Zip(names, startRows) == Blocks(colA)
  {
    var values := Drop(colA, 3);
    names := [];
    startRows := [];
    var row := 4;
    var idx := 0;
    while idx < |values|
      invariant |names| == |startRows|
      invariant Zip(names, startRows) + BlocksFrom(values, idx) == BlocksFrom(values, 0)
      decreases |values| - idx
    {
      var name := values[idx];
      if name == "" {
        BlocksFromStep(values, idx);
        break;
      }
      FoundStep(Zip(names, startRows), values, idx);
      ZipSnoc(names, startRows, NormalizeKey(name), row + idx);
      name := NormalizeKey(name);
      names := names + [name];
      startRows := startRows + [row + idx];
      idx := idx + 26;
    }
    assert BlocksFrom(values, idx) == [];
  }

  /** `zip(names, rows)`, pair by pair. */
  function Zip(names: seq<string>, rows: seq<int>): (r: seq<Block>)
    requires |names| == |rows|
    ensures |r| == |names|
  {
    seq(|names|, i requires 0 <= i < |names| => Block(names[i], rows[i]))
  }

  lemma ZipSnoc(names: seq<string>, rows: seq<int>, n: string, row: int)
    requires |names| == |rows|
    ensures Zip(names + [n], rows + [row]) == Zip(names, rows) + [Block(n, row)]
  {
  }

  lemma FoundStep(found: seq<Block>, values: seq<string>, idx: nat)
    requires idx < |values| && values[idx] != ""
    ensures found + BlocksFrom(values, idx)
         == (found + [Block(NormalizeKey(values[idx]), 4 + idx)]) + BlocksFrom(values, idx + 26)
  {
    BlocksFromStep(values, idx);
  }

  /** The advisors' names, in mapping order. */
  function Names(mapping: seq<Block>): (r: seq<string>)
    ensures |r| == |mapping|
  {
    seq(|mapping|, i requires 0 <= i < |mapping| => mapping[i].name)
  }

  /** No name occurs twice: the mapping is a dictionary. */
  predicate DistinctNames(mapping: seq<Block>) {
    forall i, j :: 0 <= i < j < |mapping| ==> mapping[i].name != mapping[j].name
  }

  /** `d[name] = row` on a dictionary kept as its items in insertion order: a name already
      present keeps its place and takes the new row; a new name goes last. */
  function Put(mapping: seq<Block>, b: Block): seq<Block> {
    match IndexOf(Names(mapping), b.name)
    case Some(j) => mapping[j := b]
    case None => mapping + [b]
  }

  /** `dict(zip(advisor_names, advisor_start_rows))`, built item by item. */
  function AdvisorMapping(blocks: seq<Block>): seq<Block>
  {
    if blocks == [] then [] else Put(AdvisorMapping(blocks[..|blocks| - 1]), blocks[|blocks| - 1])
  }

  /** The mapping is a dictionary of the discovered names: each name once, every
      discovered name present, no other name. */
  lemma {:induction false} AdvisorMappingKeys(blocks: seq<Block>)
    ensures DistinctNames(AdvisorMapping(blocks))
    ensures forall n :: n in Names(AdvisorMapping(blocks)) <==> n in Names(blocks)
  {
    if blocks != [] {
      var front := blocks[..|blocks| - 1];
      var b := blocks[|blocks| - 1];
      AdvisorMappingKeys(front);
      var m := AdvisorMapping(front);
      assert forall n :: n in Names(blocks) <==> n in Names(front) || n == b.name by {
        assert Names(blocks) == Names(front) + [b.name];
      }
      match IndexOf(Names(m), b.name)
      case Some(j) =>
        assert m[j].name == b.name;
        assert Names(m[j := b]) == Names(m);
      case None =>
        assert forall i :: 0 <= i < |m| ==> m[i].name == Names(m)[i] != b.name;
        assert Names(m + [b]) == Names(m) + [b.name];
    }
  }

  /** An item of the dictionary after `Put(m, x)` other than `x` itself was already in
      it, under another name than `x`'s. */
  lemma PutKeepsOthers(m: seq<Block>, x: Block, b: Block)
    requires DistinctNames(m) && b in Put(m, x) && b != x
    ensures b in m && b.name != x.name
  {
    var k :| 0 <= k < |Put(m, x)| && Put(m, x)[k] == b;
    match IndexOf(Names(m), x.name)
    case Some(j) =>
      assert m[j].name == x.name;
      assert k != j && m[k] == b;
    case None =>
      assert k < |m| && m[k] == b;
      assert Names(m)[k] == b.name;
  }

  /** The row a name is mapped to is that of its last block: a later block with the same
      name replaces the row of an earlier one. */
  lemma {:induction false} AdvisorMappingLastWins(blocks: seq<Block>, b: Block)
    requires b in AdvisorMapping(blocks)
    ensures exists i :: 0 <= i < |blocks| && blocks[i] == b
                        && forall j :: i < j < |blocks| ==> blocks[j].name != b.name
  {
    var front := blocks[..|blocks| - 1];
    var last := blocks[|blocks| - 1];
    var m := AdvisorMapping(front);
    if b == last {
      assert blocks[|blocks| - 1] == b;
    } else {
      AdvisorMappingKeys(front);
      PutKeepsOthers(m, last, b);
      AdvisorMappingLastWins(front, b);
      var i :| 0 <= i < |front| && front[i] == b
               && forall j :: i < j < |front| ==> front[j].name != b.name;
      assert blocks[i] == b;
    }
  }

  /** When the discovered names are all different the mapping is the discovered list itself. */
  lemma {:induction false} AdvisorMappingOfDistinct(blocks: seq<Block>)
    requires DistinctNames(blocks)
    ensures AdvisorMapping(blocks) == blocks
  {
    if blocks != [] {
      var front := blocks[..|blocks| - 1];
      var b := blocks[|blocks| - 1];
      AdvisorMappingOfDistinct(front);
      assert b.name !in Names(front) by {
        forall i | 0 <= i < |front| ensures Names(front)[i] != b.name {
          assert front[i] == blocks[i];
        }
      }
      assert front + [b] == blocks;
    }
  }
}
