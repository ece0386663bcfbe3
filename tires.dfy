/**
 * `process_tires_data`: the Tires upload names its columns differently in
 * the Original and the GM report, so the three columns it needs are found by
 * keywords in the headers before the quantities and gross are summed per
 * advisor. When the upload read with its first row as header does not
 * match, the same file read two rows further down is tried (the GM report).
 */
module TiresFormat {
  import opened Wrappers
  import opened Text
  import opened Tables
  import opened Grouping
  import opened Aggregators

  /** The column a header is taken for. */
  datatype Role = NameRole | QuantityRole | GrossRole | NoRole

  /** One keyword rule: a header is taken for `role` when its lower-cased text contains
      every keyword of one of the alternatives. */
  datatype Rule = Rule(alternatives: seq<seq<string>>, role: Role)

  /** The rules of the Tires scan, in the order they are tried. */
  const TiresRules: seq<Rule> := [
    Rule([["advisor", "name"]], NameRole),
    Rule([["part count"], ["actual quantity"]], QuantityRole),
    Rule([["opcode parts gross"], ["gross"]], GrossRole)]

  /** Every keyword occurs in `h`. */
  predicate ContainsAll(h: string, words: seq<string>) {
    words == [] || (Contains(h, words[0]) && ContainsAll(h, words[1..]))
  }

  /** Some alternative's keywords all occur in `h`. */
  predicate MatchesAny(h: string, alternatives: seq<seq<string>>) {
    alternatives != [] && (ContainsAll(h, alternatives[0]) || MatchesAny(h, alternatives[1..]))
  }

  /** The role of the first rule that matches, or none. */
  function FirstMatch(h: string, rules: seq<Rule>): Role {
    if rules == [] then NoRole
    else if MatchesAny(h, rules[0].alternatives) then rules[0].role
    else FirstMatch(h, rules[1..])
  }

  /** The role a header is taken for: the keyword rules tried in order on its lower-cased
      text, the first that matches deciding. */
  function RoleOf(header: string): Role {
    FirstMatch(Lower(header), TiresRules)
  }

  /** The header a role ends up with: the last header taken for it, as each match
      overwrites the one before. */
  function LastWithRole(headers: seq<string>, role: Role): Option<string> {
    if headers == [] then None
    else if RoleOf(headers[|headers| - 1]) == role then Some(headers[|headers| - 1])
    else LastWithRole(headers[..|headers| - 1], role)
  }

  /** The header found for a role is taken for it and no later header is; no header is
      found exactly when none is taken for the role. */
  lemma LastWithRoleMeaning(headers: seq<string>, role: Role)
    ensures LastWithRole(headers, role).None? <==> !HasRole(headers, role)
    ensures LastWithRole(headers, role).Some? ==>
      exists i :: 0 <= i < |headers| && headers[i] == LastWithRole(headers, role).value
        && RoleOf(headers[i]) == role && forall j :: i < j < |headers| ==> RoleOf(headers[j]) != role
  {
    LastWithRoleNone(headers, role);
    LastWithRoleLast(headers, role);
  }

  lemma {:induction false} LastWithRoleNone(headers: seq<string>, role: Role)
    ensures LastWithRole(headers, role).None? <==> !HasRole(headers, role)
  {
    if headers != [] {
      var last := |headers| - 1;
      var front := headers[..last];
      if RoleOf(headers[last]) != role {
        LastWithRoleNone(front, role);
        assert HasRole(headers, role) <==> HasRole(front, role) by {
          forall i | 0 <= i < last ensures headers[i] == front[i] {
          }
        }
      }
    }
  }

  lemma {:induction false} LastWithRoleLast(headers: seq<string>, role: Role)
    ensures LastWithRole(headers, role).Some? ==>
      exists i :: 0 <= i < |headers| && headers[i] == LastWithRole(headers, role).value
        && RoleOf(headers[i]) == role && forall j :: i < j < |headers| ==> RoleOf(headers[j]) != role
  {
    if headers != [] {
      var last := |headers| - 1;
      var front := headers[..last];
      var r := LastWithRole(front, role);
      if RoleOf(headers[last]) != role && r.Some? {
        LastWithRoleLast(front, role);
        var i :| 0 <= i < |front| && front[i] == r.value && RoleOf(front[i]) == role
                 && forall j :: i < j < |front| ==> RoleOf(front[j]) != role;
        assert headers[i] == front[i];
        forall j | i < j < |headers| ensures RoleOf(headers[j]) != role {
          if j < last { assert headers[j] == front[j]; }
        }
      }
    }
  }

  /** Scanning one more header: a header taken for the role replaces the one found so far. */
  lemma LastWithRoleStep(headers: seq<string>, h: string, role: Role)
    ensures LastWithRole(headers + [h], role)
         == if RoleOf(h) == role then Some(h) else LastWithRole(headers, role)
  {
    assert (headers + [h])[..|headers|] == headers;
  }

  /** The role found is one some header is taken for, and none is found when no header is. */
  lemma LastWithRoleFound(headers: seq<string>, role: Role)
    ensures LastWithRole(headers, role).None? <==> !HasRole(headers, role)
    ensures LastWithRole(headers, role).Some? ==>
      LastWithRole(headers, role).value in headers && RoleOf(LastWithRole(headers, role).value) == role
  {
    LastWithRoleMeaning(headers, role);
  }

  /** Some header is taken for `role`. */
  predicate HasRole(headers: seq<string>, role: Role) {
    exists i :: 0 <= i < |headers| && RoleOf(headers[i]) == role
  }

  /** The three columns found, and whether the names header marks the GM report. */
  datatype TiresLayout = TiresLayout(names: string, quantity: string, gross: string, gm: bool)

  /** The outcome of the header scan: every role must be found, or the upload is not
      in a known format. */
  function DetectTires(headers: seq<string>): (r: Result<TiresLayout, Error>)
    ensures r.Ok? <==> HasRole(headers, NameRole) && HasRole(headers, QuantityRole) && HasRole(headers, GrossRole)
    ensures r.Err? ==> r.error == FormatNotRecognized("Tires")
    ensures r.Ok? ==> (
      && r.value.names in headers && r.value.quantity in headers && r.value.gross in headers
      && RoleOf(r.value.names) == NameRole && RoleOf(r.value.quantity) == QuantityRole
      && RoleOf(r.value.gross) == GrossRole
      && (r.value.gm <==> Contains(Lower(r.value.names), "advisor name group")))
    ensures r.Ok? ==> LastWithRole(headers, NameRole) == Some(r.value.names)
    ensures r.Ok? ==> LastWithRole(headers, QuantityRole) == Some(r.value.quantity)
    ensures r.Ok? ==> LastWithRole(headers, GrossRole) == Some(r.value.gross)
  {
    LastWithRoleFound(headers, NameRole);
    LastWithRoleFound(headers, QuantityRole);
    LastWithRoleFound(headers, GrossRole);
    match (LastWithRole(headers, NameRole), LastWithRole(headers, QuantityRole), LastWithRole(headers, GrossRole))
    case (Some(n), Some(q), Some(g)) =>
      Ok(TiresLayout(n, q, g, Contains(Lower(n), "advisor name group")))
    case _ => Err(FormatNotRecognized("Tires"))
  }

  /** The three columns are different headers: no header serves two roles. */
  lemma DetectedColumnsDistinct(headers: seq<string>)
    requires DetectTires(headers).Ok?
    ensures var l := DetectTires(headers).value;
      l.names != l.quantity && l.quantity != l.gross && l.names != l.gross
  {
  }

  /** The rule table read as the chain of tests the scan applies to each lower-cased
      header: the advisor name rule first, then quantity, then gross. */
  lemma RoleOfChain(header: string)
    ensures var h := Lower(header);
      RoleOf(header) ==
        if Contains(h, "advisor") && Contains(h, "name") then NameRole
        else if Contains(h, "part count") || Contains(h, "actual quantity") then QuantityRole
        else if Contains(h, "opcode parts gross") || Contains(h, "gross") then GrossRole
        else NoRole
  {
    var h := Lower(header);
    var rules := TiresRules;
    ContainsAllTwo(h, "advisor", "name");
    MatchesAnyOne(h, ["advisor", "name"]);
    ContainsAllOne(h, "part count");
    ContainsAllOne(h, "actual quantity");
    MatchesAnyTwo(h, ["part count"], ["actual quantity"]);
    ContainsAllOne(h, "opcode parts gross");
    ContainsAllOne(h, "gross");
    MatchesAnyTwo(h, ["opcode parts gross"], ["gross"]);
    var r1 := rules[1..];
    var r2 := r1[1..];
    assert r2[1..] == [];
    assert FirstMatch(h, r2) == if MatchesAny(h, r2[0].alternatives) then GrossRole else NoRole;
    assert FirstMatch(h, r1) == if MatchesAny(h, r1[0].alternatives) then QuantityRole else FirstMatch(h, r2);
    assert FirstMatch(h, rules) == if MatchesAny(h, rules[0].alternatives) then NameRole else FirstMatch(h, r1);
  }

  lemma ContainsAllOne(h: string, w: string)
    ensures ContainsAll(h, [w]) == Contains(h, w)
  {
    assert [w][1..] == [];
  }

  lemma ContainsAllTwo(h: string, v: string, w: string)
    ensures ContainsAll(h, [v, w]) == (Contains(h, v) && Contains(h, w))
  {
    assert [v, w][1..] == [w];
    ContainsAllOne(h, w);
  }

  lemma MatchesAnyOne(h: string, x: seq<string>)
    ensures MatchesAny(h, [x]) == ContainsAll(h, x)
  {
    assert [x][1..] == [];
  }

  lemma MatchesAnyTwo(h: string, x: seq<string>, y: seq<string>)
    ensures MatchesAny(h, [x, y]) == (ContainsAll(h, x) || ContainsAll(h, y))
  {
    assert [x, y][1..] == [y];
    MatchesAnyOne(h, y);
  }

  /** The scan over the headers as the source runs it: one pass that overwrites the
      column found for a role each time a later header matches it. */
  method DetectTiresColumns(headers: seq<string>) returns (r: Result<TiresLayout, Error>)
    ensures r == DetectTires(headers)
  {
    var names: Option<string> := None;
    var quantity: Option<string> := None;
    var gross: Option<string> := None;
    var i := 0;
    while i < |headers|
      invariant 0 <= i <= |headers|
      invariant names == LastWithRole(headers[..i], NameRole)
      invariant quantity == LastWithRole(headers[..i], QuantityRole)
      invariant gross == LastWithRole(headers[..i], GrossRole)
    {
      var lower := Lower(headers[i]);
      RoleOfChain(headers[i]);
      if Contains(lower, "advisor") && Contains(lower, "name") {
        names := Some(headers[i]);
      } else if Contains(lower, "part count") || Contains(lower, "actual quantity") {
        quantity := Some(headers[i]);
      } else if Contains(lower, "opcode parts gross") || Contains(lower, "gross") {
        gross := Some(headers[i]);
      }
      assert headers[..i + 1] == headers[..i] + [headers[i]];
      LastWithRoleStep(headers[..i], headers[i], NameRole);
      LastWithRoleStep(headers[..i], headers[i], QuantityRole);
      LastWithRoleStep(headers[..i], headers[i], GrossRole);
      i := i + 1;
    }
    assert headers[..i] == headers;
    if names.Some? && quantity.Some? && gross.Some? {
      r := Ok(TiresLayout(names.value, quantity.value, gross.value, Contains(Lower(names.value), "advisor name group")));
    } else {
      r := Err(FormatNotRecognized("Tires"));
    }
  }

  /** quantity and gross per advisor of the Tires upload. */
  datatype TiresTotals = TiresTotals(quantity: map<string, real>, gross: map<string, real>)

  /** What `process_tires_data` returns for one parsed upload: names read as text (a blank
      name is "NAN"), quantity cleaned before gross, both summed per advisor. */
  function TiresOf(t: Table): (r: Result<TiresTotals, Error>)
    ensures DetectTires(t.columns).Err? ==> r == Err(FormatNotRecognized("Tires"))
    ensures r.Ok? <==> DetectTires(t.columns).Ok?
                       && Cleaned(t, DetectTires(t.columns).value.quantity).Ok?
                       && Cleaned(t, DetectTires(t.columns).value.gross).Ok?
  {
    var layout :- DetectTires(t.columns);
    var quantity :- Cleaned(t, layout.quantity);
    var gross :- Cleaned(t, layout.gross);
    var keys := NameKeysAsText(Column(t, layout.names).value);
    Ok(TiresTotals(SumBy(keys, quantity), SumBy(keys, gross)))
  }

  /** `process_tires_data`: the header scan, then the sums. */
  method ProcessTiresData(t: Table) returns (r: Result<TiresTotals, Error>)
    ensures r == TiresOf(t)
  {
    var layout := DetectTiresColumns(t.columns);
    if layout.Err? {
      return Err(layout.error);
    }
    var l := layout.value;
    var quantity := Cleaned(t, l.quantity);
    if quantity.Err? {
      return Err(quantity.error);
    }
    var gross := Cleaned(t, l.gross);
    if gross.Err? {
      return Err(gross.error);
    }
    var keys := NameKeysAsText(Column(t, l.names).value);
    r := Ok(TiresTotals(SumBy(keys, quantity.value), SumBy(keys, gross.value)));
  }

  /** Each advisor's quantity and gross are the sums over the rows naming them, and the
      two series have the same advisors. */
  lemma TiresMeaning(t: Table)
    requires TiresOf(t).Ok?
    ensures var l := DetectTires(t.columns).value;
      var r := TiresOf(t).value;
      var keys := NameKeysAsText(Column(t, l.names).value);
      var quantity := Cleaned(t, l.quantity).value;
      var gross := Cleaned(t, l.gross).value;
      && (forall k :: k in r.quantity <==> Some(k) in keys)
      && r.gross.Keys == r.quantity.Keys
      && (forall k :: k in r.quantity ==> r.quantity[k] == Sum(Group(keys, quantity, k)))
      && (forall k :: k in r.gross ==> r.gross[k] == Sum(Group(keys, gross, k)))
  {
    var l := DetectTires(t.columns).value;
    var keys := NameKeysAsText(Column(t, l.names).value);
    var quantity := Cleaned(t, l.quantity).value;
    var gross := Cleaned(t, l.gross).value;
    assert TiresOf(t).value == TiresTotals(SumBy(keys, quantity), SumBy(keys, gross));
    SumByGroups(keys, quantity);
    SumByGroups(keys, gross);
  }

  /** The Tires entry of the run: the upload read with its first row as header; if that
      fails for any reason, the upload read two rows further down; if that fails too,
      no Tires data (empty series, written as 0). */
  function TiresUpload(original: Table, skipped: Table): (r: TiresTotals)
    ensures TiresOf(original).Ok? ==> r == TiresOf(original).value
    ensures TiresOf(original).Err? && TiresOf(skipped).Ok? ==> r == TiresOf(skipped).value
    ensures TiresOf(original).Err? && TiresOf(skipped).Err? ==> r == TiresTotals(map[], map[])
  {
    match TiresOf(original)
    case Ok(v) => v
    case Err(_) =>
      match TiresOf(skipped)
      case Ok(v) => v
      case Err(_) => TiresTotals(map[], map[])
  }

  /** The second reading is only consulted when the first one fails. */
  lemma TiresFallbackOnlyOnFailure(original: Table, skipped: Table, other: Table)
    requires TiresOf(original).Ok?
    ensures TiresUpload(original, skipped) == TiresUpload(original, other)
  {
  }
}
