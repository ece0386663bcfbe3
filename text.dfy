/**
 * The text and number normaliser used by every aggregator: Python's
 * `str.strip()`, `str.upper()`, `str.lower()`, substring search (`in`),
 * the `$`/`,` removal of `clean_column_data`, and the decimal text that
 * `float(...)` accepts afterwards.
 */
module Text {
  import opened Wrappers

  /** The characters Python's `str.isspace()` accepts (and so `strip()` removes). */
  predicate IsSpace(c: char) {
    var n := c as int;
    (9 <= n <= 13) || (28 <= n <= 32) || n == 0x85 || n == 0xA0 || n == 0x1680
    || (0x2000 <= n <= 0x200A) || n == 0x2028 || n == 0x2029 || n == 0x202F
    || n == 0x205F || n == 0x3000
  }

  /** `s.lstrip()`: the suffix of `s` left after dropping its leading whitespace. */
  function TrimStart(s: string): string {
    if s != [] && IsSpace(s[0]) then TrimStart(s[1..]) else s
  }

  /** What `lstrip()` drops is whitespace, and what it keeps does not start with any. */
  lemma {:induction false} TrimStartShape(s: string)
    ensures var r := TrimStart(s);
      && |r| <= |s| && r == s[|s| - |r|..]
      && (forall i :: 0 <= i < |s| - |r| ==> IsSpace(s[i]))
      && (r == [] || !IsSpace(r[0]))
  {
    if s != [] && IsSpace(s[0]) {
      var t := s[1..];
      TrimStartShape(t);
      var r := TrimStart(t);
      assert TrimStart(s) == r;
      assert t[|t| - |r|..] == s[|s| - |r|..];
      forall i | 0 <= i < |s| - |r| ensures IsSpace(s[i]) {
        if i > 0 { assert s[i] == t[i - 1]; }
      }
    } else {
      assert TrimStart(s) == s;
    }
  }

  /** `s.rstrip()`: the prefix of `s` left after dropping its trailing whitespace. */
  function TrimEnd(s: string): string {
    if s != [] && IsSpace(s[|s| - 1]) then TrimEnd(s[..|s| - 1]) else s
  }

  /** What `rstrip()` drops is whitespace, and what it keeps does not end with any. */
  lemma {:induction false} TrimEndShape(s: string)
    ensures var r := TrimEnd(s);
      && |r| <= |s| && r == s[..|r|]
      && (forall i :: |r| <= i < |s| ==> IsSpace(s[i]))
      && (r == [] || !IsSpace(r[|r| - 1]))
  {
    if s != [] && IsSpace(s[|s| - 1]) {
      TrimEndShape(s[..|s| - 1]);
    }
  }

  /** `s.strip()`. */
  function Strip(s: string): string {
    TrimEnd(TrimStart(s))
  }

  /** Stripping leaves no whitespace at either end, and drops only whitespace. */
  lemma StripEnds(s: string)
    ensures var r := Strip(s);
      && (r == [] || (!IsSpace(r[0]) && !IsSpace(r[|r| - 1])))
      && |r| <= |s|
      && (forall j :: 0 <= j < |s| - |TrimStart(s)| ==> IsSpace(s[j]))
      && (forall j :: 0 <= j && |s| - |TrimStart(s)| + |r| <= j < |s| ==> IsSpace(s[j]))
  {
    TrimStartShape(s);
    var t := TrimStart(s);
    TrimEndShape(t);
    var i := |s| - |t|;
    var r := Strip(s);
    assert forall j :: i + |r| <= j < |s| ==> IsSpace(s[j]) by {
      forall j | i + |r| <= j < |s| ensures IsSpace(s[j]) {
        assert s[j] == t[j - i];
      }
    }
  }

  /** A string with no whitespace at either end is its own strip. */
  lemma StripOfTrimmed(s: string)
    requires s == [] || (!IsSpace(s[0]) && !IsSpace(s[|s| - 1]))
    ensures Strip(s) == s
  {
  }

  /** `strip()` is idempotent. */
  lemma StripIdempotent(s: string)
    ensures Strip(Strip(s)) == Strip(s)
  {
    StripEnds(s);
    StripOfTrimmed(Strip(s));
  }

  /** ASCII case mapping of `str.upper()` / `str.lower()`. */
  function UpperChar(c: char): char {
    if 'a' <= c <= 'z' then (c as int - 32) as char else c
  }

  function LowerChar(c: char): char {
    if 'A' <= c <= 'Z' then (c as int + 32) as char else c
  }

  function Upper(s: string): string {
    seq(|s|, i requires 0 <= i < |s| => UpperChar(s[i]))
  }

  function Lower(s: string): string {
    seq(|s|, i requires 0 <= i < |s| => LowerChar(s[i]))
  }

  /** The advisor key of every aggregator and of block discovery: `s.strip().upper()`. */
  function NormalizeKey(s: string): string {
    Upper(Strip(s))
  }

  /** Upper-casing leaves no lower-case ASCII letter behind and changes nothing else but letters. */
  lemma UpperIdempotent(s: string)
    ensures Upper(Upper(s)) == Upper(s)
    ensures forall i :: 0 <= i < |s| ==> !('a' <= Upper(s)[i] <= 'z')
  {
  }

  lemma UpperCharKeepsSpace(c: char)
    ensures IsSpace(UpperChar(c)) == IsSpace(c)
  {
  }

  lemma {:induction false} TrimStartUpper(s: string)
    ensures TrimStart(Upper(s)) == Upper(TrimStart(s))
    decreases |s|
  {
    if s != [] {
      var u := Upper(s);
      assert u[0] == UpperChar(s[0]);
      UpperCharKeepsSpace(s[0]);
      if IsSpace(s[0]) {
        assert u[1..] == Upper(s[1..]);
        TrimStartUpper(s[1..]);
        assert TrimStart(u) == TrimStart(u[1..]);
        assert TrimStart(s) == TrimStart(s[1..]);
      } else {
        assert TrimStart(u) == u;
        assert TrimStart(s) == s;
      }
    }
  }

  lemma {:induction false} TrimEndUpper(s: string)
    ensures TrimEnd(Upper(s)) == Upper(TrimEnd(s))
    decreases |s|
  {
    if s != [] {
      var u := Upper(s);
      var n := |s| - 1;
      assert u[n] == UpperChar(s[n]);
      UpperCharKeepsSpace(s[n]);
      if IsSpace(s[n]) {
        assert u[..n] == Upper(s[..n]);
        TrimEndUpper(s[..n]);
        assert TrimEnd(u) == TrimEnd(u[..n]);
        assert TrimEnd(s) == TrimEnd(s[..n]);
      } else {
        assert TrimEnd(u) == u;
        assert TrimEnd(s) == s;
      }
    }
  }

  /** Normalising an already normalised key changes nothing: the advisor keys
      built from the sheet and from the uploads live in the same space. */
  lemma NormalizeKeyIdempotent(s: string)
    ensures NormalizeKey(NormalizeKey(s)) == NormalizeKey(s)
  {
    var t := Strip(s);
    calc {
      NormalizeKey(NormalizeKey(s));
      Upper(TrimEnd(TrimStart(Upper(t))));
      { TrimStartUpper(t); }
      Upper(TrimEnd(Upper(TrimStart(t))));
      { TrimEndUpper(TrimStart(t)); }
      Upper(Upper(Strip(t)));
      { UpperIdempotent(Strip(t)); StripIdempotent(s); }
      Upper(t);
    }
  }

  /** `sub` occurs in `s` starting at index `i`. */
  predicate OccursAt(s: string, sub: string, i: nat) {
    i + |sub| <= |s| && s[i..i + |sub|] == sub
  }

  /** Python's `sub in s`. */
  function Contains(s: string, sub: string): (b: bool)
    ensures b <==> exists i: nat :: i <= |s| && OccursAt(s, sub, i)
    decreases |s|
  {
    if |sub| > |s| then false
    else if s[..|sub|] == sub then (assert OccursAt(s, sub, 0); true)
    else
      var rest := Contains(s[1..], sub);
      assert forall i: nat :: i + 1 <= |s| ==> (OccursAt(s[1..], sub, i) <==> OccursAt(s, sub, i + 1));
      assert !OccursAt(s, sub, 0);
      assert forall i: nat :: 1 <= i <= |s| ==> (OccursAt(s, sub, i) ==> OccursAt(s[1..], sub, i - 1));
      rest
  }

  /** The two characters `clean_column_data` removes. */
  predicate IsCurrencyMark(c: char) {
    c == '$' || c == ','
  }

  /** The text of a cell after `clean_column_data`'s `replace('[\$,]', '')`: no `$` or `,` is left. */
  function RemoveCurrencyMarks(s: string): (r: string)
    ensures forall i :: 0 <= i < |r| ==> !IsCurrencyMark(r[i])
  {
    if s == [] then []
    else if IsCurrencyMark(s[0]) then RemoveCurrencyMarks(s[1..])
    else [s[0]] + RemoveCurrencyMarks(s[1..])
  }

  /** The cleaning removes nothing but `$` and `,`: every other character is kept as often as before. */
  lemma {:induction false} RemoveCurrencyMarksKeepsOthers(s: string, c: char)
    requires !IsCurrencyMark(c)
    ensures multiset(RemoveCurrencyMarks(s))[c] == multiset(s)[c]
  {
    if s != [] {
      assert s == [s[0]] + s[1..];
      RemoveCurrencyMarksKeepsOthers(s[1..], c);
    }
  }

  /** On text that has no `$` or `,` the cleaning is the identity; in particular it is idempotent. */
  lemma {:induction false} RemoveCurrencyMarksOfClean(s: string)
    requires forall i :: 0 <= i < |s| ==> !IsCurrencyMark(s[i])
    ensures RemoveCurrencyMarks(s) == s
  {
    if s != [] {
      RemoveCurrencyMarksOfClean(s[1..]);
    }
  }

  lemma RemoveCurrencyMarksIdempotent(s: string)
    ensures RemoveCurrencyMarks(RemoveCurrencyMarks(s)) == RemoveCurrencyMarks(s)
  {
    RemoveCurrencyMarksOfClean(RemoveCurrencyMarks(s));
  }

  /** Cleaning distributes over concatenation. */
  lemma {:induction false} RemoveCurrencyMarksAppend(a: string, b: string)
    ensures RemoveCurrencyMarks(a + b) == RemoveCurrencyMarks(a) + RemoveCurrencyMarks(b)
  {
    if a != [] {
      assert (a + b)[1..] == a[1..] + b;
      RemoveCurrencyMarksAppend(a[1..], b);
    } else {
      assert a + b == b;
    }
  }

  /** First index of `x` in `xs` (Python's `list.index`, or `None` where it raises). */
  function IndexOf<T(==)>(xs: seq<T>, x: T): (r: Option<nat>)
    ensures r.Some? ==> r.value < |xs| && xs[r.value] == x && x !in xs[..r.value]
    ensures r.None? <==> x !in xs
  {
    if xs == [] then None
    else if xs[0] == x then Some(0)
    else
      match IndexOf(xs[1..], x)
      case None => None
      case Some(j) => assert xs[1..][..j] == xs[1..j + 1]; Some(j + 1)
  }

  predicate IsDigit(c: char) {
    '0' <= c <= '9'
  }

  predicate AllDigits(s: string) {
    forall i :: 0 <= i < |s| ==> IsDigit(s[i])
  }

  function DigitValue(c: char): nat
    requires IsDigit(c)
  {
    c as int - '0' as int
  }

  function DigitChar(d: nat): (c: char)
    requires d < 10
    ensures IsDigit(c) && DigitValue(c) == d
  {
    ('0' as int + d) as char
  }

  /** The value of a run of decimal digits, most significant first. */
  function DigitsValue(ds: string): nat
    requires AllDigits(ds)
  {
    if ds == [] then 0 else DigitsValue(ds[..|ds| - 1]) * 10 + DigitValue(ds[|ds| - 1])
  }

  function Pow10(n: nat): (p: nat)
    ensures p >= 1
  {
    if n == 0 then 1 else 10 * Pow10(n - 1)
  }

  /** The value of decimal text split at its point: at least one digit in all. */
  function Decimal(whole: string, frac: string): Option<real> {
    if AllDigits(whole) && AllDigits(frac) && |whole| + |frac| > 0 then
      Some(DigitsValue(whole) as real + DigitsValue(frac) as real / Pow10(|frac|) as real)
    else
      None
  }

  /** Digits with at most one decimal point: the unsigned numbers `float(...)`
      accepts ("12", "12.5", "12.", ".5"). */
  function ParseUnsigned(t: string): Option<real> {
    match IndexOf(t, '.')
    case None => Decimal(t, [])
    case Some(i) => Decimal(t[..i], t[i + 1..])
  }

  /** `float(s)` on decimal text: surrounding whitespace is ignored, one optional sign. */
  function ParseNumber(s: string): Option<real> {
    var t := Strip(s);
    if t != [] && t[0] == '-' then
      match ParseUnsigned(t[1..])
      case None => None
      case Some(x) => Some(-x)
    else if t != [] && t[0] == '+' then ParseUnsigned(t[1..])
    else ParseUnsigned(t)
  }

  /** `str(n)` for a natural number. */
  function ShowNat(n: nat): (s: string)
    ensures s != [] && AllDigits(s)
  {
    if n < 10 then [DigitChar(n)] else ShowNat(n / 10) + [DigitChar(n % 10)]
  }

  lemma {:induction false} ShowNatValue(n: nat)
    ensures DigitsValue(ShowNat(n)) == n
  {
    var s := ShowNat(n);
    if n >= 10 {
      ShowNatValue(n / 10);
      assert s[..|s| - 1] == ShowNat(n / 10);
    }
  }

  /** Parsing the decimal text of a natural number gives that number back. */
  lemma ParseShowNat(n: nat)
    ensures ParseNumber(ShowNat(n)) == Some(n as real)
  {
    var s := ShowNat(n);
    assert !IsSpace(s[0]) && !IsSpace(s[|s| - 1]);
    StripOfTrimmed(s);
    assert s[0] != '-' && s[0] != '+';
    assert ParseNumber(s) == ParseUnsigned(s);
    assert IndexOf(s, '.') == None by {
      forall i | 0 <= i < |s| ensures s[i] != '.' {
        assert IsDigit(s[i]);
      }
    }
    assert s[..|s|] == s;
    ShowNatValue(n);
    assert ParseUnsigned(s) == Some(n as real + 0 as real / 1 as real);
  }

  /** `str(n)` for an integer: the numeral of its magnitude, after a minus sign when negative. */
  function ShowInt(n: int): (s: string)
    ensures s != []
  {
    if n < 0 then "-" + ShowNat(-n) else ShowNat(n)
  }

  /** Parsing the text of an integer gives that integer back. */
  lemma ParseShowInt(n: int)
    ensures ParseNumber(ShowInt(n)) == Some(n as real)
  {
    ParseShowNat(if n < 0 then -n else n);
    if n < 0 {
      var d := ShowNat(-n);
      var s := "-" + d;
      assert !IsSpace(d[0]) && d[0] != '-' && d[0] != '+';
      StripOfTrimmed(d);
      assert ParseNumber(d) == ParseUnsigned(d);
      assert !IsSpace(s[|s| - 1]) by { assert s[|s| - 1] == d[|d| - 1]; }
      StripOfTrimmed(s);
      assert s[1..] == d;
    }
  }

  /** The text of an integer is already a normalised key: no whitespace, no letters. */
  lemma NormalizeShowInt(n: int)
    ensures NormalizeKey(ShowInt(n)) == ShowInt(n)
  {
    var s := ShowInt(n);
    var d := ShowNat(if n < 0 then -n else n);
    assert forall i :: 0 <= i < |s| ==> s[i] == '-' || IsDigit(s[i]) by {
      forall i | 0 <= i < |s| ensures s[i] == '-' || IsDigit(s[i]) {
        if n < 0 && i > 0 { assert s[i] == d[i - 1]; }
      }
    }
    assert !IsSpace(s[|s| - 1]);
    StripOfTrimmed(s);
  }

  /** A run of digits reads as the number it spells. */
  lemma ParseDigits(w: string)
    requires AllDigits(w) && w != []
    ensures ParseNumber(w) == Some(DigitsValue(w) as real)
  {
    assert !IsSpace(w[0]) && !IsSpace(w[|w| - 1]);
    StripOfTrimmed(w);
    assert w[0] != '-' && w[0] != '+';
    assert IndexOf(w, '.') == None by {
      forall i | 0 <= i < |w| ensures w[i] != '.' {
        assert IsDigit(w[i]);
      }
    }
    assert ParseUnsigned(w) == Some(DigitsValue(w) as real + 0 as real / 1 as real);
  }

  /** Writing the digits of `q` after those of `p` shifts `p` by |q| places. */
  lemma {:induction false} DigitsValueAppend(p: string, q: string)
    requires AllDigits(p) && AllDigits(q)
    ensures AllDigits(p + q)
    ensures DigitsValue(p + q) == DigitsValue(p) * Pow10(|q|) + DigitsValue(q)
  {
    AllDigitsAppend(p, q);
    if q == [] {
      assert p + q == p;
    } else {
      var s := p + q;
      var q' := q[..|q| - 1];
      assert s[..|s| - 1] == p + q';
      var d := DigitValue(q[|q| - 1]);
      assert s[|s| - 1] == q[|q| - 1];
      assert DigitsValue(s) == DigitsValue(p + q') * 10 + d;
      assert DigitsValue(q) == DigitsValue(q') * 10 + d;
      DigitsValueAppend(p, q');
      ShiftStep(DigitsValue(p), Pow10(|q'|), DigitsValue(q'), d);
    }
  }

  lemma ShiftStep(a: nat, b: nat, c: nat, d: nat)
    ensures (a * b + c) * 10 + d == a * (10 * b) + (c * 10 + d)
  {
  }

  lemma PointIndex(w: string, f: string)
    requires AllDigits(w)
    ensures IndexOf(w + "." + f, '.') == Some(|w|)
  {
    var t := w + "." + f;
    var r := IndexOf(t, '.');
    assert t[|w|] == '.';
    forall i | 0 <= i < |w| ensures t[i] != '.' {
      assert t[i] == w[i];
    }
  }

  lemma ParseUnsignedAtPoint(t: string, k: nat)
    requires IndexOf(t, '.') == Some(k)
    ensures ParseUnsigned(t) == Decimal(t[..k], t[k + 1..])
  {
  }

  lemma DecimalOfDigits(w: string, f: string)
    requires AllDigits(w) && AllDigits(f) && w != []
    ensures Decimal(w, f) == Some(DigitsValue(w) as real + DigitsValue(f) as real / Pow10(|f|) as real)
  {
  }

  lemma ParseUnsignedOfDigits(t: string)
    requires t != [] && IsDigit(t[0]) && !IsSpace(t[|t| - 1])
    ensures ParseNumber(t) == ParseUnsigned(t)
  {
    StripOfTrimmed(t);
  }

  lemma ParseUnsignedDecimal(w: string, f: string)
    requires AllDigits(w) && AllDigits(f) && w != []
    ensures ParseUnsigned(w + "." + f)
         == Some(DigitsValue(w) as real + DigitsValue(f) as real / Pow10(|f|) as real)
  {
    var t := w + "." + f;
    PointIndex(w, f);
    ParseUnsignedAtPoint(t, |w|);
    assert t[..|w|] == w;
    assert t[|w| + 1..] == f;
    DecimalOfDigits(w, f);
  }

  /** Decimal text `w.f` (digits, a point, digits) reads as w + f / 10^|f|. */
  lemma ParseDecimalText(w: string, f: string)
    requires AllDigits(w) && AllDigits(f) && w != []
    ensures ParseNumber(w + "." + f)
         == Some(DigitsValue(w) as real + DigitsValue(f) as real / Pow10(|f|) as real)
  {
    var t := w + "." + f;
    assert t[0] == w[0];
    assert !IsSpace(t[|t| - 1]) by {
      if f == [] { assert t[|t| - 1] == '.'; } else { assert t[|t| - 1] == f[|f| - 1]; }
    }
    ParseUnsignedOfDigits(t);
    ParseUnsignedDecimal(w, f);
  }

  lemma RemoveDollarAndComma(a: string, rest: string)
    requires forall i :: 0 <= i < |a| ==> !IsCurrencyMark(a[i])
    requires forall i :: 0 <= i < |rest| ==> !IsCurrencyMark(rest[i])
    ensures RemoveCurrencyMarks("$" + a + "," + rest) == a + rest
  {
    var tail := "," + rest;
    Regroup("$", a, ",", rest);
    RemoveLeadingMark('$', a + tail);
    RemoveCurrencyMarksAppend(a, tail);
    RemoveCurrencyMarksOfClean(a);
    RemoveLeadingMark(',', rest);
    RemoveCurrencyMarksOfClean(rest);
  }

  lemma Regroup<T>(w: seq<T>, x: seq<T>, y: seq<T>, z: seq<T>)
    ensures w + x + y + z == w + (x + (y + z))
  {
  }

  /** A leading `$` or `,` is dropped. */
  lemma RemoveLeadingMark(m: char, s: string)
    requires IsCurrencyMark(m)
    ensures RemoveCurrencyMarks([m] + s) == RemoveCurrencyMarks(s)
  {
    assert ([m] + s)[1..] == s;
  }

  lemma DigitsHaveNoMarks(s: string)
    requires AllDigits(s)
    ensures forall i :: 0 <= i < |s| ==> !IsCurrencyMark(s[i]) && s[i] != '.'
  {
  }

  lemma AllDigitsAppend(a: string, b: string)
    requires AllDigits(a) && AllDigits(b)
    ensures AllDigits(a + b)
  {
    forall i | 0 <= i < |a + b| ensures IsDigit((a + b)[i]) {
      if i < |a| { assert (a + b)[i] == a[i]; } else { assert (a + b)[i] == b[i - |a|]; }
    }
  }

  /** A currency text `$a,b.f` (digits grouped by one comma) reads as the plain decimal `ab.f`:
      `$1,234.50` and `1234.50` are the same number. */
  lemma RemoveMarksFromCurrencyText(a: string, b: string, f: string)
    requires AllDigits(a) && AllDigits(b) && AllDigits(f)
    ensures RemoveCurrencyMarks("$" + a + "," + b + "." + f) == a + b + "." + f
  {
    var rest := b + "." + f;
    assert "$" + a + "," + b + "." + f == "$" + a + "," + rest;
    DigitsHaveNoMarks(a);
    DigitsHaveNoMarks(b);
    DigitsHaveNoMarks(f);
    assert forall i :: 0 <= i < |rest| ==> !IsCurrencyMark(rest[i]) by {
      forall i | 0 <= i < |rest| ensures !IsCurrencyMark(rest[i]) {
        if i < |b| { assert rest[i] == b[i]; }
        else if i > |b| { assert rest[i] == f[i - |b| - 1]; }
      }
    }
    RemoveDollarAndComma(a, rest);
    assert a + rest == a + b + "." + f;
  }
}
