/** The cell key `${row}-${col}` used by both spreadsheet components: the
    decimal row, a dash, the decimal column. `ParseCellId` is its inverse,
    from which it follows that distinct cells never share a key. */
module CellIds {
  import opened Wrappers

  /** A grid position: row and column index. */
  datatype Pos = Pos(row: nat, col: nat)

  predicate IsDigit(ch: char)
  {
    '0' <= ch <= '9'
  }

  predicate AllDigits(s: string)
  {
    forall i :: 0 <= i < |s| ==> IsDigit(s[i])
  }

  function DigitChar(d: nat): (ch: char)
    requires d < 10
    ensures IsDigit(ch) && ch as int - '0' as int == d
  {
    ('0' as int + d) as char
  }

  /** How a JavaScript template literal prints a non-negative integer:
      its decimal digits, most significant first, without leading zeros. */
  function Decimal(n: nat): (s: string)
    ensures |s| >= 1 && AllDigits(s)
    ensures s[0] == '0' ==> n == 0
    decreases n
  {
    if n < 10 then [DigitChar(n)] else Decimal(n / 10) + [DigitChar(n % 10)]
  }

  /** The value of a string of decimal digits. */
  function DigitsValue(s: string): nat
    requires AllDigits(s)
  {
    if s == [] then 0
    else DigitsValue(s[..|s| - 1]) * 10 + (s[|s| - 1] as int - '0' as int)
  }

  lemma {:induction false} DecimalRoundTrip(n: nat)
    ensures DigitsValue(Decimal(n)) == n
    decreases n
  {
    if n >= 10 {
      var s := Decimal(n);
      assert s[..|s| - 1] == Decimal(n / 10);
      DecimalRoundTrip(n / 10);
    }
  }

  /** A digit string as a template literal prints a number: non-empty, and
      without a leading zero unless it is `0` itself. */
  predicate Canonical(d: string)
  {
    d != [] && AllDigits(d) && (|d| > 1 ==> d[0] != '0')
  }

  lemma {:induction false} LeadingDigitPositive(d: string)
    requires d != [] && AllDigits(d) && d[0] != '0'
    ensures DigitsValue(d) >= 1
    decreases |d|
  {
    if |d| > 1 {
      LeadingDigitPositive(d[..|d| - 1]);
    }
  }

  /** Printing the value of a canonical digit string gives the string back. */
  lemma {:induction false} CanonicalRoundTrip(d: string)
    requires Canonical(d)
    ensures Decimal(DigitsValue(d)) == d
    decreases |d|
  {
    var init := d[..|d| - 1];
    if |d| > 1 {
      CanonicalRoundTrip(init);
      LeadingDigitPositive(init);
      assert init + [d[|d| - 1]] == d;
    }
  }

  /** `${row}-${col}`: the key splits at its first dash into the decimal row
      and the decimal column. */
  function CellId(row: nat, col: nat): (s: string)
    ensures SplitAtDash(s) == Some((Decimal(row), Decimal(col)))
  {
    SplitAtFirstDash(Decimal(row), Decimal(col));
    Decimal(row) + "-" + Decimal(col)
  }

  /** Splits at the first dash: the part before and the part after. */
  function SplitAtDash(s: string): (r: Option<(string, string)>)
    ensures r.Some? ==> r.value.0 + "-" + r.value.1 == s && '-' !in r.value.0
  {
    if s == [] then None
    else if s[0] == '-' then Some(([], s[1..]))
    else match SplitAtDash(s[1..])
      case None => None
      case Some(parts) => Some(([s[0]] + parts.0, parts.1))
  }

  lemma {:induction false} SplitAtFirstDash(a: string, b: string)
    requires '-' !in a
    ensures SplitAtDash(a + "-" + b) == Some((a, b))
  {
    if a != [] {
      assert (a + "-" + b)[1..] == a[1..] + "-" + b;
      SplitAtFirstDash(a[1..], b);
      assert [a[0]] + a[1..] == a;
    }
  }

  /** The inverse of `CellId`: the position a key names, if it has the form
      digits-dash-digits. */
  function ParseCellId(s: string): (r: Option<Pos>)
  {
    match SplitAtDash(s)
    case None => None
    case Some(parts) =>
      if parts.0 != [] && parts.1 != [] && AllDigits(parts.0) && AllDigits(parts.1)
      then Some(Pos(DigitsValue(parts.0), DigitsValue(parts.1)))
      else None
  }

  /** On a key whose numbers are printed as a template literal prints them,
      the parse prints back to the same key. */
  lemma ParseCellIdCanonical(s: string)
    requires ParseCellId(s).Some?
    requires Canonical(SplitAtDash(s).value.0) && Canonical(SplitAtDash(s).value.1)
    ensures CellId(ParseCellId(s).value.row, ParseCellId(s).value.col) == s
  {
    var parts := SplitAtDash(s).value;
    CanonicalRoundTrip(parts.0);
    CanonicalRoundTrip(parts.1);
  }

  lemma CellIdRoundTrip(row: nat, col: nat)
    ensures ParseCellId(CellId(row, col)) == Some(Pos(row, col))
  {
    var a, b := Decimal(row), Decimal(col);
    SplitAtFirstDash(a, b);
    DecimalRoundTrip(row);
    DecimalRoundTrip(col);
  }

  /** Distinct cells have distinct keys. */
  lemma CellIdInjective(r1: nat, c1: nat, r2: nat, c2: nat)
    ensures CellId(r1, c1) == CellId(r2, c2) <==> r1 == r2 && c1 == c2
  {
    CellIdRoundTrip(r1, c1);
    CellIdRoundTrip(r2, c2);
  }
}
