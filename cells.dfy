/**
 * Cells and tables of a parsed TMS workbook.
 *
 * A sheet arrives as a table: the labels of its columns (the sheet's first
 * row, which the spreadsheet reader takes as the header) and its data rows.
 * A row is a sequence of cells; a cell is blank (NaN/None), a number, a
 * boolean, a text, or anything else the reader produced (a timestamp, say).
 */
module Cells {

  datatype Option<+T> = None | Some(value: T)

  datatype Cell = Empty | Num(v: real) | Bool(b: bool) | Str(s: string) | Other

  type Row = seq<Cell>

  datatype Table = Table(columns: seq<string>, rows: seq<Row>)

  /** Every row has one cell per column, as every row of a data frame does. */
  predicate WellFormed(t: Table) {
    forall i :: 0 <= i < |t.rows| ==> |t.rows[i]| == |t.columns|
  }

  /** `pd.notna`: every cell but a blank one. */
  predicate NotNull(c: Cell) {
    !c.Empty?
  }

  /**
   * The value of a cell that is an instance of Python's `int` or `float`.
   * `bool` is a subclass of `int`, so a boolean counts as 1 or 0.
   */
  function NumericValue(c: Cell): (r: Option<real>)
    ensures r.Some? <==> c.Num? || c.Bool?
    ensures c.Num? ==> r == Some(c.v)
    ensures c.Bool? ==> r == Some(if c.b then 1.0 else 0.0)
  {
    match c
    case Num(v) => Some(v)
    case Bool(b) => Some(if b then 1.0 else 0.0)
    case _ => None
  }

  /** The characters Python's `str.strip()` removes (those `str.isspace()` accepts). */
  predicate IsSpace(ch: char) {
    var c := ch as int;
    || (0x09 <= c <= 0x0D) || (0x1C <= c <= 0x20) || c == 0x85 || c == 0xA0
    || c == 0x1680 || (0x2000 <= c <= 0x200A) || c == 0x2028 || c == 0x2029
    || c == 0x202F || c == 0x205F || c == 0x3000
  }

  function StripLeft(s: string): (r: string)
    ensures |r| <= |s| && r == s[|s| - |r|..]
    ensures r == [] || !IsSpace(r[0])
    ensures forall i :: 0 <= i < |s| - |r| ==> IsSpace(s[i])
  {
    if s != [] && IsSpace(s[0]) then StripLeft(s[1..]) else s
  }

  function StripRight(s: string): (r: string)
    ensures |r| <= |s| && r == s[..|r|]
    ensures r == [] || !IsSpace(r[|r| - 1])
    ensures forall i :: |r| <= i < |s| ==> IsSpace(s[i])
  {
    if s != [] && IsSpace(s[|s| - 1]) then StripRight(s[..|s| - 1]) else s
  }

  /**
   * `str.strip()`: drops leading and trailing white space; the result is a
   * contiguous part of the input (StripCutsOnlySpace: and only white space
   * is cut off on either side).
   */
  function Strip(s: string): (r: string)
    ensures r == [] || (!IsSpace(r[0]) && !IsSpace(r[|r| - 1]))
    ensures exists i, j :: 0 <= i <= j <= |s| && r == s[i..j]
  {
    var l := StripLeft(s);
    var r := StripRight(l);
    var i := |s| - |l|;
    assert r == s[i..i + |r|] by {
      assert l == s[i..];
      forall k | 0 <= k < |r| ensures r[k] == s[i + k] {
        assert r[k] == l[k];
      }
    }
    r
  }

  /** What Strip cuts off at either end is white space, and what it keeps lies between. */
  lemma StripCutsOnlySpace(s: string)
    ensures exists i, j :: 0 <= i <= j <= |s| && Strip(s) == s[i..j]
              && (forall k :: 0 <= k < i ==> IsSpace(s[k]))
              && (forall k :: j <= k < |s| ==> IsSpace(s[k]))
  {
    StripCut(s);
    var i := |s| - |StripLeft(s)|;
    assert i <= i + |StripRight(StripLeft(s))| <= |s|;
  }

  /** Where the two halves of Strip cut the text, and that only white space is cut. */
  lemma StripCut(s: string)
    ensures var i := |s| - |StripLeft(s)|;
      var j := i + |StripRight(StripLeft(s))|;
      && j <= |s| && StripRight(StripLeft(s)) == s[i..j]
      && (forall k :: 0 <= k < i ==> IsSpace(s[k]))
      && (forall k :: j <= k < |s| ==> IsSpace(s[k]))
  {
    var l := StripLeft(s);
    var r := StripRight(l);
    var i := |s| - |l|;
    SuffixCut(s, l, r);
  }

  /** Cutting `r` from the front of the suffix `l` of `s` cuts the same cells from `s`. */
  lemma SuffixCut(s: string, l: string, r: string)
    requires |l| <= |s| && l == s[|s| - |l|..]
    requires |r| <= |l| && r == l[..|r|]
    requires forall k :: |r| <= k < |l| ==> IsSpace(l[k])
    ensures var i := |s| - |l|;
      && r == s[i..i + |r|]
      && forall k :: i + |r| <= k < |s| ==> IsSpace(s[k])
  {
    var i := |s| - |l|;
    forall k | i + |r| <= k < |s| ensures IsSpace(s[k]) {
      assert s[k] == l[k - i];
    }
  }

  /** A text with no white space at either end is its own stripped form. */
  lemma StripUnpadded(s: string)
    requires s == [] || (!IsSpace(s[0]) && !IsSpace(s[|s| - 1]))
    ensures Strip(s) == s
  {
  }

  /** Stripping twice is stripping once. */
  lemma StripIdempotent(s: string)
    ensures Strip(Strip(s)) == Strip(s)
  {
    StripUnpadded(Strip(s));
  }

  /** The cell of a row in column `j`; a blank when the row is shorter. */
  function CellAt(row: Row, j: nat): Cell {
    if j < |row| then row[j] else Empty
  }

  /** Column `j` of a table, top to bottom. */
  function ColumnCells(t: Table, j: nat): (col: seq<Cell>)
    ensures |col| == |t.rows|
    ensures forall i :: 0 <= i < |t.rows| ==> col[i] == CellAt(t.rows[i], j)
  {
    seq(|t.rows|, i requires 0 <= i < |t.rows| => CellAt(t.rows[i], j))
  }

  /**
   * The position of the first column labelled `name`. pandas returns every
   * column of a duplicated label; the tables looked up here have distinct labels.
   */
  function IndexOf(names: seq<string>, name: string): (r: Option<nat>)
    ensures r.Some? <==> name in names
    ensures r.Some? ==> r.value < |names| && names[r.value] == name
    ensures r.Some? ==> forall k :: 0 <= k < r.value ==> names[k] != name
  {
    if names == [] then None
    else if names[0] == name then Some(0)
    else match IndexOf(names[1..], name)
      case None => None
      case Some(k) => Some(k + 1)
  }

  /** `df[name]`, when the table has a column of that label. */
  function Column(t: Table, name: string): (r: Option<seq<Cell>>)
    ensures r.Some? <==> name in t.columns
    ensures r.Some? ==> |r.value| == |t.rows|
  {
    match IndexOf(t.columns, name)
    case None => None
    case Some(j) => Some(ColumnCells(t, j))
  }

  /** A column is numeric (pandas dtype int64 or float64) when it holds only numbers and blanks. */
  predicate NumericDtype(col: seq<Cell>) {
    forall i :: 0 <= i < |col| ==> col[i].Num? || col[i].Empty?
  }

  /** The numeric value of a cell, with blanks and text counting as nothing. */
  function ValueOr0(c: Cell): real {
    match NumericValue(c)
    case Some(x) => x
    case None => 0.0
  }

  /** `Series.sum()`: the sum of the numeric cells, blanks skipped; 0 for none. */
  function ColumnSum(col: seq<Cell>): (r: real)
    ensures (forall i :: 0 <= i < |col| ==> NumericValue(col[i]).None?) ==> r == 0.0
    ensures (forall i :: 0 <= i < |col| ==> ValueOr0(col[i]) >= 0.0) ==> r >= 0.0
  {
    if col == [] then 0.0 else ColumnSum(col[..|col| - 1]) + ValueOr0(col[|col| - 1])
  }

  /** A column sum is positive only if some cell holds a positive number. */
  lemma {:induction false} ColumnSumPositive(col: seq<Cell>)
    requires ColumnSum(col) > 0.0
    ensures exists i :: 0 <= i < |col| && ValueOr0(col[i]) > 0.0
  {
    var n := |col|;
    if ValueOr0(col[n - 1]) <= 0.0 {
      ColumnSumPositive(col[..n - 1]);
      var i :| 0 <= i < n - 1 && ValueOr0(col[..n - 1][i]) > 0.0;
      assert col[i] == col[..n - 1][i];
    }
  }

  /** The number of elements of `s` that satisfy `p`. */
  function Count<T>(s: seq<T>, p: T -> bool): (n: nat)
    ensures n <= |s|
  {
    if s == [] then 0 else Count(s[..|s| - 1], p) + (if p(s[|s| - 1]) then 1 else 0)
  }

  /** The positions of `s` whose element satisfies `p`. */
  ghost function Positions<T>(s: seq<T>, p: T -> bool): set<int> {
    set i | 0 <= i < |s| && p(s[i])
  }

  /** Count agrees with the number of positions whose element satisfies `p`. */
  lemma {:induction false} CountIsCardinality<T>(s: seq<T>, p: T -> bool)
    ensures Count(s, p) == |Positions(s, p)|
  {
    if s == [] {
      assert Positions(s, p) == {};
    } else {
      var n := |s|;
      var init := s[..n - 1];
      CountIsCardinality(init, p);
      var before, after := Positions(init, p), Positions(s, p);
      assert after == before + (if p(s[n - 1]) then {n - 1} else {}) by {
        forall i | 0 <= i < n - 1 ensures (i in after <==> i in before) {
          assert s[i] == init[i];
        }
      }
      assert n - 1 !in before;
    }
  }

  /** A weaker condition is met at least as often. */
  lemma {:induction false} CountMonotone<T>(s: seq<T>, p: T -> bool, q: T -> bool)
    requires forall x :: p(x) ==> q(x)
    ensures Count(s, p) <= Count(s, q)
  {
    if s != [] {
      CountMonotone(s[..|s| - 1], p, q);
    }
  }

  /** Some element satisfies `p` exactly when the count is positive. */
  lemma {:induction false} CountPositive<T>(s: seq<T>, p: T -> bool)
    ensures Count(s, p) > 0 <==> exists i :: 0 <= i < |s| && p(s[i])
  {
    if s != [] {
      var n := |s|;
      var init := s[..n - 1];
      CountPositive(init, p);
      if exists i :: 0 <= i < n - 1 && p(init[i]) {
        var i :| 0 <= i < n - 1 && p(init[i]);
        assert s[i] == init[i];
      }
      if exists i :: 0 <= i < n && p(s[i]) {
        var i :| 0 <= i < n && p(s[i]);
        if i < n - 1 {
          assert s[i] == init[i];
        }
      }
    }
  }
}
