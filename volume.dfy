/**
 * The "Volume per SVC" extractor of `load_tms_data`.
 *
 * The sheet mixes a service-type section and a country matrix with no marker
 * between them. Each data row is classified on its own by its first cell:
 * a service code gives that service's volume (the second cell), a country
 * code gives that country's volume (the sum of the positive numbers from the
 * second cell on), anything else is skipped. The verdicts are folded, top to
 * bottom, into a service map and a country map.
 */
module Volume {
  import opened Cells
  import Sums

  const SERVICE_TYPES: set<string> := {"CTX", "CX", "EF", "EGD", "FF", "RGD", "ROU", "SF"}
  const COUNTRIES: set<string> :=
    {"AT", "AU", "BE", "DE", "DK", "ES", "FR", "GB", "IT", "N1", "NL", "NZ", "SE", "US"}

  /** No code is both a service type and a country, so no precedence is needed. */
  lemma CodeSetsDisjoint()
    ensures SERVICE_TYPES !! COUNTRIES
  {
  }

  /** What one row contributes. */
  datatype Verdict = Service(code: string, volume: real) | Country(code: string, volume: real) | Skip

  datatype Volumes = Volumes(service: map<string, real>, country: map<string, real>)

  /**
   * The candidate key `str(cell).strip()`. Only a text cell can give one of
   * the codes: a number, a boolean or a timestamp never prints as one.
   */
  function Key(c: Cell): (k: Option<string>)
    ensures k.Some? <==> c.Str?
    ensures c.Str? ==> k.value == Strip(c.s)
  {
    if c.Str? then Some(Strip(c.s)) else None
  }

  /** A key is already stripped, so white space around a code never changes which code a row has. */
  lemma KeyStripped(c: Cell)
    ensures Key(c).Some? ==> Strip(Key(c).value) == Key(c).value
  {
    if c.Str? {
      StripIdempotent(c.s);
    }
  }

  /**
   * Python's `float(cell)`, or None where it raises. How a text is read as
   * a number is the parameter `parse`.
   */
  function ToFloat(c: Cell, parse: string -> Option<real>): (r: Option<real>)
    ensures c.Num? || c.Bool? ==> r == NumericValue(c)
    ensures c.Str? ==> r == parse(c.s)
    ensures c.Other? || c.Empty? ==> r == None
  {
    match c
    case Str(s) => parse(s)
    case Other => None
    case Empty => None
    case _ => NumericValue(c)
  }

  /** What one cell adds to a country's total: its value if it is a number above 0. */
  function PositivePart(c: Cell): (r: real)
    ensures r >= 0.0
    ensures r > 0.0 <==> NumericValue(c).Some? && NumericValue(c).value > 0.0
  {
    match NumericValue(c)
    case Some(x) => if x > 0.0 then x else 0.0
    case None => 0.0
  }

  /** The sum of the cells that are numbers greater than 0. */
  function PositiveSum(cells: seq<Cell>): (r: real)
    ensures r >= 0.0
  {
    if cells == [] then 0.0
    else PositiveSum(cells[..|cells| - 1]) + PositivePart(cells[|cells| - 1])
  }

  /** The total is positive exactly when some cell is a number above 0. */
  lemma {:induction false} PositiveSumPositive(cells: seq<Cell>)
    ensures PositiveSum(cells) > 0.0 <==> exists i :: 0 <= i < |cells| && PositivePart(cells[i]) > 0.0
  {
    if cells != [] {
      var n := |cells|;
      var init := cells[..n - 1];
      PositiveSumPositive(init);
      if PositiveSum(init) > 0.0 {
        var i :| 0 <= i < n - 1 && PositivePart(init[i]) > 0.0;
        assert cells[i] == init[i];
      }
      if exists i :: 0 <= i < n && PositivePart(cells[i]) > 0.0 {
        var i :| 0 <= i < n && PositivePart(cells[i]) > 0.0;
        if i < n - 1 {
          assert cells[i] == init[i];
        }
      }
    }
  }

  /**
   * The verdict for one row. A row counts only if it has two cells and both
   * the first and the second are not blank, whichever kind of row it is.
   */
  function Classify(row: Row, parse: string -> Option<real>): (v: Verdict)
    ensures !v.Skip? ==> |row| >= 2 && NotNull(row[0]) && NotNull(row[1]) && Key(row[0]) == Some(v.code)
    ensures v.Service? ==> v.code in SERVICE_TYPES && ToFloat(row[1], parse) == Some(v.volume)
    ensures v.Country? ==> v.code in COUNTRIES && v.volume == PositiveSum(row[1..]) && v.volume > 0.0
  {
    if |row| >= 2 && NotNull(row[0]) && NotNull(row[1]) && Key(row[0]).Some? then
      var code := Key(row[0]).value;
      if code in SERVICE_TYPES then
        match ToFloat(row[1], parse)
        case Some(x) => Service(code, x)
        case None => Skip
      else if code in COUNTRIES then
        var total := PositiveSum(row[1..]);
        if total > 0.0 then Country(code, total) else Skip
      else Skip
    else Skip
  }

  /** The converse of Classify's contract: which rows do give a verdict. */
  lemma ClassifyComplete(row: Row, parse: string -> Option<real>, code: string)
    requires |row| >= 2 && NotNull(row[0]) && NotNull(row[1]) && Key(row[0]) == Some(code)
    ensures code in SERVICE_TYPES && ToFloat(row[1], parse).Some? ==>
              Classify(row, parse) == Service(code, ToFloat(row[1], parse).value)
    ensures code in COUNTRIES && PositiveSum(row[1..]) > 0.0 ==>
              Classify(row, parse) == Country(code, PositiveSum(row[1..]))
    ensures code in SERVICE_TYPES && ToFloat(row[1], parse).None? ==> Classify(row, parse) == Skip
    ensures code in COUNTRIES && PositiveSum(row[1..]) == 0.0 ==> Classify(row, parse) == Skip
    ensures code !in SERVICE_TYPES && code !in COUNTRIES ==> Classify(row, parse) == Skip
  {
    CodeSetsDisjoint();
  }

  /** A country row whose second cell is blank is skipped, whatever its later cells hold. */
  lemma BlankSecondCellSkipped(row: Row, parse: string -> Option<real>)
    requires |row| >= 2 && row[1] == Empty
    ensures Classify(row, parse) == Skip
  {
  }

  /** Folding one verdict into the two maps: a later row overwrites an earlier one. */
  function Record(acc: Volumes, v: Verdict): Volumes {
    match v
    case Service(c, x) => acc.(service := acc.service[c := x])
    case Country(c, x) => acc.(country := acc.country[c := x])
    case Skip => acc
  }

  /** The two maps after a sequence of verdicts has been folded in, first to last. */
  function Fold(vs: seq<Verdict>): Volumes
  {
    if vs == [] then Volumes(map[], map[])
    else Record(Fold(vs[..|vs| - 1]), vs[|vs| - 1])
  }

  /** The verdict for each row, in the order of the rows. */
  function Verdicts(rows: seq<Row>, parse: string -> Option<real>): (vs: seq<Verdict>)
    ensures |vs| == |rows|
    ensures forall i :: 0 <= i < |rows| ==> vs[i] == Classify(rows[i], parse)
  {
    seq(|rows|, i requires 0 <= i < |rows| => Classify(rows[i], parse))
  }

  /** The two maps after the rows have been read top to bottom. */
  function Extracted(rows: seq<Row>, parse: string -> Option<real>): Volumes
  {
    Fold(Verdicts(rows, parse))
  }

  lemma ExtractedSnoc(rows: seq<Row>, row: Row, parse: string -> Option<real>)
    ensures Extracted(rows + [row], parse) == Record(Extracted(rows, parse), Classify(row, parse))
  {
    var vs := Verdicts(rows + [row], parse);
    assert vs[..|rows|] == Verdicts(rows, parse);
  }

  /** What Classify's contract promises of a verdict. */
  predicate Sound(v: Verdict) {
    match v
    case Service(c, _) => c in SERVICE_TYPES
    case Country(c, x) => c in COUNTRIES && x > 0.0
    case Skip => true
  }

  lemma {:induction false} FoldKeys(vs: seq<Verdict>)
    requires forall i :: 0 <= i < |vs| ==> Sound(vs[i])
    ensures Fold(vs).service.Keys <= SERVICE_TYPES
    ensures Fold(vs).country.Keys <= COUNTRIES
    ensures forall c :: c in Fold(vs).country ==> Fold(vs).country[c] > 0.0
  {
    if vs != [] {
      var init := vs[..|vs| - 1];
      assert forall i :: 0 <= i < |init| ==> init[i] == vs[i];
      FoldKeys(init);
    }
  }

  /** Every service key is a service type, every country key a country, every country volume positive. */
  lemma ExtractedKeys(rows: seq<Row>, parse: string -> Option<real>)
    ensures Extracted(rows, parse).service.Keys <= SERVICE_TYPES
    ensures Extracted(rows, parse).country.Keys <= COUNTRIES
    ensures forall c :: c in Extracted(rows, parse).country ==> Extracted(rows, parse).country[c] > 0.0
  {
    FoldKeys(Verdicts(rows, parse));
  }

  /** The overview's total country volume is positive exactly when some country was recorded. */
  lemma CountryTotalPositive(rows: seq<Row>, parse: string -> Option<real>)
    ensures Extracted(rows, parse).country != map[] <==> Sums.SumValues(Extracted(rows, parse).country) > 0.0
  {
    ExtractedKeys(rows, parse);
    Sums.SumValuesPositive(Extracted(rows, parse).country);
  }

  ghost predicate Agrees(m: map<string, real>, m': map<string, real>, k: string) {
    (k in m <==> k in m') && (k in m ==> m[k] == m'[k])
  }

  ghost predicate Changed(before: Volumes, after: Volumes, k: string) {
    !Agrees(before.service, after.service, k) || !Agrees(before.country, after.country, k)
  }

  /** One verdict changes at most one of the two maps, and there only the entry of its code. */
  lemma RecordOneKey(before: Volumes, v: Verdict)
    ensures var after := Record(before, v);
      && (after.service == before.service || after.country == before.country)
      && forall k :: Changed(before, after, k) ==> !v.Skip? && k == v.code
  {
  }

  /** One row changes at most one of the two maps, and there at most one key. */
  lemma OneRowOneKey(rows: seq<Row>, row: Row, parse: string -> Option<real>)
    ensures var before, after := Extracted(rows, parse), Extracted(rows + [row], parse);
      && (after.service == before.service || after.country == before.country)
      && forall k, k' :: Changed(before, after, k) && Changed(before, after, k') ==> k == k'
  {
    ExtractedSnoc(rows, row, parse);
    RecordOneKey(Extracted(rows, parse), Classify(row, parse));
  }

  /** Which of the two maps a verdict writes. */
  datatype Side = ServiceSide | CountrySide

  function Pick(vol: Volumes, side: Side): map<string, real> {
    if side == ServiceSide then vol.service else vol.country
  }

  predicate Writes(v: Verdict, side: Side, c: string) {
    if side == ServiceSide then v.Service? && v.code == c else v.Country? && v.code == c
  }

  lemma {:induction false} FoldPresentIffWritten(vs: seq<Verdict>, side: Side, c: string)
    ensures c in Pick(Fold(vs), side) <==> exists i :: 0 <= i < |vs| && Writes(vs[i], side, c)
  {
    if vs != [] {
      var n := |vs|;
      var init := vs[..n - 1];
      FoldPresentIffWritten(init, side, c);
      if exists i :: 0 <= i < n - 1 && Writes(init[i], side, c) {
        var i :| 0 <= i < n - 1 && Writes(init[i], side, c);
        assert vs[i] == init[i];
      }
      if exists i :: 0 <= i < n && Writes(vs[i], side, c) {
        var i :| 0 <= i < n && Writes(vs[i], side, c);
        if i < n - 1 {
          assert vs[i] == init[i];
        }
      }
    }
  }

  lemma {:induction false} FoldLastWins(vs: seq<Verdict>, side: Side, c: string, i: nat)
    requires i < |vs| && Writes(vs[i], side, c)
    requires forall j :: i < j < |vs| ==> !Writes(vs[j], side, c)
    ensures c in Pick(Fold(vs), side) && Pick(Fold(vs), side)[c] == vs[i].volume
  {
    var n := |vs|;
    var init := vs[..n - 1];
    if i < n - 1 {
      forall j | i < j < n - 1 ensures !Writes(init[j], side, c) {
        assert init[j] == vs[j];
      }
      assert init[i] == vs[i];
      FoldLastWins(init, side, c, i);
    }
  }

  /** A code has an entry exactly when some row wrote it. */
  lemma KeyPresentIffWritten(rows: seq<Row>, parse: string -> Option<real>, side: Side, c: string)
    ensures c in Pick(Extracted(rows, parse), side) <==>
              exists i :: 0 <= i < |rows| && Writes(Classify(rows[i], parse), side, c)
  {
    var vs := Verdicts(rows, parse);
    FoldPresentIffWritten(vs, side, c);
    if exists i :: 0 <= i < |rows| && Writes(Classify(rows[i], parse), side, c) {
      var i :| 0 <= i < |rows| && Writes(Classify(rows[i], parse), side, c);
      assert Writes(vs[i], side, c);
    }
  }

  /** The last row that writes a code decides its value. */
  lemma LastRowWins(rows: seq<Row>, parse: string -> Option<real>, side: Side, c: string, i: nat)
    requires i < |rows| && Writes(Classify(rows[i], parse), side, c)
    requires forall j :: i < j < |rows| ==> !Writes(Classify(rows[j], parse), side, c)
    ensures c in Pick(Extracted(rows, parse), side)
    ensures Pick(Extracted(rows, parse), side)[c] == Classify(rows[i], parse).volume
  {
    FoldLastWins(Verdicts(rows, parse), side, c, i);
  }

  /** A service row whose second cell cannot be read as a number leaves both maps as they were. */
  lemma UnreadableServiceRowIgnored(rows: seq<Row>, row: Row, parse: string -> Option<real>)
    requires |row| >= 2 && NotNull(row[0]) && NotNull(row[1])
    requires Key(row[0]).Some? && Key(row[0]).value in SERVICE_TYPES
    requires ToFloat(row[1], parse) == None
    ensures Extracted(rows + [row], parse) == Extracted(rows, parse)
  {
    ExtractedSnoc(rows, row, parse);
  }

  /**
   * A concrete fold: a service row for CTX, a country row for NL, and a later
   * service row for CTX. The later CTX value replaces the earlier one.
   */
  lemma ExampleLastServiceRowWins(vs: seq<Verdict>)
    requires vs == [Service("CTX", 5.0), Country("NL", 7.0), Service("CTX", 6.0)]
    ensures Fold(vs) == Volumes(map["CTX" := 6.0], map["NL" := 7.0])
  {
    var v1: seq<Verdict> := [Service("CTX", 5.0)];
    var v2: seq<Verdict> := [Service("CTX", 5.0), Country("NL", 7.0)];
    assert v1[..0] == [];
    assert Fold(v1) == Volumes(map["CTX" := 5.0], map[]);
    assert v2[..1] == v1;
    assert Fold(v2) == Volumes(map["CTX" := 5.0], map["NL" := 7.0]);
    assert vs[..2] == v2;
    assert map["CTX" := 5.0]["CTX" := 6.0] == map["CTX" := 6.0];
  }

  /** A concrete service row for CTX: its later cells are ignored. */
  lemma ExampleServiceRow(row: Row, parse: string -> Option<real>)
    requires row == [Str("CTX"), Num(5.0), Num(0.0), Num(0.0)]
    ensures Classify(row, parse) == Service("CTX", 5.0)
  {
    assert Key(row[0]) == Some("CTX") by {
      StripUnpadded("CTX");
    }
  }

  /** A concrete country row for NL: its positive cells add up to 7. */
  lemma ExampleCountryRow(row: Row, parse: string -> Option<real>)
    requires row == [Str("NL"), Num(3.0), Num(4.0), Num(0.0)]
    ensures Classify(row, parse) == Country("NL", 7.0)
  {
    ExampleCountryKey(row[0]);
    assert row[1..] == [Num(3.0), Num(4.0), Num(0.0)];
    ExampleCountryTotal(row[1..]);
    assert "NL" in COUNTRIES;
    ClassifyComplete(row, parse, "NL");
  }

  lemma ExampleCountryKey(c: Cell)
    requires c == Str("NL")
    ensures Key(c) == Some("NL")
  {
    StripUnpadded("NL");
  }

  lemma ExampleCountryTotal(cells: seq<Cell>)
    requires cells == [Num(3.0), Num(4.0), Num(0.0)]
    ensures PositiveSum(cells) == 7.0
  {
    assert cells[..2][..1][..0] == [];
    assert PositiveSum(cells[..2][..1]) == 3.0;
    assert PositiveSum(cells[..2]) == 7.0;
  }

  /** The two rows read in turn give one service volume and one country volume. */
  lemma ExampleRows(r1: Row, r2: Row, parse: string -> Option<real>)
    requires r1 == [Str("CTX"), Num(5.0), Num(0.0), Num(0.0)]
    requires r2 == [Str("NL"), Num(3.0), Num(4.0), Num(0.0)]
    ensures Extracted([r1, r2], parse) == Volumes(map["CTX" := 5.0], map["NL" := 7.0])
  {
    ExampleServiceRow(r1, parse);
    ExampleCountryRow(r2, parse);
    ExtractedSnoc([], r1, parse);
    ExtractedSnoc([r1], r2, parse);
    assert [] + [r1] == [r1];
    assert Extracted([], parse) == Volumes(map[], map[]);
    assert [r1] + [r2] == [r1, r2];
  }

  /** The inner loop of a country row: add up the cells after the first that are numbers above 0. */
  method CountryTotal(row: Row) returns (total: real)
    requires |row| >= 1
    ensures total == PositiveSum(row[1..])
  {
    total := 0.0;
    for j := 1 to |row|
      invariant total == PositiveSum(row[1..j])
    {
      var val := NumericValue(row[j]);
      if val.Some? && val.value > 0.0 {
        total := total + val.value;
      }
      assert row[1..j + 1][..j - 1] == row[1..j];
    }
    assert row[1..|row|] == row[1..];
  }

  /**
   * The extraction loop: for each row, classify it in place and update the
   * two maps; a country row's total is accumulated cell by cell.
   */
  method ExtractVolumes(rows: seq<Row>, parse: string -> Option<real>)
    returns (service: map<string, real>, country: map<string, real>)
    ensures Volumes(service, country) == Extracted(rows, parse)
  {
    service, country := map[], map[];
    for i := 0 to |rows|
      invariant Volumes(service, country) == Extracted(rows[..i], parse)
    {
      var row := rows[i];
      if |row| >= 2 && NotNull(row[0]) && NotNull(row[1]) && Key(row[0]).Some? {
        var first := Key(row[0]).value;
        ClassifyComplete(row, parse, first);
        if first in SERVICE_TYPES {
          var x := ToFloat(row[1], parse);
          if x.Some? {
            service := service[first := x.value];
          }
        } else if first in COUNTRIES {
          var total := CountryTotal(row);
          if total > 0.0 {
            country := country[first := total];
          }
        }
      }
      assert rows[..i + 1] == rows[..i] + [row];
      ExtractedSnoc(rows[..i], row, parse);
    }
    assert rows[..|rows|] == rows;
  }
}
