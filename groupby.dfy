/**
 * The per-country financial table: the cost/sales rows grouped by pick-up
 * country, with revenue and cost summed, the gross percentage averaged, and
 * the profit derived from the two sums after the reduction.
 */
module CountryGroups {
  import opened Cells
  import Sums

  /** The four cells of a cost/sales row the grouping looks at. */
  datatype FinRow = FinRow(country: Cell, revenue: Cell, cost: Cell, gross: Cell)

  /** The running aggregate of one group. */
  datatype Acc = Acc(revenue: real, cost: real, grossSum: real, grossCount: nat)

  const Zero := Acc(0.0, 0.0, 0.0, 0)

  /** A gross percentage takes part in the mean only when it is a number (`mean` skips NaN). */
  function GrossCount(c: Cell): nat {
    if NumericValue(c).Some? then 1 else 0
  }

  /** What one row adds to the aggregate of its group. */
  function Add(a: Acc, r: FinRow): (b: Acc)
    ensures b.revenue == a.revenue + ValueOr0(r.revenue)
    ensures b.cost == a.cost + ValueOr0(r.cost)
    ensures b.grossCount == a.grossCount + GrossCount(r.gross)
  {
    Acc(a.revenue + ValueOr0(r.revenue), a.cost + ValueOr0(r.cost),
        a.grossSum + ValueOr0(r.gross), a.grossCount + GrossCount(r.gross))
  }

  /**
   * `groupby('PU_Country')` followed by the sums: one aggregate per country,
   * rows whose country is blank left out.
   */
  function Accumulate(rows: seq<FinRow>): map<Cell, Acc> {
    if rows == [] then map[]
    else
      var m := Accumulate(rows[..|rows| - 1]);
      var r := rows[|rows| - 1];
      if NotNull(r.country) then
        m[r.country := Add(if r.country in m then m[r.country] else Zero, r)]
      else m
  }

  /** The reference aggregate of group `k`: the rows of that country, one after another. */
  function Direct(rows: seq<FinRow>, k: Cell): Acc {
    if rows == [] then Zero
    else
      var a := Direct(rows[..|rows| - 1], k);
      if rows[|rows| - 1].country == k then Add(a, rows[|rows| - 1]) else a
  }

  /** The groups are the non-blank countries of the rows, and each holds its own rows' totals. */
  lemma {:induction false} AccumulateIsDirect(rows: seq<FinRow>)
    ensures forall k :: k in Accumulate(rows) <==> NotNull(k) && exists i :: 0 <= i < |rows| && rows[i].country == k
    ensures forall k :: k in Accumulate(rows) ==> Accumulate(rows)[k] == Direct(rows, k)
  {
    if rows != [] {
      var n := |rows|;
      var init := rows[..n - 1];
      AccumulateIsDirect(init);
      forall k
        ensures k in Accumulate(rows) <==> NotNull(k) && exists i :: 0 <= i < n && rows[i].country == k
      {
        if k in Accumulate(init) {
          var i :| 0 <= i < n - 1 && init[i].country == k;
          assert rows[i] == init[i];
        }
        if NotNull(k) && exists i :: 0 <= i < n && rows[i].country == k {
          var i :| 0 <= i < n && rows[i].country == k;
          if i < n - 1 {
            assert init[i] == rows[i];
          }
        }
      }
      forall k | k in Accumulate(rows) ensures Accumulate(rows)[k] == Direct(rows, k) {
        if k !in Accumulate(init) && k == rows[n - 1].country {
          DirectAbsent(init, k);
        }
      }
    }
  }

  /** A country none of the rows carries has the empty aggregate. */
  lemma {:induction false} DirectAbsent(rows: seq<FinRow>, k: Cell)
    requires forall i :: 0 <= i < |rows| ==> rows[i].country != k
    ensures Direct(rows, k) == Zero
  {
    if rows != [] {
      DirectAbsent(rows[..|rows| - 1], k);
    }
  }

  /** The revenue of the rows whose country is not blank. */
  function NonNullRevenue(rows: seq<FinRow>): real {
    if rows == [] then 0.0
    else
      var r := rows[|rows| - 1];
      NonNullRevenue(rows[..|rows| - 1]) + (if NotNull(r.country) then ValueOr0(r.revenue) else 0.0)
  }

  ghost function RevenueMap(m: map<Cell, Acc>): map<Cell, real> {
    map k | k in m :: m[k].revenue
  }

  /** The group revenues add up to the revenue of all rows with a country. */
  lemma {:induction false} RevenuePartition(rows: seq<FinRow>)
    ensures Sums.SumValues(RevenueMap(Accumulate(rows))) == NonNullRevenue(rows)
  {
    if rows == [] {
      assert RevenueMap(Accumulate(rows)) == map[];
    } else {
      var n := |rows|;
      var init := rows[..n - 1];
      RevenuePartition(init);
      var r := rows[n - 1];
      if NotNull(r.country) {
        var m := Accumulate(init);
        var k := r.country;
        var prev := if k in m then m[k] else Zero;
        var x := prev.revenue + ValueOr0(r.revenue);
        assert RevenueMap(Accumulate(rows)) == RevenueMap(m)[k := x];
        Sums.SumValuesUpdate(RevenueMap(m), k, x);
      }
    }
  }

  /** One row of the per-country table; the mean is absent (NaN) when the group has no gross figure. */
  datatype CountryFinancials = CountryFinancials(revenue: real, cost: real, meanGross: Option<real>, profit: real)

  /** The mean of the group's gross percentages and its profit, computed from the sums. */
  function Finish(a: Acc): (f: CountryFinancials)
    ensures f.revenue == a.revenue && f.cost == a.cost
    ensures f.profit == f.revenue - f.cost
    ensures f.meanGross.Some? <==> a.grossCount > 0
    ensures f.meanGross.Some? ==> f.meanGross.value * a.grossCount as real == a.grossSum
  {
    var mean := if a.grossCount > 0 then Some(a.grossSum / a.grossCount as real) else None;
    CountryFinancials(a.revenue, a.cost, mean, a.revenue - a.cost)
  }

  /** The per-country table of a sequence of rows. */
  function Group(rows: seq<FinRow>): (g: map<Cell, CountryFinancials>) {
    var m := Accumulate(rows);
    map k | k in m :: Finish(m[k])
  }

  /**
   * The per-country table holds one entry per non-blank country; its sums are
   * those of the country's own rows; its profit is its revenue minus its cost;
   * and the revenues add up to the revenue of the rows with a country.
   */
  lemma GroupProperties(rows: seq<FinRow>)
    ensures forall k :: k in Group(rows) <==> NotNull(k) && exists i :: 0 <= i < |rows| && rows[i].country == k
    ensures forall k :: k in Group(rows) ==>
              && Group(rows)[k].revenue == Direct(rows, k).revenue
              && Group(rows)[k].cost == Direct(rows, k).cost
              && Group(rows)[k].profit == Direct(rows, k).revenue - Direct(rows, k).cost
    ensures Sums.SumValues(map k | k in Group(rows) :: Group(rows)[k].revenue) == NonNullRevenue(rows)
  {
    AccumulateIsDirect(rows);
    RevenuePartition(rows);
    GroupRevenues(rows);
  }

  lemma GroupRevenues(rows: seq<FinRow>)
    ensures (map k | k in Group(rows) :: Group(rows)[k].revenue) == RevenueMap(Accumulate(rows))
  {
  }

  /** The revenue cells, in row order. */
  function Revenues(rows: seq<FinRow>): (s: seq<Cell>)
    ensures |s| == |rows| && forall i :: 0 <= i < |rows| ==> s[i] == rows[i].revenue
  {
    seq(|rows|, i requires 0 <= i < |rows| => rows[i].revenue)
  }

  /** When no country is blank, the groups together hold all the revenue. */
  lemma {:induction false} NoBlankCountry(rows: seq<FinRow>)
    requires forall i :: 0 <= i < |rows| ==> NotNull(rows[i].country)
    ensures NonNullRevenue(rows) == ColumnSum(Revenues(rows))
  {
    if rows != [] {
      var n := |rows|;
      NoBlankCountry(rows[..n - 1]);
      assert Revenues(rows)[..n - 1] == Revenues(rows[..n - 1]);
    }
  }

  // ---------------------------------------------------------------- over the cost/sales table

  /** The outcome of the country section of the financial tab. */
  datatype CountryReport =
    | NoCountryColumn             // no "PU_Country" column: the section is not shown
    | MissingColumn(name: string) // `agg` names a column the table lacks: pandas raises KeyError
    | Report(groups: map<Cell, CountryFinancials>)

  /** The rows of `t` reduced to the four cells the grouping uses, at the given column positions. */
  function FinRows(t: Table, country: nat, revenue: nat, cost: nat, gross: nat): (rows: seq<FinRow>)
    ensures |rows| == |t.rows|
    ensures forall i :: 0 <= i < |t.rows| ==>
              rows[i] == FinRow(CellAt(t.rows[i], country), CellAt(t.rows[i], revenue),
                                CellAt(t.rows[i], cost), CellAt(t.rows[i], gross))
  {
    seq(|t.rows|, i requires 0 <= i < |t.rows| =>
      FinRow(CellAt(t.rows[i], country), CellAt(t.rows[i], revenue), CellAt(t.rows[i], cost), CellAt(t.rows[i], gross)))
  }

  /** `cost_df.groupby('PU_Country').agg({...})` with the profit column added. */
  function ByCountry(t: Table): (r: CountryReport)
    ensures r.NoCountryColumn? <==> "PU_Country" !in t.columns
    ensures r.Report? <==> forall name :: name in ["PU_Country", "Net_Revenue", "Total_Cost", "Gross_Percent"] ==> name in t.columns
  {
    match IndexOf(t.columns, "PU_Country")
    case None => NoCountryColumn
    case Some(c) =>
      match (IndexOf(t.columns, "Net_Revenue"), IndexOf(t.columns, "Total_Cost"), IndexOf(t.columns, "Gross_Percent"))
      case (None, _, _) => MissingColumn("Net_Revenue")
      case (_, None, _) => MissingColumn("Total_Cost")
      case (_, _, None) => MissingColumn("Gross_Percent")
      case (Some(rv), Some(cs), Some(g)) => Report(Group(FinRows(t, c, rv, cs, g)))
  }

  /** A report's revenues add up to the whole "Net_Revenue" column when every row has a country. */
  lemma ReportCoversRevenue(t: Table)
    requires ByCountry(t).Report?
    requires forall i :: 0 <= i < |t.rows| ==> NotNull(CellAt(t.rows[i], IndexOf(t.columns, "PU_Country").value))
    ensures var g := ByCountry(t).groups;
      Sums.SumValues(map k | k in g :: g[k].revenue) == ColumnSum(Column(t, "Net_Revenue").value)
  {
    var c := IndexOf(t.columns, "PU_Country").value;
    var rv := IndexOf(t.columns, "Net_Revenue").value;
    var rows := FinRows(t, c, rv, IndexOf(t.columns, "Total_Cost").value, IndexOf(t.columns, "Gross_Percent").value);
    GroupProperties(rows);
    NoBlankCountry(rows);
    assert Revenues(rows) == Column(t, "Net_Revenue").value;
  }
}
