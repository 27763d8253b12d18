/**
 * The figures the dashboard derives from the loaded datasets: the OTP rate,
 * revenue, cost and margin, the positive cost components, and the lane
 * network totals.
 */
module Kpi {
  import opened Cells
  import Loader

  // ---------------------------------------------------------------- OTP rate

  /** A status counts as on time only when it is exactly the text "ON TIME". */
  predicate IsOnTime(c: Cell) {
    c == Str("ON TIME")
  }

  lemma OnTimeAtMostTotal(statuses: seq<Cell>)
    ensures Count(statuses, IsOnTime) <= Count(statuses, NotNull)
  {
    CountMonotone(statuses, IsOnTime, NotNull);
  }

  /** A quotient by a positive number, multiplied back, gives the dividend back. */
  lemma Quotient(a: real, b: real, c: real)
    requires b > 0.0
    ensures a / b * c * b == a * c
    ensures 0.0 <= a <= b ==> 0.0 <= a / b <= 1.0
  {
    var q := a / b;
    assert q * b == a;
    assert q * c * b == q * b * c;
  }

  /** on time / non-blank statuses * 100, or 0 when no status is filled in. */
  function OtpRate(statuses: seq<Cell>): (rate: real)
    ensures 0.0 <= rate <= 100.0
    ensures Count(statuses, NotNull) == 0 ==> rate == 0.0
    ensures Count(statuses, NotNull) > 0 ==>
              rate * Count(statuses, NotNull) as real == Count(statuses, IsOnTime) as real * 100.0
  {
    var total := Count(statuses, NotNull);
    var onTime := Count(statuses, IsOnTime);
    OnTimeAtMostTotal(statuses);
    if total > 0 then
      Quotient(onTime as real, total as real, 100.0);
      onTime as real / total as real * 100.0
    else 0.0
  }

  datatype OtpSummary = OtpSummary(totalOrders: nat, rate: real)

  /** The orders tracked (non-blank statuses) and the OTP rate of an OTP table. */
  function Otp(otp: Table): (s: OtpSummary)
    ensures Column(otp, "Status").None? ==> s == OtpSummary(0, 0.0)
    ensures Column(otp, "Status").Some? ==> s.totalOrders == |Positions(Column(otp, "Status").value, NotNull)|
    ensures Column(otp, "Status").Some? ==> s.rate == OtpRate(Column(otp, "Status").value)
    ensures 0.0 <= s.rate <= 100.0
  {
    match Column(otp, "Status")
    case None => OtpSummary(0, 0.0)
    case Some(status) =>
      CountIsCardinality(status, NotNull);
      OtpSummary(Count(status, NotNull), OtpRate(status))
  }

  /** A late and an on-time status: two orders, half of them on time. */
  lemma ExampleRate(status: seq<Cell>)
    requires status == [Str("LATE"), Str("ON TIME")]
    ensures Count(status, NotNull) == 2 && OtpRate(status) == 50.0
  {
    assert status[..1] == [Str("LATE")] && status[..1][..0] == [];
    assert Count(status[..1], NotNull) == 1 && Count(status[..1], IsOnTime) == 0;
    assert Count(status, NotNull) == 2;
    assert Count(status, IsOnTime) == 1;
  }

  // ---------------------------------------------------------------- revenue, cost, margin

  /** (revenue - cost) / revenue * 100, or 0 when there is no positive revenue. */
  function Margin(revenue: real, cost: real): (m: real)
    ensures revenue <= 0.0 ==> m == 0.0
    ensures revenue > 0.0 ==> m * revenue == (revenue - cost) * 100.0
  {
    if revenue > 0.0 then
      Quotient(revenue - cost, revenue, 100.0);
      (revenue - cost) / revenue * 100.0
    else 0.0
  }

  /** The margin's sign is that of the profit, and it cannot exceed 100 for a non-negative cost. */
  lemma MarginProperties(revenue: real, cost: real)
    ensures revenue > 0.0 ==> (Margin(revenue, cost) >= 0.0 <==> cost <= revenue)
    ensures revenue > 0.0 && cost >= 0.0 ==> Margin(revenue, cost) <= 100.0
  {
    if revenue > 0.0 {
      Quotient(revenue - cost, revenue, 100.0);
      var q := (revenue - cost) / revenue;
      assert q * revenue == revenue - cost by {
        Quotient(revenue - cost, revenue, 1.0);
      }
      assert q >= 0.0 <==> cost <= revenue;
    }
  }

  datatype Financials = Financials(revenue: real, cost: real, margin: real)

  /** The sum of a named column, or 0 when the table has no such column. */
  function SumOf(t: Table, name: string): real {
    match Column(t, name)
    case Some(col) => ColumnSum(col)
    case None => 0.0
  }

  /** The overview's revenue, cost and margin of a cost/sales table. */
  function FinancialTotals(t: Table): (f: Financials)
    ensures f.margin == Margin(f.revenue, f.cost)
    ensures "Net_Revenue" in t.columns ==> f.revenue == ColumnSum(Column(t, "Net_Revenue").value)
    ensures "Total_Cost" in t.columns ==> f.cost == ColumnSum(Column(t, "Total_Cost").value)
    ensures "Net_Revenue" !in t.columns ==> f.revenue == 0.0 && f.margin == 0.0
    ensures "Total_Cost" !in t.columns ==> f.cost == 0.0
  {
    var revenue := SumOf(t, "Net_Revenue");
    var cost := SumOf(t, "Total_Cost");
    Financials(revenue, cost, Margin(revenue, cost))
  }

  /** Where the revenue and cost labels sit in the cost/sales name list, and that they occur nowhere earlier. */
  lemma CostLabelPositions()
    ensures Loader.COST_COLUMNS[10] == "Net_Revenue"
    ensures forall k :: 0 <= k < 10 ==> Loader.COST_COLUMNS[k] != "Net_Revenue"
    ensures Loader.COST_COLUMNS[9] == "Total_Cost"
    ensures forall k :: 0 <= k < 9 ==> Loader.COST_COLUMNS[k] != "Total_Cost"
  {
    var names := Loader.COST_COLUMNS;
    forall k | 0 <= k < 10 ensures names[k] != "Net_Revenue" {
      assert |names[k]| != 11;
    }
    forall k | 0 <= k < 9 ensures names[k] != "Total_Cost" {
      assert |names[k]| != 10 || names[k][0] != 'T';
    }
  }

  /** A label at position `p` of `names`, and at no earlier one, is among the first `n` exactly from `n > p` on. */
  lemma PrefixMember(names: seq<string>, name: string, p: nat, n: nat)
    requires p < |names| && n <= |names| && names[p] == name
    requires forall k :: 0 <= k < p ==> names[k] != name
    ensures name in names[..n] <==> n > p
  {
    if n > p {
      assert names[..n][p] == name;
    }
  }

  /** A named cost/sales sheet has its revenue column only from 11 columns on, its cost column from 10 on. */
  lemma NarrowCostSheet(t: Table, rd: Loader.Readers)
    requires Loader.NormalizeCostSales(t, rd).Success?
    ensures var named := Loader.NormalizeCostSales(t, rd).value;
      && ("Net_Revenue" in named.columns <==> |t.columns| >= 11)
      && ("Total_Cost" in named.columns <==> |t.columns| >= 10)
      && (|t.columns| < 11 ==> FinancialTotals(named) == Financials(0.0, FinancialTotals(named).cost, 0.0))
  {
    var named := Loader.NormalizeCostSales(t, rd).value;
    var n := |t.columns|;
    assert named.columns == Loader.COST_COLUMNS[..n];
    CostLabelPositions();
    PrefixMember(Loader.COST_COLUMNS, "Net_Revenue", 10, n);
    PrefixMember(Loader.COST_COLUMNS, "Total_Cost", 9, n);
  }

  // ---------------------------------------------------------------- cost components

  /** The four cost components of the breakdown chart. */
  datatype Component = PU | Ship | Man | Del

  /** The order in which the chart's loop visits the components. */
  const COMPONENTS: seq<Component> := [PU, Ship, Man, Del]

  /** The cost/sales column each component is summed from. */
  function ColumnOf(c: Component): string {
    match c
    case PU => "PU_Cost"
    case Ship => "Ship_Cost"
    case Man => "Man_Cost"
    case Del => "Del_Cost"
  }

  /** The chart label of a component, `col.replace('_Cost', '')`. */
  function LabelOf(c: Component): string {
    match c
    case PU => "PU"
    case Ship => "Ship"
    case Man => "Man"
    case Del => "Del"
  }

  /** Each label is its column name with the `_Cost` suffix removed, and no two components share a label. */
  lemma LabelsFromColumns()
    ensures forall c :: ColumnOf(c) == LabelOf(c) + "_Cost"
    ensures forall c, d :: LabelOf(c) == LabelOf(d) ==> c == d
  {
    forall c, d | LabelOf(c) == LabelOf(d) ensures c == d {
      assert LabelOf(c)[0] == LabelOf(d)[0];
    }
  }

  /** Where a component sits in the visiting order. */
  function Position(c: Component): (p: nat)
    ensures p < |COMPONENTS| && COMPONENTS[p] == c
  {
    match c
    case PU => 0
    case Ship => 1
    case Man => 2
    case Del => 3
  }

  /** No component occurs twice in the visiting order. */
  lemma PositionUnique(c: Component, j: nat)
    requires j < |COMPONENTS| && COMPONENTS[j] == c
    ensures Position(c) == j
  {
  }

  /** The positive sum of a component's column, or nothing when the column is missing or sums to 0 or less. */
  function ComponentCost(t: Table, c: Component): (r: Option<real>)
    ensures r.Some? <==> ColumnOf(c) in t.columns && SumOf(t, ColumnOf(c)) > 0.0
    ensures r.Some? ==> r.value == SumOf(t, ColumnOf(c)) && r.value > 0.0
  {
    match Column(t, ColumnOf(c))
    case None => None
    case Some(col) => if ColumnSum(col) > 0.0 then Some(ColumnSum(col)) else None
  }

  /** Each component's positive sum in `t`, as one function. */
  function CostsOf(t: Table): Component -> Option<real> {
    c => ComponentCost(t, c)
  }

  /** The breakdown after the first `n` components, as the loop builds it from the components' costs. */
  function Collect(costs: Component -> Option<real>, n: nat): map<Component, real>
    requires n <= |COMPONENTS|
  {
    if n == 0 then map[]
    else
      var m := Collect(costs, n - 1);
      var c := COMPONENTS[n - 1];
      match costs(c)
      case Some(x) => m[c := x]
      case None => m
  }

  /** The partial breakdown holds exactly the components visited so far that have a cost, each with that cost. */
  lemma {:induction false} CollectMeaning(costs: Component -> Option<real>, n: nat)
    requires n <= |COMPONENTS|
    ensures forall c :: c in Collect(costs, n) <==> Position(c) < n && costs(c).Some?
    ensures forall c :: c in Collect(costs, n) ==> Collect(costs, n)[c] == costs(c).value
  {
    if n > 0 {
      CollectMeaning(costs, n - 1);
      var key := COMPONENTS[n - 1];
      assert Position(key) == n - 1 by {
        PositionUnique(key, n - 1);
      }
    }
  }

  /**
   * The cost breakdown: for each component whose column the table has, its
   * sum, kept only when it is positive.
   */
  method CostComponents(t: Table) returns (components: map<Component, real>)
    ensures components == Collect(CostsOf(t), |COMPONENTS|)
    ensures forall c :: c in components <==> ColumnOf(c) in t.columns && SumOf(t, ColumnOf(c)) > 0.0
    ensures forall c :: c in components ==> components[c] == SumOf(t, ColumnOf(c))
    ensures forall c :: c in components ==> components[c] > 0.0
  {
    components := map[];
    for i := 0 to |COMPONENTS|
      invariant components == Collect(CostsOf(t), i)
    {
      var c := COMPONENTS[i];
      assert CostsOf(t)(c) == ComponentCost(t, c);
      var col := Column(t, ColumnOf(c));
      if col.Some? {
        var costSum := ColumnSum(col.value);
        if costSum > 0.0 {
          components := components[c := costSum];
        }
      }
    }
    CollectMeaning(CostsOf(t), |COMPONENTS|);
    forall c ensures CostsOf(t)(c) == ComponentCost(t, c) {
    }
  }

  // ---------------------------------------------------------------- lane network

  /** `select_dtypes(include=[np.number])` keeps column `j` when it holds only numbers and blanks. */
  predicate NumericColumn(t: Table, j: nat) {
    NumericDtype(ColumnCells(t, j))
  }

  /** A lane is active when its cell is a number above 0 (a blank is not). */
  predicate IsPositive(c: Cell) {
    c.Num? && c.v > 0.0
  }

  /** The sum of the numeric columns among the first `n`. */
  function ShipmentsUpTo(t: Table, n: nat): real
    requires n <= |t.columns|
  {
    if n == 0 then 0.0
    else ShipmentsUpTo(t, n - 1) + (if NumericColumn(t, n - 1) then ColumnSum(ColumnCells(t, n - 1)) else 0.0)
  }

  /** The number of positive cells in the numeric columns among the first `n`. */
  function ActiveUpTo(t: Table, n: nat): nat
    requires n <= |t.columns|
  {
    if n == 0 then 0
    else ActiveUpTo(t, n - 1) + (if NumericColumn(t, n - 1) then Count(ColumnCells(t, n - 1), IsPositive) else 0)
  }

  /** `numeric_data.sum().sum()`: all shipments on all lanes. */
  function TotalShipments(t: Table): real {
    ShipmentsUpTo(t, |t.columns|)
  }

  /** `(numeric_data > 0).sum().sum()`: the lanes with traffic. */
  function ActiveLanes(t: Table): nat {
    ActiveUpTo(t, |t.columns|)
  }

  /** The average shipments per active lane, or 0 without active lanes. */
  function AveragePerLane(t: Table): (avg: real)
    ensures ActiveLanes(t) > 0 ==> avg * ActiveLanes(t) as real == TotalShipments(t)
    ensures ActiveLanes(t) == 0 ==> avg == 0.0
  {
    if ActiveLanes(t) > 0 then
      Quotient(TotalShipments(t), ActiveLanes(t) as real, 1.0);
      TotalShipments(t) / ActiveLanes(t) as real
    else 0.0
  }

  /** There are never more active lanes than cells. */
  lemma {:induction false} ActiveLanesBound(t: Table, n: nat)
    requires n <= |t.columns|
    ensures ActiveUpTo(t, n) <= n * |t.rows|
  {
    if n > 0 {
      ActiveLanesBound(t, n - 1);
      assert n * |t.rows| == (n - 1) * |t.rows| + |t.rows|;
    }
  }

  /** In a numeric column a cell adds to the sum only if it is a positive number. */
  lemma NumericColumnPositive(col: seq<Cell>)
    requires NumericDtype(col) && ColumnSum(col) > 0.0
    ensures Count(col, IsPositive) > 0
  {
    ColumnSumPositive(col);
    var i :| 0 <= i < |col| && ValueOr0(col[i]) > 0.0;
    assert IsPositive(col[i]);
    CountPositive(col, IsPositive);
  }

  /** Shipments on the network imply at least one active lane. */
  lemma {:induction false} ShipmentsNeedActiveLanes(t: Table, n: nat)
    requires n <= |t.columns|
    ensures ShipmentsUpTo(t, n) > 0.0 ==> ActiveUpTo(t, n) > 0
  {
    if n > 0 {
      ShipmentsNeedActiveLanes(t, n - 1);
      var col := ColumnCells(t, n - 1);
      if NumericColumn(t, n - 1) && ColumnSum(col) > 0.0 {
        NumericColumnPositive(col);
      }
    }
  }

  lemma LaneStatistics(t: Table)
    ensures ActiveLanes(t) <= |t.columns| * |t.rows|
    ensures TotalShipments(t) > 0.0 ==> ActiveLanes(t) > 0
    ensures ActiveLanes(t) > 0 ==> AveragePerLane(t) * ActiveLanes(t) as real == TotalShipments(t)
    ensures ActiveLanes(t) == 0 ==> AveragePerLane(t) == 0.0
  {
    assert ActiveLanes(t) <= |t.columns| * |t.rows| by {
      ActiveLanesBound(t, |t.columns|);
    }
    assert TotalShipments(t) > 0.0 ==> ActiveLanes(t) > 0 by {
      ShipmentsNeedActiveLanes(t, |t.columns|);
    }
  }
}
