/**
 * `load_tms_data`: from a parsed workbook (sheet name to table) to the
 * datasets the dashboard reads, keyed by logical name.
 *
 * Each known sheet contributes its keys only when it is present. The OTP
 * sheet and the cost/sales sheet get positional column names; assigning a
 * name list whose length differs from the table's column count raises, and
 * the exception makes the whole load fail.
 */
module Loader {
  import opened Cells
  import Volume

  /** pandas' "Length mismatch: Expected axis has `axis` elements, new values have `names` elements". */
  datatype LoadError = LengthMismatch(axis: nat, names: nat)

  datatype Result<+T> = Success(value: T) | Failure(error: LoadError)

  /** What the dashboard receives under one key: a table, or a volume map. */
  datatype Dataset = TableData(table: Table) | VolumeMap(volumes: map<string, real>)

  /**
   * The conversions the program leaves to Python and pandas: `float` of a
   * text, a day count since 1899-12-30 as a timestamp, and `pd.to_datetime`
   * of a whole non-numeric column. The last works on the column at once,
   * since pandas infers one format for all its values (blanks where a value
   * does not convert).
   */
  datatype Readers = Readers(parse: string -> Option<real>, fromSerial: real -> Cell, fromText: seq<Cell> -> seq<Cell>)

  const RAW_SHEET := "AMS RAW DATA"
  const OTP_SHEET := "OTP POD"
  const VOLUME_SHEET := "Volume per SVC"
  const LANE_SHEET := "Lane usage "
  const COST_SHEET := "cost sales"

  const OTP_COLUMNS: seq<string> := ["TMS_Order", "QDT", "POD_DateTime", "Time_Diff", "Status", "QC_Name"]

  const COST_COLUMNS: seq<string> :=
    [ "Order_Date", "Account", "Account_Name", "Office", "Order_Num",
      "PU_Cost", "Ship_Cost", "Man_Cost", "Del_Cost", "Total_Cost",
      "Net_Revenue", "Currency", "Diff", "Gross_Percent", "Invoice_Num",
      "Total_Amount", "Status", "PU_Country" ]

  function Min(a: nat, b: nat): nat {
    if a < b then a else b
  }

  /** `df.iloc[:, :k]`: the first `k` columns, or all of them if there are fewer. */
  function TakeColumns(t: Table, k: nat): (r: Table)
    ensures |r.columns| == Min(k, |t.columns|) && r.columns == t.columns[..|r.columns|]
    ensures |r.rows| == |t.rows|
    ensures forall i :: 0 <= i < |t.rows| ==> r.rows[i] == t.rows[i][..Min(k, |t.rows[i]|)]
    ensures WellFormed(t) ==> WellFormed(r)
  {
    Table(t.columns[..Min(k, |t.columns|)],
          seq(|t.rows|, i requires 0 <= i < |t.rows| => t.rows[i][..Min(k, |t.rows[i]|)]))
  }

  /** `df.columns = names`: accepted only when there is one name per column. */
  function Rename(t: Table, names: seq<string>): (r: Result<Table>)
    ensures r.Success? <==> |names| == |t.columns|
    ensures r.Success? ==> r.value.columns == names && r.value.rows == t.rows
    ensures r.Failure? ==> r.error == LengthMismatch(|t.columns|, |names|)
  {
    if |names| == |t.columns| then Success(t.(columns := names))
    else Failure(LengthMismatch(|t.columns|, |names|))
  }

  /** A row whose order id, its first cell, is not blank. */
  predicate HasOrder(row: Row) {
    |row| > 0 && NotNull(row[0])
  }

  /** `dropna(subset=['TMS_Order'])`, TMS_Order being the first column. */
  function DropNullOrders(rows: seq<Row>): (r: seq<Row>)
    ensures |r| <= |rows|
    ensures forall i :: 0 <= i < |r| ==> HasOrder(r[i])
  {
    if rows == [] then []
    else
      var last := rows[|rows| - 1];
      DropNullOrders(rows[..|rows| - 1]) + (if HasOrder(last) then [last] else [])
  }

  /** The positions of the rows that have an order id, top to bottom. */
  function KeptIndices(rows: seq<Row>): seq<nat>
  {
    if rows == [] then []
    else KeptIndices(rows[..|rows| - 1]) + (if HasOrder(rows[|rows| - 1]) then [|rows| - 1] else [])
  }

  /**
   * The surviving rows are exactly the rows with an order id, in their
   * original order: the k-th survivor is the row at the k-th such position.
   */
  lemma {:induction false} DropNullOrdersKeepsOrder(rows: seq<Row>)
    ensures var kept, idx := DropNullOrders(rows), KeptIndices(rows);
      && |kept| == |idx|
      && (forall k :: 0 <= k < |idx| ==> idx[k] < |rows| && kept[k] == rows[idx[k]])
      && (forall k, l :: 0 <= k < l < |idx| ==> idx[k] < idx[l])
      && (forall i :: 0 <= i < |rows| ==> (HasOrder(rows[i]) <==> i in idx))
  {
    if rows != [] {
      var n := |rows|;
      var init := rows[..n - 1];
      DropNullOrdersKeepsOrder(init);
      var idx := KeptIndices(rows);
      var idx0 := KeptIndices(init);
      assert forall k :: 0 <= k < |idx0| ==> idx[k] == idx0[k];
      forall i | 0 <= i < n - 1
        ensures HasOrder(rows[i]) <==> i in idx
      {
        assert rows[i] == init[i];
        assert i in idx <==> i in idx0;
      }
    }
  }

  /**
   * The "OTP POD" sheet: its first six columns under the fixed names, rows
   * without an order id dropped. A sheet with fewer than six columns makes
   * the renaming raise.
   */
  function NormalizeOtp(t: Table): (r: Result<Table>)
    ensures r.Success? <==> |t.columns| >= 6
    ensures r.Failure? ==> r.error == LengthMismatch(|t.columns|, 6)
    ensures r.Success? ==> r.value.columns == OTP_COLUMNS
    ensures r.Success? ==> r.value.rows == DropNullOrders(TakeColumns(t, 6).rows)
    ensures r.Success? ==> |r.value.rows| <= |t.rows| && forall i :: 0 <= i < |r.value.rows| ==> HasOrder(r.value.rows[i])
    ensures r.Success? && WellFormed(t) ==> WellFormed(r.value)
  {
    match Rename(TakeColumns(t, 6), OTP_COLUMNS)
    case Failure(e) => Failure(e)
    case Success(named) =>
      DropNullOrdersWidth(named.rows, 6);
      Success(named.(rows := DropNullOrders(named.rows)))
  }

  lemma {:induction false} DropNullOrdersWidth(rows: seq<Row>, w: nat)
    ensures (forall i :: 0 <= i < |rows| ==> |rows[i]| == w) ==>
              forall i :: 0 <= i < |DropNullOrders(rows)| ==> |DropNullOrders(rows)[i]| == w
  {
    if rows != [] {
      DropNullOrdersWidth(rows[..|rows| - 1], w);
    }
  }

  /**
   * `safe_date_conversion`: a numeric column is read as day counts since
   * 1899-12-30 (blanks stay blank), any other column by the column-level
   * converter, one result per row.
   */
  function SafeDateConversion(col: seq<Cell>, rd: Readers): (r: seq<Cell>)
    ensures |r| == |col|
    ensures NumericDtype(col) ==> forall i :: 0 <= i < |col| ==>
              r[i] == (if col[i].Num? then rd.fromSerial(col[i].v) else Empty)
    ensures !NumericDtype(col) ==> forall i :: 0 <= i < |col| ==> r[i] == CellAt(rd.fromText(col), i)
    ensures !NumericDtype(col) && |rd.fromText(col)| == |col| ==> r == rd.fromText(col)
  {
    if NumericDtype(col) then
      seq(|col|, i requires 0 <= i < |col| => if col[i].Num? then rd.fromSerial(col[i].v) else Empty)
    else
      var converted := rd.fromText(col);
      seq(|col|, i requires 0 <= i < |col| => CellAt(converted, i))
  }

  /** `df[name] = col` for the column at position `j`. */
  function SetColumn(t: Table, j: nat, col: seq<Cell>): (r: Table)
    requires |col| == |t.rows|
    ensures r.columns == t.columns && |r.rows| == |t.rows|
    ensures forall i :: 0 <= i < |t.rows| ==> |r.rows[i]| == |t.rows[i]|
    ensures forall i, k :: 0 <= i < |t.rows| && 0 <= k < |t.rows[i]| ==>
              r.rows[i][k] == if k == j then col[i] else t.rows[i][k]
  {
    t.(rows := seq(|t.rows|, i requires 0 <= i < |t.rows| =>
                     if j < |t.rows[i]| then t.rows[i][j := col[i]] else t.rows[i]))
  }

  /**
   * The "cost sales" sheet: the first min(n, 18) of the fixed names for its
   * n columns, then the order dates converted. More than 18 columns make the
   * renaming raise.
   */
  function NormalizeCostSales(t: Table, rd: Readers): (r: Result<Table>)
    ensures r.Success? <==> |t.columns| <= 18
    ensures r.Failure? ==> r.error == LengthMismatch(|t.columns|, 18)
    ensures r.Success? ==> r.value.columns == COST_COLUMNS[..|t.columns|]
    ensures r.Success? ==> |r.value.rows| == |t.rows|
    ensures r.Success? ==> forall i :: 0 <= i < |t.rows| ==> |r.value.rows[i]| == |t.rows[i]|
    ensures r.Success? ==> forall i, k :: 0 <= i < |t.rows| && 1 <= k < |t.rows[i]| ==>
              r.value.rows[i][k] == t.rows[i][k]
    ensures r.Success? && |t.columns| > 0 ==> forall i :: 0 <= i < |t.rows| && |t.rows[i]| > 0 ==>
              r.value.rows[i][0] == SafeDateConversion(ColumnCells(t, 0), rd)[i]
  {
    match Rename(t, COST_COLUMNS[..Min(|t.columns|, 18)])
    case Failure(e) => Failure(e)
    case Success(named) =>
      match IndexOf(named.columns, "Order_Date")
      case None => Success(named)
      case Some(j) => Success(SetColumn(named, j, SafeDateConversion(ColumnCells(named, j), rd)))
  }

  /** Cost/sales naming never assigns more names than there are columns, and names every column when it succeeds. */
  lemma CostNamesFit(t: Table, rd: Readers)
    ensures |COST_COLUMNS[..Min(|t.columns|, 18)]| <= |t.columns|
    ensures NormalizeCostSales(t, rd).Success? ==> |NormalizeCostSales(t, rd).value.columns| == |t.columns|
    ensures |t.columns| < 18 ==> NormalizeCostSales(t, rd).Success?
  {
  }

  /** `data['raw_data'] = ...` when the raw sheet is present. */
  function WithRaw(data: map<string, Dataset>, wb: map<string, Table>): map<string, Dataset> {
    if RAW_SHEET in wb then data["raw_data" := TableData(wb[RAW_SHEET])] else data
  }

  function WithOtp(data: map<string, Dataset>, wb: map<string, Table>): map<string, Dataset>
    requires OTP_SHEET in wb ==> NormalizeOtp(wb[OTP_SHEET]).Success?
  {
    if OTP_SHEET in wb then data["otp" := TableData(NormalizeOtp(wb[OTP_SHEET]).value)] else data
  }

  function WithVolumes(data: map<string, Dataset>, wb: map<string, Table>, rd: Readers): map<string, Dataset> {
    if VOLUME_SHEET in wb then
      var vol := Volume.Extracted(wb[VOLUME_SHEET].rows, rd.parse);
      data["volume_raw" := TableData(wb[VOLUME_SHEET])]
          ["service_volumes" := VolumeMap(vol.service)]
          ["country_volumes" := VolumeMap(vol.country)]
    else data
  }

  function WithLanes(data: map<string, Dataset>, wb: map<string, Table>): map<string, Dataset> {
    if LANE_SHEET in wb then data["lanes" := TableData(wb[LANE_SHEET])] else data
  }

  function WithCost(data: map<string, Dataset>, wb: map<string, Table>, rd: Readers): map<string, Dataset>
    requires COST_SHEET in wb ==> NormalizeCostSales(wb[COST_SHEET], rd).Success?
  {
    if COST_SHEET in wb then data["cost_sales" := TableData(NormalizeCostSales(wb[COST_SHEET], rd).value)] else data
  }

  /** What `load_tms_data` returns for a workbook: the datasets, or the error that ended the load. */
  function Loaded(wb: map<string, Table>, rd: Readers): Result<map<string, Dataset>> {
    if OTP_SHEET in wb && NormalizeOtp(wb[OTP_SHEET]).Failure? then
      Failure(NormalizeOtp(wb[OTP_SHEET]).error)
    else if COST_SHEET in wb && NormalizeCostSales(wb[COST_SHEET], rd).Failure? then
      Failure(NormalizeCostSales(wb[COST_SHEET], rd).error)
    else
      Success(WithCost(WithLanes(WithVolumes(WithOtp(WithRaw(map[], wb), wb), wb, rd), wb), wb, rd))
  }

  /** The load fails exactly when a present OTP sheet is too narrow or a present cost sheet too wide. */
  lemma LoadFailsExactly(wb: map<string, Table>, rd: Readers)
    ensures Loaded(wb, rd).Failure? <==>
              (OTP_SHEET in wb && |wb[OTP_SHEET].columns| < 6) ||
              (COST_SHEET in wb && |wb[COST_SHEET].columns| > 18)
    ensures OTP_SHEET in wb && |wb[OTP_SHEET].columns| < 6 ==>
              Loaded(wb, rd) == Failure(LengthMismatch(|wb[OTP_SHEET].columns|, 6))
  {
  }

  /** Each key is there exactly when its sheet is; both volume maps come with the volume sheet. */
  lemma LoadedKeys(wb: map<string, Table>, rd: Readers)
    requires Loaded(wb, rd).Success?
    ensures var data := Loaded(wb, rd).value;
      && ("raw_data" in data <==> RAW_SHEET in wb)
      && ("otp" in data <==> OTP_SHEET in wb)
      && ("volume_raw" in data <==> VOLUME_SHEET in wb)
      && ("service_volumes" in data <==> VOLUME_SHEET in wb)
      && ("country_volumes" in data <==> VOLUME_SHEET in wb)
      && ("lanes" in data <==> LANE_SHEET in wb)
      && ("cost_sales" in data <==> COST_SHEET in wb)
      && data.Keys <= {"raw_data", "otp", "volume_raw", "service_volumes", "country_volumes", "lanes", "cost_sales"}
  {
  }

  /** What sits under each key: the copied sheets, the normalised tables and the extracted maps. */
  lemma LoadedValues(wb: map<string, Table>, rd: Readers)
    requires Loaded(wb, rd).Success?
    ensures var data := Loaded(wb, rd).value;
      && (RAW_SHEET in wb ==> data["raw_data"] == TableData(wb[RAW_SHEET]))
      && (OTP_SHEET in wb ==> data["otp"] == TableData(NormalizeOtp(wb[OTP_SHEET]).value))
      && (VOLUME_SHEET in wb ==>
            && data["volume_raw"] == TableData(wb[VOLUME_SHEET])
            && data["service_volumes"] == VolumeMap(Volume.Extracted(wb[VOLUME_SHEET].rows, rd.parse).service)
            && data["country_volumes"] == VolumeMap(Volume.Extracted(wb[VOLUME_SHEET].rows, rd.parse).country))
      && (LANE_SHEET in wb ==> data["lanes"] == TableData(wb[LANE_SHEET]))
      && (COST_SHEET in wb ==> data["cost_sales"] == TableData(NormalizeCostSales(wb[COST_SHEET], rd).value))
  {
    LoadedKeys(wb, rd);
  }

  /** A workbook holding only a wide enough OTP sheet yields only the `otp` dataset. */
  lemma OnlyOtpSheet(wb: map<string, Table>, rd: Readers)
    requires wb.Keys == {OTP_SHEET} && |wb[OTP_SHEET].columns| >= 6
    ensures Loaded(wb, rd).Success? && Loaded(wb, rd).value.Keys == {"otp"}
  {
    LoadedKeys(wb, rd);
  }

  /**
   * `load_tms_data` itself: builds the result key by key, one sheet after
   * the other, and gives up at the first renaming that raises.
   */
  method LoadTmsData(wb: map<string, Table>, rd: Readers) returns (r: Result<map<string, Dataset>>)
    ensures r == Loaded(wb, rd)
  {
    var data: map<string, Dataset> := map[];
    if RAW_SHEET in wb {
      data := data["raw_data" := TableData(wb[RAW_SHEET])];
    }
    if OTP_SHEET in wb {
      var otp := NormalizeOtp(wb[OTP_SHEET]);
      if otp.Failure? {
        return Failure(otp.error);
      }
      data := data["otp" := TableData(otp.value)];
    }
    if VOLUME_SHEET in wb {
      var volumeDf := wb[VOLUME_SHEET];
      data := data["volume_raw" := TableData(volumeDf)];
      var service, country := Volume.ExtractVolumes(volumeDf.rows, rd.parse);
      data := data["service_volumes" := VolumeMap(service)];
      data := data["country_volumes" := VolumeMap(country)];
      assert service == Volume.Extracted(volumeDf.rows, rd.parse).service;
    }
    if LANE_SHEET in wb {
      data := data["lanes" := TableData(wb[LANE_SHEET])];
    }
    if COST_SHEET in wb {
      var cost := NormalizeCostSales(wb[COST_SHEET], rd);
      if cost.Failure? {
        return Failure(cost.error);
      }
      data := data["cost_sales" := TableData(cost.value)];
    }
    r := Success(data);
  }
}
