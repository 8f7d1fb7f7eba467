/** The depot and depot-equipment spreadsheet import and export
    (`DepotViewSet`).

    A depot is keyed by its name (the model declares it unique) and holds
    `name`, `code` and `location`.  A piece of depot equipment is keyed by
    its depot's name and its own name, and holds `depot`, `name`,
    `model_type`, `asset_id`, `location_in_depot`, `notes` and `quantity`.
    This import reads the sheet without turning empty cells into None, so an
    empty cell is pandas' NaN: a `None` cell of a row. */
module Depots {
  import opened Common
  import opened Orm

  type EquipmentKey = (string, string)

  /** A new depot before its defaults are applied. */
  function DepotBlank(name: string): Record
  {
    map["name" := Text(name), "code" := Null, "location" := Text("")]
  }

  /** A new piece of equipment before its defaults are applied. */
  function EquipmentBlank(depot: string, name: string): Record
  {
    map["depot" := Link(depot), "name" := Text(name), "model_type" := Text(""), "asset_id" := Text(""),
        "location_in_depot" := Text(""), "notes" := Text(""), "quantity" := Num(1)]
  }

  /** `row.get(col, '')` stored in a text field.  An absent column gives the
      empty default.  An empty cell gives NaN, which the text field stores as
      its string form "nan" as written; the evident intent is the empty default. */
  function OptionalText(mode: Mode, row: Row, col: string): Value
  {
    if col !in row then Text("")
    else
      match row[col]
      case Some(v) => Text(v)
      case None => if mode == AsWritten then Text("nan") else Text("")
  }

  /** Code and Location, each only when its cell holds a value. */
  function DepotDefaults(row: Row): (d: Record)
    ensures "code" in d <==> Present(row, "Code")
    ensures "code" in d ==> d["code"] == Text(row["Code"].value)
    ensures "location" in d <==> Present(row, "Location")
    ensures "location" in d ==> d["location"] == Text(row["Location"].value)
    ensures d.Keys <= {"code", "location"}
  {
    var d0: Record := map[];
    var d1 := if Present(row, "Code") then d0["code" := Text(row["Code"].value)] else d0;
    if Present(row, "Location") then d1["location" := Text(row["Location"].value)] else d1
  }

  /** The four equipment defaults, always all written. */
  function EquipmentDefaults(mode: Mode, row: Row): Record
  {
    map["model_type" := OptionalText(mode, row, "Model/Type"), "asset_id" := OptionalText(mode, row, "Asset ID"),
        "location_in_depot" := OptionalText(mode, row, "Location in Depot"), "notes" := OptionalText(mode, row, "Notes")]
  }

  datatype EquipmentPlan = EquipmentPlan(name: string, defaults: Record)

  /** What one row asks for: nothing when it has no Depot, else the depot
      upsert under the unstripped Depot value and, when the row has an
      Equipment Name, the equipment upsert. */
  datatype DepotPlan =
    | Ignore
    | UpsertDepot(name: string, defaults: Record, equipment: Option<EquipmentPlan>)

  function PlanRow(mode: Mode, row: Row): (p: DepotPlan)
    ensures p.UpsertDepot? <==> Truthy(Cell(row, "Depot"))
    ensures p.UpsertDepot? ==> p.name == row["Depot"].value && p.defaults == DepotDefaults(row)
    ensures p.UpsertDepot? ==> (p.equipment.Some? <==> Present(row, "Equipment Name"))
    ensures p.UpsertDepot? && p.equipment.Some? ==>
              p.equipment.value == EquipmentPlan(row["Equipment Name"].value, EquipmentDefaults(mode, row))
  {
    var depot := Cell(row, "Depot");
    if !Truthy(depot) then Ignore
    else
      UpsertDepot(depot.value, DepotDefaults(row),
                  if Present(row, "Equipment Name") then Some(EquipmentPlan(row["Equipment Name"].value, EquipmentDefaults(mode, row)))
                  else None)
  }

  function PlanRows(mode: Mode, rows: seq<Row>): (ps: seq<DepotPlan>)
    ensures |ps| == |rows|
    ensures forall i :: 0 <= i < |rows| ==> ps[i] == PlanRow(mode, rows[i])
  {
    seq(|rows|, i requires 0 <= i < |rows| => PlanRow(mode, rows[i]))
  }

  // ----- The import loop -----

  datatype DepotState = DepotState(depots: map<string, Record>, equipments: map<EquipmentKey, Record>,
                                   processed: int, equipmentCount: int)

  function EquipmentTable(equipments: map<EquipmentKey, Record>, depot: string, eq: Option<EquipmentPlan>): map<EquipmentKey, Record>
  {
    match eq
    case None => equipments
    case Some(e) => UpdateOrCreate(equipments, (depot, e.name), EquipmentBlank(depot, e.name), e.defaults).table
  }

  /** One pass of the loop body. */
  function ApplyRow(st: DepotState, p: DepotPlan): DepotState
  {
    match p
    case Ignore => st
    case UpsertDepot(name, d, eq) =>
      DepotState(UpdateOrCreate(st.depots, name, DepotBlank(name), d).table, EquipmentTable(st.equipments, name, eq),
                 st.processed + 1, st.equipmentCount + (if eq.Some? then 1 else 0))
  }

  function ApplyRows(st: DepotState, plans: seq<DepotPlan>): DepotState
    decreases |plans|
  {
    if plans == [] then st else ApplyRow(ApplyRows(st, plans[..|plans| - 1]), plans[|plans| - 1])
  }

  function ImportRows(mode: Mode, depots: map<string, Record>, equipments: map<EquipmentKey, Record>, rows: seq<Row>): DepotState
  {
    ApplyRows(DepotState(depots, equipments, 0, 0), PlanRows(mode, rows))
  }

  lemma ImportRowsStep(mode: Mode, depots: map<string, Record>, equipments: map<EquipmentKey, Record>, rows: seq<Row>, i: nat)
    requires i < |rows|
    ensures ImportRows(mode, depots, equipments, rows[..i + 1]) ==
            ApplyRow(ImportRows(mode, depots, equipments, rows[..i]), PlanRow(mode, rows[i]))
  {
    var ps := PlanRows(mode, rows[..i + 1]);
    assert ps[..i] == PlanRows(mode, rows[..i]);
  }

  function Message(processed: int, equipmentCount: int): string
  {
    "Import successful. Depots processed: " + IntToString(processed) + ", Equipment created/updated: "
      + IntToString(equipmentCount) + "."
  }

  // ----- The unique code -----

  /** `Depot.code` is unique: a code other than NULL that a depot of another
      name already holds cannot be written. */
  predicate CodeTaken(depots: map<string, Record>, name: string, code: Value)
  {
    code != Null && exists other :: other in depots && other != name && Attr(depots[other], "code") == code
  }

  /** The row's depot upsert raises `IntegrityError`. */
  predicate Clashes(st: DepotState, p: DepotPlan)
  {
    p.UpsertDepot? && "code" in p.defaults && CodeTaken(st.depots, p.name, p.defaults["code"])
  }

  /** Row `j` clashes after the rows before it were imported. */
  predicate ClashAt(mode: Mode, depots: map<string, Record>, equipments: map<EquipmentKey, Record>, rows: seq<Row>, j: nat)
    requires j < |rows|
  {
    Clashes(ImportRows(mode, depots, equipments, rows[..j]), PlanRow(mode, rows[j]))
  }

  /** The first clashing row from `from` on, or |rows| when none clashes. */
  function FirstClash(mode: Mode, depots: map<string, Record>, equipments: map<EquipmentKey, Record>, rows: seq<Row>, from: nat): (k: nat)
    requires from <= |rows|
    ensures from <= k <= |rows|
    ensures k < |rows| ==> ClashAt(mode, depots, equipments, rows, k)
    ensures forall j :: from <= j < k ==> !ClashAt(mode, depots, equipments, rows, j)
    decreases |rows| - from
  {
    if from == |rows| then from
    else if ClashAt(mode, depots, equipments, rows, from) then from
    else FirstClash(mode, depots, equipments, rows, from + 1)
  }

  /** A row that clashes with no earlier one, followed by a clash or the
      end of the sheet, is the first clash. */
  lemma {:induction false} FirstClashIs(mode: Mode, depots: map<string, Record>, equipments: map<EquipmentKey, Record>,
                                        rows: seq<Row>, from: nat, i: nat)
    requires from <= i <= |rows|
    requires forall j :: from <= j < i ==> !ClashAt(mode, depots, equipments, rows, j)
    requires i == |rows| || ClashAt(mode, depots, equipments, rows, i)
    ensures FirstClash(mode, depots, equipments, rows, from) == i
    decreases i - from
  {
    if from < i {
      FirstClashIs(mode, depots, equipments, rows, from + 1, i);
    }
  }

  /** No two depots hold the same code. */
  ghost predicate UniqueCodes(depots: map<string, Record>)
  {
    forall a, b :: a in depots && b in depots && a != b && Attr(depots[a], "code") != Null ==>
      Attr(depots[a], "code") != Attr(depots[b], "code")
  }

  /** A row that does not clash keeps the codes unique. */
  lemma ApplyRowKeepsCodesUnique(st: DepotState, p: DepotPlan)
    requires UniqueCodes(st.depots) && !Clashes(st, p)
    ensures UniqueCodes(ApplyRow(st, p).depots)
  {
    if p.UpsertDepot? {
      var u := UpdateOrCreate(st.depots, p.name, DepotBlank(p.name), p.defaults);
      var t := u.table;
      assert ApplyRow(st, p).depots == t;
      assert Attr(t[p.name], "code") == if "code" in p.defaults then p.defaults["code"]
                                        else Attr(if p.name in st.depots then st.depots[p.name] else DepotBlank(p.name), "code");
      forall a, b | a in t && b in t && a != b && Attr(t[a], "code") != Null
        ensures Attr(t[a], "code") != Attr(t[b], "code")
      {
        if a == p.name {
          assert Attr(t[b], "code") == Attr(st.depots[b], "code");
        } else if b == p.name {
          assert Attr(t[a], "code") == Attr(st.depots[a], "code");
        }
      }
    }
  }

  /** The rows committed before the first clash keep the codes unique. */
  lemma {:induction false} CodesStayUnique(mode: Mode, depots: map<string, Record>, equipments: map<EquipmentKey, Record>,
                                           rows: seq<Row>, k: nat)
    requires UniqueCodes(depots)
    requires k <= FirstClash(mode, depots, equipments, rows, 0)
    ensures UniqueCodes(ImportRows(mode, depots, equipments, rows[..k]).depots)
    decreases k
  {
    if k > 0 {
      assert !ClashAt(mode, depots, equipments, rows, k - 1);
      var st := ImportRows(mode, depots, equipments, rows[..k - 1]);
      var p := PlanRow(mode, rows[k - 1]);
      assert !Clashes(st, p);
      CodesStayUnique(mode, depots, equipments, rows, k - 1);
      ImportRowsStep(mode, depots, equipments, rows, k - 1);
      ApplyRowKeepsCodesUnique(st, p);
    }
  }

  /** Two depots given the same code: the first is committed, the second
      stops the import. */
  lemma SharedCodeStopsImport()
    ensures var rows: seq<Row> := [map["Depot" := Some("A"), "Code" := Some("X")], map["Depot" := Some("B"), "Code" := Some("X")]];
            var k := FirstClash(AsWritten, map[], map[], rows, 0);
            k == 1 && ImportRows(AsWritten, map[], map[], rows[..k]).depots.Keys == {"A"}
  {
    var rows: seq<Row> := [map["Depot" := Some("A"), "Code" := Some("X")], map["Depot" := Some("B"), "Code" := Some("X")]];
    assert rows[..0] == [];
    assert rows[..1] == [rows[0]];
    ImportRowsStep(AsWritten, map[], map[], rows, 0);
    var st := ImportRows(AsWritten, map[], map[], rows[..1]);
    assert st.depots == map["A" := DepotBlank("A") + map["code" := Text("X")]];
    assert Attr(st.depots["A"], "code") == Text("X");
    assert PlanRow(AsWritten, rows[1]).defaults["code"] == Text("X");
    assert ClashAt(AsWritten, map[], map[], rows, 1);
    FirstClashIs(AsWritten, map[], map[], rows, 0, 1);
  }

  class DepotStore {
    var depots: map<string, Record>
    var equipments: map<EquipmentKey, Record>

    constructor()
      ensures depots == map[] && equipments == map[]
    {
      depots := map[];
      equipments := map[];
    }

    /** `import_from_excel`: a read sheet answers 200 with the counts, unless
        a row's code is already another depot's: the rows before it stay
        committed and the answer is 400 with the database's error text
        `integrityError`. */
    method ImportFromExcel(upload: Upload, integrityError: string) returns (resp: ImportResponse)
      modifies this
      ensures upload.Missing? ==> resp == NoFile && depots == old(depots) && equipments == old(equipments)
      ensures upload.Unreadable? ==>
                resp == Failed(HTTP_400_BAD_REQUEST, "An error occurred during import: " + upload.reason) &&
                depots == old(depots) && equipments == old(equipments)
      ensures upload.Sheet? ==>
                var k := FirstClash(AsWritten, old(depots), old(equipments), upload.rows, 0);
                var after := ImportRows(AsWritten, old(depots), old(equipments), upload.rows[..k]);
                depots == after.depots && equipments == after.equipments &&
                resp == if k < |upload.rows| then Failed(HTTP_400_BAD_REQUEST, "An error occurred during import: " + integrityError)
                        else Report(HTTP_200_OK, Message(after.processed, after.equipmentCount), None)
    {
      if upload.Missing? {
        return NoFile;
      }
      if upload.Unreadable? {
        return Failed(HTTP_400_BAD_REQUEST, "An error occurred during import: " + upload.reason);
      }
      var rows := upload.rows;
      var processed := 0;
      var equipmentCount := 0;
      var i := 0;
      while i < |rows|
        invariant 0 <= i <= |rows|
        invariant DepotState(depots, equipments, processed, equipmentCount) ==
                  ImportRows(AsWritten, old(depots), old(equipments), rows[..i])
        invariant forall j :: 0 <= j < i ==> !ClashAt(AsWritten, old(depots), old(equipments), rows, j)
      {
        ImportRowsStep(AsWritten, old(depots), old(equipments), rows, i);
        var failed;
        failed, processed, equipmentCount := ImportRow(rows[i], processed, equipmentCount);
        if failed {
          FirstClashIs(AsWritten, old(depots), old(equipments), rows, 0, i);
          return Failed(HTTP_400_BAD_REQUEST, "An error occurred during import: " + integrityError);
        }
        i := i + 1;
      }
      FirstClashIs(AsWritten, old(depots), old(equipments), rows, 0, |rows|);
      assert rows[..|rows|] == rows;
      resp := Report(HTTP_200_OK, Message(processed, equipmentCount), None);
    }

    /** One pass of the loop body; a clashing code raises before anything is written. */
    method ImportRow(row: Row, processed: int, equipmentCount: int) returns (failed: bool, processed': int, equipmentCount': int)
      modifies this
      ensures failed == Clashes(DepotState(old(depots), old(equipments), processed, equipmentCount), PlanRow(AsWritten, row))
      ensures failed ==> depots == old(depots) && equipments == old(equipments)
      ensures !failed ==>
                DepotState(depots, equipments, processed', equipmentCount') ==
                ApplyRow(DepotState(old(depots), old(equipments), processed, equipmentCount), PlanRow(AsWritten, row))
    {
      failed, processed', equipmentCount' := false, processed, equipmentCount;
      var name := Cell(row, "Depot");
      if Truthy(name) {
        var defaults: Record := map[];
        if Present(row, "Code") {
          defaults := defaults["code" := Text(row["Code"].value)];
        }
        if Present(row, "Location") {
          defaults := defaults["location" := Text(row["Location"].value)];
        }
        assert defaults == DepotDefaults(row);
        if "code" in defaults && CodeTaken(depots, name.value, defaults["code"]) {
          return true, processed, equipmentCount;
        }
        depots := UpdateOrCreate(depots, name.value, DepotBlank(name.value), defaults).table;
        processed' := processed + 1;
        if Present(row, "Equipment Name") {
          var equipName := row["Equipment Name"].value;
          equipments := UpdateOrCreate(equipments, (name.value, equipName), EquipmentBlank(name.value, equipName),
                                       EquipmentDefaults(AsWritten, row)).table;
          equipmentCount' := equipmentCount + 1;
        }
      }
    }
  }

  // ----- What the import does, read off the rows -----

  /** The depot names of the rows that have a Depot. */
  function DepotNames(rows: seq<Row>): set<string>
  {
    set i | 0 <= i < |rows| && Truthy(Cell(rows[i], "Depot")) :: rows[i]["Depot"].value
  }

  /** The (depot, equipment) names of the rows that have a Depot and an Equipment Name. */
  function EquipmentNames(rows: seq<Row>): set<EquipmentKey>
  {
    set i | 0 <= i < |rows| && Truthy(Cell(rows[i], "Depot")) && Present(rows[i], "Equipment Name") ::
      (rows[i]["Depot"].value, rows[i]["Equipment Name"].value)
  }

  /** The number of rows that have a Depot. */
  function DepotRowCount(rows: seq<Row>): nat
    decreases |rows|
  {
    if rows == [] then 0
    else DepotRowCount(rows[..|rows| - 1]) + BoolToNat(Truthy(Cell(rows[|rows| - 1], "Depot")))
  }

  /** The number of rows that have a Depot and an Equipment Name. */
  function EquipmentRowCount(rows: seq<Row>): nat
    decreases |rows|
  {
    if rows == [] then 0
    else
      var r := rows[|rows| - 1];
      EquipmentRowCount(rows[..|rows| - 1]) + BoolToNat(Truthy(Cell(r, "Depot")) && Present(r, "Equipment Name"))
  }

  lemma DepotNamesStep(rows: seq<Row>)
    requires rows != []
    ensures DepotNames(rows) == DepotNames(rows[..|rows| - 1]) + DepotNameOf(rows[|rows| - 1])
  {
    var n := |rows| - 1;
    assert forall i :: 0 <= i < n ==> rows[..n][i] == rows[i];
  }

  /** The equipment key a row names, if any. */
  function EquipmentKeyOf(r: Row): set<EquipmentKey>
  {
    if Truthy(Cell(r, "Depot")) && Present(r, "Equipment Name") then {(r["Depot"].value, r["Equipment Name"].value)} else {}
  }

  lemma EquipmentNamesStep(rows: seq<Row>)
    requires rows != []
    ensures EquipmentNames(rows) == EquipmentNames(rows[..|rows| - 1]) + EquipmentKeyOf(rows[|rows| - 1])
  {
    var n := |rows| - 1;
    assert forall i :: 0 <= i < n ==> rows[..n][i] == rows[i];
  }

  /** The depot name a row names, if any. */
  function DepotNameOf(r: Row): set<string>
  {
    if Truthy(Cell(r, "Depot")) then {r["Depot"].value} else {}
  }

  /** One row adds its depot name and its equipment key, when it has them. */
  lemma RowKeys(mode: Mode, st: DepotState, r: Row)
    ensures ApplyRow(st, PlanRow(mode, r)).depots.Keys == st.depots.Keys + DepotNameOf(r)
    ensures ApplyRow(st, PlanRow(mode, r)).equipments.Keys == st.equipments.Keys + EquipmentKeyOf(r)
  {
  }

  /** One row with a Depot counts itself and adds at most one depot. */
  lemma DepotRowCounts(mode: Mode, st: DepotState, r: Row)
    ensures ApplyRow(st, PlanRow(mode, r)).processed == st.processed + BoolToNat(Truthy(Cell(r, "Depot")))
    ensures |ApplyRow(st, PlanRow(mode, r)).depots.Keys| <= |st.depots.Keys| + BoolToNat(Truthy(Cell(r, "Depot")))
  {
    var p := PlanRow(mode, r);
    if p.UpsertDepot? {
      UpsertCountsKey(mode, st.depots, p.name, DepotBlank(p.name), p.defaults);
    }
  }

  /** One row with a Depot and an Equipment Name counts itself and adds at
      most one piece of equipment. */
  lemma EquipmentRowCounts(mode: Mode, st: DepotState, r: Row)
    ensures ApplyRow(st, PlanRow(mode, r)).equipmentCount == st.equipmentCount + BoolToNat(Truthy(Cell(r, "Depot")) && Present(r, "Equipment Name"))
    ensures |ApplyRow(st, PlanRow(mode, r)).equipments.Keys| <= |st.equipments.Keys| + BoolToNat(Truthy(Cell(r, "Depot")) && Present(r, "Equipment Name"))
  {
    var p := PlanRow(mode, r);
    if p.UpsertDepot? && p.equipment.Some? {
      var e := p.equipment.value;
      UpsertCountsKey(mode, st.equipments, (p.name, e.name), EquipmentBlank(p.name, e.name), e.defaults);
    }
  }

  /** The import of a sheet is the import of all but its last row, then that row. */
  lemma ImportLast(mode: Mode, depots: map<string, Record>, equipments: map<EquipmentKey, Record>, rows: seq<Row>)
    requires rows != []
    ensures ImportRows(mode, depots, equipments, rows) ==
            ApplyRow(ImportRows(mode, depots, equipments, rows[..|rows| - 1]), PlanRow(mode, rows[|rows| - 1]))
  {
    ImportRowsStep(mode, depots, equipments, rows, |rows| - 1);
    assert rows[..|rows|] == rows;
  }

  /** The import upserts exactly the depots the rows name. */
  lemma {:induction false} ImportDepotKeys(mode: Mode, depots: map<string, Record>, equipments: map<EquipmentKey, Record>, rows: seq<Row>)
    ensures ImportRows(mode, depots, equipments, rows).depots.Keys == depots.Keys + DepotNames(rows)
    decreases |rows|
  {
    if rows != [] {
      var n := |rows| - 1;
      ImportDepotKeys(mode, depots, equipments, rows[..n]);
      ImportLast(mode, depots, equipments, rows);
      DepotNamesStep(rows);
      RowKeys(mode, ImportRows(mode, depots, equipments, rows[..n]), rows[n]);
    }
  }

  /** The import upserts exactly the equipment the rows name. */
  lemma {:induction false} ImportEquipmentKeys(mode: Mode, depots: map<string, Record>, equipments: map<EquipmentKey, Record>, rows: seq<Row>)
    ensures ImportRows(mode, depots, equipments, rows).equipments.Keys == equipments.Keys + EquipmentNames(rows)
    decreases |rows|
  {
    if rows != [] {
      var n := |rows| - 1;
      var before := ImportRows(mode, depots, equipments, rows[..n]);
      ImportEquipmentKeys(mode, depots, equipments, rows[..n]);
      ImportLast(mode, depots, equipments, rows);
      EquipmentNamesStep(rows);
      RowKeys(mode, before, rows[n]);
    }
  }

  /** The two counters count rows, not distinct records: at least as many
      as the records the import adds. */
  lemma {:induction false} ImportCounts(mode: Mode, depots: map<string, Record>, equipments: map<EquipmentKey, Record>, rows: seq<Row>)
    ensures ImportRows(mode, depots, equipments, rows).processed == DepotRowCount(rows)
    ensures ImportRows(mode, depots, equipments, rows).equipmentCount == EquipmentRowCount(rows)
    ensures |ImportRows(mode, depots, equipments, rows).depots.Keys| <= |depots.Keys| + DepotRowCount(rows)
    ensures |ImportRows(mode, depots, equipments, rows).equipments.Keys| <= |equipments.Keys| + EquipmentRowCount(rows)
    decreases |rows|
  {
    if rows != [] {
      var n := |rows| - 1;
      ImportCounts(mode, depots, equipments, rows[..n]);
      ImportLast(mode, depots, equipments, rows);
      DepotRowCounts(mode, ImportRows(mode, depots, equipments, rows[..n]), rows[n]);
      EquipmentRowCounts(mode, ImportRows(mode, depots, equipments, rows[..n]), rows[n]);
    }
  }

  /** Each row is counted at most once, and only a row with a Depot counts. */
  lemma {:induction false} CountsBounded(rows: seq<Row>)
    ensures EquipmentRowCount(rows) <= DepotRowCount(rows) <= |rows|
    ensures DepotRowCount(rows) == |rows| <==> forall i :: 0 <= i < |rows| ==> Truthy(Cell(rows[i], "Depot"))
    decreases |rows|
  {
    if rows != [] {
      var prefix := rows[..|rows| - 1];
      CountsBounded(prefix);
      assert forall i :: 0 <= i < |prefix| ==> prefix[i] == rows[i];
    }
  }

  /** The import of `rows + [row]` is the import of `rows` followed by `row`. */
  lemma LastRow(mode: Mode, depots: map<string, Record>, equipments: map<EquipmentKey, Record>, rows: seq<Row>, row: Row)
    ensures ImportRows(mode, depots, equipments, rows + [row]) ==
            ApplyRow(ImportRows(mode, depots, equipments, rows), PlanRow(mode, row))
  {
    ImportRowsStep(mode, depots, equipments, rows + [row], |rows|);
    assert (rows + [row])[..|rows| + 1] == rows + [row];
    assert (rows + [row])[..|rows|] == rows;
  }

  /** A row without a Depot changes nothing, not even the counters. */
  lemma IgnoredRowChangesNothing(mode: Mode, depots: map<string, Record>, equipments: map<EquipmentKey, Record>, rows: seq<Row>, row: Row)
    requires !Truthy(Cell(row, "Depot"))
    ensures ImportRows(mode, depots, equipments, rows + [row]) == ImportRows(mode, depots, equipments, rows)
  {
    LastRow(mode, depots, equipments, rows, row);
  }

  /** A later row for the same depot name overwrites what earlier rows wrote:
      the depot holds the row's Code and Location when the row has them, and
      keeps the stored ones (or the blank ones of a new depot) when it does not. */
  lemma LaterRowOverwrites(mode: Mode, depots: map<string, Record>, equipments: map<EquipmentKey, Record>, rows: seq<Row>, row: Row)
    requires Truthy(Cell(row, "Depot"))
    ensures var name := row["Depot"].value;
            var before := ImportRows(mode, depots, equipments, rows).depots;
            var after := ImportRows(mode, depots, equipments, rows + [row]).depots;
            var old_ := if name in before then before[name] else DepotBlank(name);
            name in after &&
            Attr(after[name], "name") == Attr(old_, "name") &&
            Attr(after[name], "code") == (if Present(row, "Code") then Text(row["Code"].value) else Attr(old_, "code")) &&
            Attr(after[name], "location") == (if Present(row, "Location") then Text(row["Location"].value) else Attr(old_, "location"))
  {
    LastRow(mode, depots, equipments, rows, row);
    DepotAfterRow(mode, ImportRows(mode, depots, equipments, rows), row);
  }

  lemma DepotAfterRow(mode: Mode, st: DepotState, row: Row)
    requires Truthy(Cell(row, "Depot"))
    ensures var name := row["Depot"].value;
            var after := ApplyRow(st, PlanRow(mode, row)).depots;
            var old_ := if name in st.depots then st.depots[name] else DepotBlank(name);
            name in after &&
            Attr(after[name], "name") == Attr(old_, "name") &&
            Attr(after[name], "code") == (if Present(row, "Code") then Text(row["Code"].value) else Attr(old_, "code")) &&
            Attr(after[name], "location") == (if Present(row, "Location") then Text(row["Location"].value) else Attr(old_, "location"))
  {
    var name := row["Depot"].value;
    var u := UpdateOrCreate(st.depots, name, DepotBlank(name), DepotDefaults(row));
    assert ApplyRow(st, PlanRow(mode, row)).depots == u.table;
  }

  /** The equipment a row with a Depot names holds the row's four text values
      afterwards, and a row that names none leaves the equipment table alone. */
  lemma EquipmentOnlyWhenNamed(mode: Mode, depots: map<string, Record>, equipments: map<EquipmentKey, Record>, rows: seq<Row>, row: Row)
    requires Truthy(Cell(row, "Depot"))
    ensures !Present(row, "Equipment Name") ==>
              ImportRows(mode, depots, equipments, rows + [row]).equipments == ImportRows(mode, depots, equipments, rows).equipments
    ensures Present(row, "Equipment Name") ==>
              var key := (row["Depot"].value, row["Equipment Name"].value);
              var after := ImportRows(mode, depots, equipments, rows + [row]).equipments;
              key in after && forall a :: a in EquipmentDefaults(mode, row) ==> Attr(after[key], a) == EquipmentDefaults(mode, row)[a]
  {
    LastRow(mode, depots, equipments, rows, row);
    if Present(row, "Equipment Name") {
      var name := row["Depot"].value;
      var e := row["Equipment Name"].value;
      var before := ImportRows(mode, depots, equipments, rows).equipments;
      var u := UpdateOrCreate(before, (name, e), EquipmentBlank(name, e), EquipmentDefaults(mode, row));
      assert ImportRows(mode, depots, equipments, rows + [row]).equipments == u.table;
    }
  }

  /** As written, an equipment row whose Notes cell is empty stores the text "nan". */
  lemma EmptyNotesStoredAsNan()
    ensures var row: Row := map["Depot" := Some("D1"), "Equipment Name" := Some("Meter"), "Notes" := None];
            var after := ImportRows(AsWritten, map[], map[], [row]).equipments;
            ("D1", "Meter") in after && Attr(after[("D1", "Meter")], "notes") == Text("nan")
  {
    var row: Row := map["Depot" := Some("D1"), "Equipment Name" := Some("Meter"), "Notes" := None];
    EquipmentOnlyWhenNamed(AsWritten, map[], map[], [], row);
    assert [] + [row] == [row];
  }

  /** As intended, each equipment text field holds its cell's text, or the
      empty default when the column is absent or the cell empty. */
  lemma IntendedBlankWhenEmpty(depots: map<string, Record>, equipments: map<EquipmentKey, Record>, rows: seq<Row>, row: Row, col: string)
    requires Truthy(Cell(row, "Depot")) && Present(row, "Equipment Name")
    requires col in {"Model/Type", "Asset ID", "Location in Depot", "Notes"}
    ensures var key := (row["Depot"].value, row["Equipment Name"].value);
            var after := ImportRows(Intended, depots, equipments, rows + [row]).equipments;
            var field := if col == "Model/Type" then "model_type" else if col == "Asset ID" then "asset_id"
                         else if col == "Location in Depot" then "location_in_depot" else "notes";
            key in after && Attr(after[key], field) == Text(if Present(row, col) then row[col].value else "")
  {
    EquipmentOnlyWhenNamed(Intended, depots, equipments, rows, row);
  }

  // ----- The export -----

  /** A depot as the export query yields it, with its equipment. */
  datatype DepotGroup = DepotGroup(depot: Record, equipment: seq<Record>)

  /** The depot's three cells, common to all its lines. */
  function DepotCells(d: Record): Record
  {
    map["Depot" := Attr(d, "name"), "Code" := Attr(d, "code"), "Location" := Attr(d, "location")]
  }

  /** The line of one piece of equipment of the depot. */
  function EquipmentLine(d: Record, e: Record): Record
  {
    DepotCells(d)["Equipment Name" := Attr(e, "name")]["Model/Type" := Attr(e, "model_type")]
      ["Asset ID" := Attr(e, "asset_id")]["Location in Depot" := Attr(e, "location_in_depot")]["Notes" := Attr(e, "notes")]
  }

  /** The line of a depot without equipment: empty equipment cells. */
  function BareLine(d: Record): Record
  {
    DepotCells(d)["Equipment Name" := Null]["Model/Type" := Null]["Asset ID" := Null]
      ["Location in Depot" := Null]["Notes" := Null]
  }

  function EquipmentLines(d: Record, es: seq<Record>): (lines: seq<Record>)
    ensures |lines| == |es|
    ensures forall i :: 0 <= i < |es| ==> lines[i] == EquipmentLine(d, es[i])
    decreases |es|
  {
    if es == [] then [] else EquipmentLines(d, es[..|es| - 1]) + [EquipmentLine(d, es[|es| - 1])]
  }

  function GroupLines(g: DepotGroup): seq<Record>
  {
    if g.equipment == [] then [BareLine(g.depot)] else EquipmentLines(g.depot, g.equipment)
  }

  function ExportLines(groups: seq<DepotGroup>): seq<Record>
    decreases |groups|
  {
    if groups == [] then [] else ExportLines(groups[..|groups| - 1]) + GroupLines(groups[|groups| - 1])
  }

  /** `export_to_excel`: one line per piece of equipment, one bare line per
      depot without equipment, and no line at all when there is no depot. */
  method ExportToExcel(groups: seq<DepotGroup>) returns (data: seq<Record>)
    ensures data == ExportLines(groups)
  {
    data := [];
    for i := 0 to |groups|
      invariant data == ExportLines(groups[..i])
    {
      var g := groups[i];
      ghost var before := data;
      if |g.equipment| > 0 {
        data := AppendEquipmentLines(data, g.depot, g.equipment);
      } else {
        data := data + [BareLine(g.depot)];
      }
      assert data == before + GroupLines(g);
      ExportStep(groups, i);
    }
    assert groups[..|groups|] == groups;
  }

  lemma ExportStep(groups: seq<DepotGroup>, i: nat)
    requires i < |groups|
    ensures ExportLines(groups[..i + 1]) == ExportLines(groups[..i]) + GroupLines(groups[i])
  {
    assert groups[..i + 1][..i] == groups[..i];
  }

  /** The inner loop of the export: a line per piece of equipment of one depot. */
  method AppendEquipmentLines(data: seq<Record>, d: Record, es: seq<Record>) returns (out: seq<Record>)
    ensures out == data + EquipmentLines(d, es)
  {
    out := data;
    for j := 0 to |es|
      invariant out == data + EquipmentLines(d, es[..j])
    {
      assert es[..j + 1][..j] == es[..j];
      out := out + [EquipmentLine(d, es[j])];
    }
    assert es[..|es|] == es;
  }

  /** The number of lines the depots yield. */
  function LineCount(groups: seq<DepotGroup>): nat
    decreases |groups|
  {
    if groups == [] then 0 else LineCount(groups[..|groups| - 1]) + Max(1, |groups[|groups| - 1].equipment|)
  }

  /** Each depot yields one line per piece of equipment and at least one line. */
  lemma {:induction false} ExportLineCount(groups: seq<DepotGroup>)
    ensures |ExportLines(groups)| == LineCount(groups)
    ensures |ExportLines(groups)| >= |groups|
    decreases |groups|
  {
    if groups != [] {
      ExportLineCount(groups[..|groups| - 1]);
    }
  }

  /** The cells a line of depot `d` carries, as a row read back. */
  lemma DepotLineCells(d: Record, e: Record, line: Record)
    requires line == BareLine(d) || line == EquipmentLine(d, e)
    ensures "Depot" in AsRow(line) && AsRow(line)["Depot"] == AsCell(Attr(d, "name"))
    ensures "Code" in AsRow(line) && AsRow(line)["Code"] == AsCell(Attr(d, "code"))
    ensures "Location" in AsRow(line) && AsRow(line)["Location"] == AsCell(Attr(d, "location"))
  {
    LineDepotCells(d, e, line);
    AsRowAt(line, "Depot");
    AsRowAt(line, "Code");
    AsRowAt(line, "Location");
  }

  lemma LineDepotCells(d: Record, e: Record, line: Record)
    requires line == BareLine(d) || line == EquipmentLine(d, e)
    ensures "Depot" in line && line["Depot"] == Attr(d, "name")
    ensures "Code" in line && line["Code"] == Attr(d, "code")
    ensures "Location" in line && line["Location"] == Attr(d, "location")
  {
  }

  /** A depot line read back: a line of a depot whose name is non-empty
      text is planned again under that name, with the depot's code and
      location when they are text, and no code when it has none. */
  lemma ExportedDepotReplans(mode: Mode, d: Record, e: Record, line: Record)
    requires line == BareLine(d) || line == EquipmentLine(d, e)
    requires Attr(d, "name").Text? && Attr(d, "name").s != ""
    ensures PlanRow(mode, AsRow(line)).UpsertDepot? && PlanRow(mode, AsRow(line)).name == Attr(d, "name").s
    ensures Attr(d, "code").Text? ==> Attr(PlanRow(mode, AsRow(line)).defaults, "code") == Attr(d, "code")
    ensures Attr(d, "code").Null? ==> "code" !in PlanRow(mode, AsRow(line)).defaults
    ensures Attr(d, "location").Text? ==> Attr(PlanRow(mode, AsRow(line)).defaults, "location") == Attr(d, "location")
  {
    DepotLineCells(d, e, line);
  }

  /** The equipment cells of an equipment line, as a row read back. */
  lemma EquipmentLineCells(d: Record, e: Record)
    ensures var row := AsRow(EquipmentLine(d, e));
            "Equipment Name" in row && row["Equipment Name"] == AsCell(Attr(e, "name")) &&
            "Model/Type" in row && row["Model/Type"] == AsCell(Attr(e, "model_type")) &&
            "Asset ID" in row && row["Asset ID"] == AsCell(Attr(e, "asset_id")) &&
            "Location in Depot" in row && row["Location in Depot"] == AsCell(Attr(e, "location_in_depot")) &&
            "Notes" in row && row["Notes"] == AsCell(Attr(e, "notes"))
  {
    var line := EquipmentLine(d, e);
    LineEquipmentCells(d, e);
    AsRowAt(line, "Equipment Name");
    AsRowAt(line, "Model/Type");
    AsRowAt(line, "Asset ID");
    AsRowAt(line, "Location in Depot");
    AsRowAt(line, "Notes");
  }

  lemma LineEquipmentCells(d: Record, e: Record)
    ensures var line := EquipmentLine(d, e);
            "Equipment Name" in line && line["Equipment Name"] == Attr(e, "name") &&
            "Model/Type" in line && line["Model/Type"] == Attr(e, "model_type") &&
            "Asset ID" in line && line["Asset ID"] == Attr(e, "asset_id") &&
            "Location in Depot" in line && line["Location in Depot"] == Attr(e, "location_in_depot") &&
            "Notes" in line && line["Notes"] == Attr(e, "notes")
  {
  }

  lemma AsRowAt(r: Record, k: string)
    requires k in r
    ensures k in AsRow(r) && AsRow(r)[k] == AsCell(r[k])
  {
  }

  /** An equipment line read back plans that equipment again, with its four
      text values; a bare line plans none. */
  lemma ExportedEquipmentReplans(mode: Mode, d: Record, e: Record)
    requires Attr(d, "name").Text? && Attr(d, "name").s != "" && Attr(e, "name").Text?
    ensures PlanRow(mode, AsRow(BareLine(d))).equipment.None?
    ensures var p := PlanRow(mode, AsRow(EquipmentLine(d, e)));
            p.equipment.Some? && p.equipment.value.name == Attr(e, "name").s &&
            forall a :: a in ["model_type", "asset_id", "location_in_depot", "notes"] && Attr(e, a).Text? ==>
              Attr(p.equipment.value.defaults, a) == Attr(e, a)
  {
    DepotLineCells(d, e, BareLine(d));
    DepotLineCells(d, e, EquipmentLine(d, e));
    EquipmentLineCells(d, e);
    var bare := AsRow(BareLine(d));
    assert "Equipment Name" in bare && bare["Equipment Name"] == None;
  }
}
