/** The circuit spreadsheet import and export (`CircuitViewSet`).

    A circuit is a record with the attributes `circuit_id`, `name`,
    `related_equipment`, `severity` and `details`; the table of circuits is
    keyed by `circuit_id`. */
module Circuits {
  import opened Common
  import opened Orm

  const ValidSeverities: seq<string> := ["Minor", "Major", "Critical"]

  const SeverityValues: set<Value> := {Text("Minor"), Text("Major"), Text("Critical")}

  const Fields: seq<string> := ["circuit_id", "name", "related_equipment", "severity", "details"]

  const ExportColumns: seq<string> := ["Circuit ID", "Name", "Related Equipment", "Severity", "Details"]

  /** A new circuit before its defaults are applied: the model's field defaults. */
  function Blank(id: string): Record
  {
    map["circuit_id" := Text(id), "name" := Text(""), "related_equipment" := Text(""),
        "severity" := Text("Minor"), "details" := Text("")]
  }

  /** A stored circuit whose severity is one of the three choices. */
  predicate ValidCircuit(c: Record)
  {
    Attr(c, "severity") in SeverityValues
  }

  /** `str(v).strip()` for every optional text column that is present. */
  function TextDefaults(row: Row): (d: Record)
    ensures d.Keys <= {"name", "related_equipment", "details"}
    ensures "name" in d <==> Present(row, "Name")
    ensures "related_equipment" in d <==> Present(row, "Related Equipment")
    ensures "details" in d <==> Present(row, "Details")
  {
    var d0 := map[];
    var d1 := if Present(row, "Name") then d0["name" := Text(Strip(row["Name"].value))] else d0;
    var d2 := if Present(row, "Related Equipment") then d1["related_equipment" := Text(Strip(row["Related Equipment"].value))] else d1;
    if Present(row, "Details") then d2["details" := Text(Strip(row["Details"].value))] else d2
  }

  /** The severity a row asks for, title-cased after stripping. */
  function SeverityOf(row: Row): string
    requires Present(row, "Severity")
  {
    Title(Strip(row["Severity"].value))
  }

  /** A row whose severity, if it has one, is not one of the three choices. */
  predicate BadSeverity(row: Row)
  {
    Present(row, "Severity") && SeverityOf(row) !in ValidSeverities
  }

  /** The defaults a row with a Circuit ID writes, and the errors it reports:
      an unknown severity is reported and replaced by Minor. */
  function RowDefaults(index: nat, row: Row): (r: (Record, seq<string>))
    ensures r.1 == [] <==> !BadSeverity(row)
    ensures Present(row, "Severity") <==> "severity" in r.0
    ensures "severity" in r.0 ==> r.0["severity"] in SeverityValues
    ensures r.0.Keys <= {"name", "related_equipment", "severity", "details"}
    ensures forall a :: a in TextDefaults(row) ==> a in r.0 && r.0[a] == TextDefaults(row)[a]
  {
    var d := TextDefaults(row);
    if !Present(row, "Severity") then (d, [])
    else if SeverityOf(row) in ValidSeverities then (d["severity" := Text(SeverityOf(row))], [])
    else
      (d["severity" := Text("Minor")],
       [RowLabel(index) + "Invalid severity '" + row["Severity"].value + "'. Defaulting to 'Minor'."])
  }

  /** The stripped Circuit ID of a row that has one. */
  function RowKey(row: Row): Option<string>
  {
    var id := Cell(row, "Circuit ID");
    if Truthy(id) then Some(Strip(id.value)) else None
  }

  /** How the loop body treats the row at `index`: a row without a Circuit ID
      is skipped with an error, any other is upserted under its stripped id. */
  function PlanRow(index: nat, row: Row): (p: Plan)
    ensures p.Accept? <==> RowKey(row).Some?
    ensures p.Accept? ==> p.key == RowKey(row).value && p.blank == Blank(p.key)
    ensures p.errors == [] <==> RowKey(row).Some? && !BadSeverity(row)
  {
    match RowKey(row)
    case None => Reject([RowLabel(index) + "Missing 'Circuit ID'."])
    case Some(key) =>
      var (defaults, errs) := RowDefaults(index, row);
      Accept(key, Blank(key), defaults, errs)
  }

  function PlanRows(rows: seq<Row>): (ps: seq<Plan>)
    ensures |ps| == |rows|
    ensures forall i :: 0 <= i < |rows| ==> ps[i] == PlanRow(i, rows[i])
  {
    seq(|rows|, i requires 0 <= i < |rows| => PlanRow(i, rows[i]))
  }

  /** The import loop over all rows of the sheet, from the stored table. */
  function ImportRows(mode: Mode, table: map<string, Record>, rows: seq<Row>): State
  {
    ApplyAll(mode, table, PlanRows(rows))
  }

  function Message(t: Tally): string
  {
    "Import complete. Created: " + IntToString(t.created) + ", Updated: " + IntToString(t.updated)
      + ", Skipped: " + IntToString(t.skipped) + "."
  }

  function Respond(t: Tally): ImportResponse
  {
    ReportWithErrors(Message(t), t.errors)
  }

  /** A row the import accepts without an error. */
  predicate WellFormed(row: Row)
  {
    RowKey(row).Some? && !BadSeverity(row)
  }

  /** The import of the first `i + 1` rows is the import of the first `i`
      followed by row `i`. */
  lemma ImportRowsStep(mode: Mode, table: map<string, Record>, rows: seq<Row>, i: nat)
    requires i < |rows|
    ensures ImportRows(mode, table, rows[..i + 1]) == Apply(mode, ImportRows(mode, table, rows[..i]), PlanRow(i, rows[i]))
  {
    var ps := PlanRows(rows[..i + 1]);
    assert ps[..i] == PlanRows(rows[..i]);
  }

  class CircuitStore {
    var circuits: map<string, Record>

    constructor()
      ensures circuits == map[]
    {
      circuits := map[];
    }

    /** `import_from_excel`: upserts every row with a Circuit ID, counting
        created, updated and skipped rows and collecting the row errors. */
    method ImportFromExcel(upload: Upload) returns (resp: ImportResponse)
      modifies this
      ensures upload.Missing? ==> resp == NoFile && circuits == old(circuits)
      ensures upload.Unreadable? ==>
                resp == Failed(HTTP_400_BAD_REQUEST, "Import error: " + upload.reason + ".") && circuits == old(circuits)
      ensures upload.Sheet? ==>
                circuits == ImportRows(AsWritten, old(circuits), upload.rows).table &&
                resp == Respond(ImportRows(AsWritten, old(circuits), upload.rows).tally)
    {
      if upload.Missing? {
        return NoFile;
      }
      if upload.Unreadable? {
        return Failed(HTTP_400_BAD_REQUEST, "Import error: " + upload.reason + ".");
      }
      var rows := upload.rows;
      var tally := Start;
      var i := 0;
      while i < |rows|
        invariant 0 <= i <= |rows|
        invariant State(circuits, tally) == ImportRows(AsWritten, old(circuits), rows[..i])
      {
        ImportRowsStep(AsWritten, old(circuits), rows, i);
        ghost var st := State(circuits, tally);
        var row := rows[i];
        var id := Cell(row, "Circuit ID");
        if !Truthy(id) {
          assert PlanRow(i, row) == Reject([RowLabel(i) + "Missing 'Circuit ID'."]);
          tally := tally.(skipped := tally.skipped + 1,
                          errors := tally.errors + [RowLabel(i) + "Missing 'Circuit ID'."]);
        } else {
          var key := Strip(id.value);
          var (defaults, errs) := RowDefaults(i, row);
          assert PlanRow(i, row) == Accept(key, Blank(key), defaults, errs);
          AcceptStep(st, key, Blank(key), defaults, errs);
          tally := tally.(errors := tally.errors + errs);
          var u := UpdateOrCreate(circuits, key, Blank(key), defaults);
          circuits := u.table;
          if u.created {
            tally := tally.(created := tally.created + 1);
          } else if AnyDiffers(u.obj, defaults) {
            tally := tally.(updated := tally.updated + 1);
          } else {
            tally := tally.(skipped := tally.skipped + 1);
          }
        }
        i := i + 1;
      }
      assert rows[..|rows|] == rows;
      resp := Respond(tally);
    }
  }

  /** One exported line for a stored circuit. */
  function ExportRow(c: Record): Record
  {
    map["Circuit ID" := Attr(c, "circuit_id"), "Name" := Attr(c, "name"),
        "Related Equipment" := Attr(c, "related_equipment"), "Severity" := Attr(c, "severity"),
        "Details" := Attr(c, "details")]
  }

  /** `export_to_excel`: one line per circuit of the queryset, in its order,
      or a single line of empty cells when there is none. */
  method ExportToExcel(circuits: seq<Record>) returns (data: seq<Record>)
    ensures |data| == Max(1, |circuits|)
    ensures circuits == [] ==> data == [NoneRow(ExportColumns)]
    ensures forall i :: 0 <= i < |circuits| ==> data[i] == ExportRow(circuits[i])
  {
    data := [];
    for i := 0 to |circuits|
      invariant |data| == i
      invariant forall j :: 0 <= j < i ==> data[j] == ExportRow(circuits[j])
    {
      data := data + [ExportRow(circuits[i])];
    }
    if data == [] {
      data := data + [NoneRow(ExportColumns)];
    }
  }

  // ----- Properties of the import -----

  /** Every row is counted exactly once: created, updated or skipped. */
  lemma EveryRowCounted(mode: Mode, table: map<string, Record>, rows: seq<Row>)
    ensures ImportRows(mode, table, rows).tally.created + ImportRows(mode, table, rows).tally.updated
              + ImportRows(mode, table, rows).tally.skipped == |rows|
  {
    EveryPlanCounted(mode, table, PlanRows(rows));
  }

  /** As written, the import never reports an updated circuit. */
  lemma UpdatedNeverCounted(table: map<string, Record>, rows: seq<Row>)
    ensures ImportRows(AsWritten, table, rows).tally.updated == 0
  {
    AsWrittenCountsNoUpdate(table, PlanRows(rows));
  }

  /** A later row with the same Circuit ID overwrites what the earlier rows
      wrote: after the import, the circuit holds every value the last row sets. */
  lemma LaterRowOverwrites(mode: Mode, table: map<string, Record>, rows: seq<Row>, row: Row)
    requires RowKey(row).Some?
    ensures RowKey(row).value in ImportRows(mode, table, rows + [row]).table
    ensures forall a :: a in RowDefaults(|rows|, row).0 ==>
              Attr(ImportRows(mode, table, rows + [row]).table[RowKey(row).value], a) == RowDefaults(|rows|, row).0[a]
  {
    var plans := PlanRows(rows + [row]);
    LastRowWins(mode, table, plans, plans[|rows|]);
  }

  /** A row whose Name, Related Equipment or Details cell is absent or empty
      leaves that attribute of an existing circuit as it was. */
  lemma AbsentColumnKept(mode: Mode, table: map<string, Record>, rows: seq<Row>, row: Row, col: string, a: string)
    requires (col, a) in {("Name", "name"), ("Related Equipment", "related_equipment"), ("Details", "details")}
    requires !Present(row, col)
    requires RowKey(row).Some? && RowKey(row).value in ImportRows(mode, table, rows).table
    ensures RowKey(row).value in ImportRows(mode, table, rows + [row]).table
    ensures Attr(ImportRows(mode, table, rows + [row]).table[RowKey(row).value], a) ==
            Attr(ImportRows(mode, table, rows).table[RowKey(row).value], a)
  {
    var plans := PlanRows(rows + [row]);
    assert plans[..|rows|] == PlanRows(rows);
    LastRowKeeps(mode, table, plans, plans[|rows|], a);
  }

  /** The stripped Circuit IDs of the rows that have one. */
  function Ids(rows: seq<Row>): set<string>
  {
    set i | 0 <= i < |rows| && RowKey(rows[i]).Some? :: RowKey(rows[i]).value
  }

  lemma KeysArePlannedIds(rows: seq<Row>)
    ensures Keys(PlanRows(rows)) == Ids(rows)
  {
    KeysOfAccepted(PlanRows(rows));
  }

  /** The import adds exactly the rows' circuit IDs to the table, and the
      created count is the number of new circuits. */
  lemma ImportAddsIds(mode: Mode, table: map<string, Record>, rows: seq<Row>)
    ensures ImportRows(mode, table, rows).table.Keys == table.Keys + Ids(rows)
    ensures |ImportRows(mode, table, rows).table.Keys| == |table.Keys| + ImportRows(mode, table, rows).tally.created
  {
    ApplyAllAddsKeys(mode, table, PlanRows(rows));
    CreatedCountsNewKeys(mode, table, PlanRows(rows));
    KeysArePlannedIds(rows);
  }

  /** Circuits that no row names keep their stored record. */
  lemma OthersUntouched(mode: Mode, table: map<string, Record>, rows: seq<Row>, k: string)
    requires k in table && k !in Ids(rows)
    ensures k in ImportRows(mode, table, rows).table && ImportRows(mode, table, rows).table[k] == table[k]
  {
    KeysArePlannedIds(rows);
    ApplyAllKeepsOthers(mode, table, PlanRows(rows), k);
  }

  /** Every stored severity stays one of the three choices. */
  lemma SeveritiesStayValid(mode: Mode, table: map<string, Record>, rows: seq<Row>)
    requires forall k :: k in table ==> ValidCircuit(table[k])
    ensures forall k :: k in ImportRows(mode, table, rows).table ==> ValidCircuit(ImportRows(mode, table, rows).table[k])
  {
    var plans := PlanRows(rows);
    forall i | 0 <= i < |plans| && plans[i].Accept?
      ensures ValidCircuit(plans[i].blank + plans[i].defaults)
      ensures forall r :: ValidCircuit(r) ==> ValidCircuit(r + plans[i].defaults)
    {
      var d := plans[i].defaults;
      assert "severity" in d ==> d["severity"] in SeverityValues;
    }
    ApplyAllPreserves(mode, table, plans, ValidCircuit);
  }

  /** The import reports no error, and so answers 200, exactly when every row
      has a Circuit ID and an acceptable severity. */
  lemma NoErrorsIffWellFormed(mode: Mode, table: map<string, Record>, rows: seq<Row>)
    ensures ImportRows(mode, table, rows).tally.errors == [] <==> forall i :: 0 <= i < |rows| ==> WellFormed(rows[i])
    ensures Respond(ImportRows(mode, table, rows).tally).status == HTTP_200_OK <==>
              forall i :: 0 <= i < |rows| ==> WellFormed(rows[i])
  {
    ApplyAllErrors(mode, table, PlanRows(rows));
    NoErrorsIffNoneReported(PlanRows(rows));
  }

  /** An attribute holding text without surrounding whitespace. */
  predicate TextAttr(c: Record, f: string)
  {
    f in c && c[f].Text? && Stripped(c[f].s)
  }

  /** A circuit that an export line describes exactly: all five attributes
      are text without surrounding spaces, a non-empty id and a valid severity. */
  predicate Exportable(c: Record)
  {
    TextAttr(c, "circuit_id") && TextAttr(c, "name") && TextAttr(c, "related_equipment") &&
    TextAttr(c, "severity") && TextAttr(c, "details") &&
    c["circuit_id"].s != "" && c["severity"] in SeverityValues
  }

  lemma ValidSeveritiesAreTitled(s: string)
    requires Text(s) in SeverityValues
    ensures Title(s) == s && s in ValidSeverities
  {
    TitleOfCapitalized(s);
  }

  /** The cells of a circuit's export line, read back. */
  lemma ExportedCells(c: Record)
    requires Exportable(c)
    ensures Cell(AsRow(ExportRow(c)), "Circuit ID") == Some(c["circuit_id"].s)
    ensures "Name" in AsRow(ExportRow(c)) && AsRow(ExportRow(c))["Name"] == Some(c["name"].s)
    ensures "Related Equipment" in AsRow(ExportRow(c)) &&
            AsRow(ExportRow(c))["Related Equipment"] == Some(c["related_equipment"].s)
    ensures "Details" in AsRow(ExportRow(c)) && AsRow(ExportRow(c))["Details"] == Some(c["details"].s)
    ensures "Severity" in AsRow(ExportRow(c)) && AsRow(ExportRow(c))["Severity"] == Some(c["severity"].s)
  {
  }

  /** A row with a stripped, non-empty Circuit ID and a valid severity is
      accepted under that id without an error. */
  lemma FilledRowAccepted(index: nat, row: Row, id: string, severity: string)
    requires Cell(row, "Circuit ID") == Some(id) && id != "" && Stripped(id)
    requires "Severity" in row && row["Severity"] == Some(severity) && Stripped(severity)
    requires Text(severity) in SeverityValues
    ensures PlanRow(index, row).Accept? && PlanRow(index, row).key == id && PlanRow(index, row).errors == []
  {
    ValidSeveritiesAreTitled(severity);
  }

  /** A row whose four other cells hold stripped text and a valid severity
      writes those four values unchanged. */
  lemma FilledRowDefaults(index: nat, row: Row, name: string, equipment: string, severity: string, details: string)
    requires "Name" in row && row["Name"] == Some(name) && Stripped(name)
    requires "Related Equipment" in row && row["Related Equipment"] == Some(equipment) && Stripped(equipment)
    requires "Details" in row && row["Details"] == Some(details) && Stripped(details)
    requires "Severity" in row && row["Severity"] == Some(severity) && Stripped(severity)
    requires Text(severity) in SeverityValues
    ensures Attr(RowDefaults(index, row).0, "name") == Text(name)
    ensures Attr(RowDefaults(index, row).0, "related_equipment") == Text(equipment)
    ensures Attr(RowDefaults(index, row).0, "details") == Text(details)
    ensures Attr(RowDefaults(index, row).0, "severity") == Text(severity)
  {
    ValidSeveritiesAreTitled(severity);
  }

  /** The plan of a circuit's own export line: upsert all four attributes
      under its id, without an error. */
  lemma ExportedRowPlan(index: nat, c: Record)
    requires Exportable(c)
    ensures PlanRow(index, AsRow(ExportRow(c))).Accept?
    ensures PlanRow(index, AsRow(ExportRow(c))).key == c["circuit_id"].s
    ensures PlanRow(index, AsRow(ExportRow(c))).errors == []
    ensures Attr(PlanRow(index, AsRow(ExportRow(c))).defaults, "name") == c["name"]
    ensures Attr(PlanRow(index, AsRow(ExportRow(c))).defaults, "related_equipment") == c["related_equipment"]
    ensures Attr(PlanRow(index, AsRow(ExportRow(c))).defaults, "severity") == c["severity"]
    ensures Attr(PlanRow(index, AsRow(ExportRow(c))).defaults, "details") == c["details"]
    ensures "circuit_id" !in PlanRow(index, AsRow(ExportRow(c))).defaults
  {
    var row := AsRow(ExportRow(c));
    ExportedCells(c);
    FilledRowAccepted(index, row, c["circuit_id"].s, c["severity"].s);
    FilledRowDefaults(index, row, c["name"].s, c["related_equipment"].s, c["severity"].s, c["details"].s);
  }

  /** Upserting a plan that carries a circuit's four attributes under its id
      leaves exactly that circuit stored under the id. */
  lemma PlanRestores(mode: Mode, table: map<string, Record>, p: Plan, c: Record)
    requires Exportable(c)
    requires p.Accept? && p.key == c["circuit_id"].s && p.blank == Blank(p.key)
    requires p.key in table ==> Attr(table[p.key], "circuit_id") == c["circuit_id"]
    requires Attr(p.defaults, "name") == c["name"] && Attr(p.defaults, "related_equipment") == c["related_equipment"]
    requires Attr(p.defaults, "severity") == c["severity"] && Attr(p.defaults, "details") == c["details"]
    requires "circuit_id" !in p.defaults
    ensures p.key in ApplyAll(mode, table, [p]).table
    ensures Restored(ApplyAll(mode, table, [p]).table[p.key], c)
  {
    ApplyOne(mode, table, p);
    var base := if p.key in table then table[p.key] else p.blank;
    AttrMerge(base, p.defaults, "circuit_id");
    AttrMerge(base, p.defaults, "name");
    AttrMerge(base, p.defaults, "related_equipment");
    AttrMerge(base, p.defaults, "severity");
    AttrMerge(base, p.defaults, "details");
  }

  /** A stored record that holds each of the five attributes of `c`. */
  predicate Restored(r: Record, c: Record)
  {
    Attr(r, "circuit_id") == Attr(c, "circuit_id") && Attr(r, "name") == Attr(c, "name") &&
    Attr(r, "related_equipment") == Attr(c, "related_equipment") &&
    Attr(r, "severity") == Attr(c, "severity") && Attr(r, "details") == Attr(c, "details")
  }

  /** Importing a circuit's own export line restores all five of its
      attributes, whatever the table held under its id before (given the
      stored record carries that id). */
  lemma ExportImportRoundTrip(mode: Mode, table: map<string, Record>, c: Record)
    requires Exportable(c)
    requires c["circuit_id"].s in table ==> Attr(table[c["circuit_id"].s], "circuit_id") == c["circuit_id"]
    ensures c["circuit_id"].s in ImportRows(mode, table, [AsRow(ExportRow(c))]).table
    ensures Restored(ImportRows(mode, table, [AsRow(ExportRow(c))]).table[c["circuit_id"].s], c)
  {
    var p := PlanRow(0, AsRow(ExportRow(c)));
    assert PlanRows([AsRow(ExportRow(c))]) == [p];
    ExportedRowPlan(0, c);
    PlanRestores(mode, table, p, c);
  }

  lemma IntendedUpdatedIffChanged(st: State, index: nat, row: Row)
    requires forall k :: k in st.table ==> forall f :: f in Fields ==> f in st.table[k]
    ensures Apply(Intended, st, PlanRow(index, row)).tally.updated == st.tally.updated + 1 <==>
              exists k :: k in st.table && k in Apply(Intended, st, PlanRow(index, row)).table &&
                          Apply(Intended, st, PlanRow(index, row)).table[k] != st.table[k]
  {
    if RowKey(row).Some? {
      var key := RowKey(row).value;
      var defaults := RowDefaults(index, row).0;
      assert defaults.Keys <= set f | f in Fields;
      ClassifyMatchesStoredChange(st.table, key, Blank(key), defaults);
    }
  }
}
