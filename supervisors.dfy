/** The supervisor spreadsheet import and export (`SupervisorViewSet`).

    A supervisor is a record with the attributes `name`, `designation`,
    `mobile`, `email` and `depot`; the table of supervisors is keyed by name.
    `depot` holds `Link(k)` for the depot stored under key `k` in the depot
    table (keyed by depot name), or `Null`. */
module Supervisors {
  import opened Common
  import opened Orm

  const ExportColumns: seq<string> := ["Supervisor", "Designation", "Depot Code", "Mobile", "Email"]

  /** A new supervisor before its defaults are applied: the model's field defaults. */
  function Blank(name: string): Record
  {
    map["name" := Text(name), "designation" := Text(""), "mobile" := Text(""),
        "email" := Text(""), "depot" := Null]
  }

  /** A supervisor whose depot, if any, is a depot of the table. */
  predicate LinksInto(depots: map<string, Record>, s: Record)
  {
    Attr(s, "depot").Link? ==> Attr(s, "depot").key in depots
  }

  /** The depot a row names by its Depot Code, and the warning it reports:
      an unknown or ambiguous code leaves the supervisor without a depot. */
  function DepotOf(index: nat, depots: map<string, Record>, row: Row): (r: (Value, seq<string>))
    ensures r.0 == Null || r.0.Link?
    ensures !Truthy(Cell(row, "Depot Code")) ==> r == (Null, [])
    ensures Truthy(Cell(row, "Depot Code")) ==>
              (r.0.Link? <==> FindBy(depots, "code", Strip(row["Depot Code"].value)).Found?)
    ensures r.0.Link? ==> r.0.key in depots && Attr(depots[r.0.key], "code") == Text(Strip(row["Depot Code"].value))
    ensures r.1 == [] <==> r.0.Link? || !Truthy(Cell(row, "Depot Code"))
    ensures |r.1| <= 1
  {
    var cell := Cell(row, "Depot Code");
    if !Truthy(cell) then (Null, [])
    else
      var code := Strip(cell.value);
      match FindBy(depots, "code", code)
      case Found(k) => (Link(k), [])
      case NotFound =>
        (Null, [RowLabel(index) + "Depot with code '" + code + "' not found. Supervisor will be created without depot."])
      case Multiple =>
        (Null, [RowLabel(index) + "Multiple depots found for code '" + code + "'. Supervisor will be created without depot."])
  }

  /** `str(v).strip()` for every optional text column that is present. */
  function TextDefaults(row: Row): (d: Record)
    ensures d.Keys <= {"designation", "mobile", "email"}
    ensures "designation" in d <==> Present(row, "Designation")
    ensures "mobile" in d <==> Present(row, "Mobile")
    ensures "email" in d <==> Present(row, "Email")
  {
    var d0 := map[];
    var d1 := if Present(row, "Designation") then d0["designation" := Text(Strip(row["Designation"].value))] else d0;
    var d2 := if Present(row, "Mobile") then d1["mobile" := Text(Strip(row["Mobile"].value))] else d1;
    if Present(row, "Email") then d2["email" := Text(Strip(row["Email"].value))] else d2
  }

  /** The defaults a row with a supervisor name writes: always the depot (found
      or none), and the optional text columns that are present. */
  function RowDefaults(index: nat, depots: map<string, Record>, row: Row): (d: Record)
    ensures "depot" in d && d["depot"] == DepotOf(index, depots, row).0
    ensures d.Keys <= {"depot", "designation", "mobile", "email"}
    ensures forall a :: a in TextDefaults(row) ==> a in d && d[a] == TextDefaults(row)[a]
  {
    TextDefaults(row)["depot" := DepotOf(index, depots, row).0]
  }

  /** The stripped supervisor name of a row that has one. */
  function RowKey(row: Row): Option<string>
  {
    var name := Cell(row, "Supervisor");
    if Truthy(name) then Some(Strip(name.value)) else None
  }

  /** How the loop body treats the row at `index`: a row without a supervisor
      name is skipped with an error; any other is upserted under its stripped
      name, whether or not its depot was found. */
  function PlanRow(index: nat, depots: map<string, Record>, row: Row): (p: Plan)
    ensures p.Accept? <==> RowKey(row).Some?
    ensures p.Accept? ==> p.key == RowKey(row).value && p.blank == Blank(p.key)
    ensures p.Accept? ==> p.defaults == RowDefaults(index, depots, row) && p.errors == DepotOf(index, depots, row).1
    ensures p.Reject? ==> p.errors == [RowLabel(index) + "Missing Supervisor name."]
  {
    match RowKey(row)
    case None => Reject([RowLabel(index) + "Missing Supervisor name."])
    case Some(key) => Accept(key, Blank(key), RowDefaults(index, depots, row), DepotOf(index, depots, row).1)
  }

  function PlanRows(depots: map<string, Record>, rows: seq<Row>): (ps: seq<Plan>)
    ensures |ps| == |rows|
    ensures forall i :: 0 <= i < |rows| ==> ps[i] == PlanRow(i, depots, rows[i])
  {
    seq(|rows|, i requires 0 <= i < |rows| => PlanRow(i, depots, rows[i]))
  }

  /** The import loop over all rows of the sheet, from the stored table. */
  function ImportRows(mode: Mode, depots: map<string, Record>, table: map<string, Record>, rows: seq<Row>): State
  {
    ApplyAll(mode, table, PlanRows(depots, rows))
  }

  function Message(t: Tally): string
  {
    "Import complete. Created: " + IntToString(t.created) + ", Updated: " + IntToString(t.updated)
      + ", Skipped: " + IntToString(t.skipped) + "."
  }

  function Respond(t: Tally): ImportResponse
  {
    ReportWithErrors(Message(t), t.errors)
  }

  /** A row that names a supervisor and, if it gives a Depot Code, a depot that exists exactly once. */
  predicate WellFormed(depots: map<string, Record>, row: Row)
  {
    RowKey(row).Some? &&
    (Truthy(Cell(row, "Depot Code")) ==> FindBy(depots, "code", Strip(row["Depot Code"].value)).Found?)
  }

  /** The import of the first `i + 1` rows is the import of the first `i`
      followed by row `i`. */
  lemma ImportRowsStep(mode: Mode, depots: map<string, Record>, table: map<string, Record>, rows: seq<Row>, i: nat)
    requires i < |rows|
    ensures ImportRows(mode, depots, table, rows[..i + 1]) ==
            Apply(mode, ImportRows(mode, depots, table, rows[..i]), PlanRow(i, depots, rows[i]))
  {
    var ps := PlanRows(depots, rows[..i + 1]);
    assert ps[..i] == PlanRows(depots, rows[..i]);
  }

  class SupervisorStore {
    var supervisors: map<string, Record>

    constructor()
      ensures supervisors == map[]
    {
      supervisors := map[];
    }

    /** `import_from_excel`: upserts every row with a supervisor name, looking
        its depot up by code in `depots`, and counts and reports as it goes. */
    method ImportFromExcel(depots: map<string, Record>, upload: Upload) returns (resp: ImportResponse)
      modifies this
      ensures upload.Missing? ==> resp == NoFile && supervisors == old(supervisors)
      ensures upload.Unreadable? ==>
                resp == Failed(HTTP_400_BAD_REQUEST, "Import error: " + upload.reason + ".") &&
                supervisors == old(supervisors)
      ensures upload.Sheet? ==>
                supervisors == ImportRows(AsWritten, depots, old(supervisors), upload.rows).table &&
                resp == Respond(ImportRows(AsWritten, depots, old(supervisors), upload.rows).tally)
    {
      if upload.Missing? {
        return NoFile;
      }
      if upload.Unreadable? {
        return Failed(HTTP_400_BAD_REQUEST, "Import error: " + upload.reason + ".");
      }
      var rows := upload.rows;
      var tally := Start;
      var i := 0;
      while i < |rows|
        invariant 0 <= i <= |rows|
        invariant State(supervisors, tally) == ImportRows(AsWritten, depots, old(supervisors), rows[..i])
      {
        ImportRowsStep(AsWritten, depots, old(supervisors), rows, i);
        ghost var st := State(supervisors, tally);
        var row := rows[i];
        var name := Cell(row, "Supervisor");
        if !Truthy(name) {
          assert PlanRow(i, depots, row) == Reject([RowLabel(i) + "Missing Supervisor name."]);
          tally := tally.(skipped := tally.skipped + 1,
                          errors := tally.errors + [RowLabel(i) + "Missing Supervisor name."]);
        } else {
          var key := Strip(name.value);
          var (depot, errs) := DepotOf(i, depots, row);
          var defaults := TextDefaults(row)["depot" := depot];
          assert PlanRow(i, depots, row) == Accept(key, Blank(key), defaults, errs);
          AcceptStep(st, key, Blank(key), defaults, errs);
          tally := tally.(errors := tally.errors + errs);
          var u := UpdateOrCreate(supervisors, key, Blank(key), defaults);
          supervisors := u.table;
          if u.created {
            tally := tally.(created := tally.created + 1);
          } else if AnyDiffers(u.obj, defaults) {
            tally := tally.(updated := tally.updated + 1);
          } else {
            tally := tally.(skipped := tally.skipped + 1);
          }
        }
        i := i + 1;
      }
      assert rows[..|rows|] == rows;
      resp := Respond(tally);
    }
  }

  /** `s.depot.code if s.depot else None`. */
  function DepotCode(depots: map<string, Record>, s: Record): (v: Value)
    ensures Attr(s, "depot").Link? && Attr(s, "depot").key in depots ==> v == Attr(depots[Attr(s, "depot").key], "code")
    ensures Attr(s, "depot") == Null ==> v == Null
  {
    match Attr(s, "depot")
    case Link(k) => if k in depots then Attr(depots[k], "code") else Null
    case _ => Null
  }

  /** One exported line for a stored supervisor. */
  function ExportRow(depots: map<string, Record>, s: Record): Record
  {
    map["Supervisor" := Attr(s, "name"), "Designation" := Attr(s, "designation"),
        "Depot Code" := DepotCode(depots, s), "Mobile" := Attr(s, "mobile"), "Email" := Attr(s, "email")]
  }

  /** `export_to_excel`: one line per supervisor, in queryset order, or a single
      line of empty cells when there is none. */
  method ExportToExcel(depots: map<string, Record>, supervisors: seq<Record>) returns (data: seq<Record>)
    ensures |data| == Max(1, |supervisors|)
    ensures supervisors == [] ==> data == [NoneRow(ExportColumns)]
    ensures forall i :: 0 <= i < |supervisors| ==> data[i] == ExportRow(depots, supervisors[i])
  {
    data := [];
    for i := 0 to |supervisors|
      invariant |data| == i
      invariant forall j :: 0 <= j < i ==> data[j] == ExportRow(depots, supervisors[j])
    {
      data := data + [ExportRow(depots, supervisors[i])];
    }
    if data == [] {
      data := data + [NoneRow(ExportColumns)];
    }
  }

  // ----- Properties of the import -----

  /** Every row is counted exactly once: created, updated or skipped. */
  lemma EveryRowCounted(mode: Mode, depots: map<string, Record>, table: map<string, Record>, rows: seq<Row>)
    ensures ImportRows(mode, depots, table, rows).tally.created + ImportRows(mode, depots, table, rows).tally.updated
              + ImportRows(mode, depots, table, rows).tally.skipped == |rows|
  {
    EveryPlanCounted(mode, table, PlanRows(depots, rows));
  }

  /** As written, the import never reports an updated supervisor. */
  lemma UpdatedNeverCounted(depots: map<string, Record>, table: map<string, Record>, rows: seq<Row>)
    ensures ImportRows(AsWritten, depots, table, rows).tally.updated == 0
  {
    AsWrittenCountsNoUpdate(table, PlanRows(depots, rows));
  }

  /** The stripped names of the rows that have one. */
  function Names(rows: seq<Row>): set<string>
  {
    set i | 0 <= i < |rows| && RowKey(rows[i]).Some? :: RowKey(rows[i]).value
  }

  lemma KeysArePlannedNames(depots: map<string, Record>, rows: seq<Row>)
    ensures Keys(PlanRows(depots, rows)) == Names(rows)
  {
    KeysOfAccepted(PlanRows(depots, rows));
  }

  /** The import adds exactly the rows' supervisor names to the table, and the
      created count is the number of new supervisors; a row with an unknown
      depot is still upserted. */
  lemma ImportAddsNames(mode: Mode, depots: map<string, Record>, table: map<string, Record>, rows: seq<Row>)
    ensures ImportRows(mode, depots, table, rows).table.Keys == table.Keys + Names(rows)
    ensures |ImportRows(mode, depots, table, rows).table.Keys| ==
              |table.Keys| + ImportRows(mode, depots, table, rows).tally.created
  {
    ApplyAllAddsKeys(mode, table, PlanRows(depots, rows));
    CreatedCountsNewKeys(mode, table, PlanRows(depots, rows));
    KeysArePlannedNames(depots, rows);
  }

  /** Supervisors that no row names keep their stored record. */
  lemma OthersUntouched(mode: Mode, depots: map<string, Record>, table: map<string, Record>, rows: seq<Row>, k: string)
    requires k in table && k !in Names(rows)
    ensures k in ImportRows(mode, depots, table, rows).table &&
            ImportRows(mode, depots, table, rows).table[k] == table[k]
  {
    KeysArePlannedNames(depots, rows);
    ApplyAllKeepsOthers(mode, table, PlanRows(depots, rows), k);
  }

  /** The row's depot is always written: after a row, its supervisor's depot is
      the one its Depot Code names, or none when the code is absent, unknown or
      ambiguous; the optional text columns it has are written too. */
  lemma DepotAlwaysWritten(mode: Mode, depots: map<string, Record>, table: map<string, Record>, rows: seq<Row>, row: Row)
    requires RowKey(row).Some?
    ensures RowKey(row).value in ImportRows(mode, depots, table, rows + [row]).table
    ensures Attr(ImportRows(mode, depots, table, rows + [row]).table[RowKey(row).value], "depot") ==
              DepotOf(|rows|, depots, row).0
    ensures forall a :: a in TextDefaults(row) ==>
              Attr(ImportRows(mode, depots, table, rows + [row]).table[RowKey(row).value], a) == TextDefaults(row)[a]
  {
    var plans := PlanRows(depots, rows + [row]);
    LastRowWins(mode, table, plans, plans[|rows|]);
  }

  /** A row whose Designation, Mobile or Email cell is absent or empty leaves
      that attribute of an existing supervisor as it was. */
  lemma AbsentColumnKept(mode: Mode, depots: map<string, Record>, table: map<string, Record>, rows: seq<Row>,
                         row: Row, col: string, a: string)
    requires (col, a) in {("Designation", "designation"), ("Mobile", "mobile"), ("Email", "email")}
    requires !Present(row, col)
    requires RowKey(row).Some? && RowKey(row).value in ImportRows(mode, depots, table, rows).table
    ensures RowKey(row).value in ImportRows(mode, depots, table, rows + [row]).table
    ensures Attr(ImportRows(mode, depots, table, rows + [row]).table[RowKey(row).value], a) ==
            Attr(ImportRows(mode, depots, table, rows).table[RowKey(row).value], a)
  {
    var plans := PlanRows(depots, rows + [row]);
    assert plans[..|rows|] == PlanRows(depots, rows);
    LastRowKeeps(mode, table, plans, plans[|rows|], a);
  }

  /** An accepted row's defaults set a depot of the table or none. */
  lemma PlannedDepotLinksInto(index: nat, depots: map<string, Record>, row: Row)
    requires RowKey(row).Some?
    ensures LinksInto(depots, PlanRow(index, depots, row).blank + PlanRow(index, depots, row).defaults)
    ensures forall r :: LinksInto(depots, r + PlanRow(index, depots, row).defaults)
  {
    var d := PlanRow(index, depots, row).defaults;
    forall r
      ensures Attr(r + d, "depot") == d["depot"]
    {
      AttrMerge(r, d, "depot");
    }
  }

  /** Every stored supervisor's depot stays a depot of the table. */
  lemma DepotLinksStayValid(mode: Mode, depots: map<string, Record>, table: map<string, Record>, rows: seq<Row>)
    requires forall k :: k in table ==> LinksInto(depots, table[k])
    ensures forall k :: k in ImportRows(mode, depots, table, rows).table ==>
              LinksInto(depots, ImportRows(mode, depots, table, rows).table[k])
  {
    var plans := PlanRows(depots, rows);
    var P := (s: Record) => LinksInto(depots, s);
    forall i | 0 <= i < |plans| && plans[i].Accept?
      ensures P(plans[i].blank + plans[i].defaults)
      ensures forall r :: P(r) ==> P(r + plans[i].defaults)
    {
      PlannedDepotLinksInto(i, depots, rows[i]);
    }
    ApplyAllPreserves(mode, table, plans, P);
  }

  /** The import reports no error, and so answers 200, exactly when every row
      names a supervisor and every Depot Code given names exactly one depot. */
  lemma NoErrorsIffWellFormed(mode: Mode, depots: map<string, Record>, table: map<string, Record>, rows: seq<Row>)
    ensures ImportRows(mode, depots, table, rows).tally.errors == [] <==>
              forall i :: 0 <= i < |rows| ==> WellFormed(depots, rows[i])
    ensures Respond(ImportRows(mode, depots, table, rows).tally).status == HTTP_200_OK <==>
              forall i :: 0 <= i < |rows| ==> WellFormed(depots, rows[i])
  {
    var plans := PlanRows(depots, rows);
    ApplyAllErrors(mode, table, plans);
    NoErrorsIffNoneReported(plans);
    assert forall i :: 0 <= i < |rows| ==> (plans[i].errors == [] <==> WellFormed(depots, rows[i]));
  }

  /** A supervisor without a depot is exported with an empty Depot Code cell;
      one with a depot gets that depot's code. */
  lemma ExportedDepotCode(depots: map<string, Record>, s: Record)
    ensures Attr(s, "depot") == Null ==> ExportRow(depots, s)["Depot Code"] == Null
    ensures Attr(s, "depot").Link? && LinksInto(depots, s) ==>
              ExportRow(depots, s)["Depot Code"] == Attr(depots[Attr(s, "depot").key], "code")
  {
  }
}
