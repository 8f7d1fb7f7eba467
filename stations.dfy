/** The station and station-equipment spreadsheet import and export
    (`StationViewSet`).

    A station is a record with `code`, `name`, `category` and `depot`
    (`Link(k)` for the depot stored under `k`); the station table is keyed by
    code.  A piece of station equipment is keyed by its station's code and its
    own name, and holds `station`, `name`, `category`, `make_modal`,
    `address`, `location_in_station` and `quantity`. */
module Stations {
  import opened Common
  import opened Orm

  const ExportColumns: seq<string> :=
    ["Depot", "Sation Name", "Station Code", "Category", "Equipment Name", "Make", "Model", "Address", "Location", "Quantity"]

  /** The separator that joins Make and Model into `make_modal`. */
  const Sep: string := " / "

  type EquipmentKey = (string, string)

  /** A new station before its defaults are applied. */
  function StationBlank(code: string): Record
  {
    map["code" := Text(code), "name" := Text(""), "category" := Text(""), "depot" := Null]
  }

  /** A new piece of equipment before its defaults are applied. */
  function EquipmentBlank(code: string, name: string): Record
  {
    map["station" := Link(code), "name" := Text(name), "category" := Text(""), "make_modal" := Text(""),
        "address" := Text(""), "location_in_station" := Text(""), "quantity" := Num(1)]
  }

  // ----- Make and Model -----

  /** `make_modal` from the stripped Make and Model cells: both joined by
      " / ", else the one that is non-empty, else nothing is written. */
  function MakeModal(make: string, model: string): Option<string>
  {
    if make != "" && model != "" then Some(make + Sep + model)
    else if make != "" then Some(make)
    else if model != "" then Some(model)
    else None
  }

  /** The export's split of `make_modal` into Make and Model: the first two
      " / "-separated parts when it contains the separator, else the whole
      value and an empty Model. */
  function SplitMakeModal(mm: string): (string, string)
  {
    if mm != "" && Contains(mm, Sep) then
      var parts := Split(mm, Sep) + [""];
      (parts[0], parts[1])
    else (mm, "")
  }

  predicate NoSlash(s: string)
  {
    forall i :: 0 <= i < |s| ==> s[i] != '/'
  }

  lemma NoSlashNoSep(s: string)
    requires NoSlash(s)
    ensures !Contains(s, Sep)
  {
    forall j | 0 <= j <= |s|
      ensures !StartsWith(s[j..], Sep)
    {
      if j + |Sep| <= |s| {
        assert s[j..][1] == s[j + 1];
      }
    }
  }

  lemma NoSepBefore(make: string, model: string, j: nat)
    requires NoSlash(make) && j < |make|
    ensures !StartsWith((make + Sep + model)[j..], Sep)
  {
    var s := make + Sep + model;
    if j + 1 < |make| {
      assert s[j + 1] == make[j + 1];
    } else {
      assert s[j + 1] == Sep[0];
    }
    assert s[j..][1] == s[j + 1];
  }

  lemma FirstSepAfter(make: string, model: string)
    requires NoSlash(make)
    ensures IndexOf(make + Sep + model, Sep) == Some(|make|)
  {
    var s := make + Sep + model;
    assert s[|make|..][..|Sep|] == Sep;
    forall j: nat | j < |make|
      ensures !StartsWith(s[j..], Sep)
    {
      NoSepBefore(make, model, j);
    }
    var r := IndexOf(s, Sep);
    assert r.Some?;
    assert s[r.value..][..|Sep|] == s[r.value..r.value + |Sep|];
    assert StartsWith(s[r.value..], Sep);
  }

  /** Make and Model that are both given and contain no '/' come back from
      the export exactly. */
  lemma MakeModelRoundTrip(make: string, model: string)
    requires make != "" && model != "" && NoSlash(make) && NoSlash(model)
    ensures SplitMakeModal(MakeModal(make, model).value) == (make, model)
  {
    var s := make + Sep + model;
    assert MakeModal(make, model) == Some(s);
    FirstSepAfter(make, model);
    NoSlashNoSep(model);
    assert s[..|make|] == make;
    assert s[|make| + |Sep|..] == model;
    assert Split(model, Sep) == [model];
    assert Split(s, Sep) == [make, model];
  }

  /** A single Make or Model without the separator is exported as the Make
      cell, and importing that line writes the same `make_modal` again. */
  lemma SingleMakeModelStable(make: string, model: string)
    requires (make == "") != (model == "") && NoSlash(make) && NoSlash(model)
    ensures SplitMakeModal(MakeModal(make, model).value) == (MakeModal(make, model).value, "")
    ensures MakeModal(SplitMakeModal(MakeModal(make, model).value).0, "") == MakeModal(make, model)
  {
    NoSlashNoSep(make);
    NoSlashNoSep(model);
  }

  // ----- Reading a row -----

  /** The station defaults: always the depot and the stripped name, and the
      stripped category when the column is present. */
  function StationDefaults(row: Row, depot: string, name: string): (d: Record)
    ensures "depot" in d && d["depot"] == Link(depot) && "name" in d && d["name"] == Text(name)
    ensures "category" in d <==> Present(row, "Category")
    ensures d.Keys <= {"depot", "name", "category"}
  {
    var d := map["depot" := Link(depot), "name" := Text(name)];
    if Present(row, "Category") then d["category" := Text(Strip(row["Category"].value))] else d
  }

  /** `str(row.get(col, '') or '').strip()`. */
  function StrippedOrEmpty(row: Row, col: string): string
  {
    Strip(CellOr(row, col, ""))
  }

  /** The equipment category: Equipment Category when present, else Category. */
  function EquipmentCategory(row: Row): Option<string>
  {
    if Present(row, "Equipment Category") then Some(Strip(row["Equipment Category"].value))
    else if Present(row, "Category") then Some(Strip(row["Category"].value))
    else None
  }

  /** The equipment defaults of a row. */
  function EquipmentDefaults(row: Row): (d: Record)
    ensures "make_modal" in d <==> MakeModal(StrippedOrEmpty(row, "Make"), StrippedOrEmpty(row, "Model")).Some?
    ensures "make_modal" in d ==> d["make_modal"] == Text(MakeModal(StrippedOrEmpty(row, "Make"), StrippedOrEmpty(row, "Model")).value)
    ensures "category" in d <==> EquipmentCategory(row).Some?
    ensures d.Keys <= {"make_modal", "address", "location_in_station", "category"}
  {
    var d0 := match MakeModal(StrippedOrEmpty(row, "Make"), StrippedOrEmpty(row, "Model"))
              case Some(mm) => map["make_modal" := Text(mm)]
              case None => map[];
    var d1 := if Present(row, "Address") then d0["address" := Text(Strip(row["Address"].value))] else d0;
    var d2 := if Present(row, "Location") then d1["location_in_station" := Text(Strip(row["Location"].value))] else d1;
    match EquipmentCategory(row)
    case Some(c) => d2["category" := Text(c)]
    case None => d2
  }

  datatype EquipmentPlan = EquipmentPlan(name: string, defaults: Record)

  /** The equipment a row names, if its Equipment Name is non-empty after stripping. */
  function EquipmentOf(row: Row): (e: Option<EquipmentPlan>)
    ensures e.Some? <==> Truthy(Cell(row, "Equipment Name")) && Strip(row["Equipment Name"].value) != ""
    ensures e.Some? ==> e.value.name == Strip(row["Equipment Name"].value) && e.value.defaults == EquipmentDefaults(row)
  {
    var cell := Cell(row, "Equipment Name");
    if !Truthy(cell) then None
    else
      var name := Strip(cell.value);
      if name == "" then None else Some(EquipmentPlan(name, EquipmentDefaults(row)))
  }

  /** What one row asks for: to be skipped with an error, or a station upsert
      under its code and, optionally, an equipment upsert. */
  datatype StationPlan =
    | SkipRow(error: string)
    | UpsertStation(code: string, defaults: Record, equipment: Option<EquipmentPlan>)

  /** A row with Depot, Sation Name and Station Code whose depot code names exactly one depot. */
  predicate Passes(depots: map<string, Record>, row: Row)
  {
    Truthy(Cell(row, "Depot")) && Truthy(Cell(row, "Sation Name")) && Truthy(Cell(row, "Station Code")) &&
    FindBy(depots, "code", Strip(row["Depot"].value)).Found?
  }

  function PlanRow(index: nat, depots: map<string, Record>, row: Row): (p: StationPlan)
    ensures p.UpsertStation? <==> Passes(depots, row)
    ensures p.UpsertStation? ==> p.code == Strip(row["Station Code"].value) && p.equipment == EquipmentOf(row)
    ensures p.UpsertStation? ==> p.defaults == StationDefaults(row, FindBy(depots, "code", Strip(row["Depot"].value)).key,
                                                         Strip(row["Sation Name"].value))
  {
    var depotCell := Cell(row, "Depot");
    var nameCell := Cell(row, "Sation Name");
    var codeCell := Cell(row, "Station Code");
    if !Truthy(depotCell) || !Truthy(nameCell) || !Truthy(codeCell) then
      SkipRow(RowLabel(index) + "Missing Depot, Station Name, or Station Code.")
    else
      var depotCode := Strip(depotCell.value);
      match FindBy(depots, "code", depotCode)
      case NotFound => SkipRow(RowLabel(index) + "Depot with code '" + depotCode + "' not found.")
      case Multiple => SkipRow(RowLabel(index) + "Multiple depots found for code '" + depotCode + "'.")
      case Found(d) =>
        UpsertStation(Strip(codeCell.value), StationDefaults(row, d, Strip(nameCell.value)), EquipmentOf(row))
  }

  function PlanRows(depots: map<string, Record>, rows: seq<Row>): (ps: seq<StationPlan>)
    ensures |ps| == |rows|
    ensures forall i :: 0 <= i < |rows| ==> ps[i] == PlanRow(i, depots, rows[i])
  {
    seq(|rows|, i requires 0 <= i < |rows| => PlanRow(i, depots, rows[i]))
  }

  // ----- The import loop -----

  datatype StationTally = StationTally(processed: int, stationsCreated: int, equipmentsCreated: int,
                         stationsUpdated: int, equipmentsUpdated: int, skipped: int, errors: seq<string>)

  datatype StationState = StationState(stations: map<string, Record>, equipments: map<EquipmentKey, Record>, tally: StationTally)

  const Zero := StationTally(0, 0, 0, 0, 0, 0, [])

  /** The station counters after the station upsert. */
  function CountStation(t: StationTally, c: Change): StationTally
  {
    if c == Created then t.(stationsCreated := t.stationsCreated + 1)
    else if c == Updated then t.(stationsUpdated := t.stationsUpdated + 1)
    else t
  }

  /** The counters after the equipment part of a row: `ec` is how the
      equipment upsert was classified, or None when the row names no
      equipment; `same` says that the station upsert changed nothing, which
      makes the row count as skipped unless its equipment was created or
      updated. */
  function CountEquipment(t: StationTally, same: bool, ec: Option<Change>): StationTally
  {
    match ec
    case Some(Created) => t.(equipmentsCreated := t.equipmentsCreated + 1)
    case Some(Updated) => t.(equipmentsUpdated := t.equipmentsUpdated + 1)
    case _ => t.(skipped := t.skipped + BoolToNat(same))
  }

  /** All the counters a row that passed the checks moves. */
  function CountRow(t: StationTally, sc: Change, ec: Option<Change>): StationTally
  {
    var t2 := CountEquipment(CountStation(t, sc), sc == Unchanged, ec);
    t2.(processed := t2.processed + 1)
  }

  /** The equipment table after the equipment part of a row. */
  function EquipmentTable(equipments: map<EquipmentKey, Record>, code: string, eq: Option<EquipmentPlan>): map<EquipmentKey, Record>
  {
    match eq
    case None => equipments
    case Some(e) => UpdateOrCreate(equipments, (code, e.name), EquipmentBlank(code, e.name), e.defaults).table
  }

  /** How the equipment upsert of a row is classified, if the row names equipment. */
  function EquipmentChange(mode: Mode, equipments: map<EquipmentKey, Record>, code: string,
                           eq: Option<EquipmentPlan>): Option<Change>
  {
    match eq
    case None => None
    case Some(e) => Some(Outcome(mode, equipments, (code, e.name), EquipmentBlank(code, e.name), e.defaults))
  }

  /** One pass of the loop body. */
  function ApplyRow(mode: Mode, st: StationState, p: StationPlan): StationState
  {
    match p
    case SkipRow(e) => st.(tally := st.tally.(skipped := st.tally.skipped + 1, errors := st.tally.errors + [e]))
    case UpsertStation(code, d, eq) =>
      StationState(UpdateOrCreate(st.stations, code, StationBlank(code), d).table,
                   EquipmentTable(st.equipments, code, eq),
                   CountRow(st.tally, Outcome(mode, st.stations, code, StationBlank(code), d),
                            EquipmentChange(mode, st.equipments, code, eq)))
  }

  function ApplyRows(mode: Mode, st: StationState, plans: seq<StationPlan>): StationState
    decreases |plans|
  {
    if plans == [] then st else ApplyRow(mode, ApplyRows(mode, st, plans[..|plans| - 1]), plans[|plans| - 1])
  }

  function ImportRows(mode: Mode, depots: map<string, Record>, stations: map<string, Record>,
                      equipments: map<EquipmentKey, Record>, rows: seq<Row>): StationState
  {
    ApplyRows(mode, StationState(stations, equipments, Zero), PlanRows(depots, rows))
  }

  lemma ImportRowsStep(mode: Mode, depots: map<string, Record>, stations: map<string, Record>,
                       equipments: map<EquipmentKey, Record>, rows: seq<Row>, i: nat)
    requires i < |rows|
    ensures ImportRows(mode, depots, stations, equipments, rows[..i + 1]) ==
            ApplyRow(mode, ImportRows(mode, depots, stations, equipments, rows[..i]), PlanRow(i, depots, rows[i]))
  {
    var ps := PlanRows(depots, rows[..i + 1]);
    assert ps[..i] == PlanRows(depots, rows[..i]);
  }

  function Message(t: StationTally): string
  {
    "Import done. Rows processed: " + IntToString(t.processed) + ". Created(Stn/Eqp): " + IntToString(t.stationsCreated)
      + "/" + IntToString(t.equipmentsCreated) + ". Updated(Stn/Eqp): " + IntToString(t.stationsUpdated) + "/"
      + IntToString(t.equipmentsUpdated) + ". Skipped: " + IntToString(t.skipped) + "."
  }

  function Respond(t: StationTally): ImportResponse
  {
    ReportWithErrors(Message(t), t.errors)
  }

  class StationStore {
    var stations: map<string, Record>
    var equipments: map<EquipmentKey, Record>

    constructor()
      ensures stations == map[] && equipments == map[]
    {
      stations := map[];
      equipments := map[];
    }

    /** `import_stations_file`: upserts the station of every row that passes
        the checks, and its equipment when the row names one. */
    method ImportStationsFile(depots: map<string, Record>, upload: Upload) returns (resp: ImportResponse)
      modifies this
      ensures upload.Missing? ==> resp == NoFile && stations == old(stations) && equipments == old(equipments)
      ensures upload.Unreadable? ==>
                resp == Failed(HTTP_400_BAD_REQUEST, "Import error: " + upload.reason + ".") &&
                stations == old(stations) && equipments == old(equipments)
      ensures upload.Sheet? ==>
                stations == ImportRows(AsWritten, depots, old(stations), old(equipments), upload.rows).stations &&
                equipments == ImportRows(AsWritten, depots, old(stations), old(equipments), upload.rows).equipments &&
                resp == Respond(ImportRows(AsWritten, depots, old(stations), old(equipments), upload.rows).tally)
    {
      if upload.Missing? {
        return NoFile;
      }
      if upload.Unreadable? {
        return Failed(HTTP_400_BAD_REQUEST, "Import error: " + upload.reason + ".");
      }
      var rows := upload.rows;
      var tally := Zero;
      var i := 0;
      while i < |rows|
        invariant 0 <= i <= |rows|
        invariant StationState(stations, equipments, tally) == ImportRows(AsWritten, depots, old(stations), old(equipments), rows[..i])
      {
        ImportRowsStep(AsWritten, depots, old(stations), old(equipments), rows, i);
        tally := ImportRow(depots, i, rows[i], tally);
        i := i + 1;
      }
      assert rows[..|rows|] == rows;
      resp := Respond(tally);
    }

    /** The body of the import loop for the row at `index`. */
    method ImportRow(depots: map<string, Record>, index: nat, row: Row, tally: StationTally) returns (t: StationTally)
      modifies this
      ensures StationState(stations, equipments, t) ==
              ApplyRow(AsWritten, StationState(old(stations), old(equipments), tally), PlanRow(index, depots, row))
    {
      var depotCell := Cell(row, "Depot");
      var nameCell := Cell(row, "Sation Name");
      var codeCell := Cell(row, "Station Code");
      if !Truthy(depotCell) || !Truthy(nameCell) || !Truthy(codeCell) {
        var e := RowLabel(index) + "Missing Depot, Station Name, or Station Code.";
        assert PlanRow(index, depots, row) == SkipRow(e);
        return tally.(errors := tally.errors + [e], skipped := tally.skipped + 1);
      }
      var depotCode := Strip(depotCell.value);
      var name := Strip(nameCell.value);
      var code := Strip(codeCell.value);
      var depot := FindBy(depots, "code", depotCode);
      if depot.NotFound? {
        var e := RowLabel(index) + "Depot with code '" + depotCode + "' not found.";
        assert PlanRow(index, depots, row) == SkipRow(e);
        return tally.(errors := tally.errors + [e], skipped := tally.skipped + 1);
      }
      if depot.Multiple? {
        var e := RowLabel(index) + "Multiple depots found for code '" + depotCode + "'.";
        assert PlanRow(index, depots, row) == SkipRow(e);
        return tally.(errors := tally.errors + [e], skipped := tally.skipped + 1);
      }
      var defaults := StationDefaults(row, depot.key, name);
      assert PlanRow(index, depots, row) == UpsertStation(code, defaults, EquipmentOf(row));
      t := ImportStation(row, code, defaults, tally);
    }

    /** The station upsert of a row that passed the checks, then its equipment. */
    method ImportStation(row: Row, code: string, defaults: Record, tally: StationTally) returns (t: StationTally)
      modifies this
      ensures StationState(stations, equipments, t) ==
              ApplyRow(AsWritten, StationState(old(stations), old(equipments), tally), UpsertStation(code, defaults, EquipmentOf(row)))
    {
      var su := UpdateOrCreate(stations, code, StationBlank(code), defaults);
      stations := su.table;
      t := tally;
      if su.created {
        t := t.(stationsCreated := t.stationsCreated + 1);
      } else if AnyDiffers(su.obj, defaults) {
        t := t.(stationsUpdated := t.stationsUpdated + 1);
      }
      var stationSame := !su.created && !AnyDiffers(su.obj, defaults);
      t := ImportEquipment(row, code, stationSame, t);
      t := t.(processed := t.processed + 1);
    }

    /** The equipment part of the loop body for a row whose station is `code`. */
    method ImportEquipment(row: Row, code: string, stationSame: bool, tally: StationTally) returns (t: StationTally)
      modifies this
      ensures stations == old(stations)
      ensures equipments == EquipmentTable(old(equipments), code, EquipmentOf(row))
      ensures t == CountEquipment(tally, stationSame, EquipmentChange(AsWritten, old(equipments), code, EquipmentOf(row)))
    {
      t := tally;
      var equipCell := Cell(row, "Equipment Name");
      if Truthy(equipCell) {
        var equipName := Strip(equipCell.value);
        if equipName != "" {
          var equipDefaults := EquipmentDefaults(row);
          var eu := UpdateOrCreate(equipments, (code, equipName), EquipmentBlank(code, equipName), equipDefaults);
          equipments := eu.table;
          if eu.created {
            t := t.(equipmentsCreated := t.equipmentsCreated + 1);
          } else if AnyDiffers(eu.obj, equipDefaults) {
            t := t.(equipmentsUpdated := t.equipmentsUpdated + 1);
          } else {
            t := t.(skipped := t.skipped + BoolToNat(stationSame));
          }
        } else {
          t := t.(skipped := t.skipped + BoolToNat(stationSame));
        }
      } else if stationSame {
        t := t.(skipped := t.skipped + 1);
      }
    }
  }

  // ----- Properties of the import -----

  function StationKeyOf(p: StationPlan): set<string>
  {
    if p.UpsertStation? then {p.code} else {}
  }

  function EquipmentKeyOf(p: StationPlan): set<EquipmentKey>
  {
    if p.UpsertStation? && p.equipment.Some? then {(p.code, p.equipment.value.name)} else {}
  }

  /** The station codes the plans upsert. */
  function Codes(plans: seq<StationPlan>): set<string>
    decreases |plans|
  {
    if plans == [] then {} else Codes(plans[..|plans| - 1]) + StationKeyOf(plans[|plans| - 1])
  }

  /** The equipment keys the plans upsert. */
  function EquipmentKeys(plans: seq<StationPlan>): set<EquipmentKey>
    decreases |plans|
  {
    if plans == [] then {} else EquipmentKeys(plans[..|plans| - 1]) + EquipmentKeyOf(plans[|plans| - 1])
  }

  /** The errors of the skipped rows, in sheet order. */
  function SkipErrors(plans: seq<StationPlan>): seq<string>
    decreases |plans|
  {
    if plans == [] then []
    else SkipErrors(plans[..|plans| - 1]) + (if plans[|plans| - 1].SkipRow? then [plans[|plans| - 1].error] else [])
  }

  /** What a row that passed the checks does to each counter. */
  lemma CountRowFacts(t: StationTally, sc: Change, ec: Option<Change>)
    ensures CountRow(t, sc, ec).errors == t.errors && CountRow(t, sc, ec).processed == t.processed + 1
    ensures t.skipped <= CountRow(t, sc, ec).skipped <= t.skipped + 1
    ensures CountRow(t, sc, ec).stationsCreated == t.stationsCreated + (if sc == Created then 1 else 0)
    ensures CountRow(t, sc, ec).stationsUpdated == t.stationsUpdated + (if sc == Updated then 1 else 0)
    ensures CountRow(t, sc, ec).equipmentsCreated == t.equipmentsCreated + (if ec == Some(Created) then 1 else 0)
    ensures CountRow(t, sc, ec).equipmentsUpdated == t.equipmentsUpdated + (if ec == Some(Updated) then 1 else 0)
  {
  }

  /** What one row does to the error list and the processed counter. */
  lemma RowCounts(mode: Mode, st: StationState, p: StationPlan)
    ensures ApplyRow(mode, st, p).tally.errors == st.tally.errors + (if p.SkipRow? then [p.error] else [])
    ensures ApplyRow(mode, st, p).tally.processed == st.tally.processed + (if p.SkipRow? then 0 else 1)
    ensures st.tally.skipped + (if p.SkipRow? then 1 else 0) <= ApplyRow(mode, st, p).tally.skipped <= st.tally.skipped + 1
  {
    if p.UpsertStation? {
      CountRowFacts(st.tally, Outcome(mode, st.stations, p.code, StationBlank(p.code), p.defaults),
                    EquipmentChange(mode, st.equipments, p.code, p.equipment));
    }
  }

  /** What one row does to the tables' keys. */
  lemma RowKeys(mode: Mode, st: StationState, p: StationPlan)
    ensures ApplyRow(mode, st, p).stations.Keys == st.stations.Keys + StationKeyOf(p)
    ensures ApplyRow(mode, st, p).equipments.Keys == st.equipments.Keys + EquipmentKeyOf(p)
  {
  }

  /** An equipment upsert classified as created adds exactly one key. */
  lemma EquipmentCreated(mode: Mode, equipments: map<EquipmentKey, Record>, code: string, eq: Option<EquipmentPlan>)
    ensures |EquipmentTable(equipments, code, eq).Keys| ==
            |equipments.Keys| + (if EquipmentChange(mode, equipments, code, eq) == Some(Created) then 1 else 0)
  {
    if eq.Some? {
      var e := eq.value;
      UpsertCountsKey(mode, equipments, (code, e.name), EquipmentBlank(code, e.name), e.defaults);
    }
  }

  /** What one row does to the created counters. */
  lemma RowCreated(mode: Mode, st: StationState, p: StationPlan)
    ensures |ApplyRow(mode, st, p).stations.Keys| ==
            |st.stations.Keys| + ApplyRow(mode, st, p).tally.stationsCreated - st.tally.stationsCreated
    ensures |ApplyRow(mode, st, p).equipments.Keys| ==
            |st.equipments.Keys| + ApplyRow(mode, st, p).tally.equipmentsCreated - st.tally.equipmentsCreated
  {
    if p.UpsertStation? {
      CountRowFacts(st.tally, Outcome(mode, st.stations, p.code, StationBlank(p.code), p.defaults),
                    EquipmentChange(mode, st.equipments, p.code, p.equipment));
      UpsertCountsKey(mode, st.stations, p.code, StationBlank(p.code), p.defaults);
      EquipmentCreated(mode, st.equipments, p.code, p.equipment);
    }
  }

  lemma {:induction false} FoldCounts(mode: Mode, st: StationState, plans: seq<StationPlan>)
    ensures ApplyRows(mode, st, plans).tally.errors == st.tally.errors + SkipErrors(plans)
    ensures ApplyRows(mode, st, plans).tally.processed + |SkipErrors(plans)| == st.tally.processed + |plans|
    ensures st.tally.skipped + |SkipErrors(plans)| <= ApplyRows(mode, st, plans).tally.skipped <= st.tally.skipped + |plans|
    decreases |plans|
  {
    if plans != [] {
      var prefix := plans[..|plans| - 1];
      FoldCounts(mode, st, prefix);
      RowCounts(mode, ApplyRows(mode, st, prefix), plans[|plans| - 1]);
    }
  }

  lemma {:induction false} FoldKeys(mode: Mode, st: StationState, plans: seq<StationPlan>)
    ensures ApplyRows(mode, st, plans).stations.Keys == st.stations.Keys + Codes(plans)
    ensures ApplyRows(mode, st, plans).equipments.Keys == st.equipments.Keys + EquipmentKeys(plans)
    decreases |plans|
  {
    if plans != [] {
      var prefix := plans[..|plans| - 1];
      FoldKeys(mode, st, prefix);
      RowKeys(mode, ApplyRows(mode, st, prefix), plans[|plans| - 1]);
    }
  }

  lemma {:induction false} FoldCreated(mode: Mode, st: StationState, plans: seq<StationPlan>)
    ensures |ApplyRows(mode, st, plans).stations.Keys| ==
            |st.stations.Keys| + ApplyRows(mode, st, plans).tally.stationsCreated - st.tally.stationsCreated
    ensures |ApplyRows(mode, st, plans).equipments.Keys| ==
            |st.equipments.Keys| + ApplyRows(mode, st, plans).tally.equipmentsCreated - st.tally.equipmentsCreated
    decreases |plans|
  {
    if plans != [] {
      var prefix := plans[..|plans| - 1];
      FoldCreated(mode, st, prefix);
      RowCreated(mode, ApplyRows(mode, st, prefix), plans[|plans| - 1]);
    }
  }

  /** As written, neither update counter ever moves. */
  lemma {:induction false} FoldNoUpdates(st: StationState, plans: seq<StationPlan>)
    ensures ApplyRows(AsWritten, st, plans).tally.stationsUpdated == st.tally.stationsUpdated
    ensures ApplyRows(AsWritten, st, plans).tally.equipmentsUpdated == st.tally.equipmentsUpdated
    decreases |plans|
  {
    if plans != [] {
      var prefix := plans[..|plans| - 1];
      FoldNoUpdates(st, prefix);
      var s := ApplyRows(AsWritten, st, prefix);
      var p := plans[|plans| - 1];
      if p.UpsertStation? {
        AsWrittenNeverUpdated(s.stations, p.code, StationBlank(p.code), p.defaults);
        if p.equipment.Some? {
          var e := p.equipment.value;
          AsWrittenNeverUpdated(s.equipments, (p.code, e.name), EquipmentBlank(p.code, e.name), e.defaults);
        }
      }
    }
  }

  lemma {:induction false} FoldKeepsStation(mode: Mode, st: StationState, plans: seq<StationPlan>, k: string)
    requires k in st.stations && k !in Codes(plans)
    ensures k in ApplyRows(mode, st, plans).stations && ApplyRows(mode, st, plans).stations[k] == st.stations[k]
    decreases |plans|
  {
    if plans != [] {
      FoldKeepsStation(mode, st, plans[..|plans| - 1], k);
    }
  }

  lemma {:induction false} FoldKeepsEquipment(mode: Mode, st: StationState, plans: seq<StationPlan>, k: EquipmentKey)
    requires k in st.equipments && k !in EquipmentKeys(plans)
    ensures k in ApplyRows(mode, st, plans).equipments && ApplyRows(mode, st, plans).equipments[k] == st.equipments[k]
    decreases |plans|
  {
    if plans != [] {
      FoldKeepsEquipment(mode, st, plans[..|plans| - 1], k);
      RowKeepsEquipment(mode, ApplyRows(mode, st, plans[..|plans| - 1]), plans[|plans| - 1], k);
    }
  }

  /** A row leaves every piece of equipment it does not name alone. */
  lemma RowKeepsEquipment(mode: Mode, st: StationState, p: StationPlan, k: EquipmentKey)
    requires k in st.equipments && k !in EquipmentKeyOf(p)
    ensures k in ApplyRow(mode, st, p).equipments && ApplyRow(mode, st, p).equipments[k] == st.equipments[k]
  {
    if p.UpsertStation? {
      assert ApplyRow(mode, st, p).equipments == EquipmentTable(st.equipments, p.code, p.equipment);
    }
  }

  lemma {:induction false} SkipErrorsEmpty(plans: seq<StationPlan>)
    ensures SkipErrors(plans) == [] <==> forall i :: 0 <= i < |plans| ==> plans[i].UpsertStation?
    decreases |plans|
  {
    if plans != [] {
      var prefix := plans[..|plans| - 1];
      SkipErrorsEmpty(prefix);
      assert forall i :: 0 <= i < |prefix| ==> prefix[i] == plans[i];
    }
  }

  lemma {:induction false} CodesOfUpserts(plans: seq<StationPlan>)
    ensures Codes(plans) == set i | 0 <= i < |plans| && plans[i].UpsertStation? :: plans[i].code
    ensures EquipmentKeys(plans) ==
            set i | 0 <= i < |plans| && plans[i].UpsertStation? && plans[i].equipment.Some? ::
              (plans[i].code, plans[i].equipment.value.name)
    decreases |plans|
  {
    if plans != [] {
      var prefix := plans[..|plans| - 1];
      CodesOfUpserts(prefix);
      assert forall i :: 0 <= i < |prefix| ==> prefix[i] == plans[i];
    }
  }

  /** The codes of the rows that pass the checks. */
  function StationCodes(depots: map<string, Record>, rows: seq<Row>): set<string>
  {
    set i | 0 <= i < |rows| && Passes(depots, rows[i]) :: Strip(rows[i]["Station Code"].value)
  }

  /** The (station code, equipment name) pairs of the rows that pass and name equipment. */
  function EquipmentNames(depots: map<string, Record>, rows: seq<Row>): set<EquipmentKey>
  {
    set i | 0 <= i < |rows| && Passes(depots, rows[i]) && EquipmentOf(rows[i]).Some? ::
      (Strip(rows[i]["Station Code"].value), EquipmentOf(rows[i]).value.name)
  }

  lemma PlannedKeys(depots: map<string, Record>, rows: seq<Row>)
    ensures Codes(PlanRows(depots, rows)) == StationCodes(depots, rows)
    ensures EquipmentKeys(PlanRows(depots, rows)) == EquipmentNames(depots, rows)
  {
    CodesOfUpserts(PlanRows(depots, rows));
  }

  /** Every row is either processed or reported, and a skipped row is either
      reported or a row that changed nothing. */
  lemma EveryRowCounted(mode: Mode, depots: map<string, Record>, stations: map<string, Record>,
                        equipments: map<EquipmentKey, Record>, rows: seq<Row>)
    ensures ImportRows(mode, depots, stations, equipments, rows).tally.processed +
            |ImportRows(mode, depots, stations, equipments, rows).tally.errors| == |rows|
    ensures |ImportRows(mode, depots, stations, equipments, rows).tally.errors| <=
            ImportRows(mode, depots, stations, equipments, rows).tally.skipped <= |rows|
  {
    FoldCounts(mode, StationState(stations, equipments, Zero), PlanRows(depots, rows));
  }

  /** The import reports no error exactly when every row passes the checks. */
  lemma NoErrorsIffAllPass(mode: Mode, depots: map<string, Record>, stations: map<string, Record>,
                           equipments: map<EquipmentKey, Record>, rows: seq<Row>)
    ensures ImportRows(mode, depots, stations, equipments, rows).tally.errors == [] <==>
            forall i :: 0 <= i < |rows| ==> Passes(depots, rows[i])
  {
    FoldCounts(mode, StationState(stations, equipments, Zero), PlanRows(depots, rows));
    SkipErrorsEmpty(PlanRows(depots, rows));
  }

  /** The import answers 200 exactly when every row passes the checks, and 207 otherwise. */
  lemma OkIffAllPass(mode: Mode, depots: map<string, Record>, stations: map<string, Record>,
                     equipments: map<EquipmentKey, Record>, rows: seq<Row>)
    ensures Respond(ImportRows(mode, depots, stations, equipments, rows).tally).status ==
            if forall i :: 0 <= i < |rows| ==> Passes(depots, rows[i]) then HTTP_200_OK else HTTP_207_MULTI_STATUS
  {
    NoErrorsIffAllPass(mode, depots, stations, equipments, rows);
  }

  /** As written, the import never reports an updated station or equipment. */
  lemma UpdatedNeverCounted(depots: map<string, Record>, stations: map<string, Record>,
                            equipments: map<EquipmentKey, Record>, rows: seq<Row>)
    ensures ImportRows(AsWritten, depots, stations, equipments, rows).tally.stationsUpdated == 0
    ensures ImportRows(AsWritten, depots, stations, equipments, rows).tally.equipmentsUpdated == 0
  {
    FoldNoUpdates(StationState(stations, equipments, Zero), PlanRows(depots, rows));
  }

  /** The import adds exactly the passing rows' station codes and equipment
      keys, and each created count is the number of new records. */
  lemma ImportAddsKeys(mode: Mode, depots: map<string, Record>, stations: map<string, Record>,
                       equipments: map<EquipmentKey, Record>, rows: seq<Row>)
    ensures ImportRows(mode, depots, stations, equipments, rows).stations.Keys == stations.Keys + StationCodes(depots, rows)
    ensures ImportRows(mode, depots, stations, equipments, rows).equipments.Keys ==
            equipments.Keys + EquipmentNames(depots, rows)
    ensures |ImportRows(mode, depots, stations, equipments, rows).stations.Keys| ==
            |stations.Keys| + ImportRows(mode, depots, stations, equipments, rows).tally.stationsCreated
    ensures |ImportRows(mode, depots, stations, equipments, rows).equipments.Keys| ==
            |equipments.Keys| + ImportRows(mode, depots, stations, equipments, rows).tally.equipmentsCreated
  {
    FoldKeys(mode, StationState(stations, equipments, Zero), PlanRows(depots, rows));
    FoldCreated(mode, StationState(stations, equipments, Zero), PlanRows(depots, rows));
    PlannedKeys(depots, rows);
  }

  /** Stations and equipment that no row names keep their stored records. */
  lemma OthersUntouched(mode: Mode, depots: map<string, Record>, stations: map<string, Record>,
                        equipments: map<EquipmentKey, Record>, rows: seq<Row>, k: string, e: EquipmentKey)
    ensures k in stations && k !in StationCodes(depots, rows) ==>
              k in ImportRows(mode, depots, stations, equipments, rows).stations &&
              ImportRows(mode, depots, stations, equipments, rows).stations[k] == stations[k]
    ensures e in equipments && e !in EquipmentNames(depots, rows) ==>
              e in ImportRows(mode, depots, stations, equipments, rows).equipments &&
              ImportRows(mode, depots, stations, equipments, rows).equipments[e] == equipments[e]
  {
    PlannedKeys(depots, rows);
    var st := StationState(stations, equipments, Zero);
    if k in stations && k !in StationCodes(depots, rows) {
      FoldKeepsStation(mode, st, PlanRows(depots, rows), k);
    }
    if e in equipments && e !in EquipmentNames(depots, rows) {
      FoldKeepsEquipment(mode, st, PlanRows(depots, rows), e);
    }
  }

  /** The plans of `rows + [row]` end with the plan of `row`. */
  lemma LastPlan(depots: map<string, Record>, rows: seq<Row>, row: Row)
    ensures PlanRows(depots, rows + [row]) == PlanRows(depots, rows) + [PlanRow(|rows|, depots, row)]
  {
  }

  /** A later row for the same station code overwrites what earlier rows
      wrote: the station then holds the row's depot and name, and its category
      when the row has one. */
  lemma LaterRowOverwrites(mode: Mode, depots: map<string, Record>, stations: map<string, Record>,
                           equipments: map<EquipmentKey, Record>, rows: seq<Row>, row: Row)
    requires Passes(depots, row)
    ensures var code := Strip(row["Station Code"].value);
            var after := ImportRows(mode, depots, stations, equipments, rows + [row]).stations;
            code in after &&
            Attr(after[code], "depot") == Link(FindBy(depots, "code", Strip(row["Depot"].value)).key) &&
            Attr(after[code], "name") == Text(Strip(row["Sation Name"].value)) &&
            (Present(row, "Category") ==> Attr(after[code], "category") == Text(Strip(row["Category"].value)))
  {
    LastPlan(depots, rows, row);
  }

  /** A row without a Category leaves an existing station's category alone. */
  lemma AbsentCategoryKept(mode: Mode, depots: map<string, Record>, stations: map<string, Record>,
                           equipments: map<EquipmentKey, Record>, rows: seq<Row>, row: Row)
    requires Passes(depots, row) && !Present(row, "Category")
    requires Strip(row["Station Code"].value) in ImportRows(mode, depots, stations, equipments, rows).stations
    ensures var code := Strip(row["Station Code"].value);
            Attr(ImportRows(mode, depots, stations, equipments, rows + [row]).stations[code], "category") ==
            Attr(ImportRows(mode, depots, stations, equipments, rows).stations[code], "category")
  {
    LastPlan(depots, rows, row);
    var code := Strip(row["Station Code"].value);
    var before := ImportRows(mode, depots, stations, equipments, rows).stations;
    AttrMerge(before[code], PlanRow(|rows|, depots, row).defaults, "category");
  }

  /** The equipment a passing row names holds the row's equipment values
      afterwards, and a row that names none leaves the equipment table alone. */
  lemma EquipmentOnlyWhenNamed(mode: Mode, depots: map<string, Record>, stations: map<string, Record>,
                               equipments: map<EquipmentKey, Record>, rows: seq<Row>, row: Row)
    requires Passes(depots, row)
    ensures EquipmentOf(row).None? ==>
              ImportRows(mode, depots, stations, equipments, rows + [row]).equipments ==
              ImportRows(mode, depots, stations, equipments, rows).equipments
    ensures EquipmentOf(row).Some? ==>
              var key := (Strip(row["Station Code"].value), EquipmentOf(row).value.name);
              var after := ImportRows(mode, depots, stations, equipments, rows + [row]).equipments;
              key in after && forall a :: a in EquipmentDefaults(row) ==> Attr(after[key], a) == EquipmentDefaults(row)[a]
  {
    LastPlan(depots, rows, row);
  }

  // ----- The export -----

  /** A station as the export query yields it: its depot, the station and its equipment. */
  datatype StationGroup = StationGroup(depot: Record, station: Record, equipment: seq<Record>)

  /** `station.depot.code or station.depot.name`. */
  function DepotLabel(depot: Record): (v: Value)
    ensures Attr(depot, "code") != Null && Attr(depot, "code") != Text("") ==> v == Attr(depot, "code")
    ensures Attr(depot, "code") == Null || Attr(depot, "code") == Text("") ==> v == Attr(depot, "name")
  {
    var code := Attr(depot, "code");
    if code == Null || code == Text("") then Attr(depot, "name") else code
  }

  /** The Make and Model cells for a stored `make_modal`. */
  function MakeModelCells(mm: Value): (Value, Value)
  {
    if mm.Text? then (Text(SplitMakeModal(mm.s).0), Text(SplitMakeModal(mm.s).1)) else (mm, Text(""))
  }

  /** The station's four cells, common to all its lines. */
  function StationCells(g: StationGroup): Record
  {
    map["Depot" := DepotLabel(g.depot), "Sation Name" := Attr(g.station, "name"),
        "Station Code" := Attr(g.station, "code"), "Category" := Attr(g.station, "category")]
  }

  /** The line of one piece of equipment of the station. */
  function EquipmentLine(g: StationGroup, e: Record): Record
  {
    var mm := MakeModelCells(Attr(e, "make_modal"));
    StationCells(g)["Equipment Name" := Attr(e, "name")]["Make" := mm.0]["Model" := mm.1]
      ["Address" := Attr(e, "address")]["Location" := Attr(e, "location_in_station")]["Quantity" := Attr(e, "quantity")]
  }

  /** The line of a station without equipment: empty equipment cells. */
  function BareLine(g: StationGroup): Record
  {
    StationCells(g)["Equipment Name" := Null]["Make" := Null]["Model" := Null]
      ["Address" := Null]["Location" := Null]["Quantity" := Null]
  }

  function EquipmentLines(g: StationGroup, es: seq<Record>): (lines: seq<Record>)
    ensures |lines| == |es|
    ensures forall i :: 0 <= i < |es| ==> lines[i] == EquipmentLine(g, es[i])
    decreases |es|
  {
    if es == [] then [] else EquipmentLines(g, es[..|es| - 1]) + [EquipmentLine(g, es[|es| - 1])]
  }

  /** The lines of one station: one per piece of equipment, or a bare line. */
  function GroupLines(g: StationGroup): seq<Record>
  {
    if g.equipment == [] then [BareLine(g)] else EquipmentLines(g, g.equipment)
  }

  /** The lines of all stations in the query's order. */
  function ExportLines(groups: seq<StationGroup>): seq<Record>
    decreases |groups|
  {
    if groups == [] then [] else ExportLines(groups[..|groups| - 1]) + GroupLines(groups[|groups| - 1])
  }

  /** `export_to_excel`: the lines of every station, or a single line of empty
      cells when there is no station. */
  method ExportToExcel(groups: seq<StationGroup>) returns (data: seq<Record>)
    ensures data == if groups == [] then [NoneRow(ExportColumns)] else ExportLines(groups)
  {
    data := [];
    for i := 0 to |groups|
      invariant data == ExportLines(groups[..i])
    {
      var g := groups[i];
      if |g.equipment| > 0 {
        for j := 0 to |g.equipment|
          invariant data == ExportLines(groups[..i]) + EquipmentLines(g, g.equipment[..j])
        {
          assert g.equipment[..j + 1][..j] == g.equipment[..j];
          data := data + [EquipmentLine(g, g.equipment[j])];
        }
        assert g.equipment[..|g.equipment|] == g.equipment;
      } else {
        data := data + [BareLine(g)];
      }
      assert groups[..i + 1][..i] == groups[..i];
    }
    assert groups[..|groups|] == groups;
    if data == [] {
      NonEmptyLines(groups);
      data := data + [NoneRow(ExportColumns)];
    }
  }

  /** The number of lines a station yields. */
  function LineCount(groups: seq<StationGroup>): nat
    decreases |groups|
  {
    if groups == [] then 0 else LineCount(groups[..|groups| - 1]) + Max(1, |groups[|groups| - 1].equipment|)
  }

  /** Each station yields one line per piece of equipment and at least one line. */
  lemma {:induction false} ExportLineCount(groups: seq<StationGroup>)
    ensures |ExportLines(groups)| == LineCount(groups)
    ensures |ExportLines(groups)| >= |groups|
    decreases |groups|
  {
    if groups != [] {
      ExportLineCount(groups[..|groups| - 1]);
    }
  }

  lemma NonEmptyLines(groups: seq<StationGroup>)
    ensures ExportLines(groups) == [] <==> groups == []
  {
    ExportLineCount(groups);
  }

  /** The lines of the first `k` stations come first. */
  lemma {:induction false} PrefixLines(groups: seq<StationGroup>, k: nat)
    requires k <= |groups|
    ensures ExportLines(groups[..k]) <= ExportLines(groups)
    decreases |groups| - k
  {
    if k < |groups| {
      PrefixLines(groups, k + 1);
      assert groups[..k + 1][..k] == groups[..k];
    } else {
      assert groups[..k] == groups;
    }
  }

  /** The line for equipment `j` of station `k` of the query sits after all
      lines of the stations before it. */
  lemma LineOfEquipment(groups: seq<StationGroup>, k: nat, j: nat)
    requires k < |groups| && j < |groups[k].equipment|
    ensures LineCount(groups[..k]) + j < |ExportLines(groups)|
    ensures ExportLines(groups)[LineCount(groups[..k]) + j] == EquipmentLine(groups[k], groups[k].equipment[j])
  {
    PrefixLines(groups, k + 1);
    var upTo := groups[..k + 1];
    assert upTo[..k] == groups[..k] && upTo[k] == groups[k];
    assert ExportLines(upTo) == ExportLines(groups[..k]) + EquipmentLines(groups[k], groups[k].equipment);
    ExportLineCount(groups[..k]);
  }

  /** Both kinds of line carry the station's cells. */
  lemma LineStationCells(g: StationGroup, e: Record, line: Record)
    requires line == BareLine(g) || line == EquipmentLine(g, e)
    ensures "Depot" in line && line["Depot"] == DepotLabel(g.depot)
    ensures "Sation Name" in line && line["Sation Name"] == Attr(g.station, "name")
    ensures "Station Code" in line && line["Station Code"] == Attr(g.station, "code")
  {
  }

  /** A row whose Depot, Sation Name and Station Code cells hold stripped,
      non-empty text, with a depot code that names exactly one depot, is
      planned under that code, depot and name. */
  lemma FilledRowPlanned(index: nat, depots: map<string, Record>, row: Row, depot: string, name: string, code: string)
    requires Cell(row, "Depot") == Some(depot) && depot != "" && Stripped(depot)
    requires Cell(row, "Sation Name") == Some(name) && name != "" && Stripped(name)
    requires Cell(row, "Station Code") == Some(code) && code != "" && Stripped(code)
    requires FindBy(depots, "code", depot).Found?
    ensures PlanRow(index, depots, row).UpsertStation?
    ensures PlanRow(index, depots, row).code == code
    ensures Attr(PlanRow(index, depots, row).defaults, "depot") == Link(FindBy(depots, "code", depot).key)
    ensures Attr(PlanRow(index, depots, row).defaults, "name") == Text(name)
  {
  }

  /** A station line read back: a station whose depot label and own name and
      code are stripped, non-empty text, and whose depot label is the code of
      exactly one depot, is planned again under its own code, depot and name. */
  lemma ExportedStationReplans(index: nat, depots: map<string, Record>, line: Record, g: StationGroup, e: Record)
    requires line == BareLine(g) || line == EquipmentLine(g, e)
    requires DepotLabel(g.depot).Text? && DepotLabel(g.depot).s != "" && Stripped(DepotLabel(g.depot).s)
    requires FindBy(depots, "code", DepotLabel(g.depot).s).Found?
    requires Attr(g.station, "name").Text? && Attr(g.station, "name").s != "" && Stripped(Attr(g.station, "name").s)
    requires Attr(g.station, "code").Text? && Attr(g.station, "code").s != "" && Stripped(Attr(g.station, "code").s)
    ensures PlanRow(index, depots, AsRow(line)).UpsertStation?
    ensures PlanRow(index, depots, AsRow(line)).code == Attr(g.station, "code").s
    ensures Attr(PlanRow(index, depots, AsRow(line)).defaults, "depot") == Link(FindBy(depots, "code", DepotLabel(g.depot).s).key)
    ensures Attr(PlanRow(index, depots, AsRow(line)).defaults, "name") == Attr(g.station, "name")
  {
    LineStationCells(g, e, line);
    FilledRowPlanned(index, depots, AsRow(line), DepotLabel(g.depot).s, Attr(g.station, "name").s, Attr(g.station, "code").s);
  }
}
