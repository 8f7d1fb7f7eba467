/** The master-file import of sections, subsections and assets
    (`SectionViewSet.import_master_file`).

    A section is identified by its depot's key and its name, a subsection by
    its section and its name, an asset by its subsection and its name.
    Sections and subsections carry nothing but that identity, so their tables
    are sets; an asset also holds `quantity` and `unit`. */
module Sections {
  import opened Common
  import opened Orm

  type SectionKey = (string, string)
  type SubsectionKey = (SectionKey, string)
  type AssetKey = (SubsectionKey, string)

  /** A new asset before its defaults are applied. */
  function AssetBlank(name: string): Record
  {
    map["name" := Text(name), "quantity" := Null, "unit" := Text("")]
  }

  /** `str(v).strip() if v else None`: the stripped text of a truthy cell. */
  function StrippedCell(row: Row, col: string): (r: Option<string>)
    ensures r.Some? <==> Truthy(Cell(row, col))
    ensures r.Some? ==> r.value == Strip(row[col].value)
  {
    if Truthy(Cell(row, col)) then Some(Strip(row[col].value)) else None
  }

  /** Where the row's depot comes from. */
  datatype Resolution = Resolved(depot: string) | Unresolved(errors: seq<string>)

  /** The depot lookup by a stripped identifier in one column: a blank
      identifier, no match or several matches give the row's errors. */
  function LookupDepot(index: nat, depots: map<string, Record>, field: string, id: string): (r: Resolution)
    ensures r.Resolved? <==> id != "" && FindBy(depots, field, id).Found?
    ensures r.Resolved? ==> r.depot in depots && Attr(depots[r.depot], field) == Text(id)
    ensures r.Unresolved? ==> |r.errors| == 1
  {
    if id == "" then Unresolved([RowLabel(index) + "Depot column is blank."])
    else
      match FindBy(depots, field, id)
      case Found(k) => Resolved(k)
      case NotFound => Unresolved([RowLabel(index) + "Depot '" + id + "' not found."])
      case Multiple => Unresolved([RowLabel(index) + "Multiple depots found for '" + id + "'."])
  }

  /** The depot of a row: by name from a truthy Depot Name cell, else by code
      from a truthy Depot cell, else two errors (the missing column and the
      blank depot).  A sheet without the column has no such cell in any row,
      so testing the cell covers the column test. */
  function ResolveDepot(index: nat, depots: map<string, Record>, row: Row): (r: Resolution)
    ensures Truthy(Cell(row, "Depot Name")) ==> r == LookupDepot(index, depots, "name", Strip(row["Depot Name"].value))
    ensures !Truthy(Cell(row, "Depot Name")) && Truthy(Cell(row, "Depot")) ==>
              r == LookupDepot(index, depots, "code", Strip(row["Depot"].value))
    ensures !Truthy(Cell(row, "Depot Name")) && !Truthy(Cell(row, "Depot")) ==> r.Unresolved? && |r.errors| == 2
  {
    match StrippedCell(row, "Depot Name")
    case Some(id) => LookupDepot(index, depots, "name", id)
    case None =>
      match StrippedCell(row, "Depot")
      case Some(id) => LookupDepot(index, depots, "code", id)
      case None =>
        Unresolved([RowLabel(index) + "Missing 'Depot Name' or 'Depot' (code) column.",
                    RowLabel(index) + "Depot column is blank."])
  }

  /** The asset defaults: the stripped unit when it is non-empty. */
  function AssetDefaults(row: Row): (d: Record)
    ensures "unit" in d <==> StrippedCell(row, "Unit").Some? && StrippedCell(row, "Unit").value != ""
    ensures "unit" in d ==> d["unit"] == Text(StrippedCell(row, "Unit").value)
    ensures d.Keys <= {"unit"}
  {
    match StrippedCell(row, "Unit")
    case Some(u) => if u != "" then map["unit" := Text(u)] else map[]
    case None => map[]
  }

  datatype AssetPlan = AssetPlan(name: string, defaults: Record)

  /** What one row asks for: to be skipped with its errors, or the section
      under its depot, the subsection when one is named, and the asset when a
      subsection and an asset are named. */
  datatype SectionPlan =
    | SkipRow(errors: seq<string>)
    | ImportSection(depot: string, section: string, subsection: Option<string>, asset: Option<AssetPlan>)

  /** The subsection a row names, if non-empty after stripping. */
  function SubsectionOf(row: Row): Option<string>
  {
    match StrippedCell(row, "sub-Sections")
    case Some(n) => if n != "" then Some(n) else None
    case None => None
  }

  /** The asset a row names, if it also names a subsection. */
  function AssetOf(row: Row): (a: Option<AssetPlan>)
    ensures a.Some? ==> SubsectionOf(row).Some? && a.value.defaults == AssetDefaults(row)
  {
    match StrippedCell(row, "Asset")
    case Some(n) => if n != "" && SubsectionOf(row).Some? then Some(AssetPlan(n, AssetDefaults(row))) else None
    case None => None
  }

  /** A row with a non-blank Section whose depot resolves. */
  predicate Imports(depots: map<string, Record>, row: Row)
  {
    Truthy(Cell(row, "Section")) && Strip(row["Section"].value) != "" && ResolveDepot(0, depots, row).Resolved?
  }

  lemma ResolvedAnyIndex(i: nat, j: nat, depots: map<string, Record>, row: Row)
    ensures ResolveDepot(i, depots, row).Resolved? <==> ResolveDepot(j, depots, row).Resolved?
    ensures ResolveDepot(i, depots, row).Resolved? ==> ResolveDepot(i, depots, row) == ResolveDepot(j, depots, row)
  {
  }

  function PlanRow(index: nat, depots: map<string, Record>, row: Row): (p: SectionPlan)
    ensures p.SkipRow? ==> p.errors != []
    ensures p.ImportSection? ==> ResolveDepot(index, depots, row) == Resolved(p.depot)
    ensures p.ImportSection? ==> Truthy(Cell(row, "Section"))
    ensures p.ImportSection? ==> p.section == Strip(row["Section"].value) && p.section != ""
    ensures p.ImportSection? ==> p.subsection == SubsectionOf(row) && p.asset == AssetOf(row)
  {
    var sectionCell := Cell(row, "Section");
    if !Truthy(sectionCell) then SkipRow([RowLabel(index) + "Missing Section name."])
    else
      var section := Strip(sectionCell.value);
      if section == "" then SkipRow([RowLabel(index) + "Section name is blank."])
      else
        match ResolveDepot(index, depots, row)
        case Unresolved(errs) => SkipRow(errs)
        case Resolved(d) => ImportSection(d, section, SubsectionOf(row), AssetOf(row))
  }

  lemma PlanRowImports(index: nat, depots: map<string, Record>, row: Row)
    ensures PlanRow(index, depots, row).ImportSection? <==> Imports(depots, row)
  {
    ResolvedAnyIndex(index, 0, depots, row);
  }

  function PlanRows(depots: map<string, Record>, rows: seq<Row>): (ps: seq<SectionPlan>)
    ensures |ps| == |rows|
    ensures forall i :: 0 <= i < |rows| ==> ps[i] == PlanRow(i, depots, rows[i])
  {
    seq(|rows|, i requires 0 <= i < |rows| => PlanRow(i, depots, rows[i]))
  }

  // ----- The import loop -----

  datatype SectionTally = SectionTally(processed: int, sectionsCreated: int, subsectionsCreated: int,
                                       assetsCreated: int, assetsUpdated: int, skipped: int, errors: seq<string>)

  datatype SectionState = SectionState(sections: set<SectionKey>, subsections: set<SubsectionKey>,
                                       assets: map<AssetKey, Record>, tally: SectionTally)

  const Zero := SectionTally(0, 0, 0, 0, 0, 0, [])

  /** The counters of the section and subsection upserts: `sc` and `bc`
      say whether the section and the subsection were created. */
  function CountSection(t: SectionTally, sc: bool, bc: bool): SectionTally
  {
    t.(sectionsCreated := t.sectionsCreated + BoolToNat(sc), subsectionsCreated := t.subsectionsCreated + BoolToNat(bc))
  }

  /** The counters of the asset part: `ac` is how the asset upsert was
      classified, or None when there is no asset, in which case the row counts
      as skipped when its section already existed. */
  function CountAsset(t: SectionTally, sc: bool, ac: Option<Change>): SectionTally
  {
    match ac
    case Some(Created) => t.(assetsCreated := t.assetsCreated + 1)
    case Some(Updated) => t.(assetsUpdated := t.assetsUpdated + 1)
    case Some(Unchanged) => t.(skipped := t.skipped + 1)
    case None => t.(skipped := t.skipped + BoolToNat(!sc))
  }

  /** All the counters a row that passed the checks moves. */
  function CountRow(t: SectionTally, sc: bool, bc: bool, ac: Option<Change>): SectionTally
  {
    var t2 := CountAsset(CountSection(t, sc, bc), sc, ac);
    t2.(processed := t2.processed + 1)
  }

  function SubsectionKeyOf(depot: string, section: string, sub: Option<string>): set<SubsectionKey>
  {
    if sub.Some? then {((depot, section), sub.value)} else {}
  }

  /** The asset table after the asset part of a row. */
  function AssetTable(assets: map<AssetKey, Record>, sub: SubsectionKey, asset: Option<AssetPlan>): map<AssetKey, Record>
  {
    match asset
    case None => assets
    case Some(a) => UpdateOrCreate(assets, (sub, a.name), AssetBlank(a.name), a.defaults).table
  }

  function AssetChange(mode: Mode, assets: map<AssetKey, Record>, sub: SubsectionKey, asset: Option<AssetPlan>): Option<Change>
  {
    match asset
    case None => None
    case Some(a) => Some(Outcome(mode, assets, (sub, a.name), AssetBlank(a.name), a.defaults))
  }

  /** One pass of the loop body. */
  function ApplyRow(mode: Mode, st: SectionState, p: SectionPlan): SectionState
  {
    match p
    case SkipRow(errs) => st.(tally := st.tally.(skipped := st.tally.skipped + 1, errors := st.tally.errors + errs))
    case ImportSection(d, name, sub, asset) =>
      var sk := (d, name);
      var subKey := (sk, if sub.Some? then sub.value else "");
      SectionState(st.sections + {sk}, st.subsections + SubsectionKeyOf(d, name, sub),
                   AssetTable(st.assets, subKey, asset),
                   CountRow(st.tally, sk !in st.sections, sub.Some? && subKey !in st.subsections,
                            AssetChange(mode, st.assets, subKey, asset)))
  }

  function ApplyRows(mode: Mode, st: SectionState, plans: seq<SectionPlan>): SectionState
    decreases |plans|
  {
    if plans == [] then st else ApplyRow(mode, ApplyRows(mode, st, plans[..|plans| - 1]), plans[|plans| - 1])
  }

  function ImportRows(mode: Mode, depots: map<string, Record>, sections: set<SectionKey>,
                      subsections: set<SubsectionKey>, assets: map<AssetKey, Record>, rows: seq<Row>): SectionState
  {
    ApplyRows(mode, SectionState(sections, subsections, assets, Zero), PlanRows(depots, rows))
  }

  lemma ImportRowsStep(mode: Mode, depots: map<string, Record>, sections: set<SectionKey>,
                       subsections: set<SubsectionKey>, assets: map<AssetKey, Record>, rows: seq<Row>, i: nat)
    requires i < |rows|
    ensures ImportRows(mode, depots, sections, subsections, assets, rows[..i + 1]) ==
            ApplyRow(mode, ImportRows(mode, depots, sections, subsections, assets, rows[..i]), PlanRow(i, depots, rows[i]))
  {
    var ps := PlanRows(depots, rows[..i + 1]);
    assert ps[..i] == PlanRows(depots, rows[..i]);
  }

  function Message(t: SectionTally): string
  {
    "Import finished. Processed rows: " + IntToString(t.processed) + ". Created (Sec/Sub/Ast): "
      + IntToString(t.sectionsCreated) + "/" + IntToString(t.subsectionsCreated) + "/" + IntToString(t.assetsCreated)
      + ". Updated (Sec/Sub/Ast): 0/0/" + IntToString(t.assetsUpdated) + ". Skipped: " + IntToString(t.skipped) + "."
  }

  /** With errors: 207, the error count appended to the message and the first
      50 errors; without: 200 and the message alone. */
  function Respond(t: SectionTally): (r: ImportResponse)
    ensures r.Report? && (r.status == HTTP_200_OK <==> t.errors == [])
    ensures r.errors.Some? <==> t.errors != []
    ensures r.errors.Some? ==> r.errors.value == Take(t.errors, 50)
  {
    if t.errors != [] then
      Report(HTTP_207_MULTI_STATUS,
             Message(t) + " Encountered " + NatToString(|t.errors|) + " errors (see details).", Some(Take(t.errors, 50)))
    else Report(HTTP_200_OK, Message(t), None)
  }

  class SectionStore {
    var sections: set<SectionKey>
    var subsections: set<SubsectionKey>
    var assets: map<AssetKey, Record>

    constructor()
      ensures sections == {} && subsections == {} && assets == map[]
    {
      sections := {};
      subsections := {};
      assets := map[];
    }

    /** `import_master_file`. */
    method ImportMasterFile(depots: map<string, Record>, upload: Upload) returns (resp: ImportResponse)
      modifies this
      ensures upload.Missing? ==> resp == NoFile && sections == old(sections) && subsections == old(subsections) && assets == old(assets)
      ensures upload.Unreadable? ==>
                resp == Failed(HTTP_400_BAD_REQUEST, "An unexpected error occurred during import: " + upload.reason + ".") &&
                sections == old(sections) && subsections == old(subsections) && assets == old(assets)
      ensures upload.Sheet? ==>
                var after := ImportRows(AsWritten, depots, old(sections), old(subsections), old(assets), upload.rows);
                sections == after.sections && subsections == after.subsections && assets == after.assets &&
                resp == Respond(after.tally)
    {
      if upload.Missing? {
        return NoFile;
      }
      if upload.Unreadable? {
        return Failed(HTTP_400_BAD_REQUEST, "An unexpected error occurred during import: " + upload.reason + ".");
      }
      var rows := upload.rows;
      var tally := Zero;
      var i := 0;
      while i < |rows|
        invariant 0 <= i <= |rows|
        invariant SectionState(sections, subsections, assets, tally) ==
                  ImportRows(AsWritten, depots, old(sections), old(subsections), old(assets), rows[..i])
      {
        ImportRowsStep(AsWritten, depots, old(sections), old(subsections), old(assets), rows, i);
        tally := ImportRow(depots, i, rows[i], tally);
        i := i + 1;
      }
      assert rows[..|rows|] == rows;
      resp := Respond(tally);
    }

    /** The body of the import loop for the row at `index`. */
    method ImportRow(depots: map<string, Record>, index: nat, row: Row, tally: SectionTally) returns (t: SectionTally)
      modifies this
      ensures SectionState(sections, subsections, assets, t) ==
              ApplyRow(AsWritten, SectionState(old(sections), old(subsections), old(assets), tally), PlanRow(index, depots, row))
    {
      var sectionCell := Cell(row, "Section");
      if !Truthy(sectionCell) {
        var errs := [RowLabel(index) + "Missing Section name."];
        assert PlanRow(index, depots, row) == SkipRow(errs);
        return tally.(errors := tally.errors + errs, skipped := tally.skipped + 1);
      }
      var name := Strip(sectionCell.value);
      if name == "" {
        var errs := [RowLabel(index) + "Section name is blank."];
        assert PlanRow(index, depots, row) == SkipRow(errs);
        return tally.(errors := tally.errors + errs, skipped := tally.skipped + 1);
      }
      var depot := ResolveDepot(index, depots, row);
      if depot.Unresolved? {
        assert PlanRow(index, depots, row) == SkipRow(depot.errors);
        return tally.(errors := tally.errors + depot.errors, skipped := tally.skipped + 1);
      }
      assert PlanRow(index, depots, row) == ImportSection(depot.depot, name, SubsectionOf(row), AssetOf(row));
      t := ImportSectionRow(row, depot.depot, name, tally);
    }

    /** The upserts of a row whose section and depot are known. */
    method ImportSectionRow(row: Row, depot: string, name: string, tally: SectionTally) returns (t: SectionTally)
      modifies this
      ensures SectionState(sections, subsections, assets, t) ==
              ApplyRow(AsWritten, SectionState(old(sections), old(subsections), old(assets), tally),
                       ImportSection(depot, name, SubsectionOf(row), AssetOf(row)))
    {
      var sk := (depot, name);
      var sectionCreated := sk !in sections;
      sections := sections + {sk};
      t := tally;
      if sectionCreated {
        t := t.(sectionsCreated := t.sectionsCreated + 1);
      }
      var sub := SubsectionOf(row);
      var subCreated := false;
      if sub.Some? {
        subCreated := (sk, sub.value) !in subsections;
        subsections := subsections + {(sk, sub.value)};
        if subCreated {
          t := t.(subsectionsCreated := t.subsectionsCreated + 1);
        }
      }
      assert t == CountSection(tally, sectionCreated, subCreated);
      var subKey := (sk, if sub.Some? then sub.value else "");
      t := ImportAsset(row, subKey, sectionCreated, t);
      t := t.(processed := t.processed + 1);
    }

    /** The asset part of a row whose subsection is `subKey`. */
    method ImportAsset(row: Row, subKey: SubsectionKey, sectionCreated: bool, tally: SectionTally) returns (t: SectionTally)
      modifies this
      ensures sections == old(sections) && subsections == old(subsections)
      ensures assets == AssetTable(old(assets), subKey, AssetOf(row))
      ensures t == CountAsset(tally, sectionCreated, AssetChange(AsWritten, old(assets), subKey, AssetOf(row)))
    {
      t := tally;
      var asset := AssetOf(row);
      if asset.Some? {
        var defaults := asset.value.defaults;
        var u := UpdateOrCreate(assets, (subKey, asset.value.name), AssetBlank(asset.value.name), defaults);
        assets := u.table;
        if u.created {
          t := t.(assetsCreated := t.assetsCreated + 1);
        } else if AnyDiffers(u.obj, defaults) {
          t := t.(assetsUpdated := t.assetsUpdated + 1);
        } else {
          t := t.(skipped := t.skipped + 1);
        }
      } else if !sectionCreated {
        t := t.(skipped := t.skipped + 1);
      }
    }
  }

  // ----- Properties of the import -----

  function RowErrors(p: SectionPlan): seq<string>
  {
    if p.SkipRow? then p.errors else []
  }

  /** The errors of the skipped rows, in sheet order. */
  function AllErrors(plans: seq<SectionPlan>): seq<string>
    decreases |plans|
  {
    if plans == [] then [] else AllErrors(plans[..|plans| - 1]) + RowErrors(plans[|plans| - 1])
  }

  /** The number of rows skipped before any upsert. */
  function Rejected(plans: seq<SectionPlan>): nat
    decreases |plans|
  {
    if plans == [] then 0 else Rejected(plans[..|plans| - 1]) + (if plans[|plans| - 1].SkipRow? then 1 else 0)
  }

  function SectionKeys(plans: seq<SectionPlan>): set<SectionKey>
    decreases |plans|
  {
    if plans == [] then {}
    else
      var p := plans[|plans| - 1];
      SectionKeys(plans[..|plans| - 1]) + (if p.ImportSection? then {(p.depot, p.section)} else {})
  }

  function SubsectionKeys(plans: seq<SectionPlan>): set<SubsectionKey>
    decreases |plans|
  {
    if plans == [] then {}
    else
      var p := plans[|plans| - 1];
      SubsectionKeys(plans[..|plans| - 1]) + (if p.ImportSection? then SubsectionKeyOf(p.depot, p.section, p.subsection) else {})
  }

  function AssetKeyOf(p: SectionPlan): set<AssetKey>
  {
    if p.ImportSection? && p.asset.Some? then
      {(((p.depot, p.section), if p.subsection.Some? then p.subsection.value else ""), p.asset.value.name)}
    else {}
  }

  function AssetKeys(plans: seq<SectionPlan>): set<AssetKey>
    decreases |plans|
  {
    if plans == [] then {} else AssetKeys(plans[..|plans| - 1]) + AssetKeyOf(plans[|plans| - 1])
  }

  lemma CountRowFacts(t: SectionTally, sc: bool, bc: bool, ac: Option<Change>)
    ensures CountRow(t, sc, bc, ac).errors == t.errors && CountRow(t, sc, bc, ac).processed == t.processed + 1
    ensures t.skipped <= CountRow(t, sc, bc, ac).skipped <= t.skipped + 1
    ensures CountRow(t, sc, bc, ac).sectionsCreated == t.sectionsCreated + BoolToNat(sc)
    ensures CountRow(t, sc, bc, ac).subsectionsCreated == t.subsectionsCreated + BoolToNat(bc)
    ensures CountRow(t, sc, bc, ac).assetsCreated == t.assetsCreated + (if ac == Some(Created) then 1 else 0)
    ensures CountRow(t, sc, bc, ac).assetsUpdated == t.assetsUpdated + (if ac == Some(Updated) then 1 else 0)
  {
  }

  /** What one row does to the counters. */
  lemma RowCounts(mode: Mode, st: SectionState, p: SectionPlan)
    ensures ApplyRow(mode, st, p).tally.errors == st.tally.errors + RowErrors(p)
    ensures ApplyRow(mode, st, p).tally.processed == st.tally.processed + (if p.SkipRow? then 0 else 1)
    ensures st.tally.skipped + (if p.SkipRow? then 1 else 0) <= ApplyRow(mode, st, p).tally.skipped <= st.tally.skipped + 1
  {
    if p.ImportSection? {
      var sk := (p.depot, p.section);
      var subKey := (sk, if p.subsection.Some? then p.subsection.value else "");
      CountRowFacts(st.tally, sk !in st.sections, p.subsection.Some? && subKey !in st.subsections,
                    AssetChange(mode, st.assets, subKey, p.asset));
    }
  }

  /** What one row does to the keys of the three tables. */
  lemma RowKeys(mode: Mode, st: SectionState, p: SectionPlan)
    ensures ApplyRow(mode, st, p).sections == st.sections + (if p.ImportSection? then {(p.depot, p.section)} else {})
    ensures ApplyRow(mode, st, p).subsections ==
            st.subsections + (if p.ImportSection? then SubsectionKeyOf(p.depot, p.section, p.subsection) else {})
    ensures ApplyRow(mode, st, p).assets.Keys == st.assets.Keys + AssetKeyOf(p)
  {
  }

  /** The created counters count the keys a row adds. */
  lemma RowCreated(mode: Mode, st: SectionState, p: SectionPlan)
    ensures |ApplyRow(mode, st, p).sections| == |st.sections| + ApplyRow(mode, st, p).tally.sectionsCreated - st.tally.sectionsCreated
    ensures |ApplyRow(mode, st, p).subsections| ==
            |st.subsections| + ApplyRow(mode, st, p).tally.subsectionsCreated - st.tally.subsectionsCreated
    ensures |ApplyRow(mode, st, p).assets.Keys| ==
            |st.assets.Keys| + ApplyRow(mode, st, p).tally.assetsCreated - st.tally.assetsCreated
  {
    if p.ImportSection? {
      var sk := (p.depot, p.section);
      var subKey := (sk, if p.subsection.Some? then p.subsection.value else "");
      CountRowFacts(st.tally, sk !in st.sections, p.subsection.Some? && subKey !in st.subsections,
                    AssetChange(mode, st.assets, subKey, p.asset));
      if sk in st.sections {
        assert st.sections + {sk} == st.sections;
      }
      if p.subsection.Some? && subKey in st.subsections {
        assert st.subsections + {subKey} == st.subsections;
      }
      if p.asset.Some? {
        var a := p.asset.value;
        UpsertCountsKey(mode, st.assets, (subKey, a.name), AssetBlank(a.name), a.defaults);
      }
    }
  }

  lemma {:induction false} FoldCounts(mode: Mode, st: SectionState, plans: seq<SectionPlan>)
    ensures ApplyRows(mode, st, plans).tally.errors == st.tally.errors + AllErrors(plans)
    ensures ApplyRows(mode, st, plans).tally.processed + Rejected(plans) == st.tally.processed + |plans|
    ensures st.tally.skipped + Rejected(plans) <= ApplyRows(mode, st, plans).tally.skipped <= st.tally.skipped + |plans|
    decreases |plans|
  {
    if plans != [] {
      var prefix := plans[..|plans| - 1];
      FoldCounts(mode, st, prefix);
      RowCounts(mode, ApplyRows(mode, st, prefix), plans[|plans| - 1]);
    }
  }

  lemma {:induction false} FoldKeys(mode: Mode, st: SectionState, plans: seq<SectionPlan>)
    ensures ApplyRows(mode, st, plans).sections == st.sections + SectionKeys(plans)
    ensures ApplyRows(mode, st, plans).subsections == st.subsections + SubsectionKeys(plans)
    ensures ApplyRows(mode, st, plans).assets.Keys == st.assets.Keys + AssetKeys(plans)
    decreases |plans|
  {
    if plans != [] {
      var prefix := plans[..|plans| - 1];
      FoldKeys(mode, st, prefix);
      RowKeys(mode, ApplyRows(mode, st, prefix), plans[|plans| - 1]);
    }
  }

  lemma {:induction false} FoldCreated(mode: Mode, st: SectionState, plans: seq<SectionPlan>)
    ensures |ApplyRows(mode, st, plans).sections| ==
            |st.sections| + ApplyRows(mode, st, plans).tally.sectionsCreated - st.tally.sectionsCreated
    ensures |ApplyRows(mode, st, plans).subsections| ==
            |st.subsections| + ApplyRows(mode, st, plans).tally.subsectionsCreated - st.tally.subsectionsCreated
    ensures |ApplyRows(mode, st, plans).assets.Keys| ==
            |st.assets.Keys| + ApplyRows(mode, st, plans).tally.assetsCreated - st.tally.assetsCreated
    decreases |plans|
  {
    if plans != [] {
      var prefix := plans[..|plans| - 1];
      FoldCreated(mode, st, prefix);
      RowCreated(mode, ApplyRows(mode, st, prefix), plans[|plans| - 1]);
    }
  }

  lemma {:induction false} FoldNoUpdates(st: SectionState, plans: seq<SectionPlan>)
    ensures ApplyRows(AsWritten, st, plans).tally.assetsUpdated == st.tally.assetsUpdated
    decreases |plans|
  {
    if plans != [] {
      var prefix := plans[..|plans| - 1];
      FoldNoUpdates(st, prefix);
      var s := ApplyRows(AsWritten, st, prefix);
      var p := plans[|plans| - 1];
      if p.ImportSection? {
        var sk := (p.depot, p.section);
        var subKey := (sk, if p.subsection.Some? then p.subsection.value else "");
        CountRowFacts(s.tally, sk !in s.sections, p.subsection.Some? && subKey !in s.subsections,
                      AssetChange(AsWritten, s.assets, subKey, p.asset));
        if p.asset.Some? {
          var a := p.asset.value;
          AsWrittenNeverUpdated(s.assets, (subKey, a.name), AssetBlank(a.name), a.defaults);
        }
      }
    }
  }

  /** The errors of skipped rows bound the number of skipped rows: one or
      two errors each. */
  lemma {:induction false} ErrorsPerRejectedRow(plans: seq<SectionPlan>)
    requires forall i :: 0 <= i < |plans| && plans[i].SkipRow? ==> 1 <= |plans[i].errors| <= 2
    ensures Rejected(plans) <= |AllErrors(plans)| <= 2 * Rejected(plans)
    decreases |plans|
  {
    if plans != [] {
      var prefix := plans[..|plans| - 1];
      assert forall i :: 0 <= i < |prefix| ==> prefix[i] == plans[i];
      ErrorsPerRejectedRow(prefix);
    }
  }

  lemma {:induction false} NoErrorsIffNoneRejected(plans: seq<SectionPlan>)
    requires forall i :: 0 <= i < |plans| && plans[i].SkipRow? ==> plans[i].errors != []
    ensures AllErrors(plans) == [] <==> forall i :: 0 <= i < |plans| ==> plans[i].ImportSection?
    decreases |plans|
  {
    if plans != [] {
      var prefix := plans[..|plans| - 1];
      assert forall i :: 0 <= i < |prefix| ==> prefix[i] == plans[i];
      NoErrorsIffNoneRejected(prefix);
    }
  }

  /** A skipped row reports one error, or two when it has neither depot cell. */
  lemma RowErrorCount(index: nat, depots: map<string, Record>, row: Row)
    ensures PlanRow(index, depots, row).SkipRow? ==> 1 <= |PlanRow(index, depots, row).errors| <= 2
  {
  }

  /** Every row is either processed or skipped with one or two errors. */
  lemma EveryRowCounted(mode: Mode, depots: map<string, Record>, sections: set<SectionKey>,
                        subsections: set<SubsectionKey>, assets: map<AssetKey, Record>, rows: seq<Row>)
    ensures var t := ImportRows(mode, depots, sections, subsections, assets, rows).tally;
            |rows| - t.processed <= |t.errors| <= 2 * (|rows| - t.processed) &&
            |rows| - t.processed <= t.skipped <= |rows|
  {
    var plans := PlanRows(depots, rows);
    FoldCounts(mode, SectionState(sections, subsections, assets, Zero), plans);
    forall i | 0 <= i < |plans| && plans[i].SkipRow?
      ensures 1 <= |plans[i].errors| <= 2
    {
      RowErrorCount(i, depots, rows[i]);
    }
    ErrorsPerRejectedRow(plans);
  }

  /** The import reports no error, and so answers 200 without an error list,
      exactly when every row has a section and a depot that resolves. */
  lemma NoErrorsIffAllImport(mode: Mode, depots: map<string, Record>, sections: set<SectionKey>,
                             subsections: set<SubsectionKey>, assets: map<AssetKey, Record>, rows: seq<Row>)
    ensures ImportRows(mode, depots, sections, subsections, assets, rows).tally.errors == [] <==>
            forall i :: 0 <= i < |rows| ==> Imports(depots, rows[i])
  {
    var plans := PlanRows(depots, rows);
    FoldCounts(mode, SectionState(sections, subsections, assets, Zero), plans);
    NoErrorsIffNoneRejected(plans);
    forall i | 0 <= i < |rows|
      ensures plans[i].ImportSection? <==> Imports(depots, rows[i])
    {
      PlanRowImports(i, depots, rows[i]);
    }
  }

  /** As written, the import never reports an updated asset. */
  lemma UpdatedNeverCounted(depots: map<string, Record>, sections: set<SectionKey>,
                            subsections: set<SubsectionKey>, assets: map<AssetKey, Record>, rows: seq<Row>)
    ensures ImportRows(AsWritten, depots, sections, subsections, assets, rows).tally.assetsUpdated == 0
  {
    FoldNoUpdates(SectionState(sections, subsections, assets, Zero), PlanRows(depots, rows));
  }

  /** The import adds exactly the planned keys to each table, and each created
      count is the number of records added. */
  lemma ImportAddsKeys(mode: Mode, depots: map<string, Record>, sections: set<SectionKey>,
                       subsections: set<SubsectionKey>, assets: map<AssetKey, Record>, rows: seq<Row>)
    ensures var after := ImportRows(mode, depots, sections, subsections, assets, rows);
            var plans := PlanRows(depots, rows);
            after.sections == sections + SectionKeys(plans) &&
            after.subsections == subsections + SubsectionKeys(plans) &&
            after.assets.Keys == assets.Keys + AssetKeys(plans)
    ensures var after := ImportRows(mode, depots, sections, subsections, assets, rows);
            |after.sections| == |sections| + after.tally.sectionsCreated &&
            |after.subsections| == |subsections| + after.tally.subsectionsCreated &&
            |after.assets.Keys| == |assets.Keys| + after.tally.assetsCreated
  {
    FoldKeys(mode, SectionState(sections, subsections, assets, Zero), PlanRows(depots, rows));
    FoldCreated(mode, SectionState(sections, subsections, assets, Zero), PlanRows(depots, rows));
  }

  /** Rows that do not name an asset leave its record as it was. */
  lemma {:induction false} FoldKeepsAsset(mode: Mode, st: SectionState, plans: seq<SectionPlan>, k: AssetKey)
    requires k in st.assets && k !in AssetKeys(plans)
    ensures k in ApplyRows(mode, st, plans).assets && ApplyRows(mode, st, plans).assets[k] == st.assets[k]
    decreases |plans|
  {
    if plans != [] {
      var prefix := plans[..|plans| - 1];
      FoldKeepsAsset(mode, st, prefix, k);
      var before := ApplyRows(mode, st, prefix);
      var p := plans[|plans| - 1];
      assert k !in AssetKeyOf(p);
      if p.ImportSection? && p.asset.Some? {
        var subKey := ((p.depot, p.section), if p.subsection.Some? then p.subsection.value else "");
        assert k != (subKey, p.asset.value.name);
        assert ApplyRow(mode, before, p).assets ==
               UpdateOrCreate(before.assets, (subKey, p.asset.value.name), AssetBlank(p.asset.value.name), p.asset.value.defaults).table;
      }
    }
  }

  /** An existing asset that no row names keeps its record, and the import
      never removes a section or subsection. */
  lemma OthersUntouched(mode: Mode, depots: map<string, Record>, sections: set<SectionKey>,
                        subsections: set<SubsectionKey>, assets: map<AssetKey, Record>, rows: seq<Row>, k: AssetKey)
    ensures var after := ImportRows(mode, depots, sections, subsections, assets, rows);
            sections <= after.sections && subsections <= after.subsections
    ensures var after := ImportRows(mode, depots, sections, subsections, assets, rows);
            k in assets && k !in AssetKeys(PlanRows(depots, rows)) ==> k in after.assets && after.assets[k] == assets[k]
  {
    var st := SectionState(sections, subsections, assets, Zero);
    FoldKeys(mode, st, PlanRows(depots, rows));
    if k in assets && k !in AssetKeys(PlanRows(depots, rows)) {
      FoldKeepsAsset(mode, st, PlanRows(depots, rows), k);
    }
  }

  /** The plans of `rows + [row]` end with the plan of `row`. */
  lemma LastPlan(depots: map<string, Record>, rows: seq<Row>, row: Row)
    ensures PlanRows(depots, rows + [row]) == PlanRows(depots, rows) + [PlanRow(|rows|, depots, row)]
  {
  }

  /** A row with neither a Depot Name nor a Depot creates nothing and adds
      exactly its two errors. */
  lemma NoDepotTwoErrors(mode: Mode, depots: map<string, Record>, sections: set<SectionKey>,
                         subsections: set<SubsectionKey>, assets: map<AssetKey, Record>, rows: seq<Row>, row: Row)
    requires Truthy(Cell(row, "Section")) && Strip(row["Section"].value) != ""
    requires !Truthy(Cell(row, "Depot Name")) && !Truthy(Cell(row, "Depot"))
    ensures var before := ImportRows(mode, depots, sections, subsections, assets, rows);
            var after := ImportRows(mode, depots, sections, subsections, assets, rows + [row]);
            after.sections == before.sections && after.subsections == before.subsections && after.assets == before.assets &&
            after.tally.errors == before.tally.errors +
              [RowLabel(|rows|) + "Missing 'Depot Name' or 'Depot' (code) column.", RowLabel(|rows|) + "Depot column is blank."]
  {
    LastPlan(depots, rows, row);
  }

  /** A row that imports records its section under the resolved depot, its
      subsection when it names one, and its asset (holding the row's unit when
      given) when it names a subsection and an asset. */
  lemma RowRecorded(mode: Mode, depots: map<string, Record>, sections: set<SectionKey>,
                    subsections: set<SubsectionKey>, assets: map<AssetKey, Record>, rows: seq<Row>, row: Row)
    requires PlanRow(|rows|, depots, row).ImportSection?
    ensures var p := PlanRow(|rows|, depots, row);
            var after := ImportRows(mode, depots, sections, subsections, assets, rows + [row]);
            (p.depot, p.section) in after.sections &&
            (SubsectionOf(row).Some? ==> ((p.depot, p.section), SubsectionOf(row).value) in after.subsections) &&
            (AssetOf(row).Some? ==>
               var key := (((p.depot, p.section), SubsectionOf(row).value), AssetOf(row).value.name);
               key in after.assets &&
               forall a :: a in AssetDefaults(row) ==> Attr(after.assets[key], a) == AssetDefaults(row)[a])
  {
    LastPlan(depots, rows, row);
  }

  /** A row without a unit leaves an existing asset's unit alone. */
  lemma AbsentUnitKept(mode: Mode, depots: map<string, Record>, sections: set<SectionKey>,
                       subsections: set<SubsectionKey>, assets: map<AssetKey, Record>, rows: seq<Row>, row: Row)
    requires PlanRow(|rows|, depots, row).ImportSection? && AssetOf(row).Some?
    requires "unit" !in AssetDefaults(row)
    requires var p := PlanRow(|rows|, depots, row);
             (((p.depot, p.section), SubsectionOf(row).value), AssetOf(row).value.name) in
               ImportRows(mode, depots, sections, subsections, assets, rows).assets
    ensures var p := PlanRow(|rows|, depots, row);
            var key := (((p.depot, p.section), SubsectionOf(row).value), AssetOf(row).value.name);
            key in ImportRows(mode, depots, sections, subsections, assets, rows + [row]).assets &&
            Attr(ImportRows(mode, depots, sections, subsections, assets, rows + [row]).assets[key], "unit") ==
            Attr(ImportRows(mode, depots, sections, subsections, assets, rows).assets[key], "unit")
  {
    LastPlan(depots, rows, row);
    var p := PlanRow(|rows|, depots, row);
    var key := (((p.depot, p.section), SubsectionOf(row).value), AssetOf(row).value.name);
    var before := ImportRows(mode, depots, sections, subsections, assets, rows).assets;
    AttrMerge(before[key], AssetDefaults(row), "unit");
  }
}
