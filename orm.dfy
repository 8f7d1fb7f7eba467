/** The part of the Django ORM and of the pandas row API that the spreadsheet
    importers rely on, over in-memory tables.

    A stored object is a record: a map from attribute name to value, which is how
    the importers treat it (`defaults` dictionaries, `getattr`).  A table is a map
    from its lookup key to the record.  A spreadsheet row maps each column of the
    sheet to its cell; `None` is a cell that pandas read as missing (NaN), after
    the importers' `where(pd.notnull(df), None)` cleaning. */
module Orm {
  import opened Common

  datatype Value = Null | Text(s: string) | Num(n: int) | Link(key: string)

  type Record = map<string, Value>

  type Row = map<string, Option<string>>

  /** `row.get(col)`: the cell, or None when the column is absent. */
  function Cell(row: Row, col: string): Option<string>
  {
    if col in row then row[col] else None
  }

  /** `row.get(col, default) or default` for a text default. */
  function CellOr(row: Row, col: string, default: string): string
  {
    match Cell(row, col)
    case None => default
    case Some(v) => if v == "" then default else v
  }

  /** Python truthiness of a cell: a non-empty string. */
  predicate Truthy(v: Option<string>)
  {
    v.Some? && v.value != ""
  }

  /** `col in row and pd.notna(row[col])`. */
  predicate Present(row: Row, col: string)
  {
    col in row && row[col].Some?
  }

  /** `getattr(obj, k, None)`. */
  function Attr(obj: Record, k: string): Value
  {
    if k in obj then obj[k] else Null
  }

  /** `any(getattr(obj, k, None) != v for k, v in defaults.items())`. */
  predicate AnyDiffers(obj: Record, defaults: Record)
  {
    exists k :: k in defaults && Attr(obj, k) != defaults[k]
  }

  datatype Upsert<K> = Upsert(table: map<K, Record>, obj: Record, created: bool)

  /** `Model.objects.update_or_create(key, defaults=defaults)`: the object found
      under `key` (or a new one built from the model's field defaults `blank`)
      gets every attribute of `defaults`, is saved, and is returned together with
      whether it was created. */
  function UpdateOrCreate<K>(table: map<K, Record>, key: K, blank: Record, defaults: Record): (u: Upsert<K>)
    ensures u.created <==> key !in table
    ensures u.table.Keys == table.Keys + {key}
    ensures u.table[key] == u.obj
    ensures forall k :: k in table && k != key ==> u.table[k] == table[k]
    ensures forall a :: a in defaults ==> a in u.obj && u.obj[a] == defaults[a]
    ensures forall a :: a !in defaults ==> Attr(u.obj, a) == Attr(if key in table then table[key] else blank, a)
  {
    var obj := (if key in table then table[key] else blank) + defaults;
    Upsert(table[key := obj], obj, key !in table)
  }

  /** Merging `b` into `a` (`{**a, **b}`): `b`'s attributes win. */
  lemma AttrMerge(a: Record, b: Record, k: string)
    ensures Attr(a + b, k) == if k in b then b[k] else Attr(a, k)
  {
  }

  /** `Model.objects.get_or_create(key)` for a table whose rows carry nothing but their key. */
  function GetOrCreate<K>(table: set<K>, key: K): (r: (set<K>, bool))
    ensures r.0 == table + {key}
    ensures r.1 <==> key !in table
  {
    (table + {key}, key !in table)
  }

  /** The object `update_or_create` returns already carries its defaults, so
      the importers' "any attribute differs" test on it never holds.  */
  lemma UpsertedObjectNeverDiffers<K>(table: map<K, Record>, key: K, blank: Record, defaults: Record)
    ensures !AnyDiffers(UpdateOrCreate(table, key, blank, defaults).obj, defaults)
  {
  }

  datatype Change = Created | Updated | Unchanged

  /** What the importers evidently mean to count: compare the defaults with the
      record as it was stored BEFORE the upsert. */
  function Classify<K>(table: map<K, Record>, key: K, defaults: Record): Change
  {
    if key !in table then Created
    else if AnyDiffers(table[key], defaults) then Updated
    else Unchanged
  }

  /** The corrected classification reports Updated exactly when the upsert
      changes an existing stored record.  */
  lemma ClassifyMatchesStoredChange<K>(table: map<K, Record>, key: K, blank: Record, defaults: Record)
    requires key in table ==> defaults.Keys <= table[key].Keys
    ensures Classify(table, key, defaults) == Updated <==>
              key in table && UpdateOrCreate(table, key, blank, defaults).table[key] != table[key]
    ensures Classify(table, key, defaults) == Created <==> UpdateOrCreate(table, key, blank, defaults).created
  {
    if key in table {
      var old_ := table[key];
      var new_ := UpdateOrCreate(table, key, blank, defaults).obj;
      if AnyDiffers(old_, defaults) {
        var a :| a in defaults && Attr(old_, a) != defaults[a];
        assert new_[a] == defaults[a];
      } else {
        assert forall a :: a in defaults ==> old_[a] == defaults[a];
        assert new_ == old_;
      }
    }
  }

  datatype Lookup = NotFound | Multiple | Found(key: string)

  /** `Model.objects.get(field=v)` over a table keyed by text: the key of the one
      matching record, or the DoesNotExist / MultipleObjectsReturned outcome. */
  function FindBy(table: map<string, Record>, field: string, v: string): (r: Lookup)
    ensures r == NotFound <==> forall k :: k in table ==> Attr(table[k], field) != Text(v)
    ensures r.Found? ==> r.key in table && Attr(table[r.key], field) == Text(v)
    ensures r.Found? ==> forall k :: k in table && Attr(table[k], field) == Text(v) ==> k == r.key
    ensures r == Multiple <==> exists k, k' :: k in table && k' in table && k != k' &&
                                 Attr(table[k], field) == Text(v) && Attr(table[k'], field) == Text(v)
  {
    var matches := set k | k in table && Attr(table[k], field) == Text(v);
    if |matches| == 0 then
      assert forall k :: k in table ==> k !in matches;
      NotFound
    else if |matches| > 1 then
      var k :| k in matches;
      assert |matches - {k}| > 0;
      var k' :| k' in matches - {k};
      Multiple
    else
      var k :| k in matches;
      SingletonUnique(matches, k);
      assert forall k' :: k' in table && Attr(table[k'], field) == Text(v) ==> k' in matches;
      Found(k)
  }

  lemma SingletonUnique<T>(s: set<T>, x: T)
    requires |s| == 1 && x in s
    ensures forall y :: y in s ==> y == x
  {
    assert |s - {x}| == 0;
    assert s - {x} == {};
  }

  /** The response of an import endpoint: a report with a message and (unless the
      endpoint omits it) the error list, or a failed request. */
  datatype ImportResponse =
    | Report(status: int, message: string, errors: Option<seq<string>>)
    | Failed(status: int, error: string)

  const HTTP_200_OK := 200
  const HTTP_207_MULTI_STATUS := 207
  const HTTP_400_BAD_REQUEST := 400

  /** The response sent when the request carries no file. */
  const NoFile := Failed(HTTP_400_BAD_REQUEST, "No file provided.")

  /** `Row {index+2}: `: pandas' index counts data rows from 0 and the sheet's
      first line is the header. */
  function RowLabel(index: nat): string
  {
    "Row " + NatToString(index + 2) + ": "
  }

  /** The common tail of the circuit, supervisor and station imports:
      207 with errors, 200 without, and at most the first 50 errors. */
  function ReportWithErrors(message: string, errors: seq<string>): (r: ImportResponse)
    ensures r.Report? && r.message == message && r.errors.Some?
    ensures r.status == (if errors == [] then HTTP_200_OK else HTTP_207_MULTI_STATUS)
    ensures r.errors.value == Take(errors, 50)
    ensures |r.errors.value| <= 50 && (|errors| <= 50 ==> r.errors.value == errors)
  {
    Report(if errors != [] then HTTP_207_MULTI_STATUS else HTTP_200_OK, message, Some(Take(errors, 50)))
  }

  /** The uploaded file: absent, unreadable as a sheet (the reader's message),
      or read into its rows in sheet order. */
  datatype Upload = Missing | Unreadable(reason: string) | Sheet(rows: seq<Row>)

  /** Where an importer's code and its evident intent differ (the counting
      after an upsert, the reading of an empty cell): the behaviour as written,
      or as intended. */
  datatype Mode = AsWritten | Intended

  /** `if created: ... elif any(getattr(obj, k, None) != v ...): ... else: ...`,
      evaluated on the object `update_or_create` returned (AsWritten) or on the
      stored record before the upsert (Intended). */
  function Outcome<K>(mode: Mode, table: map<K, Record>, key: K, blank: Record, defaults: Record): (c: Change)
    ensures c == Created <==> key !in table
  {
    match mode
    case AsWritten =>
      var u := UpdateOrCreate(table, key, blank, defaults);
      if u.created then Created else if AnyDiffers(u.obj, defaults) then Updated else Unchanged
    case Intended => Classify(table, key, defaults)
  }

  /** An upsert classified as created adds exactly one key, any other upsert none. */
  lemma UpsertCountsKey<K>(mode: Mode, table: map<K, Record>, key: K, blank: Record, defaults: Record)
    ensures |UpdateOrCreate(table, key, blank, defaults).table.Keys| ==
            |table.Keys| + (if Outcome(mode, table, key, blank, defaults) == Created then 1 else 0)
  {
    if key in table {
      assert table.Keys + {key} == table.Keys;
    }
  }

  /** As written, an upsert is never counted as an update. */
  lemma AsWrittenNeverUpdated<K>(table: map<K, Record>, key: K, blank: Record, defaults: Record)
    ensures Outcome(AsWritten, table, key, blank, defaults) != Updated
  {
    UpsertedObjectNeverDiffers(table, key, blank, defaults);
  }

  /** The cell pandas reads back from an exported value. */
  function AsCell(v: Value): Option<string>
  {
    match v
    case Null => None
    case Text(s) => Some(s)
    case Num(n) => Some(IntToString(n))
    case Link(k) => Some(k)
  }

  /** An exported row read back as an imported one. */
  function AsRow(r: Record): Row
  {
    map k | k in r :: AsCell(r[k])
  }

  /** `{col: None for col in export_columns}`: the placeholder row an export
      writes for an empty table. */
  function NoneRow(cols: seq<string>): Record
  {
    map c | c in cols :: Null
  }

  function BoolToNat(b: bool): nat { if b then 1 else 0 }

  // ----- The keyed-upsert importer shared by the circuit and supervisor imports -----

  /** What one sheet row asks for once its cells are read: nothing but errors
      (the row is skipped), or an upsert of `defaults` under `key`, where
      `blank` is the new object a missing key starts from. */
  datatype Plan =
    | Reject(errors: seq<string>)
    | Accept(key: string, blank: Record, defaults: Record, errors: seq<string>)

  datatype Tally = Tally(created: int, updated: int, skipped: int, errors: seq<string>)

  datatype State = State(table: map<string, Record>, tally: Tally)

  const Start := Tally(0, 0, 0, [])

  function Count(t: Tally, c: Change): Tally
  {
    match c
    case Created => t.(created := t.created + 1)
    case Updated => t.(updated := t.updated + 1)
    case Unchanged => t.(skipped := t.skipped + 1)
  }

  /** One pass of an import loop body. */
  function Apply(mode: Mode, st: State, p: Plan): State
  {
    match p
    case Reject(errs) =>
      State(st.table, st.tally.(skipped := st.tally.skipped + 1, errors := st.tally.errors + errs))
    case Accept(key, blank, defaults, errs) =>
      var u := UpdateOrCreate(st.table, key, blank, defaults);
      State(u.table, Count(st.tally.(errors := st.tally.errors + errs), Outcome(mode, st.table, key, blank, defaults)))
  }

  /** The import loop over the plans of all rows, in sheet order. */
  function ApplyAll(mode: Mode, table: map<string, Record>, plans: seq<Plan>): State
    decreases |plans|
  {
    if plans == [] then State(table, Start)
    else Apply(mode, ApplyAll(mode, table, plans[..|plans| - 1]), plans[|plans| - 1])
  }

  /** The import loop one row further. */
  lemma ApplyAllStep(mode: Mode, table: map<string, Record>, plans: seq<Plan>, i: nat)
    requires i < |plans|
    ensures ApplyAll(mode, table, plans[..i + 1]) == Apply(mode, ApplyAll(mode, table, plans[..i]), plans[i])
  {
    assert plans[..i + 1][..i] == plans[..i];
  }

  /** The loop body of the importers for a row they upsert, as written: the
      row's errors are appended, then the upsert is counted on the object it
      returns. */
  lemma AcceptStep(st: State, key: string, blank: Record, defaults: Record, errs: seq<string>)
    ensures Apply(AsWritten, st, Accept(key, blank, defaults, errs)) ==
            State(UpdateOrCreate(st.table, key, blank, defaults).table,
                  if UpdateOrCreate(st.table, key, blank, defaults).created
                  then st.tally.(errors := st.tally.errors + errs, created := st.tally.created + 1)
                  else if AnyDiffers(UpdateOrCreate(st.table, key, blank, defaults).obj, defaults)
                  then st.tally.(errors := st.tally.errors + errs, updated := st.tally.updated + 1)
                  else st.tally.(errors := st.tally.errors + errs, skipped := st.tally.skipped + 1))
  {
  }

  /** The keys the accepted rows upsert. */
  function Keys(plans: seq<Plan>): set<string>
    decreases |plans|
  {
    if plans == [] then {}
    else
      var p := plans[|plans| - 1];
      Keys(plans[..|plans| - 1]) + (if p.Accept? then {p.key} else {})
  }

  lemma {:induction false} KeysOfAccepted(plans: seq<Plan>)
    ensures Keys(plans) == set i | 0 <= i < |plans| && plans[i].Accept? :: plans[i].key
    decreases |plans|
  {
    if plans != [] {
      var prefix := plans[..|plans| - 1];
      KeysOfAccepted(prefix);
      assert forall i :: 0 <= i < |prefix| ==> prefix[i] == plans[i];
    }
  }

  /** All row errors, in sheet order. */
  function AllErrors(plans: seq<Plan>): seq<string>
    decreases |plans|
  {
    if plans == [] then [] else AllErrors(plans[..|plans| - 1]) + plans[|plans| - 1].errors
  }

  /** A single accepted row stores its defaults over the stored record or the blank one. */
  lemma ApplyOne(mode: Mode, table: map<string, Record>, p: Plan)
    requires p.Accept?
    ensures p.key in ApplyAll(mode, table, [p]).table
    ensures ApplyAll(mode, table, [p]).table[p.key] == (if p.key in table then table[p.key] else p.blank) + p.defaults
  {
    assert [p][..0] == [];
  }

  /** The last accepted row wins: its defaults are what the table holds for its
      key afterwards, whatever the earlier rows wrote. */
  lemma LastRowWins(mode: Mode, table: map<string, Record>, plans: seq<Plan>, p: Plan)
    requires plans != [] && plans[|plans| - 1] == p && p.Accept?
    ensures p.key in ApplyAll(mode, table, plans).table
    ensures forall a :: a in p.defaults ==> Attr(ApplyAll(mode, table, plans).table[p.key], a) == p.defaults[a]
  {
  }

  /** An attribute the last row does not set keeps the value it had before that row. */
  lemma LastRowKeeps(mode: Mode, table: map<string, Record>, plans: seq<Plan>, p: Plan, a: string)
    requires plans != [] && plans[|plans| - 1] == p && p.Accept? && a !in p.defaults
    requires p.key in ApplyAll(mode, table, plans[..|plans| - 1]).table
    ensures p.key in ApplyAll(mode, table, plans).table
    ensures Attr(ApplyAll(mode, table, plans).table[p.key], a) ==
            Attr(ApplyAll(mode, table, plans[..|plans| - 1]).table[p.key], a)
  {
  }

  lemma {:induction false} EveryPlanCounted(mode: Mode, table: map<string, Record>, plans: seq<Plan>)
    ensures var t := ApplyAll(mode, table, plans).tally; t.created + t.updated + t.skipped == |plans|
    decreases |plans|
  {
    if plans != [] {
      EveryPlanCounted(mode, table, plans[..|plans| - 1]);
    }
  }

  lemma {:induction false} AsWrittenCountsNoUpdate(table: map<string, Record>, plans: seq<Plan>)
    ensures ApplyAll(AsWritten, table, plans).tally.updated == 0
    decreases |plans|
  {
    if plans != [] {
      var prefix := plans[..|plans| - 1];
      AsWrittenCountsNoUpdate(table, prefix);
      var p := plans[|plans| - 1];
      if p.Accept? {
        AsWrittenNeverUpdated(ApplyAll(AsWritten, table, prefix).table, p.key, p.blank, p.defaults);
      }
    }
  }

  lemma ApplyAddsKey(mode: Mode, st: State, p: Plan)
    ensures var st' := Apply(mode, st, p);
            st'.table.Keys == st.table.Keys + (if p.Accept? then {p.key} else {}) &&
            |st'.table.Keys| == |st.table.Keys| + st'.tally.created - st.tally.created
  {
    if p.Accept? && p.key in st.table {
      assert st.table.Keys + {p.key} == st.table.Keys;
    }
  }

  lemma {:induction false} ApplyAllAddsKeys(mode: Mode, table: map<string, Record>, plans: seq<Plan>)
    ensures ApplyAll(mode, table, plans).table.Keys == table.Keys + Keys(plans)
    decreases |plans|
  {
    if plans != [] {
      var prefix := plans[..|plans| - 1];
      ApplyAllAddsKeys(mode, table, prefix);
      ApplyAddsKey(mode, ApplyAll(mode, table, prefix), plans[|plans| - 1]);
    }
  }

  /** The created count is the number of keys the import added. */
  lemma {:induction false} CreatedCountsNewKeys(mode: Mode, table: map<string, Record>, plans: seq<Plan>)
    ensures |ApplyAll(mode, table, plans).table.Keys| == |table.Keys| + ApplyAll(mode, table, plans).tally.created
    decreases |plans|
  {
    if plans != [] {
      var prefix := plans[..|plans| - 1];
      CreatedCountsNewKeys(mode, table, prefix);
      ApplyAddsKey(mode, ApplyAll(mode, table, prefix), plans[|plans| - 1]);
    }
  }

  lemma {:induction false} ApplyAllKeepsOthers(mode: Mode, table: map<string, Record>, plans: seq<Plan>, k: string)
    requires k in table && k !in Keys(plans)
    ensures var st := ApplyAll(mode, table, plans); k in st.table && st.table[k] == table[k]
    decreases |plans|
  {
    if plans != [] {
      ApplyAllKeepsOthers(mode, table, plans[..|plans| - 1], k);
    }
  }

  lemma {:induction false} ApplyAllErrors(mode: Mode, table: map<string, Record>, plans: seq<Plan>)
    ensures ApplyAll(mode, table, plans).tally.errors == AllErrors(plans)
    decreases |plans|
  {
    if plans != [] {
      ApplyAllErrors(mode, table, plans[..|plans| - 1]);
    }
  }

  lemma {:induction false} NoErrorsIffNoneReported(plans: seq<Plan>)
    ensures AllErrors(plans) == [] <==> forall i :: 0 <= i < |plans| ==> plans[i].errors == []
    decreases |plans|
  {
    if plans != [] {
      var prefix := plans[..|plans| - 1];
      NoErrorsIffNoneReported(prefix);
      assert forall i :: 0 <= i < |prefix| ==> prefix[i] == plans[i];
    }
  }

  /** An attribute property that every accepted row's upsert establishes is
      kept by the whole import: if every stored record satisfies `P`, and every
      accepted plan's upserted object satisfies `P` whatever record it starts
      from that satisfies `P`, all records satisfy `P` afterwards. */
  lemma {:induction false} ApplyAllPreserves(mode: Mode, table: map<string, Record>, plans: seq<Plan>, P: Record -> bool)
    requires forall k :: k in table ==> P(table[k])
    requires forall i :: 0 <= i < |plans| && plans[i].Accept? ==>
               P(plans[i].blank + plans[i].defaults) &&
               forall r :: P(r) ==> P(r + plans[i].defaults)
    ensures forall k :: k in ApplyAll(mode, table, plans).table ==> P(ApplyAll(mode, table, plans).table[k])
    decreases |plans|
  {
    if plans != [] {
      var prefix := plans[..|plans| - 1];
      assert forall i :: 0 <= i < |prefix| ==> prefix[i] == plans[i];
      ApplyAllPreserves(mode, table, prefix, P);
      var st := ApplyAll(mode, table, prefix);
      var p := plans[|plans| - 1];
      if p.Accept? {
        var base := if p.key in st.table then st.table[p.key] else p.blank;
        var last := |plans| - 1;
        assert P(plans[last].blank + plans[last].defaults) && forall r :: P(r) ==> P(r + plans[last].defaults);
        if p.key in st.table {
          assert P(st.table[p.key]);
        }
        assert P(base + p.defaults);
        assert Apply(mode, st, p).table == st.table[p.key := base + p.defaults];
      }
    }
  }
}
