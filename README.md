# RFMS core, modelled in Dafny

RFMS is a railway failure management system: a Django backend with a Vue
frontend. Failures are logged against circuits, stations, sections and
supervisors. This project models the logic of its core and proves
properties about it.

**Backend**

- *Spreadsheet importers and exporters* for circuits, supervisors, stations
  and their equipment, sections with subsections and assets, and depots with
  their equipment.
  - Each import is a loop over rows. It validates a row, normalises its key,
    upserts into a keyed table, and keeps the created, updated and skipped
    counters and an error list.
  - Each export shapes one output row per record.
  - A spreadsheet row is a map from column name to an optional cell. Each
    table is a map from its lookup key to a record.
- *The logbook endpoint*: filter pipeline, sort-field mapping and pagination.
- *The dashboard endpoint*: time window, KPI counts, per-section status
  counts, resolved-per-day counts and the "Xh Ym" duration text.
- *The supervisor movement views*: the date check, pairing supervisors with
  their movement, and the rows and caption of the movement report.
- *Settings*:
  - Telegram: the bot-settings singleton, seeding of the default groups, and
    the test-message guard.
  - Email: the pk=1 singleton, the blank-password rule, recipient
    normalisation, and the From header and TLS/SSL flags of the test mail.
  - The older notification settings model.
- *Serializers*: the user create and update rules, and the supervisor
  update with its many-to-many replacement.

**Frontend**

- *Stores*: the catalogue asset union, the e-mail recipient lists, the
  depot list, the Telegram groups, and the mock authentication store.
- *Router*: the authentication guard.
- *Colour helpers*: hex/rgb parsing, status and severity palettes, and
  `withAlpha`.
- *Display settings*: theme, brand and CSS-variable presets.
- *PrimeVue*: the class functions of the pass-through configuration.

**How the model is built**

- Code that changes state step by step becomes a Dafny class or an
  imperative method with loop invariants. Examples are the importers, the
  singleton stores, the Pinia stores and the browser state of the
  theme/brand helpers.
- Each such method is proved against a pure function of the old state.
- Pure code becomes functions.
- The properties are stated as `ensures` clauses and as lemmas about those
  functions.

**Modules and files**

- There is one module per source file. Shared modules hold the rest:
  - `Common`: strings and `Option`.
  - `Orm` (`orm.dfy`): `update_or_create`, `get_or_create` and the row API.
  - `Sorting`: filtering and stable ordering.
  - `Failures`: the failure record.
  - `Js`: JavaScript values and truthiness.
  - `Dom`: browser state.
- `status_colors.dfy` holds two modules: `StatusColors` models
  `lib/statusColors.js`, and `StatusColorsTyped` models the TypeScript copy.

**The 'updated' counters**

- The importers take an `Orm.Mode` that selects how "updated" is counted:
  - `AsWritten` is the source.
  - `Intended` compares against the record stored before the upsert.
- The depot import takes the same mode. It selects whether an empty
  equipment text cell is stored as "nan" (as written) or as blank (as
  intended).
- The dashboard's 'today' window takes the same mode: UTC midnight as
  written, local midnight as intended.
- The logbook and dashboard views take it too: as written they never
  answer, as intended they do.
- Every other property holds for both modes.

**Inconsistencies in the source**

- The logbook view imports `FailureSerializer`, which the failures app
  does not define, so its module cannot load. Both the logbook and the
  dashboard filter on `is_archived`, which the Failure model does not
  declare, so each base queryset raises FieldError. Neither view ever
  answers as written. `Logbook.Get` and `Dashboard.Get` take an
  `Orm.Mode`: the filters, orderings, pages and charts are those of the
  views as intended. The `isArchived` field of `Failures.Failure` is that
  intended archive flag.
- The operations views import `TelegramGroup` from `notifications.models`,
  which does not define it. The module cannot load, so both views fail.
  The model describes what their bodies compute.
- The movement report looks for the group key 'alert', while seeding
  creates 'alerts'.
- The user serializer lists `role`, `designation` and `phone_number`,
  which the User model here does not declare. The model keeps them as
  serializer fields.
- The supervisor serializer sets `station_equipments`, which the
  Supervisor model does not declare. The model keeps it as a relation.
- In the email settings update, making the update partial changes nothing
  observable, because no field is required. The model records the flag and
  proves that a dropped blank password is never validated.
- `send_test_message` catches `TelegramGroup.DoesNotExist`, but
  `get_object` raises `Http404`. The framework's own 404 answers instead.
- `clearPreset` has no semicolon after its first statement, so it throws
  before removing any inline variable. `Presets.ClearPreset` models that,
  and `Presets.ClearPresetIntended` the evident intent.

## Model

| member | source | states |
|---|---|---|
| Orm.UpdateOrCreate | backend/circuits/views.py:59-62 | `update_or_create` creates exactly when the key is new, stores the defaults over the existing (or blank) record, touches no other key and returns the stored object |
| Orm.AttrMerge | backend/circuits/views.py:59-62 | after the merge an attribute holds the defaults' value when the defaults set it, else its old value |
| Orm.GetOrCreate | backend/sections/views.py:104-111 | `get_or_create` on a key-only table adds the key and reports creation exactly when it was absent |
| Orm.UpsertedObjectNeverDiffers | backend/circuits/views.py:59-65 | the object returned by `update_or_create` never differs from its defaults, so the "any attribute differs" test is always false |
| Orm.ClassifyMatchesStoredChange | backend/circuits/views.py:64-66 | the corrected counting says Updated exactly when an existing record is changed by the upsert, and Created exactly when it was created |
| Orm.FindBy | backend/supervisors/views.py:48-58 | `objects.get(field=v)`: NotFound exactly when no record matches, Found with the one matching key when exactly one does, Multiple exactly when two distinct records match |
| Orm.SingletonUnique | backend/supervisors/views.py:48-58 | a one-element set holds only that element (used to show a Found lookup is unique) |
| Orm.ReportWithErrors | backend/circuits/views.py:68-70 | the response is 207 when there are errors and 200 otherwise, carries the message and at most the first 50 errors |
| Orm.Outcome | backend/circuits/views.py:64-66 | an upsert counts as created exactly when the key was not in the table |
| Orm.UpsertCountsKey | backend/circuits/views.py:59-64 | an upsert counted as created adds exactly one key to the table, any other adds none |
| Orm.AsWrittenNeverUpdated | backend/circuits/views.py:64-66 | as written, an upsert is never counted as updated |
| Orm.ApplyAllStep | backend/circuits/views.py:38-66 | applying the first i+1 row plans is applying the first i and then plan i |
| Orm.AcceptStep | backend/circuits/views.py:59-66 | one accepted row upserts its key and bumps created or skipped, appending its errors |
| Orm.KeysOfAccepted | backend/circuits/views.py:38-66 | the keys the plans upsert are exactly the keys of the accepted plans |
| Orm.ApplyOne | backend/circuits/views.py:59-62 | a single accepted row stores its defaults over the stored or blank record |
| Orm.LastRowWins | backend/circuits/views.py:59-62 | after the import, the key of the last accepted row holds every value that row set, whatever earlier rows wrote |
| Orm.LastRowKeeps | backend/circuits/views.py:47-62 | an attribute the last row does not set keeps the value it had before that row |
| Orm.EveryPlanCounted | backend/circuits/views.py:38-66 | created + updated + skipped equals the number of rows |
| Orm.AsWrittenCountsNoUpdate | backend/circuits/views.py:64-66 | as written, the import's updated counter stays 0 |
| Orm.ApplyAddsKey | backend/circuits/views.py:59-64 | one plan adds its key (if accepted) and counts a creation exactly when the key was new |
| Orm.ApplyAllAddsKeys | backend/circuits/views.py:38-66 | the table's keys afterwards are the old keys plus the keys of the accepted rows |
| Orm.CreatedCountsNewKeys | backend/circuits/views.py:38-66 | the created counter equals the number of keys the import added |
| Orm.ApplyAllKeepsOthers | backend/circuits/views.py:38-66 | a stored record that no row names is unchanged |
| Orm.ApplyAllErrors | backend/circuits/views.py:38-66 | the error list is the rows' errors concatenated in row order |
| Orm.NoErrorsIffNoneReported | backend/circuits/views.py:38-69 | no error is collected exactly when no row reports one |
| Orm.ApplyAllPreserves | backend/circuits/views.py:38-66 | an invariant of stored records that every accepted row respects holds of the whole table afterwards |
| Circuits.TextDefaults | backend/circuits/views.py:47-50 | name, related_equipment and details are written exactly when their column is present and non-null, and nothing else is |
| Circuits.RowDefaults | backend/circuits/views.py:47-57 | a row reports an error exactly when its severity is present but not Minor, Major or Critical after strip and title-case; severity is written exactly when present and is always one of the three; the text defaults are kept |
| Circuits.PlanRow | backend/circuits/views.py:39-57 | a row is upserted exactly when its raw Circuit ID cell is non-empty (a whitespace-only id passes and is upserted under ""), under the stripped id; it has no error exactly when the id is present and the severity acceptable |
| Circuits.PlanRows | backend/circuits/views.py:38-66 | one plan per row, in row order, each planned from its own index |
| Circuits.ImportRowsStep | backend/circuits/views.py:38-66 | importing the first i+1 rows is importing the first i and then row i |
| Circuits.CircuitStore.constructor | backend/circuits/models.py:5-19 | the circuit table starts empty |
| Circuits.CircuitStore.ImportFromExcel | backend/circuits/views.py:21-75 | no file gives 400 and an unreadable file 400 "Import error: …", both changing nothing; a sheet leaves the table and the response equal to the row-by-row import of its rows, as written |
| Circuits.ExportToExcel | backend/circuits/views.py:77-92 | one five-column line per circuit in queryset order, or a single all-None line when there is none |
| Circuits.EveryRowCounted | backend/circuits/views.py:38-66 | created + updated + skipped equals the number of rows |
| Circuits.UpdatedNeverCounted | backend/circuits/views.py:59-66 | as written, the updated counter is always 0 |
| Circuits.LaterRowOverwrites | backend/circuits/views.py:45-62 | after a row with a Circuit ID, that circuit holds every value the row sets, whatever earlier rows wrote |
| Circuits.AbsentColumnKept | backend/circuits/views.py:47-62 | a row with Name, Related Equipment or Details absent or null leaves that attribute of the existing circuit unchanged |
| Circuits.KeysArePlannedIds | backend/circuits/views.py:39-45 | the keys the rows upsert are exactly the stripped Circuit IDs of the rows whose raw cell is non-empty, "" included for a whitespace-only cell |
| Circuits.ImportAddsIds | backend/circuits/views.py:38-64 | the table gains exactly the rows' Circuit IDs, and the created count is the number of new circuits |
| Circuits.OthersUntouched | backend/circuits/views.py:38-62 | a circuit no row names keeps its stored record |
| Circuits.SeveritiesStayValid | backend/circuits/views.py:51-57 | if every stored severity is Minor, Major or Critical, it still is after any import |
| Circuits.NoErrorsIffWellFormed | backend/circuits/views.py:38-70 | the import collects no error, and answers 200, exactly when every row has a Circuit ID and an acceptable severity |
| Circuits.ValidSeveritiesAreTitled | backend/circuits/views.py:35-53 | each of Minor, Major and Critical is its own title-case form, so it survives normalisation |
| Circuits.ExportedCells | backend/circuits/views.py:83-90 | the cells of a circuit's export line hold its id, name, related equipment, severity and details |
| Circuits.FilledRowAccepted | backend/circuits/views.py:39-57 | a row with a stripped non-empty Circuit ID and a valid severity is upserted under that id without an error |
| Circuits.FilledRowDefaults | backend/circuits/views.py:47-57 | a row whose cells are stripped text with a valid severity writes those four values unchanged |
| Circuits.ExportedRowPlan | backend/circuits/views.py:39-90 | re-importing a circuit's export line upserts all four attributes under its id, without an error |
| Circuits.PlanRestores | backend/circuits/views.py:59-62 | upserting a plan carrying a circuit's four attributes under its id leaves exactly that circuit stored there |
| Circuits.ExportImportRoundTrip | backend/circuits/views.py:38-90 | importing the export line of a well-formed circuit stores that same circuit under its id |
| Circuits.IntendedUpdatedIffChanged | backend/circuits/views.py:64-66 | with the corrected counting, a row counts as updated exactly when it changes an existing stored circuit |
| Supervisors.DepotOf | backend/supervisors/views.py:46-56 | no Depot Code gives no depot and no warning; otherwise the depot is the one record whose code equals the stripped code, and an unknown or ambiguous code gives no depot and exactly one warning |
| Supervisors.TextDefaults | backend/supervisors/views.py:59-61 | designation, mobile and email are written exactly when their column is present and non-null |
| Supervisors.RowDefaults | backend/supervisors/views.py:58-61 | the depot is always written, found or None, together with the present text columns and nothing else |
| Supervisors.PlanRow | backend/supervisors/views.py:39-61 | a row is upserted exactly when it has a supervisor name, under the stripped name, carrying the depot warning if any; a row without one is rejected with "Missing Supervisor name." |
| Supervisors.PlanRows | backend/supervisors/views.py:38-70 | one plan per row, in row order, each planned from its own index |
| Supervisors.ImportRowsStep | backend/supervisors/views.py:38-70 | importing the first i+1 rows is importing the first i and then row i |
| Supervisors.SupervisorStore.constructor | backend/supervisors/models.py:9-34 | the supervisor table starts empty |
| Supervisors.SupervisorStore.ImportFromExcel | backend/supervisors/views.py:22-79 | no file and an unreadable file give 400 and change nothing; a sheet leaves the table and response equal to the row-by-row import, as written |
| Supervisors.DepotCode | backend/supervisors/views.py:91 | the Depot Code cell is the linked depot's code, or None for a supervisor without a depot |
| Supervisors.ExportToExcel | backend/supervisors/views.py:81-96 | one line per supervisor in queryset order, or a single all-None line when there is none |
| Supervisors.EveryRowCounted | backend/supervisors/views.py:38-70 | created + updated + skipped equals the number of rows |
| Supervisors.UpdatedNeverCounted | backend/supervisors/views.py:63-70 | as written, the updated counter is always 0 |
| Supervisors.KeysArePlannedNames | backend/supervisors/views.py:39-45 | the keys the rows upsert are exactly their stripped supervisor names |
| Supervisors.ImportAddsNames | backend/supervisors/views.py:38-68 | the table gains exactly the rows' supervisor names (a row with an unknown depot included), and created counts the new ones |
| Supervisors.OthersUntouched | backend/supervisors/views.py:38-66 | a supervisor no row names keeps its stored record |
| Supervisors.DepotAlwaysWritten | backend/supervisors/views.py:58-66 | after a row with a name, the supervisor's depot is the one that row resolved, or None, and its present text columns are written |
| Supervisors.AbsentColumnKept | backend/supervisors/views.py:59-66 | a row with Designation, Mobile or Email absent or null leaves that attribute of the existing supervisor unchanged |
| Supervisors.PlannedDepotLinksInto | backend/supervisors/views.py:48-58 | an accepted row links its supervisor to a depot of the depot table or to none |
| Supervisors.DepotLinksStayValid | backend/supervisors/views.py:38-66 | if every stored supervisor's depot is a depot of the table, that still holds after the import |
| Supervisors.NoErrorsIffWellFormed | backend/supervisors/views.py:38-74 | the import collects no error, and answers 200, exactly when every row names a supervisor and every Depot Code given matches exactly one depot |
| Supervisors.ExportedDepotCode | backend/supervisors/views.py:87-94 | a supervisor without a depot exports an empty Depot Code, one with a depot exports that depot's code |
| Stations.NoSlashNoSep | backend/stations/views.py:123 | a text without '/' does not contain the ' / ' separator |
| Stations.NoSepBefore | backend/stations/views.py:123 | in "make / model" with a slash-free make, no separator starts before the end of make |
| Stations.FirstSepAfter | backend/stations/views.py:123 | the first ' / ' in "make / model" with a slash-free make sits right after make |
| Stations.MakeModelRoundTrip | backend/stations/views.py:78-123 | when Make and Model are both non-empty and contain no '/', splitting the combined make_modal on export gives back exactly (Make, Model) |
| Stations.SingleMakeModelStable | backend/stations/views.py:78-123 | a lone Make or Model without '/' is exported as the Make cell with an empty Model, and re-importing it writes the same make_modal |
| Stations.StationDefaults | backend/stations/views.py:56-61 | the station defaults always hold the resolved depot and the stripped name, and the stripped category exactly when the Category column is present |
| Stations.EquipmentDefaults | backend/stations/views.py:77-86 | make_modal is written exactly when the stripped Make or Model is non-empty, as their combination; category exactly when Equipment Category or Category is present |
| Stations.EquipmentOf | backend/stations/views.py:73-77 | a row names an equipment exactly when its Equipment Name is non-empty after stripping, under the stripped name with the row's equipment defaults |
| Stations.PlanRow | backend/stations/views.py:39-91 | a row upserts its station exactly when Depot, Sation Name and Station Code are present and the stripped depot code matches exactly one depot; the station is keyed by the stripped code with that depot and name |
| Stations.PlanRows | backend/stations/views.py:38-100 | one plan per row, in row order, each planned from its own index |
| Stations.ImportRowsStep | backend/stations/views.py:38-100 | importing the first i+1 rows is importing the first i and then row i |
| Stations.StationStore.constructor | backend/stations/models.py:6-33 | the station and equipment tables start empty |
| Stations.StationStore.ImportStationsFile | backend/stations/views.py:22-111 | no file and an unreadable file give 400 and change nothing; a sheet leaves both tables and the response equal to the row-by-row import, as written |
| Stations.StationStore.ImportRow | backend/stations/views.py:39-100 | one pass of the loop body leaves the tables and counters as the row's plan says |
| Stations.StationStore.ImportStation | backend/stations/views.py:64-100 | the station upsert of a passing row and its equipment leave the tables and counters as the plan says |
| Stations.StationStore.ImportEquipment | backend/stations/views.py:73-98 | the equipment step changes no station, upserts the named equipment under (station, name) if any, and counts it as written |
| Stations.CountRowFacts | backend/stations/views.py:69-100 | a passing row bumps processed by one, skipped by at most one, and each created/updated counter exactly when its upsert was classified so |
| Stations.RowCounts | backend/stations/views.py:44-100 | a rejected row appends one error and is not processed; a passing row appends none and is processed; skipped grows by at most one |
| Stations.RowKeys | backend/stations/views.py:64-91 | one row adds its station code and its equipment key, if any, to the tables and nothing else |
| Stations.EquipmentCreated | backend/stations/views.py:91-93 | an equipment upsert counted as created adds exactly one key |
| Stations.RowCreated | backend/stations/views.py:64-93 | each created counter grows by the number of keys the row added to its table |
| Stations.FoldCounts | backend/stations/views.py:38-100 | over all rows: errors are the rejected rows' errors in order, processed + errors = rows, errors ≤ skipped ≤ rows |
| Stations.FoldKeys | backend/stations/views.py:38-91 | the tables gain exactly the passing rows' station codes and equipment keys |
| Stations.FoldCreated | backend/stations/views.py:38-93 | each created counter equals the number of keys added to its table |
| Stations.FoldNoUpdates | backend/stations/views.py:69-94 | as written, neither updated counter ever moves |
| Stations.FoldKeepsStation | backend/stations/views.py:38-91 | a station no passing row names keeps its record |
| Stations.FoldKeepsEquipment | backend/stations/views.py:38-91 | an equipment no passing row names keeps its record |
| Stations.RowKeepsEquipment | backend/stations/views.py:73-91 | one row leaves every equipment it does not name alone |
| Stations.SkipErrorsEmpty | backend/stations/views.py:44-53 | no error is collected exactly when every row passes |
| Stations.CodesOfUpserts | backend/stations/views.py:64-91 | the station codes and equipment keys upserted are exactly those of the passing rows |
| Stations.PlannedKeys | backend/stations/views.py:39-91 | the planned station codes and equipment keys are the stripped codes and names of the passing rows |
| Stations.EveryRowCounted | backend/stations/views.py:44-100 | processed plus the number of errors equals the number of rows, and errors ≤ skipped ≤ rows |
| Stations.NoErrorsIffAllPass | backend/stations/views.py:44-53 | the import collects no error exactly when every row passes the checks |
| Stations.OkIffAllPass | backend/stations/views.py:44-104 | the import answers 200 exactly when every row passes the checks, 207 otherwise |
| Stations.UpdatedNeverCounted | backend/stations/views.py:64-94 | as written, neither the station nor the equipment updated counter is ever non-zero |
| Stations.ImportAddsKeys | backend/stations/views.py:38-93 | the tables gain exactly the passing rows' station codes and equipment keys, and each created count is the number of new records |
| Stations.OthersUntouched | backend/stations/views.py:38-91 | stations and equipment no row names keep their records |
| Stations.LastPlan | backend/stations/views.py:38-100 | the plans of rows + [row] are the plans of rows followed by row's plan |
| Stations.LaterRowOverwrites | backend/stations/views.py:56-67 | after a passing row, its station holds the row's depot and name, and its category when given, whatever earlier rows wrote |
| Stations.AbsentCategoryKept | backend/stations/views.py:60-67 | a passing row without Category leaves an existing station's category unchanged |
| Stations.EquipmentOnlyWhenNamed | backend/stations/views.py:73-91 | a passing row without an equipment name leaves the equipment table unchanged; one with a name leaves that equipment holding every value the row set |
| Stations.DepotLabel | backend/stations/views.py:125 | the Depot cell is the depot's code when that is non-empty, else its name |
| Stations.EquipmentLines | backend/stations/views.py:121-135 | one line per equipment of the station, in order |
| Stations.ExportToExcel | backend/stations/views.py:113-144 | the export lines of every station in order, or one all-None line when there is no station |
| Stations.ExportLineCount | backend/stations/views.py:119-143 | the export has one line per equipment and at least one line per station |
| Stations.NonEmptyLines | backend/stations/views.py:119-144 | the lines are empty exactly when there is no station |
| Stations.PrefixLines | backend/stations/views.py:119-143 | the lines of the first k stations come first in the export |
| Stations.LineOfEquipment | backend/stations/views.py:119-135 | equipment j of station k is exported at position (lines before station k) + j |
| Stations.LineStationCells | backend/stations/views.py:124-141 | both kinds of line carry the station's depot label, name and code |
| Stations.FilledRowPlanned | backend/stations/views.py:39-61 | a row with stripped non-empty Depot, Sation Name and Station Code and a known depot upserts that station with that depot and name |
| Stations.ExportedStationReplans | backend/stations/views.py:39-141 | re-importing an export line of a station with a well-formed, unique depot code upserts the same station with the same depot and name |
| Sections.StrippedCell | backend/sections/views.py:108-125 | `str(v).strip() if v else None`: defined exactly for a truthy cell, as its stripped text |
| Sections.LookupDepot | backend/sections/views.py:73-102 | a stripped identifier resolves exactly when it is non-empty and names exactly one depot in the given field; otherwise the row gets exactly one error |
| Sections.ResolveDepot | backend/sections/views.py:73-91 | a truthy Depot Name is looked up by name; else a truthy Depot by code; with neither the row is unresolved with two errors |
| Sections.AssetDefaults | backend/sections/views.py:118-127 | the unit is written exactly when the Unit cell is non-empty after stripping, as the stripped text, and nothing else is |
| Sections.AssetOf | backend/sections/views.py:113-118 | a row names an asset only when it names a subsection, with its asset defaults |
| Sections.ResolvedAnyIndex | backend/sections/views.py:73-102 | whether and how a depot resolves does not depend on the row's index |
| Sections.PlanRow | backend/sections/views.py:56-114 | a rejected row has errors; an imported row resolved its depot, has a non-empty stripped Section, and carries its subsection and asset |
| Sections.PlanRowImports | backend/sections/views.py:60-102 | a row is imported exactly when its Section is non-blank after stripping and its depot resolves |
| Sections.PlanRows | backend/sections/views.py:55-143 | one plan per row, in row order, each planned from its own index |
| Sections.ImportRowsStep | backend/sections/views.py:55-143 | importing the first i+1 rows is importing the first i and then row i |
| Sections.Respond | backend/sections/views.py:145-154 | 200 exactly when there is no error, with an error list exactly when there are errors, holding the first 50 |
| Sections.SectionStore.constructor | backend/sections/models.py:6-39 | the section, subsection and asset tables start empty |
| Sections.SectionStore.ImportMasterFile | backend/sections/views.py:30-160 | no file and an unreadable file give 400 and change nothing; a sheet leaves the three tables and the response equal to the row-by-row import, as written |
| Sections.SectionStore.ImportRow | backend/sections/views.py:56-143 | one pass of the loop body leaves the tables and counters as the row's plan says |
| Sections.SectionStore.ImportSectionRow | backend/sections/views.py:104-143 | the get-or-creates of an imported row, then its asset, leave the tables and counters as the plan says |
| Sections.SectionStore.ImportAsset | backend/sections/views.py:113-141 | the asset step changes no section or subsection, upserts the named asset if any, and counts it as written |
| Sections.CountRowFacts | backend/sections/views.py:104-143 | an imported row bumps processed by one, skipped by at most one, and each created counter exactly when its record was created |
| Sections.RowCounts | backend/sections/views.py:56-143 | a rejected row appends its errors and is not processed; an imported one is; skipped grows by at most one |
| Sections.RowKeys | backend/sections/views.py:104-133 | an imported row adds its (depot, section), its subsection key and its asset key, if any, and nothing else |
| Sections.RowCreated | backend/sections/views.py:104-135 | each created counter grows by the number of records the row added to its table |
| Sections.FoldCounts | backend/sections/views.py:55-143 | over all rows: errors are the rows' errors in order, processed + rejected = rows, rejected ≤ skipped growth ≤ rows |
| Sections.FoldKeys | backend/sections/views.py:55-133 | each table gains exactly the imported rows' keys |
| Sections.FoldCreated | backend/sections/views.py:55-135 | each created counter equals the number of records added to its table |
| Sections.FoldNoUpdates | backend/sections/views.py:129-137 | as written, the updated assets counter never moves |
| Sections.ErrorsPerRejectedRow | backend/sections/views.py:56-102 | when each rejected row has one or two errors, the error count lies between the rejected count and twice it |
| Sections.NoErrorsIffNoneRejected | backend/sections/views.py:56-102 | when rejected rows always have errors, there is no error exactly when no row is rejected |
| Sections.RowErrorCount | backend/sections/views.py:60-102 | a rejected row reports one error, or two when it has neither depot cell |
| Sections.EveryRowCounted | backend/sections/views.py:55-143 | every row is either processed or rejected with one or two errors |
| Sections.NoErrorsIffAllImport | backend/sections/views.py:55-154 | no error is reported, and the answer is 200 without an error list, exactly when every row has a section and a resolving depot |
| Sections.UpdatedNeverCounted | backend/sections/views.py:129-137 | as written, the updated assets counter is always 0 |
| Sections.ImportAddsKeys | backend/sections/views.py:55-135 | each table gains exactly the imported rows' keys, and each created count is the number of records added |
| Sections.LastPlan | backend/sections/views.py:55-143 | the plans of rows + [row] are the plans of rows followed by row's plan |
| Sections.NoDepotTwoErrors | backend/sections/views.py:84-93 | a row with a section but neither Depot Name nor Depot creates nothing and adds exactly its two errors |
| Sections.RowRecorded | backend/sections/views.py:104-133 | after an imported row its section, its subsection when named, and its asset when named (with the unit given) are stored |
| Sections.AbsentUnitKept | backend/sections/views.py:125-133 | an asset row without a unit leaves an existing asset's unit unchanged |
| Sections.FoldKeepsAsset | backend/sections/views.py:128-132 | rows that do not name an asset leave its stored record as it was |
| Sections.OthersUntouched | backend/sections/views.py:55-140 | the import never removes a section or subsection, and an existing asset that no row names keeps its record |
| Depots.DepotDefaults | backend/depots/views.py:44-48 | code and location are written exactly when their cell holds a value, unstripped, and nothing else is |
| Depots.PlanRow | backend/depots/views.py:40-66 | a row is used exactly when its Depot is truthy, upserting the depot under the unstripped Depot value, and it names equipment exactly when Equipment Name holds a value |
| Depots.PlanRows | backend/depots/views.py:39-67 | one plan per row, in row order |
| Depots.ImportRowsStep | backend/depots/views.py:39-67 | importing the first i+1 rows is importing the first i and then row i |
| Depots.FirstClash | backend/depots/models.py:8 | the first row whose depot upsert would write a code that another depot already holds, with every earlier row clear of such a clash, or the number of rows when none clashes |
| Depots.FirstClashIs | backend/depots/views.py:39-74 | a row that follows only clear rows and clashes, or the end of a sheet of clear rows, is that first clash |
| Depots.ApplyRowKeepsCodesUnique | backend/depots/models.py:8 | a row that does not clash keeps every non-null depot code held by one depot only |
| Depots.CodesStayUnique | backend/depots/views.py:39-74 | the rows committed before the first clash keep the depot codes unique |
| Depots.SharedCodeStopsImport | backend/depots/views.py:50-53 | of two rows giving depots A and B the code X, the first is committed and the second stops the import |
| Depots.DepotStore.constructor | backend/depots/models.py:5-14 | the depot and equipment tables start empty |
| Depots.DepotStore.ImportFromExcel | backend/depots/views.py:21-74 | no file and an unreadable file give 400 and change nothing; a read sheet leaves the tables as the row-by-row import up to the first row whose code another depot holds, and answers 200 with the two counts when there is none, 400 with the database error otherwise |
| Depots.DepotStore.ImportRow | backend/depots/views.py:40-67 | one pass of the loop body fails, writing nothing, exactly when the row's code is another depot's, and otherwise leaves the tables and counters as the row's plan says |
| Depots.DepotNamesStep | backend/depots/views.py:40-53 | the depot names of the rows are those of all but the last row plus the last row's |
| Depots.EquipmentNamesStep | backend/depots/views.py:56-66 | likewise for the (depot, equipment name) keys |
| Depots.RowKeys | backend/depots/views.py:50-66 | one row adds its depot name and its equipment key, when it has them, and nothing else |
| Depots.DepotRowCounts | backend/depots/views.py:40-54 | a row with a Depot bumps depots_processed by one and adds at most one depot; a row without one does neither |
| Depots.EquipmentRowCounts | backend/depots/views.py:56-67 | a row with a Depot and an Equipment Name bumps equipment_created by one and adds at most one equipment |
| Depots.ImportLast | backend/depots/views.py:39-67 | the import of a sheet is the import of all but its last row, then that row |
| Depots.ImportDepotKeys | backend/depots/views.py:39-53 | the depot table gains exactly the depots the rows name |
| Depots.ImportEquipmentKeys | backend/depots/views.py:39-66 | the equipment table gains exactly the equipment keys the rows name |
| Depots.ImportCounts | backend/depots/views.py:39-67 | depots_processed counts the rows with a Depot and equipment_created the rows with an Equipment Name, at least as many as the records added |
| Depots.CountsBounded | backend/depots/views.py:39-67 | equipment_created ≤ depots_processed ≤ rows, with equality to rows exactly when every row has a Depot |
| Depots.LastRow | backend/depots/views.py:39-67 | the import of rows + [row] is the import of rows followed by row |
| Depots.IgnoredRowChangesNothing | backend/depots/views.py:40-42 | a row without a Depot changes nothing, not even a counter, and adds no error |
| Depots.LaterRowOverwrites | backend/depots/views.py:44-53 | after a row with a Depot, that depot holds the row's Code and Location when given and keeps its stored (or blank) ones otherwise |
| Depots.DepotAfterRow | backend/depots/views.py:44-53 | the same for one row applied to any state |
| Depots.EquipmentOnlyWhenNamed | backend/depots/views.py:56-66 | a row without an Equipment Name leaves the equipment table unchanged; one with it leaves that equipment holding all four defaults of the row |
| Depots.EmptyNotesStoredAsNan | backend/depots/views.py:29-64 | as written, an equipment row with an empty Notes cell stores the text "nan" |
| Depots.IntendedBlankWhenEmpty | backend/depots/views.py:61-64 | as intended, each equipment text field holds its cell's text, or '' when the column is absent or the cell empty |
| Depots.EquipmentLines | backend/depots/views.py:82-88 | one line per equipment of the depot, in order |
| Depots.ExportToExcel | backend/depots/views.py:77-93 | one line per equipment, one bare line per depot without equipment, in depot order, and no line when there is no depot |
| Depots.ExportStep | backend/depots/views.py:80-93 | the lines of the first i+1 depots are those of the first i followed by depot i's |
| Depots.AppendEquipmentLines | backend/depots/views.py:82-88 | the inner loop appends exactly the depot's equipment lines |
| Depots.ExportLineCount | backend/depots/views.py:80-93 | the export has one line per equipment and at least one line per depot |
| Depots.DepotLineCells | backend/depots/views.py:84-91 | read back as a row, both kinds of line carry the depot's name, code and location cells |
| Depots.LineDepotCells | backend/depots/views.py:84-91 | both kinds of line carry the depot's name, code and location |
| Depots.ExportedDepotReplans | backend/depots/views.py:40-91 | re-importing any line of a named depot upserts that depot again with its code and location, and no code when it has none |
| Depots.EquipmentLineCells | backend/depots/views.py:84-87 | read back as a row, an equipment line carries the equipment's name and four text cells |
| Depots.LineEquipmentCells | backend/depots/views.py:84-87 | an equipment line carries the equipment's name and four text values |
| Depots.AsRowAt | backend/depots/views.py:84-92 | reading a line back as a row turns each present cell into its optional text |
| Depots.ExportedEquipmentReplans | backend/depots/views.py:56-92 | re-importing an equipment line plans that equipment again with its four text values; a bare line plans none |
| Failures.LookupFields | backend/failures/models.py:8-52 | the fields a lookup resolves against include every model field, and include `is_archived` exactly as intended, never as written |
| Failures.NoArchiveField | backend/failures/models.py:8-52 | `is_archived` is none of the Failure model's fields, the `TimestampedModel` timestamps and `id` included |
| Logbook.FoldIsWhere | backend/logbook/views.py:20-66 | reassigning the queryset through a sequence of filters is one filter by all of them, in the original order |
| Logbook.PassesAllConcat | backend/logbook/views.py:28-66 | passing two lists of filters in turn is passing both |
| Logbook.PassesAllStep | backend/logbook/views.py:43-66 | a filter applied only when its parameter is set restricts exactly when the parameter is set |
| Logbook.KeepIffPassesAll | backend/logbook/views.py:20-66 | the step-by-step pipeline of the view as intended keeps a failure exactly when it is not archived, matches the query in one of the nine fields, is in every non-empty id/status list, and lies within every date bound that parses |
| Logbook.FilteredIsKeep | backend/logbook/views.py:20-66 | as intended, the filtered set is the failures meeting every switched-on condition, in order, and none of them is archived |
| Logbook.OrderingCases | backend/logbook/views.py:69-90 | the ordering is descending exactly when sortDir is 'desc' or absent; its field is the mapped one for a mapped key and reported_at for any other, the default '-reported_at' included |
| Logbook.SortFieldMapped | backend/logbook/views.py:73-84 | every sort key gives a field among the mapped ones |
| Logbook.FieldUndashed | backend/logbook/views.py:73-82 | no mapped field starts with '-' |
| Logbook.DefaultKeyUnmapped | backend/logbook/views.py:69-84 | the default key '-reported_at' is not a key of the map |
| Logbook.DefaultOrdering | backend/logbook/views.py:69-90 | with no sort parameters the order is '-reported_at', newest first |
| Logbook.NumPages | backend/logbook/views.py:96-109 | the page count is at least one and the smallest n with max(1, count) ≤ n × perPage |
| Logbook.PageNumber | backend/logbook/views.py:93-102 | an in-range page is kept, an out-of-range number gives the last page, and a non-integer gives page 1 |
| Logbook.PageItems | backend/logbook/views.py:96-102 | a page holds at most perPage failures |
| Logbook.PagesCover | backend/logbook/views.py:96-102 | the failure at position i sits on page i div perPage + 1 at offset i mod perPage |
| Logbook.DivMod | backend/logbook/views.py:96-102 | i = (i div p) × p + i mod p with 0 ≤ i mod p < p |
| Logbook.MulStrict | backend/logbook/views.py:96-102 | a × c < b × c implies a < b |
| Logbook.MulMonotone | backend/logbook/views.py:96-102 | a ≤ b implies a × c ≤ b × c |
| Logbook.FullPages | backend/logbook/views.py:96-102 | every page before the last holds exactly perPage failures |
| Logbook.RowsPerPage | backend/logbook/views.py:94-96 | the page size is 20 when rowsPerPage is absent and the given number when it is a positive integer; a non-integer, zero or negative size makes the paginator raise |
| Logbook.Get | backend/logbook/views.py:8-111 | a server error exactly when the view cannot answer (as written it never can) or the page size is not a positive integer; otherwise the response has at least one page and at most that many results (20 by default) |
| Logbook.AnswersIff | backend/logbook/views.py:8-20 | the view can answer exactly as intended: as written, the imported `FailureSerializer` is not defined by the failures app and the `is_archived` lookup names no field of Failure |
| Logbook.LogbookNeverAnswers | backend/logbook/views.py:8-20 | as written, every request is a server error, whatever the failures and parameters |
| Logbook.LogbookAnswersAsIntended | backend/logbook/views.py:18-111 | as intended, a page is answered exactly when the page size is accepted |
| Logbook.ResultsMeetFilters | backend/logbook/views.py:18-111 | in any mode, every result of a page that is answered (only as intended) is a failure of the input that meets every switched-on condition |
| Logbook.ResultsOrdered | backend/logbook/views.py:69-102 | the results of an answered page (only as intended) are ordered by the mapped sort field: non-increasing for 'desc' or no direction, non-decreasing otherwise |
| Logbook.PageItemsSorted | backend/logbook/views.py:96-102 | a page cut from an ordered sequence is ordered |
| Logbook.NewestFirst | backend/logbook/views.py:69-90 | with no sort parameters an answered page (only as intended) lists the newest failures first |
| Logbook.PageItemsFrom | backend/logbook/views.py:96-102 | every failure on a page is one of the paginated failures |
| Logbook.CountIgnoresPage | backend/logbook/views.py:90-108 | in an answered page (only as intended), count is the size of the filtered set, whatever page, sort key or direction is requested |
| Dashboard.UtcDayStart | backend/dashboard/views.py:25-28 | `now.replace(hour=0, …)` on a UTC time: the last UTC midnight at or before now |
| Dashboard.LocalDayStart | backend/dashboard/views.py:25-28 | the last local midnight at or before now (the intended start of 'today') |
| Dashboard.RangeStart | backend/dashboard/views.py:21-32 | the window never starts after now: 'today' starts at midnight (UTC as written, local as intended), '7d' exactly 7 days back, any other range exactly 30 days back |
| Dashboard.TodayReachesIntoYesterday | backend/dashboard/views.py:25-28 | as written, at 04:30 local time a failure reported the previous local day falls inside 'today' |
| Dashboard.TodayIsLocalDay | backend/dashboard/views.py:27-28 | as intended, a time up to now is in the 'today' window exactly when it falls on the current local day |
| Dashboard.BaseIsWindow | backend/dashboard/views.py:35-37 | as intended, the base set is the non-archived failures reported at or after the start, restricted by section only when section ids are given, in order |
| Dashboard.CountDisjoint | backend/dashboard/views.py:40-41 | counts of two conditions no failure meets together sum to at most the set size |
| Dashboard.AverageDuration | backend/dashboard/views.py:44-47 | the average of resolved_at − reported_at is None exactly over an empty set, and otherwise times the count equals the sum |
| Dashboard.DurationParts | backend/dashboard/views.py:51-54 | minutes lie in 0..59, and hours and minutes come within one minute below the average seconds, for any sign |
| Dashboard.DurationWholeSeconds | backend/dashboard/views.py:51-53 | on whole seconds, hours = secs div 3600 and minutes = (secs mod 3600) div 60 |
| Dashboard.FormattedIsAvailable | backend/dashboard/views.py:49-54 | a formatted "{h}h {m}m" duration is never 'N/A' |
| Dashboard.NotAvailableIff | backend/dashboard/views.py:44-54 | avg_resolution_time is 'N/A' exactly when no resolved failure has resolved_at or the durations sum to zero |
| Dashboard.ZeroMean | backend/dashboard/views.py:50 | a mean over a non-empty set is zero exactly when the sum is zero |
| Dashboard.KpisBounded | backend/dashboard/views.py:40-42 | active and resolved failures together, and critical alerts, are each at most the base set |
| Dashboard.SectionNames | backend/dashboard/views.py:64 | the section name of every base failure, in order |
| Dashboard.SectionRows | backend/dashboard/views.py:64-66 | one count row per section name, in order, each counting its own section |
| Dashboard.StatusBySectionOrdered | backend/dashboard/views.py:64-67 | status_by_section is ordered by active count descending and every row carries its own section's Active and Resolved counts |
| Dashboard.MostActiveFirst | backend/dashboard/views.py:67 | status_by_section is ordered by active count descending |
| Dashboard.RowsAreSectionRows | backend/dashboard/views.py:64-66 | every row of status_by_section counts its own section |
| Dashboard.SectionRowAt | backend/dashboard/views.py:64-66 | any row of the unsorted rows counts its own section |
| Dashboard.SectionRowsNoDuplicates | backend/dashboard/views.py:64 | before sorting there is one row per distinct section name |
| Dashboard.KeyedRowsNoDuplicates | backend/dashboard/views.py:64 | rows keyed by distinct names are distinct |
| Dashboard.StatusBySectionDistinct | backend/dashboard/views.py:64-67 | status_by_section has one row per section name |
| Dashboard.StatusBySectionCovers | backend/dashboard/views.py:64-67 | every base failure's section has its row |
| Dashboard.KnownDaysSound | backend/dashboard/views.py:70-72 | every collected day is the resolution date of some failure |
| Dashboard.KnownDaysComplete | backend/dashboard/views.py:70-72 | every failure's resolution date is collected |
| Dashboard.DayRows | backend/dashboard/views.py:70-73 | one count row per day, in order, each counting its own day |
| Dashboard.UndatedRow | backend/dashboard/views.py:70-73 | at most one row, for the failures without a resolution date |
| Dashboard.SortedDaysIncreasing | backend/dashboard/views.py:74 | the resolution days are listed in strictly increasing order |
| Dashboard.SortedDaysComplete | backend/dashboard/views.py:70-74 | every dated resolved failure's day is listed |
| Dashboard.SortedDaysSound | backend/dashboard/views.py:70-74 | every listed day is the day of some resolved failure |
| Dashboard.ResolvedDaysIncreasing | backend/dashboard/views.py:70-74 | resolved_over_time lists dated rows after the undated one, in strictly increasing date order |
| Dashboard.IncreasingAfterUndated | backend/dashboard/views.py:74 | undated rows followed by rows over increasing days are ordered by date |
| Dashboard.DatedRowsCount | backend/dashboard/views.py:70-73 | every dated row counts its own day and is never empty |
| Dashboard.ResolvedRowsCount | backend/dashboard/views.py:70-74 | every row of resolved_over_time counts exactly the resolved failures of its day, and none is empty |
| Dashboard.ResolvedRowsCover | backend/dashboard/views.py:70-74 | every resolved failure's day has a row |
| Dashboard.DefaultRange | backend/dashboard/views.py:21-32 | with no range parameter the window starts 30 days before now |
| Dashboard.Get | backend/dashboard/views.py:19-86 | a server error exactly when the `is_archived` lookup does not resolve (always as written); otherwise the KPIs are bounded by the failures of the window, status_by_section is most active first with one row per section counting its own section, and resolved_over_time is in strictly increasing date order after the undated row |
| Dashboard.DashboardNeverAnswers | backend/dashboard/views.py:35 | as written, every request is a server error |
| Operations.CheckDate | backend/operations/views.py:84-90 | a missing or empty date gives the view's own 400, one that does not parse as YYYY-MM-DD gives 400 "Invalid date format. Use YYYY-MM-DD.", and exactly a parsed date passes |
| Operations.Zeros | backend/operations/views.py:123 | n '0' characters |
| Operations.PadNat | backend/operations/views.py:123 | a zero-padded number is all digits and at least the width long |
| Common.DigitsOfNat | backend/operations/views.py:123 | the decimal rendering of a number reads back to it |
| Operations.LeadingZeros | backend/operations/views.py:123 | leading zeros do not change the value of a digit string |
| Operations.ZerosValue | backend/operations/views.py:123 | a string of zeros reads as 0 |
| Operations.PadNatValue | backend/operations/views.py:123 | a padded number reads back to the number |
| Operations.PadNatWidth | backend/operations/views.py:123 | a number below 10^width pads to exactly width digits |
| Operations.Pow10AtMostTen | backend/operations/views.py:123 | 10^k ≤ 10 for k ≤ 1 |
| Operations.NatToStringLength | backend/operations/views.py:123 | a number below 10^width has at most max(width, 1) digits |
| Operations.IsoDateReadsBack | backend/operations/views.py:123 | `%Y-%m-%d` of a date has the fixed 10-character layout and reads back to the same year, month and day |
| Operations.StatusText | backend/operations/views.py:36 | the status is "On Leave" exactly for a leave and "On Duty" exactly otherwise |
| Operations.DetailLines | backend/operations/views.py:37-48 | a leave reads "Duration: …", plus "Looked After By: …" exactly when look_after is set; a duty reads "Location: …", plus "Purpose: …" exactly when purpose is non-empty |
| Operations.DetailsAreLines | backend/operations/views.py:37-48 | the accumulated details text is its lines joined by newlines |
| Operations.LeaveDetailsAreLines | backend/operations/views.py:38-44 | the same for a leave |
| Operations.DutyDetailsAreLines | backend/operations/views.py:45-48 | the same for a duty |
| Operations.JoinTwo | backend/operations/views.py:44-48 | two parts joined are first + separator + second |
| Operations.ReplaceNewlinesConcat | backend/operations/views.py:54 | replacing newlines distributes over concatenation |
| Operations.ReplaceNewlinesNone | backend/operations/views.py:54 | a text without newlines is unchanged |
| Operations.ReplaceNewlinesRemoves | backend/operations/views.py:54 | no newline is left after replacing them by newline-free text |
| Operations.DetailsCellLines | backend/operations/views.py:37-54 | when the lines hold no newline, the details cell is the lines joined by the escaped line break and holds no newline |
| Operations.ReportTable | backend/operations/views.py:34-55 | the table is the header row, then exactly one row per movement in movement order |
| Operations.ReportRowStatus | backend/operations/views.py:36-53 | a row's status cell says "On Leave" exactly for a leave |
| Operations.KeepsPrefix | backend/operations/views.py:54 | replacing newlines keeps a newline-free prefix in front |
| Operations.UndatedLeaveCell | backend/operations/views.py:39-42 | a leave without both dates reads "Duration: N/A" first |
| Operations.DutyCell | backend/operations/views.py:46 | a duty reads "Location: " first |
| Operations.ReportFileNameDate | backend/operations/views.py:123 | the file name is "Movement_Report_" + the ISO date + ".pdf", 30 characters long |
| Operations.MovementMapLast | backend/operations/views.py:93 | a supervisor is in the movement map exactly when a movement is theirs, and maps to the last of them |
| Operations.MovementMapHas | backend/operations/views.py:93 | a supervisor is in the movement map exactly when one of the movements is theirs |
| Operations.MovementMapLatest | backend/operations/views.py:93 | a mapped movement is one of the movements |
| Operations.AttachMovements | backend/operations/views.py:94-95 | every supervisor is listed once, in order, with its entry of the movement map or none |
| Operations.PairedMovement | backend/operations/views.py:93-95 | with one movement per supervisor, a supervisor is paired with a movement exactly when that movement is theirs |
| Operations.ByDate | backend/operations/views.py:83-97 | a bad date is exactly a 400 with its message; otherwise each supervisor, in the given name order, is paired with that day's movement for its id or none |
| Operations.SendReport | backend/operations/views.py:109-140 | a bad date is exactly a 400 with nothing built; otherwise the report is named for the date, its table is the header plus one row per movement of the day, and the reply follows the delivery outcome |
| Operations.DeliveryReply | backend/operations/views.py:128-140 | the reply is 200 exactly when delivery succeeded, and 500 otherwise |
| Telegram.GetOrCreateGroup | backend/telegram_notifications/views.py:48-51 | an existing key leaves the table and the key counter alone; a missing key appends a group with that key, the default name, no chat id and no link under the next primary key |
| Telegram.GetOrCreateFacts | backend/telegram_notifications/views.py:48-51 | one get-or-create keeps keys and primary keys unique, only appends, leaves the key present, and what it appends carries the defaults |
| Telegram.SeedAppends | backend/telegram_notifications/views.py:47-51 | seeding the groups only appends rows and keeps the table valid |
| Telegram.SeedHasKeys | backend/telegram_notifications/views.py:41-51 | after seeding, every expected key is present |
| Telegram.SeedAddsDefaults | backend/telegram_notifications/views.py:41-51 | every row seeding adds is one of the expected keys with its default name and empty chat id and link; existing groups are never renamed |
| Telegram.SeedNoop | backend/telegram_notifications/views.py:47-51 | seeding a table that already holds every expected key changes nothing |
| Telegram.SeedIdempotent | backend/telegram_notifications/views.py:36-54 | listing the groups twice creates rows at most once |
| Telegram.TelegramStore.constructor | backend/telegram_notifications/models.py:5-19 | both tables start empty and valid |
| Telegram.TelegramStore.SettingsQueryset | backend/telegram_notifications/views.py:14-17 | an empty settings table gains the pk=1 row with an empty token; a non-empty one is untouched; the rows returned are never empty |
| Telegram.TelegramStore.ListSettings | backend/telegram_notifications/views.py:20-28 | list and retrieve return the first settings row, the fresh pk=1 row when there was none |
| Telegram.TelegramStore.ListGroups | backend/telegram_notifications/views.py:32-54 | the table afterwards is the seeded one, holding all three expected keys with earlier rows unchanged, and the listing is exactly its groups ordered by name |
| Telegram.TelegramStore.SendTestMessage | backend/telegram_notifications/views.py:57-78 | an unknown group gives the framework's 404 with its 'detail' text and a group without chat id 400 with its 'error' text, neither sending anything; otherwise the test text goes to the group's chat and the reply follows the send outcome |
| Telegram.FindGroup | backend/telegram_notifications/views.py:60-63 | finds the first row with the primary key, and none exactly when no row has it |
| Telegram.UnknownGroupReply | backend/telegram_notifications/views.py:60-63 | an unknown group is answered 404: with the framework's 'detail' text as written, with 'error': 'Group not found.' as intended |
| Telegram.NotFoundHandlerUnreached | backend/telegram_notifications/views.py:60-63 | as written the 404 body has no 'error' key, so it differs from the handler's own answer |
| Telegram.NotFoundHandlerIntended | backend/telegram_notifications/views.py:62-63 | as intended the answer is 404 with 'error': 'Group not found.', the same status as written |
| Telegram.TestReply | backend/telegram_notifications/views.py:68-78 | the reply is 200 with a 'message' body exactly when the message was sent, 500 with an 'error' body otherwise |
| EmailSettings.ValidateRecipients | backend/email_notifications/serializers.py:17-24 | a value that is not an object is rejected with "Recipients must be an object."; an object is accepted with the missing to, cc and bcc keys added |
| EmailSettings.CompletedKeys | backend/email_notifications/serializers.py:21-23 | the normalised recipients hold every key given plus to, cc and bcc, keep every given value, and a missing list is empty |
| EmailSettings.CompletedIdempotent | backend/email_notifications/serializers.py:17-24 | normalising recipients twice is normalising them once |
| EmailSettings.Representation | backend/email_notifications/serializers.py:8-15 | the serialized settings carry exactly the listed fields except the write-only password, with id 1 and the stored recipients |
| EmailSettings.Payload | backend/email_notifications/views.py:32-37 | the data handed on holds a password exactly when the request had a truthy one, and every other field unchanged |
| EmailSettings.BlankPasswordKeepsStored | backend/email_notifications/views.py:34-43 | an update whose password is missing or blank keeps the stored password |
| EmailSettings.PasswordTrimmed | backend/email_notifications/models.py:19 | a non-empty password is stored with its surrounding whitespace trimmed, which empties an all-blank one; one longer than 255 characters after trimming is rejected |
| EmailSettings.PaddedPasswords | backend/email_notifications/models.py:19 | " s3cret " is stored as "s3cret" and " " clears the stored password |
| EmailSettings.AbsentFieldsUnchanged | backend/email_notifications/views.py:39-43 | every field the update does not send keeps its stored value |
| EmailSettings.SuppliedFieldsWritten | backend/email_notifications/views.py:39-43 | a host that is sent is stored with its surrounding whitespace trimmed, or rejected when longer than 255 characters; a recipients object is stored normalised |
| EmailSettings.PortWritten | backend/email_notifications/models.py:16 | a port sent as a number in range is stored as it is, a negative one is rejected, and decimal digits sent as text, with or without ".0", are stored as their value |
| EmailSettings.AddressChecked | backend/email_notifications/models.py:21 | a non-empty sender address that fails the e-mail format check is rejected; an empty or all-blank one is stored empty |
| EmailSettings.TextField | backend/email_notifications/models.py:15-20 | a text field takes a string or a number as its text, trimmed, within its column length and without NUL; null, booleans, lists and objects are refused |
| EmailSettings.AddressField | backend/email_notifications/models.py:21 | the address text field of at most 254 characters, accepted only when empty or of valid format |
| EmailSettings.DropTrailing | backend/email_notifications/models.py:16 | dropping trailing characters leaves a prefix that does not end in one |
| EmailSettings.PortField | backend/email_notifications/models.py:16 | a port is a whole number from 0 to the column maximum, read as given or from its text |
| EmailSettings.NumericTextPort | backend/email_notifications/models.py:16 | a run of at most 998 decimal digits whose value is in range, sent as text with or without ".0", gives that value as the port |
| EmailSettings.DigitsStripped | backend/email_notifications/models.py:16 | a run of digits has nothing to strip |
| EmailSettings.DigitsNoFraction | backend/email_notifications/models.py:16 | a run of digits has no zero fraction to drop |
| EmailSettings.DigitsRead | backend/email_notifications/models.py:16 | `int()` reads a run of digits as its decimal value |
| EmailSettings.ZeroFractionDropped | backend/email_notifications/models.py:16 | a trailing ".0" is dropped before the digits are read |
| EmailSettings.PatchOfAbsent | backend/email_notifications/views.py:39-43 | a field missing from the data is not part of the update |
| EmailSettings.PickAbsent | backend/email_notifications/views.py:39-43 | a field missing from the data yields no value |
| EmailSettings.BlankPasswordNeverRejected | backend/email_notifications/views.py:34-40 | a blank password never causes a validation error, since it is dropped before validation |
| EmailSettings.TextOrNone | backend/email_notifications/views.py:63-66 | `x or None` is None exactly for the empty text and the text otherwise |
| EmailSettings.PortOrNone | backend/email_notifications/views.py:64 | a zero port becomes None, any other is kept |
| EmailSettings.ConnectionOf | backend/email_notifications/views.py:61-69 | the SMTP connection takes the stored host, port, username and password or None for blank ones; TLS exactly for STARTTLS and SSL exactly for SSL/TLS |
| EmailSettings.SenderAddress | backend/email_notifications/views.py:73-78 | the sender address is never empty: the stored one, or rfms@example.com when that is blank |
| EmailSettings.FromHeaderParts | backend/email_notifications/views.py:73-80 | the From header is the sender name, a space and the non-empty sender address in angle brackets |
| EmailSettings.TestMail | backend/email_notifications/views.py:83-90 | the test mail goes to exactly the requested address over the stored connection, with the fixed subject and body and the From header |
| EmailSettings.TestReply | backend/email_notifications/views.py:91-93 | the reply is a success naming the address exactly when the mail was sent, and a 500 with the error text otherwise |
| EmailSettings.EmailSettingsStore.constructor | backend/email_notifications/models.py:4-35 | the settings table starts without a row |
| EmailSettings.EmailSettingsStore.GetObject | backend/email_notifications/views.py:17-19 | the pk=1 row is returned, created from the model defaults when absent |
| EmailSettings.EmailSettingsStore.List | backend/email_notifications/views.py:22-25 | the row exists afterwards and the reply is its representation without password |
| EmailSettings.EmailSettingsStore.Retrieve | backend/email_notifications/views.py:96-97 | retrieve answers and stores exactly as list does |
| EmailSettings.EmailSettingsStore.Update | backend/email_notifications/views.py:27-48 | any field failing its cleaning (type, trimmed length, NUL, port range, encryption choice, address format, recipients object) gives the field errors and leaves the row as fetched; otherwise the row holds the cleaned values and the reply is their representation, never holding a password |
| EmailSettings.EmailSettingsStore.Create | backend/email_notifications/views.py:99-100 | create stores and answers exactly as a non-partial update |
| EmailSettings.EmailSettingsStore.Destroy | backend/email_notifications/views.py:102-103 | destroy always answers 405 "Cannot delete settings." |
| EmailSettings.EmailSettingsStore.TestEmail | backend/email_notifications/views.py:51-93 | a missing or empty to_email gives 400 and sends nothing without touching the row; otherwise the row is fetched, the test mail built from it is sent, and the reply follows the send outcome |
| EmailSettings.PreparePayload | backend/email_notifications/views.py:29-37 | the copy drops a blank password, and the update becomes partial exactly when it was asked to be or a blank password was dropped |
| Notifications.TransportFlags | backend/notifications/models.py:42-43 | TLS is used exactly for STARTTLS and SSL exactly for SSL/TLS |
| Notifications.FlagsExclusive | backend/notifications/models.py:16-21 | TLS and SSL are never both on, and any other encryption value turns both off |
| Notifications.FlagsOfChoices | backend/notifications/models.py:16-21 | each of the three encryption choices selects exactly the flags it names |
| Notifications.DefaultsAreChoices | backend/notifications/models.py:10-21 | a fresh row has port 587 and encryption STARTTLS, which is one of the choices and selects TLS only |
| Notifications.ConnectionOf | backend/notifications/models.py:39-54 | the connection takes the stored host, port, username and password as they are, with the flags the encryption selects |
| Notifications.SettingsTable.constructor | backend/notifications/models.py:7-26 | the table starts empty and holds at most the row with key 1 |
| Notifications.SettingsTable.Save | backend/notifications/models.py:28-31 | whatever key the settings had, they are written as row 1, which afterwards is the only row |
| Notifications.SettingsTable.Load | backend/notifications/models.py:33-37 | the existing row 1 is returned unchanged, or row 1 is created with the defaults and returned; either way row 1 is the only row |
| Users.Get | backend/users/serializers.py:24-30 | `validated_data.get(key, default)` is the supplied value when there is one, the default otherwise |
| Users.InitialPassword | backend/users/serializers.py:25 | a new user's password is unusable exactly when none is given, and the hash of the given one otherwise |
| Users.Created | backend/users/serializers.py:22-31 | the new user has the given username, is active, takes each supplied field and otherwise '' or role 'viewer', and has an unusable password exactly when none was given |
| Users.CreatedDefaults | backend/users/serializers.py:22-31 | a user created from a username alone is active with role 'viewer', every other text empty and no usable password |
| Users.UpdatePasswordRule | backend/users/serializers.py:49-51 | a missing or empty password keeps the stored hash; a non-empty one stores its hash |
| Users.UpdateIdempotent | backend/users/serializers.py:38-54 | an update with no data changes nothing, and repeating an update changes nothing more |
| Users.ViewOf | backend/users/serializers.py:9-15 | the representation carries the user's listed fields and id |
| Users.ViewHidesPassword | backend/users/serializers.py:13-15 | users differing only in their password serialize the same, since the password is write-only |
| Users.User.constructor | backend/users/serializers.py:22-31 | `create_user` makes a row with the created fields, written once |
| Users.User.SetPassword | backend/users/serializers.py:51 | only the password changes, to the hash of the new one, and nothing is written |
| Users.User.Save | backend/users/serializers.py:53 | the fields stay and one more write is made |
| Users.Update | backend/users/serializers.py:34-54 | the same instance is returned, holding the updated fields, after exactly one write |
| SupervisorSerializer.WithoutRelations | backend/supervisors/serializers.py:31-35 | after popping the five relation keys no relation is left in the data and every scalar field is as sent |
| SupervisorSerializer.RelationReplaced | backend/supervisors/serializers.py:41-50 | each relation that is sent holds exactly the given ids afterwards; one not sent keeps its ids |
| SupervisorSerializer.ScalarsAndRelationsIndependent | backend/supervisors/serializers.py:29-50 | the relation keys never reach the scalar update, and the scalar keys never touch a relation |
| SupervisorSerializer.DepotNullable | backend/supervisors/serializers.py:11 | a depot sent as null clears the depot; a depot not sent keeps it |
| SupervisorSerializer.DepotDisplay | backend/supervisors/serializers.py:10 | the depot name of the linked depot, and null with no depot |
| SupervisorSerializer.Supervisor.constructor | backend/supervisors/serializers.py:20-26 | a supervisor holds the given scalar fields and relations |
| SupervisorSerializer.Supervisor.SetStations | backend/supervisors/serializers.py:42 | the station ids become the given set; nothing else changes |
| SupervisorSerializer.Supervisor.SetSections | backend/supervisors/serializers.py:44 | the section ids become the given set; nothing else changes |
| SupervisorSerializer.Supervisor.SetSubsections | backend/supervisors/serializers.py:46 | the subsection ids become the given set; nothing else changes |
| SupervisorSerializer.Supervisor.SetAssets | backend/supervisors/serializers.py:48 | the asset ids become the given set; nothing else changes |
| SupervisorSerializer.Supervisor.SetStationEquipments | backend/supervisors/serializers.py:50 | the station equipment ids become the given set; nothing else changes |
| SupervisorSerializer.Update | backend/supervisors/serializers.py:29-52 | the same instance is returned with the scalars updated from the data and each sent relation replaced |
| Catalog.Ids | frontend/src/stores/catalog.js:73 | the ids of a list of items, position by position |
| Catalog.Find | frontend/src/stores/catalog.js:70 | the position of an item with the id in the Map's entries, and none exactly when the id is absent |
| Catalog.Put | frontend/src/stores/catalog.js:70 | `Map.set` replaces the value of a present id in place, keeping the key order, and appends a new id at the end |
| Catalog.LastWithId | frontend/src/stores/catalog.js:70 | the last item visited with an id is one of the items visited, with that id |
| Catalog.FirstIndex | frontend/src/stores/catalog.js:70 | the first position where an id is visited |
| Catalog.PutAllSummarises | frontend/src/stores/catalog.js:65-73 | after setting every visited item the Map holds each visited id once, in the order of its first visit, with the last item visited under it, and no other id |
| Catalog.PutStep | frontend/src/stores/catalog.js:70 | one more `set` keeps that summary true for one more visited item |
| Catalog.VisitedFromKeys | frontend/src/stores/catalog.js:66-70 | an item is visited exactly when it is listed under the key of a given station and a given sub-section |
| Catalog.RowFromKeys | frontend/src/stores/catalog.js:67-70 | within one station, an item is visited exactly when it is listed under that station and a given sub-section |
| Catalog.UnionProperties | frontend/src/stores/catalog.js:61-74 | the union holds no id twice, only assets listed under a visited station::sub-section key, and every id listed under one; each id holds the last asset visited with it and sits at the position of its first visit |
| Catalog.EmptyUnion | frontend/src/stores/catalog.js:64-74 | when no visited key is listed (in particular with no stations or no sub-sections) the union is empty |
| Catalog.ForDepot | frontend/src/stores/catalog.js:55-60 | the list stored for the depot, or [] for an unknown one |
| Catalog.CatalogStore.constructor | frontend/src/stores/catalog.js:5-53 | the store starts with the fixed depots, stations, sub-sections and assets |
| Catalog.CatalogStore.StationsForDepot | frontend/src/stores/catalog.js:55-57 | the stations stored for the depot, or [] |
| Catalog.CatalogStore.SubSectionsForDepot | frontend/src/stores/catalog.js:58-60 | the sub-sections stored for the depot, or [] |
| Catalog.CatalogStore.AssetsFor | frontend/src/stores/catalog.js:64-74 | the nested loops return exactly the union the Map accumulates over every station and sub-section pair |
| Catalog.InitialLookups | frontend/src/stores/catalog.js:11-21 | Ahmedabad has three stations and an unknown depot none |
| EmailStore.Spread | frontend/src/stores/email.js:24 | spreading an object copies its own properties; any other value copies none |
| EmailStore.Merged | frontend/src/stores/email.js:24 | the merged settings hold every property of either side, the patch winning where both have one |
| EmailStore.MergeIdempotent | frontend/src/stores/email.js:24 | applying the same patch twice is applying it once |
| EmailStore.LaterPatchWins | frontend/src/stores/email.js:24 | a later patch decides every property it sets |
| EmailStore.SettingsNeverLost | frontend/src/stores/email.js:6-14 | no patch removes one of the default SMTP settings |
| EmailStore.Added | frontend/src/stores/email.js:28 | the address is on the list afterwards, appended at the end exactly when it was missing |
| EmailStore.Removed | frontend/src/stores/email.js:32 | the filtered list keeps every other entry and no copy of the address, and is the same list when the address was absent |
| EmailStore.AddKeepsDistinct | frontend/src/stores/email.js:28 | adding keeps a list free of duplicates |
| EmailStore.RemoveKeepsDistinct | frontend/src/stores/email.js:32 | removing keeps a list free of duplicates |
| EmailStore.RemoveUndoesAdd | frontend/src/stores/email.js:25-33 | removing an address just added gives what removing it from the original gives |
| EmailStore.AddRecipientTo | frontend/src/stores/email.js:25-29 | a falsy address changes nothing; otherwise the list of that kind, created empty when missing, holds the address and the other kinds are untouched |
| EmailStore.RemoveRecipientFrom | frontend/src/stores/email.js:30-33 | an unknown kind changes nothing; otherwise only that kind's list loses the address |
| EmailStore.AddRecipientIdempotent | frontend/src/stores/email.js:25-29 | adding the same address twice is adding it once |
| EmailStore.RemoveRecipientIdempotent | frontend/src/stores/email.js:30-33 | after removal the address is off that list and removing again changes nothing |
| EmailStore.DefaultsDistinct | frontend/src/stores/email.js:16-20 | the default recipient lists hold no duplicates |
| EmailStore.AddRecipientKeepsDistinct | frontend/src/stores/email.js:25-29 | addRecipient never makes a list hold an address twice |
| EmailStore.RemoveRecipientKeepsDistinct | frontend/src/stores/email.js:30-33 | removeRecipient never makes a list hold an address twice |
| EmailStore.EmailStore.constructor | frontend/src/stores/email.js:5-22 | the store starts with the default SMTP settings, the default recipients (free of duplicates) and an empty test address |
| EmailStore.EmailStore.UpdateSmtp | frontend/src/stores/email.js:24 | the SMTP settings become the merge with the patch; recipients and test address stay |
| EmailStore.EmailStore.AddRecipient | frontend/src/stores/email.js:25-29 | the recipients become the result of adding the address, staying free of duplicates; nothing else changes |
| EmailStore.EmailStore.RemoveRecipient | frontend/src/stores/email.js:30-33 | the recipients become the result of removing the address, staying free of duplicates; nothing else changes |
| DepotStore.Or | frontend/src/stores/depot.js:12-15 | the value when truthy and the fallback otherwise |
| DepotStore.JsonCopyOfJson | frontend/src/stores/depot.js:27 | the JSON round trip gives back any value JSON represents exactly |
| DepotStore.JsonCopyIsJson | frontend/src/stores/depot.js:27 | the copy of any value but undefined is a plain JSON value |
| DepotStore.JsonCopyIdempotent | frontend/src/stores/depot.js:27 | copying a copy changes nothing |
| DepotStore.NewDepot | frontend/src/stores/depot.js:10-18 | the new depot has a truthy uid, the payload's when truthy and the generated one otherwise, and an array of equipments, the payload's when it is an array |
| DepotStore.EmptyPayload | frontend/src/stores/depot.js:10-18 | without a payload the depot has the generated uid, blank texts and no equipment, as with an empty one |
| DepotStore.IndexOfUid | frontend/src/stores/depot.js:22 | the position of the first depot with the uid, and -1 exactly when none has it |
| DepotStore.SpliceOne | frontend/src/stores/depot.js:23 | `splice(idx, 1)` removes the depot at idx and keeps the others in order, and removes nothing past the end |
| DepotStore.RemoveByIndex | frontend/src/stores/depot.js:19-24 | a position inside the list removes that depot, one outside removes nothing |
| DepotStore.RemoveByUid | frontend/src/stores/depot.js:19-24 | a uid removes the first depot with it and only that one; an unknown uid removes nothing |
| DepotStore.RemoveLastUndoesAdd | frontend/src/stores/depot.js:10-24 | removing the last position undoes addDepot |
| DepotStore.RemoveNewUidUndoesAdd | frontend/src/stores/depot.js:10-24 | removing by a new depot's uid undoes addDepot when no other depot shares it |
| DepotStore.WithEquipments | frontend/src/stores/depot.js:25-28 | only the first depot with the uid changes, its equipments becoming a deep copy of the list or of [] for a falsy one |
| DepotStore.StoredEquipments | frontend/src/stores/depot.js:25-28 | a JSON list is stored as given, a falsy one clears the list, and the stored list is always plain JSON |
| DepotStore.SetEquipmentsIdempotent | frontend/src/stores/depot.js:25-28 | setting the same list twice is setting it once |
| DepotStore.RemovalKeepsUids | frontend/src/stores/depot.js:19-24 | removal keeps every remaining depot's uid truthy |
| DepotStore.DepotStore.constructor | frontend/src/stores/depot.js:6-8 | the store starts without depots |
| DepotStore.DepotStore.AddDepot | frontend/src/stores/depot.js:10-18 | a null payload throws and changes nothing; otherwise the new depot is appended, and every uid stays truthy |
| DepotStore.DepotStore.RemoveDepot | frontend/src/stores/depot.js:19-24 | the depots become the removal's result, every uid staying truthy |
| DepotStore.DepotStore.SetEquipments | frontend/src/stores/depot.js:25-28 | the depots become the result of setting the equipment list, every uid staying truthy |
| TelegramStore.Assign | frontend/src/stores/telegram.js:16-18 | exactly the named text of the group changes, never its key |
| TelegramStore.Keys | frontend/src/stores/telegram.js:13 | the keys of the groups, in order |
| TelegramStore.Set | frontend/src/stores/telegram.js:16-18 | the group with the key gets the text set and every other group is unchanged |
| TelegramStore.SetKeepsKeys | frontend/src/stores/telegram.js:16-18 | the actions never add, remove or reorder groups, and keep their keys unique |
| TelegramStore.UnknownKeyIgnored | frontend/src/stores/telegram.js:16-18 | an action on an unknown key changes nothing |
| TelegramStore.LastWriteWins | frontend/src/stores/telegram.js:16-18 | a later action on the same text of the same group wins |
| TelegramStore.IndependentActionsCommute | frontend/src/stores/telegram.js:16-18 | actions on different groups or different texts can be done in either order |
| TelegramStore.InitialKeys | frontend/src/stores/telegram.js:6-10 | the groups start as alert, files and reports, keys unique |
| TelegramStore.TelegramStore.constructor | frontend/src/stores/telegram.js:5-11 | the store starts with the three initial groups |
| TelegramStore.TelegramStore.List | frontend/src/stores/telegram.js:13 | the list getter returns the three groups, in key order |
| TelegramStore.TelegramStore.Rename | frontend/src/stores/telegram.js:16 | the named group's name is set, the key set staying alert, files, reports |
| TelegramStore.TelegramStore.SetChatId | frontend/src/stores/telegram.js:17 | the named group's chat id is set, the key set staying alert, files, reports |
| TelegramStore.TelegramStore.SetLink | frontend/src/stores/telegram.js:18 | the named group's link is set, the key set staying alert, files, reports |
| Auth.AuthStore.constructor | frontend/src/stores/auth.js:4-7 | the store starts with no user and no token |
| Auth.AuthStore.InitFromStorage | frontend/src/stores/auth.js:9-14 | a non-empty stored token is taken and an absent or empty one keeps the field; a non-empty stored user is parsed into the user field, and unparsable text throws leaving the user as it was |
| Auth.AuthStore.Login | frontend/src/stores/auth.js:15-22 | a falsy username or password throws "Missing credentials" and changes nothing; otherwise the user is {username}, the token 'dev-token', and both are stored |
| Auth.AuthStore.Logout | frontend/src/stores/auth.js:23-28 | both fields are cleared and exactly the two storage entries removed |
| Auth.LoginThenLogoutStorage | frontend/src/stores/auth.js:15-28 | logging in and then out leaves storage as it was, less any earlier entries under the two keys |
| Router.Guard | frontend/src/router/index.js:56-59 | a navigation is redirected exactly when its route requires authentication and no token is stored, and then to '/login' with the full path as `next` |
| Router.AuthedAfterLoginAndLogout | frontend/src/router/index.js:57 | authenticated means a non-empty stored token, which a login leaves and a logout removes |
| Router.PublicRoutesNeverRedirect | frontend/src/router/index.js:18-47 | '/login' and '/analytics' do not require authentication, so the guard always lets them through |
| HexColors.HexValue | frontend/src/lib/statusColors.js:13-15 | a hex digit's value is below 16 |
| HexColors.HexRun | frontend/src/lib/statusColors.js:13-15 | `parseInt` reads a run of leading hex digits no longer than the text |
| HexColors.ParseTwoDigits | frontend/src/lib/statusColors.js:13-15 | `parseInt` of two hex digits is their base-16 value, in 0..255 |
| HexColors.NoDigitIsNaN | frontend/src/lib/statusColors.js:13-15 | text that starts with no digit, sign or space, or is empty, reads as NaN |
| HexColors.Slice | frontend/src/lib/statusColors.js:13-15 | `slice` takes the characters between the bounds, fewer past the end |
| HexColors.Expand | frontend/src/lib/statusColors.js:12 | a three-digit colour gets every digit doubled and any other length is kept |
| HexColors.Clamp01 | frontend/src/lib/statusColors.js:16 | the alpha is clamped into [0, 1], unchanged inside it |
| HexColors.ChannelOfSix | frontend/src/lib/statusColors.js:13-15 | each channel of six hex digits is the value of its two digits |
| HexColors.AlphaClamped | frontend/src/lib/statusColors.js:10-18 | the colour's alpha is always in [0, 1], and the given one when that is in range |
| HexColors.ChannelsOfSix | frontend/src/lib/statusColors.js:13-15 | the red, green and blue channels of six hex digits are the values of digit pairs 1-2, 3-4 and 5-6 |
| HexColors.SixDigits | frontend/src/lib/statusColors.js:10-18 | '#rrggbb' reads as the three two-digit channel values |
| HexColors.ThreeDigits | frontend/src/lib/statusColors.js:10-18 | '#rgb' reads every digit doubled, as 17 times its value |
| HexColors.ExpandedChannels | frontend/src/lib/statusColors.js:12-15 | the channels of a doubled three-digit colour are 17 times each digit |
| HexColors.DigitsOfHash | frontend/src/lib/statusColors.js:11-12 | the digits taken from '#' plus hex digits are those digits, doubled when there are three |
| HexColors.HashRemoved | frontend/src/lib/statusColors.js:11 | removing the '#' and trimming leaves the hex digits |
| HexColors.HexColourByDigits | frontend/src/lib/statusColors.js:3-8 | a '#' and six hex digits form a hex colour |
| HexColors.HexColourParses | frontend/src/lib/statusColors.js:10-18 | every '#rrggbb' colour reads as three channels in 0..255 |
| HexColors.ChannelsInRange | frontend/src/lib/statusColors.js:10-18 | every three- or six-digit colour reads as three channels in 0..255 |
| StatusColors.StatusColor | frontend/src/lib/statusColors.js:3-8 | exactly the four statuses have a colour |
| StatusColors.BorderColor | frontend/src/lib/statusColors.js:20-22 | the border is the status's colour, undefined exactly for an unknown status |
| StatusColors.BgColor | frontend/src/lib/statusColors.js:24-26 | the background exists exactly for a known status (an unknown one throws) |
| StatusColors.ArrayForOrder | frontend/src/lib/statusColors.js:28-30 | one colour per status given, in the order given |
| StatusColors.ColorForLabel | frontend/src/lib/statusColors.js:32-36 | a label has a colour exactly when it names a status ignoring case, and then that status's colour |
| StatusColors.LowerDistinct | frontend/src/lib/statusColors.js:1 | no two statuses differ only in case, so the case-insensitive lookup is unambiguous |
| StatusColors.LengthsDiffer | frontend/src/lib/statusColors.js:1 | the four statuses have four different lengths |
| StatusColors.ColorsForDatasetLabel | frontend/src/lib/statusColors.js:39-43 | border and background exist exactly for a label the lookup finds, the border being its colour |
| StatusColors.DefaultOrderColours | frontend/src/lib/statusColors.js:1-8 | the default order colours Resolved, Active, In Progress and On Hold in that order |
| StatusColors.LabelCaseIgnored | frontend/src/lib/statusColors.js:32-36 | the lookup gives the same answer for a label and its lower-case form |
| StatusColors.UpperCaseLabel | frontend/src/lib/statusColors.js:32-36 | "ACTIVE" finds the Active colour |
| StatusColors.LowerCaseLabel | frontend/src/lib/statusColors.js:32-36 | "active" finds the Active colour |
| StatusColors.UnknownLabel | frontend/src/lib/statusColors.js:39-43 | a label that names no status in any case gets no colours |
| StatusColors.BackgroundsParse | frontend/src/lib/statusColors.js:24-26 | every known status's background has three channels in 0..255 and an alpha in [0, 1] |
| StatusColorsTyped.BorderColor | frontend/src/lib/statusColors.ts:21-23 | the typed border colour agrees with the untyped palette on every status |
| StatusColorsTyped.BgColor | frontend/src/lib/statusColors.ts:25-27 | the typed background agrees with the untyped one on every status |
| StatusColorsTyped.ArrayForOrder | frontend/src/lib/statusColors.ts:29-31 | one colour per status given, in order, the untyped palette's |
| StatusColorsTyped.ColorForLabel | frontend/src/lib/statusColors.ts:33-37 | only the exact name of a status finds a colour, that status's |
| StatusColorsTyped.SameStatuses | frontend/src/lib/statusColors.ts:1 | both copies name the same four statuses, in different orders |
| StatusColorsTyped.ExactMatchAgrees | frontend/src/lib/statusColors.ts:33-37 | a label the typed lookup finds gets the same colour from the untyped one |
| StatusColorsTyped.CaseMatters | frontend/src/lib/statusColors.ts:33-37 | "active" finds nothing in the typed lookup but a colour in the untyped one |
| SeverityColors.SeverityColor | frontend/src/src/lib/severityColors.js:4-8 | exactly the three severities have a colour |
| SeverityColors.LowerDistinct | frontend/src/src/lib/severityColors.js:2 | no two severities differ only in case, so the lookup is unambiguous |
| SeverityColors.SecondLetterDiffers | frontend/src/src/lib/severityColors.js:2 | severities of one length already differ in their second letter |
| SeverityColors.SeverityHex | frontend/src/src/lib/severityColors.js:20-24 | a falsy label has no colour; any other has one exactly when it names a severity ignoring case, and then that severity's colour |
| SeverityColors.SeverityBg | frontend/src/src/lib/severityColors.js:26-29 | a background exists exactly for a label with a colour, and is that colour at the alpha |
| SeverityColors.PaletteEntry | frontend/src/src/lib/severityColors.js:32 | a label's colour, or the grey '#9aa1a6' without one |
| SeverityColors.PaletteFor | frontend/src/src/lib/severityColors.js:31-33 | one palette entry per label, in order |
| SeverityColors.EntryIsHexColour | frontend/src/src/lib/severityColors.js:32 | every palette entry is '#' and six hex digits |
| SeverityColors.PaletteColour | frontend/src/src/lib/severityColors.js:4-8 | the three severity colours and the grey are hex colours |
| SeverityColors.PaletteParses | frontend/src/src/lib/severityColors.js:10-33 | every palette colour reads back through `hexToRgba` as three channels in 0..255 |
| SeverityColors.FalsyIsNeutral | frontend/src/src/lib/severityColors.js:21 | null, undefined, false, 0 and "" have no colour and no background, and get the grey |
| SeverityColors.LabelCaseIgnored | frontend/src/src/lib/severityColors.js:22 | the lookup gives the same answer for a label and its lower-case form |
| SeverityColors.CriticalLabel | frontend/src/src/lib/severityColors.js:20-24 | "CRITICAL" finds the Critical colour |
| CssColor.CssVar | frontend/src/src/lib/theme.js:7-11 | the result is never empty: the trimmed variable when it is set, else the fallback, else '#000' |
| CssColor.SetVariableWins | frontend/src/src/lib/theme.js:9-10 | a set variable is returned trimmed, whatever the fallback |
| CssColor.UnsetVariableFallsBack | frontend/src/src/lib/theme.js:9-10 | a missing or blank variable gives the fallback, or '#000' without one |
| CssColor.CloseAfter | frontend/src/src/lib/theme.js:20 | the first ')' at or after a position, and none exactly when there is none |
| CssColor.MatchAt | frontend/src/src/lib/theme.js:20 | a match of `open([^)]+)\)` at a position starts with the opening text and closes after a non-empty group |
| CssColor.FirstMatchFrom | frontend/src/src/lib/theme.js:20 | the leftmost match from a position, and none exactly when no position matches |
| CssColor.MatchAtStart | frontend/src/src/lib/theme.js:20-24 | a colour that starts with the opening text and a non-empty group up to ')' matches at the start with that group |
| CssColor.CloseIsAfterInner | frontend/src/src/lib/theme.js:20 | the first ')' after the opening is the one closing the group |
| CssColor.ChannelText | frontend/src/src/lib/theme.js:36 | a channel renders as its decimal digits, NaN for no number |
| CssColor.Part | frontend/src/src/lib/theme.js:21-22 | the trimmed i-th comma-separated part, "undefined" past the end |
| CssColor.HexChannels | frontend/src/src/lib/theme.js:26-35 | a digit count that is neither 3 nor at least 6 gives three zero channels |
| CssColor.FalsyColour | frontend/src/src/lib/theme.js:19 | no colour or the empty one gives transparent black at the alpha |
| CssColor.RgbaKeepsComponents | frontend/src/src/lib/theme.js:20-23 | an rgba colour keeps its first three parts trimmed and takes the new alpha, keeping what follows |
| CssColor.RgbGainsAlpha | frontend/src/src/lib/theme.js:24 | rgb(inner) becomes rgba(inner, alpha), keeping what follows |
| CssColor.NotRgba | frontend/src/src/lib/theme.js:20-24 | a colour with '(' at index 3 is not taken for rgba |
| CssColor.RgbaCase | frontend/src/src/lib/theme.js:20-23 | an rgba colour has its matched group replaced and the text around it kept |
| CssColor.RgbCase | frontend/src/src/lib/theme.js:24 | an rgb colour has its matched group rewritten to rgba with the alpha and the text around it kept |
| CssColor.ShortHexIsBlack | frontend/src/src/lib/theme.js:33-34 | a '#' colour with neither 3 nor at least 6 digits gives black at the alpha |
| CssColor.HexAgreesWithHexToRgba | frontend/src/src/lib/theme.js:25-37 | on '#rgb' and '#rrggbb' colours the channels are the ones `hexToRgba` reads |
| CssColor.LongHexUsesFirstSix | frontend/src/src/lib/theme.js:31-32 | only the first six digits of a longer hex colour are read |
| CssColor.OtherColourUnchanged | frontend/src/src/lib/theme.js:38-39 | any other colour is returned as it is |
| Dom.FirstSet | frontend/src/lib/theme.js:16 | the first source where the key holds a non-empty value, else the fallback |
| Theme.Normalised | frontend/src/lib/theme.js:20 | the applied theme is 'dark' exactly for 'dark' and 'light' for anything else |
| Theme.Opposite | frontend/src/lib/theme.js:37 | the theme asked for is 'dark' exactly when the current one is 'light' |
| Theme.CurrentTheme | frontend/src/lib/theme.js:14-17 | the document attribute when set, else the stored theme, else 'light' |
| Theme.ToggleAlternates | frontend/src/lib/theme.js:35-38 | two toggles give two different themes, coming back to 'light' only from 'light' |
| Theme.GetTheme | frontend/src/lib/theme.js:14-17 | reads the current theme without changing anything |
| Theme.ApplyTheme | frontend/src/lib/theme.js:19-29 | the normalised theme is returned, set on the document and in storage, and announced by exactly one themechange event; afterwards it is the current theme |
| Theme.SetTheme | frontend/src/lib/theme.js:31-33 | set behaves exactly as apply |
| Theme.ToggleTheme | frontend/src/lib/theme.js:35-38 | applies the opposite of the theme current before the call |
| Theme.InitTheme | frontend/src/lib/theme.js:40-44 | applies the stored theme, or 'light' when none is stored |
| Brand.Chosen | frontend/src/lib/brand.js:11 | a falsy brand becomes 'indigo' and a truthy one is kept, so the chosen brand is always truthy |
| Brand.ChosenStrings | frontend/src/lib/brand.js:11 | the empty brand becomes 'indigo' and any other string is kept |
| Brand.CurrentBrand | frontend/src/lib/brand.js:6-8 | the document attribute when set, else the stored brand, else 'indigo' |
| Brand.GetBrand | frontend/src/lib/brand.js:6-8 | reads the current brand without changing anything |
| Brand.ApplyBrand | frontend/src/lib/brand.js:10-17 | the chosen brand is returned, set on the document and in storage, and announced by exactly one brandchange event |
| Brand.SetBrand | frontend/src/lib/brand.js:19-21 | set behaves exactly as apply |
| Brand.InitBrand | frontend/src/lib/brand.js:23-26 | applies the stored brand, or 'indigo' when none is stored |
| Presets.CurrentPreset | frontend/src/lib/presets.js:20-31 | the current theme and brand, the two scales read or '1' when unset (never empty), and the two fonts as read |
| Presets.WrittenVar | frontend/src/lib/presets.js:12-18 | null, undefined and '' remove the inline variable; any other value sets its string form |
| Presets.WriteVar | frontend/src/lib/presets.js:12-18 | only the inline style changes, as writing the variable says |
| Presets.IgnoresNonObjects | frontend/src/lib/presets.js:34 | null, undefined, booleans, numbers and strings change nothing at all |
| Presets.PersistsPreset | frontend/src/lib/presets.js:48 | an object or array preset is stored whole, as its JSON text |
| Presets.BrandBeforeTheme | frontend/src/lib/presets.js:37-38 | a truthy brand is applied before a truthy theme: the events added are the brand's, then the theme's |
| Presets.VarStepWrites | frontend/src/lib/presets.js:41-44 | a variable with a truthy value is set to its string form, and a falsy one is left alone |
| Presets.VarsOnlyTouchesFour | frontend/src/lib/presets.js:40-45 | no inline property other than the four variables changes |
| Presets.VarsNeedAnObject | frontend/src/lib/presets.js:40 | vars that are not an object leave the inline style as it was |
| Presets.ApplyPreset | frontend/src/lib/presets.js:33-49 | the browser state becomes the applied preset's, as the lemmas about it describe |
| Presets.ClearPreset | frontend/src/lib/presets.js:51-55 | as written the stored preset is removed and a TypeError is then always thrown, with the inline style, the dataset and the events untouched |
| Presets.ClearPresetIntended | frontend/src/lib/presets.js:51-55 | as intended exactly the stored preset and the four inline variables are removed |
| Presets.ClearKeepsOverrides | frontend/src/lib/presets.js:52-54 | as written the inline style survives the clear, which agrees with the intended clear exactly when none of the four variables is set inline |
| Presets.ClearLeavesFont | frontend/src/lib/presets.js:52-54 | an inline --font-sans of "Inter" is still set after the clear, while the intended clear removes it |
| Presets.ClearedRemovesExactly | frontend/src/lib/presets.js:51-55 | the intended clear removes exactly the preset key and the four variables, and keeps every other entry's value |
| Presets.StoredPreset | frontend/src/lib/presets.js:59-61 | nothing without a stored preset; otherwise the parse of the stored text, nothing when it is malformed |
| Presets.InitPresetIfAny | frontend/src/lib/presets.js:57-66 | nothing changes without a stored, parsable preset; otherwise it is applied |
| PrimeVue.SeverityVariant | frontend/src/primevue-pt.js:12-22 | exactly the seven PrimeVue severities map to a variant, never the ghost one |
| PrimeVue.FallbackVariant | frontend/src/primevue-pt.js:24-26 | ghost exactly for text or link mode, else outline when outlined, else primary |
| PrimeVue.ButtonVariant | frontend/src/primevue-pt.js:21-26 | the severity's variant when it has one, the fallback otherwise; always one of the seven variants |
| PrimeVue.ButtonClass | frontend/src/primevue-pt.js:9-29 | the class is 'btn' and exactly one variant |
| PrimeVue.InfoAndHelpAreOutline | frontend/src/primevue-pt.js:18-19 | info and help buttons are outline buttons |
| PrimeVue.SeverityOverridesFlags | frontend/src/primevue-pt.js:21-26 | with a mapped severity the text, link and outlined flags make no difference |
| PrimeVue.TextOrLinkIsGhost | frontend/src/primevue-pt.js:24 | without a mapped severity, text or link wins over outlined |
| PrimeVue.PlainButtonIsPrimary | frontend/src/primevue-pt.js:26 | with no severity and no flag the button is primary |
| PrimeVue.ToastBorder | frontend/src/primevue-pt.js:88-91 | warn, error and success each get their own border, exactly, and anything else the primary one |
| PrimeVue.ToastMessageClass | frontend/src/primevue-pt.js:85-93 | 'card border-l-4' followed by the message's border |
| PrimeVue.OtherToastsArePrimary | frontend/src/primevue-pt.js:91 | a missing message or another severity gets the primary border |
| PrimeVue.ItemClass | frontend/src/primevue-pt.js:45-51 | the item classes: the base, the background focus picks and the text selection picks |
| PrimeVue.FocusAndSelectionIndependent | frontend/src/primevue-pt.js:61-67 | focus and selection decide their parts independently; only truthiness matters |
| PrimeVue.CheckboxBoxClass | frontend/src/primevue-pt.js:102-108 | the fixed box classes, the fill for the checked state, then 'transition-fast' |
| PrimeVue.RadioBoxClass | frontend/src/primevue-pt.js:113-119 | the fixed round box classes, the fill for the checked state, then 'transition-fast' |
| PrimeVue.CheckedBoxesArePrimary | frontend/src/primevue-pt.js:102-119 | a checked box of either kind is filled with bg-primary, an unchecked one with bg-surface |
| Common.Strip | backend/circuits/views.py:45 | `str.strip()` leaves no leading or trailing whitespace, never lengthens the text, and keeps text that has none |
| Common.StripIdempotent | backend/circuits/views.py:45 | stripping twice is stripping once |
| Common.Trim | frontend/src/lib/presets.js:10 | `String.prototype.trim` leaves no leading or trailing JavaScript whitespace, never lengthens the text, and keeps text that has none |
| Common.StripAndTrimDiffer | backend/circuits/views.py:45 | Python's strip removes the separator characters U+001C to U+001F, while JavaScript's trim keeps them |
| Common.Lower | frontend/src/lib/statusColors.js:34 | lower-casing keeps the length and lower-cases every ASCII letter in place |
| Common.LowerIdempotent | frontend/src/lib/statusColors.js:34 | lower-casing twice is lower-casing once |
| Common.FindIgnoringCase | frontend/src/lib/statusColors.js:34 | the first entry equal to the text ignoring case, and none exactly when no entry is |
| Common.TitleIgnoresCase | backend/circuits/views.py:52 | `str.title()` does not depend on the case of its input |
| Common.TitleIdempotent | backend/circuits/views.py:52 | title-casing twice is title-casing once |
| Common.TitleOfCapitalized | backend/circuits/views.py:52 | a capitalised word such as 'Critical' is its own title case |
| Common.Split | frontend/src/src/lib/theme.js:21 | splitting gives at least one part, the whole text when the separator does not occur |
| Common.ReplaceFirst | frontend/src/lib/statusColors.js:11 | a text without the pattern is returned unchanged |
| Common.NatToString | backend/operations/views.py:123 | a number renders as at least one decimal digit, without a leading zero from 10 up |
| Sorting.Where | backend/logbook/views.py:46-56 | filtering keeps exactly the elements that satisfy the condition, in their order |
| Sorting.WhereWhere | backend/logbook/views.py:46-56 | chained filters are one filter on both conditions |
| Sorting.SortBy | backend/dashboard/views.py:63-74 | ordering by a rank is a permutation |
| Sorting.SortBySorted | backend/dashboard/views.py:63-74 | the ordered rows are in ascending rank |
| Sorting.SortByElements | backend/dashboard/views.py:63-74 | ordering keeps the length, the elements and ascending rank |
| Sorting.SortedSlice | backend/logbook/views.py:96-102 | a run of consecutive elements of a sorted sequence is sorted |
| Sorting.WhereSnoc | backend/logbook/views.py:46-56 | filtering a sequence with one more element at the end adds that element exactly when it passes |
| Sorting.InsertByStable | backend/logbook/views.py:90 | inserting puts the element after every element of its own rank |
| Sorting.SortByStable | backend/logbook/views.py:90 | the sort is stable: the elements of any one rank keep their input order |
| Sorting.Distinct | backend/dashboard/views.py:63 | grouping by a value gives each value once, and every value that occurs |

## Left out

- Spreadsheet and PDF I/O: pandas reading and writing, encoding retries and the reportlab layout are foreign libraries. The model starts at rows of optional cells and ends at the exported row records.
- Django ORM internals: querysets, `transaction.atomic` rollback, `select_related` and the `Paginator` are replaced by maps and sequences. Locking and rollback after an error are not modelled.
- Network and transport: SMTP delivery (`send_mail`, opening the `get_connection` backend), Telegram sending and the movement-report delivery. Each outcome is a parameter, and the model returns what would have been sent.
- The Pinia stores that only call the HTTP client, and the thin view sets and field-only serializers and models. They have no logic of their own.
- Sections.AssetDefaults: the asset quantity `float(quantity)` is floating point and is not written. A stored quantity keeps its value, and a changed quantity alone does not count as an update.
- Stations.EquipmentDefaults: the equipment quantity `int(float(Quantity))` is not written either, for the same reason.
- Durations are whole seconds instead of `timedelta.total_seconds`. The hex colour alpha is a `real` clamped into [0, 1].
- JavaScript's rendering of numbers in template literals: `withAlpha` is given the alpha's text, and `hexToRgba` returns its four components instead of the `rgba(...)` string.
- Randomness and the clock: the depot uid built from `Math.random` and `Date.now` is the parameter `generated`, assumed non-empty. The dashboard's `timezone.now()` is the parameter `now`.
- Library parsing: `strptime`, `parse_datetime`, `JSON.parse` and `JSON.stringify` are function parameters. A parse that throws is `None`.
- vue-router's route matching and meta merging: the guard is given the merged `requiresAuth` flag of the matched route.
- Unicode: `str.lower`, `str.title`, `toLowerCase`, `icontains` and whitespace stripping follow ASCII rules only.
- JavaScript objects are modelled without a prototype chain, so a key such as 'constructor' is not found on a plain object. Spreading a value that is not a plain object contributes no properties.
- Strict equality (`===`, `includes`) is equality of modelled values, because no store keeps two distinct objects that compare equal.
- Catalog.CatalogStore.AssetsFor: the station and sub-section id lists are sequences, so a `null` argument, which the source treats as [], and the default arguments are not separate cases.
- DepotStore.DepotStore.RemoveDepot: a numeric argument is an integer; a fractional or NaN index, which `splice` would truncate, is left out.
- localStorage quota errors are left out. `applyPreset` swallows them, and setting an entry always succeeds in the model.
- `currentThemeColors` is left out: it only calls `getCssVar`, whose fallback rule is modelled, with fixed names.
- Telegram.TelegramStore.ListGroups: the database collation that orders the groups by name is the parameter `collation`, which ranks each name.
- Users.User.SetPassword: password hashing is a constructor `HashOf(raw)` standing for the hash, so nothing about the hash function is stated.
- Login is asynchronous in the source (`async login`). The model runs it to completion, and a thrown error is an `Outcome` value.
- Supervisors.SupervisorStore.ImportFromExcel: the supervisor table is a map keyed by name, so names are taken as unique. `Supervisor.name` is not unique in the database; with two supervisors of one name, `update_or_create` raises `MultipleObjectsReturned`, the atomic block rolls back and the answer is 400.
- Stations.StationStore.ImportStationsFile: station equipment is keyed by (station, name), which the database does not make unique. Two stored pieces under one key make `update_or_create` raise `MultipleObjectsReturned`, which the model cannot express.
- Sections.SectionStore.ImportMasterFile: assets are keyed by (subsection, name), which the database does not make unique. Two stored assets under one key make `update_or_create` raise `MultipleObjectsReturned`, which the model cannot express.
- Depots.DepotStore.ImportFromExcel: depot equipment is keyed by (depot, name), which the database does not make unique, so `MultipleObjectsReturned` for two stored pieces under one key is not modelled. The unique depot code is modelled. Field lengths are not checked, as SQLite does not check them.
- Users.Created: `role`, `designation` and `phone_number` are not fields of the User model, so building the serializer raises `ImproperlyConfigured` and no user is ever created. `create_user` would also reject those keyword arguments with a `TypeError` and lower-case the e-mail's domain part. The member models what the method body asks for.
- Users.CreatedDefaults: for the same reason no user is ever created. The member states the defaults the method body asks for.
- Users.ViewOf: the serializer cannot be built, so no user is ever rendered. The member states which fields the listed field set shows.
- Users.Update: the serializer cannot be built, so no update reaches the method. The member models the method body.
- Operations.ByDate: the module imports `TelegramGroup` from `notifications.models`, which does not define it, so the `ImportError` stops the views module from loading and the view never answers. The member models its body.
- Operations.SendReport: the same `ImportError` means the view never answers. The member models its body with the delivery outcome as a parameter.
- SupervisorSerializer.RelationReplaced: the Supervisor model has no `station_equipments`, so replacing that relation raises `AttributeError` at backend/supervisors/serializers.py:50. The member states what the method body asks for.
- SupervisorSerializer.Supervisor.SetStationEquipments: the relation it sets is not declared on the model, so the call at line 50 raises `AttributeError`.
- SupervisorSerializer.Update: raises `AttributeError` at line 50 whenever `station_equipments` is sent. The declared `station_equipments` field (backend/supervisors/serializers.py:18 and :24) also makes every `to_representation` raise `AttributeError`, because reading a many-related field the model lacks is not caught, so every GET and the reply to every update fail; rendering is not modelled. By then the scalar fields and the four other relations are saved, and no atomic block undoes them. The member models the body as if the relation existed.
- EmailSettings.EmailSettingsStore.Update: Django's EmailValidator is the parameter `isEmail`. Python's `int()` also accepts digit-group underscores and non-ASCII digits; the model rejects them. JSON numbers with a fraction are not modelled.
- Logbook.Get: as written the view never answers. Line 8 imports `FailureSerializer`, which backend/failures/serializers.py does not define, so the module does not load; and `filter(is_archived=False)` at line 20 raises FieldError because the Failure model has no such field. The member answers only as intended, and everything it promises about pages is about that view. The database's collation of text fields and of NULLs is the parameter `collate`. Failures the ordering ranks equal keep their filtered order, which the database does not promise. The id lists arrive already read as integers, so a non-integer text, which makes the `__in` lookup raise, is not modelled.
- Logbook.KeepIffPassesAll: its first condition, not archived, stands for the `is_archived` lookup that raises FieldError as written; the member models the filter pipeline as if the field existed.
- Logbook.FilteredIsKeep: the filtered set it describes is produced only by the view as intended; as written the module does not load and the base queryset raises.
- Logbook.ResultsMeetFilters: holds for every mode, but as written no page is ever answered, so it says something only about the view as intended.
- Logbook.ResultsOrdered: holds for every mode, but as written no page is ever answered, so it orders only the pages of the view as intended.
- Logbook.NewestFirst: holds for every mode, but as written no page is ever answered, so it describes only the default order of the view as intended.
- Logbook.CountIgnoresPage: holds for every mode, but as written no page is ever answered, so it counts only in the view as intended.
- Dashboard.Get: as written `filter(is_archived=False, …)` at backend/dashboard/views.py:35 raises FieldError, so the view never answers; the data it promises is that of the view as intended. The `sections[]` values arrive already read as integers, so a non-integer text, which makes `section__id__in` raise ValueError (a 500), is not modelled.
- Dashboard.BaseIsWindow: its "not archived" condition stands for the `is_archived` lookup that the Failure model cannot resolve; the member models the base queryset as if the field existed.
- Failures.Failure: `isArchived` is not a field of the source's Failure model (backend/failures/models.py:8-52 and the timestamps of backend/core/models.py); it is the archive flag both views evidently intend.
- Telegram.TelegramStore.SendTestMessage: the framework's 404 text for an unknown group depends on its version and is the parameter `notFound`.

## Findings

| source | as written | input that shows it | evidently intended | confidence | as-written member | corrected member |
|---|---|---|---|---|---|---|
| backend/logbook/views.py:8-20 | the view imports `FailureSerializer`, which the failures app does not define, and filters its base queryset on `is_archived`, which the Failure model does not declare; the ImportError stops the module from loading, and even with it loaded the lookup raises FieldError | any request to the logbook endpoint | import the list serializer and give Failure the archive flag, so the view filters, orders and pages | high, not executed | Logbook.LogbookNeverAnswers | Logbook.LogbookAnswersAsIntended |
| backend/dashboard/views.py:35 | the base queryset filters on `is_archived`, which the Failure model does not declare, so Django raises FieldError | any request to the dashboard endpoint | keep the failures not archived and compute the KPIs and charts over them | high, not executed | Dashboard.DashboardNeverAnswers | Dashboard.Get |
| backend/circuits/views.py:64-66 | the spreadsheet import counts a row as updated when an attribute of the object `update_or_create` returned differs from the row's defaults; that object already has the defaults applied, so the count is never incremented (the same check is in backend/stations/views.py:70 and :94, backend/supervisors/views.py:69 and backend/sections/views.py:136) | an existing circuit C1 named "Old" re-imported with Name "New": the stored name changes but `updated` is 0 | count a row as updated when the upsert changes an existing record, comparing with the record stored before it | high, not executed | Circuits.UpdatedNeverCounted | Circuits.IntendedUpdatedIffChanged |
| backend/depots/views.py:29-64 | unlike the other importers, the depot import does not replace pandas' NaN with None, and the equipment defaults take `row.get('Notes', '')` as it is, so an empty cell is saved to a text field as "nan" | a row with Depot "D1", Equipment Name "Meter" and an empty Notes cell stores notes "nan" | store an empty text for an empty cell | low, not executed | Depots.EmptyNotesStoredAsNan | Depots.IntendedBlankWhenEmpty |
| backend/dashboard/views.py:25-28 | the 'today' range starts at midnight of `timezone.now()`, which is in UTC, while the project's time zone is Asia/Kolkata (UTC+5:30) | at 04:30 local time, a failure reported at 06:30 local time the previous day is counted as today (while the line-35 FieldError stops the view, the effect shows only in the window start) | start 'today' at local midnight | medium, not executed | Dashboard.TodayReachesIntoYesterday | Dashboard.TodayIsLocalDay |
| backend/telegram_notifications/views.py:60-63 | `send_test_message` catches `TelegramGroup.DoesNotExist`, but `get_object` raises `Http404` for an unknown primary key, so the handler never runs and the framework answers 404 with its own 'detail' body | a test message to a group primary key that does not exist | answer 404 with {'error': 'Group not found.'} | high, not executed | Telegram.NotFoundHandlerUnreached | Telegram.NotFoundHandlerIntended |
| frontend/src/lib/presets.js:52-54 | no semicolon ends line 52, so the array literal that opens line 54 indexes the result of `removeItem`; the stored preset is removed, then a TypeError is thrown and no inline variable is removed | `clearPreset()` with --font-sans set inline to "Inter" | remove the stored preset and the four inline variables | high, not executed | Presets.ClearLeavesFont | Presets.ClearedRemovesExactly |
