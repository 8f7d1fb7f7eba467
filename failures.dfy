/** A failure record as the logbook and the dashboard read it, with the
    related circuit, station, section and supervisor it links to. */
module Failures {
  import opened Common
  import Orm

  /** A linked object: its primary key and the name the views search or group by. */
  datatype Named = Named(pk: int, name: string)

  datatype StationRef = StationRef(pk: int, name: string, code: Option<string>)

  datatype CircuitRef = CircuitRef(pk: int, circuitId: string, name: string)

  /** Times are whole seconds since the epoch (UTC). `isArchived` is the
      archive flag both views filter on; the Failure model declares no such
      field (see `ModelFields`), so it stands for what the views intend. */
  datatype Failure = Failure(
    failId: string,
    severity: string,
    currentStatus: string,
    circuit: CircuitRef,
    station: Option<StationRef>,
    section: Option<Named>,
    assignedTo: Option<Named>,
    reportedAt: int,
    resolvedAt: Option<int>,
    remarkFail: string,
    remarkRight: string,
    isArchived: bool)

  /** The fields of the Failure model: its own, the automatic `id`, and the
      two timestamps of `TimestampedModel`. */
  const ModelFields: set<string> :=
    {"id", "created_at", "updated_at", "fail_id", "entry_type", "severity", "current_status",
     "circuit", "station", "section", "sub_section", "assigned_to",
     "reported_at", "resolved_at", "remark_fail", "remark_right"}

  /** The serializers the failures app defines. */
  const SerializerNames: set<string> := {"FailureListSerializer", "FailureCreateUpdateSerializer"}

  /** The fields a queryset lookup is resolved against: the model's as
      written, and as intended also the archive flag the views filter on. */
  function LookupFields(mode: Orm.Mode): (r: set<string>)
    ensures ModelFields <= r
    ensures mode == Orm.AsWritten ==> "is_archived" !in r
    ensures mode == Orm.Intended ==> "is_archived" in r
  {
    NoArchiveField();
    if mode == Orm.AsWritten then ModelFields else ModelFields + {"is_archived"}
  }

  lemma NoArchiveField()
    ensures "is_archived" !in ModelFields
  {
    var a := "is_archived";
    assert a[0] != "reported_at"[0] && a[0] != "resolved_at"[0];
    assert a[0] != "assigned_to"[0] && a[0] != "sub_section"[0];
  }

  /** `filter(is_archived=...)` resolves only when the field exists; Django
      raises FieldError otherwise. */
  predicate ArchiveLookupResolves(mode: Orm.Mode)
  {
    "is_archived" in LookupFields(mode)
  }

  /** Django's `icontains`, with ASCII case folding. */
  predicate IContains(s: string, q: string)
  {
    Contains(Lower(s), Lower(q))
  }

  /** `section__id__in`: a failure without a section matches no list. */
  predicate SectionIn(f: Failure, ids: seq<int>)
  {
    f.section.Some? && f.section.value.pk in ids
  }
}
