/** The logbook endpoint (`LogbookDataView`): non-archived failures, narrowed
    by a text query, five multi-select lists and a date range, ordered by a
    mapped sort field and cut into one page.

    As written the view never answers: its module imports a serializer the
    failures app does not define, and its base queryset filters on an
    `is_archived` field the Failure model does not have. `Get` takes an
    `Orm.Mode`; the filters, the ordering and the paging are those of the
    view as intended, where both resolve.

    The query-string lists of primary keys arrive already read as integers,
    and `parse_datetime` is a parameter: a datetime in seconds for a text, or
    None. How the database collates the text and related fields it sorts
    by is a parameter too: a rank per field name and failure. */
module Logbook {
  import opened Common
  import opened Sorting
  import opened Failures
  import Orm

  /** The `page` or `rowsPerPage` parameter as the paginator reads it
      with `int()`. */
  datatype PageArg = Absent | NotAnInteger | Number(n: int)

  datatype Params = Params(
    query: Option<string>,
    circuits: seq<int>,
    sections: seq<int>,
    stations: seq<int>,
    supervisors: seq<int>,
    statuses: seq<string>,
    dateFrom: Option<string>,
    dateTo: Option<string>,
    sortKey: Option<string>,
    sortDir: Option<string>,
    page: PageArg,
    rowsPerPage: PageArg)

  // ----- Filtering -----

  /** The text query's nine `icontains` alternatives; a missing link matches none of its own. */
  predicate MatchesQuery(f: Failure, q: string)
  {
    IContains(f.failId, q) || IContains(f.circuit.circuitId, q) || IContains(f.circuit.name, q)
    || (f.station.Some? && IContains(f.station.value.name, q))
    || (f.station.Some? && f.station.value.code.Some? && IContains(f.station.value.code.value, q))
    || (f.section.Some? && IContains(f.section.value.name, q))
    || (f.assignedTo.Some? && IContains(f.assignedTo.value.name, q))
    || IContains(f.remarkFail, q) || IContains(f.remarkRight, q)
  }

  /** The filters the parameters switch on, in the order the view applies
      them: a list filter only when its list is non-empty, a date bound only
      when it is given and parses. */
  function Steps(p: Params, parse: string -> Option<int>): seq<Failure -> bool>
  {
    [(f: Failure) => !f.isArchived] + QueryStep(p) + CircuitStep(p) + SectionStep(p) + StationStep(p)
    + SupervisorStep(p) + StatusStep(p) + FromStep(p, parse) + ToStep(p, parse)
  }

  function QueryStep(p: Params): seq<Failure -> bool>
  {
    Step(Orm.Truthy(p.query), (f: Failure) => Orm.Truthy(p.query) && MatchesQuery(f, p.query.value))
  }

  function CircuitStep(p: Params): seq<Failure -> bool>
  {
    Step(p.circuits != [], (f: Failure) => f.circuit.pk in p.circuits)
  }

  function SectionStep(p: Params): seq<Failure -> bool>
  {
    Step(p.sections != [], (f: Failure) => SectionIn(f, p.sections))
  }

  function StationStep(p: Params): seq<Failure -> bool>
  {
    Step(p.stations != [], (f: Failure) => f.station.Some? && f.station.value.pk in p.stations)
  }

  function SupervisorStep(p: Params): seq<Failure -> bool>
  {
    Step(p.supervisors != [], (f: Failure) => f.assignedTo.Some? && f.assignedTo.value.pk in p.supervisors)
  }

  function StatusStep(p: Params): seq<Failure -> bool>
  {
    Step(p.statuses != [], (f: Failure) => f.currentStatus in p.statuses)
  }

  /** `reported_at__gte`, when the text parses. */
  function FromStep(p: Params, parse: string -> Option<int>): seq<Failure -> bool>
  {
    Step(Orm.Truthy(p.dateFrom) && parse(p.dateFrom.value).Some?,
         (f: Failure) => Orm.Truthy(p.dateFrom) && parse(p.dateFrom.value).Some? && f.reportedAt >= parse(p.dateFrom.value).value)
  }

  /** `reported_at__lte`, when the text parses. */
  function ToStep(p: Params, parse: string -> Option<int>): seq<Failure -> bool>
  {
    Step(Orm.Truthy(p.dateTo) && parse(p.dateTo.value).Some?,
         (f: Failure) => Orm.Truthy(p.dateTo) && parse(p.dateTo.value).Some? && f.reportedAt <= parse(p.dateTo.value).value)
  }

  /** `if cond: queryset = queryset.filter(...)`: the filter, or none. */
  function Step(cond: bool, keep: Failure -> bool): seq<Failure -> bool>
  {
    if cond then [keep] else []
  }

  /** The queryset after each filter in turn. */
  function Fold(fs: seq<Failure>, steps: seq<Failure -> bool>): seq<Failure>
    decreases |steps|
  {
    if steps == [] then fs else Where(Fold(fs, steps[..|steps| - 1]), steps[|steps| - 1])
  }

  predicate PassesAll(steps: seq<Failure -> bool>, f: Failure)
  {
    forall i :: 0 <= i < |steps| ==> steps[i](f)
  }

  /** Applying the filters one after another is one filter by all of them. */
  lemma {:induction false} FoldIsWhere(fs: seq<Failure>, steps: seq<Failure -> bool>)
    ensures Fold(fs, steps) == Where(fs, f => PassesAll(steps, f))
    decreases |steps|
  {
    if steps == [] {
      WhereAll(fs, f => PassesAll(steps, f));
    } else {
      var prefix := steps[..|steps| - 1];
      FoldIsWhere(fs, prefix);
      assert forall x :: PassesAll(steps, x) == (PassesAll(prefix, x) && steps[|steps| - 1](x)) by {
        forall x
          ensures PassesAll(steps, x) == (PassesAll(prefix, x) && steps[|steps| - 1](x))
        {
          if PassesAll(prefix, x) && steps[|steps| - 1](x) {
            forall i | 0 <= i < |steps|
              ensures steps[i](x)
            {
              if i < |prefix| {
                assert prefix[i] == steps[i];
              }
            }
          }
        }
      }
      WhereWhere(fs, f => PassesAll(prefix, f), steps[|steps| - 1], f => PassesAll(steps, f));
    }
  }

  function Filtered(fs: seq<Failure>, p: Params, parse: string -> Option<int>): seq<Failure>
  {
    Fold(fs, Steps(p, parse))
  }

  /** What the filters keep, condition by condition. */
  predicate Keep(f: Failure, p: Params, parse: string -> Option<int>)
  {
    && !f.isArchived
    && (Orm.Truthy(p.query) ==> MatchesQuery(f, p.query.value))
    && (p.circuits != [] ==> f.circuit.pk in p.circuits)
    && (p.sections != [] ==> SectionIn(f, p.sections))
    && (p.stations != [] ==> f.station.Some? && f.station.value.pk in p.stations)
    && (p.supervisors != [] ==> f.assignedTo.Some? && f.assignedTo.value.pk in p.supervisors)
    && (p.statuses != [] ==> f.currentStatus in p.statuses)
    && (Orm.Truthy(p.dateFrom) && parse(p.dateFrom.value).Some? ==> f.reportedAt >= parse(p.dateFrom.value).value)
    && (Orm.Truthy(p.dateTo) && parse(p.dateTo.value).Some? ==> f.reportedAt <= parse(p.dateTo.value).value)
  }

  lemma PassesAllConcat(a: seq<Failure -> bool>, b: seq<Failure -> bool>, f: Failure)
    ensures PassesAll(a + b, f) <==> PassesAll(a, f) && PassesAll(b, f)
  {
    if PassesAll(a, f) && PassesAll(b, f) {
      forall i | 0 <= i < |a + b|
        ensures (a + b)[i](f)
      {
        if i < |a| {
          assert (a + b)[i] == a[i];
        } else {
          assert (a + b)[i] == b[i - |a|];
        }
      }
    }
    if PassesAll(a + b, f) {
      forall i | 0 <= i < |a|
        ensures a[i](f)
      {
        assert (a + b)[i] == a[i];
      }
      forall i | 0 <= i < |b|
        ensures b[i](f)
      {
        assert (a + b)[|a| + i] == b[i];
      }
    }
  }

  lemma PassesAllStep(cond: bool, keep: Failure -> bool, f: Failure)
    ensures PassesAll(Step(cond, keep), f) <==> (cond ==> keep(f))
  {
    if cond {
      assert Step(cond, keep)[0] == keep;
    }
  }

  lemma KeepIffPassesAll(f: Failure, p: Params, parse: string -> Option<int>)
    ensures Keep(f, p, parse) <==> PassesAll(Steps(p, parse), f)
  {
    var s0: seq<Failure -> bool> := [(f: Failure) => !f.isArchived];
    assert PassesAll(s0, f) <==> !f.isArchived by {
      assert s0[0](f) == !f.isArchived;
    }
    var s1 := s0 + QueryStep(p);
    var s2 := s1 + CircuitStep(p);
    var s3 := s2 + SectionStep(p);
    var s4 := s3 + StationStep(p);
    var s5 := s4 + SupervisorStep(p);
    var s6 := s5 + StatusStep(p);
    var s7 := s6 + FromStep(p, parse);
    PassesAllStep(Orm.Truthy(p.query), (f: Failure) => Orm.Truthy(p.query) && MatchesQuery(f, p.query.value), f);
    PassesAllStep(p.circuits != [], (f: Failure) => f.circuit.pk in p.circuits, f);
    PassesAllStep(p.sections != [], (f: Failure) => SectionIn(f, p.sections), f);
    PassesAllStep(p.stations != [], (f: Failure) => f.station.Some? && f.station.value.pk in p.stations, f);
    PassesAllStep(p.supervisors != [], (f: Failure) => f.assignedTo.Some? && f.assignedTo.value.pk in p.supervisors, f);
    PassesAllStep(p.statuses != [], (f: Failure) => f.currentStatus in p.statuses, f);
    PassesAllStep(Orm.Truthy(p.dateFrom) && parse(p.dateFrom.value).Some?,
                  (f: Failure) => Orm.Truthy(p.dateFrom) && parse(p.dateFrom.value).Some? && f.reportedAt >= parse(p.dateFrom.value).value, f);
    PassesAllStep(Orm.Truthy(p.dateTo) && parse(p.dateTo.value).Some?,
                  (f: Failure) => Orm.Truthy(p.dateTo) && parse(p.dateTo.value).Some? && f.reportedAt <= parse(p.dateTo.value).value, f);
    PassesAllConcat(s0, QueryStep(p), f);
    PassesAllConcat(s1, CircuitStep(p), f);
    PassesAllConcat(s2, SectionStep(p), f);
    PassesAllConcat(s3, StationStep(p), f);
    PassesAllConcat(s4, SupervisorStep(p), f);
    PassesAllConcat(s5, StatusStep(p), f);
    PassesAllConcat(s6, FromStep(p, parse), f);
    PassesAllConcat(s7, ToStep(p, parse), f);
  }

  /** The filtered failures are, in their order, exactly the failures that
      meet every switched-on condition: in particular never an archived one,
      and a list left empty or a date that does not parse restricts nothing. */
  lemma FilteredIsKeep(fs: seq<Failure>, p: Params, parse: string -> Option<int>)
    ensures Filtered(fs, p, parse) == Where(fs, f => Keep(f, p, parse))
    ensures forall i :: 0 <= i < |Filtered(fs, p, parse)| ==> !Filtered(fs, p, parse)[i].isArchived
  {
    FoldIsWhere(fs, Steps(p, parse));
    forall f
      ensures PassesAll(Steps(p, parse), f) == Keep(f, p, parse)
    {
      KeepIffPassesAll(f, p, parse);
    }
    WhereWhere(fs, f => true, f => PassesAll(Steps(p, parse), f), f => Keep(f, p, parse));
    WhereAll(fs, f => true);
  }

  // ----- Ordering -----

  const SortFieldMap: map<string, string> :=
    map["reported_at" := "reported_at", "resolved_at" := "resolved_at", "fail_id" := "fail_id",
        "circuit" := "circuit__circuit_id", "station" := "station__name", "section" := "section__name",
        "assigned_to" := "assigned_to__name", "current_status" := "current_status"]

  /** The model field for a sort key; the default key '-reported_at' is not
      in the map. */
  function SortField(sortKey: Option<string>): string
  {
    var key := if sortKey.Some? then sortKey.value else "-reported_at";
    if key in SortFieldMap then SortFieldMap[key] else "reported_at"
  }

  /** The `order_by` argument: the field, with '-' in front when sortDir is
      'desc' (the default). */
  function Ordering(p: Params): string
  {
    var dir := if p.sortDir.Some? then p.sortDir.value else "desc";
    if dir == "desc" then "-" + SortField(p.sortKey) else SortField(p.sortKey)
  }

  /** Every ordering is a mapped field, descending exactly for 'desc' or no
      direction; an unmapped key, the default one included, orders by
      reported_at. */
  lemma OrderingCases(p: Params)
    ensures var desc := p.sortDir.None? || p.sortDir.value == "desc";
            var field := if desc then Ordering(p)[1..] else Ordering(p);
            (desc <==> |Ordering(p)| > 0 && Ordering(p)[0] == '-') &&
            field in SortFieldMap.Values &&
            (p.sortKey.Some? && p.sortKey.value in SortFieldMap ==> field == SortFieldMap[p.sortKey.value]) &&
            (p.sortKey.None? || p.sortKey.value !in SortFieldMap ==> field == "reported_at")
  {
    var f := SortField(p.sortKey);
    SortFieldMapped(p.sortKey);
    FieldUndashed(f);
    DefaultKeyUnmapped();
    var desc := p.sortDir.None? || p.sortDir.value == "desc";
    if desc {
      assert Ordering(p) == "-" + f;
      assert Ordering(p)[1..] == f;
    } else {
      assert Ordering(p) == f;
    }
  }

  /** Every sort key gives a field among the mapped ones. */
  lemma SortFieldMapped(sortKey: Option<string>)
    ensures SortField(sortKey) in SortFieldMap.Values
  {
    assert SortFieldMap["reported_at"] == "reported_at";
  }

  /** No mapped field starts with '-'. */
  lemma FieldUndashed(v: string)
    requires v in SortFieldMap.Values
    ensures |v| > 0 && v[0] != '-'
  {
    var k :| k in SortFieldMap && SortFieldMap[k] == v;
    assert v == "reported_at" || v == "resolved_at" || v == "fail_id" || v == "circuit__circuit_id"
        || v == "station__name" || v == "section__name" || v == "assigned_to__name" || v == "current_status";
  }

  /** The default key '-reported_at' is no key of the map. */
  lemma DefaultKeyUnmapped()
    ensures "-reported_at" !in SortFieldMap
  {
    forall k | k in SortFieldMap
      ensures k != "-reported_at"
    {
      assert |k| > 0 && k[0] != '-';
    }
  }

  /** With no sort parameters the newest failures come first. */
  lemma DefaultOrdering(p: Params)
    requires p.sortKey.None? && p.sortDir.None?
    ensures Ordering(p) == "-reported_at"
  {
  }

  /** How `order_by` ranks failures by a model field: by the report time
      for reported_at, and by the database's collation for the others. */
  function FieldRank(field: string, collate: (string, Failure) -> int): Failure -> int
  {
    if field == "reported_at" then (f: Failure) => f.reportedAt else (f: Failure) => collate(field, f)
  }

  function Negated(rank: Failure -> int): Failure -> int
  {
    (f: Failure) => -rank(f)
  }

  /** 'desc', or no direction at all. */
  predicate DescendingOrder(p: Params)
  {
    p.sortDir.None? || p.sortDir.value == "desc"
  }

  /** The rank `queryset.order_by(Ordering(p))` sorts by ascending. */
  function OrderKey(p: Params, collate: (string, Failure) -> int): Failure -> int
  {
    var rank := FieldRank(SortField(p.sortKey), collate);
    if DescendingOrder(p) then Negated(rank) else rank
  }

  /** The filtered failures in the requested order; failures the ordering
      ranks equal keep their filtered order. */
  function Ordered(fs: seq<Failure>, p: Params, parse: string -> Option<int>,
                   collate: (string, Failure) -> int): seq<Failure>
  {
    SortBy(Filtered(fs, p, parse), OrderKey(p, collate))
  }

  // ----- Pagination -----

  /** `Paginator.num_pages`: an empty list still has one (empty) page. */
  function NumPages(count: nat, perPage: nat): (n: nat)
    requires perPage >= 1
    ensures n >= 1
    ensures (n - 1) * perPage < Max(1, count) <= n * perPage
  {
    var hits := Max(1, count);
    var n := (hits + perPage - 1) / perPage;
    assert n * perPage + (hits + perPage - 1) % perPage == hits + perPage - 1;
    assert (n - 1) * perPage == n * perPage - perPage;
    n
  }

  datatype PageLookup = Page(n: nat) | PageNotAnInteger | EmptyPage

  /** `Paginator.page(number)`: the number, or the exception it raises. */
  function ValidatePage(arg: PageArg, numPages: nat): PageLookup
  {
    match arg
    case Absent => if 1 <= numPages then Page(1) else EmptyPage
    case NotAnInteger => PageNotAnInteger
    case Number(n) => if 1 <= n <= numPages then Page(n) else EmptyPage
  }

  /** The page shown, after the view's two exception handlers. */
  function PageNumber(arg: PageArg, numPages: nat): (n: nat)
    requires numPages >= 1
    ensures 1 <= n <= numPages
    ensures arg.Number? && 1 <= arg.n <= numPages ==> n == arg.n
    ensures arg.Number? && !(1 <= arg.n <= numPages) ==> n == numPages
    ensures !arg.Number? ==> n == 1
  {
    match ValidatePage(arg, numPages)
    case Page(k) => k
    case PageNotAnInteger => 1
    case EmptyPage => numPages
  }

  /** The failures on page `n`. */
  function PageItems<T>(items: seq<T>, perPage: nat, n: nat): (r: seq<T>)
    requires perPage >= 1 && 1 <= n <= NumPages(|items|, perPage)
    ensures |r| <= perPage
  {
    var bottom := (n - 1) * perPage;
    assert bottom <= (NumPages(|items|, perPage) - 1) * perPage;
    items[bottom..Min(bottom + perPage, |items|)]
  }

  /** Every failure sits on exactly the page its position says, and every
      page but the last is full. */
  lemma PagesCover<T>(items: seq<T>, perPage: nat, i: nat)
    requires perPage >= 1 && i < |items|
    ensures 1 <= i / perPage + 1 <= NumPages(|items|, perPage)
    ensures i % perPage < |PageItems(items, perPage, i / perPage + 1)|
    ensures PageItems(items, perPage, i / perPage + 1)[i % perPage] == items[i]
  {
    var n := NumPages(|items|, perPage);
    var k := i / perPage;
    var rm := i % perPage;
    var b := k * perPage;
    DivMod(i, perPage);
    assert b + rm == i && rm < perPage;
    assert b < n * perPage;
    MulStrict(k, n, perPage);
    assert (k + 1 - 1) * perPage == b;
    var page := PageItems(items, perPage, k + 1);
    assert page == items[b..Min(b + perPage, |items|)];
    assert page[rm] == items[b + rm];
  }

  lemma DivMod(i: nat, p: nat)
    requires p >= 1
    ensures (i / p) * p + i % p == i && 0 <= i % p < p
  {
  }

  lemma MulStrict(a: nat, b: nat, c: nat)
    requires a * c < b * c
    ensures a < b
  {
    if a >= b {
      MulMonotone(b, a, c);
    }
  }

  lemma MulMonotone(a: nat, b: nat, c: nat)
    requires a <= b
    ensures a * c <= b * c
  {
  }

  lemma FullPages<T>(items: seq<T>, perPage: nat, n: nat)
    requires perPage >= 1 && 1 <= n < NumPages(|items|, perPage)
    ensures |PageItems(items, perPage, n)| == perPage
  {
    var m := NumPages(|items|, perPage);
    MulMonotone(n, m - 1, perPage);
  }

  // ----- The response -----

  /** A page of failures, or the uncaught exception of a page size that is
      not a positive integer: `int()` fails on a non-integer, a size of 0
      divides by zero in `num_pages`, and a negative size makes every page
      number, the fallback one included, an `EmptyPage` (a 500 in each case). */
  datatype LogbookReply = LogbookPage(count: nat, numPages: nat, results: seq<Failure>) | ServerError

  /** The page size the paginator works with, or None when it raises. */
  function RowsPerPage(arg: PageArg): (r: Option<nat>)
    ensures r.Some? ==> r.value >= 1
    ensures arg.Absent? ==> r == Some(20)
    ensures arg.Number? ==> (r.Some? <==> arg.n >= 1) && (r.Some? ==> r.value == arg.n)
    ensures arg.NotAnInteger? ==> r.None?
  {
    match arg
    case Absent => Some(20)
    case NotAnInteger => None
    case Number(n) => if n >= 1 then Some(n) else None
  }

  /** The serializer line 8 imports: `FailureSerializer` as written, which
      the failures app does not define, and its list serializer as intended. */
  function SerializerImported(mode: Orm.Mode): string
  {
    if mode == Orm.AsWritten then "FailureSerializer" else "FailureListSerializer"
  }

  /** The view answers only when its module loads (the serializer import
      resolves) and its base queryset resolves (the `is_archived` lookup at
      line 20 names a field). */
  predicate Answers(mode: Orm.Mode)
  {
    SerializerImported(mode) in SerializerNames && ArchiveLookupResolves(mode)
  }

  /** As written neither holds; as intended both do. */
  lemma AnswersIff(mode: Orm.Mode)
    ensures Answers(mode) <==> mode == Orm.Intended
    ensures mode == Orm.AsWritten ==> SerializerImported(mode) !in SerializerNames && !ArchiveLookupResolves(mode)
  {
  }

  /** `get`: the size of the filtered set, its page count, and one page of
      it in the requested order, when the view can answer at all. */
  function Get(mode: Orm.Mode, fs: seq<Failure>, p: Params, parse: string -> Option<int>,
               collate: (string, Failure) -> int): (r: LogbookReply)
    ensures r.ServerError? <==> !Answers(mode) || RowsPerPage(p.rowsPerPage).None?
    ensures r.LogbookPage? ==> r.numPages >= 1 && |r.results| <= RowsPerPage(p.rowsPerPage).value
    ensures Answers(mode) && p.rowsPerPage.Absent? ==> r.LogbookPage? && |r.results| <= 20
  {
    if !Answers(mode) then ServerError
    else
      match RowsPerPage(p.rowsPerPage)
      case None => ServerError
      case Some(perPage) =>
        var items := Ordered(fs, p, parse, collate);
        var numPages := NumPages(|items|, perPage);
        LogbookPage(|items|, numPages, PageItems(items, perPage, PageNumber(p.page, numPages)))
  }

  /** As written the logbook never answers: every request is a server error. */
  lemma LogbookNeverAnswers(fs: seq<Failure>, p: Params, parse: string -> Option<int>,
                            collate: (string, Failure) -> int)
    ensures Get(Orm.AsWritten, fs, p, parse, collate) == ServerError
  {
    AnswersIff(Orm.AsWritten);
  }

  /** As intended the logbook answers every request whose page size the
      paginator accepts. */
  lemma LogbookAnswersAsIntended(fs: seq<Failure>, p: Params, parse: string -> Option<int>,
                                 collate: (string, Failure) -> int)
    ensures Get(Orm.Intended, fs, p, parse, collate).LogbookPage? <==> RowsPerPage(p.rowsPerPage).Some?
  {
    AnswersIff(Orm.Intended);
  }

  /** Every result is a failure of the input that meets every condition the
      parameters switch on. */
  lemma ResultsMeetFilters(mode: Orm.Mode, fs: seq<Failure>, p: Params, parse: string -> Option<int>,
                           collate: (string, Failure) -> int)
    ensures var r := Get(mode, fs, p, parse, collate);
            r.LogbookPage? ==> forall x :: x in r.results ==> x in fs && Keep(x, p, parse)
  {
    if Answers(mode) && RowsPerPage(p.rowsPerPage).Some? {
      FilteredIsKeep(fs, p, parse);
      var perPage := RowsPerPage(p.rowsPerPage).value;
      var items := Ordered(fs, p, parse, collate);
      SortByElements(Filtered(fs, p, parse), OrderKey(p, collate));
      var n := PageNumber(p.page, NumPages(|items|, perPage));
      assert Get(mode, fs, p, parse, collate).results == PageItems(items, perPage, n);
      PageItemsFrom(items, perPage, n);
      assert forall x :: x in items ==> x in Filtered(fs, p, parse);
    }
  }

  lemma PageItemsFrom<T>(items: seq<T>, perPage: nat, n: nat)
    requires perPage >= 1 && 1 <= n <= NumPages(|items|, perPage)
    ensures forall x :: x in PageItems(items, perPage, n) ==> x in items
  {
  }

  /** The results come in the requested order of the mapped field:
      non-increasing for 'desc' (or no direction), non-decreasing otherwise. */
  lemma ResultsOrdered(mode: Orm.Mode, fs: seq<Failure>, p: Params, parse: string -> Option<int>,
                       collate: (string, Failure) -> int)
    ensures var r := Get(mode, fs, p, parse, collate);
            var rank := FieldRank(SortField(p.sortKey), collate);
            r.LogbookPage? ==>
              forall i, j :: 0 <= i < j < |r.results| ==>
                if DescendingOrder(p) then rank(r.results[i]) >= rank(r.results[j])
                else rank(r.results[i]) <= rank(r.results[j])
  {
    if Answers(mode) && RowsPerPage(p.rowsPerPage).Some? {
      var perPage := RowsPerPage(p.rowsPerPage).value;
      var key := OrderKey(p, collate);
      var items := Ordered(fs, p, parse, collate);
      SortBySorted(Filtered(fs, p, parse), key);
      var n := PageNumber(p.page, NumPages(|items|, perPage));
      PageItemsSorted(items, perPage, n, key);
    }
  }

  lemma PageItemsSorted<T>(items: seq<T>, perPage: nat, n: nat, rank: T -> int)
    requires perPage >= 1 && 1 <= n <= NumPages(|items|, perPage)
    requires SortedBy(items, rank)
    ensures SortedBy(PageItems(items, perPage, n), rank)
  {
    var bottom := (n - 1) * perPage;
    assert bottom <= (NumPages(|items|, perPage) - 1) * perPage;
    SortedSlice(items, bottom, Min(bottom + perPage, |items|), rank);
  }

  /** With no sort parameters the newest failures come first. */
  lemma NewestFirst(mode: Orm.Mode, fs: seq<Failure>, p: Params, parse: string -> Option<int>,
                    collate: (string, Failure) -> int)
    requires p.sortKey.None? && p.sortDir.None?
    ensures var r := Get(mode, fs, p, parse, collate);
            r.LogbookPage? ==>
              forall i, j :: 0 <= i < j < |r.results| ==> r.results[i].reportedAt >= r.results[j].reportedAt
  {
    ResultsOrdered(mode, fs, p, parse, collate);
    DefaultKeyUnmapped();
    assert SortField(p.sortKey) == "reported_at";
  }

  /** The count is the size of the whole filtered set, whatever page and
      order are asked for. */
  lemma CountIgnoresPage(mode: Orm.Mode, fs: seq<Failure>, p: Params, parse: string -> Option<int>,
                         collate: (string, Failure) -> int, other: PageArg,
                         key: Option<string>, dir: Option<string>)
    ensures var r := Get(mode, fs, p, parse, collate);
            r.LogbookPage? ==> r.count == |Where(fs, f => Keep(f, p, parse))|
    ensures var r := Get(mode, fs, p, parse, collate);
            var q := p.(page := other, sortKey := key, sortDir := dir);
            r.LogbookPage? ==> Get(mode, fs, q, parse, collate).LogbookPage? && Get(mode, fs, q, parse, collate).count == r.count
  {
    if Answers(mode) {
      var q := p.(page := other, sortKey := key, sortDir := dir);
      FilteredIsKeep(fs, p, parse);
      FilteredIsKeep(fs, q, parse);
      WhereSame(fs, f => Keep(f, q, parse), f => Keep(f, p, parse));
      SortByElements(Filtered(fs, p, parse), OrderKey(p, collate));
      SortByElements(Filtered(fs, q, parse), OrderKey(q, collate));
    }
  }
}
