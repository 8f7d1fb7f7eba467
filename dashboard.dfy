/** The dashboard endpoint (`DashboardDataView`): a time window and an
    optional section list select the failures; four KPIs, per-section status
    counts and resolved-per-day counts are computed over them.

    The clock is a parameter (`now`, whole seconds since the epoch, UTC).
    Database grouping is modelled on sequences: a group per distinct key in
    order of first occurrence, then the `order_by`.

    As written the base queryset filters on an `is_archived` field the
    Failure model does not have, so `Get` answers only as intended. */
module Dashboard {
  import opened Common
  import opened Sorting
  import opened Failures
  import Orm

  const Day: int := 86400

  /** The project's TIME_ZONE, Asia/Kolkata, is five and a half hours ahead of UTC. */
  const LocalOffset: int := 19800

  // ----- The window -----

  /** The `range` parameter, '30d' when absent. */
  function RangeKey(arg: Option<string>): string
  {
    if arg.Some? then arg.value else "30d"
  }

  /** Midnight of the current UTC day: `timezone.now()` is in UTC, and
      `replace(hour=0, ...)` keeps that zone. */
  function UtcDayStart(now: int): (start: int)
    ensures start <= now < start + Day
    ensures start % Day == 0
  {
    now - now % Day
  }

  /** Midnight of the current day in the project's time zone. */
  function LocalDayStart(now: int): (start: int)
    ensures start <= now < start + Day
    ensures (start + LocalOffset) % Day == 0
  {
    now - (now + LocalOffset) % Day
  }

  /** The calendar day (days since the epoch) of an instant in the project's
      time zone; `TruncDate` with USE_TZ uses that zone. */
  function LocalDay(t: int): int
  {
    (t + LocalOffset) / Day
  }

  /** The window start: 'today' from midnight (UTC midnight as written, local
      midnight as intended), '7d' a week back, anything else thirty days back. */
  function RangeStart(mode: Orm.Mode, rangeKey: string, now: int): (start: int)
    ensures start <= now
    ensures rangeKey == "today" && mode == Orm.AsWritten ==> start == UtcDayStart(now)
    ensures rangeKey == "today" && mode == Orm.Intended ==> start == LocalDayStart(now)
    ensures rangeKey == "7d" ==> now - start == 7 * Day
    ensures rangeKey != "today" && rangeKey != "7d" ==> now - start == 30 * Day
  {
    if rangeKey == "today" then (if mode == Orm.AsWritten then UtcDayStart(now) else LocalDayStart(now))
    else if rangeKey == "7d" then now - 7 * Day
    else now - 30 * Day
  }

  /** As written, 'today' can take in failures from the previous local day:
      at 04:30 in Kolkata the UTC day began at 05:30 local time yesterday. */
  lemma TodayReachesIntoYesterday()
    ensures var now := 20000 * Day - 3600;
            var t := 19999 * Day + 3600;
            t >= RangeStart(Orm.AsWritten, "today", now) && t <= now && LocalDay(t) < LocalDay(now)
  {
    var now := 20000 * Day - 3600;
    assert now % Day == Day - 3600;
    assert (now + LocalOffset) / Day == 20000;
    assert (19999 * Day + 3600 + LocalOffset) / Day == 19999;
  }

  /** As intended, 'today' is exactly the instants of the current local day up to now. */
  lemma TodayIsLocalDay(now: int, t: int)
    requires t <= now
    ensures t >= RangeStart(Orm.Intended, "today", now) <==> LocalDay(t) == LocalDay(now)
  {
    var start := LocalDayStart(now);
    var d := LocalDay(now);
    assert (now + LocalOffset) - (now + LocalOffset) % Day == d * Day;
    assert start + LocalOffset == d * Day;
    if t >= start {
      assert d * Day <= t + LocalOffset < d * Day + Day;
    } else {
      assert t + LocalOffset < d * Day;
      assert LocalDay(t) * Day <= t + LocalOffset;
    }
  }

  // ----- The base set -----

  /** The base queryset as intended: non-archived, reported in the window,
      and in one of the sections when a section list is given. */
  function Base(fs: seq<Failure>, start: int, sectionIds: seq<int>): seq<Failure>
  {
    var qs := Where(fs, (f: Failure) => !f.isArchived && f.reportedAt >= start);
    if sectionIds != [] then Where(qs, (f: Failure) => SectionIn(f, sectionIds)) else qs
  }

  predicate InWindow(f: Failure, start: int, sectionIds: seq<int>)
  {
    !f.isArchived && f.reportedAt >= start && (sectionIds != [] ==> SectionIn(f, sectionIds))
  }

  /** The base set is the failures in the window, in their order. */
  lemma BaseIsWindow(fs: seq<Failure>, start: int, sectionIds: seq<int>)
    ensures Base(fs, start, sectionIds) == Where(fs, f => InWindow(f, start, sectionIds))
  {
    var a := (f: Failure) => !f.isArchived && f.reportedAt >= start;
    if sectionIds != [] {
      WhereWhere(fs, a, (f: Failure) => SectionIn(f, sectionIds), f => InWindow(f, start, sectionIds));
    } else {
      WhereSame(fs, a, f => InWindow(f, start, sectionIds));
    }
  }

  // ----- KPIs -----

  /** `.count()` of a filter. */
  function Count(s: seq<Failure>, p: Failure -> bool): nat
  {
    |Where(s, p)|
  }

  predicate IsOpen(f: Failure)
  {
    f.currentStatus == "Active" || f.currentStatus == "In Progress" || f.currentStatus == "On Hold"
  }

  predicate IsResolved(f: Failure)
  {
    f.currentStatus == "Resolved"
  }

  predicate IsCritical(f: Failure)
  {
    f.severity == "Critical"
  }

  /** Two conditions no failure meets together count at most the whole set. */
  lemma {:induction false} CountDisjoint(s: seq<Failure>, a: Failure -> bool, b: Failure -> bool)
    requires forall x :: !(a(x) && b(x))
    ensures Count(s, a) + Count(s, b) <= |s|
    decreases |s|
  {
    if s != [] {
      CountDisjoint(s[..|s| - 1], a, b);
    }
  }

  /** A failure with a recorded resolution time. */
  predicate ResolvedWithTime(f: Failure)
  {
    IsResolved(f) && f.resolvedAt.Some?
  }

  function Duration(f: Failure): int
  {
    if f.resolvedAt.Some? then f.resolvedAt.value - f.reportedAt else 0
  }

  function SumDurations(s: seq<Failure>): int
    decreases |s|
  {
    if s == [] then 0 else SumDurations(s[..|s| - 1]) + Duration(s[|s| - 1])
  }

  /** `Avg(resolved_at - reported_at)`: None over an empty set. */
  function AverageDuration(s: seq<Failure>): (avg: Option<real>)
    ensures avg.None? <==> s == []
    ensures avg.Some? ==> avg.value * |s| as real == SumDurations(s) as real
  {
    if s == [] then None else Some(SumDurations(s) as real / |s| as real)
  }

  /** `total_seconds // 3600`. */
  function Hours(secs: real): int
  {
    (secs / 3600.0).Floor
  }

  /** `(total_seconds % 3600) // 60`, with Python's non-negative remainder. */
  function Minutes(secs: real): int
  {
    ((secs - 3600.0 * Hours(secs) as real) / 60.0).Floor
  }

  /** "{hours}h {minutes}m". */
  function FormatDuration(secs: real): string
  {
    IntToString(Hours(secs)) + "h " + IntToString(Minutes(secs)) + "m"
  }

  /** The minutes are a proper remainder, and hours and minutes together come
      within a minute below the average, for any sign of it. */
  lemma DurationParts(secs: real)
    ensures 0 <= Minutes(secs) <= 59
    ensures Hours(secs) as real * 3600.0 + Minutes(secs) as real * 60.0 <= secs
    ensures secs < Hours(secs) as real * 3600.0 + Minutes(secs) as real * 60.0 + 60.0
  {
    var h := Hours(secs);
    var rest := secs - 3600.0 * h as real;
    assert h as real <= secs / 3600.0 < h as real + 1.0;
    assert 0.0 <= rest < 3600.0;
    var m := Minutes(secs);
    assert m as real <= rest / 60.0 < m as real + 1.0;
  }

  /** On a whole number of seconds the parts are integer division and remainder. */
  lemma DurationWholeSeconds(s: int)
    ensures Hours(s as real) == s / 3600
    ensures Minutes(s as real) == (s % 3600) / 60
  {
    var h := s / 3600;
    assert h as real <= s as real / 3600.0 < h as real + 1.0;
    assert Hours(s as real) == h;
    var r := s % 3600;
    assert (s as real - 3600.0 * h as real) == r as real;
    var m := r / 60;
    assert m as real <= r as real / 60.0 < m as real + 1.0;
  }

  /** `avg_resolution_time`: 'N/A' for no average or a zero one. */
  function AvgResolutionTime(avg: Option<real>): string
  {
    if avg.None? || avg.value == 0.0 then "N/A" else FormatDuration(avg.value)
  }

  /** A formatted duration starts with a digit or a minus sign, so it is never 'N/A'. */
  lemma FormattedIsAvailable(secs: real)
    ensures FormatDuration(secs) != "N/A"
  {
    assert FormatDuration(secs)[0] == IntToString(Hours(secs))[0];
  }

  /** 'N/A' exactly when no resolved failure has a resolution time or their
      durations sum to zero. */
  lemma NotAvailableIff(r: seq<Failure>)
    ensures AvgResolutionTime(AverageDuration(r)) == "N/A" <==> r == [] || SumDurations(r) == 0
  {
    var avg := AverageDuration(r);
    if avg.Some? {
      if avg.value != 0.0 {
        FormattedIsAvailable(avg.value);
      }
      ZeroMean(SumDurations(r), |r|);
    }
  }

  lemma ZeroMean(sum: int, n: nat)
    requires n > 0
    ensures sum as real / n as real == 0.0 <==> sum == 0
  {
    var q := sum as real / n as real;
    assert q * n as real == sum as real;
  }

  datatype Kpis = Kpis(activeFailures: nat, resolvedInRange: nat, avgResolutionTime: string, criticalAlerts: nat)

  function ComputeKpis(base: seq<Failure>): Kpis
  {
    Kpis(Count(base, IsOpen), Count(base, IsResolved),
         AvgResolutionTime(AverageDuration(Where(base, ResolvedWithTime))), Count(base, IsCritical))
  }

  /** Open and resolved failures are disjoint, so together they are at most the base set. */
  lemma KpisBounded(base: seq<Failure>)
    ensures ComputeKpis(base).activeFailures + ComputeKpis(base).resolvedInRange <= |base|
    ensures ComputeKpis(base).criticalAlerts <= |base|
  {
    CountDisjoint(base, IsOpen, IsResolved);
  }

  // ----- Status by section -----

  /** `section__name`: None for a failure without a section. */
  function SectionName(f: Failure): Option<string>
  {
    if f.section.Some? then Some(f.section.value.name) else None
  }

  function SectionNames(s: seq<Failure>): (r: seq<Option<string>>)
    ensures |r| == |s|
    ensures forall i :: 0 <= i < |s| ==> r[i] == SectionName(s[i])
    decreases |s|
  {
    if s == [] then [] else SectionNames(s[..|s| - 1]) + [SectionName(s[|s| - 1])]
  }

  datatype SectionCounts = SectionCounts(section: Option<string>, active: nat, resolved: nat)

  /** The annotated row of one section group. */
  function SectionRow(base: seq<Failure>, name: Option<string>): SectionCounts
  {
    SectionCounts(name,
      Count(base, (f: Failure) => SectionName(f) == name && f.currentStatus == "Active"),
      Count(base, (f: Failure) => SectionName(f) == name && f.currentStatus == "Resolved"))
  }

  function SectionRows(base: seq<Failure>, names: seq<Option<string>>): (r: seq<SectionCounts>)
    ensures |r| == |names|
    ensures forall i :: 0 <= i < |names| ==> r[i] == SectionRow(base, names[i]) && r[i].section == names[i]
    decreases |names|
  {
    if names == [] then [] else SectionRows(base, names[..|names| - 1]) + [SectionRow(base, names[|names| - 1])]
  }

  function ActiveRank(r: SectionCounts): int
  {
    -(r.active as int)
  }

  /** `values('section__name').annotate(...).order_by('-active')`. */
  function StatusBySection(base: seq<Failure>): seq<SectionCounts>
  {
    SortBy(SectionRows(base, Distinct(SectionNames(base))), ActiveRank)
  }

  /** Most active first, and every row carries its own section's counts. */
  lemma StatusBySectionOrdered(base: seq<Failure>)
    ensures var r := StatusBySection(base);
            forall i, j :: 0 <= i < j < |r| ==> r[i].active >= r[j].active
    ensures forall x :: x in StatusBySection(base) ==> x == SectionRow(base, x.section)
  {
    MostActiveFirst(base);
    RowsAreSectionRows(base);
  }

  lemma MostActiveFirst(base: seq<Failure>)
    ensures var r := StatusBySection(base);
            forall i, j :: 0 <= i < j < |r| ==> r[i].active >= r[j].active
  {
    var r := SortBy(SectionRows(base, Distinct(SectionNames(base))), ActiveRank);
    SortBySorted(SectionRows(base, Distinct(SectionNames(base))), ActiveRank);
    assert SortedBy(r, ActiveRank);
    forall i, j | 0 <= i < j < |r|
      ensures r[i].active >= r[j].active
    {
      assert ActiveRank(r[i]) <= ActiveRank(r[j]);
    }
  }

  lemma RowsAreSectionRows(base: seq<Failure>)
    ensures forall x :: x in StatusBySection(base) ==> x == SectionRow(base, x.section)
  {
    var rows := SectionRows(base, Distinct(SectionNames(base)));
    SortByElements(rows, ActiveRank);
    forall x | x in SortBy(rows, ActiveRank)
      ensures x == SectionRow(base, x.section)
    {
      assert x in rows;
      SectionRowAt(base, Distinct(SectionNames(base)), rows, x);
    }
  }

  lemma SectionRowAt(base: seq<Failure>, names: seq<Option<string>>, rows: seq<SectionCounts>, x: SectionCounts)
    requires rows == SectionRows(base, names) && x in rows
    ensures x == SectionRow(base, x.section)
  {
    var k :| 0 <= k < |rows| && rows[k] == x;
  }

  /** The rows before sorting: one per distinct section name. */
  lemma SectionRowsNoDuplicates(base: seq<Failure>)
    ensures NoDuplicates(SectionRows(base, Distinct(SectionNames(base))))
  {
    var names := Distinct(SectionNames(base));
    KeyedRowsNoDuplicates(names, SectionRows(base, names));
  }

  lemma KeyedRowsNoDuplicates(names: seq<Option<string>>, rows: seq<SectionCounts>)
    requires forall i, j :: 0 <= i < j < |names| ==> names[i] != names[j]
    requires |rows| == |names| && forall i :: 0 <= i < |rows| ==> rows[i].section == names[i]
    ensures NoDuplicates(rows)
  {
  }

  /** One row per section name. */
  lemma StatusBySectionDistinct(base: seq<Failure>)
    ensures var r := StatusBySection(base);
            forall i, j :: 0 <= i < j < |r| ==> r[i].section != r[j].section
  {
    var rows := SectionRows(base, Distinct(SectionNames(base)));
    SectionRowsNoDuplicates(base);
    SortByNoDuplicates(rows, ActiveRank);
    StatusBySectionOrdered(base);
    var r := StatusBySection(base);
    forall i, j | 0 <= i < j < |r|
      ensures r[i].section != r[j].section
    {
      assert r[i] in r && r[j] in r;
    }
  }

  /** Every failure's section has its row. */
  lemma StatusBySectionCovers(base: seq<Failure>)
    ensures forall k :: 0 <= k < |base| ==> SectionRow(base, SectionName(base[k])) in StatusBySection(base)
  {
    var names := Distinct(SectionNames(base));
    var rows := SectionRows(base, names);
    SortByElements(rows, ActiveRank);
    forall k | 0 <= k < |base|
      ensures SectionRow(base, SectionName(base[k])) in rows
    {
      var n := SectionName(base[k]);
      assert SectionNames(base)[k] == n;
      var i :| 0 <= i < |names| && names[i] == n;
      assert rows[i] == SectionRow(base, n);
    }
  }

  // ----- Resolved over time -----

  /** `TruncDate('resolved_at')`: None when no resolution time is recorded. */
  function ResolvedDate(f: Failure): Option<int>
  {
    if f.resolvedAt.Some? then Some(LocalDay(f.resolvedAt.value)) else None
  }

  /** The known days among the failures, in order of occurrence. */
  function KnownDays(s: seq<Failure>): seq<int>
    decreases |s|
  {
    if s == [] then []
    else
      var d := ResolvedDate(s[|s| - 1]);
      KnownDays(s[..|s| - 1]) + (if d.Some? then [d.value] else [])
  }

  lemma {:induction false} KnownDaysSound(s: seq<Failure>)
    ensures forall d :: d in KnownDays(s) ==> exists k :: 0 <= k < |s| && ResolvedDate(s[k]) == Some(d)
    decreases |s|
  {
    if s != [] {
      var p := s[..|s| - 1];
      KnownDaysSound(p);
      forall d | d in KnownDays(s)
        ensures exists k :: 0 <= k < |s| && ResolvedDate(s[k]) == Some(d)
      {
        if d in KnownDays(p) {
          var k :| 0 <= k < |p| && ResolvedDate(p[k]) == Some(d);
          assert s[k] == p[k];
        } else {
          assert ResolvedDate(s[|s| - 1]) == Some(d);
        }
      }
    }
  }

  lemma {:induction false} KnownDaysComplete(s: seq<Failure>)
    ensures forall k :: 0 <= k < |s| && ResolvedDate(s[k]).Some? ==> ResolvedDate(s[k]).value in KnownDays(s)
    decreases |s|
  {
    if s != [] {
      var p := s[..|s| - 1];
      KnownDaysComplete(p);
      forall k | 0 <= k < |s| && ResolvedDate(s[k]).Some?
        ensures ResolvedDate(s[k]).value in KnownDays(s)
      {
        if k < |p| {
          assert s[k] == p[k];
        }
      }
    }
  }

  datatype DayCount = DayCount(date: Option<int>, count: nat)

  predicate OnDay(f: Failure, date: Option<int>)
  {
    ResolvedDate(f) == date
  }

  /** The annotated row of one day group. */
  function DayRow(resolved: seq<Failure>, date: Option<int>): DayCount
  {
    DayCount(date, Count(resolved, (f: Failure) => OnDay(f, date)))
  }

  function DayRows(resolved: seq<Failure>, days: seq<int>): (r: seq<DayCount>)
    ensures |r| == |days|
    ensures forall i :: 0 <= i < |days| ==> r[i] == DayRow(resolved, Some(days[i]))
    decreases |days|
  {
    if days == [] then [] else DayRows(resolved, days[..|days| - 1]) + [DayRow(resolved, Some(days[|days| - 1]))]
  }

  function DayRank(d: int): int
  {
    d
  }

  /** The distinct known days, ascending. */
  function SortedDays(resolved: seq<Failure>): seq<int>
  {
    SortBy(Distinct(KnownDays(resolved)), DayRank)
  }

  /** The group of failures without a resolution date, when there are any. */
  function UndatedRow(resolved: seq<Failure>): (r: seq<DayCount>)
    ensures |r| <= 1
    ensures forall i :: 0 <= i < |r| ==> r[i].date.None?
  {
    var n := Count(resolved, (f: Failure) => OnDay(f, None));
    if n > 0 then [DayCount(None, n)] else []
  }

  /** Resolved failures grouped by day, ascending; the group without a date
      comes first, where SQLite sorts NULL. */
  function ResolvedOverTime(base: seq<Failure>): seq<DayCount>
  {
    var resolved := Where(base, IsResolved);
    UndatedRow(resolved) + DayRows(resolved, SortedDays(resolved))
  }

  lemma SortedDaysIncreasing(resolved: seq<Failure>)
    ensures var d := SortedDays(resolved);
            forall i, j :: 0 <= i < j < |d| ==> d[i] < d[j]
  {
    var days := Distinct(KnownDays(resolved));
    SortBySorted(days, DayRank);
    SortByNoDuplicates(days, DayRank);
    var d := SortBy(days, DayRank);
    forall i, j | 0 <= i < j < |d|
      ensures d[i] < d[j]
    {
      assert DayRank(d[i]) <= DayRank(d[j]) && d[i] != d[j];
    }
  }

  /** Every known day of a resolved failure is listed. */
  lemma SortedDaysComplete(resolved: seq<Failure>)
    ensures forall k :: 0 <= k < |resolved| && ResolvedDate(resolved[k]).Some? ==>
              ResolvedDate(resolved[k]).value in SortedDays(resolved)
  {
    KnownDaysComplete(resolved);
    SortByElements(Distinct(KnownDays(resolved)), DayRank);
  }

  /** Every listed day is the known day of some resolved failure. */
  lemma SortedDaysSound(resolved: seq<Failure>)
    ensures forall d :: d in SortedDays(resolved) ==> exists k :: 0 <= k < |resolved| && ResolvedDate(resolved[k]) == Some(d)
  {
    KnownDaysSound(resolved);
    var days := Distinct(KnownDays(resolved));
    SortByElements(days, DayRank);
    assert forall d :: d in days ==> d in KnownDays(resolved);
  }

  /** The dated rows come after the undated one, in strictly increasing day order. */
  lemma ResolvedDaysIncreasing(base: seq<Failure>)
    ensures var r := ResolvedOverTime(base);
            forall i, j :: 0 <= i < j < |r| && r[i].date.Some? ==> r[j].date.Some? && r[i].date.value < r[j].date.value
  {
    var resolved := Where(base, IsResolved);
    var sorted := SortedDays(resolved);
    SortedDaysIncreasing(resolved);
    IncreasingAfterUndated(UndatedRow(resolved), sorted, DayRows(resolved, sorted));
  }

  lemma IncreasingAfterUndated(head: seq<DayCount>, days: seq<int>, rows: seq<DayCount>)
    requires forall i :: 0 <= i < |head| ==> head[i].date.None?
    requires forall i, j :: 0 <= i < j < |days| ==> days[i] < days[j]
    requires |rows| == |days| && forall i :: 0 <= i < |rows| ==> rows[i].date == Some(days[i])
    ensures var r := head + rows;
            forall i, j :: 0 <= i < j < |r| && r[i].date.Some? ==> r[j].date.Some? && r[i].date.value < r[j].date.value
  {
    var r := head + rows;
    forall i, j | 0 <= i < j < |r| && r[i].date.Some?
      ensures r[j].date.Some? && r[i].date.value < r[j].date.value
    {
      assert i >= |head|;
      assert r[i] == rows[i - |head|] && r[j] == rows[j - |head|];
    }
  }

  /** A day row is never empty. */
  lemma DatedRowsCount(resolved: seq<Failure>)
    ensures forall x :: x in DayRows(resolved, SortedDays(resolved)) ==> x == DayRow(resolved, x.date) && x.count >= 1
  {
    var sorted := SortedDays(resolved);
    var rows := DayRows(resolved, sorted);
    SortedDaysSound(resolved);
    forall i | 0 <= i < |rows|
      ensures rows[i].count >= 1
    {
      var d := sorted[i];
      assert d in sorted;
      var k :| 0 <= k < |resolved| && ResolvedDate(resolved[k]) == Some(d);
      assert resolved[k] in Where(resolved, (f: Failure) => OnDay(f, Some(d)));
    }
  }

  /** Every row counts exactly the resolved failures of its day, and no row is empty. */
  lemma ResolvedRowsCount(base: seq<Failure>)
    ensures forall x :: x in ResolvedOverTime(base) ==>
              x == DayRow(Where(base, IsResolved), x.date) && x.count >= 1
  {
    var resolved := Where(base, IsResolved);
    DatedRowsCount(resolved);
    var r := ResolvedOverTime(base);
    var head := UndatedRow(resolved);
    assert r == head + DayRows(resolved, SortedDays(resolved));
    forall x | x in r
      ensures x == DayRow(resolved, x.date) && x.count >= 1
    {
      if x in head {
        assert x == DayCount(None, Count(resolved, (f: Failure) => OnDay(f, None)));
      }
    }
  }

  /** Every resolved failure's day has a row. */
  lemma ResolvedRowsCover(base: seq<Failure>)
    ensures forall k :: 0 <= k < |base| && IsResolved(base[k]) ==>
              exists x :: x in ResolvedOverTime(base) && x.date == ResolvedDate(base[k])
  {
    var resolved := Where(base, IsResolved);
    var sorted := SortedDays(resolved);
    var rows := DayRows(resolved, sorted);
    SortedDaysComplete(resolved);
    var r := ResolvedOverTime(base);
    var head := UndatedRow(resolved);
    assert r == head + rows;
    forall k | 0 <= k < |base| && IsResolved(base[k])
      ensures exists x :: x in r && x.date == ResolvedDate(base[k])
    {
      var f := base[k];
      assert f in resolved;
      var m :| 0 <= m < |resolved| && resolved[m] == f;
      if ResolvedDate(f).Some? {
        var d := ResolvedDate(f).value;
        assert d in sorted;
        var i :| 0 <= i < |sorted| && sorted[i] == d;
        assert rows[i] in r;
      } else {
        assert f in Where(resolved, (f: Failure) => OnDay(f, None));
        assert r[0] == head[0];
      }
    }
  }

  // ----- The response -----

  datatype DashboardData = DashboardData(kpis: Kpis, statusBySection: seq<SectionCounts>, resolvedOverTime: seq<DayCount>)

  /** The reply: the data, or the server error of a base queryset that
      cannot be built. As written, line 35 filters on `is_archived`, which
      the Failure model does not declare, so Django raises FieldError on
      every request. */
  datatype DashboardReply = Data(data: DashboardData) | ServerError

  /** `get`: the KPIs and both charts over the failures of the window. */
  function Get(mode: Orm.Mode, fs: seq<Failure>, rangeArg: Option<string>, sectionIds: seq<int>, now: int): (r: DashboardReply)
    ensures r.ServerError? <==> !ArchiveLookupResolves(mode)
    ensures r.Data? ==>
              var window := Where(fs, f => InWindow(f, RangeStart(mode, RangeKey(rangeArg), now), sectionIds));
              var k := r.data.kpis;
              k.activeFailures + k.resolvedInRange <= |window| && k.criticalAlerts <= |window|
    ensures r.Data? ==>
              var window := Where(fs, f => InWindow(f, RangeStart(mode, RangeKey(rangeArg), now), sectionIds));
              var rows := r.data.statusBySection;
              (forall i, j :: 0 <= i < j < |rows| ==> rows[i].active >= rows[j].active && rows[i].section != rows[j].section)
              && (forall x :: x in rows ==> x == SectionRow(window, x.section))
    ensures r.Data? ==>
              var days := r.data.resolvedOverTime;
              forall i, j :: 0 <= i < j < |days| && days[i].date.Some? ==> days[j].date.Some? && days[i].date.value < days[j].date.value
  {
    if !ArchiveLookupResolves(mode) then ServerError
    else
      var start := RangeStart(mode, RangeKey(rangeArg), now);
      var base := Base(fs, start, sectionIds);
      BaseIsWindow(fs, start, sectionIds);
      KpisBounded(base);
      StatusBySectionOrdered(base);
      StatusBySectionDistinct(base);
      ResolvedDaysIncreasing(base);
      Data(DashboardData(ComputeKpis(base), StatusBySection(base), ResolvedOverTime(base)))
  }

  /** As written the dashboard never answers: every request is a server error. */
  lemma DashboardNeverAnswers(fs: seq<Failure>, rangeArg: Option<string>, sectionIds: seq<int>, now: int)
    ensures Get(Orm.AsWritten, fs, rangeArg, sectionIds, now) == ServerError
  {
  }

  /** With no range given the window is the last thirty days. */
  lemma DefaultRange(mode: Orm.Mode, now: int)
    ensures RangeStart(mode, RangeKey(None), now) == now - 30 * Day
  {
  }
}
