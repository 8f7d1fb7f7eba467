/** Supervisor movements (`operations/views.py`): the date check both views
    share, the by-date listing that pairs every supervisor with that day's
    movement, and the rows, file name and caption of the movement report.

    `strptime(..., '%Y-%m-%d')` is a parameter (a date for a text, or None);
    the PDF layout and the Telegram delivery are not modelled, and the
    delivery's outcome is a parameter. */
module Operations {
  import opened Common
  import opened Sorting

  datatype Date = Date(year: nat, month: nat, day: nat)

  predicate SaneDate(d: Date)
  {
    1 <= d.year <= 9999 && 1 <= d.month <= 12 && 1 <= d.day <= 31
  }

  // ----- The date parameter -----

  datatype DateCheck = DateOk(date: Date) | DateError(status: nat, error: string)

  const InvalidDate := "Invalid date format. Use YYYY-MM-DD."

  /** `if not date_str` then `strptime` in a try: a missing or empty text is
      the view's own 400, one that does not parse the format 400. */
  function CheckDate(arg: Option<string>, missing: string, parse: string -> Option<Date>): (r: DateCheck)
    ensures r.DateOk? <==> arg.Some? && arg.value != "" && parse(arg.value).Some?
    ensures r.DateOk? ==> r.date == parse(arg.value).value
    ensures arg.None? || arg.value == "" ==> r == DateError(400, missing)
    ensures arg.Some? && arg.value != "" && parse(arg.value).None? ==> r == DateError(400, InvalidDate)
  {
    if arg.None? || arg.value == "" then DateError(400, missing)
    else if parse(arg.value).None? then DateError(400, InvalidDate)
    else DateOk(parse(arg.value).value)
  }

  const ByDateMissing := "A 'date' query parameter is required."
  const SendMissing := "A 'date' is required."

  // ----- Date rendering -----

  function Zeros(n: nat): (r: string)
    ensures |r| == n && forall i :: 0 <= i < n ==> r[i] == '0'
  {
    if n == 0 then [] else Zeros(n - 1) + ['0']
  }

  /** A number zero-padded to `width` digits, as the `%Y`, `%m` and `%d` directives print it. */
  function PadNat(n: nat, width: nat): (r: string)
    ensures |r| >= width
    ensures forall i :: 0 <= i < |r| ==> '0' <= r[i] <= '9'
  {
    var s := NatToString(n);
    if |s| < width then Zeros(width - |s|) + s else s
  }

  lemma {:induction false} LeadingZeros(k: nat, s: string)
    requires forall i :: 0 <= i < |s| ==> '0' <= s[i] <= '9'
    ensures DigitsValue(Zeros(k) + s) == DigitsValue(s)
    decreases |s|
  {
    if s == [] {
      assert Zeros(k) + s == Zeros(k);
      ZerosValue(k);
    } else {
      var p := s[..|s| - 1];
      LeadingZeros(k, p);
      assert (Zeros(k) + s)[..|Zeros(k) + s| - 1] == Zeros(k) + p;
    }
  }

  lemma {:induction false} ZerosValue(k: nat)
    ensures DigitsValue(Zeros(k)) == 0
    decreases k
  {
    if k > 0 {
      ZerosValue(k - 1);
      assert Zeros(k)[..k - 1] == Zeros(k - 1);
    }
  }

  /** Reading a padded number back gives the number. */
  lemma PadNatValue(n: nat, width: nat)
    ensures DigitsValue(PadNat(n, width)) == n
  {
    DigitsOfNat(n);
    var s := NatToString(n);
    if |s| < width {
      assert PadNat(n, width) == Zeros(width - |s|) + s;
      LeadingZeros(width - |s|, s);
    } else {
      assert PadNat(n, width) == s;
    }
  }

  lemma PadNatWidth(n: nat, width: nat)
    requires width >= 1 && n < Pow10(width)
    ensures |PadNat(n, width)| == width
  {
    NatToStringLength(n, width);
  }

  function Pow10(k: nat): nat
  {
    if k == 0 then 1 else 10 * Pow10(k - 1)
  }

  lemma Pow10AtMostTen(k: nat)
    ensures k <= 1 ==> Pow10(k) <= 10
  {
  }

  lemma {:induction false} NatToStringLength(n: nat, width: nat)
    requires n < Pow10(width)
    ensures |NatToString(n)| <= Max(width, 1)
    decreases n
  {
    if n >= 10 {
      Pow10AtMostTen(width);
      assert width >= 2;
      assert n / 10 < Pow10(width - 1);
      NatToStringLength(n / 10, width - 1);
    }
  }

  /** `%Y-%m-%d`. */
  function IsoDate(d: Date): string
  {
    PadNat(d.year, 4) + "-" + PadNat(d.month, 2) + "-" + PadNat(d.day, 2)
  }

  /** The ISO rendering of a date has the fixed layout and reads back to the
      same year, month and day. */
  lemma IsoDateReadsBack(d: Date)
    requires SaneDate(d)
    ensures var s := IsoDate(d);
            |s| == 10 && s[4] == '-' && s[7] == '-'
            && DigitsValue(s[..4]) == d.year && DigitsValue(s[5..7]) == d.month && DigitsValue(s[8..]) == d.day
  {
    var y := PadNat(d.year, 4);
    var m := PadNat(d.month, 2);
    var dd := PadNat(d.day, 2);
    PadNatWidth(d.year, 4);
    PadNatWidth(d.month, 2);
    PadNatWidth(d.day, 2);
    PadNatValue(d.year, 4);
    PadNatValue(d.month, 2);
    PadNatValue(d.day, 2);
    var s := IsoDate(d);
    assert s == y + "-" + m + "-" + dd;
    assert s[..4] == y;
    assert s[5..7] == m;
    assert s[8..] == dd;
  }

  const MonthNames: seq<string> := ["Jan", "Feb", "Mar", "Apr", "May", "Jun", "Jul", "Aug", "Sep", "Oct", "Nov", "Dec"]

  /** `%b` in the C locale. */
  function MonthAbbrev(month: nat): string
  {
    if 1 <= month <= 12 then MonthNames[month - 1] else ""
  }

  /** `%d-%b`. */
  function DayMonth(d: Date): string
  {
    PadNat(d.day, 2) + "-" + MonthAbbrev(d.month)
  }

  /** `%d-%b-%Y`. */
  function LongDate(d: Date): string
  {
    DayMonth(d) + "-" + PadNat(d.year, 4)
  }

  // ----- Movements -----

  datatype Person = Person(id: int, name: string, designation: string)

  datatype Movement = Movement(
    date: Date,
    supervisor: Person,
    location: string,
    onLeave: bool,
    leaveFrom: Option<Date>,
    leaveTo: Option<Date>,
    lookAfter: Option<Person>,
    purpose: string)

  // ----- The report -----

  const Header: seq<string> := ["Supervisor", "Designation", "Status", "Details"]

  const LineBreak := "&lt;br/&gt;"

  function StatusText(m: Movement): (s: string)
    ensures s == "On Leave" <==> m.onLeave
    ensures s == "On Duty" <==> !m.onLeave
  {
    if m.onLeave then "On Leave" else "On Duty"
  }

  /** The leave period, or 'N/A' unless both ends are set. */
  function DateRange(m: Movement): string
  {
    if m.leaveFrom.Some? && m.leaveTo.Some? then DayMonth(m.leaveFrom.value) + " to " + DayMonth(m.leaveTo.value)
    else "N/A"
  }

  /** The details text as the view accumulates it with `+=`. */
  function Details(m: Movement): string
  {
    if m.onLeave then
      "Duration: " + DateRange(m) + (if m.lookAfter.Some? then "\nLooked After By: " + m.lookAfter.value.name else "")
    else
      "Location: " + m.location + (if m.purpose != "" then "\nPurpose: " + m.purpose else "")
  }

  /** What the details say, one line per entry: the duration and the
      substitute for a leave, the location and the purpose for a duty. */
  function DetailLines(m: Movement): (lines: seq<string>)
    ensures 1 <= |lines| <= 2
    ensures m.onLeave ==> lines[0] == "Duration: " + DateRange(m) && (|lines| == 2 <==> m.lookAfter.Some?)
    ensures m.onLeave && |lines| == 2 ==> lines[1] == "Looked After By: " + m.lookAfter.value.name
    ensures !m.onLeave ==> lines[0] == "Location: " + m.location && (|lines| == 2 <==> m.purpose != "")
    ensures !m.onLeave && |lines| == 2 ==> lines[1] == "Purpose: " + m.purpose
  {
    if m.onLeave then
      ["Duration: " + DateRange(m)] + (if m.lookAfter.Some? then ["Looked After By: " + m.lookAfter.value.name] else [])
    else
      ["Location: " + m.location] + (if m.purpose != "" then ["Purpose: " + m.purpose] else [])
  }

  /** The accumulated text is the lines joined by newlines. */
  lemma DetailsAreLines(m: Movement)
    ensures Details(m) == Join(DetailLines(m), "\n")
  {
    if m.onLeave {
      LeaveDetailsAreLines(m);
    } else {
      DutyDetailsAreLines(m);
    }
  }

  lemma LeaveDetailsAreLines(m: Movement)
    requires m.onLeave
    ensures Details(m) == Join(DetailLines(m), "\n")
  {
    var lines := DetailLines(m);
    if m.lookAfter.Some? {
      JoinTwo(lines, "\n");
      assert "\nLooked After By: " == "\n" + "Looked After By: ";
    }
  }

  lemma DutyDetailsAreLines(m: Movement)
    requires !m.onLeave
    ensures Details(m) == Join(DetailLines(m), "\n")
  {
    var lines := DetailLines(m);
    if m.purpose != "" {
      JoinTwo(lines, "\n");
      assert "\nPurpose: " == "\n" + "Purpose: ";
    }
  }

  lemma JoinTwo(parts: seq<string>, sep: string)
    requires |parts| == 2
    ensures Join(parts, sep) == parts[0] + sep + parts[1]
  {
    assert Join(parts[1..], sep) == parts[1];
  }

  /** `str.replace('\n', rep)`. */
  function ReplaceNewlines(s: string, rep: string): (r: string)
    decreases |s|
  {
    if s == [] then [] else ReplaceNewlines(s[..|s| - 1], rep) + (if s[|s| - 1] == '\n' then rep else [s[|s| - 1]])
  }

  lemma {:induction false} ReplaceNewlinesConcat(a: string, b: string, rep: string)
    ensures ReplaceNewlines(a + b, rep) == ReplaceNewlines(a, rep) + ReplaceNewlines(b, rep)
    decreases |b|
  {
    if b == [] {
      assert a + b == a;
    } else {
      var p := b[..|b| - 1];
      ReplaceNewlinesConcat(a, p, rep);
      assert (a + b)[..|a + b| - 1] == a + p;
      assert (a + b)[|a + b| - 1] == b[|b| - 1];
    }
  }

  lemma {:induction false} ReplaceNewlinesNone(s: string, rep: string)
    requires '\n' !in s
    ensures ReplaceNewlines(s, rep) == s
    decreases |s|
  {
    if s != [] {
      ReplaceNewlinesNone(s[..|s| - 1], rep);
    }
  }

  /** No newline is left once they are all replaced by newline-free text. */
  lemma {:induction false} ReplaceNewlinesRemoves(s: string, rep: string)
    requires '\n' !in rep
    ensures '\n' !in ReplaceNewlines(s, rep)
    decreases |s|
  {
    if s != [] {
      ReplaceNewlinesRemoves(s[..|s| - 1], rep);
    }
  }

  /** The details cell of the PDF table. */
  function DetailsCell(m: Movement): string
  {
    ReplaceNewlines(Details(m), LineBreak)
  }

  predicate NoNewline(s: string)
  {
    '\n' !in s
  }

  /** When the lines hold no newline of their own, the cell is the lines
      joined by the escaped line break, and never holds a newline. */
  lemma DetailsCellLines(m: Movement)
    requires forall i :: 0 <= i < |DetailLines(m)| ==> NoNewline(DetailLines(m)[i])
    ensures DetailsCell(m) == Join(DetailLines(m), LineBreak)
    ensures '\n' !in DetailsCell(m)
  {
    DetailsAreLines(m);
    ReplaceNewlinesRemoves(Details(m), LineBreak);
    var lines := DetailLines(m);
    if |lines| == 1 {
      ReplaceNewlinesNone(lines[0], LineBreak);
    } else {
      assert Join(lines, "\n") == lines[0] + "\n" + lines[1];
      assert Join(lines, LineBreak) == lines[0] + LineBreak + lines[1];
      ReplaceNewlinesConcat(lines[0] + "\n", lines[1], LineBreak);
      ReplaceNewlinesConcat(lines[0], "\n", LineBreak);
      ReplaceNewlinesNone(lines[0], LineBreak);
      ReplaceNewlinesNone(lines[1], LineBreak);
      assert ReplaceNewlines("\n", LineBreak) == ReplaceNewlines([], LineBreak) + LineBreak;
    }
  }

  function ReportRow(m: Movement): seq<string>
  {
    [m.supervisor.name, m.supervisor.designation, StatusText(m), DetailsCell(m)]
  }

  /** The table of the report: the header, then one row per movement in order. */
  method ReportTable(movements: seq<Movement>) returns (data: seq<seq<string>>)
    ensures |data| == |movements| + 1
    ensures data[0] == Header
    ensures forall i :: 0 <= i < |movements| ==> data[i + 1] == ReportRow(movements[i])
  {
    data := [Header];
    for i := 0 to |movements|
      invariant |data| == i + 1
      invariant data[0] == Header
      invariant forall k :: 0 <= k < i ==> data[k + 1] == ReportRow(movements[k])
    {
      data := data + [ReportRow(movements[i])];
    }
  }

  /** Each row's status cell says 'On Leave' exactly for a leave. */
  lemma ReportRowStatus(m: Movement)
    ensures ReportRow(m)[2] == "On Leave" <==> m.onLeave
  {
  }

  /** Replacing newlines keeps a newline-free prefix in front. */
  lemma KeepsPrefix(pre: string, rest: string)
    requires '\n' !in pre
    ensures StartsWith(ReplaceNewlines(pre + rest, LineBreak), pre)
  {
    ReplaceNewlinesConcat(pre, rest, LineBreak);
    ReplaceNewlinesNone(pre, LineBreak);
  }

  /** A leave without both dates reads 'Duration: N/A' first. */
  lemma UndatedLeaveCell(m: Movement)
    requires m.onLeave && (m.leaveFrom.None? || m.leaveTo.None?)
    ensures StartsWith(DetailsCell(m), "Duration: N/A")
  {
    var rest := if m.lookAfter.Some? then "\nLooked After By: " + m.lookAfter.value.name else "";
    assert Details(m) == "Duration: N/A" + rest;
    KeepsPrefix("Duration: N/A", rest);
  }

  /** A duty reads 'Location: ' first. */
  lemma DutyCell(m: Movement)
    requires !m.onLeave
    ensures StartsWith(DetailsCell(m), "Location: ")
  {
    var rest := m.location + (if m.purpose != "" then "\nPurpose: " + m.purpose else "");
    assert Details(m) == "Location: " + rest;
    KeepsPrefix("Location: ", rest);
  }

  /** `Movement_Report_{%Y-%m-%d}.pdf`. */
  function ReportFileName(d: Date): string
  {
    "Movement_Report_" + IsoDate(d) + ".pdf"
  }

  /** The file name carries the ISO date between a fixed prefix and suffix. */
  lemma ReportFileNameDate(d: Date)
    requires SaneDate(d)
    ensures var f := ReportFileName(d);
            |f| == 30 && f[..16] == "Movement_Report_" && f[26..] == ".pdf" && f[16..26] == IsoDate(d)
  {
    IsoDateReadsBack(d);
  }

  function Caption(d: Date): string
  {
    "Supervisor Movement Report for " + LongDate(d)
  }

  // ----- The by-date listing -----

  /** `{m.supervisor.id: m for m in movements}`: a later movement wins. */
  function MovementMap(ms: seq<Movement>): map<int, Movement>
    decreases |ms|
  {
    if ms == [] then map[] else MovementMap(ms[..|ms| - 1])[ms[|ms| - 1].supervisor.id := ms[|ms| - 1]]
  }

  /** A supervisor is in the map exactly when one of the movements is theirs,
      and maps to the last of them. */
  lemma MovementMapLast(ms: seq<Movement>, id: int)
    ensures id in MovementMap(ms) <==> exists i :: 0 <= i < |ms| && ms[i].supervisor.id == id
    ensures id in MovementMap(ms) ==>
              (exists i :: 0 <= i < |ms| && MovementMap(ms)[id] == ms[i]
                 && ms[i].supervisor.id == id && forall j :: i < j < |ms| ==> ms[j].supervisor.id != id)
  {
    MovementMapHas(ms, id);
    if id in MovementMap(ms) {
      MovementMapLatest(ms, id);
    }
  }

  lemma {:induction false} MovementMapHas(ms: seq<Movement>, id: int)
    ensures id in MovementMap(ms) <==> exists i :: 0 <= i < |ms| && ms[i].supervisor.id == id
    decreases |ms|
  {
    if ms != [] {
      var p := ms[..|ms| - 1];
      MovementMapHas(p, id);
      if ms[|ms| - 1].supervisor.id != id {
        if id in MovementMap(p) {
          var i :| 0 <= i < |p| && p[i].supervisor.id == id;
          assert ms[i] == p[i];
        }
        if exists i :: 0 <= i < |ms| && ms[i].supervisor.id == id {
          var i :| 0 <= i < |ms| && ms[i].supervisor.id == id;
          assert p[i] == ms[i];
        }
      }
    }
  }

  lemma {:induction false} MovementMapLatest(ms: seq<Movement>, id: int)
    requires id in MovementMap(ms)
    ensures exists i :: 0 <= i < |ms| && MovementMap(ms)[id] == ms[i]
              && ms[i].supervisor.id == id && forall j :: i < j < |ms| ==> ms[j].supervisor.id != id
    decreases |ms|
  {
    var p := ms[..|ms| - 1];
    var last := |ms| - 1;
    if ms[last].supervisor.id == id {
      assert MovementMap(ms)[id] == ms[last];
    } else {
      assert id in MovementMap(p);
      MovementMapLatest(p, id);
      var i :| 0 <= i < |p| && MovementMap(p)[id] == p[i] && p[i].supervisor.id == id
               && forall j :: i < j < |p| ==> p[j].supervisor.id != id;
      assert ms[i] == p[i];
      assert forall j :: i < j < |ms| ==> ms[j].supervisor.id != id;
    }
  }


  datatype Listed = Listed(supervisor: Person, movement: Option<Movement>)

  /** `for s in supervisors: s.movement = movement_map.get(s.id)`. */
  method AttachMovements(supervisors: seq<Person>, ms: seq<Movement>) returns (r: seq<Listed>)
    ensures |r| == |supervisors|
    ensures forall i :: 0 <= i < |r| ==> r[i].supervisor == supervisors[i]
    ensures forall i :: 0 <= i < |r| ==>
              r[i].movement == (if supervisors[i].id in MovementMap(ms) then Some(MovementMap(ms)[supervisors[i].id]) else None)
  {
    var movementMap := MovementMap(ms);
    r := [];
    for i := 0 to |supervisors|
      invariant |r| == i
      invariant forall k :: 0 <= k < i ==> r[k].supervisor == supervisors[k]
      invariant forall k :: 0 <= k < i ==>
                  r[k].movement == (if supervisors[k].id in movementMap then Some(movementMap[supervisors[k].id]) else None)
    {
      var s := supervisors[i];
      var m := if s.id in movementMap then Some(movementMap[s.id]) else None;
      r := r + [Listed(s, m)];
    }
  }

  /** At most one movement per supervisor and day (`unique_together`). */
  predicate OnePerSupervisor(ms: seq<Movement>)
  {
    forall i, j :: 0 <= i < j < |ms| ==> ms[i].supervisor.id != ms[j].supervisor.id
  }

  /** With one movement per supervisor, a supervisor is listed with a
      movement exactly when it is that supervisor's. */
  lemma PairedMovement(ms: seq<Movement>, s: Person, m: Movement)
    requires OnePerSupervisor(ms)
    ensures (s.id in MovementMap(ms) && MovementMap(ms)[s.id] == m) <==> (m in ms && m.supervisor.id == s.id)
  {
    MovementMapLast(ms, s.id);
    if m in ms && m.supervisor.id == s.id {
      var k :| 0 <= k < |ms| && ms[k] == m;
      var i :| 0 <= i < |ms| && MovementMap(ms)[s.id] == ms[i] && ms[i].supervisor.id == s.id
               && forall j :: i < j < |ms| ==> ms[j].supervisor.id != s.id;
      assert i == k;
    }
  }

  function MovementsOn(all: seq<Movement>, d: Date): seq<Movement>
  {
    Where(all, (m: Movement) => m.date == d)
  }

  datatype ByDateReply = ByDateError(status: nat, error: string) | Listing(rows: seq<Listed>)

  /** `SupervisorMovementByDateView.get`: the supervisors, already in name
      order, each with its movement of the requested day. */
  method ByDate(supervisors: seq<Person>, all: seq<Movement>, arg: Option<string>, parse: string -> Option<Date>)
    returns (reply: ByDateReply)
    ensures CheckDate(arg, ByDateMissing, parse).DateError? <==> reply.ByDateError?
    ensures reply.ByDateError? ==> reply.status == 400 && reply.error == CheckDate(arg, ByDateMissing, parse).error
    ensures reply.Listing? ==> |reply.rows| == |supervisors| && forall i :: 0 <= i < |reply.rows| ==>
              var day := MovementsOn(all, CheckDate(arg, ByDateMissing, parse).date);
              reply.rows[i].supervisor == supervisors[i]
              && reply.rows[i].movement == (if supervisors[i].id in MovementMap(day) then Some(MovementMap(day)[supervisors[i].id]) else None)
  {
    var check := CheckDate(arg, ByDateMissing, parse);
    if check.DateError? {
      return ByDateError(check.status, check.error);
    }
    var rows := AttachMovements(supervisors, MovementsOn(all, check.date));
    return Listing(rows);
  }

  // ----- Sending the report -----

  /** What the two Telegram sends come to. */
  datatype Delivery = Delivered | GroupMissing | SendFailed(reason: string)

  datatype SendReply = SendReply(status: nat, body: string)

  datatype ReportPlan = ReportPlan(fileName: string, caption: string, table: seq<seq<string>>)

  /** `SendMovementReportView.post`: the report of the day's movements and
      the reply the delivery outcome gives. */
  method SendReport(all: seq<Movement>, arg: Option<string>, parse: string -> Option<Date>, delivery: Delivery)
    returns (plan: Option<ReportPlan>, reply: SendReply)
    ensures plan.None? <==> CheckDate(arg, SendMissing, parse).DateError?
    ensures plan.None? ==> reply == SendReply(400, CheckDate(arg, SendMissing, parse).error)
    ensures plan.Some? ==> var d := CheckDate(arg, SendMissing, parse).date;
              plan.value.fileName == ReportFileName(d) && plan.value.caption == Caption(d)
              && |plan.value.table| == |MovementsOn(all, d)| + 1
              && forall i :: 0 <= i < |MovementsOn(all, d)| ==> plan.value.table[i + 1] == ReportRow(MovementsOn(all, d)[i])
    ensures plan.Some? ==> reply == DeliveryReply(delivery)
  {
    var check := CheckDate(arg, SendMissing, parse);
    if check.DateError? {
      return None, SendReply(check.status, check.error);
    }
    var table := ReportTable(MovementsOn(all, check.date));
    plan := Some(ReportPlan(ReportFileName(check.date), Caption(check.date), table));
    reply := DeliveryReply(delivery);
  }

  function DeliveryReply(delivery: Delivery): (r: SendReply)
    ensures r.status == 200 <==> delivery.Delivered?
    ensures !delivery.Delivered? ==> r.status == 500
  {
    match delivery
    case Delivered => SendReply(200, "Report PDF sent successfully")
    case GroupMissing => SendReply(500, "A required Telegram group (alert or reports) is not configured.")
    case SendFailed(e) => SendReply(500, "Failed to send Telegram document: " + e)
  }
}
