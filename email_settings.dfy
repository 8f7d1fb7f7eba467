/** The email-settings endpoint (`email_notifications/views.py`) and its
    serializer (`email_notifications/serializers.py`): the pk=1 singleton, the
    rule that a blank password in an update leaves the stored one alone, the
    recipients normalisation, the From header and transport flags of the test
    email, and the actions the endpoint refuses.

    Request bodies are decoded JSON values. Django's EmailValidator is a
    parameter, `isEmail`. SMTP delivery is not modelled: the
    outcome of `send_mail` is a parameter, and the mail it was asked to send
    is returned. */
module EmailSettings {
  import opened Common
  import Notifications

  /** A decoded JSON value (numbers restricted to integers). */
  datatype Json =
    | JNull
    | JBool(b: bool)
    | JNum(n: int)
    | JStr(s: string)
    | JList(items: seq<Json>)
    | JDict(entries: map<string, Json>)

  /** Python's truth test on a decoded JSON value. */
  predicate Falsy(j: Json)
  {
    match j
    case JNull => true
    case JBool(b) => !b
    case JNum(n) => n == 0
    case JStr(s) => s == ""
    case JList(xs) => xs == []
    case JDict(m) => m == map[]
  }

  // ---------------------------------------------------------------------
  // validate_recipients

  const RecipientsNotObject := "Recipients must be an object."

  /** The normalised recipients object: every key of the input, plus 'to',
      'cc' and 'bcc' as empty lists where they were missing. */
  function Completed(d: map<string, Json>): map<string, Json>
  {
    map k | k in d.Keys + {"to", "cc", "bcc"} :: if k in d then d[k] else JList([])
  }

  /** The outcome of a field validator: the cleaned value or an error. */
  datatype Checked<T> = Accepted(value: T) | Rejected(message: string)

  /** `validate_recipients`: anything but an object is rejected; an object
      gets the missing keys added in place. */
  method ValidateRecipients(value: Json) returns (r: Checked<Json>)
    ensures !value.JDict? ==> r == Rejected(RecipientsNotObject)
    ensures value.JDict? ==> r == Accepted(JDict(Completed(value.entries)))
  {
    if !value.JDict? {
      return Rejected(RecipientsNotObject);
    }
    var d := value.entries;
    if "to" !in d {
      d := d["to" := JList([])];
    }
    if "cc" !in d {
      d := d["cc" := JList([])];
    }
    if "bcc" !in d {
      d := d["bcc" := JList([])];
    }
    assert d == Completed(value.entries);
    return Accepted(JDict(d));
  }

  /** The normalised object always has the three keys, keeps every key and
      value it was given, and gives a missing key the empty list. */
  lemma CompletedKeys(d: map<string, Json>)
    ensures Completed(d).Keys == d.Keys + {"to", "cc", "bcc"}
    ensures forall k :: k in d ==> Completed(d)[k] == d[k]
    ensures forall k :: k in {"to", "cc", "bcc"} && k !in d ==> Completed(d)[k] == JList([])
  {
  }

  /** Validating its own output gives the same object back. */
  lemma CompletedIdempotent(d: map<string, Json>)
    ensures Completed(Completed(d)) == Completed(d)
  {
    CompletedKeys(d);
    CompletedKeys(Completed(d));
  }

  // ---------------------------------------------------------------------
  // The settings row and the serializer

  datatype Settings = Settings(
    host: string, port: nat, encryption: string, username: string, password: string,
    fromName: string, fromAddress: string, recipients: map<string, Json>)

  /** The row `get_or_create(pk=1)` creates from the field defaults. */
  const DefaultSettings := Settings("", 587, Notifications.EncryptionStartTls, "", "",
                                    "RFMS Notifications", "", map[])

  /** The serializer's output: every listed field but the write-only
      password. */
  function Representation(s: Settings): (r: map<string, Json>)
    ensures "password" !in r
    ensures r.Keys == {"id", "host", "port", "encryption", "username", "from_name", "from_address", "recipients"}
    ensures r["id"] == JNum(1) && r["recipients"] == JDict(s.recipients)
  {
    map["id" := JNum(1), "host" := JStr(s.host), "port" := JNum(s.port),
        "encryption" := JStr(s.encryption), "username" := JStr(s.username),
        "from_name" := JStr(s.fromName), "from_address" := JStr(s.fromAddress),
        "recipients" := JDict(s.recipients)]
  }

  /** The writable fields, as sent in a request. */
  datatype Field = Host | Port | Encryption | Username | Password | FromName | FromAddress | Recipients

  function FieldName(f: Field): string
  {
    match f
    case Host => "host"
    case Port => "port"
    case Encryption => "encryption"
    case Username => "username"
    case Password => "password"
    case FromName => "from_name"
    case FromAddress => "from_address"
    case Recipients => "recipients"
  }

  // DRF's cleaning of each field, as `ModelSerializer` builds it from the
  // model's columns: every text column allows blanks, so none is required.

  /** The `max_length` of each text column; Django's EmailField defaults
      to 254. */
  const HostMaxLength := 255
  const UsernameMaxLength := 255
  const PasswordMaxLength := 255
  const FromNameMaxLength := 100
  const FromAddressMaxLength := 254

  /** The largest value a PositiveIntegerField holds on SQLite, the default
      database engine. */
  const PortMax := 9223372036854775807

  /** DRF's CharField: a string, or a number taken as its text, trimmed of
      surrounding whitespace (text that is all whitespace becomes ""), then
      refused when it is longer than the column or holds a NUL character.
      A boolean, null, a list or an object is refused. */
  function TextField(j: Json, maxLength: nat): (r: Option<string>)
    ensures r.Some? ==> Stripped(r.value) && |r.value| <= maxLength && '\0' !in r.value
    ensures j.JStr? ==> (r.Some? <==> |Strip(j.s)| <= maxLength && '\0' !in Strip(j.s))
    ensures j.JStr? && r.Some? ==> r.value == Strip(j.s)
    ensures j.JNull? || j.JBool? || j.JList? || j.JDict? ==> r.None?
  {
    var raw := if j.JStr? then Some(j.s) else if j.JNum? then Some(IntToString(j.n)) else None;
    if raw.None? then None
    else
      var v := Strip(raw.value);
      if |v| <= maxLength && '\0' !in v then Some(v) else None
  }

  function HostField(j: Json): Option<string> { TextField(j, HostMaxLength) }

  function UsernameField(j: Json): Option<string> { TextField(j, UsernameMaxLength) }

  function PasswordField(j: Json): Option<string> { TextField(j, PasswordMaxLength) }

  function FromNameField(j: Json): Option<string> { TextField(j, FromNameMaxLength) }

  /** DRF's EmailField: a text field whose non-empty value must pass
      Django's EmailValidator, given here as `isEmail`. */
  function AddressField(j: Json, isEmail: string -> bool): (r: Option<string>)
    ensures r.Some? ==> r.value == "" || isEmail(r.value)
    ensures r.Some? <==> TextField(j, FromAddressMaxLength).Some? &&
                         (TextField(j, FromAddressMaxLength).value == "" || isEmail(TextField(j, FromAddressMaxLength).value))
    ensures r.Some? ==> r == TextField(j, FromAddressMaxLength)
  {
    var t := TextField(j, FromAddressMaxLength);
    if t.Some? && (t.value == "" || isEmail(t.value)) then t else None
  }

  /** The prefix left after dropping the trailing characters `drop` accepts. */
  function DropTrailing(s: string, drop: char -> bool): (r: string)
    ensures |r| <= |s| && r == s[..|r|]
    ensures r == [] || !drop(r[|r| - 1])
    decreases |s|
  {
    if s != [] && drop(s[|s| - 1]) then DropTrailing(s[..|s| - 1], drop) else s
  }

  predicate IsZero(c: char)
  {
    c == '0'
  }

  /** `re.sub(r'\.0*\s*$', '', text)`: a '.' followed by nothing but zeros
      and whitespace is cut off, so "587.0" reads as 587. */
  function DropZeroFraction(s: string): string
  {
    var z := DropTrailing(DropTrailing(s, IsSpace), IsZero);
    if z != [] && z[|z| - 1] == '.' then z[..|z| - 1] else s
  }

  predicate AllDigits(s: string)
  {
    forall i :: 0 <= i < |s| ==> '0' <= s[i] <= '9'
  }

  /** Python's `int(text)`: surrounding whitespace, an optional sign, and
      at least one decimal digit. */
  function PyInt(s: string): (r: Option<int>)
  {
    var t := Strip(s);
    if t == [] then None
    else
      var digits := if t[0] == '-' || t[0] == '+' then t[1..] else t;
      if digits != [] && AllDigits(digits) then
        var v: int := DigitsValue(digits);
        Some(if t[0] == '-' then -v else v)
      else None
  }

  /** DRF's IntegerField with the column's bounds: a number, or text of at
      most 1000 characters that `int` reads once a zero fraction is cut off,
      between 0 and PortMax. */
  function PortField(j: Json): (r: Option<nat>)
    ensures r.Some? ==> r.value <= PortMax
    ensures j.JNum? ==> (r.Some? <==> 0 <= j.n <= PortMax) && (r.Some? ==> r.value == j.n)
    ensures j.JNull? || j.JBool? || j.JList? || j.JDict? ==> r.None?
  {
    var n := if j.JNum? then Some(j.n) else if j.JStr? && |j.s| <= 1000 then PyInt(DropZeroFraction(j.s)) else None;
    if n.Some? && 0 <= n.value <= PortMax then Some(n.value) else None
  }

  /** A port sent as decimal digits is read as their value, with or without
      a zero fraction. */
  lemma NumericTextPort(t: string)
    requires t != [] && AllDigits(t) && |t| <= 998 && DigitsValue(t) <= PortMax
    ensures PortField(JStr(t)) == Some(DigitsValue(t))
    ensures PortField(JStr(t + ".0")) == Some(DigitsValue(t))
  {
    DigitsNoFraction(t);
    DigitsRead(t);
    ZeroFractionDropped(t);
    assert |t + ".0"| <= 1000;
  }

  lemma DigitsStripped(s: string)
    requires AllDigits(s)
    ensures Strip(s) == s && DropTrailing(s, IsSpace) == s
  {
    if s != [] {
      assert !IsSpace(s[0]) && !IsSpace(s[|s| - 1]);
    }
  }

  lemma DigitsNoFraction(s: string)
    requires AllDigits(s)
    ensures DropZeroFraction(s) == s
  {
    DigitsStripped(s);
    var z := DropTrailing(s, IsZero);
    if z != [] {
      assert z[|z| - 1] == s[|z| - 1];
    }
  }

  lemma DigitsRead(s: string)
    requires AllDigits(s) && s != []
    ensures PyInt(s) == Some(DigitsValue(s))
  {
    DigitsStripped(s);
    assert s[0] != '-' && s[0] != '+';
  }

  lemma ZeroFractionDropped(s: string)
    requires AllDigits(s)
    ensures DropZeroFraction(s + ".0") == s
  {
    var t := s + ".0";
    assert !IsSpace(t[|t| - 1]);
    assert DropTrailing(t, IsSpace) == t;
    var u := s + ".";
    assert t[..|t| - 1] == u;
    assert DropTrailing(t, IsZero) == DropTrailing(u, IsZero);
    assert DropTrailing(u, IsZero) == u;
    assert u[..|u| - 1] == s;
  }

  /** The encryption field is a ChoiceField over the three choices. */
  function EncryptionField(j: Json): Option<string>
  {
    if j.JStr? && Notifications.IsEncryptionChoice(j.s) then Some(j.s) else None
  }

  /** The recipients field goes through `validate_recipients`. */
  function RecipientsField(j: Json): Option<map<string, Json>>
  {
    if j.JDict? then Some(Completed(j.entries)) else None
  }

  predicate Accepts(f: Field, j: Json, isEmail: string -> bool)
  {
    match f
    case Host => HostField(j).Some?
    case Port => PortField(j).Some?
    case Encryption => EncryptionField(j).Some?
    case Username => UsernameField(j).Some?
    case Password => PasswordField(j).Some?
    case FromName => FromNameField(j).Some?
    case FromAddress => AddressField(j, isEmail).Some?
    case Recipients => RecipientsField(j).Some?
  }

  /** The supplied fields whose values the serializer rejects. */
  function Invalid(data: map<string, Json>, isEmail: string -> bool): set<Field>
  {
    set f: Field | FieldName(f) in data && !Accepts(f, data[FieldName(f)], isEmail)
  }

  /** The cleaned value of a supplied field, or None when it was not sent
      (or is rejected). */
  function Pick<T>(data: map<string, Json>, f: Field, clean: Json -> Option<T>): Option<T>
  {
    if FieldName(f) in data then clean(data[FieldName(f)]) else None
  }

  /** The validated data, one optional value per writable field. */
  datatype Patch = Patch(
    host: Option<string>, port: Option<nat>, encryption: Option<string>,
    username: Option<string>, password: Option<string>, fromName: Option<string>,
    fromAddress: Option<string>, recipients: Option<map<string, Json>>)

  function PatchOf(data: map<string, Json>, isEmail: string -> bool): Patch
  {
    Patch(Pick(data, Host, HostField), Pick(data, Port, PortField), Pick(data, Encryption, EncryptionField),
          Pick(data, Username, UsernameField), Pick(data, Password, PasswordField), Pick(data, FromName, FromNameField),
          Pick(data, FromAddress, j => AddressField(j, isEmail)), Pick(data, Recipients, RecipientsField))
  }

  function OrElse<T>(o: Option<T>, d: T): T
  {
    if o.Some? then o.value else d
  }

  /** `serializer.save()` on an existing instance: only the validated fields
      are assigned. */
  function ApplyPatch(s: Settings, p: Patch): Settings
  {
    Settings(OrElse(p.host, s.host), OrElse(p.port, s.port), OrElse(p.encryption, s.encryption),
             OrElse(p.username, s.username), OrElse(p.password, s.password), OrElse(p.fromName, s.fromName),
             OrElse(p.fromAddress, s.fromAddress), OrElse(p.recipients, s.recipients))
  }

  /** The request data as `update` hands it on: a blank password is dropped. */
  function Payload(data: map<string, Json>): (r: map<string, Json>)
    ensures "password" in r <==> "password" in data && !Falsy(data["password"])
    ensures forall k :: k != "password" ==> (k in r <==> k in data)
    ensures forall k :: k in r ==> r[k] == data[k]
  {
    if "password" in data && Falsy(data["password"]) then data - {"password"} else data
  }

  /** The settings after an accepted update. */
  function Updated(s: Settings, data: map<string, Json>, isEmail: string -> bool): Settings
  {
    ApplyPatch(s, PatchOf(Payload(data), isEmail))
  }

  /** A password that is missing, empty or otherwise falsy leaves the stored
      one in place. */
  lemma BlankPasswordKeepsStored(s: Settings, data: map<string, Json>, isEmail: string -> bool)
    requires "password" !in data || Falsy(data["password"])
    ensures Updated(s, data, isEmail).password == s.password
  {
    assert "password" !in Payload(data);
  }

  /** A non-empty password text is stored trimmed of surrounding whitespace,
      and one of nothing but whitespace is truthy, survives the view's check
      and clears the stored password; one too long is rejected. */
  lemma PasswordTrimmed(s: Settings, data: map<string, Json>, p: string, isEmail: string -> bool)
    requires "password" in data && data["password"] == JStr(p) && p != ""
    ensures |Strip(p)| <= PasswordMaxLength && '\0' !in Strip(p) ==>
              Password !in Invalid(Payload(data), isEmail) && Updated(s, data, isEmail).password == Strip(p)
    ensures |Strip(p)| > PasswordMaxLength ==> Password in Invalid(Payload(data), isEmail)
  {
    assert Payload(data)["password"] == JStr(p);
  }

  /** The two passwords that differ from what was sent: " s3cret " is
      stored as "s3cret", and " " empties the stored password. */
  lemma PaddedPasswords(s: Settings, isEmail: string -> bool)
    ensures Updated(s, map["password" := JStr(" s3cret ")], isEmail).password == "s3cret"
    ensures Updated(s, map["password" := JStr(" ")], isEmail).password == ""
  {
    var padded := " s3cret ";
    assert Strip(padded) == Strip(padded[1..]);
    assert padded[1..] == "s3cret ";
    assert Strip("s3cret ") == Strip("s3cret ");
    assert "s3cret "[..6] == "s3cret";
    PasswordTrimmed(s, map["password" := JStr(padded)], padded, isEmail);
    assert Strip(" ") == Strip(" "[1..]);
    PasswordTrimmed(s, map["password" := JStr(" ")], " ", isEmail);
  }

  /** A field that is not sent keeps its stored value. */
  lemma AbsentFieldsUnchanged(s: Settings, data: map<string, Json>, isEmail: string -> bool)
    ensures var u := Updated(s, data, isEmail);
            && ("host" !in data ==> u.host == s.host)
            && ("port" !in data ==> u.port == s.port)
            && ("encryption" !in data ==> u.encryption == s.encryption)
            && ("username" !in data ==> u.username == s.username)
            && ("from_name" !in data ==> u.fromName == s.fromName)
            && ("from_address" !in data ==> u.fromAddress == s.fromAddress)
            && ("recipients" !in data ==> u.recipients == s.recipients)
  {
    PatchOfAbsent(Payload(data), isEmail);
  }

  lemma PatchOfAbsent(d: map<string, Json>, isEmail: string -> bool)
    ensures var p := PatchOf(d, isEmail);
            && ("host" !in d ==> p.host.None?)
            && ("port" !in d ==> p.port.None?)
            && ("encryption" !in d ==> p.encryption.None?)
            && ("username" !in d ==> p.username.None?)
            && ("from_name" !in d ==> p.fromName.None?)
            && ("from_address" !in d ==> p.fromAddress.None?)
            && ("recipients" !in d ==> p.recipients.None?)
  {
    if "host" !in d { PickAbsent(d, Host, HostField); }
    if "port" !in d { PickAbsent(d, Port, PortField); }
    if "encryption" !in d { PickAbsent(d, Encryption, EncryptionField); }
    if "username" !in d { PickAbsent(d, Username, UsernameField); }
    if "from_name" !in d { PickAbsent(d, FromName, FromNameField); }
    if "from_address" !in d { PickAbsent(d, FromAddress, j => AddressField(j, isEmail)); }
    if "recipients" !in d { PickAbsent(d, Recipients, RecipientsField); }
  }

  lemma PickAbsent<T>(d: map<string, Json>, f: Field, clean: Json -> Option<T>)
    requires FieldName(f) !in d
    ensures Pick(d, f, clean) == None
  {
  }

  /** A sent host is stored trimmed, or rejected when longer than its
      column; recipients are stored normalised. */
  lemma SuppliedFieldsWritten(s: Settings, data: map<string, Json>, isEmail: string -> bool,
                              host: string, rec: map<string, Json>)
    ensures "host" in data && data["host"] == JStr(host) && |Strip(host)| <= HostMaxLength && '\0' !in Strip(host) ==>
              Updated(s, data, isEmail).host == Strip(host)
    ensures "host" in data && data["host"] == JStr(host) && |Strip(host)| > HostMaxLength ==>
              Host in Invalid(Payload(data), isEmail)
    ensures "recipients" in data && data["recipients"] == JDict(rec) ==> Updated(s, data, isEmail).recipients == Completed(rec)
  {
    assert forall k :: k in Payload(data) ==> Payload(data)[k] == data[k];
  }

  /** A port is stored as the number sent, or as the number its decimal
      text reads as; a negative number is rejected. */
  lemma PortWritten(s: Settings, data: map<string, Json>, isEmail: string -> bool, n: int, t: string)
    requires "port" in data
    ensures data["port"] == JNum(n) && 0 <= n <= PortMax ==>
              Port !in Invalid(Payload(data), isEmail) && Updated(s, data, isEmail).port == n
    ensures data["port"] == JNum(n) && n < 0 ==> Port in Invalid(Payload(data), isEmail)
    ensures data["port"] == JStr(t) && t != [] && AllDigits(t) && |t| <= 998 && DigitsValue(t) <= PortMax ==>
              Port !in Invalid(Payload(data), isEmail) && Updated(s, data, isEmail).port == DigitsValue(t)
  {
    assert Payload(data)["port"] == data["port"];
    if data["port"] == JStr(t) && t != [] && AllDigits(t) && |t| <= 998 && DigitsValue(t) <= PortMax {
      NumericTextPort(t);
    }
  }

  /** A non-empty sender address that fails the format check is rejected,
      and an empty one is accepted and stored empty. */
  lemma AddressChecked(s: Settings, data: map<string, Json>, isEmail: string -> bool, a: string)
    requires "from_address" in data && data["from_address"] == JStr(a)
    ensures Strip(a) != "" && !isEmail(Strip(a)) ==> FromAddress in Invalid(Payload(data), isEmail)
    ensures Strip(a) == "" ==> FromAddress !in Invalid(Payload(data), isEmail) && Updated(s, data, isEmail).fromAddress == ""
  {
    assert Payload(data)["from_address"] == JStr(a);
  }

  /** Which fields the update rejects does not depend on a blank password,
      which is never validated. */
  lemma BlankPasswordNeverRejected(data: map<string, Json>, isEmail: string -> bool)
    requires "password" in data && Falsy(data["password"])
    ensures Password !in Invalid(Payload(data), isEmail)
  {
  }

  // ---------------------------------------------------------------------
  // test_email

  const SubjectText := "RFMS Test Email"
  const BodyText := "This is a test email from the RFMS application."
  const FallbackAddress := "rfms@example.com"
  const ToEmailMissing := "to_email field is required."

  /** `x or None` on a stored text or number. */
  function TextOrNone(x: string): (r: Option<string>)
    ensures r.None? <==> x == ""
    ensures r.Some? ==> r.value == x
  {
    if x == "" then None else Some(x)
  }

  function PortOrNone(p: nat): (r: Option<nat>)
    ensures r.None? <==> p == 0
    ensures r.Some? ==> r.value == p
  {
    if p == 0 then None else Some(p)
  }

  /** The arguments of the `get_connection` call of the test email. */
  datatype Connection = Connection(
    host: Option<string>, port: Option<nat>, username: Option<string>,
    password: Option<string>, flags: Notifications.Flags)

  function ConnectionOf(s: Settings): (c: Connection)
    ensures c.host == TextOrNone(s.host) && c.port == PortOrNone(s.port)
    ensures c.username == TextOrNone(s.username) && c.password == TextOrNone(s.password)
    ensures c.flags.useTls <==> s.encryption == Notifications.EncryptionStartTls
    ensures c.flags.useSsl <==> s.encryption == Notifications.EncryptionSslTls
  {
    Connection(TextOrNone(s.host), PortOrNone(s.port), TextOrNone(s.username), TextOrNone(s.password),
               Notifications.TransportFlags(s.encryption))
  }

  /** The sender address: the stored one, or the fallback when it is empty. */
  function SenderAddress(s: Settings): (a: string)
    ensures a != ""
    ensures s.fromAddress != "" ==> a == s.fromAddress
    ensures s.fromAddress == "" ==> a == FallbackAddress
  {
    if s.fromAddress == "" then FallbackAddress else s.fromAddress
  }

  /** The From header "{name} <{address}>", the name empty when unset. */
  function FromHeader(s: Settings): string
  {
    s.fromName + " <" + SenderAddress(s) + ">"
  }

  /** The header reads back: the name, then the non-empty address between
      angle brackets. */
  lemma FromHeaderParts(s: Settings)
    ensures var h := FromHeader(s);
            && |h| == |s.fromName| + |SenderAddress(s)| + 3
            && h[..|s.fromName|] == s.fromName
            && h[|s.fromName|..|s.fromName| + 2] == " <"
            && h[|s.fromName| + 2..|h| - 1] == SenderAddress(s)
            && h[|h| - 1] == '>'
  {
  }

  /** The message `send_mail` is asked to deliver. */
  datatype Mail = Mail(connection: Connection, fromHeader: string, subject: string, body: string, to: seq<string>)

  function TestMail(s: Settings, to: string): (m: Mail)
    ensures m.to == [to] && m.fromHeader == FromHeader(s) && m.connection == ConnectionOf(s)
    ensures m.subject == SubjectText && m.body == BodyText
  {
    Mail(ConnectionOf(s), FromHeader(s), SubjectText, BodyText, [to])
  }

  /** What `send_mail` came to. */
  datatype SendOutcome = Sent | SendError(reason: string)

  /** The endpoint's replies. `FieldErrors` lists the fields the serializer
      rejects. */
  datatype Reply =
    | Ok(data: map<string, Json>)
    | Error(status: nat, message: string)
    | FieldErrors(fields: set<Field>)

  function TestReply(to: string, outcome: SendOutcome): (r: Reply)
    ensures r.Ok? <==> outcome.Sent?
    ensures outcome.Sent? ==> r == Ok(map["message" := JStr("Test email sent to " + to + ".")])
    ensures outcome.SendError? ==> r == Error(500, "Failed to send email: " + outcome.reason)
  {
    match outcome
    case Sent => Ok(map["message" := JStr("Test email sent to " + to + ".")])
    case SendError(e) => Error(500, "Failed to send email: " + e)
  }

  // ---------------------------------------------------------------------
  // The view set over the singleton row

  class EmailSettingsStore {
    /** The row with primary key 1, when it exists (`save` forces that key,
        so there is never another). */
    var row: Option<Settings>

    constructor ()
      ensures row.None?
    {
      row := None;
    }

    /** `get_object`: the pk=1 row, created from the defaults when absent. */
    method GetObject() returns (s: Settings)
      modifies this
      ensures old(row).Some? ==> row == old(row) && s == old(row).value
      ensures old(row).None? ==> row == Some(DefaultSettings) && s == DefaultSettings
    {
      if row.None? {
        row := Some(DefaultSettings);
      }
      s := row.value;
    }

    /** `list`, and `retrieve`, which delegates to it. */
    method List() returns (reply: Reply)
      modifies this
      ensures row == Some(if old(row).Some? then old(row).value else DefaultSettings)
      ensures reply == Ok(Representation(row.value))
    {
      var s := GetObject();
      reply := Ok(Representation(s));
    }

    method Retrieve() returns (reply: Reply)
      modifies this
      ensures row == Some(if old(row).Some? then old(row).value else DefaultSettings)
      ensures reply == Ok(Representation(row.value))
    {
      reply := List();
    }

    /** `update`: the settings row is fetched (and created if need be), a
        blank password is dropped from a copy of the data, which makes the
        update partial, then the validated fields are stored and the row is
        returned without its password. */
    method Update(data: map<string, Json>, partial: bool, isEmail: string -> bool) returns (reply: Reply)
      modifies this
      ensures var obj := if old(row).Some? then old(row).value else DefaultSettings;
              if Invalid(Payload(data), isEmail) != {} then
                row == Some(obj) && reply == FieldErrors(Invalid(Payload(data), isEmail))
              else
                row == Some(Updated(obj, data, isEmail)) && reply == Ok(Representation(Updated(obj, data, isEmail)))
    {
      var instance := GetObject();
      var dataToSend, isPartial := PreparePayload(data, partial);
      var errors := Invalid(dataToSend, isEmail);
      if errors != {} {
        return FieldErrors(errors);
      }
      var saved := ApplyPatch(instance, PatchOf(dataToSend, isEmail));
      row := Some(saved);
      var out := Representation(saved);
      if "password" in out {
        out := out - {"password"};
      }
      reply := Ok(out);
    }

    /** `create` delegates to `update`, which is then not partial. */
    method Create(data: map<string, Json>, isEmail: string -> bool) returns (reply: Reply)
      modifies this
      ensures var obj := if old(row).Some? then old(row).value else DefaultSettings;
              if Invalid(Payload(data), isEmail) != {} then
                row == Some(obj) && reply == FieldErrors(Invalid(Payload(data), isEmail))
              else
                row == Some(Updated(obj, data, isEmail)) && reply == Ok(Representation(Updated(obj, data, isEmail)))
    {
      reply := Update(data, false, isEmail);
    }

    /** `destroy` refuses and leaves the row alone. */
    method Destroy() returns (reply: Reply)
      ensures reply == Error(405, "Cannot delete settings.")
    {
      reply := Error(405, "Cannot delete settings.");
    }

    /** `test_email`: without a truthy to_email the reply is 400 and the
        settings are not even read; otherwise the row is fetched and the test
        mail is handed to `send_mail`, whose outcome decides the reply. */
    method TestEmail(toEmail: Option<string>, outcome: SendOutcome) returns (reply: Reply, mail: Option<Mail>)
      modifies this
      ensures (toEmail.None? || toEmail.value == "") ==>
                reply == Error(400, ToEmailMissing) && mail.None? && row == old(row)
      ensures toEmail.Some? && toEmail.value != "" ==>
                var obj := if old(row).Some? then old(row).value else DefaultSettings;
                row == Some(obj) && mail == Some(TestMail(obj, toEmail.value))
                && reply == TestReply(toEmail.value, outcome)
    {
      if toEmail.None? || toEmail.value == "" {
        return Error(400, ToEmailMissing), None;
      }
      var s := GetObject();
      mail := Some(TestMail(s, toEmail.value));
      reply := TestReply(toEmail.value, outcome);
    }
  }

  /** The copy `update` hands to the serializer, and whether the update is
      now partial. */
  method PreparePayload(data: map<string, Json>, partial: bool) returns (toSend: map<string, Json>, isPartial: bool)
    ensures toSend == Payload(data)
    ensures isPartial <==> partial || ("password" in data && Falsy(data["password"]))
  {
    toSend := data;
    isPartial := partial;
    if "password" in toSend && Falsy(toSend["password"]) {
      toSend := toSend - {"password"};
      isPartial := true;
    }
  }
}
