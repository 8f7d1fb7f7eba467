/** The email settings store (`stores/email.js`): the SMTP settings, the
    default To/CC/BCC recipient lists and the address of a test email.

    The SMTP settings and the recipient lists are objects whose properties
    the actions replace, modelled as maps from property name to value. An
    action's patch is spread as its own properties (a plain object); other
    values contribute none. Strict equality (`===`, `includes`) is equality
    of values. */
module EmailStore {
  import opened Js

  const DefaultSmtp: map<string, JsValue> := map[
    "host" := Str(""),
    "port" := Num(587),
    "encryption" := Str("STARTTLS"),
    "username" := Str(""),
    "password" := Str(""),
    "fromName" := Str("RFMS Notifications"),
    "fromAddress" := Str("no-reply@example.com")
  ]

  const DefaultRecipients: map<string, seq<JsValue>> := map[
    "to" := [Str("ops@example.com")],
    "cc" := [],
    "bcc" := []
  ]

  /** The own properties `{ ...v }` copies. */
  function Spread(v: JsValue): (r: map<string, JsValue>)
    ensures v.Obj? ==> r == v.props
    ensures !v.Obj? ==> r == map[]
  {
    if v.Obj? then v.props else map[]
  }

  /** `{ ...base, ...patch }`: every property of either, the patch's value
      winning where both have one. */
  function Merged(base: map<string, JsValue>, patch: JsValue): (r: map<string, JsValue>)
    ensures r.Keys == base.Keys + Spread(patch).Keys
    ensures forall k :: k in Spread(patch) ==> r[k] == Spread(patch)[k]
    ensures forall k :: k in base && k !in Spread(patch) ==> r[k] == base[k]
  {
    base + Spread(patch)
  }

  /** Applying the same patch twice is applying it once. */
  lemma MergeIdempotent(base: map<string, JsValue>, patch: JsValue)
    ensures Merged(Merged(base, patch), patch) == Merged(base, patch)
  {
  }

  /** A later patch wins over an earlier one on the properties both set. */
  lemma LaterPatchWins(base: map<string, JsValue>, p: JsValue, q: JsValue, k: string)
    requires k in Spread(q)
    ensures k in Merged(Merged(base, p), q) && Merged(Merged(base, p), q)[k] == Spread(q)[k]
  {
  }

  /** No patch removes a setting: every default survives, changed or not. */
  lemma SettingsNeverLost(patch: JsValue)
    ensures DefaultSmtp.Keys <= Merged(DefaultSmtp, patch).Keys
  {
  }

  /** `list.includes(email) ? list : [...list, email]`. */
  function Added(list: seq<JsValue>, email: JsValue): (r: seq<JsValue>)
    ensures email in r
    ensures email in list ==> r == list
    ensures email !in list ==> r == list + [email]
  {
    if email in list then list else list + [email]
  }

  /** `list.filter(x => x !== email)`: the other entries, in order. */
  function Removed(list: seq<JsValue>, email: JsValue): (r: seq<JsValue>)
    ensures email !in r
    ensures forall x :: x in r <==> x in list && x != email
    ensures |r| <= |list|
    ensures email !in list ==> r == list
  {
    if list == [] then []
    else if list[|list| - 1] == email then Removed(list[..|list| - 1], email)
    else Removed(list[..|list| - 1], email) + [list[|list| - 1]]
  }

  /** No entry appears twice. */
  predicate Distinct(list: seq<JsValue>)
  {
    forall i, j :: 0 <= i < j < |list| ==> list[i] != list[j]
  }

  /** Adding keeps a list free of duplicates. */
  lemma AddKeepsDistinct(list: seq<JsValue>, email: JsValue)
    requires Distinct(list)
    ensures Distinct(Added(list, email))
  {
  }

  /** Removing keeps a list free of duplicates. */
  lemma {:induction false} RemoveKeepsDistinct(list: seq<JsValue>, email: JsValue)
    requires Distinct(list)
    ensures Distinct(Removed(list, email))
  {
    if list != [] {
      var front := list[..|list| - 1];
      assert Distinct(front);
      RemoveKeepsDistinct(front, email);
      if list[|list| - 1] != email {
        assert list[|list| - 1] !in front;
      }
    }
  }

  /** Removing an address just added leaves the list as removing it from the
      original does. */
  lemma RemoveUndoesAdd(list: seq<JsValue>, email: JsValue)
    ensures Removed(Added(list, email), email) == Removed(list, email)
  {
    if email !in list {
      var l := list + [email];
      assert l[..|l| - 1] == list;
    }
  }

  /** `addRecipient` on the whole recipients object: nothing for a falsy
      address; otherwise the list of that kind, created empty if missing,
      gains the address unless it holds it already. */
  function AddRecipientTo(recipients: map<string, seq<JsValue>>, kind: string, email: JsValue)
    : (r: map<string, seq<JsValue>>)
    ensures !Truthy(email) ==> r == recipients
    ensures Truthy(email) ==> r.Keys == recipients.Keys + {kind}
    ensures Truthy(email) ==> r[kind] == Added(if kind in recipients then recipients[kind] else [], email)
    ensures forall k :: k in recipients && k != kind ==> k in r && r[k] == recipients[k]
  {
    if !Truthy(email) then recipients
    else
      var list := if kind in recipients then recipients[kind] else [];
      recipients[kind := Added(list, email)]
  }

  /** `removeRecipient` on the whole recipients object: nothing for an
      unknown kind; otherwise that kind's list loses every copy of the
      address. */
  function RemoveRecipientFrom(recipients: map<string, seq<JsValue>>, kind: string, email: JsValue)
    : (r: map<string, seq<JsValue>>)
    ensures r.Keys == recipients.Keys
    ensures kind in recipients ==> r[kind] == Removed(recipients[kind], email)
    ensures forall k :: k in recipients && k != kind ==> r[k] == recipients[k]
  {
    if kind !in recipients then recipients
    else recipients[kind := Removed(recipients[kind], email)]
  }

  /** Adding the same address twice is adding it once. */
  lemma AddRecipientIdempotent(recipients: map<string, seq<JsValue>>, kind: string, email: JsValue)
    ensures AddRecipientTo(AddRecipientTo(recipients, kind, email), kind, email)
            == AddRecipientTo(recipients, kind, email)
  {
  }

  /** After removal the address is on no list of that kind; removing again
      changes nothing. */
  lemma RemoveRecipientIdempotent(recipients: map<string, seq<JsValue>>, kind: string, email: JsValue)
    ensures var r := RemoveRecipientFrom(recipients, kind, email);
            && (kind in r ==> email !in r[kind])
            && RemoveRecipientFrom(r, kind, email) == r
  {
  }

  /** The default lists hold no duplicates, and no action introduces one. */
  predicate AllDistinct(recipients: map<string, seq<JsValue>>)
  {
    forall k :: k in recipients ==> Distinct(recipients[k])
  }

  lemma DefaultsDistinct()
    ensures AllDistinct(DefaultRecipients)
  {
  }

  /** `addRecipient` never makes a list hold an address twice. */
  lemma AddRecipientKeepsDistinct(recipients: map<string, seq<JsValue>>, kind: string, email: JsValue)
    requires AllDistinct(recipients)
    ensures AllDistinct(AddRecipientTo(recipients, kind, email))
  {
    if Truthy(email) && kind in recipients {
      AddKeepsDistinct(recipients[kind], email);
    }
  }

  /** Neither does `removeRecipient`. */
  lemma RemoveRecipientKeepsDistinct(recipients: map<string, seq<JsValue>>, kind: string, email: JsValue)
    requires AllDistinct(recipients)
    ensures AllDistinct(RemoveRecipientFrom(recipients, kind, email))
  {
    if kind in recipients {
      RemoveKeepsDistinct(recipients[kind], email);
    }
  }

  class EmailStore {
    var smtp: map<string, JsValue>
    var recipients: map<string, seq<JsValue>>
    var testTo: JsValue

    constructor ()
      ensures smtp == DefaultSmtp && recipients == DefaultRecipients && testTo == Str("")
      ensures AllDistinct(recipients)
    {
      smtp := DefaultSmtp;
      recipients := DefaultRecipients;
      testTo := Str("");
    }

    /** `updateSMTP`. */
    method UpdateSmtp(patch: JsValue)
      modifies this
      ensures smtp == Merged(old(smtp), patch)
      ensures recipients == old(recipients) && testTo == old(testTo)
    {
      smtp := smtp + Spread(patch);
    }

    /** `addRecipient`. */
    method AddRecipient(kind: string, email: JsValue)
      modifies this
      ensures recipients == AddRecipientTo(old(recipients), kind, email)
      ensures old(AllDistinct(recipients)) ==> AllDistinct(recipients)
      ensures smtp == old(smtp) && testTo == old(testTo)
    {
      ghost var before := recipients;
      if !Truthy(email) {
        return;
      }
      if kind !in recipients {
        recipients := recipients[kind := []];
      }
      if email !in recipients[kind] {
        recipients := recipients[kind := recipients[kind] + [email]];
      }
      if AllDistinct(before) {
        AddRecipientKeepsDistinct(before, kind, email);
      }
    }

    /** `removeRecipient`. */
    method RemoveRecipient(kind: string, email: JsValue)
      modifies this
      ensures recipients == RemoveRecipientFrom(old(recipients), kind, email)
      ensures old(AllDistinct(recipients)) ==> AllDistinct(recipients)
      ensures smtp == old(smtp) && testTo == old(testTo)
    {
      if kind !in recipients {
        return;
      }
      ghost var before := recipients;
      recipients := recipients[kind := Removed(recipients[kind], email)];
      if AllDistinct(before) {
        RemoveRecipientKeepsDistinct(before, kind, email);
      }
    }
  }
}
