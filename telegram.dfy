/** The Telegram settings and groups endpoints
    (`telegram_notifications/views.py`): the bot-settings singleton, the
    seeding of the three default groups before a listing, and the guard of
    the test message.

    Both tables are sequences in primary-key order. Sending a message is not
    modelled: its outcome is a parameter. */
module Telegram {
  import opened Common
  import Sorting
  import Orm

  datatype SettingsRow = SettingsRow(pk: nat, botToken: string)

  datatype Group = Group(pk: nat, key: string, name: string, chatId: string, link: string)

  /** The groups `list` makes sure of, with the names they get when created. */
  const ExpectedGroups: seq<(string, string)> :=
    [("alerts", "Alerts (Failures & Notifications)"),
     ("reports", "Reports (Scheduled)"),
     ("operations", "Operations (Movements)")]

  predicate HasKey(gs: seq<Group>, key: string)
  {
    exists i :: 0 <= i < |gs| && gs[i].key == key
  }

  /** `get_or_create(key=key, defaults={'name': name})` on the groups table:
      the table and the next primary key afterwards. */
  function GetOrCreateGroup(gs: seq<Group>, nextPk: nat, key: string, name: string): (r: (seq<Group>, nat))
    ensures HasKey(gs, key) ==> r == (gs, nextPk)
    ensures !HasKey(gs, key) ==> r == (gs + [Group(nextPk, key, name, "", "")], nextPk + 1)
  {
    if HasKey(gs, key) then (gs, nextPk) else (gs + [Group(nextPk, key, name, "", "")], nextPk + 1)
  }

  /** The loop over the expected groups. */
  function Seed(gs: seq<Group>, nextPk: nat, defs: seq<(string, string)>): (seq<Group>, nat)
    decreases |defs|
  {
    if defs == [] then (gs, nextPk)
    else
      var r := GetOrCreateGroup(gs, nextPk, defs[0].0, defs[0].1);
      Seed(r.0, r.1, defs[1..])
  }

  /** Keys are unique and primary keys are unique and below the next one. */
  predicate GroupsValid(gs: seq<Group>, nextPk: nat)
  {
    && (forall i, j :: 0 <= i < j < |gs| ==> gs[i].key != gs[j].key)
    && (forall i :: 0 <= i < |gs| ==> gs[i].pk < nextPk)
    && (forall i, j :: 0 <= i < j < |gs| ==> gs[i].pk != gs[j].pk)
  }

  /** One get-or-create keeps the table valid and only ever appends the
      defaults of a missing key; afterwards the key is present. */
  lemma GetOrCreateFacts(gs: seq<Group>, nextPk: nat, key: string, name: string)
    requires GroupsValid(gs, nextPk)
    ensures var r := GetOrCreateGroup(gs, nextPk, key, name);
            GroupsValid(r.0, r.1) && r.1 >= nextPk && HasKey(r.0, key)
            && |gs| <= |r.0| <= |gs| + 1 && r.0[..|gs|] == gs
            && (|r.0| == |gs| + 1 ==> r.0[|gs|] == Group(nextPk, key, name, "", ""))
  {
    if !HasKey(gs, key) {
      var g := gs + [Group(nextPk, key, name, "", "")];
      assert g[|gs|].key == key;
      forall i, j | 0 <= i < j < |g|
        ensures g[i].key != g[j].key && g[i].pk != g[j].pk
      {
        if j == |gs| {
          assert g[i] == gs[i];
        } else {
          assert g[i] == gs[i] && g[j] == gs[j];
        }
      }
      assert g[..|gs|] == gs;
    }
  }

  /** Seeding only appends and keeps the table valid. */
  lemma {:induction false} SeedAppends(gs: seq<Group>, nextPk: nat, defs: seq<(string, string)>)
    requires GroupsValid(gs, nextPk)
    ensures var r := Seed(gs, nextPk, defs);
            GroupsValid(r.0, r.1) && |gs| <= |r.0| && r.0[..|gs|] == gs
    decreases |defs|
  {
    if defs != [] {
      var step := GetOrCreateGroup(gs, nextPk, defs[0].0, defs[0].1);
      GetOrCreateFacts(gs, nextPk, defs[0].0, defs[0].1);
      SeedAppends(step.0, step.1, defs[1..]);
      var r := Seed(step.0, step.1, defs[1..]);
      assert r.0[..|gs|] == r.0[..|step.0|][..|gs|];
    }
  }

  /** Afterwards every key of the definitions is present. */
  lemma {:induction false} SeedHasKeys(gs: seq<Group>, nextPk: nat, defs: seq<(string, string)>)
    requires GroupsValid(gs, nextPk)
    ensures forall k :: 0 <= k < |defs| ==> HasKey(Seed(gs, nextPk, defs).0, defs[k].0)
    decreases |defs|
  {
    if defs != [] {
      var step := GetOrCreateGroup(gs, nextPk, defs[0].0, defs[0].1);
      GetOrCreateFacts(gs, nextPk, defs[0].0, defs[0].1);
      SeedHasKeys(step.0, step.1, defs[1..]);
      SeedAppends(step.0, step.1, defs[1..]);
      var r := Seed(step.0, step.1, defs[1..]);
      forall k | 0 <= k < |defs|
        ensures HasKey(r.0, defs[k].0)
      {
        if k == 0 {
          var i :| 0 <= i < |step.0| && step.0[i].key == defs[0].0;
          assert r.0[..|step.0|][i] == r.0[i];
        } else {
          assert defs[k] == defs[1..][k - 1];
        }
      }
    }
  }

  /** Every group seeding adds carries the key and default name of one of the
      definitions, with no chat id and no link. */
  lemma {:induction false} SeedAddsDefaults(gs: seq<Group>, nextPk: nat, defs: seq<(string, string)>)
    requires GroupsValid(gs, nextPk)
    ensures var r := Seed(gs, nextPk, defs);
            forall i :: |gs| <= i < |r.0| ==>
              exists k :: 0 <= k < |defs| && r.0[i] == Group(r.0[i].pk, defs[k].0, defs[k].1, "", "")
    decreases |defs|
  {
    if defs != [] {
      var step := GetOrCreateGroup(gs, nextPk, defs[0].0, defs[0].1);
      GetOrCreateFacts(gs, nextPk, defs[0].0, defs[0].1);
      SeedAddsDefaults(step.0, step.1, defs[1..]);
      SeedAppends(step.0, step.1, defs[1..]);
      var r := Seed(step.0, step.1, defs[1..]);
      forall i | |gs| <= i < |r.0|
        ensures exists k :: 0 <= k < |defs| && r.0[i] == Group(r.0[i].pk, defs[k].0, defs[k].1, "", "")
      {
        if i < |step.0| {
          assert r.0[..|step.0|][i] == r.0[i];
          assert r.0[i] == Group(r.0[i].pk, defs[0].0, defs[0].1, "", "");
        } else {
          var k :| 0 <= k < |defs[1..]| && r.0[i] == Group(r.0[i].pk, defs[1..][k].0, defs[1..][k].1, "", "");
          assert defs[1..][k] == defs[k + 1];
        }
      }
    }
  }

  /** Seeding a table that already has every key changes nothing. */
  lemma {:induction false} SeedNoop(gs: seq<Group>, nextPk: nat, defs: seq<(string, string)>)
    requires forall k :: 0 <= k < |defs| ==> HasKey(gs, defs[k].0)
    ensures Seed(gs, nextPk, defs) == (gs, nextPk)
    decreases |defs|
  {
    if defs != [] {
      assert HasKey(gs, defs[0].0);
      forall k | 0 <= k < |defs[1..]|
        ensures HasKey(gs, defs[1..][k].0)
      {
        assert defs[1..][k] == defs[k + 1];
      }
      SeedNoop(gs, nextPk, defs[1..]);
    }
  }

  /** Listing twice is listing once: the second seeding creates nothing. */
  lemma SeedIdempotent(gs: seq<Group>, nextPk: nat)
    requires GroupsValid(gs, nextPk)
    ensures var r := Seed(gs, nextPk, ExpectedGroups);
            Seed(r.0, r.1, ExpectedGroups) == r
  {
    SeedHasKeys(gs, nextPk, ExpectedGroups);
    var r := Seed(gs, nextPk, ExpectedGroups);
    SeedNoop(r.0, r.1, ExpectedGroups);
  }

  /** A response: its status and its one-key JSON body. */
  datatype Reply = Reply(status: nat, key: string, body: string)

  /** The answer for a primary key no group has.  `get_object` raises
      `Http404`, which the view's `except TelegramGroup.DoesNotExist` does not
      catch, so as written the framework answers with its own 404 body, whose
      'detail' text `notFound` depends on its version.  The handler's evident
      purpose is its 'error' body. */
  function UnknownGroupReply(mode: Orm.Mode, notFound: string): (r: Reply)
    ensures r.status == 404
    ensures mode == Orm.AsWritten ==> r.key == "detail" && r.body == notFound
    ensures mode == Orm.Intended ==> r.key == "error" && r.body == "Group not found."
  {
    if mode == Orm.AsWritten then Reply(404, "detail", notFound) else Reply(404, "error", "Group not found.")
  }

  /** As written, the view's own 'Group not found.' answer is never given:
      the body of the 404 has no 'error' key. */
  lemma NotFoundHandlerUnreached(notFound: string)
    ensures UnknownGroupReply(Orm.AsWritten, notFound).key != "error"
    ensures UnknownGroupReply(Orm.AsWritten, notFound) != UnknownGroupReply(Orm.Intended, notFound)
  {
  }

  /** As intended, an unknown group gets the view's 'error' answer, and the
      two answers agree on the status. */
  lemma NotFoundHandlerIntended(notFound: string)
    ensures UnknownGroupReply(Orm.Intended, notFound) == Reply(404, "error", "Group not found.")
    ensures UnknownGroupReply(Orm.Intended, notFound).status == UnknownGroupReply(Orm.AsWritten, notFound).status
  {
  }

  /** What the bot call came to. */
  datatype SendOutcome = Sent | SendError(reason: string)

  function TestText(g: Group): string
  {
    "This is a test message from RFMS for the group: <b>" + g.name + "</b>"
  }

  class TelegramStore {
    var settings: seq<SettingsRow>
    var groups: seq<Group>
    var nextPk: nat

    ghost predicate Valid()
      reads this
    {
      GroupsValid(groups, nextPk)
    }

    constructor ()
      ensures settings == [] && groups == [] && nextPk == 1
      ensures Valid()
    {
      settings := [];
      groups := [];
      nextPk := 1;
    }

    /** `TelegramSettingsViewSet.get_queryset`: creates the pk=1 row when the
        table is empty. */
    method SettingsQueryset() returns (rows: seq<SettingsRow>)
      modifies this
      ensures old(settings) == [] ==> settings == [SettingsRow(1, "")]
      ensures old(settings) != [] ==> settings == old(settings)
      ensures groups == old(groups) && nextPk == old(nextPk)
      ensures rows == settings && rows != []
    {
      if settings == [] {
        settings := [SettingsRow(1, "")];
      }
      rows := settings;
    }

    /** `list` and `retrieve`: the first settings row. */
    method ListSettings() returns (row: SettingsRow)
      modifies this
      ensures settings == (if old(settings) == [] then [SettingsRow(1, "")] else old(settings))
      ensures row == settings[0]
      ensures old(settings) == [] ==> row == SettingsRow(1, "")
      ensures groups == old(groups) && nextPk == old(nextPk)
    {
      var rows := SettingsQueryset();
      row := rows[0];
    }

    /** `TelegramGroupViewSet.list`: the expected groups are created when
        missing, then every group is listed in name order. `collation` ranks
        names as the database orders them. */
    method ListGroups(collation: string -> int) returns (listed: seq<Group>)
      requires Valid()
      modifies this
      ensures (groups, nextPk) == Seed(old(groups), old(nextPk), ExpectedGroups)
      ensures Valid()
      ensures forall k :: 0 <= k < |ExpectedGroups| ==> HasKey(groups, ExpectedGroups[k].0)
      ensures |old(groups)| <= |groups| && groups[..|old(groups)|] == old(groups)
      ensures listed == Sorting.SortBy(groups, (g: Group) => collation(g.name))
      ensures Sorting.SortedBy(listed, (g: Group) => collation(g.name))
      ensures |listed| == |groups| && forall g :: g in listed <==> g in groups
      ensures settings == old(settings)
    {
      SeedAppends(groups, nextPk, ExpectedGroups);
      SeedHasKeys(groups, nextPk, ExpectedGroups);
      ghost var g0 := groups;
      ghost var n0 := nextPk;
      for i := 0 to |ExpectedGroups|
        invariant Seed(groups, nextPk, ExpectedGroups[i..]) == Seed(g0, n0, ExpectedGroups)
        invariant settings == old(settings)
      {
        assert ExpectedGroups[i..][1..] == ExpectedGroups[i + 1..];
        var r := GetOrCreateGroup(groups, nextPk, ExpectedGroups[i].0, ExpectedGroups[i].1);
        groups, nextPk := r.0, r.1;
      }
      listed := Sorting.SortBy(groups, (g: Group) => collation(g.name));
      Sorting.SortByElements(groups, (g: Group) => collation(g.name));
    }

    /** `send_test_message`: the framework's 404 for an unknown group, 400
        without a chat id (and nothing is sent), otherwise the send outcome's reply. */
    method SendTestMessage(pk: nat, outcome: SendOutcome, notFound: string) returns (reply: Reply, sent: Option<(string, string)>)
      requires Valid()
      ensures (forall i :: 0 <= i < |groups| ==> groups[i].pk != pk) ==>
                reply == Reply(404, "detail", notFound) && sent.None?
      ensures forall i :: 0 <= i < |groups| && groups[i].pk == pk ==>
                (groups[i].chatId == "" ==> reply == Reply(400, "error", "This group has no Chat ID configured.") && sent.None?)
                && (groups[i].chatId != "" ==>
                      sent == Some((groups[i].chatId, TestText(groups[i]))) && reply == TestReply(groups[i], outcome))
    {
      var found := FindGroup(groups, pk);
      if found.None? {
        return UnknownGroupReply(Orm.AsWritten, notFound), None;
      }
      var g := groups[found.value];
      assert forall i :: 0 <= i < |groups| && groups[i].pk == pk ==> groups[i] == g;
      if g.chatId == "" {
        return Reply(400, "error", "This group has no Chat ID configured."), None;
      }
      sent := Some((g.chatId, TestText(g)));
      reply := TestReply(g, outcome);
    }
  }

  /** The position of the group with this primary key (`get_object`). */
  function FindGroup(gs: seq<Group>, pk: nat): (r: Option<nat>)
    ensures r.None? <==> forall i :: 0 <= i < |gs| ==> gs[i].pk != pk
    ensures r.Some? ==> r.value < |gs| && gs[r.value].pk == pk && forall j :: 0 <= j < r.value ==> gs[j].pk != pk
    decreases |gs|
  {
    if gs == [] then None
    else if gs[0].pk == pk then Some(0)
    else
      var r := FindGroup(gs[1..], pk);
      if r.None? then None else Some(r.value + 1)
  }

  function TestReply(g: Group, outcome: SendOutcome): (r: Reply)
    ensures r.status == 200 <==> outcome.Sent?
    ensures r.key == "message" <==> outcome.Sent?
  {
    match outcome
    case Sent => Reply(200, "message", "Test message sent to '" + g.name + "' successfully.")
    case SendError(e) => Reply(500, "error", "Failed to send message: " + e)
  }
}
