/** The Telegram groups store of the frontend (`stores/telegram.js`): three
    groups keyed 'alert', 'files' and 'reports', each with a display name, a
    chat id and an invite link, listed in key order, and the actions that set
    one of the three texts of a group named by its key.

    The groups object is modelled as the sequence of its values in
    insertion order, which is the order `Object.values` gives for these
    keys; each group's `key` field is its property name. */
module TelegramStore {
  import opened Js

  datatype Group = Group(key: string, name: JsValue, chatId: JsValue, link: JsValue)

  const InitialGroups: seq<Group> := [
    Group("alert", Str("Alert Group"), Str(""), Str("")),
    Group("files", Str("File Upload Group"), Str(""), Str("")),
    Group("reports", Str("Reports Group"), Str(""), Str(""))
  ]

  /** Which of a group's texts an action sets. */
  datatype Field = Name | ChatId | Link

  function Assign(g: Group, field: Field, value: JsValue): (r: Group)
    ensures r.key == g.key
    ensures field == Name ==> r == g.(name := value)
    ensures field == ChatId ==> r == g.(chatId := value)
    ensures field == Link ==> r == g.(link := value)
  {
    match field
    case Name => g.(name := value)
    case ChatId => g.(chatId := value)
    case Link => g.(link := value)
  }

  function Keys(gs: seq<Group>): (r: seq<string>)
    ensures |r| == |gs| && forall i :: 0 <= i < |gs| ==> r[i] == gs[i].key
  {
    seq(|gs|, i requires 0 <= i < |gs| => gs[i].key)
  }

  /** Property names are unique. */
  predicate UniqueKeys(gs: seq<Group>)
  {
    forall i, j :: 0 <= i < j < |gs| ==> gs[i].key != gs[j].key
  }

  /** `if (this.groups[key]) this.groups[key][field] = value`: the group
      with that key has the field set; an unknown key changes nothing. */
  function Set(gs: seq<Group>, key: string, field: Field, value: JsValue): (r: seq<Group>)
    ensures |r| == |gs|
    ensures forall i :: 0 <= i < |gs| && gs[i].key != key ==> r[i] == gs[i]
    ensures forall i :: 0 <= i < |gs| && gs[i].key == key ==> r[i] == Assign(gs[i], field, value)
  {
    seq(|gs|, i requires 0 <= i < |gs| => if gs[i].key == key then Assign(gs[i], field, value) else gs[i])
  }

  /** The actions never add, remove or reorder groups. */
  lemma SetKeepsKeys(gs: seq<Group>, key: string, field: Field, value: JsValue)
    ensures Keys(Set(gs, key, field, value)) == Keys(gs)
    ensures UniqueKeys(gs) ==> UniqueKeys(Set(gs, key, field, value))
  {
  }

  /** An unknown key does nothing. */
  lemma UnknownKeyIgnored(gs: seq<Group>, key: string, field: Field, value: JsValue)
    requires key !in Keys(gs)
    ensures Set(gs, key, field, value) == gs
  {
  }

  /** A later action on the same field of the same group wins. */
  lemma LastWriteWins(gs: seq<Group>, key: string, field: Field, v1: JsValue, v2: JsValue)
    ensures Set(Set(gs, key, field, v1), key, field, v2) == Set(gs, key, field, v2)
  {
  }

  /** Actions on different groups, or on different fields of one group, can
      be done in either order. */
  lemma IndependentActionsCommute(gs: seq<Group>, k1: string, f1: Field, v1: JsValue,
                                  k2: string, f2: Field, v2: JsValue)
    requires k1 != k2 || f1 != f2
    ensures Set(Set(gs, k1, f1, v1), k2, f2, v2) == Set(Set(gs, k2, f2, v2), k1, f1, v1)
  {
    var a := Set(Set(gs, k1, f1, v1), k2, f2, v2);
    var b := Set(Set(gs, k2, f2, v2), k1, f1, v1);
    forall i | 0 <= i < |gs|
      ensures a[i] == b[i]
    {
      AssignsCommute(gs[i], k1, f1, v1, k2, f2, v2);
    }
  }

  lemma AssignsCommute(g: Group, k1: string, f1: Field, v1: JsValue, k2: string, f2: Field, v2: JsValue)
    requires k1 != k2 || f1 != f2
    ensures var once := if g.key == k1 then Assign(g, f1, v1) else g;
            var other := if g.key == k2 then Assign(g, f2, v2) else g;
            (if once.key == k2 then Assign(once, f2, v2) else once)
            == (if other.key == k1 then Assign(other, f1, v1) else other)
  {
  }

  lemma InitialKeys()
    ensures Keys(InitialGroups) == ["alert", "files", "reports"]
    ensures UniqueKeys(InitialGroups)
  {
  }

  class TelegramStore {
    var groups: seq<Group>

    predicate Valid()
      reads this
    {
      Keys(groups) == ["alert", "files", "reports"]
    }

    constructor ()
      ensures groups == InitialGroups && Valid()
    {
      groups := InitialGroups;
    }

    /** The `list` getter: the groups in key order. */
    method List() returns (r: seq<Group>)
      requires Valid()
      ensures |r| == 3 && Keys(r) == ["alert", "files", "reports"]
      ensures r == groups
    {
      r := groups;
    }

    method Rename(key: string, name: JsValue)
      requires Valid()
      modifies this
      ensures groups == Set(old(groups), key, Name, name) && Valid()
    {
      SetKeepsKeys(groups, key, Name, name);
      groups := Set(groups, key, Name, name);
    }

    method SetChatId(key: string, chatId: JsValue)
      requires Valid()
      modifies this
      ensures groups == Set(old(groups), key, ChatId, chatId) && Valid()
    {
      SetKeepsKeys(groups, key, ChatId, chatId);
      groups := Set(groups, key, ChatId, chatId);
    }

    method SetLink(key: string, link: JsValue)
      requires Valid()
      modifies this
      ensures groups == Set(old(groups), key, Link, link) && Valid()
    {
      SetKeepsKeys(groups, key, Link, link);
      groups := Set(groups, key, Link, link);
    }
  }
}
