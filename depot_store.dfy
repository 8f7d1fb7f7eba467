/** The depot store of the frontend (`stores/depot.js`): a list of depots,
    each with a uid, a name, a code, a location and its equipment list, and
    the actions that add a depot, remove one by position or uid, and replace
    a depot's equipment list with a deep copy.

    The generated uid (random digits and the clock, base 36) is the parameter `generated`
    of `addDepot`; it is never empty. Strict equality (`===`) is equality of
    values. */
module DepotStore {
  import opened Js

  /** A uid `uid()` can produce: some digits of the clock at least. */
  type Uid = s: string | s != "" witness "0"

  datatype Depot = Depot(uid: JsValue, name: JsValue, code: JsValue, location: JsValue, equipments: JsValue)

  /** `v || fallback`. */
  function Or(v: JsValue, fallback: JsValue): (r: JsValue)
    ensures Truthy(v) ==> r == v
    ensures !Truthy(v) ==> r == fallback
  {
    if Truthy(v) then v else fallback
  }

  // -----------------------------------------------------------------------
  // `JSON.parse(JSON.stringify(v))`

  /** The deep copy a JSON round trip makes of a value other than undefined:
      undefined array elements come back as null and undefined properties are
      dropped. */
  function JsonCopy(v: JsValue): (r: JsValue)
  {
    match v
    case Arr(items) =>
      Arr(seq(|items|, i requires 0 <= i < |items| => if items[i].Undefined? then Null else JsonCopy(items[i])))
    case Obj(props) => Obj(map k | k in props && !props[k].Undefined? :: JsonCopy(props[k]))
    case _ => v
  }

  /** A value JSON represents exactly: no undefined anywhere inside. */
  predicate IsJson(v: JsValue)
  {
    match v
    case Undefined => false
    case Arr(items) => forall i :: 0 <= i < |items| ==> IsJson(items[i])
    case Obj(props) => forall k :: k in props ==> IsJson(props[k])
    case _ => true
  }

  /** The round trip changes no JSON value. */
  lemma {:induction false} JsonCopyOfJson(v: JsValue)
    requires IsJson(v)
    ensures JsonCopy(v) == v
  {
    match v
    case Arr(items) =>
      forall i | 0 <= i < |items|
        ensures JsonCopy(v).items[i] == items[i]
      {
        JsonCopyOfJson(items[i]);
      }
    case Obj(props) =>
      forall k | k in props
        ensures JsonCopy(props[k]) == props[k]
      {
        JsonCopyOfJson(props[k]);
      }
      assert JsonCopy(v).props == props;
    case _ =>
  }

  /** The copy of any value other than undefined is a JSON value. */
  lemma {:induction false} JsonCopyIsJson(v: JsValue)
    requires !v.Undefined?
    ensures IsJson(JsonCopy(v))
  {
    match v
    case Arr(items) =>
      forall i | 0 <= i < |items| && !items[i].Undefined?
        ensures IsJson(JsonCopy(items[i]))
      {
        JsonCopyIsJson(items[i]);
      }
    case Obj(props) =>
      forall k | k in props && !props[k].Undefined?
        ensures IsJson(JsonCopy(props[k]))
      {
        JsonCopyIsJson(props[k]);
      }
    case _ =>
  }

  /** Copying a copy changes nothing. */
  lemma JsonCopyIdempotent(v: JsValue)
    requires !v.Undefined?
    ensures JsonCopy(JsonCopy(v)) == JsonCopy(v)
  {
    JsonCopyIsJson(v);
    JsonCopyOfJson(JsonCopy(v));
  }

  // -----------------------------------------------------------------------
  // `addDepot`

  /** The depot `addDepot` builds from its payload (an omitted payload is
      `{}`). */
  function NewDepot(payload: JsValue, generated: Uid): (d: Depot)
    ensures Truthy(d.uid)
    ensures Truthy(Prop(payload, "uid")) ==> d.uid == Prop(payload, "uid")
    ensures !Truthy(Prop(payload, "uid")) ==> d.uid == Str(generated)
    ensures d.equipments.Arr?
    ensures Prop(payload, "equipments").Arr? ==> d.equipments == Prop(payload, "equipments")
  {
    Depot(Or(Prop(payload, "uid"), Str(generated)),
          Or(Prop(payload, "name"), Str("")),
          Or(Prop(payload, "code"), Str("")),
          Or(Prop(payload, "location"), Str("")),
          if Prop(payload, "equipments").Arr? then Prop(payload, "equipments") else Arr([]))
  }

  /** Without a payload, a depot has the generated uid, blank text fields
      and no equipment. */
  lemma EmptyPayload(generated: Uid)
    ensures NewDepot(Undefined, generated) == Depot(Str(generated), Str(""), Str(""), Str(""), Arr([]))
    ensures NewDepot(Obj(map[]), generated) == NewDepot(Undefined, generated)
  {
  }

  /** `addDepot(null)` reads a property of null and throws. */
  predicate AddThrows(payload: JsValue)
  {
    payload.Null?
  }

  // -----------------------------------------------------------------------
  // `removeDepot`

  /** `findIndex(d => d.uid === target)`: the first depot with that uid, or
      -1. */
  function IndexOfUid(ds: seq<Depot>, target: JsValue): (r: int)
    ensures -1 <= r < |ds|
    ensures r >= 0 ==> ds[r].uid == target && forall i :: 0 <= i < r ==> ds[i].uid != target
    ensures r == -1 <==> forall i :: 0 <= i < |ds| ==> ds[i].uid != target
  {
    if ds == [] then -1
    else if ds[0].uid == target then 0
    else
      var i := IndexOfUid(ds[1..], target);
      if i == -1 then -1 else i + 1
  }

  /** `splice(idx, 1)` for `idx >= 0`: removes the depot at `idx`, if there
      is one. */
  function SpliceOne(ds: seq<Depot>, idx: int): (r: seq<Depot>)
    requires idx >= 0
    ensures idx < |ds| ==> r == ds[..idx] + ds[idx + 1..]
    ensures idx >= |ds| ==> r == ds
  {
    if idx < |ds| then ds[..idx] + ds[idx + 1..] else ds
  }

  /** `removeDepot(uidOrIndex)`: a number is a position, anything else a
      uid looked up among the depots; a negative position or an unknown uid
      removes nothing. */
  function Removal(ds: seq<Depot>, uidOrIndex: JsValue): (r: seq<Depot>)
  {
    var idx := if uidOrIndex.Num? then uidOrIndex.n else IndexOfUid(ds, uidOrIndex);
    if idx >= 0 then SpliceOne(ds, idx) else ds
  }

  /** A position removes that depot and keeps the others in order; a
      position outside the list removes nothing. */
  lemma RemoveByIndex(ds: seq<Depot>, n: int)
    ensures 0 <= n < |ds| ==> Removal(ds, Num(n)) == ds[..n] + ds[n + 1..]
    ensures (n < 0 || n >= |ds|) ==> Removal(ds, Num(n)) == ds
  {
  }

  /** A uid removes the first depot with it, and only that one; a uid no
      depot has removes nothing. */
  lemma RemoveByUid(ds: seq<Depot>, target: JsValue)
    requires !target.Num?
    ensures (exists i :: 0 <= i < |ds| && ds[i].uid == target) ==>
              var k := IndexOfUid(ds, target);
              Removal(ds, target) == ds[..k] + ds[k + 1..] && |Removal(ds, target)| == |ds| - 1
    ensures (forall i :: 0 <= i < |ds| ==> ds[i].uid != target) ==> Removal(ds, target) == ds
  {
  }

  /** Removing the position just appended undoes `addDepot`. */
  lemma RemoveLastUndoesAdd(ds: seq<Depot>, payload: JsValue, generated: Uid)
    ensures Removal(ds + [NewDepot(payload, generated)], Num(|ds|)) == ds
  {
    var l := ds + [NewDepot(payload, generated)];
    assert l[..|ds|] == ds && l[|ds| + 1..] == [];
  }

  /** So does removing by the new uid, when it is a string no other depot
      uses. */
  lemma RemoveNewUidUndoesAdd(ds: seq<Depot>, payload: JsValue, generated: Uid)
    requires NewDepot(payload, generated).uid.Str?
    requires forall i :: 0 <= i < |ds| ==> ds[i].uid != NewDepot(payload, generated).uid
    ensures Removal(ds + [NewDepot(payload, generated)], NewDepot(payload, generated).uid) == ds
  {
    var d := NewDepot(payload, generated);
    var l := ds + [d];
    assert forall i :: 0 <= i < |ds| ==> l[i].uid != d.uid;
    assert l[|ds|].uid == d.uid;
    assert IndexOfUid(l, d.uid) == |ds|;
    assert l[..|ds|] == ds && l[|ds| + 1..] == [];
  }

  // -----------------------------------------------------------------------
  // `setEquipments`

  /** `setEquipments(depotUid, equipments)`: the first depot with that uid
      gets a deep copy of the list (of `[]` for a falsy one); nothing
      changes if no depot has the uid. */
  function WithEquipments(ds: seq<Depot>, depotUid: JsValue, equipments: JsValue): (r: seq<Depot>)
    ensures |r| == |ds|
    ensures var k := IndexOfUid(ds, depotUid);
            forall i :: 0 <= i < |ds| && i != k ==> r[i] == ds[i]
    ensures var k := IndexOfUid(ds, depotUid);
            k >= 0 ==> r[k] == ds[k].(equipments := JsonCopy(Or(equipments, Arr([]))))
  {
    var k := IndexOfUid(ds, depotUid);
    if k >= 0 then ds[k := ds[k].(equipments := JsonCopy(Or(equipments, Arr([]))))] else ds
  }

  /** A JSON equipment list is stored as given; a falsy one clears the
      list. */
  lemma StoredEquipments(ds: seq<Depot>, depotUid: JsValue, equipments: JsValue)
    requires IndexOfUid(ds, depotUid) >= 0
    ensures var k := IndexOfUid(ds, depotUid);
            && (IsJson(equipments) && Truthy(equipments) ==> WithEquipments(ds, depotUid, equipments)[k].equipments == equipments)
            && (!Truthy(equipments) ==> WithEquipments(ds, depotUid, equipments)[k].equipments == Arr([]))
            && IsJson(WithEquipments(ds, depotUid, equipments)[k].equipments)
  {
    if IsJson(equipments) && Truthy(equipments) {
      JsonCopyOfJson(equipments);
    }
    JsonCopyIsJson(Or(equipments, Arr([])));
  }

  /** Setting the same list twice is setting it once. */
  lemma SetEquipmentsIdempotent(ds: seq<Depot>, depotUid: JsValue, equipments: JsValue)
    ensures WithEquipments(WithEquipments(ds, depotUid, equipments), depotUid, equipments)
            == WithEquipments(ds, depotUid, equipments)
  {
    var r := WithEquipments(ds, depotUid, equipments);
    var k := IndexOfUid(ds, depotUid);
    assert forall i :: 0 <= i < |ds| ==> r[i].uid == ds[i].uid;
    assert IndexOfUid(r, depotUid) == k;
  }

  // -----------------------------------------------------------------------
  // The store

  /** Every depot an action adds has a truthy uid. */
  predicate UidsTruthy(ds: seq<Depot>)
  {
    forall i :: 0 <= i < |ds| ==> Truthy(ds[i].uid)
  }

  lemma RemovalKeepsUids(ds: seq<Depot>, uidOrIndex: JsValue)
    requires UidsTruthy(ds)
    ensures UidsTruthy(Removal(ds, uidOrIndex))
  {
    var idx := if uidOrIndex.Num? then uidOrIndex.n else IndexOfUid(ds, uidOrIndex);
    if 0 <= idx < |ds| {
      var r := ds[..idx] + ds[idx + 1..];
      forall i | 0 <= i < |r|
        ensures Truthy(r[i].uid)
      {
        if i < idx {
          assert r[i] == ds[i];
        } else {
          assert r[i] == ds[i + 1];
        }
      }
    }
  }

  class DepotStore {
    var depots: seq<Depot>

    constructor ()
      ensures depots == []
    {
      depots := [];
    }

    /** `addDepot(payload)`; `threw` for a null payload, which changes
        nothing. */
    method AddDepot(payload: JsValue, generated: Uid) returns (threw: bool)
      modifies this
      ensures threw == AddThrows(payload)
      ensures threw ==> depots == old(depots)
      ensures !threw ==> depots == old(depots) + [NewDepot(payload, generated)]
      ensures old(UidsTruthy(depots)) ==> UidsTruthy(depots)
    {
      if payload.Null? {
        return true;
      }
      var p := if payload.Undefined? then Obj(map[]) else payload;
      var equipments := Prop(p, "equipments");
      depots := depots + [Depot(Or(Prop(p, "uid"), Str(generated)),
                                Or(Prop(p, "name"), Str("")),
                                Or(Prop(p, "code"), Str("")),
                                Or(Prop(p, "location"), Str("")),
                                if equipments.Arr? then Arr(equipments.items) else Arr([]))];
      threw := false;
    }

    /** `removeDepot(uidOrIndex)`. */
    method RemoveDepot(uidOrIndex: JsValue)
      modifies this
      ensures depots == Removal(old(depots), uidOrIndex)
      ensures old(UidsTruthy(depots)) ==> UidsTruthy(depots)
    {
      ghost var before := depots;
      var idx := if uidOrIndex.Num? then uidOrIndex.n else IndexOfUid(depots, uidOrIndex);
      if idx >= 0 {
        depots := SpliceOne(depots, idx);
      }
      assert depots == Removal(before, uidOrIndex);
      if UidsTruthy(before) {
        RemovalKeepsUids(before, uidOrIndex);
      }
    }

    /** `setEquipments(depotUid, equipments)`. */
    method SetEquipments(depotUid: JsValue, equipments: JsValue)
      modifies this
      ensures depots == WithEquipments(old(depots), depotUid, equipments)
      ensures old(UidsTruthy(depots)) ==> UidsTruthy(depots)
    {
      var k := IndexOfUid(depots, depotUid);
      if k >= 0 {
        depots := depots[k := depots[k].(equipments := JsonCopy(Or(equipments, Arr([]))))];
      }
    }
  }
}
