/** The catalogue store (`stores/catalog.js`): depots, the stations and
    sub-sections of each depot, and assets keyed by "station::subsection".
    `assetsFor` collects the assets of every station and sub-section pair
    into a JavaScript `Map` keyed by asset id and returns its values.

    The `Map` is modelled as a sequence of items with distinct ids, in
    insertion order: `set` on a known id replaces the item where it stands,
    on a new id appends it. */
module Catalog {
  import opened Common

  /** Depots, stations, sub-sections and assets are all `{ id, name }`. */
  datatype Item = Item(id: string, name: string)

  /** The ids of a sequence of items, in order. */
  function Ids(xs: seq<Item>): (r: seq<string>)
    ensures |r| == |xs| && forall i :: 0 <= i < |xs| ==> r[i] == xs[i].id
  {
    seq(|xs|, i requires 0 <= i < |xs| => xs[i].id)
  }

  lemma IdsOfTail(xs: seq<Item>)
    requires xs != []
    ensures Ids(xs) == [xs[0].id] + Ids(xs[1..])
  {
  }

  predicate UniqueIds(xs: seq<Item>)
  {
    forall i, j :: 0 <= i < j < |xs| ==> xs[i].id != xs[j].id
  }

  // -----------------------------------------------------------------------
  // The insertion-ordered map

  /** Where the item with this id stands. */
  function Find(out: seq<Item>, id: string): (r: Option<nat>)
    ensures r.Some? ==> r.value < |out| && out[r.value].id == id
    ensures r.None? <==> id !in Ids(out)
  {
    if out == [] then None
    else if out[|out| - 1].id == id then Some(|out| - 1)
    else
      var r := Find(out[..|out| - 1], id);
      assert Ids(out) == Ids(out[..|out| - 1]) + [out[|out| - 1].id];
      r
  }

  /** `out.set(a.id, a)`. */
  function Put(out: seq<Item>, a: Item): (r: seq<Item>)
    ensures a.id in Ids(out) ==> |r| == |out| && Ids(r) == Ids(out)
    ensures a.id !in Ids(out) ==> r == out + [a] && Ids(r) == Ids(out) + [a.id]
    ensures forall i :: 0 <= i < |out| ==> r[i] == (if out[i].id == a.id && Find(out, a.id) == Some(i) then a else out[i])
  {
    match Find(out, a.id)
    case None => out + [a]
    case Some(i) => out[i := a]
  }

  /** `for (const a of list) out.set(a.id, a)`, for every item in turn. */
  function PutAll(out: seq<Item>, xs: seq<Item>): seq<Item>
  {
    if xs == [] then out else Put(PutAll(out, xs[..|xs| - 1]), xs[|xs| - 1])
  }

  // -----------------------------------------------------------------------
  // The visiting order of `assetsFor`

  function Key(station: string, sub: string): string
  {
    station + "::" + sub
  }

  /** `assetsByKey[key] || []`. */
  function ListAt(byKey: map<string, seq<Item>>, key: string): seq<Item>
  {
    if key in byKey then byKey[key] else []
  }

  /** The items visited for one station, sub-section by sub-section. */
  function Row(byKey: map<string, seq<Item>>, station: string, subs: seq<string>): seq<Item>
  {
    if subs == [] then [] else Row(byKey, station, subs[..|subs| - 1]) + ListAt(byKey, Key(station, subs[|subs| - 1]))
  }

  /** The items visited by the nested loops: stations outside, sub-sections
      inside. */
  function Visited(byKey: map<string, seq<Item>>, stations: seq<string>, subs: seq<string>): seq<Item>
  {
    if stations == [] then [] else Visited(byKey, stations[..|stations| - 1], subs) + Row(byKey, stations[|stations| - 1], subs)
  }

  /** What `assetsFor` returns. */
  function Union(byKey: map<string, seq<Item>>, stations: seq<string>, subs: seq<string>): seq<Item>
  {
    PutAll([], Visited(byKey, stations, subs))
  }

  // -----------------------------------------------------------------------
  // Properties of the ordered map

  /** The last item visited with the given id. */
  function LastWithId(xs: seq<Item>, id: string): (r: Item)
    requires id in Ids(xs)
    ensures r in xs && r.id == id
  {
    assert Ids(xs) == Ids(xs[..|xs| - 1]) + [xs[|xs| - 1].id];
    if xs[|xs| - 1].id == id then xs[|xs| - 1] else LastWithId(xs[..|xs| - 1], id)
  }

  /** Where the given id is first visited. */
  function FirstIndex(xs: seq<Item>, id: string): (r: nat)
    requires id in Ids(xs)
    ensures r < |xs| && xs[r].id == id && forall k :: 0 <= k < r ==> xs[k].id != id
  {
    if xs[0].id == id then 0
    else
      IdsOfTail(xs);
      var r := FirstIndex(xs[1..], id);
      r + 1
  }

  /** Ids appear once, in the order of their first visit, each with the
      last item visited under it, and exactly the visited ids appear. */
  ghost predicate Summarises(r: seq<Item>, xs: seq<Item>)
  {
    && UniqueIds(r)
    && (forall id :: id in Ids(r) <==> id in Ids(xs))
    && (forall i :: 0 <= i < |r| ==> r[i].id in Ids(xs) && r[i] == LastWithId(xs, r[i].id))
    && (forall i, j :: 0 <= i < j < |r| ==> FirstIndex(xs, r[i].id) < FirstIndex(xs, r[j].id))
  }

  lemma {:induction false} PutAllSummarises(xs: seq<Item>)
    ensures Summarises(PutAll([], xs), xs)
  {
    if xs != [] {
      var front, x := xs[..|xs| - 1], xs[|xs| - 1];
      assert xs == front + [x];
      PutAllSummarises(front);
      PutStep(PutAll([], front), front, x);
    }
  }

  /** One `set` keeps the summary true for one more visited item. */
  lemma PutStep(out: seq<Item>, front: seq<Item>, x: Item)
    requires Summarises(out, front)
    ensures Summarises(Put(out, x), front + [x])
  {
    LastAfterStep(front, x);
    FirstAfterStep(front, x);
    PutKeepsUnique(out, x);
    PutKeepsLast(out, front, x);
    PutKeepsOrder(out, front, x);
  }

  lemma PutKeepsUnique(out: seq<Item>, x: Item)
    requires UniqueIds(out)
    ensures UniqueIds(Put(out, x))
  {
    var r := Put(out, x);
    if x.id in Ids(out) {
      forall i | 0 <= i < |r|
        ensures r[i].id == out[i].id
      {
        assert r[i].id == Ids(r)[i] == Ids(out)[i];
      }
    }
  }

  lemma PutKeepsLast(out: seq<Item>, front: seq<Item>, x: Item)
    requires Summarises(out, front)
    requires Ids(front + [x]) == Ids(front) + [x.id]
    requires LastWithId(front + [x], x.id) == x
    requires forall id :: id in Ids(front) && id != x.id ==> LastWithId(front + [x], id) == LastWithId(front, id)
    ensures var r := Put(out, x);
            && (forall id :: id in Ids(r) <==> id in Ids(front + [x]))
            && (forall i :: 0 <= i < |r| ==> r[i].id in Ids(front + [x]) && r[i] == LastWithId(front + [x], r[i].id))
  {
    var xs := front + [x];
    var r := Put(out, x);
    forall i | 0 <= i < |r|
      ensures r[i].id in Ids(xs) && r[i] == LastWithId(xs, r[i].id)
    {
      if i < |out| {
        assert r[i].id == Ids(r)[i];
        assert out[i].id == Ids(out)[i];
      }
    }
  }

  lemma PutKeepsOrder(out: seq<Item>, front: seq<Item>, x: Item)
    requires Summarises(out, front)
    requires Ids(front + [x]) == Ids(front) + [x.id]
    requires forall id :: id in Ids(front) ==> FirstIndex(front + [x], id) == FirstIndex(front, id)
    requires x.id !in Ids(front) ==> FirstIndex(front + [x], x.id) == |front|
    ensures var r := Put(out, x);
            forall i, j :: 0 <= i < j < |r| ==> FirstIndex(front + [x], r[i].id) < FirstIndex(front + [x], r[j].id)
  {
    var xs := front + [x];
    var r := Put(out, x);
    if x.id in Ids(out) {
      forall i | 0 <= i < |r|
        ensures r[i].id == out[i].id
      {
        assert r[i].id == Ids(r)[i] == Ids(out)[i];
      }
    } else {
      forall i, j | 0 <= i < j < |r|
        ensures FirstIndex(xs, r[i].id) < FirstIndex(xs, r[j].id)
      {
        if j == |out| {
          assert r[i] == out[i] && out[i].id in Ids(front);
        }
      }
    }
  }

  lemma LastAfterStep(front: seq<Item>, x: Item)
    ensures Ids(front + [x]) == Ids(front) + [x.id]
    ensures LastWithId(front + [x], x.id) == x
    ensures forall id :: id in Ids(front) && id != x.id ==> LastWithId(front + [x], id) == LastWithId(front, id)
  {
    var xs := front + [x];
    assert xs[..|xs| - 1] == front;
  }

  lemma FirstAfterStep(front: seq<Item>, x: Item)
    ensures Ids(front + [x]) == Ids(front) + [x.id]
    ensures forall id :: id in Ids(front) ==> FirstIndex(front + [x], id) == FirstIndex(front, id)
    ensures x.id !in Ids(front) ==> FirstIndex(front + [x], x.id) == |front|
  {
    var xs := front + [x];
    assert Ids(xs) == Ids(front) + [x.id];
    forall id | id in Ids(front)
      ensures FirstIndex(xs, id) == FirstIndex(front, id)
    {
      var f := FirstIndex(front, id);
      assert xs[f].id == id;
      var g := FirstIndex(xs, id);
      assert g < |front| ==> front[g] == xs[g];
    }
    if x.id !in Ids(front) {
      assert forall k :: 0 <= k < |front| ==> xs[k].id == Ids(front)[k] != x.id;
    }
  }

  // -----------------------------------------------------------------------
  // Properties of the visiting order

  /** An item is visited exactly when it is listed under the key of some
      station and sub-section given. */
  lemma {:induction false} VisitedFromKeys(byKey: map<string, seq<Item>>, stations: seq<string>, subs: seq<string>, a: Item)
    ensures a in Visited(byKey, stations, subs) <==>
              exists s, sub :: s in stations && sub in subs && a in ListAt(byKey, Key(s, sub))
  {
    if stations != [] {
      var front, last := stations[..|stations| - 1], stations[|stations| - 1];
      assert stations == front + [last];
      VisitedFromKeys(byKey, front, subs, a);
      RowFromKeys(byKey, last, subs, a);
    }
  }

  lemma {:induction false} RowFromKeys(byKey: map<string, seq<Item>>, station: string, subs: seq<string>, a: Item)
    ensures a in Row(byKey, station, subs) <==> exists sub :: sub in subs && a in ListAt(byKey, Key(station, sub))
  {
    if subs != [] {
      var front, last := subs[..|subs| - 1], subs[|subs| - 1];
      assert subs == front + [last];
      RowFromKeys(byKey, station, front, a);
    }
  }

  lemma IdsOfMembers(xs: seq<Item>, a: Item)
    requires a in xs
    ensures a.id in Ids(xs)
  {
    var i :| 0 <= i < |xs| && xs[i] == a;
    assert Ids(xs)[i] == a.id;
  }

  /** What `assetsFor` promises: every returned asset is listed under some
      key visited, no two share an id, every id listed under a visited key
      is returned, and a repeated id keeps its first position with its last
      asset. */
  lemma UnionProperties(byKey: map<string, seq<Item>>, stations: seq<string>, subs: seq<string>)
    ensures var r := Union(byKey, stations, subs);
            && UniqueIds(r)
            && (forall a :: a in r ==> exists s, sub :: s in stations && sub in subs && a in ListAt(byKey, Key(s, sub)))
            && (forall s, sub, a :: s in stations && sub in subs && a in ListAt(byKey, Key(s, sub)) ==> a.id in Ids(r))
    ensures var r := Union(byKey, stations, subs);
            var xs := Visited(byKey, stations, subs);
            && (forall i :: 0 <= i < |r| ==> r[i].id in Ids(xs) && r[i] == LastWithId(xs, r[i].id))
            && (forall i, j :: 0 <= i < j < |r| ==> FirstIndex(xs, r[i].id) < FirstIndex(xs, r[j].id))
  {
    var xs := Visited(byKey, stations, subs);
    var r := Union(byKey, stations, subs);
    PutAllSummarises(xs);
    forall a | a in r
      ensures exists s, sub :: s in stations && sub in subs && a in ListAt(byKey, Key(s, sub))
    {
      var i :| 0 <= i < |r| && r[i] == a;
      assert a == LastWithId(xs, a.id);
      VisitedFromKeys(byKey, stations, subs, a);
    }
    forall s, sub, a | s in stations && sub in subs && a in ListAt(byKey, Key(s, sub))
      ensures a.id in Ids(r)
    {
      VisitedFromKeys(byKey, stations, subs, a);
      IdsOfMembers(xs, a);
    }
  }

  /** With no stations, no sub-sections, or no key listed, nothing is
      returned. */
  lemma EmptyUnion(byKey: map<string, seq<Item>>, stations: seq<string>, subs: seq<string>)
    requires forall s, sub :: s in stations && sub in subs ==> Key(s, sub) !in byKey
    ensures Union(byKey, stations, subs) == []
  {
    var xs := Visited(byKey, stations, subs);
    if xs != [] {
      VisitedFromKeys(byKey, stations, subs, xs[0]);
      assert false;
    }
  }

  // -----------------------------------------------------------------------
  // The store

  const InitialDepots: seq<Item> := [Item("ADI", "Ahmedabad Depot"), Item("BRC", "Vadodara Depot")]

  const InitialStations: map<string, seq<Item>> := map[
    "ADI" := [Item("ADI-AHMD", "Ahmedabad"), Item("ADI-NADI", "Nadiad"), Item("ADI-VIJL", "Vijay Nagar")],
    "BRC" := [Item("BRC-BHAR", "Bharuch"), Item("BRC-ANKL", "Ankleshwar")]]

  const InitialSubSections: map<string, seq<Item>> := map[
    "ADI" := [Item("SIG", "Signal"), Item("TEL", "Telecom"), Item("PWR", "Power")],
    "BRC" := [Item("SIG", "Signal"), Item("TEL", "Telecom")]]

  const InitialAssets: map<string, seq<Item>> := map[
    "ADI-AHMD::SIG" := [Item("A-SIG-0001", "Track Circuit TX-01"), Item("A-SIG-0002", "Point Machine PM-12")],
    "ADI-AHMD::TEL" := [Item("A-TEL-0101", "OFC 24F Span AHMD-1"), Item("A-TEL-0102", "Joint Closure JC-3")],
    "ADI-NADI::TEL" := [Item("A-TEL-0201", "OFC 24F Span NADI-2")],
    "BRC-BHAR::SIG" := [Item("B-SIG-1001", "Signal RELAY R-7")]]

  /** `stationsForDepot` and `subSectionsForDepot`: the stored list, or []
      for an unknown depot. */
  function ForDepot(byDepot: map<string, seq<Item>>, depotId: string): (r: seq<Item>)
    ensures depotId in byDepot ==> r == byDepot[depotId]
    ensures depotId !in byDepot ==> r == []
  {
    if depotId in byDepot then byDepot[depotId] else []
  }

  class CatalogStore {
    var depots: seq<Item>
    var stationsByDepot: map<string, seq<Item>>
    var subSectionsByDepot: map<string, seq<Item>>
    var assetsByKey: map<string, seq<Item>>

    constructor ()
      ensures depots == InitialDepots && stationsByDepot == InitialStations
      ensures subSectionsByDepot == InitialSubSections && assetsByKey == InitialAssets
    {
      depots := InitialDepots;
      stationsByDepot := InitialStations;
      subSectionsByDepot := InitialSubSections;
      assetsByKey := InitialAssets;
    }

    method StationsForDepot(depotId: string) returns (r: seq<Item>)
      ensures r == ForDepot(stationsByDepot, depotId)
    {
      r := if depotId in stationsByDepot then stationsByDepot[depotId] else [];
    }

    method SubSectionsForDepot(depotId: string) returns (r: seq<Item>)
      ensures r == ForDepot(subSectionsByDepot, depotId)
    {
      r := if depotId in subSectionsByDepot then subSectionsByDepot[depotId] else [];
    }

    /** `assetsFor`: the nested loops fill the map one asset at a time. */
    method AssetsFor(stationIds: seq<string>, subSectionIds: seq<string>) returns (assets: seq<Item>)
      ensures assets == Union(assetsByKey, stationIds, subSectionIds)
    {
      var out: seq<Item> := [];
      for i := 0 to |stationIds|
        invariant out == PutAll([], Visited(assetsByKey, stationIds[..i], subSectionIds))
      {
        ghost var done := Visited(assetsByKey, stationIds[..i], subSectionIds);
        RowStart(assetsByKey, stationIds[i], subSectionIds, done);
        for j := 0 to |subSectionIds|
          invariant out == PutAll([], done + Row(assetsByKey, stationIds[i], subSectionIds[..j]))
        {
          var list := ListAt(assetsByKey, Key(stationIds[i], subSectionIds[j]));
          ghost var before := done + Row(assetsByKey, stationIds[i], subSectionIds[..j]);
          assert before + list[..0] == before;
          for k := 0 to |list|
            invariant out == PutAll([], before + list[..k])
          {
            PutAllStep(before, list, k);
            out := Put(out, list[k]);
          }
          RowStep(assetsByKey, stationIds[i], subSectionIds, j, done, list);
        }
        VisitedStep(assetsByKey, stationIds, subSectionIds, i);
      }
      assert stationIds[..|stationIds|] == stationIds;
      assets := out;
    }
  }

  lemma PutAllStep(before: seq<Item>, list: seq<Item>, k: nat)
    requires k < |list|
    ensures PutAll([], before + list[..k + 1]) == Put(PutAll([], before + list[..k]), list[k])
  {
    var xs := before + list[..k + 1];
    assert xs[..|xs| - 1] == before + list[..k] && xs[|xs| - 1] == list[k];
  }

  lemma RowStart(byKey: map<string, seq<Item>>, station: string, subs: seq<string>, done: seq<Item>)
    ensures done + Row(byKey, station, subs[..0]) == done
  {
    assert subs[..0] == [];
  }

  lemma RowStep(byKey: map<string, seq<Item>>, station: string, subs: seq<string>, j: nat,
                done: seq<Item>, list: seq<Item>)
    requires j < |subs| && list == ListAt(byKey, Key(station, subs[j]))
    ensures done + Row(byKey, station, subs[..j]) + list[..|list|] == done + Row(byKey, station, subs[..j + 1])
  {
    assert subs[..j + 1][..j] == subs[..j];
    assert list[..|list|] == list;
  }

  lemma VisitedStep(byKey: map<string, seq<Item>>, stations: seq<string>, subs: seq<string>, i: nat)
    requires i < |stations|
    ensures Visited(byKey, stations[..i], subs) + Row(byKey, stations[i], subs[..|subs|])
            == Visited(byKey, stations[..i + 1], subs)
  {
    assert stations[..i + 1][..i] == stations[..i];
    assert subs[..|subs|] == subs;
  }

  /** The unknown depot has no stations; Ahmedabad has three. */
  lemma InitialLookups()
    ensures |ForDepot(InitialStations, "ADI")| == 3 && ForDepot(InitialStations, "XYZ") == []
  {
  }
}
