/** The supervisor serializer's `update` (`supervisors/serializers.py`): the
    five many-to-many keys are taken out of the validated data, the remaining
    fields are assigned, and then every relation whose key was supplied is
    replaced by exactly the given primary keys.

    A relation is the set of primary keys it links; the input gives, per key,
    `None` when it was not supplied. */
module SupervisorSerializer {
  import opened Common

  /** The scalar fields of a supervisor. `depot` and `user` are nullable
      foreign keys. */
  datatype Scalars = Scalars(
    name: string, designation: string, mobile: string, email: string,
    depot: Option<nat>, user: Option<nat>)

  datatype Relations = Relations(
    stations: set<nat>, sections: set<nat>, subsections: set<nat>,
    assets: set<nat>, stationEquipments: set<nat>)

  /** Validated data. An absent `depot` is `None`; a depot sent as null is
      `Some(None)`. `depot_display` is read-only and so has no place here. */
  datatype SupervisorInput = SupervisorInput(
    name: Option<string>, designation: Option<string>, mobile: Option<string>,
    email: Option<string>, depot: Option<Option<nat>>, user: Option<Option<nat>>,
    stations: Option<set<nat>>, sections: Option<set<nat>>, subsections: Option<set<nat>>,
    assets: Option<set<nat>>, stationEquipments: Option<set<nat>>)

  function Get<T>(o: Option<T>, current: T): T
  {
    if o.Some? then o.value else current
  }

  /** The validated data once the five relation keys are popped: only the
      scalar fields are left. */
  function WithoutRelations(input: SupervisorInput): (r: SupervisorInput)
    ensures r.stations.None? && r.sections.None? && r.subsections.None?
    ensures r.assets.None? && r.stationEquipments.None?
    ensures r.name == input.name && r.designation == input.designation && r.mobile == input.mobile
    ensures r.email == input.email && r.depot == input.depot && r.user == input.user
  {
    input.(stations := None, sections := None, subsections := None, assets := None, stationEquipments := None)
  }

  /** `ModelSerializer.update` on the scalar fields. */
  function UpdatedScalars(s: Scalars, input: SupervisorInput): Scalars
  {
    Scalars(Get(input.name, s.name), Get(input.designation, s.designation), Get(input.mobile, s.mobile),
            Get(input.email, s.email), Get(input.depot, s.depot), Get(input.user, s.user))
  }

  /** The `.set(...)` calls: each supplied relation becomes the given set. */
  function UpdatedRelations(r: Relations, input: SupervisorInput): Relations
  {
    Relations(Get(input.stations, r.stations), Get(input.sections, r.sections),
              Get(input.subsections, r.subsections), Get(input.assets, r.assets),
              Get(input.stationEquipments, r.stationEquipments))
  }

  /** A supplied relation holds exactly the given keys afterwards; an absent
      one is unchanged. */
  lemma RelationReplaced(r: Relations, input: SupervisorInput)
    ensures var u := UpdatedRelations(r, input);
            && (input.stations.Some? ==> u.stations == input.stations.value)
            && (input.stations.None? ==> u.stations == r.stations)
            && (input.sections.Some? ==> u.sections == input.sections.value)
            && (input.sections.None? ==> u.sections == r.sections)
            && (input.subsections.Some? ==> u.subsections == input.subsections.value)
            && (input.subsections.None? ==> u.subsections == r.subsections)
            && (input.assets.Some? ==> u.assets == input.assets.value)
            && (input.assets.None? ==> u.assets == r.assets)
            && (input.stationEquipments.Some? ==> u.stationEquipments == input.stationEquipments.value)
            && (input.stationEquipments.None? ==> u.stationEquipments == r.stationEquipments)
  {
  }

  /** The relation keys never reach the scalar update, and the scalar keys
      never touch a relation. */
  lemma ScalarsAndRelationsIndependent(s: Scalars, r: Relations, input: SupervisorInput)
    ensures UpdatedScalars(s, WithoutRelations(input)) == UpdatedScalars(s, input)
    ensures UpdatedRelations(r, WithoutRelations(input)) == r
  {
  }

  /** A depot sent as null clears it; an absent depot keeps it. */
  lemma DepotNullable(s: Scalars, input: SupervisorInput)
    ensures input.depot == Some(None) ==> UpdatedScalars(s, input).depot.None?
    ensures input.depot.None? ==> UpdatedScalars(s, input).depot == s.depot
  {
  }

  /** `depot_display`: the name of the linked depot, or null without one. */
  function DepotDisplay(depotNames: map<nat, string>, s: Scalars): (d: Option<string>)
    ensures s.depot.None? ==> d.None?
    ensures s.depot.Some? && s.depot.value in depotNames ==> d == Some(depotNames[s.depot.value])
  {
    if s.depot.Some? && s.depot.value in depotNames then Some(depotNames[s.depot.value]) else None
  }

  class Supervisor {
    var scalars: Scalars
    var relations: Relations

    constructor (s: Scalars, r: Relations)
      ensures scalars == s && relations == r
    {
      scalars := s;
      relations := r;
    }

    /** `relation.set(ids)`. */
    method SetStations(ids: set<nat>)
      modifies this
      ensures relations == old(relations).(stations := ids) && scalars == old(scalars)
    {
      relations := relations.(stations := ids);
    }

    method SetSections(ids: set<nat>)
      modifies this
      ensures relations == old(relations).(sections := ids) && scalars == old(scalars)
    {
      relations := relations.(sections := ids);
    }

    method SetSubsections(ids: set<nat>)
      modifies this
      ensures relations == old(relations).(subsections := ids) && scalars == old(scalars)
    {
      relations := relations.(subsections := ids);
    }

    method SetAssets(ids: set<nat>)
      modifies this
      ensures relations == old(relations).(assets := ids) && scalars == old(scalars)
    {
      relations := relations.(assets := ids);
    }

    method SetStationEquipments(ids: set<nat>)
      modifies this
      ensures relations == old(relations).(stationEquipments := ids) && scalars == old(scalars)
    {
      relations := relations.(stationEquipments := ids);
    }
  }

  /** `SupervisorSerializer.update`. */
  method Update(instance: Supervisor, validated: SupervisorInput) returns (r: Supervisor)
    modifies instance
    ensures r == instance
    ensures instance.scalars == UpdatedScalars(old(instance.scalars), validated)
    ensures instance.relations == UpdatedRelations(old(instance.relations), validated)
  {
    var stationsData := validated.stations;
    var sectionsData := validated.sections;
    var subsectionsData := validated.subsections;
    var assetsData := validated.assets;
    var stationEquipmentsData := validated.stationEquipments;
    var rest := WithoutRelations(validated);
    instance.scalars := UpdatedScalars(instance.scalars, rest);
    if stationsData.Some? {
      instance.SetStations(stationsData.value);
    }
    if sectionsData.Some? {
      instance.SetSections(sectionsData.value);
    }
    if subsectionsData.Some? {
      instance.SetSubsections(subsectionsData.value);
    }
    if assetsData.Some? {
      instance.SetAssets(assetsData.value);
    }
    if stationEquipmentsData.Some? {
      instance.SetStationEquipments(stationEquipmentsData.value);
    }
    r := instance;
  }
}
