/**
 * The knowledge half of scripts/mitre-bloodhound-test2.py: the exact
 * "mitre-attack" reference lookups `get_external_id`, `get_external_url` and
 * `get_references`, and `ATTCKnowledge.sync`, which runs one filter pass per
 * object kind over the bundle and appends what it finds to five lists.
 *
 * Missing values stay `None` here (this copy has no `''` defaults).
 */
module Test2Knowledge {
  import opened Wrappers
  import opened JsonValue
  import opened Stix

  datatype Tactic = Tactic(
    name: Option<string>, description: Option<string>, tacticType: Option<string>,
    id: Option<string>, wiki: Option<string>, reference: seq<ExternalReference>,
    created: Option<string>, modified: Option<string>, contributor: seq<string>, stix: Option<string>)

  datatype Technique = Technique(
    name: Option<string>, tactic: seq<Option<string>>, description: Option<string>,
    platform: seq<string>, permission: seq<string>, bypass: seq<string>, effectivePerm: seq<string>,
    network: Option<Json>, remote: Option<Json>, prereq: Option<Json>, detection: Option<string>,
    mitigation: Option<string>, dataSource: seq<string>,
    id: Option<string>, wiki: Option<string>, reference: seq<ExternalReference>,
    created: Option<string>, modified: Option<string>, contributor: seq<string>, stix: Option<string>)

  datatype Group = Group(
    name: Option<string>, description: Option<string>, alias: seq<string>,
    id: Option<string>, wiki: Option<string>, reference: seq<ExternalReference>,
    created: Option<string>, modified: Option<string>, contributor: seq<string>, stix: Option<string>)

  datatype Software = Software(
    name: Option<string>, description: Option<string>, softwareType: Option<string>, alias: seq<string>,
    id: Option<string>, wiki: Option<string>, reference: seq<ExternalReference>,
    created: Option<string>, modified: Option<string>, contributor: seq<string>, stix: Option<string>)

  datatype Relationship = Relationship(
    source: Option<string>, edge: Option<string>, target: Option<string>,
    description: Option<string>, reference: seq<ExternalReference>)

  // ---------------------------------------------------------------------------
  // The exact "mitre-attack" lookups
  // ---------------------------------------------------------------------------

  /** `get_external_id`: `None` when no reference is exactly "mitre-attack". */
  function GetExternalId(o: RawObject): (r: Option<string>)
    ensures FirstMitreAttack(References(o)).None? ==> r.None?
  {
    match FirstMitreAttack(References(o))
    case Some(ref) => ref.externalId
    case None => None
  }

  /** `get_external_url`: the same scan, reading `url`. */
  function GetExternalUrl(o: RawObject): (r: Option<string>)
    ensures FirstMitreAttack(References(o)).None? ==> r.None?
  {
    match FirstMitreAttack(References(o))
    case Some(ref) => ref.url
    case None => None
  }

  /** Both lookups read the first reference whose source name is exactly
      "mitre-attack": with none, both are `None`; otherwise they are that
      reference's `external_id` and `url`, each `None` when it lacks the key. */
  lemma {:induction false} ExternalIdUrl(o: RawObject, k: nat)
    requires k <= |References(o)|
    requires forall j :: 0 <= j < k ==> !IsMitreAttack(References(o)[j])
    ensures k == |References(o)| ==> GetExternalId(o) == None && GetExternalUrl(o) == None
    ensures k < |References(o)| && IsMitreAttack(References(o)[k]) ==>
              GetExternalId(o) == References(o)[k].externalId
              && GetExternalUrl(o) == References(o)[k].url
  {
    FirstMitreAttackIs(References(o), k);
  }

  /** `get_references`. */
  function GetReferences(o: RawObject): seq<ExternalReference> {
    NonMitreAttack(References(o))
  }

  // ---------------------------------------------------------------------------
  // Per-kind extraction
  // ---------------------------------------------------------------------------

  /** `[phase.get('phase_name') for phase in ...] if obj.get('kill_chain_phases') else []`. */
  function PhaseNames(o: RawObject): (r: seq<Option<string>>)
    ensures !TruthyList(o.killChainPhases) ==> r == []
    ensures TruthyList(o.killChainPhases) ==>
              |r| == |o.killChainPhases.value| && forall i :: 0 <= i < |r| ==> r[i] == o.killChainPhases.value[i].phaseName
  {
    if TruthyList(o.killChainPhases) then
      seq(|o.killChainPhases.value|, i requires 0 <= i < |o.killChainPhases.value| => o.killChainPhases.value[i].phaseName)
    else []
  }

  /** The description of the first course of action named like the technique;
      two missing names compare equal, as `None == None` does. */
  function Mitigation(coas: seq<RawObject>, techName: Option<string>): Option<string> {
    if coas == [] then None
    else if coas[0].name == techName then coas[0].description
    else Mitigation(coas[1..], techName)
  }

  lemma {:induction false} MitigationIs(coas: seq<RawObject>, techName: Option<string>, k: nat)
    requires k <= |coas|
    requires forall j :: 0 <= j < k ==> coas[j].name != techName
    ensures k == |coas| ==> Mitigation(coas, techName) == None
    ensures k < |coas| && coas[k].name == techName ==> Mitigation(coas, techName) == coas[k].description
  {
    if k > 0 {
      MitigationIs(coas[1..], techName, k - 1);
    }
  }

  function TacticOf(o: RawObject): Option<Tactic> {
    if o.objType == Some("x-mitre-tactic") then
      Some(Tactic(o.name, o.description, o.objType, GetExternalId(o), GetExternalUrl(o), GetReferences(o),
                  o.created, o.modified, o.contributors.GetOr([]), o.id))
    else None
  }

  function MakeTechnique(coas: seq<RawObject>, o: RawObject): Technique {
    Technique(o.name, PhaseNames(o), o.description, o.platforms.GetOr([]), o.permissionsRequired.GetOr([]),
              o.defenseBypassed.GetOr([]), o.effectivePermissions.GetOr([]),
              o.networkRequirements, o.remoteSupport, o.systemRequirements, o.detection,
              Mitigation(coas, o.name), o.dataSources.GetOr([]),
              GetExternalId(o), GetExternalUrl(o), GetReferences(o),
              o.created, o.modified, o.contributors.GetOr([]), o.id)
  }

  function GroupOf(o: RawObject): Option<Group> {
    if o.objType == Some("intrusion-set") then
      Some(Group(o.name, o.description, o.aliases.GetOr([]), GetExternalId(o), GetExternalUrl(o), GetReferences(o),
                 o.created, o.modified, o.contributors.GetOr([]), o.id))
    else None
  }

  function SoftwareOf(o: RawObject): Option<Software> {
    if o.objType == Some("tool") || o.objType == Some("malware") then
      Some(Software(o.name, o.description, o.objType, o.mitreAliases.GetOr([]), GetExternalId(o), GetExternalUrl(o),
                    GetReferences(o), o.created, o.modified, o.contributors.GetOr([]), o.id))
    else None
  }

  /** Every relationship is kept, whatever its `relationship_type`. */
  function RelationshipOf(o: RawObject): Option<Relationship> {
    if o.objType == Some("relationship") then
      Some(Relationship(o.sourceRef, o.relationshipType, o.targetRef, o.description, GetReferences(o)))
    else None
  }

  function CourseOfActionOf(o: RawObject): Option<RawObject> {
    if o.objType == Some("course-of-action") then Some(o) else None
  }

  /** The technique pass, which also looks up each technique's mitigation. */
  function SelectTechniques(coas: seq<RawObject>, objs: seq<RawObject>): seq<Technique> {
    if objs == [] then []
    else SelectTechniques(coas, objs[..|objs| - 1])
         + if objs[|objs| - 1].objType == Some("attack-pattern") then [MakeTechnique(coas, objs[|objs| - 1])] else []
  }

  /** `taclist`: the courses of action of the bundle. */
  function CoursesOfAction(objs: seq<RawObject>): seq<RawObject> {
    Select(objs, CourseOfActionOf)
  }

  datatype SyncError = MissingObjects  // `data['objects']` raises `KeyError`

  /** `ATTCKnowledge`: the five lists `sync` appends to. */
  class Knowledge {
    var tactic: seq<Tactic>
    var technique: seq<Technique>
    var group: seq<Group>
    var software: seq<Software>
    var relationship: seq<Relationship>

    constructor ()
      ensures tactic == [] && technique == [] && group == [] && software == [] && relationship == []
    {
      tactic, technique, group, software, relationship := [], [], [], [], [];
    }

    /** `sync` on a decoded bundle: a bundle without `objects` raises before
        anything is appended; otherwise each list grows by its pass. */
    method Sync(bundle: Bundle) returns (r: Result<(), SyncError>)
      modifies this
      ensures r.Failure? <==> bundle.objects.None?
      ensures r.Failure? ==> tactic == old(tactic) && technique == old(technique) && group == old(group)
                             && software == old(software) && relationship == old(relationship)
      ensures r.Success? ==>
                var objects := bundle.objects.value;
                tactic == old(tactic) + Select(objects, TacticOf)
                && technique == old(technique) + SelectTechniques(CoursesOfAction(objects), objects)
                && group == old(group) + Select(objects, GroupOf)
                && software == old(software) + Select(objects, SoftwareOf)
                && relationship == old(relationship) + Select(objects, RelationshipOf)
    {
      if bundle.objects.None? {
        return Failure(MissingObjects);
      }
      var objects := bundle.objects.value;
      ParseTactics(objects);
      var taclist := CoursesOfAction(objects);
      ParseTechniques(objects, taclist);
      ParseGroups(objects);
      ParseSoftware(objects);
      ParseRelationships(objects);
      r := Success(());
    }

    /** The tactic pass. */
    method ParseTactics(objects: seq<RawObject>)
      modifies this
      ensures tactic == old(tactic) + Select(objects, TacticOf)
      ensures technique == old(technique) && group == old(group)
      ensures software == old(software) && relationship == old(relationship)
    {
      var i := 0;
      while i < |objects|
        invariant 0 <= i <= |objects|
        invariant tactic == old(tactic) + Select(objects[..i], TacticOf)
        invariant technique == old(technique) && group == old(group)
        invariant software == old(software) && relationship == old(relationship)
      {
        SelectGrow(old(tactic), objects, i, TacticOf);
        var t := TacticOf(objects[i]);
        if t.Some? {
          tactic := tactic + [t.value];
        }
        i := i + 1;
      }
      assert objects[..|objects|] == objects;
    }

    /** The technique pass, with `taclist` for the mitigation lookup. */
    method ParseTechniques(objects: seq<RawObject>, taclist: seq<RawObject>)
      modifies this
      ensures technique == old(technique) + SelectTechniques(taclist, objects)
      ensures tactic == old(tactic) && group == old(group)
      ensures software == old(software) && relationship == old(relationship)
    {
      var i := 0;
      while i < |objects|
        invariant 0 <= i <= |objects|
        invariant technique == old(technique) + SelectTechniques(taclist, objects[..i])
        invariant tactic == old(tactic) && group == old(group)
        invariant software == old(software) && relationship == old(relationship)
      {
        assert objects[..i + 1][..i] == objects[..i];
        if objects[i].objType == Some("attack-pattern") {
          technique := technique + [MakeTechnique(taclist, objects[i])];
        }
        i := i + 1;
      }
      assert objects[..|objects|] == objects;
    }

    /** The group pass. */
    method ParseGroups(objects: seq<RawObject>)
      modifies this
      ensures group == old(group) + Select(objects, GroupOf)
      ensures tactic == old(tactic) && technique == old(technique)
      ensures software == old(software) && relationship == old(relationship)
    {
      var i := 0;
      while i < |objects|
        invariant 0 <= i <= |objects|
        invariant group == old(group) + Select(objects[..i], GroupOf)
        invariant tactic == old(tactic) && technique == old(technique)
        invariant software == old(software) && relationship == old(relationship)
      {
        SelectGrow(old(group), objects, i, GroupOf);
        var g := GroupOf(objects[i]);
        if g.Some? {
          group := group + [g.value];
        }
        i := i + 1;
      }
      assert objects[..|objects|] == objects;
    }

    /** The software pass (tools and malware). */
    method ParseSoftware(objects: seq<RawObject>)
      modifies this
      ensures software == old(software) + Select(objects, SoftwareOf)
      ensures tactic == old(tactic) && technique == old(technique)
      ensures group == old(group) && relationship == old(relationship)
    {
      var i := 0;
      while i < |objects|
        invariant 0 <= i <= |objects|
        invariant software == old(software) + Select(objects[..i], SoftwareOf)
        invariant tactic == old(tactic) && technique == old(technique)
        invariant group == old(group) && relationship == old(relationship)
      {
        SelectGrow(old(software), objects, i, SoftwareOf);
        var s := SoftwareOf(objects[i]);
        if s.Some? {
          software := software + [s.value];
        }
        i := i + 1;
      }
      assert objects[..|objects|] == objects;
    }

    /** The relationship pass. */
    method ParseRelationships(objects: seq<RawObject>)
      modifies this
      ensures relationship == old(relationship) + Select(objects, RelationshipOf)
      ensures tactic == old(tactic) && technique == old(technique)
      ensures group == old(group) && software == old(software)
    {
      var i := 0;
      while i < |objects|
        invariant 0 <= i <= |objects|
        invariant relationship == old(relationship) + Select(objects[..i], RelationshipOf)
        invariant tactic == old(tactic) && technique == old(technique)
        invariant group == old(group) && software == old(software)
      {
        SelectGrow(old(relationship), objects, i, RelationshipOf);
        var rel := RelationshipOf(objects[i]);
        if rel.Some? {
          relationship := relationship + [rel.value];
        }
        i := i + 1;
      }
      assert objects[..|objects|] == objects;
    }
  }
}
