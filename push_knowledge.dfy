/**
 * The knowledge half of scripts/ATTCKnowledge-push.py: `ATTCKnowledge.sync`,
 * one loop over the bundle whose `if`/`elif` chain sends each object to one of
 * five lists. Unlike the other two copies of this loader, every missing string
 * becomes `''` and every missing list `[]`, and the exact "mitre-attack"
 * reference supplies `id` and `wiki`.
 */
module PushKnowledge {
  import opened Wrappers
  import opened JsonValue
  import opened Stix

  datatype Tactic = Tactic(
    name: string, description: string, tacticType: seq<string>, id: string, wiki: string,
    reference: seq<ExternalReference>, created: string, modified: string, contributor: seq<string>,
    stix: string)

  datatype Technique = Technique(
    name: string, tactic: seq<string>, description: string, platform: seq<string>,
    permission: seq<string>, bypass: seq<string>, effectivePerm: seq<string>,
    network: Json, remote: Json, prereq: Json, detection: string, mitigation: string,
    dataSource: seq<string>, id: string, wiki: string, reference: seq<ExternalReference>,
    created: string, modified: string, contributor: seq<string>, stix: string)

  datatype Software = Software(
    name: string, description: string, softwareType: string, alias: seq<string>, id: string,
    wiki: string, reference: seq<ExternalReference>, created: string, modified: string,
    contributor: seq<string>, stix: string)

  datatype Group = Group(
    name: string, description: string, alias: seq<string>, id: string, wiki: string,
    reference: seq<ExternalReference>, created: string, modified: string, contributor: seq<string>,
    stix: string)

  datatype Relationship = Relationship(
    source: string, edge: string, target: string, description: string,
    reference: seq<ExternalReference>)

  /** `obj.get(key, '')`. */
  function Str(o: Option<string>): string {
    o.GetOr("")
  }

  /** `ext_ref.get('external_id', '')`, where `ext_ref` is the first exact
      "mitre-attack" reference or `{}`. */
  function ExternalId(o: RawObject): string {
    match FirstMitreAttack(References(o))
    case Some(ref) => Str(ref.externalId)
    case None => ""
  }

  /** `ext_ref.get('url', '')`. */
  function Wiki(o: RawObject): string {
    match FirstMitreAttack(References(o))
    case Some(ref) => Str(ref.url)
    case None => ""
  }

  /** `id` and `wiki` are read from the first reference whose source name is
      exactly "mitre-attack"; with no such reference both are `''`, and so are
      the keys that reference lacks. */
  lemma {:induction false} ExternalIdWiki(o: RawObject, k: nat)
    requires k <= |References(o)|
    requires forall j :: 0 <= j < k ==> !IsMitreAttack(References(o)[j])
    ensures k == |References(o)| ==> ExternalId(o) == "" && Wiki(o) == ""
    ensures k < |References(o)| && IsMitreAttack(References(o)[k]) ==>
              ExternalId(o) == References(o)[k].externalId.GetOr("")
              && Wiki(o) == References(o)[k].url.GetOr("")
  {
    FirstMitreAttackIs(References(o), k);
  }

  /** `[phase.get('phase_name', '') for phase in ...] if obj.get('kill_chain_phases') else []`:
      every phase, whatever its kill chain. */
  function PhaseNames(o: RawObject): (r: seq<string>)
    ensures !TruthyList(o.killChainPhases) ==> r == []
    ensures TruthyList(o.killChainPhases) ==>
              |r| == |o.killChainPhases.value|
              && forall i :: 0 <= i < |r| ==> r[i] == o.killChainPhases.value[i].phaseName.GetOr("")
  {
    if TruthyList(o.killChainPhases) then
      var phases := o.killChainPhases.value;
      seq(|phases|, i requires 0 <= i < |phases| => phases[i].phaseName.GetOr(""))
    else []
  }

  function MakeTactic(o: RawObject): Tactic {
    Tactic(Str(o.name), Str(o.description), [Str(o.objType)], ExternalId(o), Wiki(o),
           NonMitreAttack(References(o)), Str(o.created), Str(o.modified), o.contributors.GetOr([]),
           Str(o.id))
  }

  /** The mitigation is always `""`: this copy never looks courses of action up. */
  function MakeTechnique(o: RawObject): (t: Technique)
    ensures t.mitigation == ""
    ensures t.tactic == PhaseNames(o)
  {
    Technique(Str(o.name), PhaseNames(o), Str(o.description), o.platforms.GetOr([]),
              o.permissionsRequired.GetOr([]), o.defenseBypassed.GetOr([]), o.effectivePermissions.GetOr([]),
              o.networkRequirements.GetOr(JStr("")), o.remoteSupport.GetOr(JStr("")),
              o.systemRequirements.GetOr(JStr("")), Str(o.detection), "", o.dataSources.GetOr([]),
              ExternalId(o), Wiki(o), NonMitreAttack(References(o)), Str(o.created), Str(o.modified),
              o.contributors.GetOr([]), Str(o.id))
  }

  function MakeGroup(o: RawObject): Group {
    Group(Str(o.name), Str(o.description), o.aliases.GetOr([]), ExternalId(o), Wiki(o),
          NonMitreAttack(References(o)), Str(o.created), Str(o.modified), o.contributors.GetOr([]),
          Str(o.id))
  }

  function MakeSoftware(o: RawObject): Software {
    Software(Str(o.name), Str(o.description), Str(o.objType), o.mitreAliases.GetOr([]), ExternalId(o),
             Wiki(o), NonMitreAttack(References(o)), Str(o.created), Str(o.modified),
             o.contributors.GetOr([]), Str(o.id))
  }

  /** A relationship keeps every external reference, "mitre-attack" ones included. */
  function MakeRelationship(o: RawObject): (r: Relationship)
    ensures r.reference == References(o)
  {
    Relationship(Str(o.sourceRef), Str(o.relationshipType), Str(o.targetRef), Str(o.description),
                 References(o))
  }

  predicate IsSoftwareType(t: Option<string>) {
    t == Some("tool") || t == Some("malware") || t == Some("software")
  }

  /** Each branch of the `if`/`elif` chain, as the element it appends. */
  function TacticOf(o: RawObject): Option<Tactic> {
    if o.objType == Some("x-mitre-tactic") then Some(MakeTactic(o)) else None
  }

  function TechniqueOf(o: RawObject): Option<Technique> {
    if o.objType == Some("attack-pattern") then Some(MakeTechnique(o)) else None
  }

  function GroupOf(o: RawObject): Option<Group> {
    if o.objType == Some("intrusion-set") then Some(MakeGroup(o)) else None
  }

  /** Software also accepts the type "software". */
  function SoftwareOf(o: RawObject): (r: Option<Software>)
    ensures r.Some? <==> IsSoftwareType(o.objType)
  {
    if IsSoftwareType(o.objType) then Some(MakeSoftware(o)) else None
  }

  function RelationshipOf(o: RawObject): Option<Relationship> {
    if o.objType == Some("relationship") then Some(MakeRelationship(o)) else None
  }

  /** An object any branch of the chain accepts. */
  predicate Recognized(o: RawObject) {
    o.objType == Some("x-mitre-tactic") || o.objType == Some("attack-pattern")
    || o.objType == Some("intrusion-set") || IsSoftwareType(o.objType)
    || o.objType == Some("relationship")
  }

  function CountRecognized(objs: seq<RawObject>): (n: nat)
    ensures n <= |objs|
  {
    if objs == [] then 0 else CountRecognized(objs[..|objs| - 1]) + if Recognized(objs[|objs| - 1]) then 1 else 0
  }

  /** The branches are exclusive and together accept exactly the recognized
      objects: every recognized object lands in exactly one list, and the rest
      are dropped. */
  lemma {:induction false} SyncPartition(objs: seq<RawObject>)
    ensures |Select(objs, TacticOf)| + |Select(objs, TechniqueOf)| + |Select(objs, GroupOf)|
            + |Select(objs, SoftwareOf)| + |Select(objs, RelationshipOf)| == CountRecognized(objs)
  {
    if objs != [] {
      SyncPartition(objs[..|objs| - 1]);
      var o := objs[|objs| - 1];
      assert |Select(objs, TacticOf)| == |Select(objs[..|objs| - 1], TacticOf)| + |Listed(TacticOf(o))|;
      assert |Select(objs, TechniqueOf)| == |Select(objs[..|objs| - 1], TechniqueOf)| + |Listed(TechniqueOf(o))|;
      assert |Select(objs, GroupOf)| == |Select(objs[..|objs| - 1], GroupOf)| + |Listed(GroupOf(o))|;
      assert |Select(objs, SoftwareOf)| == |Select(objs[..|objs| - 1], SoftwareOf)| + |Listed(SoftwareOf(o))|;
      assert |Select(objs, RelationshipOf)| == |Select(objs[..|objs| - 1], RelationshipOf)| + |Listed(RelationshipOf(o))|;
    }
  }

  /** The five lists, in the order the class declares them. */
  datatype Lists = Lists(
    tactics: seq<Tactic>, techniques: seq<Technique>, software: seq<Software>, groups: seq<Group>,
    relationships: seq<Relationship>)

  /** One turn of the loop: the object is appended to the list of its kind, if any. */
  function SyncStep(l: Lists, o: RawObject): Lists {
    Lists(l.tactics + Listed(TacticOf(o)), l.techniques + Listed(TechniqueOf(o)),
          l.software + Listed(SoftwareOf(o)), l.groups + Listed(GroupOf(o)),
          l.relationships + Listed(RelationshipOf(o)))
  }

  function SyncRun(l: Lists, objs: seq<RawObject>): Lists {
    if objs == [] then l else SyncStep(SyncRun(l, objs[..|objs| - 1]), objs[|objs| - 1])
  }

  /** The single loop fills each list exactly as a separate filter pass per kind
      would, in bundle order. */
  lemma {:induction false} SyncRunSelects(l: Lists, objs: seq<RawObject>)
    ensures SyncRun(l, objs)
            == Lists(l.tactics + Select(objs, TacticOf), l.techniques + Select(objs, TechniqueOf),
                     l.software + Select(objs, SoftwareOf), l.groups + Select(objs, GroupOf),
                     l.relationships + Select(objs, RelationshipOf))
  {
    if objs != [] {
      SyncRunSelects(l, objs[..|objs| - 1]);
      SelectAppend(l.tactics, objs, TacticOf);
      SelectAppend(l.techniques, objs, TechniqueOf);
      SelectAppend(l.software, objs, SoftwareOf);
      SelectAppend(l.groups, objs, GroupOf);
      SelectAppend(l.relationships, objs, RelationshipOf);
    }
  }

  /** `ATTCKnowledge`, with its five lists. */
  class Knowledge {
    var tactics: seq<Tactic>
    var techniques: seq<Technique>
    var software: seq<Software>
    var groups: seq<Group>
    var relationships: seq<Relationship>

    constructor ()
      ensures tactics == [] && techniques == [] && software == [] && groups == [] && relationships == []
    {
      tactics, techniques, software, groups, relationships := [], [], [], [], [];
    }

    function State(): Lists
      reads this
    {
      Lists(tactics, techniques, software, groups, relationships)
    }

    /** `sync` on a decoded bundle: `data.get('objects', [])`, so a bundle
        without objects appends nothing; each list grows by the objects of its
        kind, in bundle order. */
    method Sync(bundle: Bundle)
      modifies this
      ensures State() == SyncRun(old(State()), bundle.objects.GetOr([]))
      ensures var objects := bundle.objects.GetOr([]);
              tactics == old(tactics) + Select(objects, TacticOf)
              && techniques == old(techniques) + Select(objects, TechniqueOf)
              && software == old(software) + Select(objects, SoftwareOf)
              && groups == old(groups) + Select(objects, GroupOf)
              && relationships == old(relationships) + Select(objects, RelationshipOf)
    {
      var objects := bundle.objects.GetOr([]);
      var i := 0;
      while i < |objects|
        invariant 0 <= i <= |objects|
        invariant State() == SyncRun(old(State()), objects[..i])
      {
        SyncObject(objects[i]);
        assert objects[..i + 1][..i] == objects[..i];
        i := i + 1;
      }
      assert objects[..|objects|] == objects;
      SyncRunSelects(old(State()), objects);
    }

    /** The body of the loop: the `if`/`elif` chain on `obj.get('type')`. */
    method SyncObject(obj: RawObject)
      modifies this
      ensures State() == SyncStep(old(State()), obj)
    {
      if obj.objType == Some("x-mitre-tactic") {
        tactics := tactics + [MakeTactic(obj)];
      } else if obj.objType == Some("attack-pattern") {
        techniques := techniques + [MakeTechnique(obj)];
      } else if obj.objType == Some("intrusion-set") {
        groups := groups + [MakeGroup(obj)];
      } else if obj.objType in {Some("tool"), Some("malware"), Some("software")} {
        software := software + [MakeSoftware(obj)];
      } else if obj.objType == Some("relationship") {
        relationships := relationships + [MakeRelationship(obj)];
      }
    }
  }
}
