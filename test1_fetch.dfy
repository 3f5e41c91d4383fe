/**
 * `fetch_attck_data` of scripts/mitre-bloodhound-test1.py: the three ATT&CK
 * domains (Enterprise, PRE-ATT&CK, Mobile) are fetched in turn, and every
 * object of every fetched bundle is classified by its `type` and appended to
 * one of five lists. A domain whose download or decoding failed is skipped.
 *
 * Canonical identifiers follow this script's own policy: the first external
 * reference whose `source_name` starts with "mitre", else the first reference,
 * else the object's STIX id.
 */
module Test1Fetch {
  import opened Wrappers
  import opened Strings
  import opened Stix

  datatype Tactic = Tactic(
    name: string, description: string, domains: seq<string>, id: Option<string>,
    wiki: Option<string>, reference: Option<ExternalReference>,
    created: Option<string>, modified: Option<string>)

  datatype Technique = Technique(
    name: string, description: string, tactics: seq<Option<string>>, platforms: seq<string>,
    id: Option<string>, wiki: Option<string>, reference: Option<ExternalReference>,
    created: Option<string>, modified: Option<string>)

  datatype Group = Group(
    name: string, description: string, aliases: seq<string>, id: Option<string>,
    wiki: Option<string>, reference: Option<ExternalReference>,
    created: Option<string>, modified: Option<string>)

  datatype Software = Software(
    name: string, description: string, aliases: seq<string>, softwareType: string,
    id: Option<string>, wiki: Option<string>, reference: Option<ExternalReference>,
    created: Option<string>, modified: Option<string>)

  /** A "uses" relationship between two STIX ids, resolved only when pushed. */
  datatype Relationship = Relationship(sourceId: Option<string>, targetId: Option<string>, relType: string)

  /** The dictionary the function returns, one list per key. */
  datatype AttckData = AttckData(
    tactics: seq<Tactic>, techniques: seq<Technique>, groups: seq<Group>,
    software: seq<Software>, relationships: seq<Relationship>)

  /** `stix_object_index[obj["id"]]` raises `KeyError` for a classified object without an id. */
  datatype FetchError = MissingStixId(objType: string)

  /** The domains in the order they are fetched. */
  const Domains: seq<string> := ["Enterprise", "PRE-ATT&CK", "Mobile"]

  const NoData := AttckData([], [], [], [], [])

  // ---------------------------------------------------------------------------
  // Reference resolution
  // ---------------------------------------------------------------------------

  /** What the reference scan assigns to `mitre_id`, `mitre_url` and `reference_obj`. */
  datatype Resolution = Resolution(mitreId: Option<string>, mitreUrl: Option<string>, reference: Option<ExternalReference>)

  /** `ref.get("source_name", "").startswith("mitre")`. */
  predicate IsMitreSource(r: ExternalReference) {
    StartsWith(r.sourceName.GetOr(""), "mitre")
  }

  /** The first reference whose source name starts with "mitre". */
  function FirstMitreReference(refs: seq<ExternalReference>): Option<ExternalReference> {
    if refs == [] then None
    else if IsMitreSource(refs[0]) then Some(refs[0])
    else FirstMitreReference(refs[1..])
  }

  /** The scan with its fallback to the first reference. */
  function ResolveReferences(refs: seq<ExternalReference>): Resolution {
    match FirstMitreReference(refs)
    case Some(r) => Resolution(r.externalId, r.url, Some(r))
    case None =>
      if refs == [] then Resolution(None, None, None)
      else Resolution(refs[0].externalId, refs[0].url, Some(refs[0]))
  }

  /** `mitre_id if mitre_id else obj.get("id")`: an absent or empty external id falls back to the STIX id. */
  function EntityId(res: Resolution, stixId: Option<string>): Option<string> {
    if TruthyStr(res.mitreId) then res.mitreId else stixId
  }

  /** The first "mitre" reference is chosen, and the scan stops there. */
  lemma {:induction false} ResolveFirstMitre(refs: seq<ExternalReference>, k: nat)
    requires k < |refs| && IsMitreSource(refs[k])
    requires forall j :: 0 <= j < k ==> !IsMitreSource(refs[j])
    ensures ResolveReferences(refs) == Resolution(refs[k].externalId, refs[k].url, Some(refs[k]))
  {
    FirstMitreAt(refs, k);
  }

  lemma {:induction false} FirstMitreAt(refs: seq<ExternalReference>, k: nat)
    requires k < |refs| && IsMitreSource(refs[k])
    requires forall j :: 0 <= j < k ==> !IsMitreSource(refs[j])
    ensures FirstMitreReference(refs) == Some(refs[k])
  {
    if k > 0 {
      FirstMitreAt(refs[1..], k - 1);
    }
  }

  lemma {:induction false} NoMitreReference(refs: seq<ExternalReference>)
    requires forall j :: 0 <= j < |refs| ==> !IsMitreSource(refs[j])
    ensures FirstMitreReference(refs) == None
  {
    if refs != [] {
      NoMitreReference(refs[1..]);
    }
  }

  /** Without a "mitre" reference the first reference supplies id and url; without
      any reference nothing is chosen, and the entity id is the STIX id. */
  lemma ResolveWithoutMitre(refs: seq<ExternalReference>, stixId: Option<string>)
    requires forall j :: 0 <= j < |refs| ==> !IsMitreSource(refs[j])
    ensures refs == [] ==> ResolveReferences(refs) == Resolution(None, None, None)
                           && EntityId(ResolveReferences(refs), stixId) == stixId
    ensures refs != [] ==> ResolveReferences(refs) == Resolution(refs[0].externalId, refs[0].url, Some(refs[0]))
  {
    NoMitreReference(refs);
  }

  /** The scan loop: the for-break over `ext_refs` followed by the fallback. */
  method ScanReferences(refs: seq<ExternalReference>)
    returns (mitreId: Option<string>, mitreUrl: Option<string>, referenceObj: Option<ExternalReference>)
    ensures Resolution(mitreId, mitreUrl, referenceObj) == ResolveReferences(refs)
  {
    mitreId, mitreUrl, referenceObj := None, None, None;
    var i := 0;
    while i < |refs|
      invariant 0 <= i <= |refs|
      invariant FirstMitreReference(refs) == FirstMitreReference(refs[i..])
      invariant referenceObj == None && mitreId == None && mitreUrl == None
    {
      assert refs[i..][1..] == refs[i + 1..];
      if IsMitreSource(refs[i]) {
        mitreId := refs[i].externalId;
        mitreUrl := refs[i].url;
        referenceObj := Some(refs[i]);
        break;
      }
      i := i + 1;
    }
    if referenceObj.None? && |refs| > 0 {
      referenceObj := Some(refs[0]);
      mitreId := if TruthyStr(mitreId) then mitreId else refs[0].externalId;
      mitreUrl := if TruthyStr(mitreUrl) then mitreUrl else refs[0].url;
    }
  }

  // ---------------------------------------------------------------------------
  // Classification of one object
  // ---------------------------------------------------------------------------

  /** Kill-chain phases whose `kill_chain_name` starts with "mitre", as their phase names. */
  function MitrePhases(phases: seq<KillChainPhase>): (r: seq<Option<string>>)
    ensures |r| <= |phases|
    ensures forall x :: x in r <==>
              exists i :: 0 <= i < |phases| && IsMitreChain(phases[i]) && phases[i].phaseName == x
  {
    if phases == [] then []
    else
      var rest := MitrePhases(phases[1..]);
      assert forall i :: 0 < i < |phases| ==> phases[i] == phases[1..][i - 1];
      if IsMitreChain(phases[0]) then [phases[0].phaseName] + rest else rest
  }

  predicate IsMitreChain(p: KillChainPhase) {
    StartsWith(p.killChainName.GetOr(""), "mitre")
  }

  /** The filter keeps input order: it distributes over concatenation. */
  lemma {:induction false} MitrePhasesConcat(a: seq<KillChainPhase>, b: seq<KillChainPhase>)
    ensures MitrePhases(a + b) == MitrePhases(a) + MitrePhases(b)
  {
    if a == [] {
      assert a + b == b;
    } else {
      assert (a + b)[0] == a[0];
      assert (a + b)[1..] == a[1..] + b;
      MitrePhasesConcat(a[1..], b);
    }
  }

  function MakeTactic(domain: string, o: RawObject): Tactic {
    var res := ResolveReferences(References(o));
    Tactic(o.name.GetOr(""), o.description.GetOr(""), [domain], EntityId(res, o.id),
           res.mitreUrl, res.reference, o.created, o.modified)
  }

  function MakeTechnique(o: RawObject): Technique {
    var res := ResolveReferences(References(o));
    Technique(o.name.GetOr(""), o.description.GetOr(""), MitrePhases(o.killChainPhases.GetOr([])),
              o.platforms.GetOr([]), EntityId(res, o.id), res.mitreUrl, res.reference, o.created, o.modified)
  }

  function MakeGroup(o: RawObject): Group {
    var res := ResolveReferences(References(o));
    Group(o.name.GetOr(""), o.description.GetOr(""), o.aliases.GetOr([]), EntityId(res, o.id),
          res.mitreUrl, res.reference, o.created, o.modified)
  }

  /** `x_mitre_aliases or aliases or []`. */
  function SoftwareAliases(o: RawObject): (r: seq<string>)
    ensures TruthyList(o.mitreAliases) ==> r == o.mitreAliases.value
    ensures !TruthyList(o.mitreAliases) && TruthyList(o.aliases) ==> r == o.aliases.value
    ensures r == [] <==> !TruthyList(o.mitreAliases) && !TruthyList(o.aliases)
  {
    if TruthyList(o.mitreAliases) then o.mitreAliases.value
    else if TruthyList(o.aliases) then o.aliases.value
    else []
  }

  function MakeSoftware(o: RawObject): (s: Software)
    ensures s.softwareType == "Tool" <==> o.objType == Some("tool")
    ensures s.softwareType == "Tool" || s.softwareType == "Malware"
  {
    var res := ResolveReferences(References(o));
    Software(o.name.GetOr(""), o.description.GetOr(""), SoftwareAliases(o),
             if o.objType == Some("tool") then "Tool" else "Malware",
             EntityId(res, o.id), res.mitreUrl, res.reference, o.created, o.modified)
  }

  /** The object types that become entities and are entered in the STIX index. */
  predicate IsEntityType(o: RawObject) {
    o.objType == Some("x-mitre-tactic") || o.objType == Some("attack-pattern")
    || o.objType == Some("intrusion-set") || o.objType == Some("tool") || o.objType == Some("malware")
  }

  predicate IsUsesRelationship(o: RawObject) {
    o.objType == Some("relationship") && o.relationshipType == Some("uses")
  }

  /** What one object contributes: at most one element, in the list its type selects. */
  function Contribution(domain: string, o: RawObject): AttckData {
    if o.objType == Some("x-mitre-tactic") then NoData.(tactics := [MakeTactic(domain, o)])
    else if o.objType == Some("attack-pattern") then NoData.(techniques := [MakeTechnique(o)])
    else if o.objType == Some("intrusion-set") then NoData.(groups := [MakeGroup(o)])
    else if o.objType == Some("tool") || o.objType == Some("malware") then NoData.(software := [MakeSoftware(o)])
    else if IsUsesRelationship(o) then NoData.(relationships := [Relationship(o.sourceRef, o.targetRef, "uses")])
    else NoData
  }

  function Append(a: AttckData, b: AttckData): AttckData {
    AttckData(a.tactics + b.tactics, a.techniques + b.techniques, a.groups + b.groups,
              a.software + b.software, a.relationships + b.relationships)
  }

  /** One iteration of the object loop. */
  function ParseObject(domain: string, o: RawObject, acc: AttckData): Result<AttckData, FetchError> {
    if IsEntityType(o) && o.id.None? then Failure(MissingStixId(o.objType.value))
    else Success(Append(acc, Contribution(domain, o)))
  }

  /** The object loop of one domain, over a prefix of its objects. */
  function ParseObjects(domain: string, objs: seq<RawObject>, acc: AttckData): Result<AttckData, FetchError> {
    if objs == [] then Success(acc)
    else
      match ParseObjects(domain, objs[..|objs| - 1], acc)
      case Failure(e) => Failure(e)
      case Success(a) => ParseObject(domain, objs[|objs| - 1], a)
  }

  /** `attack_data.get("objects", [])`. */
  function BundleObjects(b: Bundle): seq<RawObject> {
    b.objects.GetOr([])
  }

  /** The domain loop over the first `n` domains; `None` is a failed download or decode. */
  function FetchUpTo(outcomes: seq<Option<Bundle>>, n: nat): Result<AttckData, FetchError>
    requires n <= |outcomes| <= |Domains|
  {
    if n == 0 then Success(NoData)
    else
      match FetchUpTo(outcomes, n - 1)
      case Failure(e) => Failure(e)
      case Success(acc) =>
        match outcomes[n - 1]
        case None => Success(acc)
        case Some(b) => ParseObjects(Domains[n - 1], BundleObjects(b), acc)
  }

  // ---------------------------------------------------------------------------
  // The order-preserving reference definition
  // ---------------------------------------------------------------------------

  /** The five lists collected from `objs`, defined object by object from the front. */
  function Collect(domain: string, objs: seq<RawObject>): AttckData {
    if objs == [] then NoData else Append(Contribution(domain, objs[0]), Collect(domain, objs[1..]))
  }

  /** A classified object lacking an id, which makes the loop raise. */
  predicate AllIdsPresent(objs: seq<RawObject>) {
    forall i :: 0 <= i < |objs| ==> IsEntityType(objs[i]) ==> objs[i].id.Some?
  }

  lemma AppendAssoc(a: AttckData, b: AttckData, c: AttckData)
    ensures Append(Append(a, b), c) == Append(a, Append(b, c))
  {
  }

  lemma AppendNoData(a: AttckData)
    ensures Append(a, NoData) == a && Append(NoData, a) == a
  {
  }

  /** Collecting from a concatenation is collecting from each part in turn: every list keeps bundle order. */
  lemma {:induction false} CollectConcat(domain: string, a: seq<RawObject>, b: seq<RawObject>)
    ensures Collect(domain, a + b) == Append(Collect(domain, a), Collect(domain, b))
  {
    if a == [] {
      assert a + b == b;
      AppendNoData(Collect(domain, b));
    } else {
      assert (a + b)[0] == a[0];
      assert (a + b)[1..] == a[1..] + b;
      CollectConcat(domain, a[1..], b);
      AppendAssoc(Contribution(domain, a[0]), Collect(domain, a[1..]), Collect(domain, b));
    }
  }

  lemma CollectOne(domain: string, o: RawObject)
    ensures Collect(domain, [o]) == Contribution(domain, o)
  {
    assert [o][1..] == [];
    AppendNoData(Contribution(domain, o));
  }

  /** The accumulating loop succeeds exactly when every classified object has an id,
      and then it appends the collected lists to what it started from. */
  lemma {:induction false} ParseObjectsCollects(domain: string, objs: seq<RawObject>, acc: AttckData)
    ensures ParseObjects(domain, objs, acc).Success? <==> AllIdsPresent(objs)
    ensures ParseObjects(domain, objs, acc).Success? ==>
              ParseObjects(domain, objs, acc).value == Append(acc, Collect(domain, objs))
  {
    if objs == [] {
      AppendNoData(acc);
    } else {
      var init, o := objs[..|objs| - 1], objs[|objs| - 1];
      ParseObjectsCollects(domain, init, acc);
      assert objs == init + [o];
      assert AllIdsPresent(objs) <==> AllIdsPresent(init) && (IsEntityType(o) ==> o.id.Some?) by {
        forall i | 0 <= i < |init| ensures objs[i] == init[i] { }
      }
      if ParseObjects(domain, init, acc).Success? {
        CollectConcat(domain, init, [o]);
        CollectOne(domain, o);
        AppendAssoc(acc, Collect(domain, init), Contribution(domain, o));
      }
    }
  }

  /** The tactic list holds exactly the tactic objects, each labelled with its domain. */
  lemma {:induction false} CollectTactics(domain: string, objs: seq<RawObject>, t: Tactic)
    ensures t in Collect(domain, objs).tactics <==>
              exists i :: 0 <= i < |objs| && objs[i].objType == Some("x-mitre-tactic") && t == MakeTactic(domain, objs[i])
  {
    if objs != [] {
      CollectTactics(domain, objs[1..], t);
      assert forall i :: 0 < i < |objs| ==> objs[i] == objs[1..][i - 1];
      if exists i :: 0 <= i < |objs| && objs[i].objType == Some("x-mitre-tactic") && t == MakeTactic(domain, objs[i]) {
        var i :| 0 <= i < |objs| && objs[i].objType == Some("x-mitre-tactic") && t == MakeTactic(domain, objs[i]);
        if i > 0 {
          assert objs[1..][i - 1] == objs[i];
        }
      }
    }
  }

  /** Only "uses" relationships are kept, every one of them. */
  lemma {:induction false} CollectRelationships(domain: string, objs: seq<RawObject>, r: Relationship)
    ensures r in Collect(domain, objs).relationships <==>
              exists i :: 0 <= i < |objs| && IsUsesRelationship(objs[i])
                          && r == Relationship(objs[i].sourceRef, objs[i].targetRef, "uses")
  {
    if objs != [] {
      CollectRelationships(domain, objs[1..], r);
      assert forall i :: 0 < i < |objs| ==> objs[i] == objs[1..][i - 1];
      if exists i :: 0 <= i < |objs| && IsUsesRelationship(objs[i])
                     && r == Relationship(objs[i].sourceRef, objs[i].targetRef, "uses") {
        var i :| 0 <= i < |objs| && IsUsesRelationship(objs[i])
                 && r == Relationship(objs[i].sourceRef, objs[i].targetRef, "uses");
        if i > 0 {
          assert objs[1..][i - 1] == objs[i];
        }
      }
    }
  }

  /** An object of any other type contributes nothing and raises nothing. */
  lemma UnrecognizedDropped(domain: string, objs: seq<RawObject>, o: RawObject, acc: AttckData)
    requires !IsEntityType(o) && !IsUsesRelationship(o)
    ensures ParseObjects(domain, objs + [o], acc) == ParseObjects(domain, objs, acc)
  {
    assert (objs + [o])[..|objs|] == objs;
    match ParseObjects(domain, objs, acc)
    case Failure(e) =>
    case Success(a) => AppendNoData(a);
  }

  /** The lists of the fetched domains, in domain order. */
  function CollectDomains(outcomes: seq<Option<Bundle>>, n: nat): AttckData
    requires n <= |outcomes| <= |Domains|
  {
    if n == 0 then NoData
    else Append(CollectDomains(outcomes, n - 1),
                match outcomes[n - 1]
                case None => NoData
                case Some(b) => Collect(Domains[n - 1], BundleObjects(b)))
  }

  predicate DomainsWellFormed(outcomes: seq<Option<Bundle>>, n: nat)
    requires n <= |outcomes|
  {
    forall d :: 0 <= d < n && outcomes[d].Some? ==> AllIdsPresent(BundleObjects(outcomes[d].value))
  }

  /** The whole fetch: it raises exactly when a fetched bundle holds a classified
      object without an id; otherwise its lists are the domains' lists in order. */
  lemma {:induction false} FetchCollects(outcomes: seq<Option<Bundle>>, n: nat)
    requires n <= |outcomes| <= |Domains|
    ensures FetchUpTo(outcomes, n).Success? <==> DomainsWellFormed(outcomes, n)
    ensures FetchUpTo(outcomes, n).Success? ==> FetchUpTo(outcomes, n).value == CollectDomains(outcomes, n)
  {
    if n > 0 {
      FetchCollects(outcomes, n - 1);
      match outcomes[n - 1]
      case None =>
        AppendNoData(CollectDomains(outcomes, n - 1));
      case Some(b) =>
        if FetchUpTo(outcomes, n - 1).Success? {
          ParseObjectsCollects(Domains[n - 1], BundleObjects(b), FetchUpTo(outcomes, n - 1).value);
        }
    }
  }

  /** Once the object loop has raised, the rest of the bundle does not matter. */
  lemma {:induction false} ParseFailureStays(domain: string, objs: seq<RawObject>, k: nat, acc: AttckData, e: FetchError)
    requires k <= |objs| && ParseObjects(domain, objs[..k], acc) == Failure(e)
    ensures ParseObjects(domain, objs, acc) == Failure(e)
    decreases |objs| - k
  {
    if k < |objs| {
      assert objs[..k + 1][..k] == objs[..k];
      ParseFailureStays(domain, objs, k + 1, acc, e);
    } else {
      assert objs[..k] == objs;
    }
  }

  /** Once a domain has raised, the later domains are never fetched. */
  lemma {:induction false} FetchFailureStays(outcomes: seq<Option<Bundle>>, n: nat, m: nat, e: FetchError)
    requires n <= m <= |outcomes| <= |Domains|
    requires FetchUpTo(outcomes, n) == Failure(e)
    ensures FetchUpTo(outcomes, m) == Failure(e)
    decreases m
  {
    if n < m {
      FetchFailureStays(outcomes, n, m - 1, e);
    }
  }

  /** A classified object without an id ends the whole fetch with its error. */
  lemma MissingIdEndsFetch(outcomes: seq<Option<Bundle>>, d: nat, i: nat, start: AttckData, acc: AttckData)
    requires d < |outcomes| == |Domains| && outcomes[d].Some?
    requires FetchUpTo(outcomes, d) == Success(start)
    requires i < |BundleObjects(outcomes[d].value)|
    requires ParseObjects(Domains[d], BundleObjects(outcomes[d].value)[..i], start) == Success(acc)
    requires IsEntityType(BundleObjects(outcomes[d].value)[i]) && BundleObjects(outcomes[d].value)[i].id.None?
    ensures FetchUpTo(outcomes, |outcomes|) == Failure(MissingStixId(BundleObjects(outcomes[d].value)[i].objType.value))
  {
    var objs := BundleObjects(outcomes[d].value);
    var e := MissingStixId(objs[i].objType.value);
    assert objs[..i + 1][..i] == objs[..i];
    assert ParseObjects(Domains[d], objs[..i + 1], start) == Failure(e);
    ParseFailureStays(Domains[d], objs, i + 1, start, e);
    FetchFailureStays(outcomes, d + 1, |outcomes|, e);
  }

  // ---------------------------------------------------------------------------
  // The loop itself
  // ---------------------------------------------------------------------------

  /** One pass of the object loop: classify `obj` and append it to the list its
      type selects; a classified object without an id raises. */
  method ParseOneObject(domainName: string, obj: RawObject, acc: AttckData) returns (r: Result<AttckData, FetchError>)
    ensures r == ParseObject(domainName, obj, acc)
  {
    AppendNoData(acc);
    var tacticsList, techniquesList, groupsList, softwareList, relationshipsList :=
      acc.tactics, acc.techniques, acc.groups, acc.software, acc.relationships;
    if obj.objType == Some("x-mitre-tactic") {
      var mitreId, mitreUrl, referenceObj := ScanReferences(References(obj));
      var tacticId := if TruthyStr(mitreId) then mitreId else obj.id;
      tacticsList := tacticsList + [Tactic(obj.name.GetOr(""), obj.description.GetOr(""), [domainName],
                                           tacticId, mitreUrl, referenceObj, obj.created, obj.modified)];
      if obj.id.None? {
        return Failure(MissingStixId("x-mitre-tactic"));
      }
    } else if obj.objType == Some("attack-pattern") {
      var phases := obj.killChainPhases.GetOr([]);
      var tacticPhases: seq<Option<string>> := [];
      var j := 0;
      while j < |phases|
        invariant 0 <= j <= |phases|
        invariant tacticPhases == MitrePhases(phases[..j])
      {
        assert phases[..j + 1] == phases[..j] + [phases[j]];
        MitrePhasesConcat(phases[..j], [phases[j]]);
        assert [phases[j]][1..] == [];
        if StartsWith(phases[j].killChainName.GetOr(""), "mitre") {
          tacticPhases := tacticPhases + [phases[j].phaseName];
        }
        j := j + 1;
      }
      assert phases[..|phases|] == phases;
      var mitreId, mitreUrl, referenceObj := ScanReferences(References(obj));
      var techniqueId := if TruthyStr(mitreId) then mitreId else obj.id;
      techniquesList := techniquesList + [Technique(obj.name.GetOr(""), obj.description.GetOr(""), tacticPhases,
                                                    obj.platforms.GetOr([]), techniqueId, mitreUrl, referenceObj,
                                                    obj.created, obj.modified)];
      if obj.id.None? {
        return Failure(MissingStixId("attack-pattern"));
      }
    } else if obj.objType == Some("intrusion-set") {
      var mitreId, mitreUrl, referenceObj := ScanReferences(References(obj));
      var groupId := if TruthyStr(mitreId) then mitreId else obj.id;
      groupsList := groupsList + [Group(obj.name.GetOr(""), obj.description.GetOr(""), obj.aliases.GetOr([]),
                                        groupId, mitreUrl, referenceObj, obj.created, obj.modified)];
      if obj.id.None? {
        return Failure(MissingStixId("intrusion-set"));
      }
    } else if obj.objType == Some("tool") || obj.objType == Some("malware") {
      var aliases := if TruthyList(obj.mitreAliases) then obj.mitreAliases.value
                     else if TruthyList(obj.aliases) then obj.aliases.value else [];
      var softwareType := if obj.objType == Some("tool") then "Tool" else "Malware";
      var mitreId, mitreUrl, referenceObj := ScanReferences(References(obj));
      var softwareId := if TruthyStr(mitreId) then mitreId else obj.id;
      softwareList := softwareList + [Software(obj.name.GetOr(""), obj.description.GetOr(""), aliases,
                                               softwareType, softwareId, mitreUrl, referenceObj,
                                               obj.created, obj.modified)];
      if obj.id.None? {
        return Failure(MissingStixId(obj.objType.value));
      }
    } else if obj.objType == Some("relationship") {
      if obj.relationshipType == Some("uses") {
        relationshipsList := relationshipsList + [Relationship(obj.sourceRef, obj.targetRef, "uses")];
      }
    }
    r := Success(AttckData(tacticsList, techniquesList, groupsList, softwareList, relationshipsList));
  }

  /** `fetch_attck_data`: `outcomes[d]` is the decoded bundle of `Domains[d]`, or
      `None` when its download or JSON decoding failed. */
  method FetchAttckData(outcomes: seq<Option<Bundle>>) returns (r: Result<AttckData, FetchError>)
    requires |outcomes| == |Domains|
    ensures r == FetchUpTo(outcomes, |outcomes|)
  {
    var data := NoData;
    var d := 0;
    while d < |outcomes|
      invariant 0 <= d <= |outcomes|
      invariant FetchUpTo(outcomes, d) == Success(data)
    {
      if outcomes[d].None? {
        d := d + 1;
        continue;
      }
      var domainName := Domains[d];
      var objs := BundleObjects(outcomes[d].value);
      ghost var start := data;
      var i := 0;
      while i < |objs|
        invariant 0 <= i <= |objs|
        invariant ParseObjects(domainName, objs[..i], start) == Success(data)
      {
        assert objs[..i + 1][..i] == objs[..i];
        var step := ParseOneObject(domainName, objs[i], data);
        if step.Failure? {
          MissingIdEndsFetch(outcomes, d, i, start, data);
          return step;
        }
        data := step.value;
        i := i + 1;
      }
      assert objs[..|objs|] == objs;
      d := d + 1;
    }
    r := Success(data);
  }
}
