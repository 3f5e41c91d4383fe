/**
 * The raw ATT&CK bundle as the three ingestion scripts read it: OASIS STIX 2.1
 * objects (identifiers of the form `object-type--UUID`, section 2.8), their
 * external references (section 2.5) and kill-chain phases (section 2.10).
 *
 * Each field a script reads is an `Option`: `None` is a key absent from the
 * decoded JSON object. Fields whose value the scripts only pass through are
 * kept as `Json`.
 */
module Stix {
  import opened Wrappers
  import opened Strings
  import opened JsonValue

  /** One entry of `external_references`. `sourceId` and `sourceRef` are not STIX
      fields; one of the scripts looks them up all the same. */
  datatype ExternalReference = ExternalReference(
    sourceName: Option<string>,
    externalId: Option<string>,
    url: Option<string>,
    description: Option<string>,
    sourceId: Option<string>,
    sourceRef: Option<string>)

  /** One entry of `kill_chain_phases`. */
  datatype KillChainPhase = KillChainPhase(killChainName: Option<string>, phaseName: Option<string>)

  /** One element of the bundle's `objects` array. */
  datatype RawObject = RawObject(
    objType: Option<string>,                   // type
    id: Option<string>,                        // id
    name: Option<string>,
    description: Option<string>,
    created: Option<string>,
    modified: Option<string>,
    externalReferences: Option<seq<ExternalReference>>,
    killChainPhases: Option<seq<KillChainPhase>>,
    platforms: Option<seq<string>>,            // x_mitre_platforms
    permissionsRequired: Option<seq<string>>,  // x_mitre_permissions_required
    defenseBypassed: Option<seq<string>>,      // x_mitre_defense_bypassed
    effectivePermissions: Option<seq<string>>, // x_mitre_effective_permissions
    networkRequirements: Option<Json>,         // x_mitre_network_requirements
    remoteSupport: Option<Json>,               // x_mitre_remote_support
    systemRequirements: Option<Json>,          // x_mitre_system_requirements
    detection: Option<string>,                 // x_mitre_detection
    dataSources: Option<seq<string>>,          // x_mitre_data_sources
    aliases: Option<seq<string>>,
    mitreAliases: Option<seq<string>>,         // x_mitre_aliases
    contributors: Option<seq<string>>,         // x_mitre_contributors
    relationshipType: Option<string>,          // relationship_type
    sourceRef: Option<string>,                 // source_ref
    targetRef: Option<string>)                 // target_ref

  /** The decoded bundle: `objects` may be absent. */
  datatype Bundle = Bundle(objects: Option<seq<RawObject>>)

  /** An object with every key absent; concrete objects are built from it by update. */
  function EmptyObject(): RawObject {
    RawObject(None, None, None, None, None, None, None, None, None, None, None, None,
              None, None, None, None, None, None, None, None, None, None, None)
  }

  /** `obj.get('external_references', [])`. */
  function References(o: RawObject): seq<ExternalReference> {
    o.externalReferences.GetOr([])
  }

  /** Python truthiness of an optional string: `None` and `''` are falsy. */
  predicate TruthyStr(o: Option<string>) {
    o.Some? && o.value != ""
  }

  /** Python truthiness of an optional list: `None` and `[]` are falsy. */
  predicate TruthyList<T>(o: Option<seq<T>>) {
    o.Some? && o.value != []
  }

  /** The reference as the decoded JSON object it came from (present keys only). */
  function ReferenceJson(r: ExternalReference): Json {
    JObj((if r.sourceName.Some? then map["source_name" := JStr(r.sourceName.value)] else map[])
       + (if r.externalId.Some? then map["external_id" := JStr(r.externalId.value)] else map[])
       + (if r.url.Some? then map["url" := JStr(r.url.value)] else map[])
       + (if r.description.Some? then map["description" := JStr(r.description.value)] else map[])
       + (if r.sourceId.Some? then map["source_id" := JStr(r.sourceId.value)] else map[])
       + (if r.sourceRef.Some? then map["source_ref" := JStr(r.sourceRef.value)] else map[]))
  }

  function ReferencesJson(rs: seq<ExternalReference>): (r: Json)
    ensures r.JArr? && |r.items| == |rs|
  {
    JArr(seq(|rs|, i requires 0 <= i < |rs| => ReferenceJson(rs[i])))
  }

  /** The graph labels the push scripts give an object by the type part of its
      STIX id: groups reuse BloodHound's Group, techniques GPO, software
      Computer and tactics OU. Any other prefix has no label. */
  function LabelOfStixId(stixId: string): (r: Option<string>)
    ensures r == Some("Group") <==> StartsWith(stixId, "intrusion-set--")
    ensures r == Some("GPO") <==> StartsWith(stixId, "attack-pattern--")
    ensures r == Some("Computer") <==> StartsWith(stixId, "malware--") || StartsWith(stixId, "tool--")
    ensures r == Some("OU") <==> StartsWith(stixId, "x-mitre-tactic--")
    ensures r.None? <==> !KnownStixPrefix(stixId)
  {
    KnownPrefixHeads(stixId);
    if StartsWith(stixId, "intrusion-set--") then Some("Group")
    else if StartsWith(stixId, "attack-pattern--") then Some("GPO")
    else if StartsWith(stixId, "malware--") || StartsWith(stixId, "tool--") then Some("Computer")
    else if StartsWith(stixId, "x-mitre-tactic--") then Some("OU")
    else None
  }

  /** The five prefixes begin with five different letters, so at most one applies. */
  lemma KnownPrefixHeads(s: string)
    ensures StartsWith(s, "intrusion-set--") ==> s[0] == 'i'
    ensures StartsWith(s, "attack-pattern--") ==> s[0] == 'a'
    ensures StartsWith(s, "malware--") ==> s[0] == 'm'
    ensures StartsWith(s, "tool--") ==> s[0] == 't'
    ensures StartsWith(s, "x-mitre-tactic--") ==> s[0] == 'x'
  {
    forall p: string | |p| > 0 && StartsWith(s, p) ensures s[0] == p[0] {
      assert s[..|p|][0] == s[0];
    }
  }

  predicate KnownStixPrefix(stixId: string) {
    StartsWith(stixId, "intrusion-set--") || StartsWith(stixId, "attack-pattern--")
    || StartsWith(stixId, "malware--") || StartsWith(stixId, "tool--")
    || StartsWith(stixId, "x-mitre-tactic--")
  }

  // ---------------------------------------------------------------------------
  // The exact "mitre-attack" lookup (scripts/mitre-bloodhound-test2.py and
  // scripts/ATTCKnowledge-push.py)
  // ---------------------------------------------------------------------------

  predicate IsMitreAttack(r: ExternalReference) {
    r.sourceName == Some("mitre-attack")
  }

  /** The reference the early-return scans stop at. */
  function FirstMitreAttack(refs: seq<ExternalReference>): Option<ExternalReference> {
    if refs == [] then None
    else if IsMitreAttack(refs[0]) then Some(refs[0])
    else FirstMitreAttack(refs[1..])
  }

  /** The scan returns the first "mitre-attack" reference, and nothing when there is none. */
  lemma {:induction false} FirstMitreAttackIs(refs: seq<ExternalReference>, k: nat)
    requires k <= |refs|
    requires forall j :: 0 <= j < k ==> !IsMitreAttack(refs[j])
    ensures k == |refs| ==> FirstMitreAttack(refs) == None
    ensures k < |refs| && IsMitreAttack(refs[k]) ==> FirstMitreAttack(refs) == Some(refs[k])
  {
    if k > 0 {
      FirstMitreAttackIs(refs[1..], k - 1);
    }
  }

  /** The comprehension of `get_references`. */
  function NonMitreAttack(refs: seq<ExternalReference>): seq<ExternalReference> {
    if refs == [] then []
    else (if IsMitreAttack(refs[0]) then [] else [refs[0]]) + NonMitreAttack(refs[1..])
  }

  /** The references `get_references` leaves out. */
  function OnlyMitreAttack(refs: seq<ExternalReference>): seq<ExternalReference> {
    if refs == [] then []
    else (if IsMitreAttack(refs[0]) then [refs[0]] else []) + OnlyMitreAttack(refs[1..])
  }

  /** The kept references are exactly those not named "mitre-attack" (a missing
      name included), and with the dropped ones they make up the input. */
  lemma {:induction false} ReferencesPartition(refs: seq<ExternalReference>)
    ensures forall r :: r in NonMitreAttack(refs) <==> r in refs && !IsMitreAttack(r)
    ensures forall r :: r in OnlyMitreAttack(refs) <==> r in refs && IsMitreAttack(r)
    ensures multiset(NonMitreAttack(refs)) + multiset(OnlyMitreAttack(refs)) == multiset(refs)
  {
    if refs != [] {
      ReferencesPartition(refs[1..]);
      assert refs == [refs[0]] + refs[1..];
    }
  }

  /** The comprehension keeps input order. */
  lemma {:induction false} NonMitreAttackConcat(a: seq<ExternalReference>, b: seq<ExternalReference>)
    ensures NonMitreAttack(a + b) == NonMitreAttack(a) + NonMitreAttack(b)
  {
    if a == [] {
      assert a + b == b;
    } else {
      assert (a + b)[0] == a[0];
      assert (a + b)[1..] == a[1..] + b;
      NonMitreAttackConcat(a[1..], b);
    }
  }

  // ---------------------------------------------------------------------------
  // Filter passes over the bundle
  // ---------------------------------------------------------------------------

  /** The element an `if` appends, as a list of zero or one. */
  function Listed<T>(x: Option<T>): (r: seq<T>)
    ensures x.Some? ==> r == [x.value]
    ensures x.None? ==> r == []
  {
    match x
    case Some(y) => [y]
    case None => []
  }

  /** One filter pass: the elements `f` accepts, converted, in input order. */
  function Select<S, T>(xs: seq<S>, f: S -> Option<T>): (r: seq<T>)
    ensures |r| <= |xs|
  {
    if xs == [] then [] else Select(xs[..|xs| - 1], f) + Listed(f(xs[|xs| - 1]))
  }

  /** One more element of the input: the pass a loop has made so far grows by that element's result. */
  lemma SelectStep<S, T>(xs: seq<S>, i: nat, f: S -> Option<T>)
    requires i < |xs|
    ensures Select(xs[..i + 1], f) == Select(xs[..i], f) + Listed(f(xs[i]))
  {
    assert xs[..i + 1][..i] == xs[..i];
  }

  /** The step a loop takes when it appends to a list that held `acc` before the loop. */
  lemma SelectGrow<S, T>(acc: seq<T>, xs: seq<S>, i: nat, f: S -> Option<T>)
    requires i < |xs|
    ensures acc + Select(xs[..i + 1], f) == acc + Select(xs[..i], f) + Listed(f(xs[i]))
  {
    SelectStep(xs, i, f);
  }

  /** The same step, after an accumulator. */
  lemma SelectAppend<S, T>(acc: seq<T>, xs: seq<S>, f: S -> Option<T>)
    requires xs != []
    ensures acc + Select(xs, f) == acc + Select(xs[..|xs| - 1], f) + Listed(f(xs[|xs| - 1]))
  {
  }

  /** A pass over a concatenation is the two passes one after the other. */
  lemma {:induction false} SelectConcat<S, T>(a: seq<S>, b: seq<S>, f: S -> Option<T>)
    ensures Select(a + b, f) == Select(a, f) + Select(b, f)
  {
    if b == [] {
      assert a + b == a;
    } else {
      assert (a + b)[..|a + b| - 1] == a + b[..|b| - 1];
      assert (a + b)[|a + b| - 1] == b[|b| - 1];
      SelectConcat(a, b[..|b| - 1], f);
    }
  }

  /** A pass keeps exactly what `f` accepts. */
  lemma {:induction false} SelectMembers<S, T>(xs: seq<S>, f: S -> Option<T>, y: T)
    ensures y in Select(xs, f) <==> exists i :: 0 <= i < |xs| && f(xs[i]) == Some(y)
  {
    if xs != [] {
      var init, last := xs[..|xs| - 1], xs[|xs| - 1];
      SelectMembers(init, f, y);
      assert Select(xs, f) == Select(init, f) + Listed(f(last));
      if y in Select(xs, f) {
        if y in Select(init, f) {
          var i :| 0 <= i < |init| && f(init[i]) == Some(y);
          assert xs[i] == init[i];
        } else {
          assert f(xs[|xs| - 1]) == Some(y);
        }
      } else {
        forall i | 0 <= i < |xs| ensures f(xs[i]) != Some(y) {
          if i < |init| {
            assert xs[i] == init[i];
          }
        }
      }
    }
  }
}
