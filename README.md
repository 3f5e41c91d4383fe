# MITRE ATT&CK to BloodHound pipelines, modelled in Dafny

The repository's scripts load the MITRE ATT&CK knowledge base (a STIX 2.1
bundle of tactics, techniques, intrusion sets, tools, malware and
relationships) and write it into the Neo4j database behind BloodHound. They
then link BloodHound's identity graph (users, groups, computers, sessions,
privileges) to that knowledge with heuristic Cypher rules. The same pipeline
exists in three copies that have drifted apart, plus a rule engine and a
small REST client. This project models each of them and proves what their
code promises:

- `Test1Fetch` and `Test1Push` model scripts/mitre-bloodhound-test1.py.
  `fetch_attck_data` classifies the objects of three domains and resolves ids
  through the first reference whose source name starts with "mitre", falling
  back to the first reference and then to the STIX id. `add_node` chooses the
  merge key. `push_to_bloodhound` labels relationship endpoints by STIX
  prefix and resolves them by linear search.
- `Test2Knowledge` and `Test2Queries` model scripts/mitre-bloodhound-test2.py.
  They cover the exact "mitre-attack" lookups, `ATTCKnowledge.sync` (one
  filter pass per kind) and `generate_neo4j_queries`. The generated
  statements are kept as abstract operations together with their exact text.
- `PushKnowledge` and `PushGraph` model scripts/ATTCKnowledge-push.py.
  `sync` runs a single `if`/`elif` loop. `create_node` filters properties and
  merges on `id`, `create_relationship` matches both endpoints and then
  merges, and `push_attck_to_bloodhound` runs the node loops, the
  technique-to-tactic links and the declared relationships.
- `MapRules`, `MapLaws`, `MapExamples` and `Mapper` model
  scripts/mitre-bloodhound-map.py. Each Cypher rule is data: a pattern, the
  edge type it creates, the label of its targets and their ids. The edges a
  rule adds are a set comprehension over a finite labelled graph, and
  variable-length patterns are bounded trails of 1 to 10 edges.
  `BloodhoundToMitreMapper` is a class whose edge set grows rule by rule.
- `BloodHoundApi` and `CypherDogClient` model scripts/cypherdog15.py. They
  cover the URI normalisation, the lazy token cache and its Bearer header,
  the query payload, the query texts and the projections of the answers.
  The HTTP server is an oracle: each call takes the server's answers as
  arguments, and the session's outgoing requests are recorded in order.

The database sits behind the abstract store of `GraphStore`. Nodes are a map
from `(label, key)` to properties, and edges are a set of 5-tuples (source
label, source key, type, target label, target key). `MERGE` is an upsert into
that map, and `SET` with a `null` value removes the property. `MATCH ...
MERGE` of an edge adds it only when both endpoint nodes exist. `Stix` holds
the raw STIX objects, with every key as an optional field, together with
Python truthiness and the generic filter pass `Select` that the loaders are
specified by.

## Model

| member | source | states |
|---|---|---|
| Stix.LabelOfStixId | scripts/ATTCKnowledge-push.py:235-245 | intrusion-set, attack-pattern, malware/tool and x-mitre-tactic prefixes give Group, GPO, Computer and OU, each an iff; no label exactly when none of the known prefixes applies (also the chains of mitre-bloodhound-test1.py:411-429) |
| Stix.FirstMitreAttackIs | scripts/mitre-bloodhound-test2.py:211-223 | the early-return scan yields the first reference named exactly "mitre-attack", and nothing when none is |
| Stix.ReferencesPartition | scripts/mitre-bloodhound-test2.py:225-227 | the kept references are exactly those not named "mitre-attack" (a missing name included); with the dropped ones they are the input as a multiset |
| Stix.NonMitreAttackConcat | scripts/mitre-bloodhound-test2.py:227 | the comprehension keeps input order: it distributes over concatenation |
| JsonValue.EmptyLikeIsFalsy | scripts/ATTCKnowledge-push.py:189 | `v in (None, '', [], {})` holds exactly for the falsy values that are neither booleans nor numbers |
| Strings.IntToDecimalRoundTrip | scripts/cypherdog15.py:77 | the rendered depth bound reads back as the number given |
| GraphStore.SetProps | scripts/ATTCKnowledge-push.py:190 | `SET n += $props`: named properties are overwritten, a null one is removed, all others are kept |
| GraphStore.ApplyNodeWritesAt | scripts/mitre-bloodhound-test1.py:309 | after a run of MERGE/SET writes a node exists iff it existed or was written, and holds its old properties with the writes to it applied in order |
| GraphStore.ApplyNodeWritesTwice | scripts/ATTCKnowledge-push.py:190 | issuing the same node writes a second time changes nothing |
| GraphStore.MatchMergeEdge | scripts/ATTCKnowledge-push.py:194-197 | the edge is added iff both endpoint nodes exist; nodes are untouched and the edges only grow |
| GraphStore.Store.MergeNode | scripts/mitre-bloodhound-test1.py:309 | the node map becomes the upsert of the write; edges are unchanged |
| GraphStore.Store.MergeEdge | scripts/mitre-bloodhound-test1.py:322-324 | the store becomes `MatchMergeEdge` of its old state |
| Test1Fetch.ResolveFirstMitre | scripts/mitre-bloodhound-test1.py:126-132 | the first reference whose source name starts with "mitre" supplies id, url and reference, and the scan stops there |
| Test1Fetch.ResolveWithoutMitre | scripts/mitre-bloodhound-test1.py:134-137 | without a "mitre" reference the first reference supplies id and url; without references nothing is chosen |
| Test1Fetch.ScanReferences | scripts/mitre-bloodhound-test1.py:122-137 | the for-break loop and its fallback compute `ResolveReferences` |
| Test1Fetch.MitrePhases | scripts/mitre-bloodhound-test1.py:152-156 | a phase name is listed iff some phase has it and a kill-chain name starting with "mitre" |
| Test1Fetch.MitrePhasesConcat | scripts/mitre-bloodhound-test1.py:152-156 | the phase filter keeps input order |
| Test1Fetch.SoftwareAliases | scripts/mitre-bloodhound-test1.py:214 | `x_mitre_aliases` when non-empty, else `aliases` when non-empty, else `[]` |
| Test1Fetch.MakeSoftware | scripts/mitre-bloodhound-test1.py:215 | the software type is "Tool" iff the object type is "tool", otherwise "Malware" |
| Test1Fetch.ParseObjectsCollects | scripts/mitre-bloodhound-test1.py:113-246 | the object loop succeeds iff every classified object has an id, and then appends the collected lists to what it started from |
| Test1Fetch.CollectTactics | scripts/mitre-bloodhound-test1.py:116-145 | the tactic list holds exactly the tactic objects, each with its domain |
| Test1Fetch.CollectRelationships | scripts/mitre-bloodhound-test1.py:239-246 | exactly the "uses" relationships are kept |
| Test1Fetch.CollectConcat | scripts/mitre-bloodhound-test1.py:113 | every list keeps bundle order |
| Test1Fetch.UnrecognizedDropped | scripts/mitre-bloodhound-test1.py:114-246 | an object of any other type contributes nothing and raises nothing |
| Test1Fetch.FetchCollects | scripts/mitre-bloodhound-test1.py:81-261 | the fetch raises iff a fetched bundle holds a classified object without an id; otherwise its lists are the domains' lists in domain order, a failed download contributing nothing |
| Test1Fetch.ParseFailureStays | scripts/mitre-bloodhound-test1.py:145 | once the object loop has raised, the rest of the bundle does not matter |
| Test1Fetch.FetchFailureStays | scripts/mitre-bloodhound-test1.py:90 | once a domain has raised, later domains do not matter |
| Test1Fetch.MissingIdEndsFetch | scripts/mitre-bloodhound-test1.py:145 | a classified object without an id ends the whole fetch with its KeyError |
| Test1Fetch.ParseOneObject | scripts/mitre-bloodhound-test1.py:114-246 | one pass of the loop body computes `ParseObject` |
| Test1Fetch.FetchAttckData | scripts/mitre-bloodhound-test1.py:69-261 | the nested domain and object loops compute `FetchUpTo` over all domains |
| Test1Push.EntitiesOf | scripts/mitre-bloodhound-test1.py:442-485 | each label searches the list of its own kind |
| Test1Push.AddNode | scripts/mitre-bloodhound-test1.py:301-315 | the merge key is the entity's id when truthy, else its name; with neither there is no write; the written properties are ID, name and description |
| Test1Push.WritesFromEntities | scripts/mitre-bloodhound-test1.py:369-402 | a node loop writes a key iff some entity of the list has that key |
| Test1Push.ResolveEndpointAt | scripts/mitre-bloodhound-test1.py:442-491 | the endpoint is the ID of the first entity that matches; an entity without a reference reached first raises; no match falls back to the STIX id |
| Test1Push.FindEndpoint | scripts/mitre-bloodhound-test1.py:442-448 | the search loop with its break computes `ResolveEndpoint` |
| Test1Push.RelationshipSkipped | scripts/mitre-bloodhound-test1.py:411-433 | a relationship is skipped iff one of its STIX ids has no known prefix |
| Test1Push.RelationshipEdgeShape | scripts/mitre-bloodhound-test1.py:405-433 | each endpoint's label comes from its own prefix and the type is always "Uses" |
| Test1Push.PushEdgesDecompose | scripts/mitre-bloodhound-test1.py:405-494 | the relationship loop never touches nodes and adds the produced edges to the old ones |
| Test1Push.ProducedEdges | scripts/mitre-bloodhound-test1.py:405-494 | an edge is produced iff some relationship before the first raise yields it between existing nodes |
| Test1Push.PushEdgesFailureStays | scripts/mitre-bloodhound-test1.py:446 | once the loop has raised, later relationships change nothing |
| Test1Push.PushNodes | scripts/mitre-bloodhound-test1.py:368-402 | after the push the nodes are the old ones with all entity writes applied, whether or not the relationship loop raised |
| Test1Push.PushTwice | scripts/mitre-bloodhound-test1.py:336-494 | pushing the same data twice leaves the store as pushing it once |
| Test1Push.PushNodeLoop | scripts/mitre-bloodhound-test1.py:369-375 | one node loop applies its writes in list order |
| Test1Push.PushAllNodes | scripts/mitre-bloodhound-test1.py:368-402 | techniques, groups, software, then tactics |
| Test1Push.PushRelationship | scripts/mitre-bloodhound-test1.py:405-494 | one pass of the relationship loop computes `PushEdgeStep` |
| Test1Push.PushToBloodHound | scripts/mitre-bloodhound-test1.py:336-494 | the push computes `PushSpec` |
| Test2Knowledge.ExternalIdUrl | scripts/mitre-bloodhound-test2.py:211-223 | with no reference whose source name is exactly "mitre-attack" both lookups are None; otherwise they are the external id and the url of the first such reference, each None when that reference lacks it |
| Test2Knowledge.PhaseNames | scripts/mitre-bloodhound-test2.py:146 | every phase name in order, with no kill-chain filter; `[]` when phases are absent or empty |
| Test2Knowledge.MitigationIs | scripts/mitre-bloodhound-test2.py:140-143 | the description of the first course of action with the technique's name, None when there is none |
| Test2Knowledge.Knowledge.constructor | scripts/mitre-bloodhound-test2.py:104-109 | the five lists start empty |
| Test2Knowledge.Knowledge.Sync | scripts/mitre-bloodhound-test2.py:111-209 | a bundle without `objects` raises and changes nothing; otherwise each list grows by its filter pass, in bundle order |
| Test2Knowledge.Knowledge.ParseTactics | scripts/mitre-bloodhound-test2.py:124-136 | the tactic list grows by the tactic pass; the other lists are unchanged |
| Test2Knowledge.Knowledge.ParseTechniques | scripts/mitre-bloodhound-test2.py:139-165 | the technique list grows by the technique pass with mitigation lookup |
| Test2Knowledge.Knowledge.ParseGroups | scripts/mitre-bloodhound-test2.py:169-181 | the group list grows by the group pass |
| Test2Knowledge.Knowledge.ParseSoftware | scripts/mitre-bloodhound-test2.py:185-198 | the software list grows by the tool and malware pass |
| Test2Knowledge.Knowledge.ParseRelationships | scripts/mitre-bloodhound-test2.py:202-209 | every relationship is appended, whatever its type |
| Test2Queries.Splice | scripts/mitre-bloodhound-test2.py:250 | a missing id is spliced as the text "None" |
| Test2Queries.RenderMergeTacticInjective | scripts/mitre-bloodhound-test2.py:250 | a tactic merge statement determines the id spliced into it |
| Test2Queries.MissingIdsMerge | scripts/mitre-bloodhound-test2.py:248-252 | two tactics without a "mitre-attack" reference produce the same statement |
| Test2Queries.LinkOps | scripts/mitre-bloodhound-test2.py:261-266 | one Tactic-USES-Technique link per tactic name of the technique |
| Test2Queries.TacticOpsAre | scripts/mitre-bloodhound-test2.py:248-252 | the i-th tactic statement merges the i-th tactic's id |
| Test2Queries.TechniqueOpsCount | scripts/mitre-bloodhound-test2.py:255-266 | the technique loops emit Σ(1 + number of tactic names) statements |
| Test2Queries.TechniqueOpsBlock | scripts/mitre-bloodhound-test2.py:255-266 | each technique's merge is followed directly by its links |
| Test2Queries.RelationshipOpsAre | scripts/mitre-bloodhound-test2.py:283-288 | the loop raises iff some relationship lacks its type; otherwise one statement per relationship with the type upper-cased |
| Test2Queries.QueriesCount | scripts/mitre-bloodhound-test2.py:245-289 | |tactic| + Σ(1 + |tech.tactic|) + |group| + |software| + |relationship| statements |
| Test2Queries.QueriesOrder | scripts/mitre-bloodhound-test2.py:245-289 | tactic statements first in tactic order, relationship statements last in relationship order |
| Test2Queries.RelationshipFailureStays | scripts/mitre-bloodhound-test2.py:287 | once a relationship has raised, later ones do not matter |
| Test2Queries.CypherDog.constructor | scripts/mitre-bloodhound-test2.py:237-238 | the mapper holds the knowledge it is given |
| Test2Queries.CypherDog.GenerateNeo4jQueries | scripts/mitre-bloodhound-test2.py:240-289 | the loops compute `Queries` of the five lists |
| Test2Queries.CypherDog.EmitTactics | scripts/mitre-bloodhound-test2.py:248-252 | appends one merge per tactic |
| Test2Queries.CypherDog.EmitTechniques | scripts/mitre-bloodhound-test2.py:255-266 | appends each technique's merge and its links |
| Test2Queries.CypherDog.EmitGroups | scripts/mitre-bloodhound-test2.py:269-273 | appends one merge per group |
| Test2Queries.CypherDog.EmitSoftware | scripts/mitre-bloodhound-test2.py:276-280 | appends one merge per software |
| Test2Queries.CypherDog.EmitRelationships | scripts/mitre-bloodhound-test2.py:283-288 | appends the relationship statements, or raises when one lacks its type |
| PushKnowledge.ExternalIdWiki | scripts/ATTCKnowledge-push.py:103-109 | id and wiki come from the first exact "mitre-attack" reference and default to "" |
| PushKnowledge.PhaseNames | scripts/ATTCKnowledge-push.py:120 | every phase name, `''` for a missing one; `[]` when phases are absent or empty |
| PushKnowledge.MakeTechnique | scripts/ATTCKnowledge-push.py:116-139 | the mitigation is always "" and the tactic list is every phase name |
| PushKnowledge.SoftwareOf | scripts/ATTCKnowledge-push.py:154 | software iff the type is tool, malware or software |
| PushKnowledge.MakeRelationship | scripts/ATTCKnowledge-push.py:175 | a relationship keeps every external reference |
| PushKnowledge.SyncPartition | scripts/ATTCKnowledge-push.py:101-176 | each recognised object lands in exactly one list; the rest are dropped |
| PushKnowledge.SyncRunSelects | scripts/ATTCKnowledge-push.py:101-176 | the single loop fills each list as a separate filter pass per kind would, in bundle order |
| PushKnowledge.Knowledge.constructor | scripts/ATTCKnowledge-push.py:85-90 | the five lists start empty |
| PushKnowledge.Knowledge.Sync | scripts/ATTCKnowledge-push.py:92-176 | the lists become `SyncRun` of the old lists over the bundle's objects (none when `objects` is missing) |
| PushKnowledge.Knowledge.SyncObject | scripts/ATTCKnowledge-push.py:102-176 | the `if`/`elif` chain appends the object to the list of its kind |
| PushGraph.KeepNonEmpty | scripts/ATTCKnowledge-push.py:189 | keeps exactly the properties that are not None, '', [] or {} |
| PushGraph.NodeWriteOf | scripts/ATTCKnowledge-push.py:187-192 | raises KeyError iff the `id` is missing or empty-like; otherwise merges on `(label, id)` with the filtered properties |
| PushGraph.NodeWriteOfRecord | scripts/ATTCKnowledge-push.py:189-192 | a record whose `id` is '' cannot be written; any other merges on its id |
| PushGraph.MergeKeepsOtherProps | scripts/ATTCKnowledge-push.py:190 | the filtered properties overwrite the ones they name and keep every other one |
| PushGraph.NodePhaseSucceeds | scripts/ATTCKnowledge-push.py:210-220 | the node calls raise nothing iff every request has an id, and then are the upserts of their writes in order |
| PushGraph.NodePhaseFails | scripts/ATTCKnowledge-push.py:192 | otherwise the first request without an id raises, after the writes before it |
| PushGraph.NodePhaseFailureStays | scripts/ATTCKnowledge-push.py:210-220 | after a raise, later calls are not made |
| PushGraph.NodePhaseConcat | scripts/ATTCKnowledge-push.py:210-220 | the second loop runs only when the first raised nothing |
| PushGraph.KeyedSegment | scripts/ATTCKnowledge-push.py:210-220 | a node loop succeeds iff no record's id is '', and record i is written as `(label, id)` |
| PushGraph.NodeRequestsKeyed | scripts/ATTCKnowledge-push.py:210-220 | all node calls succeed iff every record has an id |
| PushGraph.TacticsWritten | scripts/ATTCKnowledge-push.py:210-211 | every tactic is written as an OU node on its id |
| PushGraph.TechniquesWritten | scripts/ATTCKnowledge-push.py:213-214 | every technique is written as a GPO node on its id |
| PushGraph.SoftwareWritten | scripts/ATTCKnowledge-push.py:216-217 | every software is written as a Computer node on its id |
| PushGraph.GroupsWritten | scripts/ATTCKnowledge-push.py:219-220 | every group is written as a Group node on its id |
| PushGraph.EdgeOf | scripts/ATTCKnowledge-push.py:194-197 | the edge joins `(src_label, src_id)` to `(tgt_label, tgt_id)` with the type upper-cased |
| PushGraph.LinkEdgesIs | scripts/ATTCKnowledge-push.py:194-200 | the edge calls add exactly the requested edges whose endpoints exist, in any order, and touch no node |
| PushGraph.FindTacticIs | scripts/ATTCKnowledge-push.py:225 | the search yields the first tactic with exactly that name, nothing without one |
| PushGraph.TacticLinksMembers | scripts/ATTCKnowledge-push.py:223-227 | one technique's links are exactly those to the tactics found for its phase names |
| PushGraph.DerivedRequestsAre | scripts/ATTCKnowledge-push.py:222-227 | each derived link joins a technique (GPO) to the first tactic (OU) named by one of its phases, and every such pair gives a link |
| PushGraph.DeclaredRequest | scripts/ATTCKnowledge-push.py:228-233 | skipped iff either STIX id has no label; otherwise keyed by the raw STIX ids |
| PushGraph.PushWithIs | scripts/ATTCKnowledge-push.py:208-233 | the push succeeds iff every record has an id; then nodes are the writes applied and edges the linkable requests; a failed push adds no edge |
| PushGraph.PushTwice | scripts/ATTCKnowledge-push.py:208-233 | pushing the same knowledge again adds no node and no edge |
| PushGraph.RequestedEdgePresent | scripts/ATTCKnowledge-push.py:194-200 | after a successful push a requested edge between two pushed records is present |
| PushGraph.DerivedEdgePresent | scripts/ATTCKnowledge-push.py:222-227 | after a successful push each technique is linked to the first tactic named by each of its phases |
| PushGraph.UsesExampleSourceMissing | scripts/ATTCKnowledge-push.py:210-220 | in the example no node is keyed by the group's STIX id |
| PushGraph.DeclaredEdgeNeverLinked | scripts/ATTCKnowledge-push.py:228-233 | as written, the example's declared "uses" relationship is never linked: the push succeeds and adds no edge |
| PushGraph.ResolvedEdgePresent | scripts/ATTCKnowledge-push.py:228-233 | with STIX ids translated to the records' ids, every declared relationship between two pushed records is linked |
| PushGraph.ResolvedExampleLinked | scripts/ATTCKnowledge-push.py:228-233 | the translated push links G0006 USES T1003 in the example |
| PushGraph.CreateNode | scripts/ATTCKnowledge-push.py:187-192 | one call computes `NodeStep` and leaves edges unchanged |
| PushGraph.CreateRelationship | scripts/ATTCKnowledge-push.py:194-200 | the store becomes `MatchMergeEdge` of the request's edge |
| PushGraph.CreateNodes | scripts/ATTCKnowledge-push.py:210-211 | one node loop computes `NodePhase` |
| PushGraph.FindTacticByName | scripts/ATTCKnowledge-push.py:225 | the generator search computes `FindTactic` |
| PushGraph.LinkTechniques | scripts/ATTCKnowledge-push.py:222-227 | the nested loops add `DerivedRequests` |
| PushGraph.LinkPhases | scripts/ATTCKnowledge-push.py:223-227 | the inner loop adds one technique's links |
| PushGraph.LinkDeclared | scripts/ATTCKnowledge-push.py:228-233 | the loop adds the declared requests |
| PushGraph.PushNodes | scripts/ATTCKnowledge-push.py:209-220 | the four node loops compute `NodePhase` of all requests |
| PushGraph.PushAttckToBloodHound | scripts/ATTCKnowledge-push.py:208-233 | the push computes `PushSpec` |
| MapRules.TrailsFromIs | scripts/mitre-bloodhound-map.py:177 | `[*1..10]` enumerates exactly the trails of 1 to 10 edges |
| MapRules.Matched | scripts/mitre-bloodhound-map.py:177 | the nodes a pattern binds to its start variable are nodes of the graph |
| MapRules.Targets | scripts/mitre-bloodhound-map.py:51-52 | the nodes with the target label whose id is one of the listed ids |
| MapRules.RuleEdges | scripts/mitre-bloodhound-map.py:50-53 | a rule creates only edges of its one type, from matched nodes to its targets |
| MapRules.Apply | scripts/mitre-bloodhound-map.py:27-30 | a rule's MERGE adds its edges and changes no node |
| MapRules.RunRulesConcat | scripts/mitre-bloodhound-map.py:299-326 | running two lists of rules is running their concatenation |
| MapLaws.TrailsIgnore | scripts/mitre-bloodhound-map.py:200 | edges of a type the pattern does not allow never lie on its trails |
| MapLaws.TrailMatched | scripts/mitre-bloodhound-map.py:177 | a trail of at most ten edges ending where the pattern asks matches its start |
| MapLaws.MatchedMonotone | scripts/mitre-bloodhound-map.py:177 | a match survives added edges |
| MapLaws.MatchedIgnores | scripts/mitre-bloodhound-map.py:200 | edges of types a pattern does not traverse change none of its matches |
| MapLaws.RuleMonotone | scripts/mitre-bloodhound-map.py:50-53 | a rule's output only grows with the graph's edges |
| MapLaws.RuleIgnores | scripts/mitre-bloodhound-map.py:60-63 | a rule's output depends only on the nodes and on the edge types it reads |
| MapLaws.ApplyIdempotent | scripts/mitre-bloodhound-map.py:39 | re-running a rule that does not traverse the type it creates adds nothing |
| MapLaws.ApplyCommute | scripts/mitre-bloodhound-map.py:299-326 | two rules that do not read each other's type commute |
| MapLaws.RunRulesGrows | scripts/mitre-bloodhound-map.py:299-326 | running rules never removes an edge or changes a node, and adds only the types they create |
| MapLaws.LinkEdgeIn | scripts/mitre-bloodhound-map.py:51-53 | every matched node is linked to every target |
| MapLaws.RunRulesOrderFree | scripts/mitre-bloodhound-map.py:299-326 | rules that read none of the created types add what each adds on the original graph, in any order |
| MapLaws.OnlyUntypedPathReadsCreatedTypes | scripts/mitre-bloodhound-map.py:177 | the 23 rules create three types, and only the untyped path rule can traverse them |
| MapLaws.MappingsOrderFree | scripts/mitre-bloodhound-map.py:299-326 | any selection of the rules other than the untyped path rule, in any order, adds what each adds on the original graph |
| MapLaws.SimilarGroupsSymmetric | scripts/mitre-bloodhound-map.py:37-39 | the group-name rule links a to b iff it links b to a |
| MapLaws.SimilarGroupsReflexive | scripts/mitre-bloodhound-map.py:37-39 | every named Group is linked to itself, an unnamed one to nothing |
| MapLaws.SessionRulesNeedPrivilege | scripts/mitre-bloodhound-map.py:103-106 | a session rule adds nothing unless some session's user has admincount or its computer is highvalue |
| MapLaws.SessionRulesSides | scripts/mitre-bloodhound-map.py:103-131 | a privileged session gives its user T1021 and T1059 and its computer T1021 and TA0008, for each such node present |
| MapExamples.PathRuleMatches | scripts/mitre-bloodhound-map.py:177-180 | a user with a trail of at most ten edges to a highvalue group is matched |
| MapExamples.PathRuleHopBound | scripts/mitre-bloodhound-map.py:177-180 | on a chain of n memberships the user is mapped to TA0004 iff n is at most 10 |
| MapExamples.GroupRuleFirstMapsPath | scripts/mitre-bloodhound-map.py:299-326 | in the order of `run_all_mappings` the group rule's new edge makes the path rule fire |
| MapExamples.PathRuleFirstMissesPath | scripts/mitre-bloodhound-map.py:299-326 | in the other order the same user is not mapped: the untyped path rule depends on order |
| MapExamples.GenericAllMapsHolderOnly | scripts/mitre-bloodhound-map.py:50-53 | only the holder of GenericAll is mapped, not the object it controls |
| MapExamples.DomainControllerTestIsCaseSensitive | scripts/mitre-bloodhound-map.py:117-121 | "dc01" is not a domain controller, "DC01" is |
| MapExamples.SoftwareTestIgnoresCase | scripts/mitre-bloodhound-map.py:152-155 | "MimiKatz" is mapped to T1003 |
| Mapper.BloodhoundToMitreMapper.constructor | scripts/mitre-bloodhound-map.py:21-22 | the mapper starts on the given graph |
| Mapper.BloodhoundToMitreMapper.ExecuteRule | scripts/mitre-bloodhound-map.py:27-30 | the graph becomes `Apply` of the rule |
| Mapper.BloodhoundToMitreMapper.MapGroupsToMitreGroups | scripts/mitre-bloodhound-map.py:32-42 | the graph becomes the group rule run on the old graph |
| Mapper.BloodhoundToMitreMapper.MapPrivilegesToMitreTechniques | scripts/mitre-bloodhound-map.py:44-75 | the three privilege rules, in order |
| Mapper.BloodhoundToMitreMapper.MapUsersToMitreTechniques | scripts/mitre-bloodhound-map.py:77-109 | the three user rules, in order |
| Mapper.BloodhoundToMitreMapper.MapComputersToMitreTechniques | scripts/mitre-bloodhound-map.py:111-134 | the two computer rules, in order |
| Mapper.BloodhoundToMitreMapper.MapSoftwareToMitreTechniques | scripts/mitre-bloodhound-map.py:136-169 | the three software rules, in order |
| Mapper.BloodhoundToMitreMapper.MapAttackPathsToMitreTactics | scripts/mitre-bloodhound-map.py:171-192 | the two path-to-tactic rules, in order |
| Mapper.BloodhoundToMitreMapper.MapAttackPathsToMitreTechniques | scripts/mitre-bloodhound-map.py:194-215 | the two path-to-technique rules, in order |
| Mapper.BloodhoundToMitreMapper.MapObjectsToMitreTactics | scripts/mitre-bloodhound-map.py:217-249 | the three object-to-tactic rules, in order |
| Mapper.BloodhoundToMitreMapper.MapTopMitreTechniques | scripts/mitre-bloodhound-map.py:251-297 | the four top-technique rules, in order |
| Mapper.BloodhoundToMitreMapper.RunAllMappings | scripts/mitre-bloodhound-map.py:299-326 | the graph becomes all 23 rules run in the order of the nine methods |
| BloodHoundApi.StripSlashes | scripts/cypherdog15.py:11 | the result is a prefix of the input that does not end in '/', and the rest of the input is all '/' |
| BloodHoundApi.StripSlashesUnique | scripts/cypherdog15.py:11 | that split is unique |
| BloodHoundApi.StripSlashesIdempotent | scripts/cypherdog15.py:11 | stripping twice is stripping once |
| BloodHoundApi.TypeSuffixInjective | scripts/cypherdog15.py:75 | two optional types give the same suffix iff both are absent or empty, or both are the same name |
| BloodHoundApi.NodesQueryInjective | scripts/cypherdog15.py:52-55 | the node query names exactly the label asked for |
| BloodHoundApi.EdgesQueryInjective | scripts/cypherdog15.py:67-70 | the edge query names exactly the type asked for |
| BloodHoundApi.PathsQueryInjective | scripts/cypherdog15.py:74-79 | the path query determines its depth bound and its relationship suffix |
| BloodHoundApi.Field | scripts/cypherdog15.py:63 | `record[key]` succeeds iff the record is an object holding the key, and yields its value |
| BloodHoundApi.Column | scripts/cypherdog15.py:57 | succeeds iff every record holds the key, yielding the values in order; otherwise the first record without it raises |
| BloodHoundApi.Data | scripts/cypherdog15.py:57 | `result.get` succeeds iff the answer is an object |
| BloodHoundApi.Project | scripts/cypherdog15.py:57 | a missing `data` gives []; a `data` list gives its records' column in order |
| BloodHoundApi.First | scripts/cypherdog15.py:62-64 | None iff the answer is an object whose `data` is missing or falsy |
| BloodHoundApi.FirstIsHeadOfProject | scripts/cypherdog15.py:57-64 | where the projection succeeds, `get_node` returns its first element, or None when it is empty |
| BloodHoundApi.Init | scripts/cypherdog15.py:10-16 | the URI is stripped; no token, no header, no request yet |
| BloodHoundApi.Payload | scripts/cypherdog15.py:41-43 | the payload holds the query, and "parameters" iff the parameters are non-empty |
| BloodHoundApi.AuthenticateKeepsHeader | scripts/cypherdog15.py:22-35 | the login posts the credentials; it succeeds iff the answer is 200 with a decodable body holding `jwt`, and then caches it as token and Bearer header |
| BloodHoundApi.LoginFailureRaises | scripts/cypherdog15.py:34-35 | a non-200 login raises "Authentication failed: " with the answer's text and keeps the token |
| BloodHoundApi.CachedTokenSkipsLogin | scripts/cypherdog15.py:37-45 | with a token cached the query is the only request and carries the token |
| BloodHoundApi.MissingTokenLogsInFirst | scripts/cypherdog15.py:37-45 | without a token the login comes first, and the query is sent only after a successful login, with the new token |
| BloodHoundApi.SecondQueryReusesToken | scripts/cypherdog15.py:31-39 | after a query that went through, the next query does not log in again |
| BloodHoundApi.RunCypherOutcome | scripts/cypherdog15.py:37-49 | a query succeeds iff its login (if needed) succeeded and the answer is 200 and decodable; a non-200 answer raises "Cypher query failed: " with its text |
| BloodHoundApi.GetNodesSends | scripts/cypherdog15.py:51-57 | the node getter sends the node query without parameters and returns the "n" column |
| CypherDogClient.CypherDog.constructor | scripts/cypherdog15.py:10-16 | the object's state is `Init` and its header matches its token |
| CypherDogClient.CypherDog.Authenticate | scripts/cypherdog15.py:22-35 | result and new state are those of `Authenticate` |
| CypherDogClient.CypherDog.RunCypher | scripts/cypherdog15.py:37-49 | result and new state are those of `RunCypher` |
| CypherDogClient.CypherDog.GetNodes | scripts/cypherdog15.py:51-57 | the text built step by step is the node query; result and state are those of `GetNodes` |
| CypherDogClient.CypherDog.GetNode | scripts/cypherdog15.py:59-64 | result and state are those of `GetNode` |
| CypherDogClient.CypherDog.GetEdges | scripts/cypherdog15.py:66-72 | the text built step by step is the edge query; result and state are those of `GetEdges` |
| CypherDogClient.CypherDog.GetPaths | scripts/cypherdog15.py:74-82 | result and state are those of `GetPaths` |

## Left out

- HTTP retrieval and JSON decoding of the bundles: each loader takes the decoded bundle as input. In scripts/mitre-bloodhound-test1.py each domain's download is an `Option`, and `None` stands for a failed download or decode.
- Database drivers and REST posting (`send_cypher_query`, `PushToBH`, `session.run`, `run_query`, `execute_cypher`, `close`): writes go to the abstract store, with MERGE semantics. `send_cypher_query` swallows errors, so a write the store refuses (a null merge key) is a missing write.
- The HTTP session of scripts/cypherdog15.py is an oracle: every call takes the server's `Response` as an argument. A body that is not JSON is `body == None`, and the outgoing requests are a recorded list.
- Whether the generated Cypher is valid and what the engine does with it: the legacy `{P_ID}` parameters, the unbound `$name` and `$tactic_name`, and the relationship type placed after the closing bracket in `get_paths` are kept as text or as abstract operations.
- scripts/mitre-attck-blh.py is not part of this model. It is a driver wrapper with no logic of its own and puts a timestamp into its MERGE pattern.
- Banners, `print`, `_log` and the debug flag's output, `show_query`, the argparse command line of scripts/cypherdog15.py, and the reporting queries `show_relationship_types` and `show_tactic_count`.
- `created`, `modified`, descriptions, platforms and the other copied attributes are opaque values. A JSON key present with the value `null` is treated as absent.
- The rows that the map rules RETURN are not modelled; only the edges they MERGE are.
- `highvalue` and `admincount` are booleans on every node. A missing property or a non-boolean value counts as false, as `= true` does in Cypher.
- Case mapping (`toLower`, `str.upper`) covers ASCII letters only; Unicode case folding is not modelled.
- The `ASSOCIATED_WITH` relationship constant of scripts/mitre-bloodhound-map.py is never used by a rule, so it does not appear.
- PushGraph.PushWithIs: the store takes any JSON value as a property, while Neo4j accepts only primitives and lists of primitives. In scripts/ATTCKnowledge-push.py, `create_node` keeps a non-empty `reference` (a list of maps) and sends it through `SET n += $props`. The real push therefore fails at the first technique, software or group that cites a source other than "mitre-attack". The model does not capture that refusal, so "the push succeeds iff every record has an id" holds for the abstract store only.
- PushGraph.NodeWriteOf: fails only on a missing or empty-like `id`. A kept property that Neo4j refuses, such as the `reference` list of maps, is not an error here.
- BloodHoundApi.GetPaths: the default `max_depth` of 5 is a caller's default argument; the model always takes the depth as a parameter.
- BloodHoundApi.Authenticate: the token is kept as the decoded JSON value of `jwt` rather than a string, and the header is modelled as that token rather than as the text "Bearer " followed by it.

## Findings

| source | as written | input that shows it | evidently intended | confidence | as-written member | corrected member |
|---|---|---|---|---|---|---|
| scripts/ATTCKnowledge-push.py:228-233 | declared relationships are passed to `create_relationship` with the raw STIX ids `rel.source` and `rel.target`, but lines 210-220 merge every node on its ATT&CK `id` (e.g. G0006, T1003), so the MATCH finds no endpoint | a bundle with an intrusion-set G0006, an attack-pattern T1003 and a "uses" relationship between their STIX ids (`PushGraph.UsesExample`): the push succeeds and adds no edge | translate each STIX id to the `id` of the record that has it before linking, so that G0006 USES T1003 appears | not executed | PushGraph.DeclaredEdgeNeverLinked | PushGraph.ResolvedEdgePresent |
