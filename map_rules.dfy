/**
 * The association rules of scripts/mitre-bloodhound-map.py. Each rule is one
 * Cypher statement of the form `MATCH <pattern> MATCH (mitre:<Label>) WHERE
 * mitre.id IN [...] MERGE (x)-[:<TYPE>]->(mitre)`: the nodes `x` the pattern
 * matches, crossed with the MITRE nodes carrying one of the listed ids, become
 * new edges of one type. The only other shape is the group-name rule, which
 * links pairs of Group nodes. A rule never deletes or changes anything; its
 * MERGE adds each edge once, so applying it is a set union.
 *
 * A variable-length pattern `-[*1..10]->` follows Cypher's matching rule that
 * one path never uses the same relationship twice: it ranges over trails of
 * 1 to 10 edges.
 */
module MapRules {
  import opened Wrappers
  import opened Strings

  type NodeId = nat

  /** A node as the rules read it: its labels and the properties they test.
      `highvalue` and `admincount` hold when the property is the boolean `true`;
      a missing `name` or `id` is `null`. */
  datatype GNode = GNode(labels: set<string>, name: Option<string>, id: Option<string>, highvalue: bool,
                         admincount: bool)

  datatype GEdge = GEdge(src: NodeId, edgeType: string, dst: NodeId)

  datatype Graph = Graph(nodes: map<NodeId, GNode>, edges: set<GEdge>)

  const MapsToMitre := "MAPS_TO_MITRE"
  const UsesTechnique := "USES_TECHNIQUE"
  const UsesTactic := "USES_TACTIC"

  /** The upper bound of every `*1..10` pattern. */
  const MaxHops := 10

  predicate HasLabel(g: Graph, n: NodeId, nodeLabel: string) {
    n in g.nodes && nodeLabel in g.nodes[n].labels
  }

  /** `(n)` with no label matches any node; `(n:L)` a node labelled L. */
  predicate LabelOk(g: Graph, n: NodeId, nodeLabel: Option<string>) {
    n in g.nodes && (nodeLabel.Some? ==> nodeLabel.value in g.nodes[n].labels)
  }

  /** `n.highvalue = true`, and `{highvalue: true}` in a pattern. */
  predicate HighValue(g: Graph, n: NodeId) {
    n in g.nodes && g.nodes[n].highvalue
  }

  // ---------------------------------------------------------------------------
  // Trails: the paths a variable-length pattern ranges over
  // ---------------------------------------------------------------------------

  /** `[:A|B*..]` allows the listed types; `[*..]` allows every type. */
  predicate TypeOk(types: Option<set<string>>, t: string) {
    types.None? || t in types.value
  }

  /** `p` is a path of at least one edge of `edges`, starting at `u`, each
      edge of an allowed type, each starting where the previous one ends, and
      no edge used twice. */
  ghost predicate IsTrail(edges: set<GEdge>, types: Option<set<string>>, u: NodeId, p: seq<GEdge>) {
    |p| >= 1 && p[0].src == u
    && (forall i :: 0 <= i < |p| ==> p[i] in edges && TypeOk(types, p[i].edgeType))
    && (forall i :: 0 < i < |p| ==> p[i - 1].dst == p[i].src)
    && (forall i, j :: 0 <= i < j < |p| ==> p[i] != p[j])
  }

  /** The trails of 1 to `k` edges from `u`: a first edge, then a trail from
      its end that does not use that edge again. */
  function TrailsFrom(edges: set<GEdge>, types: Option<set<string>>, u: NodeId, k: nat): set<seq<GEdge>>
    decreases k
  {
    if k == 0 then {}
    else
      set e, rest | e in edges && e.src == u && TypeOk(types, e.edgeType)
                    && rest in {[]} + TrailsFrom(edges - {e}, types, e.dst, k - 1) :: [e] + rest
  }

  lemma {:induction false} TrailsFromSound(edges: set<GEdge>, types: Option<set<string>>, u: NodeId, k: nat,
                                           p: seq<GEdge>)
    requires p in TrailsFrom(edges, types, u, k)
    ensures IsTrail(edges, types, u, p) && |p| <= k
    decreases k
  {
    var e, rest :| e in edges && e.src == u && TypeOk(types, e.edgeType)
                   && rest in {[]} + TrailsFrom(edges - {e}, types, e.dst, k - 1) && p == [e] + rest;
    if rest != [] {
      TrailsFromSound(edges - {e}, types, e.dst, k - 1, rest);
      assert forall i :: 0 < i < |p| ==> p[i] == rest[i - 1] && p[i] in edges - {e};
    }
  }

  lemma {:induction false} TrailsFromComplete(edges: set<GEdge>, types: Option<set<string>>, u: NodeId, k: nat,
                                              p: seq<GEdge>)
    requires IsTrail(edges, types, u, p) && |p| <= k
    ensures p in TrailsFrom(edges, types, u, k)
    decreases k
  {
    var e, rest := p[0], p[1..];
    assert p == [e] + rest;
    if rest != [] {
      assert forall i :: 0 <= i < |rest| ==> rest[i] == p[i + 1];
      assert IsTrail(edges - {e}, types, e.dst, rest);
      TrailsFromComplete(edges - {e}, types, e.dst, k - 1, rest);
    }
    assert rest in {[]} + TrailsFrom(edges - {e}, types, e.dst, k - 1);
  }

  /** The enumeration yields exactly the trails of at most `k` edges. */
  lemma TrailsFromIs(edges: set<GEdge>, types: Option<set<string>>, u: NodeId, k: nat, p: seq<GEdge>)
    ensures p in TrailsFrom(edges, types, u, k) <==> IsTrail(edges, types, u, p) && |p| <= k
  {
    if p in TrailsFrom(edges, types, u, k) {
      TrailsFromSound(edges, types, u, k, p);
    }
    if IsTrail(edges, types, u, p) && |p| <= k {
      TrailsFromComplete(edges, types, u, k, p);
    }
  }

  /** `any(x IN nodes(path) WHERE x.highvalue = true)`. */
  predicate PathHighValue(g: Graph, u: NodeId, p: seq<GEdge>) {
    HighValue(g, u) || exists i :: 0 <= i < |p| && HighValue(g, p[i].dst)
  }

  /** The trail ends at a node the pattern's last node accepts. */
  predicate TrailEnds(g: Graph, u: NodeId, p: seq<GEdge>, dstLabel: string, dstHighValue: bool,
                      anyHighValue: bool) {
    |p| > 0 && HasLabel(g, p[|p| - 1].dst, dstLabel) && (dstHighValue ==> HighValue(g, p[|p| - 1].dst))
    && (anyHighValue ==> PathHighValue(g, u, p))
  }

  // ---------------------------------------------------------------------------
  // Patterns and rules
  // ---------------------------------------------------------------------------

  /** Which node of a one-edge pattern the MERGE starts from. */
  datatype End = Start | Finish

  datatype Pattern =
      /** `(a:L1)-[:T1|T2]->(b:L2 {highvalue: true})`, labels and the flag optional. */
    | Hop(srcLabel: Option<string>, types: set<string>, dstLabel: Option<string>, dstHighValue: bool, keep: End)
      /** `(u:User)-[:HasSession]->(c:Computer) WHERE u.admincount = true OR c.highvalue = true`. */
    | AdminSession(keep: End)
      /** `(n:L) WHERE n.name CONTAINS s1 OR ...`, on `toLower(n.name)` when `lower`. */
    | NameContains(nodeLabel: string, subs: seq<string>, lower: bool)
      /** `(n:L)`. */
    | Labelled(nodeLabel: string)
      /** `path=(u:L)-[:T*1..10]->(g:L2 ...)`, optionally with
          `WHERE any(x IN nodes(path) WHERE x.highvalue = true)`. */
    | Trail(userLabel: string, trailTypes: Option<set<string>>, endLabel: string, endHighValue: bool,
            anyHighValue: bool)

  function Pick(e: GEdge, keep: End): NodeId {
    if keep == Start then e.src else e.dst
  }

  function CaseOf(lower: bool, s: string): string {
    if lower then ToLower(s) else s
  }

  /** The nodes a pattern binds to the variable the MERGE starts from. */
  function Matched(g: Graph, p: Pattern): (r: set<NodeId>)
    ensures r <= g.nodes.Keys
  {
    match p
    case Hop(sl, ts, dl, hv, keep) =>
      set e | e in g.edges && e.edgeType in ts && LabelOk(g, e.src, sl) && LabelOk(g, e.dst, dl)
              && (hv ==> HighValue(g, e.dst)) :: Pick(e, keep)
    case AdminSession(keep) =>
      set e | e in g.edges && e.edgeType == "HasSession" && HasLabel(g, e.src, "User") && HasLabel(g, e.dst, "Computer")
              && (g.nodes[e.src].admincount || g.nodes[e.dst].highvalue) :: Pick(e, keep)
    case NameContains(nl, subs, lower) =>
      set n | n in g.nodes && nl in g.nodes[n].labels && g.nodes[n].name.Some?
              && exists k :: 0 <= k < |subs| && Contains(CaseOf(lower, g.nodes[n].name.value), subs[k])
    case Labelled(nl) =>
      set n | n in g.nodes && nl in g.nodes[n].labels
    case Trail(sl, ts, dl, hv, anyHv) =>
      set u | u in g.nodes && sl in g.nodes[u].labels
              && exists q :: q in TrailsFrom(g.edges, ts, u, MaxHops) && TrailEnds(g, u, q, dl, hv, anyHv)
  }

  /** The edge types a pattern traverses; `None` when it traverses any type. */
  function PatternReads(p: Pattern): Option<set<string>> {
    match p
    case Hop(_, ts, _, _, _) => Some(ts)
    case AdminSession(_) => Some({"HasSession"})
    case NameContains(_, _, _) => Some({})
    case Labelled(_) => Some({})
    case Trail(_, ts, _, _, _) => ts
  }

  /** `MATCH (mitre:L) WHERE mitre.id IN ids` and `MATCH (mitre:L {id: x})`. */
  function Targets(g: Graph, nodeLabel: string, ids: set<string>): (r: set<NodeId>)
    ensures r <= g.nodes.Keys
  {
    set m | m in g.nodes && nodeLabel in g.nodes[m].labels && g.nodes[m].id.Some? && g.nodes[m].id.value in ids
  }

  /** `toLower(a) CONTAINS toLower(b) OR toLower(b) CONTAINS toLower(a)`; a
      missing name makes the condition `null`, which filters the row out. */
  predicate SimilarNames(a: Option<string>, b: Option<string>) {
    a.Some? && b.Some?
    && (Contains(ToLower(a.value), ToLower(b.value)) || Contains(ToLower(b.value), ToLower(a.value)))
  }

  datatype Rule =
      /** `MATCH (bh:Group), (mitre:Group) WHERE <similar names> MERGE (bh)-[:MAPS_TO_MITRE]->(mitre)`. */
    | SimilarGroupNames
      /** `MATCH <pattern> MATCH (mitre:L) WHERE mitre.id IN ids MERGE (x)-[:T]->(mitre)`. */
    | Link(pattern: Pattern, edgeType: string, targetLabel: string, targetIds: set<string>)

  /** The one edge type a rule creates. */
  function Creates(r: Rule): string {
    if r.SimilarGroupNames? then MapsToMitre else r.edgeType
  }

  function Reads(r: Rule): Option<set<string>> {
    if r.SimilarGroupNames? then Some({}) else PatternReads(r.pattern)
  }

  /** The rule's pattern never traverses an edge of type `t`. */
  predicate Ignores(r: Rule, t: string) {
    Reads(r).Some? && t !in Reads(r).value
  }

  /** The edges one rule merges into the graph. */
  function RuleEdges(g: Graph, r: Rule): (es: set<GEdge>)
    ensures forall e :: e in es ==> e.edgeType == Creates(r) && e.src in g.nodes && e.dst in g.nodes
    ensures r.Link? && Targets(g, r.targetLabel, r.targetIds) == {} ==> es == {}
    ensures r.Link? ==> forall e :: e in es ==> e.dst in Targets(g, r.targetLabel, r.targetIds)
  {
    match r
    case SimilarGroupNames =>
      set a, b | a in g.nodes && b in g.nodes && "Group" in g.nodes[a].labels && "Group" in g.nodes[b].labels
                 && SimilarNames(g.nodes[a].name, g.nodes[b].name) :: GEdge(a, MapsToMitre, b)
    case Link(p, t, nl, ids) =>
      set s, m | s in Matched(g, p) && m in Targets(g, nl, ids) :: GEdge(s, t, m)
  }

  /** One `execute_cypher` of a rule: its edges are merged, nothing else changes. */
  function Apply(g: Graph, r: Rule): (h: Graph)
    ensures h.nodes == g.nodes && g.edges <= h.edges
    ensures forall e :: e in h.edges - g.edges ==> e.edgeType == Creates(r)
  {
    Graph(g.nodes, g.edges + RuleEdges(g, r))
  }

  /** Rules applied one after another, in order. */
  function RunRules(g: Graph, rs: seq<Rule>): Graph {
    if rs == [] then g else Apply(RunRules(g, rs[..|rs| - 1]), rs[|rs| - 1])
  }

  lemma {:induction false} RunRulesConcat(g: Graph, a: seq<Rule>, b: seq<Rule>)
    ensures RunRules(g, a + b) == RunRules(RunRules(g, a), b)
  {
    if b == [] {
      assert a + b == a;
    } else {
      assert (a + b)[..|a + b| - 1] == a + b[..|b| - 1];
      assert (a + b)[|a + b| - 1] == b[|b| - 1];
      RunRulesConcat(g, a, b[..|b| - 1]);
    }
  }

  /** Running one more rule is applying it to what the earlier ones left. */
  lemma RunRulesStep(g: Graph, rs: seq<Rule>, r: Rule)
    ensures RunRules(g, rs + [r]) == Apply(RunRules(g, rs), r)
  {
    assert (rs + [r])[..|rs|] == rs;
  }

  /** Short lists of rules, one statement after another. */
  lemma RunOne(g: Graph, a: Rule)
    ensures RunRules(g, [a]) == Apply(g, a)
  {
    RunRulesStep(g, [], a);
    assert [] + [a] == [a];
  }

  lemma RunTwo(g: Graph, a: Rule, b: Rule)
    ensures RunRules(g, [a, b]) == Apply(Apply(g, a), b)
  {
    RunOne(g, a);
    RunRulesStep(g, [a], b);
    assert [a] + [b] == [a, b];
  }

  lemma RunThree(g: Graph, a: Rule, b: Rule, c: Rule)
    ensures RunRules(g, [a, b, c]) == Apply(Apply(Apply(g, a), b), c)
  {
    RunTwo(g, a, b);
    RunRulesStep(g, [a, b], c);
    assert [a, b] + [c] == [a, b, c];
  }

  lemma RunFour(g: Graph, a: Rule, b: Rule, c: Rule, d: Rule)
    ensures RunRules(g, [a, b, c, d]) == Apply(Apply(Apply(Apply(g, a), b), c), d)
  {
    RunThree(g, a, b, c);
    RunRulesStep(g, [a, b, c], d);
    assert [a, b, c] + [d] == [a, b, c, d];
  }

  // ---------------------------------------------------------------------------
  // The rules of `BloodhoundToMitreMapper`, in the order of `run_all_mappings`
  // ---------------------------------------------------------------------------

  const GroupsToMitreGroups := SimilarGroupNames

  const GenericAllTechniques :=
    Link(Hop(None, {"GenericAll", "Owns"}, None, false, Start), UsesTechnique, "Technique", {"T1136", "T1068", "T1098"})
  const WriteDaclTechniques :=
    Link(Hop(None, {"WriteDacl"}, None, false, Start), UsesTechnique, "Technique", {"T1069", "T1098"})
  const GenericWriteTechniques :=
    Link(Hop(None, {"GenericWrite", "WriteOwner"}, None, false, Start), UsesTechnique, "Technique", {"T1098"})

  const AdminMemberTechniques :=
    Link(Hop(Some("User"), {"MemberOf"}, Some("Group"), true, Start), UsesTechnique, "Technique",
         {"T1068", "T1003", "T1098"})
  const DcSyncTechniques :=
    Link(Hop(Some("User"), {"GenericAll", "Owns"}, Some("Domain"), false, Start), UsesTechnique, "Technique",
         {"T1003", "T1098"})
  const UserSessionTechniques := Link(AdminSession(Start), UsesTechnique, "Technique", {"T1021"})

  const DomainControllerTechniques :=
    Link(NameContains("Computer", ["DC"], false), UsesTechnique, "Technique", {"T1018", "T1059", "T1003"})
  const ComputerSessionTechniques := Link(AdminSession(Finish), UsesTechnique, "Technique", {"T1021"})

  const BloodHoundSoftware := Link(NameContains("Software", ["bloodhound"], true), UsesTechnique, "Technique", {"T1018"})
  const MimikatzSoftware := Link(NameContains("Software", ["mimikatz"], true), UsesTechnique, "Technique", {"T1003"})
  const ShellSoftware :=
    Link(NameContains("Software", ["powershell", "cmd", "psexec"], true), UsesTechnique, "Technique",
         {"T1055", "T1059", "T1555"})

  const HighValuePathTactics :=
    Link(Trail("User", None, "Group", true, false), UsesTactic, "Tactic", {"TA0004", "TA0008"})
  const DcSyncTactics :=
    Link(Hop(Some("User"), {"GenericAll", "Owns"}, Some("Domain"), false, Start), UsesTactic, "Tactic", {"TA0006"})

  const SessionPathTechniques :=
    Link(Trail("User", Some({"MemberOf", "HasSession"}), "Computer", false, true), UsesTechnique, "Technique", {"T1021"})
  const MembershipPathTechniques :=
    Link(Trail("User", Some({"MemberOf"}), "Group", true, false), UsesTechnique, "Technique", {"T1068"})

  const AdminMemberTactics :=
    Link(Hop(Some("User"), {"MemberOf"}, Some("Group"), true, Start), UsesTactic, "Tactic", {"TA0004"})
  const ComputerSessionTactics := Link(AdminSession(Finish), UsesTactic, "Tactic", {"TA0008"})
  const DomainControllerTactics :=
    Link(NameContains("Computer", ["DC"], false), UsesTactic, "Tactic", {"TA0007", "TA0002"})

  const ComputerDiscovery := Link(Labelled("Computer"), UsesTechnique, "Technique", {"T1082"})
  const UserSessionScripting := Link(AdminSession(Start), UsesTechnique, "Technique", {"T1059"})
  const ShellScripting :=
    Link(NameContains("Software", ["powershell", "cmd", "psexec"], true), UsesTechnique, "Technique", {"T1059"})
  const MimikatzPasswordStores := Link(NameContains("Software", ["mimikatz"], true), UsesTechnique, "Technique", {"T1555"})

  const GroupRules := [GroupsToMitreGroups]
  const PrivilegeRules := [GenericAllTechniques, WriteDaclTechniques, GenericWriteTechniques]
  const UserRules := [AdminMemberTechniques, DcSyncTechniques, UserSessionTechniques]
  const ComputerRules := [DomainControllerTechniques, ComputerSessionTechniques]
  const SoftwareRules := [BloodHoundSoftware, MimikatzSoftware, ShellSoftware]
  const PathTacticRules := [HighValuePathTactics, DcSyncTactics]
  const PathTechniqueRules := [SessionPathTechniques, MembershipPathTechniques]
  const ObjectTacticRules := [AdminMemberTactics, ComputerSessionTactics, DomainControllerTactics]
  const TopRules := [ComputerDiscovery, UserSessionScripting, ShellScripting, MimikatzPasswordStores]

  const AllRules := GroupRules + PrivilegeRules + UserRules + ComputerRules + SoftwareRules + PathTacticRules
                    + PathTechniqueRules + ObjectTacticRules + TopRules
}
