/**
 * Small graphs on which the rules of scripts/mitre-bloodhound-map.py show
 * their edges: the ten-hop bound of the path rules, the one place where the
 * order of `run_all_mappings` matters, which end of a privilege edge is
 * mapped, and the case-sensitive domain-controller test beside the
 * lower-cased software tests.
 */
module MapExamples {
  import opened Wrappers
  import opened Strings
  import opened MapRules
  import opened MapLaws

  // ---------------------------------------------------------------------------
  // A chain of `n` MemberOf edges from a user to a high-value group
  // ---------------------------------------------------------------------------

  /** A trail of at most ten edges from a user to a high-value group matches
      the untyped path rule. */
  lemma PathRuleMatches(g: Graph, u: NodeId, q: seq<GEdge>)
    requires HasLabel(g, u, "User") && IsTrail(g.edges, None, u, q) && |q| <= MaxHops
    requires TrailEnds(g, u, q, "Group", true, false)
    ensures u in Matched(g, HighValuePathTactics.pattern)
  {
    TrailMatched(g, HighValuePathTactics.pattern, u, q);
  }

  function ChainNode(n: nat, i: nat): GNode {
    if i == 0 then GNode({"User"}, Some("jdoe"), None, false, false)
    else if i == n then GNode({"Group"}, Some("Domain Admins"), None, true, false)
    else if i == n + 1 then GNode({"Tactic"}, Some("Privilege Escalation"), Some("TA0004"), false, false)
    else GNode({"Group"}, None, None, false, false)
  }

  function ChainEdge(i: nat): GEdge {
    GEdge(i, "MemberOf", i + 1)
  }

  /** Nodes 0..n+1: the user 0, groups 1..n with only n high-value, the tactic n+1. */
  function Chain(n: nat): Graph {
    Graph(map i: nat | i <= n + 1 :: ChainNode(n, i), set i: nat | i < n :: ChainEdge(i))
  }

  /** On the chain, a trail from `u` moves one node forward per edge. */
  lemma {:induction false} ChainTrailStep(n: nat, types: Option<set<string>>, u: NodeId, p: seq<GEdge>, i: nat)
    requires IsTrail(Chain(n).edges, types, u, p) && i < |p|
    ensures p[i].src == u + i && p[i].dst == u + i + 1
  {
    if i > 0 {
      ChainTrailStep(n, types, u, p, i - 1);
    }
  }

  /** A matching trail on the chain has exactly `n` edges. */
  lemma ChainMatchNeedsAllHops(n: nat)
    requires n >= 1 && 0 in Matched(Chain(n), HighValuePathTactics.pattern)
    ensures n <= MaxHops
  {
    var g := Chain(n);
    var q :| q in TrailsFrom(g.edges, None, 0, MaxHops) && TrailEnds(g, 0, q, "Group", true, false);
    TrailsFromIs(g.edges, None, 0, MaxHops, q);
    ChainTrailStep(n, None, 0, q, |q| - 1);
    assert HighValue(g, |q|);
  }

  /** The whole chain is one trail. */
  lemma ChainMatchedWithinBound(n: nat)
    requires 1 <= n <= MaxHops
    ensures 0 in Matched(Chain(n), HighValuePathTactics.pattern)
  {
    var g := Chain(n);
    var q := seq(n, i requires 0 <= i < n => ChainEdge(i));
    assert forall i :: 0 <= i < n ==> q[i] in g.edges;
    assert IsTrail(g.edges, None, 0, q);
    assert q[n - 1].dst == n && g.nodes[n] == ChainNode(n, n);
    PathRuleMatches(g, 0, q);
  }

  /** The user reaches the high-value group through `n` memberships; the
      untyped path rule maps it to TA0004 exactly when `n` is at most ten. */
  lemma PathRuleHopBound(n: nat)
    requires n >= 1
    ensures 0 in Matched(Chain(n), HighValuePathTactics.pattern) <==> n <= MaxHops
    ensures GEdge(0, UsesTactic, n + 1) in RuleEdges(Chain(n), HighValuePathTactics) <==> n <= MaxHops
  {
    if 0 in Matched(Chain(n), HighValuePathTactics.pattern) {
      ChainMatchNeedsAllHops(n);
    }
    if n <= MaxHops {
      ChainMatchedWithinBound(n);
    }
    assert n + 1 in Targets(Chain(n), "Tactic", {"TA0004", "TA0008"});
  }

  // ---------------------------------------------------------------------------
  // The untyped path rule sees the group mapping made before it
  // ---------------------------------------------------------------------------

  /** jdoe is a member of "admins"; "domain admins" is high-value but not reachable. */
  function OrderExample(): Graph {
    Graph(map[0 := GNode({"User"}, Some("jdoe"), None, false, false),
              1 := GNode({"Group"}, Some("admins"), None, false, false),
              2 := GNode({"Group"}, Some("domain admins"), None, true, false),
              3 := GNode({"Tactic"}, Some("Privilege Escalation"), Some("TA0004"), false, false)],
          {GEdge(0, "MemberOf", 1)})
  }

  /** jdoe's membership is the only trail in the example. */
  lemma OrderExampleOneTrail(types: Option<set<string>>, u: NodeId, q: seq<GEdge>)
    requires IsTrail(OrderExample().edges, types, u, q)
    ensures q == [GEdge(0, "MemberOf", 1)]
  {
    SingleEdgeTrail(GEdge(0, "MemberOf", 1), types, u, q);
  }

  /** Before the group mapping, jdoe's only trail ends at the ordinary group. */
  lemma OrderExampleUnmatched()
    ensures Matched(OrderExample(), HighValuePathTactics.pattern) == {}
  {
    var g := OrderExample();
    forall u | u in Matched(g, HighValuePathTactics.pattern) ensures false {
      var q :| q in TrailsFrom(g.edges, None, u, MaxHops) && TrailEnds(g, u, q, "Group", true, false);
      TrailsFromIs(g.edges, None, u, MaxHops, q);
      OrderExampleOneTrail(None, u, q);
    }
  }

  /** The group rule links "admins" to "domain admins". */
  lemma OrderExampleMapsGroups()
    ensures GEdge(1, MapsToMitre, 2) in RuleEdges(OrderExample(), GroupsToMitreGroups)
  {
    var a, b := "admins", "domain admins";
    assert ToLower(a) == a by {
      assert forall i :: 0 <= i < |a| ==> LowerChar(a[i]) == a[i];
    }
    assert ToLower(b) == b by {
      assert forall i :: 0 <= i < |b| ==> LowerChar(b[i]) == b[i];
    }
    assert OccursAt(b, a, 7);
    assert SimilarNames(Some(a), Some(b));
  }

  /** Once "admins" is linked to "domain admins", jdoe reaches a high-value group in two hops. */
  lemma OrderExampleMatchedWith(h: Graph)
    requires h.nodes == OrderExample().nodes
    requires GEdge(0, "MemberOf", 1) in h.edges && GEdge(1, MapsToMitre, 2) in h.edges
    ensures 0 in Matched(h, HighValuePathTactics.pattern)
  {
    var q := [GEdge(0, "MemberOf", 1), GEdge(1, MapsToMitre, 2)];
    assert IsTrail(h.edges, None, 0, q);
    PathRuleMatches(h, 0, q);
  }

  /** In the order of `run_all_mappings` (group rule first) jdoe is mapped to
      TA0004 through the new MAPS_TO_MITRE edge. */
  lemma GroupRuleFirstMapsPath()
    ensures GEdge(0, UsesTactic, 3) in RunRules(OrderExample(), [GroupsToMitreGroups, HighValuePathTactics]).edges
  {
    var g := OrderExample();
    RunTwo(g, GroupsToMitreGroups, HighValuePathTactics);
    var g1 := Apply(g, GroupsToMitreGroups);
    OrderExampleMapsGroups();
    OrderExampleMatchedWith(g1);
    assert 3 in Targets(g, "Tactic", {"TA0004", "TA0008"});
    LinkEdgeIn(g1, HighValuePathTactics, 0, 3);
  }

  /** In the other order the path rule finds nothing, and the group rule adds
      only MAPS_TO_MITRE edges. */
  lemma PathRuleFirstMissesPath()
    ensures GEdge(0, UsesTactic, 3) !in RunRules(OrderExample(), [HighValuePathTactics, GroupsToMitreGroups]).edges
  {
    var g := OrderExample();
    RunTwo(g, HighValuePathTactics, GroupsToMitreGroups);
    OrderExampleUnmatched();
    assert Apply(g, HighValuePathTactics) == g;
  }

  // ---------------------------------------------------------------------------
  // Single rules on small graphs
  // ---------------------------------------------------------------------------

  /** alice has GenericAll on the helpdesk group. */
  function PrivilegeExample(): Graph {
    Graph(map[0 := GNode({"User"}, Some("alice"), None, false, false),
              1 := GNode({"Group"}, Some("helpdesk"), None, false, false),
              2 := GNode({"Technique"}, Some("Account Manipulation"), Some("T1098"), false, false)],
          {GEdge(0, "GenericAll", 1)})
  }

  /** Only the holder of the right is mapped, not the object it controls. */
  lemma GenericAllMapsHolderOnly()
    ensures RuleEdges(PrivilegeExample(), GenericAllTechniques) == {GEdge(0, UsesTechnique, 2)}
  {
    var g := PrivilegeExample();
    assert Matched(g, GenericAllTechniques.pattern) == {0};
    assert Targets(g, "Technique", {"T1136", "T1068", "T1098"}) == {2};
  }

  /** Two computers whose names differ only in case, a Software node, and T1003. */
  function NameExample(): Graph {
    Graph(map[0 := GNode({"Computer"}, Some("dc01"), None, false, false),
              1 := GNode({"Computer"}, Some("DC01"), None, false, false),
              2 := GNode({"Software"}, Some("MimiKatz"), None, false, false),
              3 := GNode({"Technique"}, Some("OS Credential Dumping"), Some("T1003"), false, false)],
          {})
  }

  /** `c.name CONTAINS 'DC'` is case-sensitive: "dc01" is not a domain controller. */
  lemma DomainControllerTestIsCaseSensitive()
    ensures RuleEdges(NameExample(), DomainControllerTechniques) == {GEdge(1, UsesTechnique, 3)}
  {
    var g := NameExample();
    assert !Contains("dc01", "DC") by {
      forall i | 0 <= i <= 2 ensures !OccursAt("dc01", "DC", i) {
        assert "dc01"[i] != 'D';
      }
    }
    assert OccursAt("DC01", "DC", 0);
    assert Contains(CaseOf(false, g.nodes[1].name.value), ["DC"][0]);
    assert 0 !in Matched(g, DomainControllerTechniques.pattern);
    assert 1 in Matched(g, DomainControllerTechniques.pattern);
    assert Matched(g, DomainControllerTechniques.pattern) == {1};
    assert Targets(g, "Technique", {"T1018", "T1059", "T1003"}) == {3};
  }

  /** The software tests lower-case the name first, so "MimiKatz" is Mimikatz. */
  lemma SoftwareTestIgnoresCase()
    ensures RuleEdges(NameExample(), MimikatzSoftware) == {GEdge(2, UsesTechnique, 3)}
  {
    var g := NameExample();
    assert ToLower("MimiKatz") == "mimikatz" by {
      assert forall i :: 0 <= i < 8 ==> LowerChar("MimiKatz"[i]) == "mimikatz"[i];
    }
    assert OccursAt("mimikatz", "mimikatz", 0);
    assert Contains(CaseOf(true, g.nodes[2].name.value), ["mimikatz"][0]);
    assert 2 in Matched(g, MimikatzSoftware.pattern);
    assert Matched(g, MimikatzSoftware.pattern) == {2};
    assert Targets(g, "Technique", {"T1003"}) == {3};
  }
}
