/**
 * What the rules of scripts/mitre-bloodhound-map.py promise as a whole: they
 * only add edges, more input edges never remove a match, a rule that does not
 * traverse the type it creates is idempotent, two rules that do not read each
 * other's output commute, and every rule but the untyped path rule ignores
 * all the types the rules create, so the order of the others in
 * `run_all_mappings` does not matter.
 */
module MapLaws {
  import opened Wrappers
  import opened Strings
  import opened MapRules

  // ---------------------------------------------------------------------------
  // Trails under more edges
  // ---------------------------------------------------------------------------

  lemma TrailsMonotone(e1: set<GEdge>, e2: set<GEdge>, types: Option<set<string>>, u: NodeId, k: nat)
    requires e1 <= e2
    ensures TrailsFrom(e1, types, u, k) <= TrailsFrom(e2, types, u, k)
  {
    forall p | p in TrailsFrom(e1, types, u, k) ensures p in TrailsFrom(e2, types, u, k) {
      TrailsFromIs(e1, types, u, k, p);
      TrailsFromIs(e2, types, u, k, p);
    }
  }

  /** Edges of a type the pattern does not allow never lie on one of its trails. */
  lemma TrailsIgnore(edges: set<GEdge>, extra: set<GEdge>, ts: set<string>, u: NodeId, k: nat)
    requires forall e :: e in extra ==> e.edgeType !in ts
    ensures TrailsFrom(edges + extra, Some(ts), u, k) == TrailsFrom(edges, Some(ts), u, k)
  {
    forall p ensures p in TrailsFrom(edges + extra, Some(ts), u, k) <==> p in TrailsFrom(edges, Some(ts), u, k) {
      TrailsFromIs(edges + extra, Some(ts), u, k, p);
      TrailsFromIs(edges, Some(ts), u, k, p);
    }
  }

  /** A node from which a trail of at most ten edges ends where the pattern
      asks is matched by it. */
  lemma TrailMatched(g: Graph, p: Pattern, u: NodeId, q: seq<GEdge>)
    requires p.Trail? && HasLabel(g, u, p.userLabel)
    requires IsTrail(g.edges, p.trailTypes, u, q) && |q| <= MaxHops
    requires TrailEnds(g, u, q, p.endLabel, p.endHighValue, p.anyHighValue)
    ensures u in Matched(g, p)
  {
    TrailsFromComplete(g.edges, p.trailTypes, u, MaxHops, q);
    TrailWitness(g, p, u, q);
  }

  /** The `Trail` case of `Matched`, given its witness. */
  lemma TrailWitness(g: Graph, p: Pattern, u: NodeId, q: seq<GEdge>)
    requires p.Trail? && HasLabel(g, u, p.userLabel)
    requires q in TrailsFrom(g.edges, p.trailTypes, u, MaxHops)
    requires TrailEnds(g, u, q, p.endLabel, p.endHighValue, p.anyHighValue)
    ensures u in Matched(g, p)
  {
  }

  /** A sequence without repeats drawn from `s` is no longer than `s` is large. */
  lemma {:induction false} DistinctWithin<T>(q: seq<T>, s: set<T>)
    requires forall i :: 0 <= i < |q| ==> q[i] in s
    requires forall i, j :: 0 <= i < j < |q| ==> q[i] != q[j]
    ensures |q| <= |s|
  {
    if |q| > 0 {
      var t := s - {q[0]};
      assert forall i :: 0 <= i < |q| - 1 ==> q[1..][i] == q[i + 1] && q[i + 1] in t;
      DistinctWithin(q[1..], t);
    }
  }

  /** A trail over a single edge is that edge. */
  lemma SingleEdgeTrail(e: GEdge, types: Option<set<string>>, u: NodeId, q: seq<GEdge>)
    requires IsTrail({e}, types, u, q)
    ensures q == [e]
  {
    DistinctWithin(q, {e});
  }

  // ---------------------------------------------------------------------------
  // Patterns and rules under more edges
  // ---------------------------------------------------------------------------

  /** A pattern that matched still matches when edges are added. */
  lemma MatchedMonotone(g: Graph, h: Graph, p: Pattern)
    requires g.nodes == h.nodes && g.edges <= h.edges
    ensures Matched(g, p) <= Matched(h, p)
  {
    if p.Trail? {
      forall u | u in Matched(g, p) ensures u in Matched(h, p) {
        var q :| q in TrailsFrom(g.edges, p.trailTypes, u, MaxHops)
                 && TrailEnds(g, u, q, p.endLabel, p.endHighValue, p.anyHighValue);
        TrailsMonotone(g.edges, h.edges, p.trailTypes, u, MaxHops);
        assert q in TrailsFrom(h.edges, p.trailTypes, u, MaxHops)
               && TrailEnds(h, u, q, p.endLabel, p.endHighValue, p.anyHighValue);
      }
    }
  }

  /** Adding edges of types a pattern does not traverse changes none of its matches. */
  lemma MatchedIgnores(g: Graph, extra: set<GEdge>, p: Pattern)
    requires PatternReads(p).Some? && forall e :: e in extra ==> e.edgeType !in PatternReads(p).value
    ensures Matched(Graph(g.nodes, g.edges + extra), p) == Matched(g, p)
  {
    var h := Graph(g.nodes, g.edges + extra);
    if p.Trail? {
      forall u ensures TrailsFrom(h.edges, p.trailTypes, u, MaxHops) == TrailsFrom(g.edges, p.trailTypes, u, MaxHops) {
        TrailsIgnore(g.edges, extra, p.trailTypes.value, u, MaxHops);
      }
    }
  }

  /** A rule's output only grows with the graph's edges. */
  lemma RuleMonotone(g: Graph, h: Graph, r: Rule)
    requires g.nodes == h.nodes && g.edges <= h.edges
    ensures RuleEdges(g, r) <= RuleEdges(h, r)
  {
    if r.Link? {
      MatchedMonotone(g, h, r.pattern);
    }
  }

  /** A rule's output depends only on the nodes and the edges of the types it reads. */
  lemma RuleIgnores(g: Graph, extra: set<GEdge>, r: Rule)
    requires forall e :: e in extra ==> Ignores(r, e.edgeType)
    ensures RuleEdges(Graph(g.nodes, g.edges + extra), r) == RuleEdges(g, r)
  {
    if extra == {} {
      assert g.edges + extra == g.edges;
    } else if r.Link? {
      var e :| e in extra;
      assert Ignores(r, e.edgeType);
      MatchedIgnores(g, extra, r.pattern);
    }
  }

  /** Re-running a rule that does not traverse the type it creates adds nothing. */
  lemma ApplyIdempotent(g: Graph, r: Rule)
    requires Ignores(r, Creates(r))
    ensures Apply(Apply(g, r), r) == Apply(g, r)
  {
    RuleIgnores(g, RuleEdges(g, r), r);
  }

  /** Two rules that do not read each other's edge type can run in either order. */
  lemma ApplyCommute(g: Graph, a: Rule, b: Rule)
    requires Ignores(a, Creates(b)) && Ignores(b, Creates(a))
    ensures Apply(Apply(g, a), b) == Apply(Apply(g, b), a)
  {
    RuleIgnores(g, RuleEdges(g, a), b);
    RuleIgnores(g, RuleEdges(g, b), a);
  }

  /** Running rules in sequence never removes an edge or touches a node, and
      adds only edges of the types the rules create. */
  lemma {:induction false} RunRulesGrows(g: Graph, rs: seq<Rule>)
    ensures RunRules(g, rs).nodes == g.nodes && g.edges <= RunRules(g, rs).edges
    ensures forall e :: e in RunRules(g, rs).edges - g.edges ==> exists i :: 0 <= i < |rs| && e.edgeType == Creates(rs[i])
  {
    if rs != [] {
      var init := rs[..|rs| - 1];
      RunRulesGrows(g, init);
      assert forall i :: 0 <= i < |init| ==> init[i] == rs[i];
    }
  }

  /** Every matched node is linked to every target. */
  lemma LinkEdgeIn(g: Graph, r: Rule, s: NodeId, m: NodeId)
    requires r.Link? && s in Matched(g, r.pattern) && m in Targets(g, r.targetLabel, r.targetIds)
    ensures GEdge(s, r.edgeType, m) in RuleEdges(g, r)
  {
  }

  /** What every rule of `rs` adds when each sees the original graph. */
  function RulesOn(g: Graph, rs: seq<Rule>): (es: set<GEdge>)
    ensures forall e :: e in es ==> exists i :: 0 <= i < |rs| && e.edgeType == Creates(rs[i])
  {
    if rs == [] then {}
    else
      var init := rs[..|rs| - 1];
      assert forall i :: 0 <= i < |init| ==> init[i] == rs[i];
      RulesOn(g, init) + RuleEdges(g, rs[|rs| - 1])
  }

  /** When no rule reads a type any of them creates, running them in sequence
      is the same as running each on the original graph: their order does not
      matter. */
  lemma {:induction false} RunRulesOrderFree(g: Graph, rs: seq<Rule>)
    requires forall i, j :: 0 <= i < |rs| && 0 <= j < |rs| ==> Ignores(rs[i], Creates(rs[j]))
    ensures RunRules(g, rs) == Graph(g.nodes, g.edges + RulesOn(g, rs))
  {
    if rs != [] {
      var init, last := rs[..|rs| - 1], rs[|rs| - 1];
      assert forall i :: 0 <= i < |init| ==> init[i] == rs[i];
      RunRulesOrderFree(g, init);
      var extra := RulesOn(g, init);
      forall e | e in extra ensures Ignores(last, e.edgeType) {
        var i :| 0 <= i < |init| && e.edgeType == Creates(init[i]);
        assert init[i] == rs[i];
      }
      RuleIgnores(g, extra, last);
    }
  }

  // ---------------------------------------------------------------------------
  // The rules of `run_all_mappings`
  // ---------------------------------------------------------------------------

  const CreatedTypes := {MapsToMitre, UsesTechnique, UsesTactic}

  /** A rule that creates one of the three types and, unless it is the
      untyped path rule, cannot traverse any of them. */
  predicate Quiet(r: Rule) {
    Creates(r) in CreatedTypes && (r != HighValuePathTactics ==> forall t :: t in CreatedTypes ==> Ignores(r, t))
  }

  lemma QuietObjectRules()
    ensures forall r :: r in GroupRules + PrivilegeRules + UserRules + ComputerRules ==> Quiet(r)
  {
  }

  lemma QuietSoftwareAndPathRules()
    ensures forall r :: r in SoftwareRules + PathTacticRules + PathTechniqueRules ==> Quiet(r)
  {
  }

  lemma QuietTacticAndTopRules()
    ensures forall r :: r in ObjectTacticRules + TopRules ==> Quiet(r)
  {
  }

  /** The mappings create three edge types, and only the untyped path rule can
      traverse them. */
  lemma OnlyUntypedPathReadsCreatedTypes()
    ensures |AllRules| == 23
    ensures forall r :: r in AllRules ==> Quiet(r)
    ensures forall t :: !Ignores(HighValuePathTactics, t)
  {
    QuietObjectRules();
    QuietSoftwareAndPathRules();
    QuietTacticAndTopRules();
    assert AllRules == (GroupRules + PrivilegeRules + UserRules + ComputerRules)
                       + (SoftwareRules + PathTacticRules + PathTechniqueRules)
                       + (ObjectTacticRules + TopRules);
  }

  /** Any selection of the mappings other than the untyped path rule, in any
      order, adds what each of them adds on the original graph. */
  lemma MappingsOrderFree(g: Graph, rs: seq<Rule>)
    requires forall i :: 0 <= i < |rs| ==> rs[i] in AllRules && rs[i] != HighValuePathTactics
    ensures RunRules(g, rs) == Graph(g.nodes, g.edges + RulesOn(g, rs))
  {
    OnlyUntypedPathReadsCreatedTypes();
    forall i, j | 0 <= i < |rs| && 0 <= j < |rs| ensures Ignores(rs[i], Creates(rs[j])) {
      assert Quiet(rs[i]) && Quiet(rs[j]);
    }
    RunRulesOrderFree(g, rs);
  }

  // ---------------------------------------------------------------------------
  // Single rules
  // ---------------------------------------------------------------------------

  /** The group-name rule is symmetric. */
  lemma SimilarGroupsSymmetric(g: Graph, a: NodeId, b: NodeId)
    ensures GEdge(a, MapsToMitre, b) in RuleEdges(g, GroupsToMitreGroups)
            <==> GEdge(b, MapsToMitre, a) in RuleEdges(g, GroupsToMitreGroups)
  {
  }

  /** Every named Group is mapped to itself, and an unnamed Group to nothing. */
  lemma SimilarGroupsReflexive(g: Graph, a: NodeId)
    requires HasLabel(g, a, "Group")
    ensures g.nodes[a].name.Some? <==> GEdge(a, MapsToMitre, a) in RuleEdges(g, GroupsToMitreGroups)
    ensures g.nodes[a].name.None? ==> forall b :: GEdge(a, MapsToMitre, b) !in RuleEdges(g, GroupsToMitreGroups)
  {
    if g.nodes[a].name.Some? {
      ContainsItself(ToLower(g.nodes[a].name.value));
    }
  }

  /** A session rule adds nothing unless some session's user has `admincount`
      or its computer is `highvalue`. */
  lemma SessionRulesNeedPrivilege(g: Graph, r: Rule)
    requires r in [UserSessionTechniques, ComputerSessionTechniques, ComputerSessionTactics, UserSessionScripting]
    requires forall e :: e in g.edges && e.edgeType == "HasSession" && HasLabel(g, e.src, "User") && HasLabel(g, e.dst, "Computer")
                         ==> !g.nodes[e.src].admincount && !g.nodes[e.dst].highvalue
    ensures RuleEdges(g, r) == {}
  {
    assert Matched(g, r.pattern) == {};
  }

  /** A privileged session gives its user T1021 and T1059 and its computer
      T1021 and TA0008, for every such MITRE node present. */
  lemma SessionRulesSides(g: Graph, e: GEdge, m: NodeId)
    requires e in g.edges && e.edgeType == "HasSession" && HasLabel(g, e.src, "User") && HasLabel(g, e.dst, "Computer")
    requires g.nodes[e.src].admincount || g.nodes[e.dst].highvalue
    ensures m in Targets(g, "Technique", {"T1021"}) ==>
              GEdge(e.src, UsesTechnique, m) in RuleEdges(g, UserSessionTechniques)
              && GEdge(e.dst, UsesTechnique, m) in RuleEdges(g, ComputerSessionTechniques)
    ensures m in Targets(g, "Technique", {"T1059"}) ==> GEdge(e.src, UsesTechnique, m) in RuleEdges(g, UserSessionScripting)
    ensures m in Targets(g, "Tactic", {"TA0008"}) ==> GEdge(e.dst, UsesTactic, m) in RuleEdges(g, ComputerSessionTactics)
  {
    assert e.src in Matched(g, AdminSession(Start)) && e.dst in Matched(g, AdminSession(Finish));
  }
}
