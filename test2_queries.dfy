/**
 * `CypherDog.generate_neo4j_queries` of scripts/mitre-bloodhound-test2.py: the
 * knowledge becomes a list of Cypher statements, kept here as abstract
 * operations with their exact text alongside. Ids are spliced into the text
 * with an f-string, so a missing id reads "None".
 */
module Test2Queries {
  import opened Wrappers
  import opened Strings
  import opened Test2Knowledge

  /** One generated statement. The tactic name of a link is the parameter
      `$tactic_name`, never bound, so a link carries the technique id only. */
  datatype QueryOp =
    | MergeTactic(id: string)
    | MergeTechnique(id: string)
    | LinkTactic(techniqueId: string)
    | MergeGroup(id: string)
    | MergeSoftware(id: string)
    | MergeRelationship(source: string, edgeType: string, target: string)

  /** f-string interpolation of an optional string. */
  function Splice(o: Option<string>): (r: string)
    ensures o.Some? ==> r == o.value
    ensures o.None? ==> r == "None"
  {
    match o
    case Some(s) => s
    case None => "None"
  }

  /** The statement text. */
  function Render(op: QueryOp): string {
    match op
    case MergeTactic(id) => "MERGE (t:Tactic {id: '" + id + "'}) SET t.name = $name, t.description = $description"
    case MergeTechnique(id) => "MERGE (tech:Technique {id: '" + id + "'}) SET tech.name = $name, tech.description = $description"
    case LinkTactic(id) => "MATCH (t:Tactic), (tech:Technique) WHERE t.name = $tactic_name AND tech.id = '" + id + "' MERGE (t)-[:USES]->(tech)"
    case MergeGroup(id) => "MERGE (g:Group {id: '" + id + "'}) SET g.name = $name, g.description = $description"
    case MergeSoftware(id) => "MERGE (s:Software {id: '" + id + "'}) SET s.name = $name, s.description = $description"
    case MergeRelationship(src, edge, tgt) => "MATCH (a), (b) WHERE a.stix = '" + src + "' AND b.stix = '" + tgt + "' MERGE (a)-[:" + edge + "]->(b)"
  }

  /** The middle of `p + x + q` is `x`. */
  lemma SpliceMiddle(p: string, x: string, q: string)
    ensures (p + x + q)[|p|..|p| + |x|] == x
  {
    assert (p + x + q)[|p|..|p| + |x|] == (p + x)[|p|..];
  }

  /** A tactic merge statement determines its id: the text can be read back. */
  lemma RenderMergeTacticInjective(x: string, y: string)
    requires Render(MergeTactic(x)) == Render(MergeTactic(y))
    ensures x == y
  {
    var p, q := "MERGE (t:Tactic {id: '", "'}) SET t.name = $name, t.description = $description";
    assert Render(MergeTactic(x)) == p + x + q;
    assert Render(MergeTactic(y)) == p + y + q;
    SpliceMiddle(p, x, q);
    SpliceMiddle(p, y, q);
  }

  /** Two tactics without a "mitre-attack" reference produce the same merge
      statement, so they end up as one node. */
  lemma MissingIdsMerge(t1: Tactic, t2: Tactic)
    requires t1.id.None? && t2.id.None?
    ensures Render(MergeTactic(Splice(t1.id))) == Render(MergeTactic(Splice(t2.id)))
    ensures Splice(t1.id) == "None"
  {
  }

  datatype QueryError = MissingEdgeType  // `rel.edge.upper()` on `None`

  function TacticOps(ts: seq<Tactic>): (r: seq<QueryOp>)
    ensures |r| == |ts|
  {
    if ts == [] then [] else TacticOps(ts[..|ts| - 1]) + [MergeTactic(Splice(ts[|ts| - 1].id))]
  }

  /** One link per entry of the technique's `tactic` list. */
  function LinkOps(tech: Technique, names: seq<Option<string>>): (r: seq<QueryOp>)
    ensures |r| == |names|
    ensures forall i :: 0 <= i < |r| ==> r[i] == LinkTactic(Splice(tech.id))
  {
    if names == [] then [] else LinkOps(tech, names[..|names| - 1]) + [LinkTactic(Splice(tech.id))]
  }

  function TechniqueOps(ts: seq<Technique>): seq<QueryOp> {
    if ts == [] then []
    else
      var t := ts[|ts| - 1];
      TechniqueOps(ts[..|ts| - 1]) + [MergeTechnique(Splice(t.id))] + LinkOps(t, t.tactic)
  }

  function GroupOps(gs: seq<Group>): (r: seq<QueryOp>)
    ensures |r| == |gs|
  {
    if gs == [] then [] else GroupOps(gs[..|gs| - 1]) + [MergeGroup(Splice(gs[|gs| - 1].id))]
  }

  function SoftwareOps(ss: seq<Software>): (r: seq<QueryOp>)
    ensures |r| == |ss|
  {
    if ss == [] then [] else SoftwareOps(ss[..|ss| - 1]) + [MergeSoftware(Splice(ss[|ss| - 1].id))]
  }

  function RelationshipOp(rel: Relationship): Result<QueryOp, QueryError> {
    if rel.edge.None? then Failure(MissingEdgeType)
    else Success(MergeRelationship(Splice(rel.source), ToUpper(rel.edge.value), Splice(rel.target)))
  }

  function RelationshipOps(rs: seq<Relationship>): Result<seq<QueryOp>, QueryError> {
    if rs == [] then Success([])
    else
      match RelationshipOps(rs[..|rs| - 1])
      case Failure(e) => Failure(e)
      case Success(ops) =>
        match RelationshipOp(rs[|rs| - 1])
        case Failure(e) => Failure(e)
        case Success(op) => Success(ops + [op])
  }

  /** All statements, in the order the loops emit them. */
  function Queries(ts: seq<Tactic>, techs: seq<Technique>, gs: seq<Group>, ss: seq<Software>, rs: seq<Relationship>)
    : Result<seq<QueryOp>, QueryError>
  {
    match RelationshipOps(rs)
    case Failure(e) => Failure(e)
    case Success(relOps) => Success(TacticOps(ts) + TechniqueOps(techs) + GroupOps(gs) + SoftwareOps(ss) + relOps)
  }

  /** Σ (1 + |tech.tactic|): a merge per technique and a link per tactic name. */
  function TechniqueQueryCount(ts: seq<Technique>): nat {
    if ts == [] then 0 else TechniqueQueryCount(ts[..|ts| - 1]) + 1 + |ts[|ts| - 1].tactic|
  }

  lemma {:induction false} TechniqueOpsCount(ts: seq<Technique>)
    ensures |TechniqueOps(ts)| == TechniqueQueryCount(ts)
  {
    if ts != [] {
      TechniqueOpsCount(ts[..|ts| - 1]);
    }
  }

  /** The relationship statements fail exactly when a relationship lacks its
      type, and otherwise there is one per relationship, type upper-cased. */
  lemma {:induction false} RelationshipOpsAre(rs: seq<Relationship>)
    ensures RelationshipOps(rs).Failure? <==> exists i :: 0 <= i < |rs| && rs[i].edge.None?
    ensures RelationshipOps(rs).Success? ==>
              |RelationshipOps(rs).value| == |rs|
              && forall i :: 0 <= i < |rs| ==>
                   RelationshipOps(rs).value[i]
                   == MergeRelationship(Splice(rs[i].source), ToUpper(rs[i].edge.value), Splice(rs[i].target))
  {
    if rs != [] {
      var init := rs[..|rs| - 1];
      RelationshipOpsAre(init);
      assert forall i :: 0 <= i < |init| ==> init[i] == rs[i];
      if exists i :: 0 <= i < |rs| && rs[i].edge.None? {
        var i :| 0 <= i < |rs| && rs[i].edge.None?;
        if i < |init| {
          assert init[i] == rs[i];
        }
      }
    }
  }

  /** The number of statements is |tactic| + Σ(1 + |tech.tactic|) + |group| + |software| + |relationship|. */
  lemma QueriesCount(ts: seq<Tactic>, techs: seq<Technique>, gs: seq<Group>, ss: seq<Software>, rs: seq<Relationship>)
    requires Queries(ts, techs, gs, ss, rs).Success?
    ensures |Queries(ts, techs, gs, ss, rs).value|
            == |ts| + TechniqueQueryCount(techs) + |gs| + |ss| + |rs|
  {
    TechniqueOpsCount(techs);
    RelationshipOpsAre(rs);
  }

  /** The tactic merges come first, in tactic order, and the relationship
      statements come last, in relationship order. */
  lemma QueriesOrder(ts: seq<Tactic>, techs: seq<Technique>, gs: seq<Group>, ss: seq<Software>, rs: seq<Relationship>)
    requires Queries(ts, techs, gs, ss, rs).Success?
    ensures var q := Queries(ts, techs, gs, ss, rs).value;
            |ts| + |rs| <= |q|
            && (forall i :: 0 <= i < |ts| ==> q[i] == MergeTactic(Splice(ts[i].id)))
            && (forall i :: 0 <= i < |rs| ==>
                  rs[i].edge.Some?
                  && q[|q| - |rs| + i] == MergeRelationship(Splice(rs[i].source), ToUpper(rs[i].edge.value), Splice(rs[i].target)))
  {
    var q := Queries(ts, techs, gs, ss, rs).value;
    var relOps := RelationshipOps(rs).value;
    var head := TacticOps(ts) + TechniqueOps(techs) + GroupOps(gs) + SoftwareOps(ss);
    assert q == head + relOps;
    TacticOpsAre(ts);
    RelationshipOpsAre(rs);
    ConcatEnds(TacticOps(ts), TechniqueOps(techs) + GroupOps(gs) + SoftwareOps(ss), relOps);
  }

  /** Where the first and last parts of a concatenation sit. */
  lemma ConcatEnds(a: seq<QueryOp>, b: seq<QueryOp>, c: seq<QueryOp>)
    ensures |a| + |c| <= |a + b + c|
    ensures forall i :: 0 <= i < |a| ==> (a + b + c)[i] == a[i]
    ensures forall i :: 0 <= i < |c| ==> (a + b + c)[|a + b + c| - |c| + i] == c[i]
  {
  }

  lemma {:induction false} TacticOpsAre(ts: seq<Tactic>)
    ensures forall i :: 0 <= i < |ts| ==> TacticOps(ts)[i] == MergeTactic(Splice(ts[i].id))
  {
    if ts != [] {
      TacticOpsAre(ts[..|ts| - 1]);
    }
  }

  /** Each technique's merge is followed directly by its links. */
  lemma {:induction false} TechniqueOpsBlock(ts: seq<Technique>, k: nat)
    requires k < |ts|
    ensures var start := TechniqueQueryCount(ts[..k]);
            var t := ts[k];
            start + 1 + |t.tactic| <= |TechniqueOps(ts)|
            && TechniqueOps(ts)[start] == MergeTechnique(Splice(t.id))
            && forall j :: start < j <= start + |t.tactic| ==> TechniqueOps(ts)[j] == LinkTactic(Splice(t.id))
    decreases |ts|
  {
    if k == |ts| - 1 {
      TechniqueOpsCount(ts[..k]);
      assert ts[..|ts| - 1] == ts[..k];
    } else {
      TechniqueOpsBlock(ts[..|ts| - 1], k);
      var before := TechniqueOps(ts[..|ts| - 1]);
      assert forall n :: 0 <= n < |before| ==> TechniqueOps(ts)[n] == before[n];
      assert ts[..|ts| - 1][..k] == ts[..k];
      assert ts[..|ts| - 1][k] == ts[k];
    }
  }

  /** `CypherDog`, which holds the knowledge it maps. */
  class CypherDog {
    const knowledge: Knowledge

    constructor (k: Knowledge)
      ensures knowledge == k
    {
      knowledge := k;
    }

    /** `generate_neo4j_queries`: the loops that grow `queries`. */
    method GenerateNeo4jQueries() returns (r: Result<seq<QueryOp>, QueryError>)
      ensures r == Queries(knowledge.tactic, knowledge.technique, knowledge.group, knowledge.software,
                           knowledge.relationship)
    {
      var ts, techs, gs, ss, rs := knowledge.tactic, knowledge.technique, knowledge.group, knowledge.software,
                                   knowledge.relationship;
      var queries: seq<QueryOp> := [];
      queries := EmitTactics(queries, ts);
      assert queries == TacticOps(ts);
      queries := EmitTechniques(queries, techs);
      queries := EmitGroups(queries, gs);
      queries := EmitSoftware(queries, ss);
      r := EmitRelationships(queries, rs);
      if r.Success? {
        assert r.value == TacticOps(ts) + TechniqueOps(techs) + GroupOps(gs) + SoftwareOps(ss)
                          + RelationshipOps(rs).value;
      } else {
        assert RelationshipOps(rs).error == r.error == MissingEdgeType;
      }
    }
  }

  /** The tactic loop. */
  method EmitTactics(queries0: seq<QueryOp>, tactics: seq<Tactic>) returns (queries: seq<QueryOp>)
    ensures queries == queries0 + TacticOps(tactics)
  {
    queries := queries0;
    var i := 0;
    while i < |tactics|
      invariant 0 <= i <= |tactics|
      invariant queries == queries0 + TacticOps(tactics[..i])
    {
      assert tactics[..i + 1][..i] == tactics[..i];
      queries := queries + [MergeTactic(Splice(tactics[i].id))];
      i := i + 1;
    }
    assert tactics[..|tactics|] == tactics;
  }

  /** The technique loop and its inner loop over tactic names. */
  method EmitTechniques(queries0: seq<QueryOp>, techniques: seq<Technique>) returns (queries: seq<QueryOp>)
    ensures queries == queries0 + TechniqueOps(techniques)
  {
    queries := queries0;
    var i := 0;
    while i < |techniques|
      invariant 0 <= i <= |techniques|
      invariant queries == queries0 + TechniqueOps(techniques[..i])
    {
      assert techniques[..i + 1][..i] == techniques[..i];
      var tech := techniques[i];
      queries := queries + [MergeTechnique(Splice(tech.id))];
      ghost var withMerge := queries;
      var j := 0;
      while j < |tech.tactic|
        invariant 0 <= j <= |tech.tactic|
        invariant queries == withMerge + LinkOps(tech, tech.tactic[..j])
      {
        assert tech.tactic[..j + 1][..j] == tech.tactic[..j];
        queries := queries + [LinkTactic(Splice(tech.id))];
        j := j + 1;
      }
      assert tech.tactic[..|tech.tactic|] == tech.tactic;
      i := i + 1;
    }
    assert techniques[..|techniques|] == techniques;
  }

  /** The group loop. */
  method EmitGroups(queries0: seq<QueryOp>, groups: seq<Group>) returns (queries: seq<QueryOp>)
    ensures queries == queries0 + GroupOps(groups)
  {
    queries := queries0;
    var i := 0;
    while i < |groups|
      invariant 0 <= i <= |groups|
      invariant queries == queries0 + GroupOps(groups[..i])
    {
      assert groups[..i + 1][..i] == groups[..i];
      queries := queries + [MergeGroup(Splice(groups[i].id))];
      i := i + 1;
    }
    assert groups[..|groups|] == groups;
  }

  /** The software loop. */
  method EmitSoftware(queries0: seq<QueryOp>, software: seq<Software>) returns (queries: seq<QueryOp>)
    ensures queries == queries0 + SoftwareOps(software)
  {
    queries := queries0;
    var i := 0;
    while i < |software|
      invariant 0 <= i <= |software|
      invariant queries == queries0 + SoftwareOps(software[..i])
    {
      assert software[..i + 1][..i] == software[..i];
      queries := queries + [MergeSoftware(Splice(software[i].id))];
      i := i + 1;
    }
    assert software[..|software|] == software;
  }

  /** The relationship loop; a relationship without a type raises. */
  method EmitRelationships(queries0: seq<QueryOp>, rels: seq<Relationship>) returns (r: Result<seq<QueryOp>, QueryError>)
    ensures r.Success? <==> RelationshipOps(rels).Success?
    ensures r.Success? ==> r.value == queries0 + RelationshipOps(rels).value
  {
    var queries := queries0;
    var i := 0;
    while i < |rels|
      invariant 0 <= i <= |rels|
      invariant RelationshipOps(rels[..i]).Success?
      invariant queries == queries0 + RelationshipOps(rels[..i]).value
    {
      assert rels[..i + 1][..i] == rels[..i];
      if rels[i].edge.None? {
        RelationshipFailureStays(rels, i + 1);
        return Failure(MissingEdgeType);
      }
      queries := queries + [MergeRelationship(Splice(rels[i].source), ToUpper(rels[i].edge.value), Splice(rels[i].target))];
      i := i + 1;
    }
    assert rels[..|rels|] == rels;
    r := Success(queries);
  }

  lemma {:induction false} RelationshipFailureStays(rs: seq<Relationship>, k: nat)
    requires k <= |rs| && RelationshipOps(rs[..k]).Failure?
    ensures RelationshipOps(rs) == RelationshipOps(rs[..k])
    decreases |rs| - k
  {
    if k < |rs| {
      assert rs[..k + 1][..k] == rs[..k];
      RelationshipFailureStays(rs, k + 1);
    } else {
      assert rs[..k] == rs;
    }
  }
}
