/**
 * `add_node`, `add_relationship` and `push_to_bloodhound` of
 * scripts/mitre-bloodhound-test1.py: the fetched entities become nodes
 * (techniques as GPO, groups as Group, software as Computer, tactics as OU)
 * merged on their `ID`, and every "uses" relationship becomes a `Uses` edge
 * between the nodes its STIX ids resolve to.
 */
module Test1Push {
  import opened Wrappers
  import opened Strings
  import opened JsonValue
  import opened Stix
  import opened GraphStore
  import opened Test1Fetch

  const TechniqueLabel := "GPO"
  const GroupLabel := "Group"
  const SoftwareLabel := "Computer"
  const TacticLabel := "OU"

  /** What the push reads from any of the four entity kinds. */
  datatype Entity = Entity(id: Option<string>, name: string, description: string, reference: Option<ExternalReference>)

  /** The list the endpoint search walks for a label, in fetch order. */
  function EntitiesOf(data: AttckData, labelName: string): (es: seq<Entity>)
    ensures labelName == TechniqueLabel ==> |es| == |data.techniques|
    ensures labelName == GroupLabel ==> |es| == |data.groups|
    ensures labelName == SoftwareLabel ==> |es| == |data.software|
    ensures labelName == TacticLabel ==> |es| == |data.tactics|
  {
    if labelName == TechniqueLabel then
      seq(|data.techniques|, i requires 0 <= i < |data.techniques| =>
        var t := data.techniques[i]; Entity(t.id, t.name, t.description, t.reference))
    else if labelName == GroupLabel then
      seq(|data.groups|, i requires 0 <= i < |data.groups| =>
        var g := data.groups[i]; Entity(g.id, g.name, g.description, g.reference))
    else if labelName == SoftwareLabel then
      seq(|data.software|, i requires 0 <= i < |data.software| =>
        var s := data.software[i]; Entity(s.id, s.name, s.description, s.reference))
    else if labelName == TacticLabel then
      seq(|data.tactics|, i requires 0 <= i < |data.tactics| =>
        var t := data.tactics[i]; Entity(t.id, t.name, t.description, t.reference))
    else []
  }

  // ---------------------------------------------------------------------------
  // Nodes
  // ---------------------------------------------------------------------------

  /** `add_node(label, {"ID": e.ID, "name": e.Name, "description": e.Description})`.
      The merge key is `ID or name or Name`; the entity dictionary has no "Name",
      so an entity with neither an id nor a name has a `null` key, which the
      store refuses (and `send_cypher_query` swallows the error). */
  function AddNode(labelName: string, e: Entity): (w: Option<NodeWrite>)
    ensures w.Some? <==> TruthyStr(e.id) || e.name != ""
    ensures TruthyStr(e.id) ==> w.Some? && w.value.key == NodeKey(labelName, JStr(e.id.value))
    ensures !TruthyStr(e.id) && e.name != "" ==> w.Some? && w.value.key == NodeKey(labelName, JStr(e.name))
    ensures w.Some? ==> w.value.props == map["ID" := w.value.key.key, "name" := JStr(e.name),
                                            "description" := JStr(e.description)]
  {
    var key := if TruthyStr(e.id) then e.id else if e.name != "" then Some(e.name) else None;
    match key
    case None => None
    case Some(k) =>
      Some(NodeWrite(NodeKey(labelName, JStr(k)),
                     map["ID" := JStr(k), "name" := JStr(e.name), "description" := JStr(e.description)]))
  }

  /** The writes of one node loop, in list order. */
  function Writes(labelName: string, es: seq<Entity>): seq<NodeWrite> {
    if es == [] then []
    else
      Writes(labelName, es[..|es| - 1])
      + match AddNode(labelName, es[|es| - 1]) { case Some(w) => [w] case None => [] }
  }

  /** The four node loops in the order the push runs them. */
  function NodeWrites(data: AttckData): seq<NodeWrite> {
    Writes(TechniqueLabel, EntitiesOf(data, TechniqueLabel))
    + Writes(GroupLabel, EntitiesOf(data, GroupLabel))
    + Writes(SoftwareLabel, EntitiesOf(data, SoftwareLabel))
    + Writes(TacticLabel, EntitiesOf(data, TacticLabel))
  }

  /** Every entity with a key gets a write, and every write comes from an entity. */
  lemma {:induction false} WritesFromEntities(labelName: string, es: seq<Entity>, k: NodeKey)
    ensures Written(Writes(labelName, es), k) <==>
              exists i :: 0 <= i < |es| && AddNode(labelName, es[i]).Some? && AddNode(labelName, es[i]).value.key == k
  {
    if es != [] {
      var init := es[..|es| - 1];
      WritesFromEntities(labelName, init, k);
      var last := es[|es| - 1];
      var tail := match AddNode(labelName, last) { case Some(w) => [w] case None => [] };
      assert Writes(labelName, es) == Writes(labelName, init) + tail;
      WrittenConcat(Writes(labelName, init), tail, k);
      if Written(Writes(labelName, init), k) {
        var i :| 0 <= i < |init| && AddNode(labelName, init[i]).Some? && AddNode(labelName, init[i]).value.key == k;
        assert init[i] == es[i];
      }
      if Written(tail, k) {
        assert AddNode(labelName, es[|es| - 1]).Some? && AddNode(labelName, es[|es| - 1]).value.key == k;
      }
      if exists i :: 0 <= i < |es| && AddNode(labelName, es[i]).Some? && AddNode(labelName, es[i]).value.key == k {
        var i :| 0 <= i < |es| && AddNode(labelName, es[i]).Some? && AddNode(labelName, es[i]).value.key == k;
        if i < |init| {
          assert init[i] == es[i];
          assert Written(Writes(labelName, init), k);
        } else {
          assert tail[0].key == k;
          assert Written(tail, k);
        }
      }
    }
  }

  lemma WrittenConcat(a: seq<NodeWrite>, b: seq<NodeWrite>, k: NodeKey)
    ensures Written(a + b, k) <==> Written(a, k) || Written(b, k)
  {
    if Written(a + b, k) {
      var i :| 0 <= i < |a + b| && (a + b)[i].key == k;
      if i >= |a| {
        assert b[i - |a|] == (a + b)[i];
      }
    }
    if Written(a, k) {
      var i :| 0 <= i < |a| && a[i].key == k;
      assert (a + b)[i] == a[i];
    }
    if Written(b, k) {
      var i :| 0 <= i < |b| && b[i].key == k;
      assert (a + b)[|a| + i] == b[i];
    }
  }

  // ---------------------------------------------------------------------------
  // Edges
  // ---------------------------------------------------------------------------

  datatype PushError =
    | MissingRelationshipEnd  // `None.startswith(...)`: a relationship without source_ref or target_ref
    | MissingReference        // `None.get("source_id", "")`: an entity parsed without references

  /** The match test of the endpoint search. */
  predicate Matches(stixId: string, e: Entity)
    requires e.reference.Some?
  {
    stixId == e.reference.value.sourceId.GetOr("")
    || stixId == e.reference.value.sourceRef.GetOr("")
    || Some(stixId) == e.id
  }

  /** The search over one label's list: the first matching entity gives its `ID`
      (the STIX id when that `ID` is `None`); reaching an entity without a
      reference raises; no match at all falls back to the STIX id. */
  function ResolveEndpoint(stixId: string, es: seq<Entity>): Result<string, PushError> {
    if es == [] then Success(stixId)
    else if es[0].reference.None? then Failure(MissingReference)
    else if Matches(stixId, es[0]) then Success(es[0].id.GetOr(stixId))
    else ResolveEndpoint(stixId, es[1..])
  }

  /** The endpoint is decided by the first entity that matches or lacks a reference. */
  lemma {:induction false} ResolveEndpointAt(stixId: string, es: seq<Entity>, k: nat)
    requires k <= |es|
    requires forall j :: 0 <= j < k ==> es[j].reference.Some? && !Matches(stixId, es[j])
    ensures k == |es| ==> ResolveEndpoint(stixId, es) == Success(stixId)
    ensures k < |es| && es[k].reference.None? ==> ResolveEndpoint(stixId, es) == Failure(MissingReference)
    ensures k < |es| && es[k].reference.Some? && Matches(stixId, es[k]) ==>
              ResolveEndpoint(stixId, es) == Success(es[k].id.GetOr(stixId))
  {
    if k > 0 {
      ResolveEndpointAt(stixId, es[1..], k - 1);
    }
  }

  /** The search loop with its `break`. */
  method FindEndpoint(stixId: string, es: seq<Entity>) returns (r: Result<string, PushError>)
    ensures r == ResolveEndpoint(stixId, es)
  {
    var i := 0;
    while i < |es|
      invariant 0 <= i <= |es|
      invariant ResolveEndpoint(stixId, es) == ResolveEndpoint(stixId, es[i..])
    {
      assert es[i..][1..] == es[i + 1..];
      if es[i].reference.None? {
        return Failure(MissingReference);
      }
      var ref := es[i].reference.value;
      if stixId == ref.sourceId.GetOr("") || stixId == ref.sourceRef.GetOr("") || Some(stixId) == es[i].id {
        if es[i].id.None? {
          return Success(stixId);
        }
        return Success(es[i].id.value);
      }
      i := i + 1;
    }
    r := Success(stixId);
  }

  /** One relationship: `None` when it is skipped for an unknown prefix. */
  function RelationshipEdge(data: AttckData, rel: Relationship): Result<Option<Edge>, PushError> {
    if rel.sourceId.None? || rel.targetId.None? then Failure(MissingRelationshipEnd)
    else
      var src, tgt := rel.sourceId.value, rel.targetId.value;
      var sl, tl := LabelOfStixId(src), LabelOfStixId(tgt);
      if sl.None? || tl.None? then Success(None)
      else
        match ResolveEndpoint(src, EntitiesOf(data, sl.value))
        case Failure(e) => Failure(e)
        case Success(s) =>
          match ResolveEndpoint(tgt, EntitiesOf(data, tl.value))
          case Failure(e) => Failure(e)
          case Success(t) => Success(Some(Edge(sl.value, JStr(s), "Uses", tl.value, JStr(t))))
  }

  /** A relationship is skipped exactly when one of its STIX ids has none of the known prefixes. */
  lemma RelationshipSkipped(data: AttckData, rel: Relationship)
    requires rel.sourceId.Some? && rel.targetId.Some?
    ensures RelationshipEdge(data, rel) == Success(None) <==>
              !KnownStixPrefix(rel.sourceId.value) || !KnownStixPrefix(rel.targetId.value)
  {
  }

  /** The label of each endpoint comes from its own STIX prefix, and the edge type is always "Uses". */
  lemma RelationshipEdgeShape(data: AttckData, rel: Relationship)
    requires RelationshipEdge(data, rel).Success? && RelationshipEdge(data, rel).value.Some?
    ensures var e := RelationshipEdge(data, rel).value.value;
            Some(e.srcLabel) == LabelOfStixId(rel.sourceId.value)
            && Some(e.tgtLabel) == LabelOfStixId(rel.targetId.value)
            && e.edgeType == "Uses" && e.srcKey.JStr? && e.tgtKey.JStr?
  {
  }

  /** The outcome of a push: whether it raised, and the store as it was left. */
  datatype Outcome = Outcome(result: Result<(), PushError>, graph: GraphState)

  /** One pass of the relationship loop. */
  function PushEdgeStep(g: GraphState, data: AttckData, rel: Relationship): Outcome {
    match RelationshipEdge(data, rel)
    case Failure(e) => Outcome(Failure(e), g)
    case Success(None) => Outcome(Success(()), g)
    case Success(Some(e)) => Outcome(Success(()), MatchMergeEdge(g, e))
  }

  /** The relationship loop over a prefix of the relationships; it stops at the first raise. */
  function PushEdges(g: GraphState, data: AttckData, rels: seq<Relationship>): Outcome {
    if rels == [] then Outcome(Success(()), g)
    else
      var before := PushEdges(g, data, rels[..|rels| - 1]);
      if before.result.Failure? then before else PushEdgeStep(before.graph, data, rels[|rels| - 1])
  }

  /** `push_to_bloodhound` after the fetch: the node loops, then the relationship loop. */
  function PushSpec(g: GraphState, data: AttckData): Outcome {
    PushEdges(GraphState(ApplyNodeWrites(g.nodes, NodeWrites(data)), g.edges), data, data.relationships)
  }

  // ---------------------------------------------------------------------------
  // What the push leaves behind
  // ---------------------------------------------------------------------------

  /** The first raise of the relationship loop, which depends on the data only. */
  function EdgeResult(data: AttckData, rels: seq<Relationship>): Result<(), PushError> {
    if rels == [] then Success(())
    else if EdgeResult(data, rels[..|rels| - 1]).Failure? then EdgeResult(data, rels[..|rels| - 1])
    else match RelationshipEdge(data, rels[|rels| - 1])
      case Failure(e) => Failure(e)
      case Success(_) => Success(())
  }

  /** The edge one relationship merges into a store holding `nodes`. */
  function NewEdge(nodes: map<NodeKey, Props>, data: AttckData, rel: Relationship): set<Edge> {
    match RelationshipEdge(data, rel)
    case Success(Some(e)) => if SourceKey(e) in nodes && TargetKey(e) in nodes then {e} else {}
    case _ => {}
  }

  lemma NewEdgeIs(nodes: map<NodeKey, Props>, data: AttckData, rel: Relationship, e: Edge)
    ensures e in NewEdge(nodes, data, rel) <==>
              RelationshipEdge(data, rel) == Success(Some(e)) && SourceKey(e) in nodes && TargetKey(e) in nodes
  {
  }

  /** The edges the relationship loop merges while it has not raised. */
  function Produced(nodes: map<NodeKey, Props>, data: AttckData, rels: seq<Relationship>): set<Edge> {
    if rels == [] then {}
    else
      var init := rels[..|rels| - 1];
      if EdgeResult(data, init).Failure? then Produced(nodes, data, init)
      else Produced(nodes, data, init) + NewEdge(nodes, data, rels[|rels| - 1])
  }

  /** The relationship loop never touches nodes; it adds the produced edges to the old ones. */
  lemma {:induction false} PushEdgesDecompose(g: GraphState, data: AttckData, rels: seq<Relationship>)
    ensures PushEdges(g, data, rels)
            == Outcome(EdgeResult(data, rels), GraphState(g.nodes, g.edges + Produced(g.nodes, data, rels)))
  {
    if rels != [] {
      PushEdgesDecompose(g, data, rels[..|rels| - 1]);
    }
  }

  lemma ProducedStep(nodes: map<NodeKey, Props>, data: AttckData, rels: seq<Relationship>)
    requires rels != [] && EdgeResult(data, rels).Success?
    ensures EdgeResult(data, rels[..|rels| - 1]).Success?
    ensures Produced(nodes, data, rels)
            == Produced(nodes, data, rels[..|rels| - 1]) + NewEdge(nodes, data, rels[|rels| - 1])
  {
  }

  /** After a push that did not raise, an edge is in the store exactly when it was
      there before, or some relationship resolves to it and both of its endpoint
      nodes exist (see `NewEdgeIs`). */
  lemma {:induction false} ProducedEdges(nodes: map<NodeKey, Props>, data: AttckData, rels: seq<Relationship>, e: Edge)
    requires EdgeResult(data, rels).Success?
    ensures e in Produced(nodes, data, rels) <==> exists i :: 0 <= i < |rels| && e in NewEdge(nodes, data, rels[i])
  {
    if e in Produced(nodes, data, rels) {
      ProducedFrom(nodes, data, rels, e);
    }
    if exists i :: 0 <= i < |rels| && e in NewEdge(nodes, data, rels[i]) {
      var i :| 0 <= i < |rels| && e in NewEdge(nodes, data, rels[i]);
      ProducedHas(nodes, data, rels, i, e);
    }
  }

  lemma {:induction false} ProducedFrom(nodes: map<NodeKey, Props>, data: AttckData, rels: seq<Relationship>, e: Edge)
    requires EdgeResult(data, rels).Success? && e in Produced(nodes, data, rels)
    ensures exists i :: 0 <= i < |rels| && e in NewEdge(nodes, data, rels[i])
  {
    var init := rels[..|rels| - 1];
    ProducedStep(nodes, data, rels);
    if e in Produced(nodes, data, init) {
      ProducedFrom(nodes, data, init, e);
      var i :| 0 <= i < |init| && e in NewEdge(nodes, data, init[i]);
      assert init[i] == rels[i];
    } else {
      assert e in NewEdge(nodes, data, rels[|rels| - 1]);
    }
  }

  lemma {:induction false} ProducedHas(nodes: map<NodeKey, Props>, data: AttckData, rels: seq<Relationship>, i: nat,
                                       e: Edge)
    requires EdgeResult(data, rels).Success? && i < |rels| && e in NewEdge(nodes, data, rels[i])
    ensures e in Produced(nodes, data, rels)
  {
    var init := rels[..|rels| - 1];
    ProducedStep(nodes, data, rels);
    var before, last := Produced(nodes, data, init), NewEdge(nodes, data, rels[|rels| - 1]);
    if i < |init| {
      assert init[i] == rels[i];
      ProducedHas(nodes, data, init, i, e);
      assert e in before;
    } else {
      assert e in last;
    }
  }

  /** The nodes after the push are the old ones with the entity writes applied,
      whether or not the relationship loop raised. */
  lemma PushNodes(g: GraphState, data: AttckData)
    ensures PushSpec(g, data).graph.nodes == ApplyNodeWrites(g.nodes, NodeWrites(data))
    ensures PushSpec(g, data).result == EdgeResult(data, data.relationships)
  {
    PushEdgesDecompose(GraphState(ApplyNodeWrites(g.nodes, NodeWrites(data)), g.edges), data, data.relationships);
  }

  /** Pushing the same data twice leaves the store as pushing it once: nodes are
      merged on their key and edges on their endpoints. */
  lemma PushTwice(g: GraphState, data: AttckData)
    ensures PushSpec(PushSpec(g, data).graph, data) == PushSpec(g, data)
  {
    var ws := NodeWrites(data);
    var n1 := ApplyNodeWrites(g.nodes, ws);
    PushEdgesDecompose(GraphState(n1, g.edges), data, data.relationships);
    var g1 := PushSpec(g, data).graph;
    ApplyNodeWritesTwice(g.nodes, ws);
    PushEdgesDecompose(GraphState(ApplyNodeWrites(g1.nodes, ws), g1.edges), data, data.relationships);
    var p := Produced(n1, data, data.relationships);
    assert g.edges + p + p == g.edges + p;
  }

  // ---------------------------------------------------------------------------
  // The push itself
  // ---------------------------------------------------------------------------

  /** One node loop. */
  method PushNodeLoop(store: Store, labelName: string, es: seq<Entity>)
    modifies store
    ensures store.nodes == ApplyNodeWrites(old(store.nodes), Writes(labelName, es))
    ensures store.edges == old(store.edges)
  {
    var i := 0;
    while i < |es|
      invariant 0 <= i <= |es|
      invariant store.nodes == ApplyNodeWrites(old(store.nodes), Writes(labelName, es[..i]))
      invariant store.edges == old(store.edges)
    {
      assert es[..i + 1][..i] == es[..i];
      var w := AddNode(labelName, es[i]);
      ghost var sofar := Writes(labelName, es[..i]);
      if w.Some? {
        store.MergeNode(w.value);
        assert Writes(labelName, es[..i + 1]) == sofar + [w.value];
        assert sofar + [w.value] == (sofar + [w.value])[..|sofar|] + [w.value];
      } else {
        assert Writes(labelName, es[..i + 1]) == sofar + [];
        assert sofar + [] == sofar;
      }
      i := i + 1;
    }
    assert es[..|es|] == es;
  }

  /** The four node loops. */
  method PushAllNodes(store: Store, data: AttckData)
    modifies store
    ensures store.nodes == ApplyNodeWrites(old(store.nodes), NodeWrites(data))
    ensures store.edges == old(store.edges)
  {
    ghost var n0 := store.nodes;
    PushNodeLoop(store, TechniqueLabel, EntitiesOf(data, TechniqueLabel));
    PushNodeLoop(store, GroupLabel, EntitiesOf(data, GroupLabel));
    PushNodeLoop(store, SoftwareLabel, EntitiesOf(data, SoftwareLabel));
    PushNodeLoop(store, TacticLabel, EntitiesOf(data, TacticLabel));
    ghost var w1, w2 := Writes(TechniqueLabel, EntitiesOf(data, TechniqueLabel)), Writes(GroupLabel, EntitiesOf(data, GroupLabel));
    ghost var w3, w4 := Writes(SoftwareLabel, EntitiesOf(data, SoftwareLabel)), Writes(TacticLabel, EntitiesOf(data, TacticLabel));
    ApplyNodeWritesConcat(n0, w1, w2);
    ApplyNodeWritesConcat(n0, w1 + w2, w3);
    ApplyNodeWritesConcat(n0, w1 + w2 + w3, w4);
  }

  /** One pass of the relationship loop: labels by prefix, the two searches, the edge merge. */
  method PushRelationship(store: Store, data: AttckData, rel: Relationship) returns (r: Result<(), PushError>)
    modifies store
    ensures Outcome(r, store.State()) == PushEdgeStep(old(store.State()), data, rel)
  {
    if rel.sourceId.None? || rel.targetId.None? {
      return Failure(MissingRelationshipEnd);
    }
    var src, tgt := rel.sourceId.value, rel.targetId.value;
    var sourceLabel, targetLabel := LabelOfStixId(src), LabelOfStixId(tgt);
    if sourceLabel.None? || targetLabel.None? {
      return Success(());
    }
    var sourceExtId := FindEndpoint(src, EntitiesOf(data, sourceLabel.value));
    if sourceExtId.Failure? {
      return Failure(sourceExtId.error);
    }
    var targetExtId := FindEndpoint(tgt, EntitiesOf(data, targetLabel.value));
    if targetExtId.Failure? {
      return Failure(targetExtId.error);
    }
    store.MergeEdge(Edge(sourceLabel.value, JStr(sourceExtId.value), "Uses", targetLabel.value, JStr(targetExtId.value)));
    r := Success(());
  }

  /** `push_to_bloodhound` once the data is fetched. */
  method PushToBloodHound(store: Store, data: AttckData) returns (r: Result<(), PushError>)
    modifies store
    ensures Outcome(r, store.State()) == PushSpec(old(store.State()), data)
  {
    PushAllNodes(store, data);
    ghost var g1 := store.State();
    var rels := data.relationships;
    var i := 0;
    while i < |rels|
      invariant 0 <= i <= |rels|
      invariant PushEdges(g1, data, rels[..i]) == Outcome(Success(()), store.State())
    {
      assert rels[..i + 1][..i] == rels[..i];
      var step := PushRelationship(store, data, rels[i]);
      if step.Failure? {
        PushEdgesFailureStays(g1, data, rels, i + 1);
        return step;
      }
      i := i + 1;
    }
    assert rels[..|rels|] == rels;
    r := Success(());
  }

  /** Once the relationship loop has raised, the store is left as it was at that point. */
  lemma {:induction false} PushEdgesFailureStays(g: GraphState, data: AttckData, rels: seq<Relationship>, k: nat)
    requires k <= |rels| && PushEdges(g, data, rels[..k]).result.Failure?
    ensures PushEdges(g, data, rels) == PushEdges(g, data, rels[..k])
    decreases |rels| - k
  {
    if k < |rels| {
      assert rels[..k + 1][..k] == rels[..k];
      PushEdgesFailureStays(g, data, rels, k + 1);
    } else {
      assert rels[..k] == rels;
    }
  }
}
