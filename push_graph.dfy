/**
 * The graph half of scripts/ATTCKnowledge-push.py: `BloodHoundGraph.create_node`
 * and `create_relationship` against the abstract store, and
 * `push_attck_to_bloodhound`, which writes tactics, techniques, software and
 * groups as OU, GPO, Computer and Group nodes, then links each technique to
 * the tactics named in its kill-chain phases, then adds the bundle's declared
 * relationships between nodes labelled by `stix_type_to_label`.
 */
module PushGraph {
  import opened Wrappers
  import opened Strings
  import opened JsonValue
  import opened Stix
  import opened GraphStore
  import opened PushKnowledge

  // ---------------------------------------------------------------------------
  // `asdict` of each record, keyed by its field names
  // ---------------------------------------------------------------------------

  function TacticProps(t: Tactic): (p: Props)
    ensures "id" in p && p["id"] == JStr(t.id)
  {
    map["name" := JStr(t.name), "description" := JStr(t.description), "type" := StrList(t.tacticType),
        "id" := JStr(t.id), "wiki" := JStr(t.wiki), "reference" := ReferencesJson(t.reference),
        "created" := JStr(t.created), "modified" := JStr(t.modified),
        "contributor" := StrList(t.contributor), "stix" := JStr(t.stix)]
  }

  function TechniqueProps(t: Technique): (p: Props)
    ensures "id" in p && p["id"] == JStr(t.id)
  {
    map["name" := JStr(t.name), "tactic" := StrList(t.tactic), "description" := JStr(t.description),
        "platform" := StrList(t.platform), "permission" := StrList(t.permission),
        "bypass" := StrList(t.bypass), "effective_perm" := StrList(t.effectivePerm),
        "network" := t.network, "remote" := t.remote, "prereq" := t.prereq,
        "detection" := JStr(t.detection), "mitigation" := JStr(t.mitigation),
        "data_source" := StrList(t.dataSource), "id" := JStr(t.id), "wiki" := JStr(t.wiki),
        "reference" := ReferencesJson(t.reference), "created" := JStr(t.created),
        "modified" := JStr(t.modified), "contributor" := StrList(t.contributor), "stix" := JStr(t.stix)]
  }

  function SoftwareProps(s: Software): (p: Props)
    ensures "id" in p && p["id"] == JStr(s.id)
  {
    map["name" := JStr(s.name), "description" := JStr(s.description), "type" := JStr(s.softwareType),
        "alias" := StrList(s.alias), "id" := JStr(s.id), "wiki" := JStr(s.wiki),
        "reference" := ReferencesJson(s.reference), "created" := JStr(s.created),
        "modified" := JStr(s.modified), "contributor" := StrList(s.contributor), "stix" := JStr(s.stix)]
  }

  function GroupProps(g: Group): (p: Props)
    ensures "id" in p && p["id"] == JStr(g.id)
  {
    map["name" := JStr(g.name), "description" := JStr(g.description), "alias" := StrList(g.alias),
        "id" := JStr(g.id), "wiki" := JStr(g.wiki), "reference" := ReferencesJson(g.reference),
        "created" := JStr(g.created), "modified" := JStr(g.modified),
        "contributor" := StrList(g.contributor), "stix" := JStr(g.stix)]
  }

  // ---------------------------------------------------------------------------
  // `create_node`
  // ---------------------------------------------------------------------------

  /** The comprehension that drops `None`, `''`, `[]` and `{}`. */
  function KeepNonEmpty(properties: Props): (props: Props)
    ensures props.Keys <= properties.Keys
    ensures forall k :: k in props ==> props[k] == properties[k] && !EmptyLike(props[k])
    ensures forall k :: k in properties && !EmptyLike(properties[k]) ==> k in props
  {
    map k | k in properties && !EmptyLike(properties[k]) :: properties[k]
  }

  /** `props['id']` on the filtered properties raises `KeyError`. */
  datatype PushError = MissingId(nodeLabel: string)

  /** One `create_node(label, asdict(x))` call. */
  datatype NodeRequest = NodeRequest(nodeLabel: string, properties: Props)

  /** The `MERGE (n:label {id: $id}) SET n += $props` a call issues, or the error it raises. */
  function NodeWriteOf(q: NodeRequest): (r: Result<NodeWrite, PushError>)
    ensures r.Failure? <==> "id" !in q.properties || EmptyLike(q.properties["id"])
    ensures r.Failure? ==> r.error == MissingId(q.nodeLabel)
    ensures r.Success? ==> r.value.key == NodeKey(q.nodeLabel, q.properties["id"])
    ensures r.Success? ==> forall k :: k in r.value.props ==> !EmptyLike(r.value.props[k])
  {
    var props := KeepNonEmpty(q.properties);
    if "id" in props then Success(NodeWrite(NodeKey(q.nodeLabel, props["id"]), props))
    else Failure(MissingId(q.nodeLabel))
  }

  /** A record whose `id` is `''` cannot be written; any other is merged on
      `(nodeLabel, id)`. */
  lemma NodeWriteOfRecord(nodeLabel: string, props: Props, id: string)
    requires "id" in props && props["id"] == JStr(id)
    ensures NodeWriteOf(NodeRequest(nodeLabel, props)).Failure? <==> id == ""
    ensures id != "" ==> NodeWriteOf(NodeRequest(nodeLabel, props)).value.key == NodeKey(nodeLabel, JStr(id))
  {
  }

  /** The filtered properties hold no `null`, so `SET n += $props` overwrites
      the properties it names and keeps every other one. */
  lemma MergeKeepsOtherProps(current: Props, kept: Props)
    requires forall k :: k in kept ==> !EmptyLike(kept[k])
    ensures SetProps(current, kept) == current + kept
  {
  }

  datatype NodeOutcome = NodeOutcome(error: Option<PushError>, nodes: map<NodeKey, Props>)

  /** One `create_node` call on the store's nodes. */
  function NodeStep(nodes: map<NodeKey, Props>, q: NodeRequest): NodeOutcome {
    match NodeWriteOf(q)
    case Failure(e) => NodeOutcome(Some(e), nodes)
    case Success(w) => NodeOutcome(None, Upsert(nodes, w))
  }

  /** The calls in order; the first `KeyError` ends the push. */
  function NodePhase(nodes: map<NodeKey, Props>, qs: seq<NodeRequest>): NodeOutcome {
    if qs == [] then NodeOutcome(None, nodes)
    else
      var prev := NodePhase(nodes, qs[..|qs| - 1]);
      if prev.error.Some? then prev else NodeStep(prev.nodes, qs[|qs| - 1])
  }

  predicate AllKeyed(qs: seq<NodeRequest>) {
    forall i :: 0 <= i < |qs| ==> NodeWriteOf(qs[i]).Success?
  }

  /** The writes of calls that all succeed. */
  function Writes(qs: seq<NodeRequest>): (ws: seq<NodeWrite>)
    requires AllKeyed(qs)
    ensures |ws| == |qs|
  {
    seq(|qs|, i requires 0 <= i < |qs| && AllKeyed(qs) => NodeWriteOf(qs[i]).value)
  }

  lemma WritesPrefix(qs: seq<NodeRequest>, n: nat)
    requires AllKeyed(qs) && n <= |qs|
    ensures AllKeyed(qs[..n]) && Writes(qs[..n]) == Writes(qs)[..n]
  {
  }

  lemma AllKeyedSnoc(qs: seq<NodeRequest>)
    requires qs != []
    ensures AllKeyed(qs) <==> AllKeyed(qs[..|qs| - 1]) && NodeWriteOf(qs[|qs| - 1]).Success?
    ensures AllKeyed(qs) ==> Writes(qs) == Writes(qs[..|qs| - 1]) + [NodeWriteOf(qs[|qs| - 1]).value]
  {
    assert forall i :: 0 <= i < |qs| - 1 ==> qs[..|qs| - 1][i] == qs[i];
  }

  /** The node calls raise nothing exactly when every request has an `id`, and
      they are then the upserts of their writes, in order. */
  lemma {:induction false} NodePhaseSucceeds(nodes: map<NodeKey, Props>, qs: seq<NodeRequest>)
    ensures NodePhase(nodes, qs).error.None? <==> AllKeyed(qs)
    ensures AllKeyed(qs) ==> NodePhase(nodes, qs).nodes == ApplyNodeWrites(nodes, Writes(qs))
  {
    if qs != [] {
      var init := qs[..|qs| - 1];
      NodePhaseSucceeds(nodes, init);
      AllKeyedSnoc(qs);
      if AllKeyed(qs) {
        ApplyNodeWritesSnoc(nodes, Writes(init), NodeWriteOf(qs[|qs| - 1]).value);
      }
    }
  }

  /** Otherwise the first request without an `id` raises, and the writes
      before it have been made. */
  lemma {:induction false} NodePhaseFails(nodes: map<NodeKey, Props>, qs: seq<NodeRequest>, i: nat)
    requires i < |qs| && AllKeyed(qs[..i]) && NodeWriteOf(qs[i]).Failure?
    ensures NodePhase(nodes, qs)
            == NodeOutcome(Some(MissingId(qs[i].nodeLabel)), ApplyNodeWrites(nodes, Writes(qs[..i])))
  {
    NodePhaseSucceeds(nodes, qs[..i]);
    assert qs[..i + 1][..i] == qs[..i];
    NodePhaseFailureStays(nodes, qs, i + 1);
  }

  /** Once a call has raised, later calls are never made. */
  lemma {:induction false} NodePhaseFailureStays(nodes: map<NodeKey, Props>, qs: seq<NodeRequest>, n: nat)
    requires n <= |qs|
    requires NodePhase(nodes, qs[..n]).error.Some?
    ensures NodePhase(nodes, qs) == NodePhase(nodes, qs[..n])
    decreases |qs| - n
  {
    if n < |qs| {
      assert qs[..|qs| - 1][..n] == qs[..n];
      NodePhaseFailureStays(nodes, qs[..|qs| - 1], n);
    } else {
      assert qs[..n] == qs;
    }
  }

  /** Two loops in a row: the second runs only when the first raised nothing. */
  lemma {:induction false} NodePhaseConcat(nodes: map<NodeKey, Props>, a: seq<NodeRequest>, b: seq<NodeRequest>)
    ensures NodePhase(nodes, a + b)
            == if NodePhase(nodes, a).error.Some? then NodePhase(nodes, a)
               else NodePhase(NodePhase(nodes, a).nodes, b)
  {
    if b == [] {
      assert a + b == a;
    } else {
      assert (a + b)[..|a + b| - 1] == a + b[..|b| - 1];
      assert (a + b)[|a + b| - 1] == b[|b| - 1];
      NodePhaseConcat(nodes, a, b[..|b| - 1]);
    }
  }

  lemma AllKeyedConcat(a: seq<NodeRequest>, b: seq<NodeRequest>)
    ensures AllKeyed(a + b) <==> AllKeyed(a) && AllKeyed(b)
    ensures AllKeyed(a + b) ==> Writes(a + b) == Writes(a) + Writes(b)
  {
    assert forall i :: 0 <= i < |a| ==> (a + b)[i] == a[i];
    assert forall i :: 0 <= i < |b| ==> (a + b)[|a| + i] == b[i];
  }

  /** Requests with the given label whose `id` properties are the given strings. */
  predicate IdsAre(qs: seq<NodeRequest>, nodeLabel: string, ids: seq<string>) {
    |qs| == |ids|
    && forall i :: 0 <= i < |qs| ==>
         qs[i].nodeLabel == nodeLabel && "id" in qs[i].properties && qs[i].properties["id"] == JStr(ids[i])
  }

  predicate NonEmptyIds(ids: seq<string>) {
    forall i :: 0 <= i < |ids| ==> ids[i] != ""
  }

  /** One node loop raises nothing exactly when no record's `id` is `''`, and
      the record at position `i` is written to the node `(label, id)`. */
  lemma KeyedSegment(qs: seq<NodeRequest>, nodeLabel: string, ids: seq<string>)
    requires IdsAre(qs, nodeLabel, ids)
    ensures AllKeyed(qs) <==> NonEmptyIds(ids)
    ensures AllKeyed(qs) ==> forall i :: 0 <= i < |qs| ==> Writes(qs)[i].key == NodeKey(nodeLabel, JStr(ids[i]))
  {
    forall i | 0 <= i < |qs| ensures NodeWriteOf(qs[i]).Success? <==> ids[i] != "" {
      NodeWriteOfRecord(qs[i].nodeLabel, qs[i].properties, ids[i]);
    }
  }

  /** The `id` of each record, in order. */
  function Ids<T>(xs: seq<T>, id: T -> string): (ids: seq<string>)
    ensures |ids| == |xs| && forall i :: 0 <= i < |xs| ==> ids[i] == id(xs[i])
  {
    seq(|xs|, i requires 0 <= i < |xs| => id(xs[i]))
  }

  /** The four node loops: tactics as OU, techniques as GPO, software as
      Computer, groups as Group, each merged on its record's `id`. */
  function TacticRequests(ts: seq<Tactic>): (qs: seq<NodeRequest>)
    ensures IdsAre(qs, "OU", Ids(ts, (x: Tactic) => x.id))
  {
    seq(|ts|, i requires 0 <= i < |ts| => NodeRequest("OU", TacticProps(ts[i])))
  }

  function TechniqueRequests(ts: seq<Technique>): (qs: seq<NodeRequest>)
    ensures IdsAre(qs, "GPO", Ids(ts, (x: Technique) => x.id))
  {
    seq(|ts|, i requires 0 <= i < |ts| => NodeRequest("GPO", TechniqueProps(ts[i])))
  }

  function SoftwareRequests(ss: seq<Software>): (qs: seq<NodeRequest>)
    ensures IdsAre(qs, "Computer", Ids(ss, (x: Software) => x.id))
  {
    seq(|ss|, i requires 0 <= i < |ss| => NodeRequest("Computer", SoftwareProps(ss[i])))
  }

  function GroupRequests(gs: seq<Group>): (qs: seq<NodeRequest>)
    ensures IdsAre(qs, "Group", Ids(gs, (x: Group) => x.id))
  {
    seq(|gs|, i requires 0 <= i < |gs| => NodeRequest("Group", GroupProps(gs[i])))
  }

  function NodeRequests(l: Lists): seq<NodeRequest> {
    TacticRequests(l.tactics) + TechniqueRequests(l.techniques) + SoftwareRequests(l.software)
    + GroupRequests(l.groups)
  }

  /** Every record of the knowledge has a non-empty `id`. */
  predicate AllIdentified(l: Lists) {
    NonEmptyIds(Ids(l.tactics, (x: Tactic) => x.id)) && NonEmptyIds(Ids(l.techniques, (x: Technique) => x.id))
    && NonEmptyIds(Ids(l.software, (x: Software) => x.id)) && NonEmptyIds(Ids(l.groups, (x: Group) => x.id))
  }

  /** All node calls succeed exactly when every record has an `id`. */
  lemma NodeRequestsKeyed(l: Lists)
    ensures AllKeyed(NodeRequests(l)) <==> AllIdentified(l)
  {
    var a, b := TacticRequests(l.tactics), TechniqueRequests(l.techniques);
    var c, d := SoftwareRequests(l.software), GroupRequests(l.groups);
    KeyedSegment(a, "OU", Ids(l.tactics, (x: Tactic) => x.id));
    KeyedSegment(b, "GPO", Ids(l.techniques, (x: Technique) => x.id));
    KeyedSegment(c, "Computer", Ids(l.software, (x: Software) => x.id));
    KeyedSegment(d, "Group", Ids(l.groups, (x: Group) => x.id));
    AllKeyedConcat(a, b);
    AllKeyedConcat(a + b, c);
    AllKeyedConcat(a + b + c, d);
  }

  /** A loop's records are all written when it runs between two others that succeed. */
  lemma WrittenSegment(pre: seq<NodeRequest>, qs: seq<NodeRequest>, post: seq<NodeRequest>,
                       nodeLabel: string, ids: seq<string>)
    requires IdsAre(qs, nodeLabel, ids) && AllKeyed(pre + qs + post)
    ensures forall i :: 0 <= i < |ids| ==> Written(Writes(pre + qs + post), NodeKey(nodeLabel, JStr(ids[i])))
  {
    AllKeyedConcat(pre, qs);
    AllKeyedConcat(pre + qs, post);
    KeyedSegment(qs, nodeLabel, ids);
    var ws := Writes(pre + qs + post);
    assert ws == Writes(pre) + Writes(qs) + Writes(post);
    forall i | 0 <= i < |ids| ensures Written(ws, NodeKey(nodeLabel, JStr(ids[i]))) {
      assert ws[|pre| + i] == Writes(qs)[i];
    }
  }

  /** After the node loops, every record has been written under its label and `id`. */
  lemma TacticsWritten(l: Lists)
    requires AllKeyed(NodeRequests(l))
    ensures forall i :: 0 <= i < |l.tactics| ==> Written(Writes(NodeRequests(l)), NodeKey("OU", JStr(l.tactics[i].id)))
  {
    var a, b := TacticRequests(l.tactics), TechniqueRequests(l.techniques);
    var c, d := SoftwareRequests(l.software), GroupRequests(l.groups);
    assert NodeRequests(l) == [] + a + (b + c + d);
    WrittenSegment([], a, b + c + d, "OU", Ids(l.tactics, (x: Tactic) => x.id));
  }

  lemma TechniquesWritten(l: Lists)
    requires AllKeyed(NodeRequests(l))
    ensures forall i :: 0 <= i < |l.techniques| ==>
              Written(Writes(NodeRequests(l)), NodeKey("GPO", JStr(l.techniques[i].id)))
  {
    var a, b := TacticRequests(l.tactics), TechniqueRequests(l.techniques);
    var c, d := SoftwareRequests(l.software), GroupRequests(l.groups);
    assert NodeRequests(l) == a + b + (c + d);
    WrittenSegment(a, b, c + d, "GPO", Ids(l.techniques, (x: Technique) => x.id));
  }

  lemma SoftwareWritten(l: Lists)
    requires AllKeyed(NodeRequests(l))
    ensures forall i :: 0 <= i < |l.software| ==>
              Written(Writes(NodeRequests(l)), NodeKey("Computer", JStr(l.software[i].id)))
  {
    var a, b := TacticRequests(l.tactics), TechniqueRequests(l.techniques);
    var c, d := SoftwareRequests(l.software), GroupRequests(l.groups);
    assert NodeRequests(l) == (a + b) + c + d;
    WrittenSegment(a + b, c, d, "Computer", Ids(l.software, (x: Software) => x.id));
  }

  lemma GroupsWritten(l: Lists)
    requires AllKeyed(NodeRequests(l))
    ensures forall i :: 0 <= i < |l.groups| ==>
              Written(Writes(NodeRequests(l)), NodeKey("Group", JStr(l.groups[i].id)))
  {
    var a, b := TacticRequests(l.tactics), TechniqueRequests(l.techniques);
    var c, d := SoftwareRequests(l.software), GroupRequests(l.groups);
    assert NodeRequests(l) == (a + b + c) + d + [];
    WrittenSegment(a + b + c, d, [], "Group", Ids(l.groups, (x: Group) => x.id));
  }

  // ---------------------------------------------------------------------------
  // `create_relationship` and the two edge loops
  // ---------------------------------------------------------------------------

  /** One `create_relationship(src_label, src_id, rel, tgt_label, tgt_id)` call. */
  datatype EdgeRequest = EdgeRequest(srcLabel: string, srcId: string, rel: string, tgtLabel: string, tgtId: string)

  /** `MATCH (a:src_label {id: $src_id}), (b:tgt_label {id: $tgt_id}) MERGE (a)-[r:REL]->(b)`. */
  function EdgeOf(q: EdgeRequest): (e: Edge)
    ensures SourceKey(e) == NodeKey(q.srcLabel, JStr(q.srcId))
    ensures TargetKey(e) == NodeKey(q.tgtLabel, JStr(q.tgtId))
    ensures e.edgeType == ToUpper(q.rel)
  {
    Edge(q.srcLabel, JStr(q.srcId), ToUpper(q.rel), q.tgtLabel, JStr(q.tgtId))
  }

  function LinkEdges(g: GraphState, qs: seq<EdgeRequest>): GraphState {
    if qs == [] then g else MatchMergeEdge(LinkEdges(g, qs[..|qs| - 1]), EdgeOf(qs[|qs| - 1]))
  }

  lemma LinkEdgesSnoc(g: GraphState, qs: seq<EdgeRequest>, q: EdgeRequest)
    ensures LinkEdges(g, qs + [q]) == MatchMergeEdge(LinkEdges(g, qs), EdgeOf(q))
  {
    assert (qs + [q])[..|qs|] == qs;
  }

  /** The edges of `qs` whose two endpoint nodes are in `nodes`. */
  function Linkable(nodes: map<NodeKey, Props>, qs: seq<EdgeRequest>): set<Edge> {
    set q | q in qs && SourceKey(EdgeOf(q)) in nodes && TargetKey(EdgeOf(q)) in nodes :: EdgeOf(q)
  }

  /** The edge calls add exactly the requested edges whose endpoints exist,
      whatever their order, and touch no node. */
  lemma {:induction false} LinkEdgesIs(g: GraphState, qs: seq<EdgeRequest>)
    ensures LinkEdges(g, qs) == GraphState(g.nodes, g.edges + Linkable(g.nodes, qs))
  {
    if qs != [] {
      var init, last := qs[..|qs| - 1], qs[|qs| - 1];
      LinkEdgesIs(g, init);
      assert qs == init + [last];
      var l, r := LinkEdges(g, qs).edges, g.edges + Linkable(g.nodes, qs);
      forall e | e in r ensures e in l {
        if e !in g.edges && e !in Linkable(g.nodes, init) {
          var q :| q in qs && SourceKey(EdgeOf(q)) in g.nodes && TargetKey(EdgeOf(q)) in g.nodes && e == EdgeOf(q);
        }
      }
      assert l == r;
    }
  }

  lemma {:induction false} LinkEdgesConcat(g: GraphState, a: seq<EdgeRequest>, b: seq<EdgeRequest>)
    ensures LinkEdges(g, a + b) == LinkEdges(LinkEdges(g, a), b)
  {
    if b == [] {
      assert a + b == a;
    } else {
      assert (a + b)[..|a + b| - 1] == a + b[..|b| - 1];
      assert (a + b)[|a + b| - 1] == b[|b| - 1];
      LinkEdgesConcat(g, a, b[..|b| - 1]);
    }
  }

  /** `next((t for t in attck.tactics if t.name == tactic_name), None)`. */
  function FindTactic(tactics: seq<Tactic>, name: string): Option<Tactic> {
    if tactics == [] then None
    else if tactics[0].name == name then Some(tactics[0])
    else FindTactic(tactics[1..], name)
  }

  /** The search yields the first tactic with exactly that name, and nothing when there is none. */
  lemma {:induction false} FindTacticIs(tactics: seq<Tactic>, name: string, k: nat)
    requires k <= |tactics|
    requires forall j :: 0 <= j < k ==> tactics[j].name != name
    ensures k == |tactics| ==> FindTactic(tactics, name) == None
    ensures k < |tactics| && tactics[k].name == name ==> FindTactic(tactics, name) == Some(tactics[k])
  {
    if k > 0 {
      FindTacticIs(tactics[1..], name, k - 1);
    }
  }

  lemma {:induction false} FindTacticFound(tactics: seq<Tactic>, name: string)
    ensures FindTactic(tactics, name).Some? ==>
              FindTactic(tactics, name).value in tactics && FindTactic(tactics, name).value.name == name
  {
    if tactics != [] && tactics[0].name != name {
      FindTacticFound(tactics[1..], name);
    }
  }

  /** The derived link of one phase name, if a tactic has that name. */
  function TacticLink(tactics: seq<Tactic>, tech: Technique, name: string): Option<EdgeRequest> {
    match FindTactic(tactics, name)
    case Some(t) => Some(EdgeRequest("GPO", tech.id, "USES", "OU", t.id))
    case None => None
  }

  /** The inner loop over one technique's phase names. */
  function TacticLinks(tactics: seq<Tactic>, tech: Technique, names: seq<string>): seq<EdgeRequest> {
    if names == [] then []
    else TacticLinks(tactics, tech, names[..|names| - 1]) + Listed(TacticLink(tactics, tech, names[|names| - 1]))
  }

  lemma TacticLinksStep(tactics: seq<Tactic>, tech: Technique, names: seq<string>, j: nat)
    requires j < |names|
    ensures TacticLinks(tactics, tech, names[..j + 1])
            == TacticLinks(tactics, tech, names[..j]) + Listed(TacticLink(tactics, tech, names[j]))
  {
    assert names[..j + 1][..j] == names[..j];
  }

  lemma {:induction false} TacticLinksMembers(tactics: seq<Tactic>, tech: Technique, names: seq<string>, q: EdgeRequest)
    ensures q in TacticLinks(tactics, tech, names) <==>
              exists j :: 0 <= j < |names| && TacticLink(tactics, tech, names[j]) == Some(q)
  {
    if names != [] {
      var init := names[..|names| - 1];
      TacticLinksMembers(tactics, tech, init, q);
      assert forall j :: 0 <= j < |init| ==> init[j] == names[j];
      if q in TacticLinks(tactics, tech, names) && q in TacticLinks(tactics, tech, init) {
        var j :| 0 <= j < |init| && TacticLink(tactics, tech, init[j]) == Some(q);
        assert names[j] == init[j];
      }
      if q !in TacticLinks(tactics, tech, names) {
        forall j | 0 <= j < |names| ensures TacticLink(tactics, tech, names[j]) != Some(q) {
          if j < |init| {
            assert names[j] == init[j];
          }
        }
      }
    }
  }

  /** Both loops over techniques and their phase names. */
  function DerivedRequests(tactics: seq<Tactic>, techs: seq<Technique>): seq<EdgeRequest> {
    if techs == [] then []
    else
      var t := techs[|techs| - 1];
      DerivedRequests(tactics, techs[..|techs| - 1]) + TacticLinks(tactics, t, t.tactic)
  }

  lemma {:induction false} DerivedRequestsSound(tactics: seq<Tactic>, techs: seq<Technique>, q: EdgeRequest)
    requires q in DerivedRequests(tactics, techs)
    ensures exists i, j :: 0 <= i < |techs| && 0 <= j < |techs[i].tactic|
                           && TacticLink(tactics, techs[i], techs[i].tactic[j]) == Some(q)
  {
    var init, t := techs[..|techs| - 1], techs[|techs| - 1];
    if q in DerivedRequests(tactics, init) {
      DerivedRequestsSound(tactics, init, q);
      var i, j :| 0 <= i < |init| && 0 <= j < |init[i].tactic| && TacticLink(tactics, init[i], init[i].tactic[j]) == Some(q);
      assert techs[i] == init[i];
    } else {
      TacticLinksMembers(tactics, t, t.tactic, q);
      var j :| 0 <= j < |t.tactic| && TacticLink(tactics, t, t.tactic[j]) == Some(q);
      assert TacticLink(tactics, techs[|techs| - 1], techs[|techs| - 1].tactic[j]) == Some(q);
    }
  }

  lemma {:induction false} DerivedRequestsComplete(tactics: seq<Tactic>, techs: seq<Technique>, i: nat, j: nat,
                                                   q: EdgeRequest)
    requires i < |techs| && j < |techs[i].tactic| && TacticLink(tactics, techs[i], techs[i].tactic[j]) == Some(q)
    ensures q in DerivedRequests(tactics, techs)
  {
    var init, t := techs[..|techs| - 1], techs[|techs| - 1];
    if i < |init| {
      assert init[i] == techs[i];
      DerivedRequestsComplete(tactics, init, i, j, q);
    } else {
      TacticLinksMembers(tactics, t, t.tactic, q);
    }
  }

  /** Each derived link joins a technique to the first tactic named by one of
      its phases, and every such pair gives a link. */
  lemma DerivedRequestsAre(tactics: seq<Tactic>, techs: seq<Technique>, q: EdgeRequest)
    ensures q in DerivedRequests(tactics, techs) <==>
              exists i, j :: 0 <= i < |techs| && 0 <= j < |techs[i].tactic|
                             && TacticLink(tactics, techs[i], techs[i].tactic[j]) == Some(q)
  {
    if q in DerivedRequests(tactics, techs) {
      DerivedRequestsSound(tactics, techs, q);
    }
    if exists i, j :: 0 <= i < |techs| && 0 <= j < |techs[i].tactic|
                      && TacticLink(tactics, techs[i], techs[i].tactic[j]) == Some(q) {
      var i, j :| 0 <= i < |techs| && 0 <= j < |techs[i].tactic|
                  && TacticLink(tactics, techs[i], techs[i].tactic[j]) == Some(q);
      DerivedRequestsComplete(tactics, techs, i, j, q);
    }
  }

  /** One declared relationship: labels from the raw STIX ids, kept when both exist. */
  function DeclaredRequest(rel: Relationship): (r: Option<EdgeRequest>)
    ensures r.None? <==> !KnownStixPrefix(rel.source) || !KnownStixPrefix(rel.target)
    ensures r.Some? ==> r.value.srcId == rel.source && r.value.tgtId == rel.target && r.value.rel == rel.edge
  {
    var src, tgt := LabelOfStixId(rel.source), LabelOfStixId(rel.target);
    if src.Some? && tgt.Some? then Some(EdgeRequest(src.value, rel.source, rel.edge, tgt.value, rel.target))
    else None
  }

  function EdgeRequests(l: Lists): seq<EdgeRequest> {
    DerivedRequests(l.tactics, l.techniques) + Select(l.relationships, DeclaredRequest)
  }

  // ---------------------------------------------------------------------------
  // `push_attck_to_bloodhound`
  // ---------------------------------------------------------------------------

  datatype PushOutcome = PushOutcome(result: Result<(), PushError>, graph: GraphState)

  /** The node loops, then, when none raised, the given edge calls. */
  function PushWith(g: GraphState, l: Lists, es: seq<EdgeRequest>): PushOutcome {
    var n := NodePhase(g.nodes, NodeRequests(l));
    if n.error.Some? then PushOutcome(Failure(n.error.value), GraphState(n.nodes, g.edges))
    else PushOutcome(Success(()), LinkEdges(GraphState(n.nodes, g.edges), es))
  }

  /** The push as written: the derived technique-tactic links, then the
      declared relationships keyed by their raw STIX ids. */
  function PushSpec(g: GraphState, l: Lists): PushOutcome {
    PushWith(g, l, EdgeRequests(l))
  }

  /** The push succeeds exactly when every record has an `id`; it then upserts
      every record's node and adds exactly the requested edges whose endpoints
      exist. A failed push adds no edge. */
  lemma PushWithIs(g: GraphState, l: Lists, es: seq<EdgeRequest>)
    ensures PushWith(g, l, es).result.Success? <==> AllIdentified(l)
    ensures AllIdentified(l) ==>
              AllKeyed(NodeRequests(l))
              && var nodes := ApplyNodeWrites(g.nodes, Writes(NodeRequests(l)));
                 PushWith(g, l, es).graph == GraphState(nodes, g.edges + Linkable(nodes, es))
    ensures PushWith(g, l, es).result.Failure? ==> PushWith(g, l, es).graph.edges == g.edges
  {
    NodePhaseSucceeds(g.nodes, NodeRequests(l));
    NodeRequestsKeyed(l);
    var n := NodePhase(g.nodes, NodeRequests(l));
    if n.error.None? {
      LinkEdgesIs(GraphState(n.nodes, g.edges), es);
    }
  }

  /** Pushing the same knowledge again changes nothing: no new node, no new edge. */
  lemma PushTwice(g: GraphState, l: Lists)
    requires PushSpec(g, l).result.Success?
    ensures PushSpec(PushSpec(g, l).graph, l) == PushSpec(g, l)
  {
    PushWithIs(g, l, EdgeRequests(l));
    var once := PushSpec(g, l).graph;
    PushWithIs(once, l, EdgeRequests(l));
    ApplyNodeWritesTwice(g.nodes, Writes(NodeRequests(l)));
  }

  /** After a successful push, a requested edge is present when both its
      endpoint records were pushed. */
  lemma RequestedEdgePresent(g: GraphState, l: Lists, es: seq<EdgeRequest>, q: EdgeRequest)
    requires AllIdentified(l) && q in es
    requires AllKeyed(NodeRequests(l))
    requires Written(Writes(NodeRequests(l)), SourceKey(EdgeOf(q)))
    requires Written(Writes(NodeRequests(l)), TargetKey(EdgeOf(q)))
    ensures EdgeOf(q) in PushWith(g, l, es).graph.edges
  {
    PushWithIs(g, l, es);
    ApplyNodeWritesAt(g.nodes, Writes(NodeRequests(l)), SourceKey(EdgeOf(q)));
    ApplyNodeWritesAt(g.nodes, Writes(NodeRequests(l)), TargetKey(EdgeOf(q)));
  }

  lemma UsesIsUpper()
    ensures ToUpper("USES") == "USES"
    ensures ToUpper("uses") == "USES"
  {
    assert forall i :: 0 <= i < 4 ==> UpperChar("USES"[i]) == "USES"[i];
    assert forall i :: 0 <= i < 4 ==> UpperChar("uses"[i]) == "USES"[i];
  }

  /** After a successful push, each technique is linked to the first tactic
      named by each of its phases. */
  lemma DerivedEdgePresent(g: GraphState, l: Lists, i: nat, j: nat)
    requires AllIdentified(l)
    requires i < |l.techniques| && j < |l.techniques[i].tactic|
    requires FindTactic(l.tactics, l.techniques[i].tactic[j]).Some?
    ensures var tech := l.techniques[i];
            var t := FindTactic(l.tactics, tech.tactic[j]).value;
            Edge("GPO", JStr(tech.id), "USES", "OU", JStr(t.id)) in PushSpec(g, l).graph.edges
  {
    var tech := l.techniques[i];
    var t := FindTactic(l.tactics, tech.tactic[j]).value;
    FindTacticFound(l.tactics, tech.tactic[j]);
    var k :| 0 <= k < |l.tactics| && l.tactics[k] == t;
    NodeRequestsKeyed(l);
    TacticsWritten(l);
    TechniquesWritten(l);
    var q := EdgeRequest("GPO", tech.id, "USES", "OU", t.id);
    assert TacticLink(l.tactics, tech, tech.tactic[j]) == Some(q);
    DerivedRequestsAre(l.tactics, l.techniques, q);
    UsesIsUpper();
    assert Written(Writes(NodeRequests(l)), NodeKey("OU", JStr(l.tactics[k].id)));
    assert Written(Writes(NodeRequests(l)), NodeKey("GPO", JStr(l.techniques[i].id)));
    RequestedEdgePresent(g, l, EdgeRequests(l), q);
  }

  // ---------------------------------------------------------------------------
  // Declared relationships: keyed by STIX id, but nodes are merged on `id`
  // ---------------------------------------------------------------------------

  /** A technique T1003 and a group G0006 with a `uses` relationship between
      their STIX objects, as `sync` builds them from a bundle. */
  function UsesExample(): Lists {
    var tech := Technique("OS Credential Dumping", [], "", [], [], [], [], JNull, JNull, JNull, "", "", [],
                          "T1003", "", [], "", "", [], "attack-pattern--1");
    var group := Group("APT1", "", [], "G0006", "", [], "", "", [], "intrusion-set--1");
    Lists([], [tech], [], [group], [Relationship("intrusion-set--1", "uses", "attack-pattern--1", "", [])])
  }

  /** The example's only edge call is the declared one, keyed by STIX ids. */
  lemma UsesExampleRequests()
    ensures EdgeRequests(UsesExample()) == [EdgeRequest("Group", "intrusion-set--1", "uses", "GPO", "attack-pattern--1")]
  {
    var l := UsesExample();
    var rel := l.relationships[0];
    assert StartsWith(rel.source, "intrusion-set--") && StartsWith(rel.target, "attack-pattern--");
    assert l.techniques[..0] == [] && l.relationships[..0] == [];
  }

  lemma UsesExampleIdentified()
    ensures AllIdentified(UsesExample())
  {
    var l := UsesExample();
    assert Ids(l.techniques, (x: Technique) => x.id) == ["T1003"] && Ids(l.groups, (x: Group) => x.id) == ["G0006"];
  }

  /** The example's two nodes are merged on T1003 and G0006. */
  lemma UsesExampleWrites()
    ensures AllKeyed(NodeRequests(UsesExample()))
    ensures var ws := Writes(NodeRequests(UsesExample()));
            |ws| == 2 && ws[0].key == NodeKey("GPO", JStr("T1003")) && ws[1].key == NodeKey("Group", JStr("G0006"))
  {
    var l := UsesExample();
    UsesExampleIdentified();
    NodeRequestsKeyed(l);
    assert NodeRequests(l) == [NodeRequest("GPO", TechniqueProps(l.techniques[0])), NodeRequest("Group", GroupProps(l.groups[0]))];
  }

  /** No node of the example is keyed by the group's STIX id. */
  lemma UsesExampleSourceMissing()
    ensures AllKeyed(NodeRequests(UsesExample()))
    ensures NodeKey("Group", JStr("intrusion-set--1")) !in ApplyNodeWrites(map[], Writes(NodeRequests(UsesExample())))
  {
    UsesExampleWrites();
    KeyNotWritten(Writes(NodeRequests(UsesExample())), NodeKey("Group", JStr("intrusion-set--1")));
  }

  lemma KeyNotWritten(ws: seq<NodeWrite>, k: NodeKey)
    requires |ws| == 2 && ws[0].key != k && ws[1].key != k
    ensures k !in ApplyNodeWrites(map[], ws)
  {
    assert forall i :: 0 <= i < |ws| ==> ws[i].key != k;
    ApplyNodeWritesAt(map[], ws, k);
  }

  /** As written, the declared relationship matches nodes whose `id` is the
      STIX id, which no pushed node has: the push succeeds and adds no edge. */
  lemma DeclaredEdgeNeverLinked()
    ensures PushSpec(GraphState(map[], {}), UsesExample()).result.Success?
    ensures PushSpec(GraphState(map[], {}), UsesExample()).graph.edges == {}
  {
    var l, g := UsesExample(), GraphState(map[], {});
    UsesExampleIdentified();
    PushWithIs(g, l, EdgeRequests(l));
    UsesExampleRequests();
    UsesExampleSourceMissing();
    var q := EdgeRequest("Group", "intrusion-set--1", "uses", "GPO", "attack-pattern--1");
    assert SourceKey(EdgeOf(q)) == NodeKey("Group", JStr("intrusion-set--1"));
    assert Linkable(ApplyNodeWrites(map[], Writes(NodeRequests(l))), [q]) == {};
  }

  /** The STIX id and `id` of each pushed record of one label. */
  datatype Handle = Handle(stix: string, id: string)

  function Handles(l: Lists, nodeLabel: string): seq<Handle> {
    if nodeLabel == "OU" then seq(|l.tactics|, i requires 0 <= i < |l.tactics| => Handle(l.tactics[i].stix, l.tactics[i].id))
    else if nodeLabel == "GPO" then
      seq(|l.techniques|, i requires 0 <= i < |l.techniques| => Handle(l.techniques[i].stix, l.techniques[i].id))
    else if nodeLabel == "Computer" then
      seq(|l.software|, i requires 0 <= i < |l.software| => Handle(l.software[i].stix, l.software[i].id))
    else if nodeLabel == "Group" then
      seq(|l.groups|, i requires 0 <= i < |l.groups| => Handle(l.groups[i].stix, l.groups[i].id))
    else []
  }

  /** The `id` of the first record with the given STIX id. */
  function IdOfStix(hs: seq<Handle>, stixId: string): (r: Option<string>)
    ensures r.Some? ==> exists i :: 0 <= i < |hs| && hs[i] == Handle(stixId, r.value)
    ensures r.None? <==> forall i :: 0 <= i < |hs| ==> hs[i].stix != stixId
  {
    if hs == [] then None
    else if hs[0].stix == stixId then Some(hs[0].id)
    else
      var r := IdOfStix(hs[1..], stixId);
      assert forall i :: 0 < i < |hs| ==> hs[i] == hs[1..][i - 1];
      r
  }

  /** The STIX id names a record pushed under the label its prefix gives. */
  predicate Names(l: Lists, stixId: string) {
    var lab := LabelOfStixId(stixId);
    lab.Some? && exists i :: 0 <= i < |Handles(l, lab.value)| && Handles(l, lab.value)[i].stix == stixId
  }

  /** A declared relationship with its endpoints translated to the `id`s
      their nodes were merged on. */
  function ResolvedRequest(l: Lists, rel: Relationship): (r: Option<EdgeRequest>)
    ensures r.Some? <==> Names(l, rel.source) && Names(l, rel.target)
    ensures r.Some? ==> LabelOfStixId(rel.source) == Some(r.value.srcLabel)
                        && LabelOfStixId(rel.target) == Some(r.value.tgtLabel) && r.value.rel == rel.edge
    ensures r.Some? ==> exists i :: 0 <= i < |Handles(l, r.value.srcLabel)|
                                    && Handles(l, r.value.srcLabel)[i] == Handle(rel.source, r.value.srcId)
    ensures r.Some? ==> exists j :: 0 <= j < |Handles(l, r.value.tgtLabel)|
                                    && Handles(l, r.value.tgtLabel)[j] == Handle(rel.target, r.value.tgtId)
  {
    var src, tgt := LabelOfStixId(rel.source), LabelOfStixId(rel.target);
    if src.None? || tgt.None? then None
    else
      var a, b := IdOfStix(Handles(l, src.value), rel.source), IdOfStix(Handles(l, tgt.value), rel.target);
      if a.Some? && b.Some? then Some(EdgeRequest(src.value, a.value, rel.edge, tgt.value, b.value)) else None
  }

  function ResolveWith(l: Lists): Relationship -> Option<EdgeRequest> {
    rel => ResolvedRequest(l, rel)
  }

  function ResolvedEdgeRequests(l: Lists): seq<EdgeRequest> {
    DerivedRequests(l.tactics, l.techniques) + Select(l.relationships, ResolveWith(l))
  }

  /** The push with declared relationships keyed by the records' `id`s. */
  function PushResolved(g: GraphState, l: Lists): PushOutcome {
    PushWith(g, l, ResolvedEdgeRequests(l))
  }

  /** Every handle's record has been written under its label and `id`. */
  lemma HandleWritten(l: Lists, nodeLabel: string, i: nat)
    requires AllKeyed(NodeRequests(l)) && i < |Handles(l, nodeLabel)|
    ensures Written(Writes(NodeRequests(l)), NodeKey(nodeLabel, JStr(Handles(l, nodeLabel)[i].id)))
  {
    if nodeLabel == "OU" {
      TacticsWritten(l);
    } else if nodeLabel == "GPO" {
      TechniquesWritten(l);
    } else if nodeLabel == "Computer" {
      SoftwareWritten(l);
    } else {
      GroupsWritten(l);
    }
  }

  /** With the translation, a successful push links every declared
      relationship between two pushed records. */
  lemma ResolvedEdgePresent(g: GraphState, l: Lists, k: nat)
    requires AllIdentified(l) && k < |l.relationships|
    requires Names(l, l.relationships[k].source) && Names(l, l.relationships[k].target)
    ensures var q := ResolvedRequest(l, l.relationships[k]).value;
            Edge(q.srcLabel, JStr(q.srcId), ToUpper(l.relationships[k].edge), q.tgtLabel, JStr(q.tgtId))
            in PushResolved(g, l).graph.edges
  {
    var rel := l.relationships[k];
    var q := ResolvedRequest(l, rel).value;
    assert ResolveWith(l)(l.relationships[k]) == Some(q);
    SelectMembers(l.relationships, ResolveWith(l), q);
    NodeRequestsKeyed(l);
    var i :| 0 <= i < |Handles(l, q.srcLabel)| && Handles(l, q.srcLabel)[i] == Handle(rel.source, q.srcId);
    var j :| 0 <= j < |Handles(l, q.tgtLabel)| && Handles(l, q.tgtLabel)[j] == Handle(rel.target, q.tgtId);
    HandleWritten(l, q.srcLabel, i);
    HandleWritten(l, q.tgtLabel, j);
    RequestedEdgePresent(g, l, ResolvedEdgeRequests(l), q);
  }

  /** On the example, the translated push adds the group's USES edge to the technique. */
  lemma ResolvedExampleLinked()
    ensures Edge("Group", JStr("G0006"), "USES", "GPO", JStr("T1003"))
            in PushResolved(GraphState(map[], {}), UsesExample()).graph.edges
  {
    var l := UsesExample();
    var rel := l.relationships[0];
    assert AllIdentified(l);
    assert StartsWith(rel.source, "intrusion-set--") && StartsWith(rel.target, "attack-pattern--");
    assert Handles(l, "Group")[0] == Handle(rel.source, "G0006");
    assert Handles(l, "GPO")[0] == Handle(rel.target, "T1003");
    assert ResolvedRequest(l, rel) == Some(EdgeRequest("Group", "G0006", "uses", "GPO", "T1003"));
    UsesIsUpper();
    ResolvedEdgePresent(GraphState(map[], {}), l, 0);
  }

  // ---------------------------------------------------------------------------
  // The store side
  // ---------------------------------------------------------------------------

  /** `create_node`. */
  method CreateNode(store: Store, q: NodeRequest) returns (r: Option<PushError>)
    modifies store
    ensures NodeOutcome(r, store.nodes) == NodeStep(old(store.nodes), q)
    ensures store.edges == old(store.edges)
  {
    var props := KeepNonEmpty(q.properties);
    if "id" !in props {
      return Some(MissingId(q.nodeLabel));
    }
    store.MergeNode(NodeWrite(NodeKey(q.nodeLabel, props["id"]), props));
    r := None;
  }

  /** `create_relationship`. */
  method CreateRelationship(store: Store, q: EdgeRequest)
    modifies store
    ensures store.State() == MatchMergeEdge(old(store.State()), EdgeOf(q))
  {
    store.MergeEdge(Edge(q.srcLabel, JStr(q.srcId), ToUpper(q.rel), q.tgtLabel, JStr(q.tgtId)));
  }

  /** One `for x in ...: bh.create_node(label, asdict(x))` loop. */
  method CreateNodes(store: Store, qs: seq<NodeRequest>) returns (r: Option<PushError>)
    modifies store
    ensures NodeOutcome(r, store.nodes) == NodePhase(old(store.nodes), qs)
    ensures store.edges == old(store.edges)
  {
    var i := 0;
    while i < |qs|
      invariant 0 <= i <= |qs|
      invariant NodePhase(old(store.nodes), qs[..i]) == NodeOutcome(None, store.nodes)
      invariant store.edges == old(store.edges)
    {
      assert qs[..i + 1][..i] == qs[..i];
      var e := CreateNode(store, qs[i]);
      if e.Some? {
        NodePhaseFailureStays(old(store.nodes), qs, i + 1);
        return e;
      }
      i := i + 1;
    }
    assert qs[..|qs|] == qs;
    r := None;
  }

  /** `next((t for t in attck.tactics if t.name == tactic_name), None)`, as the loop it runs. */
  method FindTacticByName(tactics: seq<Tactic>, name: string) returns (r: Option<Tactic>)
    ensures r == FindTactic(tactics, name)
  {
    var k := 0;
    while k < |tactics|
      invariant 0 <= k <= |tactics|
      invariant forall j :: 0 <= j < k ==> tactics[j].name != name
    {
      if tactics[k].name == name {
        FindTacticIs(tactics, name, k);
        return Some(tactics[k]);
      }
      k := k + 1;
    }
    FindTacticIs(tactics, name, k);
    r := None;
  }

  /** The two nested loops that link techniques to tactics by phase name. */
  method LinkTechniques(store: Store, tactics: seq<Tactic>, techniques: seq<Technique>)
    modifies store
    ensures store.State() == LinkEdges(old(store.State()), DerivedRequests(tactics, techniques))
  {
    var i := 0;
    while i < |techniques|
      invariant 0 <= i <= |techniques|
      invariant store.State() == LinkEdges(old(store.State()), DerivedRequests(tactics, techniques[..i]))
    {
      assert techniques[..i + 1][..i] == techniques[..i];
      var technique := techniques[i];
      LinkPhases(store, tactics, technique);
      LinkEdgesConcat(old(store.State()), DerivedRequests(tactics, techniques[..i]),
                      TacticLinks(tactics, technique, technique.tactic));
      i := i + 1;
    }
    assert techniques[..|techniques|] == techniques;
  }

  /** The inner loop for one technique. */
  method LinkPhases(store: Store, tactics: seq<Tactic>, technique: Technique)
    modifies store
    ensures store.State() == LinkEdges(old(store.State()), TacticLinks(tactics, technique, technique.tactic))
  {
    var names := technique.tactic;
    var j := 0;
    while j < |names|
      invariant 0 <= j <= |names|
      invariant store.State() == LinkEdges(old(store.State()), TacticLinks(tactics, technique, names[..j]))
    {
      TacticLinksStep(tactics, technique, names, j);
      var tactic := FindTacticByName(tactics, names[j]);
      if tactic.Some? {
        var q := EdgeRequest("GPO", technique.id, "USES", "OU", tactic.value.id);
        CreateRelationship(store, q);
        LinkEdgesSnoc(old(store.State()), TacticLinks(tactics, technique, names[..j]), q);
      } else {
        assert TacticLinks(tactics, technique, names[..j]) + [] == TacticLinks(tactics, technique, names[..j]);
      }
      j := j + 1;
    }
    assert names[..|names|] == names;
  }

  /** The loop over declared relationships. */
  method LinkDeclared(store: Store, rels: seq<Relationship>)
    modifies store
    ensures store.State() == LinkEdges(old(store.State()), Select(rels, DeclaredRequest))
  {
    var i := 0;
    while i < |rels|
      invariant 0 <= i <= |rels|
      invariant store.State() == LinkEdges(old(store.State()), Select(rels[..i], DeclaredRequest))
    {
      SelectStep(rels, i, DeclaredRequest);
      var rel := rels[i];
      var srcLabel := LabelOfStixId(rel.source);
      var tgtLabel := LabelOfStixId(rel.target);
      ghost var before := Select(rels[..i], DeclaredRequest);
      if srcLabel.Some? && tgtLabel.Some? {
        var q := EdgeRequest(srcLabel.value, rel.source, rel.edge, tgtLabel.value, rel.target);
        CreateRelationship(store, q);
        assert DeclaredRequest(rel) == Some(q);
        LinkEdgesSnoc(old(store.State()), before, q);
      } else {
        assert DeclaredRequest(rel) == None;
        assert Select(rels[..i + 1], DeclaredRequest) == before + [];
        assert before + [] == before;
      }
      i := i + 1;
    }
    assert rels[..|rels|] == rels;
  }

  /** The four node loops of `push_attck_to_bloodhound`. */
  method PushNodes(attck: Knowledge, store: Store) returns (e: Option<PushError>)
    modifies store
    ensures NodeOutcome(e, store.nodes) == NodePhase(old(store.nodes), NodeRequests(attck.State()))
    ensures store.edges == old(store.edges)
  {
    ghost var n0 := store.nodes;
    var a, b := TacticRequests(attck.tactics), TechniqueRequests(attck.techniques);
    var c, d := SoftwareRequests(attck.software), GroupRequests(attck.groups);
    NodePhaseConcat(n0, a, b);
    NodePhaseConcat(n0, a + b, c);
    NodePhaseConcat(n0, a + b + c, d);
    e := CreateNodes(store, a);
    if e.Some? {
      return;
    }
    e := CreateNodes(store, b);
    if e.Some? {
      return;
    }
    e := CreateNodes(store, c);
    if e.Some? {
      return;
    }
    e := CreateNodes(store, d);
  }

  /** `push_attck_to_bloodhound(attck, bh)`. */
  method PushAttckToBloodHound(attck: Knowledge, store: Store) returns (r: Result<(), PushError>)
    modifies store
    ensures PushOutcome(r, store.State()) == PushSpec(old(store.State()), attck.State())
  {
    var e := PushNodes(attck, store);
    if e.Some? {
      return Failure(e.value);
    }
    ghost var n := store.State();
    LinkTechniques(store, attck.tactics, attck.techniques);
    LinkDeclared(store, attck.relationships);
    LinkEdgesConcat(n, DerivedRequests(attck.tactics, attck.techniques), Select(attck.relationships, DeclaredRequest));
    r := Success(());
  }
}
