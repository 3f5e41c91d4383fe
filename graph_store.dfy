/**
 * The graph store the push scripts write to, as abstract state: a map from
 * `(label, key)` to the node's properties and a set of edge 5-tuples. The
 * two Cypher writes the scripts issue are modelled here:
 *   - `MERGE (n:L {k: v}) SET ...` is an upsert of the node at `(L, v)`;
 *   - `MATCH (a:L1 {k: s}), (b:L2 {k: t}) MERGE (a)-[:T]->(b)` adds the edge
 *     when both endpoint nodes exist, and does nothing otherwise.
 * Neither ever deletes a node or an edge.
 */
module GraphStore {
  import opened JsonValue

  type Props = map<string, Json>

  /** The merge key of a node: its label and the value of its key property. */
  datatype NodeKey = NodeKey(labelName: string, key: Json)

  /** A relationship, identified by its endpoints' merge keys and its type. */
  datatype Edge = Edge(srcLabel: string, srcKey: Json, edgeType: string, tgtLabel: string, tgtKey: Json)

  datatype GraphState = GraphState(nodes: map<NodeKey, Props>, edges: set<Edge>)

  /** One `MERGE ... SET` of a node. */
  datatype NodeWrite = NodeWrite(key: NodeKey, props: Props)

  function SourceKey(e: Edge): NodeKey {
    NodeKey(e.srcLabel, e.srcKey)
  }

  function TargetKey(e: Edge): NodeKey {
    NodeKey(e.tgtLabel, e.tgtKey)
  }

  /** Every edge joins two nodes of the store. */
  predicate EdgesJoinNodes(g: GraphState) {
    forall e :: e in g.edges ==> SourceKey(e) in g.nodes && TargetKey(e) in g.nodes
  }

  /** Cypher's `SET n += $props` (and `SET n.k = v` key by key): every updates
      property takes its new value, an updates `null` removes the property, and
      the other properties are kept. */
  function SetProps(current: Props, updates: Props): (r: Props)
    ensures forall k :: k in r <==> (k in updates && updates[k] != JNull) || (k !in updates && k in current)
    ensures forall k :: k in r ==> r[k] == if k in updates then updates[k] else current[k]
  {
    (map k | k in current && k !in updates :: current[k])
    + (map k | k in updates && updates[k] != JNull :: updates[k])
  }

  /** Two assignments in a row are one assignment of the later over the earlier. */
  lemma SetPropsCompose(x: Props, a: Props, b: Props)
    ensures SetProps(SetProps(x, a), b) == SetProps(x, a + b)
  {
    var l, r := SetProps(SetProps(x, a), b), SetProps(x, a + b);
    assert forall k :: k in l <==> k in r;
    assert l == r;
  }

  function PropsAt(nodes: map<NodeKey, Props>, k: NodeKey): Props {
    if k in nodes then nodes[k] else map[]
  }

  /** MERGE on the key, then SET: a missing node is created first. */
  function Upsert(nodes: map<NodeKey, Props>, w: NodeWrite): map<NodeKey, Props> {
    nodes[w.key := SetProps(PropsAt(nodes, w.key), w.props)]
  }

  /** The node writes issued in order. */
  function ApplyNodeWrites(nodes: map<NodeKey, Props>, ws: seq<NodeWrite>): map<NodeKey, Props> {
    if ws == [] then nodes else Upsert(ApplyNodeWrites(nodes, ws[..|ws| - 1]), ws[|ws| - 1])
  }

  /** Whether some write in `ws` targets `k`. */
  predicate Written(ws: seq<NodeWrite>, k: NodeKey) {
    exists i :: 0 <= i < |ws| && ws[i].key == k
  }

  /** The properties `ws` assigns to `k`, later writes overriding earlier ones. */
  function Assigned(ws: seq<NodeWrite>, k: NodeKey): Props {
    if ws == [] then map[]
    else Assigned(ws[..|ws| - 1], k) + (if ws[|ws| - 1].key == k then ws[|ws| - 1].props else map[])
  }

  lemma SetPropsNothing(x: Props)
    ensures SetProps(x, map[]) == x
  {
  }

  /** After a sequence of upserts, a node exists exactly when it existed or was
      written, and its properties are its old ones with everything the writes
      updates to it applied in order. */
  lemma {:induction false} ApplyNodeWritesAt(nodes: map<NodeKey, Props>, ws: seq<NodeWrite>, k: NodeKey)
    ensures k in ApplyNodeWrites(nodes, ws) <==> k in nodes || Written(ws, k)
    ensures k in ApplyNodeWrites(nodes, ws) ==>
              ApplyNodeWrites(nodes, ws)[k] == SetProps(PropsAt(nodes, k), Assigned(ws, k))
  {
    if ws == [] {
      SetPropsNothing(PropsAt(nodes, k));
    } else {
      var init, w := ws[..|ws| - 1], ws[|ws| - 1];
      ApplyNodeWritesAt(nodes, init, k);
      WrittenSnoc(ws, k);
      if k !in ApplyNodeWrites(nodes, init) {
        AssignedUnwritten(init, k);
      }
      UpsertStep(ApplyNodeWrites(nodes, init), w, k, PropsAt(nodes, k), Assigned(init, k));
    }
  }

  /** One more upsert, seen from one key. */
  lemma UpsertStep(before: map<NodeKey, Props>, w: NodeWrite, k: NodeKey, base: Props, f: Props)
    requires k in before ==> before[k] == SetProps(base, f)
    requires k !in before ==> f == map[] && base == map[]
    ensures k in Upsert(before, w) <==> k in before || w.key == k
    ensures k in Upsert(before, w) ==>
              Upsert(before, w)[k] == SetProps(base, f + (if w.key == k then w.props else map[]))
  {
    if w.key == k {
      if k in before {
        SetPropsCompose(base, f, w.props);
      } else {
        assert f + w.props == w.props;
        SetPropsNothing(map[]);
      }
    } else {
      assert f + map[] == f;
    }
  }

  lemma WrittenSnoc(ws: seq<NodeWrite>, k: NodeKey)
    requires ws != []
    ensures Written(ws, k) <==> Written(ws[..|ws| - 1], k) || ws[|ws| - 1].key == k
  {
    var init := ws[..|ws| - 1];
    forall i | 0 <= i < |init| ensures init[i] == ws[i] { }
  }

  lemma {:induction false} AssignedUnwritten(ws: seq<NodeWrite>, k: NodeKey)
    requires !Written(ws, k)
    ensures Assigned(ws, k) == map[]
  {
    if ws != [] {
      var init := ws[..|ws| - 1];
      forall i | 0 <= i < |init| ensures init[i].key != k {
        assert init[i] == ws[i];
      }
      AssignedUnwritten(init, k);
      assert ws[|ws| - 1].key != k;
    }
  }

  /** MERGE is idempotent: issuing the same node writes a second time changes nothing. */
  lemma ApplyNodeWritesTwice(nodes: map<NodeKey, Props>, ws: seq<NodeWrite>)
    ensures ApplyNodeWrites(ApplyNodeWrites(nodes, ws), ws) == ApplyNodeWrites(nodes, ws)
  {
    var once := ApplyNodeWrites(nodes, ws);
    var twice := ApplyNodeWrites(once, ws);
    forall k | true
      ensures k in twice <==> k in once
      ensures k in twice ==> twice[k] == once[k]
    {
      ApplyNodeWritesAt(nodes, ws, k);
      ApplyNodeWritesAt(once, ws, k);
      if k in twice {
        var f := Assigned(ws, k);
        SetPropsCompose(PropsAt(nodes, k), f, f);
        assert f + f == f;
      }
    }
    assert twice == once;
  }

  /** Issuing `a` then `b` is issuing `a + b`. */
  lemma {:induction false} ApplyNodeWritesConcat(nodes: map<NodeKey, Props>, a: seq<NodeWrite>, b: seq<NodeWrite>)
    ensures ApplyNodeWrites(nodes, a + b) == ApplyNodeWrites(ApplyNodeWrites(nodes, a), b)
  {
    if b == [] {
      assert a + b == a;
    } else {
      assert (a + b)[..|a + b| - 1] == a + b[..|b| - 1];
      assert (a + b)[|a + b| - 1] == b[|b| - 1];
      ApplyNodeWritesConcat(nodes, a, b[..|b| - 1]);
    }
  }

  lemma ApplyNodeWritesSnoc(nodes: map<NodeKey, Props>, ws: seq<NodeWrite>, w: NodeWrite)
    ensures ApplyNodeWrites(nodes, ws + [w]) == Upsert(ApplyNodeWrites(nodes, ws), w)
  {
    assert (ws + [w])[..|ws + [w]| - 1] == ws;
  }

  /** Upserts never remove a node. */
  lemma ApplyNodeWritesGrows(nodes: map<NodeKey, Props>, ws: seq<NodeWrite>)
    ensures nodes.Keys <= ApplyNodeWrites(nodes, ws).Keys
  {
    forall k | k in nodes ensures k in ApplyNodeWrites(nodes, ws) {
      ApplyNodeWritesAt(nodes, ws, k);
    }
  }

  /** `MATCH (a), (b) MERGE (a)-[:T]->(b)`: the edge is added when both endpoints exist. */
  function MatchMergeEdge(g: GraphState, e: Edge): (r: GraphState)
    ensures r.nodes == g.nodes
    ensures e in r.edges <==> e in g.edges || (SourceKey(e) in g.nodes && TargetKey(e) in g.nodes)
    ensures g.edges <= r.edges && r.edges - g.edges <= {e}
    ensures EdgesJoinNodes(g) ==> EdgesJoinNodes(r)
  {
    if SourceKey(e) in g.nodes && TargetKey(e) in g.nodes then GraphState(g.nodes, g.edges + {e}) else g
  }

  /** The store behind the driver or REST endpoint; the push scripts hold it and write one node or edge at a time. */
  class Store {
    var nodes: map<NodeKey, Props>
    var edges: set<Edge>

    constructor (initial: GraphState)
      ensures nodes == initial.nodes && edges == initial.edges
    {
      nodes := initial.nodes;
      edges := initial.edges;
    }

    function State(): GraphState
      reads this
    {
      GraphState(nodes, edges)
    }

    method MergeNode(w: NodeWrite)
      modifies this
      ensures nodes == Upsert(old(nodes), w)
      ensures edges == old(edges)
    {
      nodes := Upsert(nodes, w);
    }

    method MergeEdge(e: Edge)
      modifies this
      ensures State() == MatchMergeEdge(old(State()), e)
    {
      if SourceKey(e) in nodes && TargetKey(e) in nodes {
        edges := edges + {e};
      }
    }
  }
}
