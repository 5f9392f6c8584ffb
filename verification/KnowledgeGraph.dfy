/** Turning an extraction into a stored graph. */
module KnowledgeGraph {
  import opened GraphWalks
  import opened GraphSearch
  import opened GraphStore
  import opened Text

  datatype EntityDraft = EntityDraft(id: string, name: string, kind: string, evidence: string)

  datatype RelationDraft = RelationDraft(source: string, target: string, kind: string, evidence: string)

  datatype Extraction = Extraction(entities: seq<EntityDraft>, relations: seq<RelationDraft>)

  datatype Persisted = Saved(graph: Subgraph) | Invalid | NotAQuote

  /** `uuid5` in the tenant's namespace, applied to the parts its name is built from. */
  datatype Uuid5 = Uuid5(node: (nat, nat, string, string) -> Id, edge: (nat, nat, Id, string, Id) -> Id)

  ghost predicate NeverEmpty(uuid: Uuid5) {
    forall tenant, origin, kind, name :: uuid.node(tenant, origin, kind, name) != 0
  }

  ghost predicate Injective(uuid: Uuid5) {
    forall t, o, k, n, t', o', k', n' :: uuid.node(t, o, k, n) == uuid.node(t', o', k', n') ==>
      t == t' && o == o' && k == k' && n == n'
  }

  /** Every reference of a relation names an entity. */
  predicate Resolved(extraction: Extraction) {
    forall r :: r in extraction.relations ==>
      && (exists i :: 0 <= i < |extraction.entities| && extraction.entities[i].id == r.source)
      && (exists i :: 0 <= i < |extraction.entities| && extraction.entities[i].id == r.target)
  }

  predicate ValidExtraction(extraction: Extraction, fold: string -> string) {
    && (forall i, j :: 0 <= i < j < |extraction.entities| ==> extraction.entities[i].id != extraction.entities[j].id)
    && (forall i, j :: 0 <= i < j < |extraction.entities| ==>
          (extraction.entities[i].kind, fold(extraction.entities[i].name))
          != (extraction.entities[j].kind, fold(extraction.entities[j].name)))
    && Resolved(extraction)
  }

  predicate AllQuoted(extraction: Extraction, text: string) {
    && (forall e :: e in extraction.entities ==> IndexOf(text, e.evidence) != -1)
    && (forall r :: r in extraction.relations ==> IndexOf(text, r.evidence) != -1)
  }

  function EntityNode(tenant: nat, origin: nat, e: EntityDraft, fold: string -> string, uuid: Uuid5): Node {
    Node(uuid.node(tenant, origin, e.kind, fold(e.name)), e.name, e.kind, origin, e.evidence)
  }

  /** The id an entity draft was given. */
  function NodeId(nodes: seq<Node>, entities: seq<EntityDraft>, draft: string): Id
    requires |nodes| == |entities| && exists i :: 0 <= i < |entities| && entities[i].id == draft
    ensures NodeId(nodes, entities, draft) in Ids(nodes)
  {
    if entities[0].id == draft then
      assert nodes[0] in nodes; nodes[0].id
    else
      assert exists i :: 0 <= i < |entities[1..]| && entities[1..][i].id == draft by {
        var i :| 0 <= i < |entities| && entities[i].id == draft;
        assert entities[1..][i - 1].id == draft;
      }
      NodeId(nodes[1..], entities[1..], draft)
  }

  function RelationEdge(tenant: nat, origin: nat, nodes: seq<Node>, entities: seq<EntityDraft>, r: RelationDraft,
                        uuid: Uuid5): (edge: Edge)
    requires |nodes| == |entities|
    requires exists i :: 0 <= i < |entities| && entities[i].id == r.source
    requires exists i :: 0 <= i < |entities| && entities[i].id == r.target
    ensures edge.source in Ids(nodes) && edge.target in Ids(nodes)
  {
    var source, target := NodeId(nodes, entities, r.source), NodeId(nodes, entities, r.target);
    Edge(uuid.edge(tenant, origin, source, r.kind, target), source, target, r.kind, origin, r.evidence)
  }

  function EdgeIds(edges: seq<Edge>): set<Id> {
    set e | e in edges :: e.id
  }

  ghost predicate DistinctIds(edges: seq<Edge>) {
    forall i, j :: 0 <= i < j < |edges| ==> edges[i].id != edges[j].id
  }

  /** `{e.id: e for e in edges}`: the last edge of an id, at the place of the first. */
  function PutEdge(edges: seq<Edge>, edge: Edge): seq<Edge> {
    if edges == [] then [edge]
    else if edges[0].id == edge.id then [edge] + edges[1..]
    else [edges[0]] + PutEdge(edges[1..], edge)
  }

  lemma EdgeIdsCons(first: Edge, rest: seq<Edge>)
    ensures EdgeIds([first] + rest) == {first.id} + EdgeIds(rest)
    ensures DistinctIds([first] + rest) <==> first.id !in EdgeIds(rest) && DistinctIds(rest)
  {
    var edges := [first] + rest;
    assert forall e :: e in edges <==> e == first || e in rest;
    if DistinctIds(edges) {
      forall e | e in rest
        ensures e.id != first.id
      {
        var k :| 0 <= k < |rest| && rest[k] == e;
        assert edges[0] == first && edges[k + 1] == e;
      }
      assert forall i :: 0 <= i < |rest| ==> rest[i] == edges[i + 1];
    }
    if first.id !in EdgeIds(rest) && DistinctIds(rest) {
      assert forall k :: 0 <= k < |rest| ==> rest[k] in rest;
      assert forall i :: 1 <= i < |edges| ==> edges[i] == rest[i - 1];
    }
  }

  lemma {:induction false} PutEdgeLaws(edges: seq<Edge>, edge: Edge)
    requires DistinctIds(edges)
    ensures DistinctIds(PutEdge(edges, edge))
    ensures EdgeIds(PutEdge(edges, edge)) == EdgeIds(edges) + {edge.id}
    ensures forall e :: e in PutEdge(edges, edge) <==> e == edge || (e in edges && e.id != edge.id)
  {
    if edges == [] {
      EdgeIdsCons(edge, []);
    } else {
      var rest := edges[1..];
      assert edges == [edges[0]] + rest;
      EdgeIdsCons(edges[0], rest);
      if edges[0].id == edge.id {
        EdgeIdsCons(edge, rest);
      } else {
        PutEdgeLaws(rest, edge);
        EdgeIdsCons(edges[0], PutEdge(rest, edge));
      }
    }
  }

  /** An id that is there keeps its place; a new one goes last. */
  lemma {:induction false} PutEdgePlace(edges: seq<Edge>, edge: Edge)
    ensures edge.id !in EdgeIds(edges) ==> PutEdge(edges, edge) == edges + [edge]
    ensures edge.id in EdgeIds(edges) ==>
      |PutEdge(edges, edge)| == |edges| && forall i :: 0 <= i < |edges| ==> PutEdge(edges, edge)[i].id == edges[i].id
  {
    if edges != [] {
      assert edges == [edges[0]] + edges[1..];
      EdgeIdsCons(edges[0], edges[1..]);
      if edges[0].id != edge.id {
        PutEdgePlace(edges[1..], edge);
      }
    }
  }

  /** The dict comprehension over a list of edges. */
  function LastPerId(edges: seq<Edge>): seq<Edge> {
    if edges == [] then [] else PutEdge(LastPerId(edges[..|edges| - 1]), edges[|edges| - 1])
  }

  /** No later edge has the id of the one at `k`. */
  ghost predicate IsLastOfId(edges: seq<Edge>, k: nat) {
    k < |edges| && forall m :: k < m < |edges| ==> edges[m].id != edges[k].id
  }

  /** `e` is the last edge of its id. */
  ghost predicate IsNewest(edges: seq<Edge>, e: Edge) {
    exists k: nat :: IsLastOfId(edges, k) && edges[k] == e
  }

  /** The place of the first edge with an id. */
  ghost function FirstAt(edges: seq<Edge>, id: Id): nat {
    if edges == [] || edges[0].id == id then 0 else 1 + FirstAt(edges[1..], id)
  }

  lemma {:induction false} FirstAtSnoc(edges: seq<Edge>, edge: Edge, id: Id)
    ensures id in EdgeIds(edges) ==>
      FirstAt(edges + [edge], id) == FirstAt(edges, id) && FirstAt(edges, id) < |edges|
    ensures id !in EdgeIds(edges) && id == edge.id ==> FirstAt(edges + [edge], id) == |edges|
  {
    if edges != [] {
      assert edges == [edges[0]] + edges[1..];
      EdgeIdsCons(edges[0], edges[1..]);
      assert (edges + [edge])[1..] == edges[1..] + [edge];
      FirstAtSnoc(edges[1..], edge, id);
    }
  }

  lemma LastOfIdSnoc(edges: seq<Edge>, edge: Edge, k: nat)
    ensures IsLastOfId(edges + [edge], |edges|)
    ensures k < |edges| ==> (IsLastOfId(edges + [edge], k) <==> IsLastOfId(edges, k) && edges[k].id != edge.id)
  {
    var more := edges + [edge];
    assert more[|edges|] == edge;
    assert forall m :: 0 <= m < |edges| ==> more[m] == edges[m];
  }

  /** Edges in the order in which their ids first occur. */
  ghost predicate InFirstOrder(kept: seq<Edge>, edges: seq<Edge>) {
    forall i, j :: 0 <= i < j < |kept| ==> FirstAt(edges, kept[i].id) < FirstAt(edges, kept[j].id)
  }

  /** One edge an id, the last one given, in the order in which the ids first occur. */
  lemma {:induction false} LastPerIdMeaning(edges: seq<Edge>)
    ensures DistinctIds(LastPerId(edges)) && InFirstOrder(LastPerId(edges), edges)
    ensures EdgeIds(LastPerId(edges)) == EdgeIds(edges)
    ensures forall e :: e in LastPerId(edges) <==> IsNewest(edges, e)
  {
    if edges != [] {
      var front, edge := edges[..|edges| - 1], edges[|edges| - 1];
      assert edges == front + [edge];
      LastPerIdMeaning(front);
      PutEdgeLaws(LastPerId(front), edge);
      PutKeepsFirstOrder(LastPerId(front), front, edge);
      EdgeIdsSnoc(front, edge);
      forall e
        ensures e in LastPerId(edges) <==> IsNewest(edges, e)
      {
        NewestSnoc(front, edge, e);
      }
    }
  }

  lemma EdgeIdsSnoc(edges: seq<Edge>, edge: Edge)
    ensures EdgeIds(edges + [edge]) == EdgeIds(edges) + {edge.id}
  {
    assert forall e :: e in edges + [edge] <==> e in edges || e == edge;
  }

  lemma NewestSnoc(edges: seq<Edge>, edge: Edge, e: Edge)
    ensures IsNewest(edges + [edge], e) <==> e == edge || (e.id != edge.id && IsNewest(edges, e))
  {
    var more := edges + [edge];
    forall k: nat | k < |edges|
      ensures IsLastOfId(more, k) <==> IsLastOfId(edges, k) && edges[k].id != edge.id
    {
      LastOfIdSnoc(edges, edge, k);
    }
    LastOfIdSnoc(edges, edge, |edges|);
    assert IsLastOfId(more, |edges|) && more[|edges|] == edge;
    if e.id != edge.id && IsNewest(edges, e) {
      var k: nat :| IsLastOfId(edges, k) && edges[k] == e;
      assert IsLastOfId(more, k) && more[k] == e;
    }
  }

  lemma PutKeepsFirstOrder(kept: seq<Edge>, edges: seq<Edge>, edge: Edge)
    requires InFirstOrder(kept, edges) && EdgeIds(kept) == EdgeIds(edges)
    ensures InFirstOrder(PutEdge(kept, edge), edges + [edge])
  {
    var after := PutEdge(kept, edge);
    PutEdgePlace(kept, edge);
    forall i, j | 0 <= i < j < |after|
      ensures FirstAt(edges + [edge], after[i].id) < FirstAt(edges + [edge], after[j].id)
    {
      assert kept[i] in kept && kept[i].id in EdgeIds(kept);
      FirstAtSnoc(edges, edge, after[i].id);
      if j < |kept| {
        assert kept[j] in kept && kept[j].id in EdgeIds(kept);
      }
      FirstAtSnoc(edges, edge, after[j].id);
    }
  }

  /** The node has the entity's name, kind and quote, and an id made of the source, the kind and the folded
      name. */
  ghost predicate IsNodeOf(node: Node, tenant: nat, origin: nat, e: EntityDraft, fold: string -> string, uuid: Uuid5) {
    && node.name == e.name && node.kind == e.kind && node.evidence == e.evidence && node.origin == origin
    && node.id == uuid.node(tenant, origin, e.kind, fold(e.name))
  }

  function EntityNodes(tenant: nat, origin: nat, entities: seq<EntityDraft>, fold: string -> string,
                       uuid: Uuid5): seq<Node> {
    seq(|entities|, i requires 0 <= i < |entities| => EntityNode(tenant, origin, entities[i], fold, uuid))
  }

  ghost predicate DistinctNodes(nodes: seq<Node>) {
    forall i, j :: 0 <= i < j < |nodes| ==> nodes[i].id != nodes[j].id
  }

  lemma EntityNodesDistinct(tenant: nat, origin: nat, entities: seq<EntityDraft>, fold: string -> string, uuid: Uuid5)
    requires NeverEmpty(uuid)
    requires forall i, j :: 0 <= i < j < |entities| ==>
      (entities[i].kind, fold(entities[i].name)) != (entities[j].kind, fold(entities[j].name))
    ensures Injective(uuid) ==> DistinctNodes(EntityNodes(tenant, origin, entities, fold, uuid))
    ensures 0 !in Ids(EntityNodes(tenant, origin, entities, fold, uuid))
  {
    var nodes := EntityNodes(tenant, origin, entities, fold, uuid);
    if Injective(uuid) {
      forall i, j | 0 <= i < j < |nodes|
        ensures nodes[i].id != nodes[j].id
      {
        assert (entities[i].kind, fold(entities[i].name)) != (entities[j].kind, fold(entities[j].name));
      }
    }
  }

  /** The edge of every relation, in order. */
  function RelationEdges(tenant: nat, origin: nat, nodes: seq<Node>, extraction: Extraction, uuid: Uuid5): seq<Edge>
    requires |nodes| == |extraction.entities| && Resolved(extraction)
  {
    seq(|extraction.relations|, i requires 0 <= i < |extraction.relations| =>
      assert extraction.relations[i] in extraction.relations;
      RelationEdge(tenant, origin, nodes, extraction.entities, extraction.relations[i], uuid))
  }

  lemma {:induction false} NodeIdOf(nodes: seq<Node>, entities: seq<EntityDraft>, i: nat)
    requires |nodes| == |entities| && i < |entities|
    requires forall m :: 0 <= m < i ==> entities[m].id != entities[i].id
    ensures NodeId(nodes, entities, entities[i].id) == nodes[i].id
  {
    if i > 0 {
      assert entities[1..][i - 1] == entities[i] && entities[0].id != entities[i].id;
      NodeIdOf(nodes[1..], entities[1..], i - 1);
    }
  }

  /** A relation's edge joins the nodes of the two entities it names. */
  lemma RelationJoins(tenant: nat, origin: nat, extraction: Extraction, r: RelationDraft, fold: string -> string,
                      uuid: Uuid5, i: nat, j: nat)
    requires ValidExtraction(extraction, fold) && i < |extraction.entities| && j < |extraction.entities|
    requires r.source == extraction.entities[i].id && r.target == extraction.entities[j].id
    ensures var nodes := EntityNodes(tenant, origin, extraction.entities, fold, uuid);
      var edge := RelationEdge(tenant, origin, nodes, extraction.entities, r, uuid);
      && edge.source == nodes[i].id && edge.target == nodes[j].id && edge.kind == r.kind
      && edge.evidence == r.evidence && edge.origin == origin
      && edge.id == uuid.edge(tenant, origin, nodes[i].id, r.kind, nodes[j].id)
  {
    var nodes := EntityNodes(tenant, origin, extraction.entities, fold, uuid);
    NodeIdOf(nodes, extraction.entities, i);
    NodeIdOf(nodes, extraction.entities, j);
  }

  lemma KeptAreClosed(nodes: seq<Node>, edges: seq<Edge>)
    requires 0 !in Ids(nodes) && forall e :: e in edges ==> e.source in Ids(nodes) && e.target in Ids(nodes)
    ensures Closed(nodes, LastPerId(edges))
  {
    LastPerIdMeaning(edges);
    forall e | e in LastPerId(edges)
      ensures e.source in Ids(nodes) && e.target in Ids(nodes)
    {
      assert IsNewest(edges, e);
    }
  }

  method BuildEdges(tenant: nat, origin: nat, nodes: seq<Node>, extraction: Extraction, uuid: Uuid5)
    returns (edges: seq<Edge>)
    requires |nodes| == |extraction.entities| && Resolved(extraction) && 0 !in Ids(nodes)
    ensures Closed(nodes, edges) && DistinctIds(edges)
    ensures edges == LastPerId(RelationEdges(tenant, origin, nodes, extraction, uuid))
    ensures forall e :: e in edges <==> IsNewest(RelationEdges(tenant, origin, nodes, extraction, uuid), e)
    ensures InFirstOrder(edges, RelationEdges(tenant, origin, nodes, extraction, uuid))
    ensures EdgeIds(edges) == EdgeIds(RelationEdges(tenant, origin, nodes, extraction, uuid))
  {
    var all := RelationEdges(tenant, origin, nodes, extraction, uuid);
    edges := [];
    for i := 0 to |all|
      invariant edges == LastPerId(all[..i])
    {
      assert all[..i + 1][..i] == all[..i];
      edges := PutEdge(edges, all[i]);
    }
    assert all[..|all|] == all;
    LastPerIdMeaning(all);
    KeptAreClosed(nodes, all);
  }

  class KnowledgeGraphService {
    const store: MemoryGraphStore

    constructor (store: MemoryGraphStore)
      ensures this.store == store
    {
      this.store := store;
    }

    method Persist(tenant: nat, origin: nat, text: string, extraction: Extraction, fold: string -> string, uuid: Uuid5)
      returns (result: Persisted)
      requires NeverEmpty(uuid)
      modifies store
      ensures result.Invalid? <==> !ValidExtraction(extraction, fold)
      ensures result.NotAQuote? <==> ValidExtraction(extraction, fold) && !AllQuoted(extraction, text)
      ensures !result.Saved? ==> store.graphs == old(store.graphs)
      ensures result.Saved? ==>
        && store.graphs == Put(old(store.graphs), Stored(tenant, origin, result.graph))
        && Closed(result.graph.nodes, result.graph.edges)
        && DistinctIds(result.graph.edges)
        && result.graph.nodes == EntityNodes(tenant, origin, extraction.entities, fold, uuid)
        && (forall i :: 0 <= i < |extraction.entities| ==>
              IsNodeOf(result.graph.nodes[i], tenant, origin, extraction.entities[i], fold, uuid))
        && result.graph.edges == LastPerId(RelationEdges(tenant, origin, result.graph.nodes, extraction, uuid))
        && (Injective(uuid) ==> DistinctNodes(result.graph.nodes))
      ensures old(AllClosed(store.graphs)) ==> AllClosed(store.graphs)
    {
      if !ValidExtraction(extraction, fold) {
        return Invalid;
      }
      if !AllQuoted(extraction, text) {
        return NotAQuote;
      }
      var nodes := EntityNodes(tenant, origin, extraction.entities, fold, uuid);
      EntityNodesDistinct(tenant, origin, extraction.entities, fold, uuid);
      var edges := BuildEdges(tenant, origin, nodes, extraction, uuid);
      var graph := Subgraph(nodes, edges, false);
      if AllClosed(store.graphs) {
        PutKeepsClosed(store.graphs, Stored(tenant, origin, graph));
      }
      store.Replace(tenant, origin, graph);
      result := Saved(graph);
    }
  }
}
