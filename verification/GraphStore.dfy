/** The in-memory graph store: one graph per tenant and source, searched across a tenant's sources. */
module GraphStore {
  import opened GraphWalks
  import opened GraphSearch
  import opened Sequences
  import opened Text

  datatype Stored = Stored(tenant: nat, origin: nat, graph: Subgraph)

  function AllNodes(graphs: seq<Stored>, tenant: nat): seq<Node> {
    if graphs == [] then []
    else (if graphs[0].tenant == tenant then graphs[0].graph.nodes else []) + AllNodes(graphs[1..], tenant)
  }

  function AllEdges(graphs: seq<Stored>, tenant: nat): seq<Edge> {
    if graphs == [] then []
    else (if graphs[0].tenant == tenant then graphs[0].graph.edges else []) + AllEdges(graphs[1..], tenant)
  }

  /** Assignment to a dict key: an existing key keeps its place, a new one goes last. */
  function Put(graphs: seq<Stored>, stored: Stored): seq<Stored> {
    if graphs == [] then [stored]
    else if graphs[0].tenant == stored.tenant && graphs[0].origin == stored.origin then [stored] + graphs[1..]
    else [graphs[0]] + Put(graphs[1..], stored)
  }

  /** Each stored graph is closed by itself. */
  ghost predicate AllClosed(graphs: seq<Stored>) {
    forall i :: 0 <= i < |graphs| ==> Closed(graphs[i].graph.nodes, graphs[i].graph.edges)
  }

  lemma {:induction false} PutKeepsClosed(graphs: seq<Stored>, stored: Stored)
    requires AllClosed(graphs) && Closed(stored.graph.nodes, stored.graph.edges)
    ensures AllClosed(Put(graphs, stored))
  {
    if graphs != [] && !(graphs[0].tenant == stored.tenant && graphs[0].origin == stored.origin) {
      PutKeepsClosed(graphs[1..], stored);
    }
  }

  function KeyOf(stored: Stored): (nat, nat) {
    (stored.tenant, stored.origin)
  }

  /** No source of a tenant is stored twice. */
  ghost predicate DistinctSources(graphs: seq<Stored>) {
    forall i, j :: 0 <= i < j < |graphs| ==> KeyOf(graphs[i]) != KeyOf(graphs[j])
  }

  lemma DistinctSourcesCons(first: Stored, rest: seq<Stored>)
    ensures DistinctSources([first] + rest)
       <==> DistinctSources(rest) && forall g :: g in rest ==> KeyOf(g) != KeyOf(first)
  {
    var graphs := [first] + rest;
    assert graphs[0] == first && forall i :: 0 <= i < |rest| ==> graphs[i + 1] == rest[i];
    if DistinctSources(graphs) {
      forall g | g in rest
        ensures KeyOf(g) != KeyOf(first)
      {
        var k :| 0 <= k < |rest| && rest[k] == g;
        assert graphs[k + 1] == g;
      }
    }
    if DistinctSources(rest) && forall g :: g in rest ==> KeyOf(g) != KeyOf(first) {
      forall i, j | 0 <= i < j < |graphs|
        ensures KeyOf(graphs[i]) != KeyOf(graphs[j])
      {
        assert graphs[j] == rest[j - 1] && rest[j - 1] in rest;
        assert i > 0 ==> graphs[i] == rest[i - 1];
      }
    }
  }

  /** Replacing a source puts its new graph in the place of the old one, and touches no other. */
  lemma {:induction false} PutMeaning(graphs: seq<Stored>, stored: Stored)
    requires DistinctSources(graphs)
    ensures DistinctSources(Put(graphs, stored))
    ensures forall g :: g in Put(graphs, stored) <==> g == stored || (g in graphs && KeyOf(g) != KeyOf(stored))
  {
    if graphs == [] {
      DistinctSourcesCons(stored, []);
    } else {
      var first, rest := graphs[0], graphs[1..];
      assert graphs == [first] + rest;
      DistinctSourcesCons(first, rest);
      if KeyOf(first) == KeyOf(stored) {
        DistinctSourcesCons(stored, rest);
      } else {
        PutMeaning(rest, stored);
        DistinctSourcesCons(first, Put(rest, stored));
      }
    }
  }

  /** A tenant sees the nodes and edges of its own graphs. */
  lemma {:induction false} TenantMeaning(graphs: seq<Stored>, tenant: nat)
    ensures forall n :: n in AllNodes(graphs, tenant) <==>
      exists g :: g in graphs && g.tenant == tenant && n in g.graph.nodes
    ensures forall e :: e in AllEdges(graphs, tenant) <==>
      exists g :: g in graphs && g.tenant == tenant && e in g.graph.edges
  {
    if graphs != [] {
      TenantMeaning(graphs[1..], tenant);
      assert forall g :: g in graphs <==> g == graphs[0] || g in graphs[1..];
    }
  }

  /** Replacing one source of one tenant leaves what every other tenant sees. */
  lemma {:induction false} PutKeepsOtherTenants(graphs: seq<Stored>, stored: Stored, tenant: nat)
    requires tenant != stored.tenant
    ensures AllNodes(Put(graphs, stored), tenant) == AllNodes(graphs, tenant)
    ensures AllEdges(Put(graphs, stored), tenant) == AllEdges(graphs, tenant)
  {
    if graphs != [] {
      if graphs[0].tenant == stored.tenant && graphs[0].origin == stored.origin {
        assert Put(graphs, stored)[1..] == graphs[1..];
      } else {
        PutKeepsOtherTenants(graphs[1..], stored, tenant);
        assert Put(graphs, stored)[1..] == Put(graphs[1..], stored);
      }
    } else {
      assert [stored][1..] == [];
    }
  }

  /** Closed graphs stay closed when a tenant's sources are searched together. */
  lemma {:induction false} ClosedTogether(graphs: seq<Stored>, tenant: nat)
    requires AllClosed(graphs)
    ensures Closed(AllNodes(graphs, tenant), AllEdges(graphs, tenant))
  {
    if graphs != [] {
      ClosedTogether(graphs[1..], tenant);
      assert Closed(graphs[0].graph.nodes, graphs[0].graph.edges);
      var own := if graphs[0].tenant == tenant then graphs[0].graph.nodes else [];
      assert Ids(AllNodes(graphs, tenant)) == Ids(own) + Ids(AllNodes(graphs[1..], tenant));
    }
  }

  // ----- Neighbourhoods -----

  predicate Matches(name: string, query: string, fold: string -> string) {
    IndexOf(fold(query), fold(name)) != -1 || IndexOf(fold(name), fold(query)) != -1
  }

  function MatchingIds(nodes: seq<Node>, query: string, fold: string -> string): seq<Id> {
    if nodes == [] then []
    else (if query == "" || Matches(nodes[0].name, query, fold) then [nodes[0].id] else [])
         + MatchingIds(nodes[1..], query, fold)
  }

  function Seeds(nodes: seq<Node>, query: string, limit: nat, fold: string -> string): set<Id> {
    var chosen := Take(MatchingIds(nodes, query, fold), limit + 1);
    set id | id in chosen
  }

  /** Does a node answer the query: there is none, or one of the two names contains the other? */
  ghost predicate Answers(node: Node, query: string, fold: string -> string) {
    query == "" || Contains(fold(query), fold(node.name)) || Contains(fold(node.name), fold(query))
  }

  function CountAnswers(nodes: seq<Node>, query: string, fold: string -> string): nat {
    |MatchingIds(nodes, query, fold)|
  }

  lemma MatchesIffAnswers(node: Node, query: string, fold: string -> string)
    ensures query == "" || Matches(node.name, query, fold) <==> Answers(node, query, fold)
  {
    var a, b := fold(query), fold(node.name);
    assert IndexOf(a, b) != -1 ==> OccursAt(a, b, IndexOf(a, b));
    assert IndexOf(b, a) != -1 ==> OccursAt(b, a, IndexOf(b, a));
    if Contains(a, b) {
      var i :| OccursAt(a, b, i);
    }
    if Contains(b, a) {
      var i :| OccursAt(b, a, i);
    }
  }

  /** The ids of the nodes that answer, in their order. */
  lemma {:induction false} MatchingIdsMeaning(nodes: seq<Node>, query: string, fold: string -> string)
    ensures forall id :: id in MatchingIds(nodes, query, fold) <==>
      exists i :: 0 <= i < |nodes| && nodes[i].id == id && Answers(nodes[i], query, fold)
  {
    if nodes != [] {
      MatchingIdsMeaning(nodes[1..], query, fold);
      MatchesIffAnswers(nodes[0], query, fold);
      assert forall i :: 1 <= i < |nodes| ==> nodes[i] == nodes[1..][i - 1];
    }
  }

  lemma {:induction false} MatchingIdsPrefix(nodes: seq<Node>, query: string, fold: string -> string, count: nat)
    returns (cut: nat)
    requires count <= |MatchingIds(nodes, query, fold)|
    ensures cut <= |nodes| && MatchingIds(nodes[..cut], query, fold) == MatchingIds(nodes, query, fold)[..count]
  {
    if count == 0 {
      cut := 0;
    } else {
      var own := if query == "" || Matches(nodes[0].name, query, fold) then [nodes[0].id] else [];
      var rest := MatchingIdsPrefix(nodes[1..], query, fold, count - |own|);
      cut := rest + 1;
      assert nodes[..cut][1..] == nodes[1..][..rest] && nodes[..cut][0] == nodes[0];
    }
  }

  /** The search starts from the first `limit + 1` nodes that answer the query: those that answer before some
      place, which is the end unless there are that many. */
  lemma SeedsMeaning(nodes: seq<Node>, query: string, limit: nat, fold: string -> string) returns (cut: nat)
    ensures cut <= |nodes| && CountAnswers(nodes[..cut], query, fold) <= limit + 1
    ensures forall id :: id in Seeds(nodes, query, limit, fold) <==>
      exists i :: 0 <= i < cut && nodes[i].id == id && Answers(nodes[i], query, fold)
    ensures cut == |nodes| || CountAnswers(nodes[..cut], query, fold) == limit + 1
  {
    var ids := MatchingIds(nodes, query, fold);
    if |ids| <= limit + 1 {
      cut := |nodes|;
      assert nodes[..cut] == nodes;
      assert Take(ids, limit + 1) == ids;
      MatchingIdsMeaning(nodes, query, fold);
    } else {
      cut := MatchingIdsPrefix(nodes, query, fold, limit + 1);
      MatchingIdsMeaning(nodes[..cut], query, fold);
      assert forall i :: 0 <= i < cut ==> nodes[..cut][i] == nodes[i];
    }
  }

  function Widen(edges: seq<Edge>, selected: set<Id>): set<Id> {
    selected + (set e | e in edges && e.source in selected :: e.target)
    + (set e | e in edges && e.target in selected :: e.source)
  }

  function Grow(edges: seq<Edge>, seeds: set<Id>, depth: nat): set<Id> {
    if depth == 0 then seeds else Widen(edges, Grow(edges, seeds, depth - 1))
  }

  function NodesIn(nodes: seq<Node>, selected: set<Id>): (found: seq<Node>)
    ensures forall n :: n in found <==> n in nodes && n.id in selected
  {
    if nodes == [] then []
    else
      var rest := NodesIn(nodes[1..], selected);
      assert forall n :: n in nodes <==> n == nodes[0] || n in nodes[1..];
      if nodes[0].id in selected then [nodes[0]] + rest else rest
  }

  function EdgesWithin(edges: seq<Edge>, chosen: set<Id>): (kept: seq<Edge>)
    ensures forall e :: e in kept <==> e in edges && e.source in chosen && e.target in chosen
  {
    if edges == [] then []
    else
      var rest := EdgesWithin(edges[1..], chosen);
      assert forall e :: e in edges <==> e == edges[0] || e in edges[1..];
      if edges[0].source in chosen && edges[0].target in chosen then [edges[0]] + rest else rest
  }

  /** Nodes and edges are kept in their order. */
  lemma {:induction false} KeptInOrder(nodes: seq<Node>, more: seq<Node>, selected: set<Id>)
    ensures NodesIn(nodes + more, selected) == NodesIn(nodes, selected) + NodesIn(more, selected)
  {
    if nodes == [] {
      assert nodes + more == more;
    } else {
      assert (nodes + more)[1..] == nodes[1..] + more;
      KeptInOrder(nodes[1..], more, selected);
    }
  }

  lemma {:induction false} EdgesKeptInOrder(edges: seq<Edge>, more: seq<Edge>, chosen: set<Id>)
    ensures EdgesWithin(edges + more, chosen) == EdgesWithin(edges, chosen) + EdgesWithin(more, chosen)
  {
    if edges == [] {
      assert edges + more == more;
    } else {
      assert (edges + more)[1..] == edges[1..] + more;
      EdgesKeptInOrder(edges[1..], more, chosen);
    }
  }

  const MAX_EDGES := 200

  function Neighbourhood(nodes: seq<Node>, edges: seq<Edge>, query: string, depth: nat, limit: nat,
                         fold: string -> string): Subgraph
  {
    var found := NodesIn(nodes, Grow(edges, Seeds(nodes, query, limit, fold), depth));
    var kept := Take(found, limit);
    Subgraph(kept, Take(EdgesWithin(edges, Ids(kept)), MAX_EDGES), |found| > limit)
  }

  lemma WidenMeaning(edges: seq<Edge>, selected: set<Id>, node: Id)
    ensures node in Widen(edges, selected) <==>
      node in selected || exists e :: e in edges && ((e.target == node && e.source in selected)
                                                     || (e.source == node && e.target in selected))
  {
  }

  /** One round of widening is one more hop. */
  lemma WidenIsOneHop(edges: seq<Edge>, seeds: set<Id>, depth: nat, selected: set<Id>, node: Id)
    requires forall n :: n in selected <==> WithinHops(edges, seeds, depth, n)
    ensures node in Widen(edges, selected) <==> WithinHops(edges, seeds, depth + 1, node)
  {
    WidenMeaning(edges, selected, node);
    WithinOneMoreHop(edges, seeds, depth, node);
  }

  /** The rounds of widening reach exactly the nodes within that many hops. */
  lemma {:induction false} GrowIsWithinHops(edges: seq<Edge>, seeds: set<Id>, depth: nat, node: Id)
    ensures node in Grow(edges, seeds, depth) <==> WithinHops(edges, seeds, depth, node)
  {
    if depth == 0 {
      WithinNoHops(edges, seeds, node);
    } else {
      var before := Grow(edges, seeds, depth - 1);
      forall n
        ensures n in before <==> WithinHops(edges, seeds, depth - 1, n)
      {
        GrowIsWithinHops(edges, seeds, depth - 1, n);
      }
      WidenIsOneHop(edges, seeds, depth - 1, before, node);
    }
  }

  /** What a neighbourhood holds: a prefix of the nodes within reach, no dangling edge, and a
      truncation mark exactly when nodes were dropped. Dropped edges leave no mark. */
  lemma NeighbourhoodMeaning(nodes: seq<Node>, edges: seq<Edge>, query: string, depth: nat, limit: nat,
                             fold: string -> string) returns (found: seq<Node>)
    ensures var graph := Neighbourhood(nodes, edges, query, depth, limit, fold);
      && (forall n :: n in found <==>
            n in nodes && WithinHops(edges, Seeds(nodes, query, limit, fold), depth, n.id))
      && graph.nodes <= found && |graph.nodes| <= limit
      && (graph.truncated <==> graph.nodes != found)
      && (forall e :: e in graph.edges ==> e in edges && e.source in Ids(graph.nodes) && e.target in Ids(graph.nodes))
      && |graph.edges| <= MAX_EDGES
      && (|graph.edges| < MAX_EDGES ==> forall e ::
            e in edges && e.source in Ids(graph.nodes) && e.target in Ids(graph.nodes) ==> e in graph.edges)
  {
    var seeds := Seeds(nodes, query, limit, fold);
    found := NodesIn(nodes, Grow(edges, seeds, depth));
    forall n | n in nodes
      ensures n.id in Grow(edges, seeds, depth) <==> WithinHops(edges, seeds, depth, n.id)
    {
      GrowIsWithinHops(edges, seeds, depth, n.id);
    }
  }

  /** The rounds of the search: each adds the far ends of the edges at the selection. */
  method GrowSelection(edges: seq<Edge>, seeds: set<Id>, depth: nat) returns (selected: set<Id>)
    ensures selected == Grow(edges, seeds, depth)
  {
    selected := seeds;
    for round := 0 to depth
      invariant selected == Grow(edges, seeds, round)
    {
      var adjacent := set e | e in edges && e.source in selected :: e.target;
      adjacent := adjacent + set e | e in edges && e.target in selected :: e.source;
      selected := selected + adjacent;
      assert selected == Widen(edges, Grow(edges, seeds, round));
    }
  }

  class MemoryGraphStore {
    var graphs: seq<Stored>

    constructor ()
      ensures graphs == []
    {
      graphs := [];
    }

    method Replace(tenant: nat, origin: nat, graph: Subgraph)
      modifies this
      ensures graphs == Put(old(graphs), Stored(tenant, origin, graph))
    {
      var i := 0;
      while i < |graphs| && !(graphs[i].tenant == tenant && graphs[i].origin == origin)
        invariant i <= |graphs| && graphs == old(graphs)
        invariant Put(graphs, Stored(tenant, origin, graph))
               == graphs[..i] + Put(graphs[i..], Stored(tenant, origin, graph))
      {
        assert graphs[i..][1..] == graphs[i + 1..] && graphs[..i + 1] == graphs[..i] + [graphs[i]];
        i := i + 1;
      }
      if i < |graphs| {
        assert graphs[i..][1..] == graphs[i + 1..];
        graphs := graphs[..i] + [Stored(tenant, origin, graph)] + graphs[i + 1..];
      } else {
        graphs := graphs + [Stored(tenant, origin, graph)];
      }
    }

    method Surroundings(tenant: nat, query: string, depth: nat, limit: nat, fold: string -> string)
      returns (graph: Subgraph)
      ensures graph
           == Neighbourhood(AllNodes(graphs, tenant), AllEdges(graphs, tenant), query, depth, limit, fold)
    {
      var nodes, edges := AllNodes(graphs, tenant), AllEdges(graphs, tenant);
      var seeds := Seeds(nodes, query, limit, fold);
      var selected := GrowSelection(edges, seeds, depth);
      var found := NodesIn(nodes, selected);
      var kept := Take(found, limit);
      var chosen := set n | n in kept :: n.id;
      graph := Subgraph(kept, Take(EdgesWithin(edges, chosen), MAX_EDGES), |found| > limit);
    }

    method Path(tenant: nat, source: Id, target: Id, depth: int) returns (graph: Subgraph)
      requires AllClosed(graphs)
      ensures var nodes, edges := AllNodes(graphs, tenant), AllEdges(graphs, tenant);
        if source !in Ids(nodes) || target !in Ids(nodes) then graph == EMPTY
        else if graph.nodes == [] then
          graph == EMPTY && forall walk :: Connects(edges, source, target, walk) ==> |walk| > depth
        else
          && IsRouteGraph(nodes, source, graph, graph.edges)
          && IsShortest(edges, source, target, graph.edges)
          && |graph.edges| <= if depth < 0 then 0 else depth
    {
      ClosedTogether(graphs, tenant);
      graph := FindPath(AllNodes(graphs, tenant), AllEdges(graphs, tenant), source, target, depth);
    }
  }
}
