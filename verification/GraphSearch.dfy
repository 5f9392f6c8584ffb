/** Breadth-first search for a route, and bounded neighbourhoods, in the in-memory graph store. */
module GraphSearch {
  import opened GraphWalks
  import opened Sequences

  datatype Subgraph = Subgraph(nodes: seq<Node>, edges: seq<Edge>, truncated: bool)

  const EMPTY: Subgraph := Subgraph([], [], false)

  function Ids(nodes: seq<Node>): set<Id> {
    set n | n in nodes :: n.id
  }

  /** Every edge joins two nodes of the graph, and no id is empty. */
  ghost predicate Closed(nodes: seq<Node>, edges: seq<Edge>) {
    && 0 !in Ids(nodes)
    && forall e :: e in edges ==> e.source in Ids(nodes) && e.target in Ids(nodes)
  }

  // ----- The search queue -----

  /** A queued route with its end and the nodes on it. */
  datatype Entry = Entry(node: Id, route: seq<Edge>, visited: set<Id>)

  /** The entries appended after one entry is taken from the queue. */
  function Expand(entry: Entry, edges: seq<Edge>): seq<Entry> {
    if edges == [] then []
    else
      var rest := Expand(entry, edges[1..]);
      var neighbor := Other(edges[0], entry.node);
      if Touches(edges[0], entry.node) && neighbor != 0 && neighbor !in entry.visited
      then [Entry(neighbor, entry.route + [edges[0]], entry.visited + {neighbor})] + rest else rest
  }

  ghost predicate GoodEntry(edges: seq<Edge>, source: Id, ids: set<Id>, entry: Entry) {
    && IsSimple(edges, source, entry.route)
    && entry.node == End(source, entry.route)
    && entry.visited == Visited(source, entry.route)
    && entry.visited <= ids
  }

  ghost predicate GoodQueue(edges: seq<Edge>, source: Id, ids: set<Id>, queue: seq<Entry>) {
    forall i :: 0 <= i < |queue| ==> GoodEntry(edges, source, ids, queue[i])
  }

  /** Routes leave the queue shortest first: lengths never fall along it, nor differ by more than one. */
  ghost predicate Layered(queue: seq<Entry>) {
    forall i, j :: 0 <= i <= j < |queue| ==>
      |queue[i].route| <= |queue[j].route| <= |queue[0].route| + 1
  }

  /** Some queued route can still grow into `route`. */
  ghost predicate Covered(queue: seq<Entry>, route: seq<Edge>) {
    exists i :: 0 <= i < |queue| && queue[i].route <= route
  }

  /** A simple route to the target that the depth bound allows. */
  ghost predicate Wanted(edges: seq<Edge>, source: Id, target: Id, depth: int, route: seq<Edge>) {
    IsSimple(edges, source, route) && End(source, route) == target && |route| <= depth
  }

  ghost predicate CoversAll(edges: seq<Edge>, source: Id, target: Id, depth: int, queue: seq<Entry>) {
    forall route :: Wanted(edges, source, target, depth, route) ==> Covered(queue, route)
  }

  lemma ExtendedIsGood(entry: Entry, all: seq<Edge>, edge: Edge, source: Id, ids: set<Id>)
    requires GoodEntry(all, source, ids, entry) && edge in all && edge.source in ids && edge.target in ids
    requires Touches(edge, entry.node) && Other(edge, entry.node) !in entry.visited
    ensures var neighbor := Other(edge, entry.node);
      GoodEntry(all, source, ids, Entry(neighbor, entry.route + [edge], entry.visited + {neighbor}))
  {
    var longer := entry.route + [edge];
    assert longer[|longer| - 1] == edge && longer[..|longer| - 1] == entry.route;
  }

  lemma {:induction false} ExpandIsGood(entry: Entry, all: seq<Edge>, edges: seq<Edge>, source: Id, ids: set<Id>)
    requires GoodEntry(all, source, ids, entry)
    requires forall e :: e in edges ==> e in all
    requires forall e :: e in all ==> e.source in ids && e.target in ids
    ensures GoodQueue(all, source, ids, Expand(entry, edges))
    ensures forall i :: 0 <= i < |Expand(entry, edges)| ==> |Expand(entry, edges)[i].route| == |entry.route| + 1
  {
    if edges != [] {
      assert edges[0] in edges && forall e :: e in edges[1..] ==> e in edges;
      ExpandIsGood(entry, all, edges[1..], source, ids);
      var rest, neighbor := Expand(entry, edges[1..]), Other(edges[0], entry.node);
      if Touches(edges[0], entry.node) && neighbor != 0 && neighbor !in entry.visited {
        ExtendedIsGood(entry, all, edges[0], source, ids);
        var longer := Entry(neighbor, entry.route + [edges[0]], entry.visited + {neighbor});
        assert Expand(entry, edges) == [longer] + rest;
      }
    }
  }

  /** The edge a wanted route takes next is among those appended. */
  lemma {:induction false} ExpandCovers(entry: Entry, edges: seq<Edge>, edge: Edge)
    requires edge in edges && Touches(edge, entry.node)
    requires Other(edge, entry.node) != 0 && Other(edge, entry.node) !in entry.visited
    ensures exists i :: 0 <= i < |Expand(entry, edges)| && Expand(entry, edges)[i].route == entry.route + [edge]
  {
    if edge == edges[0] {
      assert Expand(entry, edges)[0].route == entry.route + [edge];
    } else {
      ExpandCovers(entry, edges[1..], edge);
      var rest := Expand(entry, edges[1..]);
      var i :| 0 <= i < |rest| && rest[i].route == entry.route + [edge];
      var k := i + |Expand(entry, edges)| - |rest|;
      assert Expand(entry, edges)[k].route == entry.route + [edge];
    }
  }

  /** What replaces the head of the queue once it was not the target. */
  function Successors(entry: Entry, edges: seq<Edge>, depth: int): seq<Entry> {
    if |entry.route| >= depth then [] else Expand(entry, edges)
  }

  /** A route that runs through an entry short of the target goes on through one of its successors. */
  lemma RouteGoesOn(edges: seq<Edge>, source: Id, target: Id, depth: int, head: Entry, ids: set<Id>, route: seq<Edge>)
    requires GoodEntry(edges, source, ids, head) && head.node != target && head.route <= route
    requires Wanted(edges, source, target, depth, route)
    requires forall e :: e in edges ==> e.source != 0 && e.target != 0
    ensures Covered(Successors(head, edges, depth), route)
  {
    var k := |head.route|;
    assert route[..k] == head.route;
    assert k < |route| by {
      assert k == |route| ==> route == head.route;
    }
    var longer := route[..k + 1];
    SimplePrefix(edges, source, route, k + 1);
    assert longer[..|longer| - 1] == head.route && longer[k] == route[k];
    ExpandCovers(head, edges, route[k]);
    var j :| 0 <= j < |Expand(head, edges)| && Expand(head, edges)[j].route == head.route + [route[k]];
    assert head.route + [route[k]] == longer <= route;
  }

  lemma CoverStep(edges: seq<Edge>, source: Id, target: Id, depth: int, queue: seq<Entry>, ids: set<Id>,
                  route: seq<Edge>)
    requires queue != [] && GoodEntry(edges, source, ids, queue[0]) && queue[0].node != target
    requires Wanted(edges, source, target, depth, route) && Covered(queue, route)
    requires forall e :: e in edges ==> e.source != 0 && e.target != 0
    ensures Covered(queue[1..] + Successors(queue[0], edges, depth), route)
  {
    var i :| 0 <= i < |queue| && queue[i].route <= route;
    var next := queue[1..] + Successors(queue[0], edges, depth);
    if i > 0 {
      assert next[i - 1] == queue[i];
    } else {
      RouteGoesOn(edges, source, target, depth, queue[0], ids, route);
      var j :| 0 <= j < |Successors(queue[0], edges, depth)| && Successors(queue[0], edges, depth)[j].route <= route;
      assert next[|queue| - 1 + j].route <= route;
    }
  }

  lemma LayeredStep(queue: seq<Entry>, more: seq<Entry>)
    requires queue != [] && Layered(queue)
    requires forall i :: 0 <= i < |more| ==> |more[i].route| == |queue[0].route| + 1
    ensures Layered(queue[1..] + more)
  {
    var next := queue[1..] + more;
    forall i, j | 0 <= i <= j < |next|
      ensures |next[i].route| <= |next[j].route| <= |next[0].route| + 1
    {
      assert |queue[0].route| <= |next[0].route|;
      if j < |queue| - 1 {
        assert next[i] == queue[i + 1] && next[j] == queue[j + 1];
      } else {
        assert next[j] == more[j - (|queue| - 1)];
        if i < |queue| - 1 {
          assert next[i] == queue[i + 1];
        } else {
          assert next[i] == more[i - (|queue| - 1)];
        }
      }
    }
  }

  // ----- Termination: the layer at the head of the queue empties, then the next one begins -----

  lemma {:induction false} SimpleVisitedSize(edges: seq<Edge>, source: Id, route: seq<Edge>)
    requires IsSimple(edges, source, route)
    ensures |Visited(source, route)| == |route| + 1
  {
    if route != [] {
      SimpleVisitedSize(edges, source, route[..|route| - 1]);
    }
  }

  lemma {:induction false} SubsetSize(small: set<Id>, large: set<Id>)
    requires small <= large
    ensures |small| <= |large|
  {
    if small != {} {
      var x :| x in small;
      SubsetSize(small - {x}, large - {x});
    }
  }

  ghost function LayerSize(queue: seq<Entry>, length: nat): nat {
    if queue == [] then 0 else (if |queue[0].route| == length then 1 else 0) + LayerSize(queue[1..], length)
  }

  lemma {:induction false} LayerSizeAppend(queue: seq<Entry>, more: seq<Entry>, length: nat)
    requires forall i :: 0 <= i < |more| ==> |more[i].route| != length
    ensures LayerSize(queue + more, length) == LayerSize(queue, length)
    decreases |queue|, |more|
  {
    if queue != [] {
      assert (queue + more)[1..] == queue[1..] + more;
      LayerSizeAppend(queue[1..], more, length);
    } else if more != [] {
      assert queue + more == more && [] + more[1..] == more[1..];
      LayerSizeAppend([], more[1..], length);
    }
  }

  ghost function LayersLeft(queue: seq<Entry>, ids: set<Id>): int {
    if queue == [] then 0 else |ids| + 1 - |queue[0].route|
  }

  ghost function HeadLayer(queue: seq<Entry>): nat {
    if queue == [] then 0 else LayerSize(queue, |queue[0].route|)
  }

  lemma QueueShrinks(queue: seq<Entry>, more: seq<Entry>, edges: seq<Edge>, source: Id, ids: set<Id>)
    requires queue != [] && Layered(queue) && GoodQueue(edges, source, ids, queue)
    requires forall i :: 0 <= i < |more| ==> |more[i].route| == |queue[0].route| + 1
    ensures var next := queue[1..] + more;
      LayersLeft(next, ids) < LayersLeft(queue, ids)
      || (LayersLeft(next, ids) == LayersLeft(queue, ids) && HeadLayer(next) < HeadLayer(queue))
    ensures 0 <= LayersLeft(queue, ids)
  {
    var next, length := queue[1..] + more, |queue[0].route|;
    SimpleVisitedSize(edges, source, queue[0].route);
    SubsetSize(queue[0].visited, ids);
    LayerSizeAppend(queue[1..], more, length);
    if next != [] {
      assert next[0] == if |queue| > 1 then queue[1] else more[0];
    }
  }

  // ----- The store -----

  predicate Smaller(a: Id, b: Id) {
    a < b
  }

  ghost predicate InIdOrder(nodes: seq<Node>) {
    forall i, j :: 0 <= i < j < |nodes| ==> nodes[i].id < nodes[j].id
  }

  method SortIds(ids: set<Id>) returns (sorted: seq<Id>)
    ensures Ascends(sorted, Smaller) && forall x :: x in sorted <==> x in ids
  {
    sorted := [];
    var rest := ids;
    while rest != {}
      invariant Ascends(sorted, Smaller) && rest <= ids
      invariant forall x :: x in sorted <==> x in ids - rest
      decreases rest
    {
      var id :| id in rest;
      sorted := Insert(sorted, id, Smaller);
      rest := rest - {id};
    }
  }

  /** No later node has the id of this one. */
  ghost predicate IsLastNode(nodes: seq<Node>, n: Node) {
    exists i: nat :: i < |nodes| && nodes[i] == n && forall j :: i < j < |nodes| ==> nodes[j].id != n.id
  }

  /** The graph found: the route itself, and exactly the nodes on it in id order, as they were given last. */
  ghost predicate IsRouteGraph(nodes: seq<Node>, source: Id, graph: Subgraph, route: seq<Edge>) {
    && graph.edges == route && !graph.truncated
    && InIdOrder(graph.nodes)
    && (forall n :: n in graph.nodes ==> n in nodes && IsLastNode(nodes, n))
    && Ids(graph.nodes) == Visited(source, route)
  }

  /** A shortest route from source to target, among all undirected routes. */
  ghost predicate IsShortest(edges: seq<Edge>, source: Id, target: Id, route: seq<Edge>) {
    && IsWalk(edges, source, route) && End(source, route) == target
    && forall walk :: IsWalk(edges, source, walk) && End(source, walk) == target ==> |route| <= |walk|
  }

  ghost predicate Connects(edges: seq<Edge>, source: Id, target: Id, walk: seq<Edge>) {
    IsWalk(edges, source, walk) && End(source, walk) == target
  }

  lemma HeadIsShortest(edges: seq<Edge>, source: Id, target: Id, depth: int, queue: seq<Entry>, ids: set<Id>)
    requires queue != [] && GoodEntry(edges, source, ids, queue[0]) && queue[0].node == target
    requires Layered(queue) && CoversAll(edges, source, target, depth, queue)
    requires |queue[0].route| <= if depth < 0 then 0 else depth
    ensures IsShortest(edges, source, target, queue[0].route)
  {
    SimpleIsWalk(edges, source, queue[0].route);
    forall walk | Connects(edges, source, target, walk)
      ensures |queue[0].route| <= |walk|
    {
      var simple := WalkShortens(edges, source, walk);
      if |simple| <= depth {
        assert Wanted(edges, source, target, depth, simple);
        var i :| 0 <= i < |queue| && queue[i].route <= simple;
      }
    }
  }

  lemma NothingCovered(edges: seq<Edge>, source: Id, target: Id, depth: int)
    requires CoversAll(edges, source, target, depth, [])
    ensures forall walk :: Connects(edges, source, target, walk) ==> |walk| > depth
  {
    forall walk | Connects(edges, source, target, walk)
      ensures |walk| > depth
    {
      var simple := WalkShortens(edges, source, walk);
      assert Wanted(edges, source, target, depth, simple) ==> Covered([], simple);
    }
  }

  method ExpandEntry(entry: Entry, edges: seq<Edge>) returns (more: seq<Entry>)
    ensures more == Expand(entry, edges)
  {
    more := [];
    for i := 0 to |edges|
      invariant Expand(entry, edges) == more + Expand(entry, edges[i..])
    {
      var neighbor := Other(edges[i], entry.node);
      assert edges[i..][1..] == edges[i + 1..];
      if Touches(edges[i], entry.node) && neighbor != 0 && neighbor !in entry.visited {
        var longer := Entry(neighbor, entry.route + [edges[i]], entry.visited + {neighbor});
        assert more + ([longer] + Expand(entry, edges[i + 1..])) == more + [longer] + Expand(entry, edges[i + 1..]);
        more := more + [longer];
      }
    }
    assert more + [] == more;
  }

  lemma LastNodeNow(nodes: seq<Node>, n: Node)
    ensures IsLastNode(nodes + [n], n)
  {
    assert (nodes + [n])[|nodes|] == n;
  }

  lemma LastNodeStays(nodes: seq<Node>, other: Node, n: Node)
    requires IsLastNode(nodes, n) && other.id != n.id
    ensures IsLastNode(nodes + [other], n)
  {
    var i: nat :| i < |nodes| && nodes[i] == n && forall j :: i < j < |nodes| ==> nodes[j].id != n.id;
    var more := nodes + [other];
    assert more[i] == n && forall j :: i < j < |more| ==> more[j].id != n.id;
  }

  method NodesOf(nodes: seq<Node>, ids: set<Id>) returns (picked: seq<Node>)
    requires ids <= Ids(nodes)
    ensures InIdOrder(picked)
    ensures (forall n :: n in picked ==> n in nodes && IsLastNode(nodes, n)) && Ids(picked) == ids
  {
    var lookup: map<Id, Node> := map[];
    for i := 0 to |nodes|
      invariant lookup.Keys == Ids(nodes[..i])
      invariant forall id :: id in lookup ==> lookup[id].id == id && IsLastNode(nodes[..i], lookup[id])
    {
      assert nodes[..i + 1] == nodes[..i] + [nodes[i]];
      forall id | id in lookup && id != nodes[i].id
        ensures IsLastNode(nodes[..i + 1], lookup[id])
      {
        LastNodeStays(nodes[..i], nodes[i], lookup[id]);
      }
      LastNodeNow(nodes[..i], nodes[i]);
      lookup := lookup[nodes[i].id := nodes[i]];
    }
    assert nodes[..|nodes|] == nodes;
    var sorted := SortIds(ids);
    picked := [];
    for i := 0 to |sorted|
      invariant |picked| == i
      invariant forall k :: 0 <= k < i ==> IsLastNode(nodes, picked[k]) && picked[k].id == sorted[k]
    {
      assert sorted[i] in sorted;
      picked := picked + [lookup[sorted[i]]];
    }
    forall id
      ensures id in Ids(picked) <==> id in ids
    {
      if id in ids {
        var k :| 0 <= k < |sorted| && sorted[k] == id;
        assert picked[k] in picked;
      }
      assert id in Ids(picked) ==> id in sorted;
    }
  }

  ghost predicate QueueOk(edges: seq<Edge>, source: Id, target: Id, depth: int, queue: seq<Entry>, ids: set<Id>) {
    && GoodQueue(edges, source, ids, queue)
    && Layered(queue)
    && CoversAll(edges, source, target, depth, queue)
    && forall i :: 0 <= i < |queue| ==> |queue[i].route| <= if depth < 0 then 0 else depth
  }

  lemma QueueStarts(edges: seq<Edge>, source: Id, target: Id, depth: int, ids: set<Id>)
    requires source in ids
    ensures QueueOk(edges, source, target, depth, [Entry(source, [], {source})], ids)
  {
    var queue := [Entry(source, [], {source})];
    forall route | Wanted(edges, source, target, depth, route)
      ensures Covered(queue, route)
    {
      assert queue[0].route <= route;
    }
  }

  lemma QueueGoesOn(edges: seq<Edge>, source: Id, target: Id, depth: int, queue: seq<Entry>, ids: set<Id>)
    requires queue != [] && QueueOk(edges, source, target, depth, queue, ids) && queue[0].node != target
    requires forall e :: e in edges ==> e.source in ids && e.target in ids && e.source != 0 && e.target != 0
    ensures QueueOk(edges, source, target, depth, queue[1..] + Successors(queue[0], edges, depth), ids)
  {
    var more := Successors(queue[0], edges, depth);
    ExpandIsGood(queue[0], edges, edges, source, ids);
    LayeredStep(queue, more);
    forall route | Wanted(edges, source, target, depth, route)
      ensures Covered(queue[1..] + more, route)
    {
      CoverStep(edges, source, target, depth, queue, ids, route);
    }
  }

  /** The breadth-first search: a shortest route of at most `depth` edges with exactly its nodes,
      or nothing when no route is that short. */
  method FindPath(nodes: seq<Node>, edges: seq<Edge>, source: Id, target: Id, depth: int) returns (graph: Subgraph)
    requires Closed(nodes, edges)
    ensures source !in Ids(nodes) || target !in Ids(nodes) ==> graph == EMPTY
    ensures source in Ids(nodes) && target in Ids(nodes) ==>
      if graph.nodes == [] then
        graph == EMPTY && forall walk :: Connects(edges, source, target, walk) ==> |walk| > depth
      else
        && IsRouteGraph(nodes, source, graph, graph.edges)
        && IsShortest(edges, source, target, graph.edges)
        && |graph.edges| <= if depth < 0 then 0 else depth
  {
    var ids := set n | n in nodes :: n.id;
    if source !in ids || target !in ids {
      return EMPTY;
    }
    var queue := [Entry(source, [], {source})];
    QueueStarts(edges, source, target, depth, ids);
    while queue != []
      invariant QueueOk(edges, source, target, depth, queue, ids)
      decreases LayersLeft(queue, ids), HeadLayer(queue)
    {
      var head := queue[0];
      if head.node == target {
        HeadIsShortest(edges, source, target, depth, queue, ids);
        SimpleIsWalk(edges, source, head.route);
        VisitedStays(edges, source, head.route, ids);
        var found := NodesOf(nodes, head.visited);
        assert found != [] by {
          assert head.node in Ids(found);
        }
        return Subgraph(found, head.route, false);
      }
      QueueGoesOn(edges, source, target, depth, queue, ids);
      ExpandIsGood(head, edges, edges, source, ids);
      QueueShrinks(queue, Successors(head, edges, depth), edges, source, ids);
      queue := queue[1..];
      if |head.route| < depth {
        var more := ExpandEntry(head, edges);
        queue := queue + more;
      } else {
        assert queue + [] == queue;
      }
    }
    NothingCovered(edges, source, target, depth);
    return EMPTY;
  }
}
