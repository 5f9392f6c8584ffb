/** Undirected walks over the edges of a knowledge graph. */
module GraphWalks {

  /** Node ids enter only through equality, order and emptiness; 0 stands for the empty id. */
  type Id = nat

  datatype Node = Node(id: Id, name: string, kind: string, origin: nat, evidence: string)

  datatype Edge = Edge(id: Id, source: Id, target: Id, kind: string, origin: nat, evidence: string)

  predicate Touches(edge: Edge, node: Id) {
    edge.source == node || edge.target == node
  }

  /** The end of the edge reached from `node`, in the order the search looks at the ends. */
  function Other(edge: Edge, node: Id): Id {
    if edge.source == node then edge.target else edge.source
  }

  function End(start: Id, route: seq<Edge>): Id {
    if route == [] then start else Other(route[|route| - 1], End(start, route[..|route| - 1]))
  }

  ghost predicate IsWalk(edges: seq<Edge>, start: Id, route: seq<Edge>) {
    route == [] ||
    var last, before := route[|route| - 1], route[..|route| - 1];
    IsWalk(edges, start, before) && last in edges && Touches(last, End(start, before))
  }

  function Visited(start: Id, route: seq<Edge>): set<Id> {
    if route == [] then {start} else Visited(start, route[..|route| - 1]) + {End(start, route)}
  }

  /** A walk that meets no node twice. */
  ghost predicate IsSimple(edges: seq<Edge>, start: Id, route: seq<Edge>) {
    route == [] ||
    var last, before := route[|route| - 1], route[..|route| - 1];
    && IsSimple(edges, start, before) && last in edges && Touches(last, End(start, before))
    && Other(last, End(start, before)) !in Visited(start, before)
  }

  lemma {:induction false} SimpleIsWalk(edges: seq<Edge>, start: Id, route: seq<Edge>)
    requires IsSimple(edges, start, route)
    ensures IsWalk(edges, start, route)
  {
    if route != [] {
      SimpleIsWalk(edges, start, route[..|route| - 1]);
    }
  }

  lemma {:induction false} SimplePrefix(edges: seq<Edge>, start: Id, route: seq<Edge>, k: nat)
    requires IsSimple(edges, start, route) && k <= |route|
    ensures IsSimple(edges, start, route[..k])
  {
    if k < |route| {
      SimplePrefix(edges, start, route[..|route| - 1], k);
      assert route[..|route| - 1][..k] == route[..k];
    } else {
      assert route[..k] == route;
    }
  }

  /** Every node on a route is the end of one of its prefixes. */
  lemma {:induction false} VisitedIsPrefixEnd(start: Id, route: seq<Edge>, node: Id) returns (k: nat)
    requires node in Visited(start, route)
    ensures k <= |route| && End(start, route[..k]) == node
  {
    if route == [] || node == End(start, route) {
      k := |route|;
      assert route[..k] == route;
    } else {
      k := VisitedIsPrefixEnd(start, route[..|route| - 1], node);
      assert route[..|route| - 1][..k] == route[..k];
    }
  }

  /** Every walk can be cut down to a simple one between the same nodes. */
  lemma {:induction false} WalkShortens(edges: seq<Edge>, start: Id, route: seq<Edge>) returns (simple: seq<Edge>)
    requires IsWalk(edges, start, route)
    ensures IsSimple(edges, start, simple) && End(start, simple) == End(start, route) && |simple| <= |route|
  {
    if route == [] {
      simple := [];
    } else {
      var last, before := route[|route| - 1], route[..|route| - 1];
      var shorter := WalkShortens(edges, start, before);
      var node := End(start, route);
      if node in Visited(start, shorter) {
        var k := VisitedIsPrefixEnd(start, shorter, node);
        SimplePrefix(edges, start, shorter, k);
        simple := shorter[..k];
      } else {
        simple := shorter + [last];
        assert simple[..|simple| - 1] == shorter;
      }
    }
  }

  /** The nodes of a route are the start and ends of edges. */
  lemma {:induction false} VisitedStays(edges: seq<Edge>, start: Id, route: seq<Edge>, ids: set<Id>)
    requires IsWalk(edges, start, route) && start in ids
    requires forall e :: e in edges ==> e.source in ids && e.target in ids
    ensures Visited(start, route) <= ids && End(start, route) in Visited(start, route)
  {
    if route != [] {
      VisitedStays(edges, start, route[..|route| - 1], ids);
    }
  }

  /** `node` is reached from one of the seeds by at most `depth` edges. */
  ghost predicate WithinHops(edges: seq<Edge>, seeds: set<Id>, depth: nat, node: Id) {
    exists seed, route :: seed in seeds && IsWalk(edges, seed, route) && |route| <= depth && End(seed, route) == node
  }

  lemma WithinNoHops(edges: seq<Edge>, seeds: set<Id>, node: Id)
    ensures WithinHops(edges, seeds, 0, node) <==> node in seeds
  {
    if node in seeds {
      assert IsWalk(edges, node, []) && End(node, []) == node;
    }
  }

  /** One more hop: a node already within reach, or across one edge from such a node. */
  lemma WithinOneMoreHop(edges: seq<Edge>, seeds: set<Id>, depth: nat, node: Id)
    ensures WithinHops(edges, seeds, depth + 1, node)
      <==> WithinHops(edges, seeds, depth, node)
           || exists e :: e in edges && ((e.target == node && WithinHops(edges, seeds, depth, e.source))
                                         || (e.source == node && WithinHops(edges, seeds, depth, e.target)))
  {
    if WithinHops(edges, seeds, depth + 1, node) {
      var seed, route :|
        seed in seeds && IsWalk(edges, seed, route) && |route| <= depth + 1 && End(seed, route) == node;
      if |route| == depth + 1 {
        var last, before := route[|route| - 1], route[..|route| - 1];
        assert WithinHops(edges, seeds, depth, End(seed, before));
      }
    }
    forall e | e in edges && e.target == node && WithinHops(edges, seeds, depth, e.source)
      ensures WithinHops(edges, seeds, depth + 1, node)
    {
      WithinAcross(edges, seeds, depth, e, e.source, node);
    }
    forall e | e in edges && e.source == node && WithinHops(edges, seeds, depth, e.target)
      ensures WithinHops(edges, seeds, depth + 1, node)
    {
      WithinAcross(edges, seeds, depth, e, e.target, node);
    }
  }

  lemma WithinAcross(edges: seq<Edge>, seeds: set<Id>, depth: nat, edge: Edge, from: Id, node: Id)
    requires edge in edges && WithinHops(edges, seeds, depth, from)
    requires (edge.source == from && edge.target == node) || (edge.target == from && edge.source == node)
    ensures WithinHops(edges, seeds, depth + 1, node)
  {
    var seed, route :| seed in seeds && IsWalk(edges, seed, route) && |route| <= depth && End(seed, route) == from;
    var longer := route + [edge];
    assert longer[..|longer| - 1] == route;
    assert IsWalk(edges, seed, longer) && End(seed, longer) == node;
  }
}
