/** Directed graphs over hub ids (include/club/graph.h). */
module Graphs {
  import opened MessageIds

  datatype Graph = Graph(nodes: set<Uuid>, edges: map<Uuid, set<Uuid>>) {
    function Peers(u: Uuid): set<Uuid> {
      if u in edges then edges[u] else {}
    }
  }

  /** Edges lead to nodes. */
  ghost predicate Closed(g: Graph) {
    forall u :: g.Peers(u) <= g.nodes
  }

  ghost predicate IsPath(g: Graph, path: seq<Uuid>) {
    path != [] && forall i :: 0 < i < |path| ==> path[i] in g.Peers(path[i - 1])
  }

  ghost predicate PathBetween(g: Graph, path: seq<Uuid>, u: Uuid, v: Uuid) {
    IsPath(g, path) && path[0] == u && path[|path| - 1] == v
  }

  ghost predicate Reaches(g: Graph, u: Uuid, v: Uuid) {
    exists path :: PathBetween(g, path, u, v)
  }

  lemma ReachesSelf(g: Graph, u: Uuid)
    ensures Reaches(g, u, u)
  {
    assert PathBetween(g, [u], u, u);
  }

  lemma ReachesStep(g: Graph, u: Uuid, v: Uuid, w: Uuid)
    requires Reaches(g, u, v) && w in g.Peers(v)
    ensures Reaches(g, u, w)
  {
    var path :| PathBetween(g, path, u, v);
    assert PathBetween(g, path + [w], u, w);
  }

  /** A set that holds u and, with every node, its peers holds everything u reaches. */
  lemma ClosedHoldsReachable(g: Graph, s: set<Uuid>, u: Uuid, v: Uuid)
    requires u in s && (forall x <- s :: g.Peers(x) <= s) && Reaches(g, u, v)
    ensures v in s
  {
    var path :| PathBetween(g, path, u, v);
    PathStaysInside(g, s, path);
  }

  lemma {:induction false} PathStaysInside(g: Graph, s: set<Uuid>, path: seq<Uuid>)
    requires IsPath(g, path) && path[0] in s && forall x <- s :: g.Peers(x) <= s
    ensures path[|path| - 1] in s
    decreases |path|
  {
    if |path| > 1 {
      assert path[1] in g.Peers(path[0]);
      assert IsPath(g, path[1..]) by { assert forall i :: 0 < i < |path| - 1 ==> path[1..][i] == path[i + 1]; }
      PathStaysInside(g, s, path[1..]);
    }
  }

  /** All nodes that edges lead to. */
  ghost function Targets(g: Graph): set<Uuid> {
    set u <- g.edges.Keys, v <- g.edges[u] :: v
  }

  ghost predicate AllReached(g: Graph, pivot: Uuid, vs: set<Uuid>) {
    forall v <- vs :: Reaches(g, pivot, v)
  }

  ghost predicate PeersFound(g: Graph, done: set<Uuid>, found: set<Uuid>) {
    forall v <- done :: g.Peers(v) <= found
  }

  ghost predicate EdgesKept(g: Graph, done: set<Uuid>, kept: Graph) {
    forall v :: kept.Peers(v) == if v in done then g.Peers(v) else {}
  }

  /** The search from the pivot: what is `done` has been kept with its edges, its peers are done or waiting, and
      everything found so far is reachable. */
  ghost predicate Searching(g: Graph, pivot: Uuid, done: set<Uuid>, waiting: set<Uuid>, kept: Graph) {
    && kept.nodes == done + {pivot} && pivot in done + waiting
    && done + waiting <= Targets(g) + {pivot}
    && AllReached(g, pivot, done + waiting)
    && PeersFound(g, done, done + waiting)
    && EdgesKept(g, done, kept)
  }

  /** The kept graph after id is visited. */
  function Keep(g: Graph, kept: Graph, id: Uuid): Graph {
    Graph(kept.nodes + {id}, if g.Peers(id) == {} then kept.edges else kept.edges[id := g.Peers(id)])
  }

  lemma SearchStart(g: Graph, pivot: Uuid)
    ensures Searching(g, pivot, {}, {pivot}, Graph({pivot}, map[]))
  {
    hide Reaches;
    ReachesSelf(g, pivot);
  }

  lemma PeersReached(g: Graph, pivot: Uuid, vs: set<Uuid>, id: Uuid)
    requires AllReached(g, pivot, vs) && id in vs
    ensures AllReached(g, pivot, vs + g.Peers(id)) && g.Peers(id) <= Targets(g)
  {
    hide Reaches;
    forall v <- g.Peers(id)
      ensures Reaches(g, pivot, v)
    {
      ReachesStep(g, pivot, id, v);
    }
  }

  lemma SearchStep(g: Graph, pivot: Uuid, done: set<Uuid>, queue: set<Uuid>, rest: set<Uuid>, kept: Graph, id: Uuid)
    requires Searching(g, pivot, done, queue + rest, kept) && id in rest
    ensures var kept' := Keep(g, kept, id);
            Searching(g, pivot, done + {id}, queue + (g.Peers(id) - kept'.nodes) + (rest - {id}), kept')
    ensures id in done && queue + rest <= done ==> g.Peers(id) <= kept.nodes
  {
    hide Reaches, Targets;
    var kept' := Keep(g, kept, id);
    var found := done + (queue + rest);
    var waiting' := queue + (g.Peers(id) - kept'.nodes) + (rest - {id});
    PeersReached(g, pivot, found, id);
    assert done + {id} + waiting' <= found + g.Peers(id);
    assert found <= done + {id} + waiting';
    assert EdgesKept(g, done + {id}, kept') by { hide AllReached, PeersFound; }
    assert g.Peers(id) <= done + {id} + waiting' by { PivotFound(g, pivot, done, queue + rest, kept); }
  }

  lemma PivotFound(g: Graph, pivot: Uuid, done: set<Uuid>, waiting: set<Uuid>, kept: Graph)
    requires Searching(g, pivot, done, waiting, kept)
    ensures kept.nodes <= done + waiting
  {
  }

  lemma SearchEnd(g: Graph, pivot: Uuid, done: set<Uuid>, kept: Graph)
    requires Searching(g, pivot, done, {}, kept)
    ensures forall v :: v in kept.nodes <==> Reaches(g, pivot, v)
    ensures forall v :: kept.Peers(v) == if Reaches(g, pivot, v) then g.Peers(v) else {}
  {
    hide Reaches;
    forall v | Reaches(g, pivot, v)
      ensures v in done
    {
      ClosedHoldsReachable(g, done, pivot, v);
    }
  }

  class MutableGraph {
    var nodes: set<Uuid>
    var edges: map<Uuid, set<Uuid>>

    ghost function View(): Graph
      reads this
    {
      Graph(nodes, edges)
    }

    constructor ()
      ensures View() == Graph({}, map[])
    {
      nodes, edges := {}, map[];
    }

    method AddEdge(from: Uuid, to: Uuid)
      modifies this
      ensures nodes == old(nodes) + {from, to}
      ensures forall u :: View().Peers(u) == old(View()).Peers(u) + if u == from then {to} else {}
    {
      nodes := nodes + {from, to};
      edges := edges[from := (if from in edges then edges[from] else {}) + {to}];
    }

    /** Removing an edge leaves no empty edge set behind. */
    method RemoveEdge(from: Uuid, to: Uuid)
      modifies this
      ensures nodes == old(nodes)
      ensures forall u :: View().Peers(u) == old(View()).Peers(u) - if u == from then {to} else {}
      ensures (forall u <- old(edges).Keys :: old(edges)[u] != {}) ==> forall u <- edges.Keys :: edges[u] != {}
    {
      if from !in edges || to !in edges[from] {
        return;
      }
      edges := edges[from := edges[from] - {to}];
      if edges[from] == {} {
        edges := edges - {from};
      }
    }

    /** Keeps exactly what the pivot reaches, with all outgoing edges, and returns the rest. Without the pivot
        nothing is kept. */
    method RemoveUnreachableNodes(pivot: Uuid) returns (removed: set<Uuid>)
      modifies this
      ensures pivot !in old(nodes) ==> removed == old(nodes) && View() == Graph({}, map[])
      ensures pivot in old(nodes) ==>
                && (forall v :: v in nodes <==> Reaches(old(View()), pivot, v))
                && (forall v :: v in removed <==> v in old(nodes) && !Reaches(old(View()), pivot, v))
                && (forall v :: View().Peers(v) == if Reaches(old(View()), pivot, v) then old(View()).Peers(v) else {})
    {
      hide Reaches, Searching, Targets;
      ghost var g := View();
      removed := nodes;
      var was := edges;
      nodes, edges := {}, map[];
      if pivot !in removed {
        return;
      }
      removed := removed - {pivot};
      nodes := {pivot};
      var toVisit := {pivot};
      ghost var done: set<Uuid> := {};
      SearchStart(g, pivot);
      while toVisit != {}
        invariant was == g.edges && removed == g.nodes - nodes
        invariant Searching(g, pivot, done, toVisit, View())
        decreases |Targets(g) + {pivot} - done|, |toVisit|
      {
        ghost var before, queued := done, toVisit;
        SearchBound(g, pivot, done, toVisit, View());
        toVisit, removed, done := VisitAll(toVisit, removed, was, g, pivot, done);
        SearchAdvances(Targets(g) + {pivot}, before, queued);
      }
      SearchEnd(g, pivot, done, View());
    }

    method Visit(id: Uuid, was: map<Uuid, set<Uuid>>, toVisit0: set<Uuid>, removed0: set<Uuid>, ghost g: Graph)
      returns (toVisit: set<Uuid>, removed: set<Uuid>)
      requires was == g.edges
      modifies this
      ensures View() == Keep(g, old(View()), id) && nodes == old(nodes) + {id} && removed == removed0 - {id}
      ensures toVisit == toVisit0 + (g.Peers(id) - nodes)
    {
      removed := removed0 - {id};
      nodes := nodes + {id};
      var peers := if id in was then was[id] else {};
      if peers != {} {
        edges := edges[id := peers];
      }
      toVisit := toVisit0 + (peers - nodes);
    }

    /** One round: visits everything queued and queues their peers that are not kept yet. A peer that is queued
        already may be queued again; a round of nothing but those queues nothing. */
    method VisitAll(queued: set<Uuid>, removed0: set<Uuid>, was: map<Uuid, set<Uuid>>, ghost g: Graph,
                    ghost pivot: Uuid, ghost done0: set<Uuid>)
      returns (toVisit: set<Uuid>, removed: set<Uuid>, ghost done: set<Uuid>)
      requires was == g.edges && removed0 == g.nodes - nodes && Searching(g, pivot, done0, queued, View())
      modifies this
      ensures removed == g.nodes - nodes && done == done0 + queued && Searching(g, pivot, done, toVisit, View())
      ensures queued <= done0 ==> toVisit == {}
    {
      hide Reaches, Searching, Targets, Keep;
      toVisit, removed, done := {}, removed0, done0;
      var rest := queued;
      assert {} + queued == queued;
      while rest != {}
        invariant rest <= queued && done == done0 + (queued - rest) && removed == g.nodes - nodes
        invariant Searching(g, pivot, done, toVisit + rest, View())
        invariant queued <= done0 ==> toVisit == {}
        decreases rest
      {
        var id :| id in rest;
        assert queued <= done0 ==> id in done && toVisit + rest <= done;
        SearchStep(g, pivot, done, toVisit, rest, View(), id);
        toVisit, removed := Visit(id, was, toVisit, removed, g);
        rest := rest - {id};
        done := done + {id};
      }
      assert toVisit + rest == toVisit;
    }
  }

  lemma SearchBound(g: Graph, pivot: Uuid, done: set<Uuid>, waiting: set<Uuid>, kept: Graph)
    requires Searching(g, pivot, done, waiting, kept)
    ensures waiting <= Targets(g) + {pivot}
  {
  }

  lemma SearchAdvances(universe: set<Uuid>, done: set<Uuid>, queued: set<Uuid>)
    requires queued <= universe
    ensures !(queued <= done) ==> |universe - (done + queued)| < |universe - done|
    ensures queued <= done ==> done + queued == done
  {
    if !(queued <= done) {
      SmallerSet(universe - (done + queued), universe - done);
    }
  }

  lemma SmallerSet(a: set<Uuid>, b: set<Uuid>)
    requires a < b
    ensures |a| < |b|
  {
    assert b == a + (b - a);
    assert |b| == |a| + |b - a|;
  }
}
