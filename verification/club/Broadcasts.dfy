/** Unreliable broadcasts after a fuse: the neighbour lists of its acknowledgements become the graph, the graph becomes
    the routing tables, and the tables carry a copy to everybody (src/club/hub.cpp, broadcast_routing_table.h). */
module Broadcasts {
  import opened MessageIds
  import opened Messages
  import opened Graphs
  import opened Logs
  import opened Hubs
  import opened HubOrder
  import opened Routing

  /** Along this path each hub named the next one as its neighbour when it acknowledged the fuse. */
  ghost predicate Acquainted(acks: map<Uuid, AckData>, path: seq<Uuid>) {
    && path != []
    && forall i :: 0 < i < |path| ==> Named(acks, path[i - 1], path[i])
  }

  ghost predicate Named(acks: map<Uuid, AckData>, u: Uuid, v: Uuid) {
    u in acks && v in acks[u].neighbors
  }

  lemma NamedIsPeer(acks: map<Uuid, AckData>, u: Uuid, v: Uuid)
    ensures Named(acks, u, v) <==> v in AcksToGraph(acks).Peers(u)
  {
  }

  lemma AcquaintedIsPath(acks: map<Uuid, AckData>, path: seq<Uuid>)
    ensures Acquainted(acks, path) <==> IsPath(AcksToGraph(acks), path)
  {
    hide AcksToGraph, Named;
    forall i | 0 < i < |path|
      ensures Named(acks, path[i - 1], path[i]) <==> path[i] in AcksToGraph(acks).Peers(path[i - 1])
    {
      NamedIsPeer(acks, path[i - 1], path[i]);
    }
  }

  lemma FuseRoutes(h: HubState, e: LogEntry)
    requires e.AckedByQuorum()
    ensures CommitFuse(h, e).routing == AcksToGraph(e.acks)
  {
    hide Callback, AcksToGraph, LatestConfig, Work, ForgetAll;
  }

  /** All members of the quorum installed the fuse that these acknowledgements completed, and recalculated. */
  ghost predicate AllInstalled(acks: map<Uuid, AckData>, before: map<Uuid, HubState>, entries: map<Uuid, LogEntry>,
                               tables: map<Uuid, map<Uuid, set<Uuid>>>) {
    && before.Keys == entries.Keys == tables.Keys == acks.Keys
    && forall u <- acks.Keys ::
         && entries[u].acks == acks && entries[u].quorum == acks.Keys && entries[u].QuorumClosed()
         && TableFor(CommitFuse(before[u], entries[u]).routing, u, tables[u])
  }

  lemma TablesAreFor(acks: map<Uuid, AckData>, before: map<Uuid, HubState>, entries: map<Uuid, LogEntry>,
                     tables: map<Uuid, map<Uuid, set<Uuid>>>, u: Uuid)
    requires AllInstalled(acks, before, entries, tables) && u in acks
    ensures AcksToGraph(acks).nodes == acks.Keys && TableFor(AcksToGraph(acks), u, tables[u])
  {
    hide TableFor, CommitFuse;
    FuseRoutes(before[u], entries[u]);
    CommittedFuseQuorum(entries[u]);
  }

  /** Copies travel along edges only. */
  lemma {:induction false} TravelsAlongEdges(g: Graph, s: Uuid, f: Uuid -> set<Uuid>, chain: seq<Uuid>) returns (n: nat)
    requires Forwarding(g, s, f) && Travels(s, f, chain)
    ensures IsPath(g, chain) && At(g, s, chain[|chain| - 1], n)
    decreases |chain|
  {
    hide Within;
    if |chain| == 1 {
      n := 0;
      SourceAt(g, s);
    } else {
      var init, m, p := chain[..|chain| - 1], chain[|chain| - 2], chain[|chain| - 1];
      n := TravelsAlongEdges(g, s, f, init);
      assert TargetsAt(g, s, m, n, f(m)) && p in g.Peers(m);
      forall i | 0 < i < |chain|
        ensures chain[i] in g.Peers(chain[i - 1])
      {
        if i < |init| {
          assert init[i] in g.Peers(init[i - 1]);
        }
      }
      StepRises(g, s, f, m, n, p);
      if !At(g, s, p, n) {
        n := n + 1;
      }
    }
  }

  lemma TablesWork(acks: map<Uuid, AckData>, before: map<Uuid, HubState>, entries: map<Uuid, LogEntry>,
                   tables: map<Uuid, map<Uuid, set<Uuid>>>, s: Uuid)
    requires AllInstalled(acks, before, entries, tables) && s in acks
    ensures Forwarding(AcksToGraph(acks), s, Router(tables, s))
  {
    hide TableFor, AcksToGraph, Forwarding, CommitFuse, Router;
    forall u <- acks.Keys
      ensures AcksToGraph(acks).nodes == acks.Keys && TableFor(AcksToGraph(acks), u, tables[u])
    {
      TablesAreFor(acks, before, entries, tables, u);
    }
    AcksGraphClosed(acks);
    TablesForward(AcksToGraph(acks), tables, s);
  }

  /** A copy of what s broadcast comes to v. */
  ghost predicate GetsCopy(tables: map<Uuid, map<Uuid, set<Uuid>>>, s: Uuid, v: Uuid) {
    exists chain :: Travels(s, Router(tables, s), chain) && chain[|chain| - 1] == v
  }

  /** Neighbour by neighbour, s is acquainted with v. */
  ghost predicate Knows(acks: map<Uuid, AckData>, s: Uuid, v: Uuid) {
    exists path :: Acquainted(acks, path) && path[0] == s && path[|path| - 1] == v
  }

  /** Then a broadcast from s gets to v if and only if v is reached from s along the acknowledged neighbour lists. */
  lemma BroadcastReachesIff(acks: map<Uuid, AckData>, before: map<Uuid, HubState>, entries: map<Uuid, LogEntry>,
                            tables: map<Uuid, map<Uuid, set<Uuid>>>, s: Uuid, v: Uuid)
    requires AllInstalled(acks, before, entries, tables) && s in acks
    ensures GetsCopy(tables, s, v) <==> Knows(acks, s, v)
  {
    hide AllInstalled, AcksToGraph, Forwarding, Router;
    var g, f := AcksToGraph(acks), Router(tables, s);
    TablesWork(acks, before, entries, tables, s);
    if Knows(acks, s, v) {
      var path :| Acquainted(acks, path) && path[0] == s && path[|path| - 1] == v;
      AcquaintedIsPath(acks, path);
      assert PathBetween(g, path, s, v);
      BroadcastCovers(g, s, f, v);
    }
    if GetsCopy(tables, s, v) {
      var chain :| Travels(s, f, chain) && chain[|chain| - 1] == v;
      var _ := TravelsAlongEdges(g, s, f, chain);
      AcquaintedIsPath(acks, chain);
    }
  }
}
