/** Which peers a hub forwards an unreliable broadcast to (src/club/broadcast_routing_table.h). */
module Routing {
  import opened MessageIds
  import opened Graphs
  import opened NatSets

  // ----- distances

  ghost function PeersOf(g: Graph, vs: set<Uuid>): set<Uuid> {
    set v <- vs, p <- g.Peers(v) :: p
  }

  /** What can be reached from s in at most n steps. */
  ghost function Within(g: Graph, s: Uuid, n: nat): set<Uuid> {
    if n == 0 then {s} else Within(g, s, n - 1) + PeersOf(g, Within(g, s, n - 1))
  }

  ghost function Closer(g: Graph, s: Uuid, n: nat): set<Uuid> {
    if n == 0 then {} else Within(g, s, n - 1)
  }

  /** v is exactly n steps away from s. */
  ghost predicate At(g: Graph, s: Uuid, v: Uuid, n: nat) {
    v in Within(g, s, n) && v !in Closer(g, s, n)
  }

  lemma {:induction false} WithinGrows(g: Graph, s: Uuid, m: nat, n: nat)
    requires m <= n
    ensures Within(g, s, m) <= Within(g, s, n)
    decreases n - m
  {
    if m < n {
      WithinGrows(g, s, m, n - 1);
    }
  }

  lemma AtUnique(g: Graph, s: Uuid, v: Uuid, m: nat, n: nat)
    requires At(g, s, v, m) && At(g, s, v, n)
    ensures m == n
  {
    hide Within;
    if m < n {
      WithinGrows(g, s, m, n - 1);
    } else if n < m {
      WithinGrows(g, s, n, m - 1);
    }
  }

  /** A peer of a node n steps away is at most n + 1 steps away. */
  lemma PeerWithin(g: Graph, s: Uuid, v: Uuid, n: nat, p: Uuid)
    requires v in Within(g, s, n) && p in g.Peers(v)
    ensures p in Within(g, s, n + 1)
  {
    assert p in PeersOf(g, Within(g, s, n));
  }

  /** A node n + 1 steps away is a peer of one n steps away. */
  lemma Behind(g: Graph, s: Uuid, v: Uuid, n: nat)
    requires At(g, s, v, n + 1)
    ensures exists x: Uuid :: At(g, s, x, n) && v in g.Peers(x)
  {
    assert v in PeersOf(g, Within(g, s, n));
    var x :| x in Within(g, s, n) && v in g.Peers(x);
    assert At(g, s, x, n);
  }

  // ----- what the targets mean

  /** Hub m, n steps from the source, forwards only away from the source, or to hubs as far as itself with a
      greater id; it forwards to a hub one step farther exactly when no hub as far as itself with a smaller id could,
      and to one as far as itself only then, and surely when nobody with a smaller id knows it. */
  ghost predicate TargetsAt(g: Graph, s: Uuid, m: Uuid, n: nat, ts: set<Uuid>) {
    && ts <= g.Peers(m)
    && (forall p <- ts :: p !in Closer(g, s, n) && (p in Within(g, s, n) ==> m < p))
    && (forall p <- g.Peers(m) :: p !in Within(g, s, n) ==> (p in ts <==> IsFirst(g, s, m, n, p)))
    && (forall p <- g.Peers(m) :: At(g, s, p, n) && m < p ==>
          (p in ts ==> IsFirst(g, s, m, n, p)) && (IsAlone(g, s, m, n, p) ==> p in ts))
  }

  /** Nobody with a smaller id among those as far from the source as m or closer has p as its peer. */
  ghost predicate IsAlone(g: Graph, s: Uuid, m: Uuid, n: nat, p: Uuid) {
    forall x <- Within(g, s, n) :: x < m ==> p !in g.Peers(x)
  }

  ghost predicate IsFirst(g: Graph, s: Uuid, m: Uuid, n: nat, p: Uuid) {
    forall x: Uuid :: At(g, s, x, n) && p in g.Peers(x) ==> m <= x
  }

  /** The table that is right for hub m. */
  ghost predicate TableFor(g: Graph, m: Uuid, table: map<Uuid, set<Uuid>>) {
    && table.Keys == g.nodes
    && forall s, n :: s in g.nodes && m in g.nodes && At(g, s, m, n) ==> TargetsAt(g, s, m, n, table[s])
  }

  // ----- computing them

  class BroadcastRoutingTable {
    const myId: Uuid
    var table: map<Uuid, set<Uuid>>

    constructor (myId: Uuid)
      ensures this.myId == myId && table == map[]
    {
      this.myId, table := myId, map[];
    }

    /** After this the table has, for every source in a graph that holds this hub, the right targets. */
    method Recalculate(g: Graph)
      modifies this
      ensures TableFor(g, myId, table)
    {
      hide At, TargetsAt;
      table := map[];
      var rest := g.nodes;
      while rest != {}
        invariant rest <= g.nodes && table.Keys == g.nodes - rest
        invariant forall s, n :: s in table && myId in g.nodes && At(g, s, myId, n) ==>
                  TargetsAt(g, s, myId, n, table[s])
        decreases rest
      {
        var source :| source in rest;
        var targets := TargetsFor(g, source);
        table := table[source := targets];
        rest := rest - {source};
      }
    }

    /** Visits one level in the order of ids, as far as this hub. `next` gets the peers of the visited nodes that
        were not visited when their turn came. */
    method ScanLevel(g: Graph, visited0: set<Uuid>, level: set<Uuid>)
      returns (visited: set<Uuid>, next: set<Uuid>, found: bool, ghost done: set<Uuid>)
      ensures found <==> myId in level
      ensures done == (set x <- level | myId in level ==> x < myId) && visited == visited0 + done
      ensures next !! visited0 && next <= PeersOf(g, done)
      ensures forall x <- done :: g.Peers(x) <= visited + next
    {
      visited, next, done := visited0, {}, {};
      var rest := level;
      while rest != {}
        invariant rest + done == level && rest !! done && visited == visited0 + done && next !! visited0
        invariant forall x <- done, y <- rest :: x < y
        invariant myId !in done
        invariant forall x <- done :: g.Peers(x) <= visited + next
        invariant next <= PeersOf(g, done)
        decreases rest
      {
        var id := Least(rest);
        if id == myId {
          found := true;
          return;
        }
        visited := visited + {id};
        var peers := if id in g.edges then g.edges[id] else {};
        next := next + (peers - visited);
        rest := rest - {id};
        done := done + {id};
      }
      found := false;
    }

    /** Breadth-first search from the source until this hub is found. */
    method TargetsFor(g: Graph, source: Uuid) returns (targets: set<Uuid>)
      ensures source in g.nodes && myId in g.nodes ==> forall n :: At(g, source, myId, n) ==>
              TargetsAt(g, source, myId, n, targets)
    {
      hide Within, At, TargetsAt, PeersOf, Closer;
      targets := {};
      if source !in g.nodes || myId !in g.nodes {
        return;
      }
      var visited: set<Uuid> := {};
      var toVisit := {source};
      ghost var n := 0;
      var found := false;
      SearchBegins(g, source);
      while toVisit != {}
        invariant LevelFrom(g, source, n, visited, toVisit) && myId !in visited
        decreases |Targets(g) + {source} - visited|, |toVisit|
      {
        var seen, next;
        ghost var done;
        seen, next, found, done := ScanLevel(g, visited, toVisit);
        if found {
          targets := (if myId in g.edges then g.edges[myId] else {}) - (seen + {myId} + next);
          FoundTargets(g, source, myId, n, visited, toVisit, done, next, targets);
          return;
        }
        assert done == toVisit;
        NextLevel(g, source, n, visited, toVisit, next);
        visited, toVisit, n := seen, next, n + 1;
      }
      targets := (if myId in g.edges then g.edges[myId] else {}) - visited;
      NotFound(g, source, myId, n, visited);
    }
  }

  /** Level n of the search: everything closer is visited; waiting is everything n steps away, and perhaps again
      some that is visited. */
  ghost predicate LevelFrom(g: Graph, s: Uuid, n: nat, visited: set<Uuid>, waiting: set<Uuid>) {
    visited == Closer(g, s, n) && visited + waiting == Within(g, s, n)
  }

  lemma SearchBegins(g: Graph, s: Uuid)
    ensures LevelFrom(g, s, 0, {}, {s})
  {
  }

  lemma {:induction false} WithinBound(g: Graph, s: Uuid, n: nat)
    ensures Within(g, s, n) <= Targets(g) + {s}
  {
    if n > 0 {
      WithinBound(g, s, n - 1);
    }
  }

  lemma NextLevel(g: Graph, s: Uuid, n: nat, visited: set<Uuid>, waiting: set<Uuid>, next: set<Uuid>)
    requires LevelFrom(g, s, n, visited, waiting)
    requires next !! visited && next <= PeersOf(g, waiting) && forall x <- waiting ::
             g.Peers(x) <= visited + waiting + next
    ensures LevelFrom(g, s, n + 1, visited + waiting, next)
    ensures waiting <= visited ==> next == {}
    ensures !(waiting <= visited) ==> |Targets(g) + {s} - (visited + waiting)| < |Targets(g) + {s} - visited|
    ensures waiting <= visited ==> visited + waiting == visited
  {
    hide Within, PeersOf, Targets;
    WithinBound(g, s, n);
    SearchAdvances(Targets(g) + {s}, visited, waiting);
    NextWithin(g, s, n, visited, waiting, next);
    SourceWithin(g, s, n);
    if waiting <= visited {
      assert visited + waiting == visited;
      if n > 0 {
        OldPeers(g, s, n, waiting);
      }
      assert next <= visited;
    }
  }

  lemma SourceWithin(g: Graph, s: Uuid, n: nat)
    ensures s in Within(g, s, n)
  {
    WithinGrows(g, s, 0, n);
  }

  lemma OldPeers(g: Graph, s: Uuid, n: nat, vs: set<Uuid>)
    requires n > 0 && vs <= Within(g, s, n - 1)
    ensures PeersOf(g, vs) <= Within(g, s, n)
  {
    assert PeersOf(g, vs) <= PeersOf(g, Within(g, s, n - 1));
  }

  lemma NextWithin(g: Graph, s: Uuid, n: nat, visited: set<Uuid>, waiting: set<Uuid>, next: set<Uuid>)
    requires LevelFrom(g, s, n, visited, waiting)
    requires next <= PeersOf(g, waiting) && forall x <- waiting :: g.Peers(x) <= visited + waiting + next
    ensures Within(g, s, n + 1) == visited + waiting + next
  {
    hide Targets;
    var within := visited + waiting;
    assert Within(g, s, n + 1) == within + PeersOf(g, within);
    if n > 0 {
      OldPeers(g, s, n, visited);
    }
    forall p <- PeersOf(g, within)
      ensures p in within + next
    {
      var x :| x in within && p in g.Peers(x);
      assert x in visited ==> p in PeersOf(g, visited);
    }
  }

  lemma FoundTargets(g: Graph, s: Uuid, m: Uuid, n: nat, visited: set<Uuid>, waiting: set<Uuid>, done: set<Uuid>,
                     next: set<Uuid>, ts: set<Uuid>)
    requires LevelFrom(g, s, n, visited, waiting) && m in waiting && m !in visited
    requires done == (set x <- waiting | x < m)
    requires next <= PeersOf(g, done) && forall x <- done :: g.Peers(x) <= visited + done + next
    requires ts == g.Peers(m) - (visited + done + {m} + next)
    ensures forall k :: At(g, s, m, k) ==> TargetsAt(g, s, m, k, ts)
  {
    hide Within, PeersOf;
    assert At(g, s, m, n);
    forall k | At(g, s, m, k)
      ensures TargetsAt(g, s, m, k, ts)
    {
      AtUnique(g, s, m, k, n);
      forall p <- g.Peers(m) | p !in Within(g, s, n)
        ensures p in ts <==> IsFirst(g, s, m, n, p)
      {
        FirstMeansUnclaimed(g, s, m, n, visited, waiting, done, next, p);
      }
      forall p <- g.Peers(m) | At(g, s, p, n) && m < p
        ensures (p in ts ==> IsFirst(g, s, m, n, p)) && (IsAlone(g, s, m, n, p) ==> p in ts)
      {
        AsFar(g, s, m, n, visited, waiting, done, next, p);
      }
    }
  }

  lemma AsFar(g: Graph, s: Uuid, m: Uuid, n: nat, visited: set<Uuid>, waiting: set<Uuid>, done: set<Uuid>,
              next: set<Uuid>, p: Uuid)
    requires LevelFrom(g, s, n, visited, waiting) && At(g, s, p, n) && m < p
    requires done == (set x <- waiting | x < m)
    requires next <= PeersOf(g, done) && forall x <- done :: g.Peers(x) <= visited + done + next
    ensures p !in visited + done + {m}
    ensures (p !in next ==> IsFirst(g, s, m, n, p)) && (IsAlone(g, s, m, n, p) ==> p !in next)
  {
    hide Within;
    if !IsFirst(g, s, m, n, p) {
      var x: Uuid :| At(g, s, x, n) && p in g.Peers(x) && x < m;
      assert x in waiting && x in done;
    }
  }

  lemma FirstMeansUnclaimed(g: Graph, s: Uuid, m: Uuid, n: nat, visited: set<Uuid>, waiting: set<Uuid>,
                            done: set<Uuid>, next: set<Uuid>, p: Uuid)
    requires LevelFrom(g, s, n, visited, waiting) && m in waiting && m !in visited
    requires p in g.Peers(m) && p !in Within(g, s, n)
    requires done == (set x <- waiting | x < m)
    requires next <= PeersOf(g, done) && forall x <- done :: g.Peers(x) <= visited + done + next
    ensures p in next <==> !IsFirst(g, s, m, n, p)
  {
    if p in next {
      ClaimedIsNotFirst(g, s, m, n, visited, waiting, done, p);
    }
    if !IsFirst(g, s, m, n, p) {
      var x: Uuid :| At(g, s, x, n) && p in g.Peers(x) && x < m;
      assert x in waiting && x in done;
    }
  }

  lemma ClaimedIsNotFirst(g: Graph, s: Uuid, m: Uuid, n: nat, visited: set<Uuid>, waiting: set<Uuid>, done: set<Uuid>,
                          p: Uuid)
    requires LevelFrom(g, s, n, visited, waiting) && p !in Within(g, s, n)
    requires done == (set x <- waiting | x < m) && p in PeersOf(g, done)
    ensures !IsFirst(g, s, m, n, p)
  {
    hide Within;
    var x :| x in done && p in g.Peers(x);
    if x in visited {
      PeerWithin(g, s, x, n - 1, p);
    }
    assert At(g, s, x, n);
  }

  lemma NotFound(g: Graph, s: Uuid, m: Uuid, n: nat, visited: set<Uuid>)
    requires LevelFrom(g, s, n, visited, {}) && m !in visited
    ensures forall k :: !At(g, s, m, k)
  {
    forall k
      ensures !At(g, s, m, k)
    {
      NothingFarther(g, s, n, k);
    }
  }

  lemma {:induction false} NothingFarther(g: Graph, s: Uuid, n: nat, k: nat)
    requires n > 0 && Within(g, s, n) == Within(g, s, n - 1)
    ensures Within(g, s, k) <= Within(g, s, n)
    decreases k
  {
    if k <= n {
      WithinGrows(g, s, k, n);
    } else {
      NothingFarther(g, s, n, k - 1);
      assert PeersOf(g, Within(g, s, k - 1)) <= PeersOf(g, Within(g, s, n - 1));
    }
  }

  // ----- a broadcast, when every hub has the same graph

  lemma {:induction false} WithinNodes(g: Graph, s: Uuid, n: nat)
    requires Closed(g) && s in g.nodes
    ensures Within(g, s, n) <= g.nodes
  {
    if n > 0 {
      WithinNodes(g, s, n - 1);
    }
  }

  /** Where hub m forwards what came from s, if these are the hubs' tables: `get_targets`. */
  function Forwards(tables: map<Uuid, map<Uuid, set<Uuid>>>, m: Uuid, s: Uuid): set<Uuid> {
    if m in tables && s in tables[m] then tables[m][s] else {}
  }

  /** The same for all hubs. */
  function Router(tables: map<Uuid, map<Uuid, set<Uuid>>>, s: Uuid): Uuid -> set<Uuid> {
    (m: Uuid) => Forwards(tables, m, s)
  }

  /** Hubs whose tables were all recalculated from one closed graph forward as the lemmas below assume. */
  lemma TablesForward(g: Graph, tables: map<Uuid, map<Uuid, set<Uuid>>>, s: Uuid)
    requires Closed(g) && s in g.nodes && g.nodes <= tables.Keys
    requires forall m <- g.nodes :: TableFor(g, m, tables[m])
    ensures Forwarding(g, s, Router(tables, s))
  {
    hide Within, TargetsAt;
    forall m: Uuid, n: nat | At(g, s, m, n)
      ensures TargetsAt(g, s, m, n, Forwards(tables, m, s))
    {
      WithinNodes(g, s, n);
      assert TableFor(g, m, tables[m]);
    }
  }

  /** Every hub forwards to what its table says for this source. */
  ghost predicate Forwarding(g: Graph, s: Uuid, f: Uuid -> set<Uuid>) {
    forall m: Uuid, n: nat :: At(g, s, m, n) ==> TargetsAt(g, s, m, n, f(m))
  }

  /** A copy travels from hub to hub along this chain. */
  ghost predicate Travels(s: Uuid, f: Uuid -> set<Uuid>, chain: seq<Uuid>) {
    chain != [] && chain[0] == s && forall i :: 0 < i < |chain| ==> chain[i] in f(chain[i - 1])
  }

  lemma FirstForwards(g: Graph, s: Uuid, f: Uuid -> set<Uuid>, x: Uuid, v: Uuid, n: nat)
    requires Forwarding(g, s, f) && At(g, s, v, n + 1) && At(g, s, x, n)
    ensures v in f(x) <==> v in g.Peers(x) && IsFirst(g, s, x, n, v)
  {
    hide Within, IsFirst;
    assert TargetsAt(g, s, x, n, f(x));
  }

  lemma FirstExists(g: Graph, s: Uuid, v: Uuid, n: nat)
    requires At(g, s, v, n + 1)
    ensures exists x: Uuid :: At(g, s, x, n) && v in g.Peers(x) && IsFirst(g, s, x, n, v)
  {
    hide Within, PeersOf;
    Behind(g, s, v, n);
    var candidates := set x <- Within(g, s, n) | At(g, s, x, n) && v in g.Peers(x);
    var some: Uuid :| At(g, s, some, n) && v in g.Peers(some);
    assert some in candidates;
    var x := Least(candidates);
    forall y: Uuid | At(g, s, y, n) && v in g.Peers(y)
      ensures x <= y
    {
      assert y in candidates;
    }
  }

  /** Each hub farther than the source is forwarded the broadcast by exactly one hub of the level before it. */
  lemma OneForwarder(g: Graph, s: Uuid, f: Uuid -> set<Uuid>, v: Uuid, n: nat)
    requires Forwarding(g, s, f) && At(g, s, v, n + 1)
    ensures exists x: Uuid :: At(g, s, x, n) && v in f(x)
    ensures forall x: Uuid, y: Uuid :: At(g, s, x, n) && v in f(x) && At(g, s, y, n) && v in f(y) ==> x == y
  {
    hide Within, Forwarding, At;
    FirstExists(g, s, v, n);
    var x: Uuid :| At(g, s, x, n) && v in g.Peers(x) && IsFirst(g, s, x, n, v);
    FirstForwards(g, s, f, x, v, n);
    forall a: Uuid, b: Uuid | At(g, s, a, n) && v in f(a) && At(g, s, b, n) && v in f(b)
      ensures a == b
    {
      FirstForwards(g, s, f, a, v, n);
      FirstForwards(g, s, f, b, v, n);
      assert a <= b && b <= a;
    }
  }

  /** Every hub that the source reaches gets a copy. */
  lemma {:induction false} EveryoneIsReached(g: Graph, s: Uuid, f: Uuid -> set<Uuid>, v: Uuid, n: nat)
    requires Forwarding(g, s, f) && At(g, s, v, n)
    ensures exists chain :: Travels(s, f, chain) && chain[|chain| - 1] == v && |chain| == n + 1
    decreases n
  {
    hide Forwarding, At;
    if n == 0 {
      assert v == s by { AtZero(g, s, v); }
      assert Travels(s, f, [v]);
    } else {
      OneForwarder(g, s, f, v, n - 1);
      var x: Uuid :| At(g, s, x, n - 1) && v in f(x);
      EveryoneIsReached(g, s, f, x, n - 1);
      var chain :| Travels(s, f, chain) && chain[|chain| - 1] == x && |chain| == n;
      assert Travels(s, f, chain + [v]) && (chain + [v])[n] == v;
    }
  }

  lemma AtZero(g: Graph, s: Uuid, v: Uuid)
    requires At(g, s, v, 0)
    ensures v == s
  {
  }

  lemma {:induction false} ReachesIsWithin(g: Graph, path: seq<Uuid>)
    requires IsPath(g, path)
    ensures path[|path| - 1] in Within(g, path[0], |path| - 1)
    decreases |path|
  {
    var n := |path| - 1;
    if n > 0 {
      assert IsPath(g, path[..n]);
      ReachesIsWithin(g, path[..n]);
      assert path[n] in g.Peers(path[n - 1]);
      PeerWithin(g, path[0], path[n - 1], n - 1, path[n]);
    }
  }

  lemma {:induction false} SomeDistance(g: Graph, s: Uuid, v: Uuid, n: nat)
    requires v in Within(g, s, n)
    ensures exists k: nat :: k <= n && At(g, s, v, k)
  {
    if v !in Closer(g, s, n) {
      assert At(g, s, v, n);
    } else {
      SomeDistance(g, s, v, n - 1);
    }
  }

  /** Coverage, in terms of paths. */
  lemma BroadcastCovers(g: Graph, s: Uuid, f: Uuid -> set<Uuid>, v: Uuid)
    requires Forwarding(g, s, f) && Reaches(g, s, v)
    ensures exists chain :: Travels(s, f, chain) && chain[|chain| - 1] == v
  {
    hide Within, Forwarding;
    var path :| PathBetween(g, path, s, v);
    ReachesIsWithin(g, path);
    SomeDistance(g, s, v, |path| - 1);
    var n: nat :| At(g, s, v, n);
    EveryoneIsReached(g, s, f, v, n);
  }

  /** Along a chain the pair of distance and id increases at every step. */
  lemma StepRises(g: Graph, s: Uuid, f: Uuid -> set<Uuid>, m: Uuid, n: nat, p: Uuid)
    requires Forwarding(g, s, f) && At(g, s, m, n) && p in f(m)
    ensures (At(g, s, p, n) && m < p) || At(g, s, p, n + 1)
  {
    hide Within, PeersOf;
    assert TargetsAt(g, s, m, n, f(m));
    PeerWithin(g, s, m, n, p);
  }

  lemma {:induction false} ChainRises(g: Graph, s: Uuid, f: Uuid -> set<Uuid>, chain: seq<Uuid>, i: nat, j: nat)
    requires Forwarding(g, s, f) && Travels(s, f, chain) && i <= j < |chain|
    ensures exists a: nat, b: nat ::
              At(g, s, chain[i], a) && At(g, s, chain[j], b) && (a < b || (a == b && (i == j || chain[i] < chain[j])))
    decreases j
  {
    hide Within, Forwarding;
    if j == 0 {
      SourceAt(g, s);
    } else if i == j {
      ChainRises(g, s, f, chain, j - 1, j - 1);
      var a: nat :| At(g, s, chain[j - 1], a);
      StepRises(g, s, f, chain[j - 1], a, chain[j]);
    } else {
      ChainRises(g, s, f, chain, i, j - 1);
      var a: nat, b: nat :| At(g, s, chain[i], a) && At(g, s, chain[j - 1], b) &&
                            (a < b || (a == b && (i == j - 1 || chain[i] < chain[j - 1])));
      StepRises(g, s, f, chain[j - 1], b, chain[j]);
    }
  }

  lemma SourceAt(g: Graph, s: Uuid)
    ensures At(g, s, s, 0)
  {
  }

  /** No broadcast loops: a copy never comes to the same hub twice. */
  lemma NoLoops(g: Graph, s: Uuid, f: Uuid -> set<Uuid>, chain: seq<Uuid>, i: nat, j: nat)
    requires Forwarding(g, s, f) && Travels(s, f, chain) && i < j < |chain|
    ensures chain[i] != chain[j]
  {
    hide Within, Forwarding;
    ChainRises(g, s, f, chain, i, j);
    var a: nat, b: nat :| At(g, s, chain[i], a) && At(g, s, chain[j], b) &&
                          (a < b || (a == b && (i == j || chain[i] < chain[j])));
    if chain[i] == chain[j] {
      AtUnique(g, s, chain[i], a, b);
    }
  }
}
