/** The hub as an object with mutable state (src/club/hub.cpp): every method has the effect that the functions of
    Hubs describe on the state it starts from. */
module HubObjects {
  import opened Basics
  import opened MessageIds
  import opened Messages
  import opened Graphs
  import opened Logs
  import opened Seen
  import opened Hubs
  import opened HubOrder
  import opened Routing

  class Hub {
    const id: Uuid
    const log: Log
    const seen: SeenMessages
    const routing: BroadcastRoutingTable
    var clock: nat
    var configs: map<MessageId, set<Uuid>>
    var nodes: map<Uuid, bool>
    var graph: Graph
    var outbox: map<Uuid, seq<Message>>
    var script: seq<seq<Bytes>>
    ghost var wrapped: bool
    ghost var posted: seq<Message>
    ghost var basis: seq<set<MessageId>>
    ghost var received: seq<Message>
    ghost var consumed: seq<MessageId>
    ghost var entered: set<MessageId>
    ghost var late: seq<MessageId>
    ghost var events: seq<Event>

    /** The routing table is the one of the hub's graph, whose edges lead to nodes. */
    ghost predicate Valid()
      reads this, log, routing
    {
      PendingKeyed(log.pendingAcks) && routing.myId == id && TableFor(graph, id, routing.table) && Closed(graph)
    }

    ghost function Repr(): set<object> {
      {this, log, seen, routing}
    }

    ghost function View(): HubState
      reads this, log, seen
    {
      HubState(id, clock, wrapped, log.View(), seen.messages, configs, nodes, graph, script, posted, basis, received,
               outbox, consumed, entered, late, events)
    }

    constructor (id: Uuid)
      ensures View() == NewHub(id) && fresh(Repr()) && Valid()
    {
      this.id, clock, configs, nodes := id, 0, map[MessageId(0, id) := {id}], map[id := false];
      log := new Log();
      seen := new SeenMessages();
      routing := new BroadcastRoutingTable(id);
      graph, outbox, script := Graph({id}, map[]), map[], [];
      wrapped, posted, basis, received, consumed, entered, late, events := false, [], [], [], [], {}, [], [];
      new;
      routing.Recalculate(graph);
    }

    method LatestId() returns (c: MessageId)
      ensures c == LatestConfigId(View())
    {
      c := if configs == map[] then NO_MESSAGE else MaxOf(configs.Keys);
    }

    method Latest() returns (c: set<Uuid>)
      ensures c == LatestConfig(View())
    {
      var k := LatestId();
      c := if k in configs then configs[k] else {};
    }

    method ConnectedPeers() returns (peers: set<Uuid>)
      ensures peers == Connected(View()) + {id}
    {
      peers := {id};
      var rest := nodes.Keys;
      while rest != {}
        invariant rest <= nodes.Keys
        invariant peers == {id} + set v <- nodes.Keys - rest | nodes[v] && v != id
        decreases rest
      {
        var v :| v in rest;
        if v != id && nodes[v] {
          peers := peers + {v};
        }
        rest := rest - {v};
      }
      assert peers == Connected(View()) + {id};
    }

    method AdvanceClock()
      modifies this
      ensures View() == Tick(old(View()))
    {
      wrapped := wrapped || clock + 1 >= TIMESTAMP_LIMIT;
      clock := (clock + 1) % TIMESTAMP_LIMIT;
    }

    /** Hands the message to every connected peer it has not visited. */
    method Flood(m: Message)
      modifies this`outbox
      ensures View() == Broadcast(old(View()), m)
    {
      hide Enqueue;
      ghost var targets := Connected(View()) - m.visited;
      var rest := nodes.Keys;
      ghost var done: set<Uuid> := {};
      EnqueueNothing(outbox, m);
      assert targets * {} == {};
      while rest != {}
        invariant rest + done == nodes.Keys && rest !! done
        invariant outbox == Enqueue(old(outbox), targets * done, m)
        decreases rest
      {
        var v :| v in rest;
        if v != id && nodes[v] && v !in m.visited {
          EnqueueOne(old(outbox), targets * done, v, m);
          var before := if v in outbox then outbox[v] else [];
          outbox := outbox[v := before + [m]];
          assert targets * (done + {v}) == targets * done + {v};
        } else {
          assert targets * (done + {v}) == targets * done;
        }
        rest, done := rest - {v}, done + {v};
      }
      assert targets * done == targets;
    }

    /** Rejects late messages other than fuses. */
    method AddEntry(m: Message)
      requires Valid()
      modifies Repr()
      ensures Valid() && View() == AddLogEntry(old(View()), m)
    {
      hide InsertEntry;
      if m.Id().Le(log.lastCommitted) {
        if !m.body.Fuse? {
          late := late + [m.Id()];
        }
        return;
      }
      log.Add(m);
      entered := entered + {m.Id()};
    }

    /** `construct_ackable`, `broadcast` and `add_log_entry`, as `total_order_broadcast` and `fuse` run them. */
    method Announce(r: Request)
      requires Valid()
      modifies Repr()
      ensures Valid() && View() == PostAckable(old(View()), r)
    {
      hide InsertEntry, AddLogEntry, Broadcast, PredecessorTime;
      AdvanceClock();
      var mid := MessageId(clock, id);
      var pred := log.GetPredecessorTime(mid);
      var peers := ConnectedPeers();
      var config := LatestId();
      var ack := AckData(mid, pred, peers);
      var m := Message(id, clock, config, {id}, match r case Say(d) => UserData(ack, d) case Join(w) => Fuse(ack, w));
      posted, basis := posted + [m], basis + [log.entries.Keys];
      Flood(m);
      AddEntry(m);
    }

    /** `construct_ack`: the hub also applies its own acknowledgement. */
    method Acknowledge(acked: MessageId)
      requires Valid()
      modifies Repr()
      ensures Valid() && View() == PostAck(old(View()), acked)
    {
      hide ApplyAck, Broadcast, PredecessorTime, LatestConfigId, Connected;
      var pred := log.GetPredecessorTime(acked);
      var peers := ConnectedPeers();
      var config := LatestId();
      AdvanceClock();
      var m := Message(id, clock, config, {id}, Ack(AckData(acked, pred, peers)));
      posted, basis := posted + [m], basis + [log.entries.Keys];
      Flood(m);
      log.AddAck(id, m.body.ack);
    }

    /** Runs a user callback, which may broadcast. */
    method Notify(e: Event)
      requires Valid()
      modifies Repr()
      ensures Valid() && View() == Callback(old(View()), e)
    {
      hide PostAckable;
      events := events + [e];
      if |script| == 0 {
        return;
      }
      var payloads := script[0];
      script := script[1..];
      ghost var start := View();
      var i := 0;
      assert payloads[0..] == payloads;
      while i < |payloads|
        invariant i <= |payloads| && Valid()
        invariant PostAll(View(), payloads[i..]) == PostAll(start, payloads)
      {
        assert payloads[i..][0] == payloads[i] && payloads[i..][1..] == payloads[i + 1..];
        Announce(Say(payloads[i]));
        i := i + 1;
      }
      assert payloads[i..] == [];
    }

    /** Installs a configuration that its quorum acknowledged, and reports what changed. */
    method InstallFuse(e: LogEntry)
      requires Valid()
      modifies Repr()
      ensures Valid() && View() == CommitFuse(old(View()), e)
    {
      hide Installed, LatestConfig, Report, Work;
      if !(e.quorum <= e.acks.Keys) {
        return;
      }
      var added, removed := Install(e);
      NotifyIfAny(Inserted(added));
      NotifyIfAny(Removed(removed));
    }

    /** The new graph, routing table and configuration, without the nodes that left. */
    method Install(e: LogEntry) returns (added: set<Uuid>, removed: set<Uuid>)
      requires Valid()
      modifies Repr()
      ensures Valid() && View() == Installed(old(View()), e)
      ensures added == e.quorum - LatestConfig(old(View())) && removed == LatestConfig(old(View())) - e.quorum
    {
      hide AcksToGraph, LatestConfig;
      graph := AcksToGraph(e.acks);
      AcksGraphClosed(e.acks);
      routing.Recalculate(graph);
      var previous := Latest();
      SameLatest(old(View()), View());
      added, removed := e.quorum - previous, previous - e.quorum;
      if e.message.Id() !in configs {
        configs := configs[e.message.Id() := e.quorum];
      }
      ForgetNodes(removed);
    }

    method NotifyIfAny(e: Event)
      requires Valid() && (e.Inserted? || e.Removed?)
      modifies Repr()
      ensures Valid() && View() == Report(old(View()), e)
    {
      hide Callback;
      if e.ids != {} {
        Notify(e);
      }
    }

    method ForgetNodes(lost: set<Uuid>)
      requires Valid()
      modifies this`nodes, seen
      ensures Valid() && nodes == old(nodes) - lost && seen.messages == ForgetAll(old(seen.messages), lost)
    {
      var rest := lost;
      ghost var done: set<Uuid> := {};
      assert nodes - {} == nodes && seen.messages - {} == seen.messages;
      while rest != {}
        invariant rest + done == lost && rest !! done
        invariant nodes == old(nodes) - done && seen.messages == old(seen.messages) - done
        decreases rest
      {
        var v :| v in rest;
        seen.ForgetUser(v);
        nodes := nodes - {v};
        rest, done := rest - {v}, done + {v};
        assert nodes == old(nodes) - done && seen.messages == old(seen.messages) - done;
      }
      assert done == lost;
    }

    /** Takes a committed entry out of the log, then runs what it stands for. */
    method CommitOne(k: MessageId)
      requires Valid() && k in log.entries && !log.entries[k].message.body.Ack?
      modifies Repr()
      ensures Valid() && View() == CommitEntry(old(View()), k)
    {
      hide Callback, CommitFuse, SeenEverythingUpTo, Work;
      var e := log.entries[k];
      log.Erase(k);
      consumed := consumed + [k];
      seen.Compact(k);
      if e.message.body.Fuse? {
        log.lastFuseCommit := k;
      }
      assert View() == Departed(old(View()), k);
      if e.message.body.Fuse? {
        InstallFuse(e);
      } else if e.message.op in nodes {
        Notify(Delivered(e.message.Id(), e.message.body.data));
      }
    }

    /** The scan for the predecessor that decides whether the front entry has to wait. */
    method IsBlocked(e: LogEntry) returns (b: bool)
      ensures b == Blocked(View(), e)
    {
      var rest := e.predecessors;
      while rest != {}
        invariant rest <= e.predecessors
        invariant GuardingPredecessor(View(), e) ==
                  if rest == {} then None
                  else if e.message.configId in configs then Some(MaxOf(rest))
                  else if log.lastCommitted in rest then Some(log.lastCommitted)
                  else None
        decreases rest
      {
        var i := MaxOf(rest);
        if i == log.lastCommitted || e.message.configId in configs {
          return i != log.lastCommitted && log.lastFuseCommit.Lt(i);
        }
        rest := rest - {i};
      }
      return false;
    }

    /** The last fuse that its quorum acknowledged, searched from the end of the log. */
    method FindCommittableFuse() returns (r: Option<MessageId>)
      ensures r == LastCommittableFuse(log.View())
    {
      var rest := log.entries.Keys;
      while rest != {}
        invariant rest <= log.entries.Keys && forall k <- CommittableFuses(log.View()) :: k in rest
        decreases rest
      {
        var k := MaxOf(rest);
        if log.entries[k].message.body.Fuse? && log.entries[k].quorum <= log.entries[k].acks.Keys {
          assert IsMax(CommittableFuses(log.View()), k);
          return Some(k);
        }
        rest := rest - {k};
      }
      return None;
    }

    method JudgeEntry(k: MessageId, lastFuse: Option<MessageId>, live: set<Uuid>) returns (v: Verdict)
      requires k in log.entries
      ensures v == Judge(View(), k, lastFuse, live)
    {
      hide Blocked;
      var e := log.entries[k];
      var acked := forall q <- e.quorum :: q in e.acks || q !in live;
      if e.message.body.Fuse? {
        if lastFuse.None? {
          return Stop;
        }
        if k.Lt(lastFuse.value) {
          if !acked {
            return Discard;
          }
        } else if k != lastFuse.value {
          return Stop;
        }
      } else if !acked {
        return Stop;
      }
      var blocked := IsBlocked(e);
      v := if blocked then Stop else Commit;
    }

    /** The commit loop. The iterator's successor is taken before an entry is erased. */
    method CommitAll()
      requires Valid()
      modifies Repr()
      ensures Valid() && View() == CommitWhatWasSeenByEveryone(old(View()))
    {
      hide Judge, CommitEntry, Work, LastCommittableFuse;
      var lastFuse := FindCommittableFuse();
      var live;
      if lastFuse.Some? {
        FuseIsEntry(log.View());
        live := log.entries[lastFuse.value].quorum;
      } else {
        live := Latest();
      }
      var cursor := First(log.entries.Keys);
      ghost var goal := Loop(View(), cursor, lastFuse, live);
      while cursor.Some? && cursor.value in log.entries && !log.entries[cursor.value].message.body.Ack?
        invariant Valid() && Loop(View(), cursor, lastFuse, live) == goal
        decreases Work(View())
      {
        var k := cursor.value;
        var next := Next(log.entries.Keys, k);
        var verdict := JudgeEntry(k, lastFuse, live);
        LoopStep(View(), k, lastFuse, live);
        if verdict.Stop? {
          return;
        }
        if verdict.Discard? {
          log.Erase(k);
          consumed := consumed + [k];
        } else {
          CommitOne(k);
          if lastFuse == Some(k) {
            lastFuse := None;
          }
        }
        cursor := next;
      }
    }

    // ----- receiving

    method ProcessMessage(m: Message)
      requires Valid()
      modifies Repr()
      ensures Valid() && View() == Process(old(View()), m)
    {
      hide ApplyAck, AddLogEntry, PostAck, CommitWhatWasSeenByEveryone;
      match m.body {
        case Ack(ack) =>
          log.AddAck(m.op, ack);
        case Fuse(_, _) =>
          AddEntry(m);
          var highest := log.FindHighestFuse();
          if highest.None? || highest.value.Le(m.Id()) {
            Acknowledge(m.Id());
            CommitAll();
          }
        case UserData(_, _) =>
          Acknowledge(m.Id());
          AddEntry(m);
      }
    }

    /** A message from a peer's socket. */
    method Receive(m: Message)
      requires Valid()
      modifies Repr()
      ensures Valid() && View() == OnRecv(old(View()), m)
    {
      hide Process, CommitWhatWasSeenByEveryone, Insert, IsIn, Broadcast;
      var duplicate := seen.Has(m.Id());
      if duplicate {
        return;
      }
      seen.Add(m.Id());
      clock := if clock < m.ts then m.ts else clock;
      if m.op !in nodes {
        nodes := nodes[m.op := false];
      }
      if m.op == id {
        return;
      }
      received := received + [m];
      Flood(m.(visited := m.visited + {id}));
      ProcessMessage(m);
      CommitAll();
    }

    // ----- peers coming and going

    /** `fuse`, after the ids have been exchanged: a peer that claims this hub's own id is refused. */
    method FuseWith(peer: Uuid)
      requires Valid()
      modifies Repr()
      ensures Valid() && View() == Do(old(View()), Meet(peer), old(script))
    {
      hide PostAckable, Callback, CommitWhatWasSeenByEveryone;
      if peer == id {
        return;
      }
      nodes := nodes[peer := true];
      Announce(Join(peer));
      Notify(Fused(peer));
      CommitAll();
    }

    /** The socket of a peer failed: the others are asked to agree on a configuration without it. */
    method LosePeer(peer: Uuid)
      requires Valid()
      modifies Repr()
      ensures Valid() && View() == Do(old(View()), Lose(peer), old(script))
    {
      hide PostAckable, CommitWhatWasSeenByEveryone;
      if peer in nodes {
        nodes := nodes[peer := false];
      }
      Announce(Join(peer));
      CommitAll();
    }
  }

  lemma SameLatest(h: HubState, h': HubState)
    requires h'.configs == h.configs
    ensures LatestConfig(h') == LatestConfig(h)
  {
  }

  lemma FuseIsEntry(l: LogState)
    ensures LastCommittableFuse(l).Some? ==> LastCommittableFuse(l).value in l.entries
  {
  }

  lemma LoopStep(h: HubState, k: MessageId, lastFuse: Option<MessageId>, live: set<Uuid>)
    requires k in h.log.entries && !h.log.entries[k].message.body.Ack?
    ensures var next := Next(h.log.entries.Keys, k);
            Loop(h, Some(k), lastFuse, live) ==
            match Judge(h, k, lastFuse, live)
            case Stop => h
            case Discard => Loop(TakeOut(h, k), next, lastFuse, live)
            case Commit => Loop(CommitEntry(h, k), next, if lastFuse == Some(k) then None else lastFuse, live)
    ensures Work(TakeOut(h, k)) < Work(h) && Work(CommitEntry(h, k)) < Work(h)
  {
    hide Judge, CommitEntry, Work, TakeOut;
  }

  lemma EnqueueOne(sent: map<Uuid, seq<Message>>, targets: set<Uuid>, v: Uuid, m: Message)
    requires v !in targets
    ensures var r := Enqueue(sent, targets, m);
            Enqueue(sent, targets + {v}, m) == r[v := (if v in r then r[v] else []) + [m]]
  {
    var r, r' := Enqueue(sent, targets, m), Enqueue(sent, targets + {v}, m);
    assert r'.Keys == r.Keys + {v};
    forall w <- r'.Keys
      ensures r'[w] == r[v := (if v in r then r[v] else []) + [m]][w]
    {
      assert QueueTo(r', w) == r'[w];
    }
  }
}
