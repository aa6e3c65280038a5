/** Runs of a network with static membership: total order, no gaps, no late messages.

    The links are what the transport layer provides (see Links and Stack): everything handed to a peer's socket
    arrives there once and in order, after any delay. Each move is one handler of one hub; `script` is what
    the callbacks made by that handler broadcast. */
module StaticRuns {
  import opened Basics
  import opened MessageIds
  import opened Messages
  import opened Logs
  import opened Seen
  import opened Hubs
  import opened HubOrder
  import opened Flooding
  import opened StaticOrder
  import Graphs

  datatype System = System(hubs: map<Uuid, HubState>, taken: map<(Uuid, Uuid), nat>)

  datatype Act = Utter(v: Uuid, data: Bytes) | Check(v: Uuid) | Deliver(u: Uuid, v: Uuid)

  datatype Move = Move(act: Act, script: seq<seq<Bytes>>)

  function Project(sys: System): Flood {
    Flood(map u <- sys.hubs.Keys :: Wire(sys.hubs[u]), sys.taken)
  }

  function Put(sys: System, v: Uuid, h: HubState): System {
    sys.(hubs := sys.hubs[v := h])
  }

  /** One move; moves that are not possible change nothing. */
  ghost function Next(net: Net, sys: System, move: Move): System {
    match move.act
    case Utter(v, data) => if v in sys.hubs then Put(sys, v, Do(sys.hubs[v], Speak(data), move.script)) else sys
    case Check(v) => if v in sys.hubs then Put(sys, v, Do(sys.hubs[v], Poll, move.script)) else sys
    case Deliver(u, v) =>
      if CanTake(net, Project(sys), u, v) then
        var m := Front(Project(sys), u, v);
        Put(sys, v, Do(sys.hubs[v], Hear(m), move.script)).(taken := Advance(Project(sys), u, v).taken)
      else sys
  }

  ghost function RunFrom(net: Net, start: System, moves: seq<Move>): System {
    if moves == [] then start
    else Next(net, RunFrom(net, start, moves[..|moves| - 1]), moves[|moves| - 1])
  }

  // ----- where runs start

  /** A hub that has just installed the shared configuration; its history is recorded from here on. */
  ghost predicate StartHub(net: Net, v: Uuid, h: HubState) {
    && Sound(h) && MembershipOk(h) && StaticHub(net, v, h) && !h.wrapped
    && h.log.entries == map[] && (forall k <- h.log.pendingAcks.Keys :: k.Le(h.log.lastCommitted))
    && h.posted == [] && h.received == [] && h.sent == map[]
    && h.consumed == [] && h.entered == {}
    && forall e <- h.events :: !e.Delivered?
  }

  /** Nothing is under way, and nothing a hub has committed or seen lies ahead of a member's clock. */
  ghost predicate Start(net: Net, sys: System) {
    && WellConnected(net)
    && sys.hubs.Keys == net.members && sys.taken == map[]
    && (forall v <- net.members :: StartHub(net, v, sys.hubs[v]))
    && (forall v <- net.members, q <- net.members :: sys.hubs[v].log.lastCommitted.ts <= sys.hubs[q].clock)
    && (forall v <- net.members, x :: IsIn(sys.hubs[v].seen, x) && x.op in net.members ==> x.ts <= sys.hubs[x.op].clock)
  }

  ghost predicate Overflowed(sys: System) {
    exists v <- sys.hubs.Keys :: sys.hubs[v].wrapped
  }

  ghost predicate SysInv(net: Net, sys: System) {
    && sys.hubs.Keys == net.members
    && forall v <- net.members :: FineAt(net, Project(sys), v, sys.hubs[v], {}) && AllDelivered(sys.hubs[v])
  }

  // ----- the invariant holds in every run

  lemma {:induction false} NothingDelivered(es: seq<Event>)
    requires forall e <- es :: !e.Delivered?
    ensures DeliveredIds(es) == []
    decreases |es|
  {
    if es != [] {
      assert es[|es| - 1] in es;
      NothingDelivered(es[..|es| - 1]);
    }
  }

  lemma StartFlood(net: Net, sys: System)
    requires Start(net, sys)
    ensures NetFine(net, Project(sys))
  {
    hide Sound, MembershipOk, StaticHub, IsIn, WellConnected;
    var s := Project(sys);
    assert forall v <- net.members :: Posted(s, v) == [] && Received(s, v) == [];
    forall l <- net.links
      ensures l.0 in net.members && l.1 in net.members
    {
      LinkMembers(net, l);
    }
    assert forall l <- net.links :: Queue(s, l.0, l.1) == [];
  }

  lemma LinkMembers(net: Net, l: (Uuid, Uuid))
    requires WellConnected(net) && l in net.links
    ensures l.0 in net.members && l.1 in net.members
  {
    assert (l.0, l.1) in net.links;
  }

  lemma StartFine(net: Net, sys: System, v: Uuid)
    requires Start(net, sys) && v in net.members
    ensures FineAt(net, Project(sys), v, sys.hubs[v], {}) && AllDelivered(sys.hubs[v])
  {
    hide Sound, MembershipOk, StaticHub, IsIn, WellConnected, FloodInv, Shapes;
    StartFlood(net, sys);
    NothingDelivered(sys.hubs[v].events);
    var s := Project(sys);
    assert forall q <- net.members :: Posted(s, q) == [] && FlowOf(s, q) == Wire(sys.hubs[q]);
  }

  lemma ProjectPut(sys: System, v: Uuid, h: HubState)
    requires v in sys.hubs
    ensures Project(Put(sys, v, h)) == Upd(Project(sys), v, h)
  {
  }

  lemma DoFine(net: Net, s: Flood, v: Uuid, h: HubState, step: Step, script: seq<seq<Bytes>>)
    requires FineAt(net, s, v, h, {}) && AllDelivered(h) && (step.Speak? || step.Poll?)
    requires !Do(h, step, script).wrapped
    ensures var h' := Do(h, step, script);
            FineAt(net, Upd(s, v, h'), v, h', {}) && Extends(s, Upd(s, v, h')) && AllDelivered(h')
  {
    hide NetFine, Fine, Extends, PostAckable, CommitWhatWasSeenByEveryone, DeliveredIds;
    ScriptFine(net, s, v, h, {}, script);
    if step.Speak? {
      PostAckableFine(net, s, v, h.(script := script), step.data);
    } else {
      CommitFine(net, s, v, h.(script := script));
    }
  }

  lemma DoHearFine(net: Net, s: Flood, u: Uuid, v: Uuid, h: HubState, script: seq<seq<Bytes>>)
    requires FineAt(net, s, v, h, {}) && AllDelivered(h) && CanTake(net, s, u, v)
    requires !Do(h, Hear(Front(s, u, v)), script).wrapped
    ensures var h' := Do(h, Hear(Front(s, u, v)), script);
            var s' := Upd(Advance(s, u, v), v, h');
            FineAt(net, s', v, h', {}) && Extends(s, s') && AllDelivered(h')
  {
    hide NetFine, Fine, Extends, OnRecv, DeliveredIds;
    ScriptFine(net, s, v, h, {}, script);
    HearFine(net, s, u, v, h.(script := script));
  }

  /** Hub v moved and the network became s'; all the others keep what they knew. */
  lemma Moved(net: Net, sys: System, v: Uuid, sys': System)
    requires SysInv(net, sys) && v in net.members && v in sys'.hubs && sys'.hubs == sys.hubs[v := sys'.hubs[v]]
    requires FineAt(net, Project(sys'), v, sys'.hubs[v], {}) && AllDelivered(sys'.hubs[v])
    requires Extends(Project(sys), Project(sys'))
    ensures SysInv(net, sys')
  {
    hide FineAt, Extends, AllDelivered, Project;
    forall w <- net.members
      ensures FineAt(net, Project(sys'), w, sys'.hubs[w], {}) && AllDelivered(sys'.hubs[w])
    {
      if w != v {
        ProjectUnchanged(sys, v, sys', w);
        BystanderFine(net, Project(sys), Project(sys'), v, sys'.hubs[v], w, sys.hubs[w]);
      }
    }
  }

  lemma ProjectUnchanged(sys: System, v: Uuid, sys': System, w: Uuid)
    requires v in sys'.hubs && sys'.hubs == sys.hubs[v := sys'.hubs[v]] && w != v
    ensures FlowOf(Project(sys'), w) == FlowOf(Project(sys), w)
  {
  }

  lemma BystanderFine(net: Net, s: Flood, s': Flood, v: Uuid, hv: HubState, w: Uuid, hw: HubState)
    requires FineAt(net, s, w, hw, {}) && FineAt(net, s', v, hv, {}) && Extends(s, s') && FlowOf(s', w) == FlowOf(s, w)
    ensures FineAt(net, s', w, hw, {})
  {
    hide NetFine, Fine, Extends;
    OthersFine(net, s, s', w, hw);
  }

  /** The hub a move concerns. */
  ghost function Mover(net: Net, sys: System, move: Move): Option<Uuid> {
    match move.act
    case Utter(v, _) => if v in sys.hubs then Some(v) else None
    case Check(v) => if v in sys.hubs then Some(v) else None
    case Deliver(u, v) => if CanTake(net, Project(sys), u, v) then Some(v) else None
  }

  lemma NextKeeps(net: Net, sys: System, move: Move)
    requires SysInv(net, sys) && !Overflowed(Next(net, sys, move))
    ensures SysInv(net, Next(net, sys, move)) && Extends(Project(sys), Project(Next(net, sys, move)))
  {
    hide FineAt, Extends, AllDelivered, Do, CanTake;
    var sys' := Next(net, sys, move);
    var who := Mover(net, sys, move);
    if who.None? {
      ExtendsReflexive(Project(sys));
    } else {
      var v := who.value;
      assert v in sys.hubs by { TakerIsHub(net, sys, move); }
      assert !sys'.hubs[v].wrapped;
      ProjectPut(sys, v, sys'.hubs[v]);
      match move.act {
        case Utter(_, data) =>
          DoFine(net, Project(sys), v, sys.hubs[v], Speak(data), move.script);
        case Check(_) =>
          DoFine(net, Project(sys), v, sys.hubs[v], Poll, move.script);
        case Deliver(u, _) =>
          assert Project(sys') == Upd(Advance(Project(sys), u, v), v, sys'.hubs[v]);
          DoHearFine(net, Project(sys), u, v, sys.hubs[v], move.script);
      }
      Moved(net, sys, v, sys');
    }
  }

  lemma TakerIsHub(net: Net, sys: System, move: Move)
    ensures Mover(net, sys, move).Some? ==> Mover(net, sys, move).value in sys.hubs
  {
  }

  lemma OverflowSticks(net: Net, sys: System, move: Move)
    requires Overflowed(sys)
    ensures Overflowed(Next(net, sys, move))
  {
    hide Do;
    var v :| v in sys.hubs && sys.hubs[v].wrapped;
    assert Next(net, sys, move).hubs[v].wrapped;
  }

  lemma {:induction false} RunKeeps(net: Net, start: System, moves: seq<Move>)
    requires Start(net, start) && !Overflowed(RunFrom(net, start, moves))
    ensures SysInv(net, RunFrom(net, start, moves))
    decreases |moves|
  {
    hide Next, FineAt, AllDelivered, StartHub, WellConnected;
    if moves == [] {
      forall v <- net.members
        ensures FineAt(net, Project(start), v, start.hubs[v], {}) && AllDelivered(start.hubs[v])
      {
        StartFine(net, start, v);
      }
    } else {
      var before := RunFrom(net, start, moves[..|moves| - 1]);
      if Overflowed(before) {
        OverflowSticks(net, before, moves[|moves| - 1]);
      }
      RunKeeps(net, start, moves[..|moves| - 1]);
      NextKeeps(net, before, moves[|moves| - 1]);
    }
  }

  lemma {:induction false} RunExtends(net: Net, start: System, moves: seq<Move>, more: seq<Move>)
    requires Start(net, start) && !Overflowed(RunFrom(net, start, moves + more))
    ensures !Overflowed(RunFrom(net, start, moves))
    ensures Extends(Project(RunFrom(net, start, moves)), Project(RunFrom(net, start, moves + more)))
    decreases |more|
  {
    hide Next, SysInv, Start, Extends;
    var s := Project(RunFrom(net, start, moves));
    if more == [] {
      assert moves + more == moves;
      ExtendsReflexive(s);
    } else {
      var init := more[..|more| - 1];
      var last := more[|more| - 1];
      var before := RunFrom(net, start, moves + init);
      assert (moves + more)[..|moves + more| - 1] == moves + init;
      if Overflowed(before) {
        OverflowSticks(net, before, last);
      }
      RunExtends(net, start, moves, init);
      RunKeeps(net, start, moves + init);
      NextKeeps(net, before, last);
      ExtendsTransitive(s, Project(before), Project(RunFrom(net, start, moves + more)));
    }
  }

  // ----- the guarantees

  /** What `on_receive` was given, in order. */
  ghost function Deliveries(es: seq<Event>): seq<(MessageId, Bytes)> {
    if es == [] then []
    else
      Deliveries(es[..|es| - 1]) + if es[|es| - 1].Delivered? then [(es[|es| - 1].id, es[|es| - 1].data)] else []
  }

  lemma {:induction false} DeliveriesMatch(s: Flood, es: seq<Event>)
    requires EventsFine(s, es)
    ensures |Deliveries(es)| == |DeliveredIds(es)|
    ensures forall i :: 0 <= i < |Deliveries(es)| ==>
              Deliveries(es)[i].0 == DeliveredIds(es)[i] && Says(s, Deliveries(es)[i].0, Deliveries(es)[i].1)
    decreases |es|
  {
    hide Says;
    if es != [] {
      assert es[|es| - 1] in es;
      DeliveriesMatch(s, es[..|es| - 1]);
    }
  }

  /** An id names one message. */
  lemma SaysUnique(net: Net, s: Flood, k: MessageId, d: Bytes, d': Bytes)
    requires FloodInv(net, s) && Says(s, k, d) && Says(s, k, d')
    ensures d == d'
  {
    assert k.op in net.members;
    assert PostedFine(k.op, FlowOf(s, k.op).clock, Posted(s, k.op));
  }

  /** Everything anyone said up to `last_committed`, and nothing else, has been consumed here. */
  ghost predicate ConsumedExactly(s: Flood, h: HubState) {
    forall k :: k in h.consumed <==> SaidId(s, k) && k.Le(h.log.lastCommitted)
  }

  ghost predicate SaidId(s: Flood, k: MessageId) {
    exists d :: Says(s, k, d)
  }

  lemma OwnUserIds(net: Net, s: Flood, v: Uuid, h: HubState, k: MessageId)
    requires FineAt(net, s, v, h, {})
    ensures k in h.entered ==> SaidId(s, k)
    ensures SaidId(s, k) && k in Has(s, v) ==> k in h.entered
  {
    hide Sound, MembershipOk, Knowing, SeenComplete, WellConnected, Shapes, StaticHub;
    if k in h.entered {
      var m :| (m in Posted(s, v) || m in Received(s, v)) && m.body.UserData? && m.Id() == k;
      EnteredIsSaid(net, s, v, m);
    }
    if SaidId(s, k) && k in Has(s, v) {
      var d :| Says(s, k, d);
      var m :| (m in Posted(s, v) || m in Received(s, v)) && m.Id() == k;
      HeldIsUserData(net, s, v, m, d);
    }
  }

  lemma EnteredIsSaid(net: Net, s: Flood, v: Uuid, m: Message)
    requires FloodInv(net, s) && (m in Posted(s, v) || m in Received(s, v)) && m.body.UserData?
    ensures SaidId(s, m.Id())
  {
    assert v in net.members;
    assert PostedFine(v, FlowOf(s, v).clock, Posted(s, v)) && ReceiptsFine(s, v);
    if m in Received(s, v) {
      assert m.Original() in Posted(s, m.op) && m.Original().Id() == m.Id();
    }
    assert Says(s, m.Id(), m.body.data);
  }

  lemma HeldIsUserData(net: Net, s: Flood, v: Uuid, m: Message, d: Bytes)
    requires FloodInv(net, s) && (m in Posted(s, v) || m in Received(s, v)) && Says(s, m.Id(), d)
    ensures m.body.UserData?
  {
    assert v in net.members && m.op in net.members;
    assert PostedFine(v, FlowOf(s, v).clock, Posted(s, v)) && ReceiptsFine(s, v);
    assert PostedFine(m.op, FlowOf(s, m.op).clock, Posted(s, m.op));
    if m in Received(s, v) {
      assert m.Original() in Posted(s, m.op) && m.Original().Id() == m.Id();
    }
  }

  lemma ConsumedIsExact(net: Net, s: Flood, v: Uuid, h: HubState)
    requires FineAt(net, s, v, h, {})
    ensures ConsumedExactly(s, h)
  {
    hide NetFine, Valid, StampsOk, DeliveredOk, PostedOk, ConfigsOk, MembershipOk, LogAcksFine, EntriesFine,
         SeenSound, EventsFine, SeenComplete, EnteredFine, StaticHub, SaidId;
    forall k
      ensures k in h.consumed <==> SaidId(s, k) && k.Le(h.log.lastCommitted)
    {
      OwnUserIds(net, s, v, h, k);
      if SaidId(s, k) && k.Le(h.log.lastCommitted) {
        SaidIsHeard(net, s, v, k, h.log.lastCommitted.ts);
        assert k !in h.log.entries by { EntriesAbove(h); }
      }
    }
  }

  lemma EntriesAbove(h: HubState)
    requires Sound(h)
    ensures forall k <- h.log.entries.Keys :: h.log.lastCommitted.Lt(k)
  {
  }

  lemma SaidIsHeard(net: Net, s: Flood, v: Uuid, k: MessageId, ts: nat)
    requires NetFine(net, s) && Stable(net, s, v, ts) && SaidId(s, k) && k.ts <= ts
    ensures k in Has(s, v)
  {
    var d :| Says(s, k, d);
    assert k.op in net.members;
    assert Heard(s, v, k.op, ts);
  }

  /** Total order without gaps: of any two hubs, what one delivered so far is a prefix, with the payloads, of
      what the other delivered. */
  lemma DeliveriesArePrefixes(net: Net, start: System, moves: seq<Move>, v: Uuid, w: Uuid)
    requires Start(net, start) && !Overflowed(RunFrom(net, start, moves)) && v in net.members && w in net.members
    ensures var sys := RunFrom(net, start, moves);
            && v in sys.hubs && w in sys.hubs
            && (Deliveries(sys.hubs[v].events) <= Deliveries(sys.hubs[w].events)
                || Deliveries(sys.hubs[w].events) <= Deliveries(sys.hubs[v].events))
  {
    hide RunFrom, Start, FineAt, Deliveries, Project;
    RunKeeps(net, start, moves);
    var sys := RunFrom(net, start, moves);
    if sys.hubs[v].log.lastCommitted.Le(sys.hubs[w].log.lastCommitted) {
      ShorterIsPrefix(net, Project(sys), v, sys.hubs[v], w, sys.hubs[w]);
    } else {
      ShorterIsPrefix(net, Project(sys), w, sys.hubs[w], v, sys.hubs[v]);
    }
  }

  lemma ShorterIsPrefix(net: Net, s: Flood, v: Uuid, hv: HubState, w: Uuid, hw: HubState)
    requires FineAt(net, s, v, hv, {}) && AllDelivered(hv) && FineAt(net, s, w, hw, {}) && AllDelivered(hw)
    requires hv.log.lastCommitted.Le(hw.log.lastCommitted)
    ensures Deliveries(hv.events) <= Deliveries(hw.events)
  {
    hide NetFine, Valid, StampsOk, PostedOk, ConfigsOk, MembershipOk, LogAcksFine, EntriesFine, SeenSound,
         SeenComplete, EnteredFine, StaticHub, SaidId, DeliveredIds, Deliveries, Says, EventsFine, Stable;
    ConsumedIsExact(net, s, v, hv);
    ConsumedIsExact(net, s, w, hw);
    BoundedSubsequenceIsPrefix(hv.consumed, hw.consumed, hv.log.lastCommitted);
    DeliveriesMatch(s, hv.events);
    DeliveriesMatch(s, hw.events);
    forall i | 0 <= i < |Deliveries(hv.events)|
      ensures Deliveries(hv.events)[i] == Deliveries(hw.events)[i]
    {
      assert DeliveredIds(hv.events)[i] == DeliveredIds(hw.events)[i];
      SaysUniqueIn(net, s, DeliveredIds(hv.events)[i], Deliveries(hv.events)[i].1, Deliveries(hw.events)[i].1);
    }
  }

  lemma SaysUniqueIn(net: Net, s: Flood, k: MessageId, d: Bytes, d': Bytes)
    requires NetFine(net, s) && Says(s, k, d) && Says(s, k, d')
    ensures d == d'
  {
    hide Says, FloodInv, Shapes, WellConnected;
    SaysUnique(net, s, k, d, d');
  }

  /** When a hub has committed up to some time, it has every message that any member constructed, or ever will
      construct in any continuation of the run, with a timestamp up to that time. */
  lemma CommittedIsComplete(net: Net, start: System, moves: seq<Move>, more: seq<Move>, v: Uuid, q: Uuid, p: Message)
    requires Start(net, start) && !Overflowed(RunFrom(net, start, moves + more)) && v in net.members && q in net.members
    requires q in RunFrom(net, start, moves + more).hubs && p in RunFrom(net, start, moves + more).hubs[q].posted
    requires v in RunFrom(net, start, moves).hubs && p.ts <= RunFrom(net, start, moves).hubs[v].log.lastCommitted.ts
    ensures var h := RunFrom(net, start, moves).hubs[v];
            p.Id() in IdsOf(h.posted) + IdsOf(h.received)
  {
    hide RunFrom, Start, NetFine, Valid, StampsOk, PostedOk, ConsumedOk, DeliveredOk, ConfigsOk, MembershipOk,
         LogAcksFine, EntriesFine, SeenSound, SeenComplete, EnteredFine, StaticHub, EventsFine, DeliveredIds;
    RunExtends(net, start, moves, more);
    RunKeeps(net, start, moves);
    var now := Project(RunFrom(net, start, moves));
    var later := Project(RunFrom(net, start, moves + more));
    assert Grew(now, later, q);
    assert FineAt(net, now, v, RunFrom(net, start, moves).hubs[v], {});
    var i :| 0 <= i < |Posted(later, q)| && Posted(later, q)[i] == p;
    assert Heard(now, v, q, RunFrom(net, start, moves).hubs[v].log.lastCommitted.ts);
    assert p == Posted(now, q)[i];
  }

  /** No message is ever rejected for being late. */
  lemma NothingIsLate(net: Net, start: System, moves: seq<Move>, v: Uuid)
    requires Start(net, start) && !Overflowed(RunFrom(net, start, moves)) && v in net.members
    ensures v in RunFrom(net, start, moves).hubs && RunFrom(net, start, moves).hubs[v].late == []
  {
    hide RunFrom, Start, NetFine, Sound, MembershipOk, Knowing, SeenComplete, EnteredFine, AllDelivered;
    RunKeeps(net, start, moves);
  }

  /** The compacted set of seen messages stays exact: a message of another member counts as seen if and only if
      it was received. */
  lemma SeenNeverHides(net: Net, start: System, moves: seq<Move>, v: Uuid, q: Uuid, p: Message)
    requires Start(net, start) && !Overflowed(RunFrom(net, start, moves)) && v in net.members && q in net.members &&
             q != v
    requires q in RunFrom(net, start, moves).hubs && p in RunFrom(net, start, moves).hubs[q].posted
    ensures v in RunFrom(net, start, moves).hubs
    ensures IsIn(RunFrom(net, start, moves).hubs[v].seen, p.Id()) <==>
            p.Id() in IdsOf(RunFrom(net, start, moves).hubs[v].received)
  {
    hide RunFrom, Start, Fine, AllDelivered, IsIn;
    RunKeeps(net, start, moves);
    var sys := RunFrom(net, start, moves);
    assert FineAt(net, Project(sys), v, sys.hubs[v], {});
    assert FineAt(net, Project(sys), q, sys.hubs[q], {});
    PostedIsGenuine(net, Project(sys), q, p);
    SeenIsExact(net, Project(sys), v, sys.hubs[v], p);
  }

  lemma PostedIsGenuine(net: Net, s: Flood, q: Uuid, p: Message)
    requires NetFine(net, s) && q in net.members && p in Posted(s, q)
    ensures Genuine(s, p) && p.op == q
  {
    assert PostedFine(q, FlowOf(s, q).clock, Posted(s, q));
    assert p.Original() == p;
  }

  /** Flooding: first receipts of one poster come in the order of posting; a copy under way has not visited its
      destination, and everyone it visited already has the message; nobody receives their own message. */
  lemma FloodingGuarantee(net: Net, start: System, moves: seq<Move>, u: Uuid, v: Uuid)
    requires Start(net, start) && !Overflowed(RunFrom(net, start, moves)) && (u, v) in net.links
    ensures var s := Project(RunFrom(net, start, moves));
            && ReceiptsOrdered(Received(s, v))
            && (forall m <- Received(s, v) :: m.op != v)
            && (forall m <- Queue(s, u, v) :: v !in m.visited && forall w <- m.visited :: m.Id() in Has(s, w))
  {
    hide RunFrom, Start, Fine, AllDelivered, Has, Shapes, ReceiptsOrdered;
    RunKeeps(net, start, moves);
    var sys := RunFrom(net, start, moves);
    var s := Project(sys);
    LinkEnds(net, start, u, v);
    SomeMember(net, sys);
    assert CopiesFine(s, u, v) && ReceiptsFine(s, v);
    forall m <- Queue(s, u, v)
      ensures v !in m.visited && forall w <- m.visited :: m.Id() in Has(s, w)
    {
      assert CopyFine(s, u, v, m);
    }
  }

  lemma LinkEnds(net: Net, start: System, u: Uuid, v: Uuid)
    requires Start(net, start) && (u, v) in net.links
    ensures u in net.members && v in net.members
  {
  }

  lemma SomeMember(net: Net, sys: System)
    requires SysInv(net, sys) && net.members != {}
    ensures NetFine(net, Project(sys))
  {
    hide Fine, NetFine, AllDelivered;
    var v :| v in net.members;
    assert FineAt(net, Project(sys), v, sys.hubs[v], {});
  }

  // ----- runs exist

  /** A hub that committed the fuse (1, NIL), which joined all members. */
  ghost function Joined(net: Net, v: Uuid): HubState {
    var fuse := MessageId(1, NIL);
    NewHub(v).(clock := 1,
               log := EMPTY_LOG.(lastFuseCommit := fuse, lastCommitted := fuse),
               configs := map[MessageId(0, v) := {v}, fuse := net.members],
               nodes := map u <- net.members :: u in LinksOf(net, v),
               routing := Graphs.Graph(net.members, map[]),
               events := [Inserted(net.members - {v})])
  }

  lemma JoinedIsStart(net: Net, v: Uuid)
    requires WellConnected(net) && v in net.members
    ensures StartHub(net, v, Joined(net, v))
  {
    hide Sound, MembershipOk, StaticHub, WellConnected, LinksOf, Joined, LatestConfig;
    JoinedSound(net, v);
    JoinedMembership(net, v);
    JoinedRest(net, v);
  }

  lemma JoinedRest(net: Net, v: Uuid)
    ensures var h := Joined(net, v);
            && !h.wrapped && h.log.entries == map[] && h.log.pendingAcks == map[]
            && h.posted == [] && h.received == [] && h.sent == map[]
            && h.consumed == [] && h.entered == {}
            && forall e <- h.events :: !e.Delivered?
  {
  }

  lemma JoinedSound(net: Net, v: Uuid)
    ensures Sound(Joined(net, v))
  {
    hide LinksOf;
    var h := Joined(net, v);
    assert PostedIds(h.posted) == [];
    NothingDelivered(h.events);
    assert Chained(h.log);
  }

  lemma JoinedMembership(net: Net, v: Uuid)
    requires WellConnected(net) && v in net.members
    ensures MembershipOk(Joined(net, v)) && StaticHub(net, v, Joined(net, v))
  {
    var h := Joined(net, v);
    assert h.configs.Keys == {MessageId(0, v), MessageId(1, NIL)};
    assert IsMax(h.configs.Keys, MessageId(1, NIL));
    assert LatestConfigId(h) == MessageId(1, NIL);
    EventAppended([], Inserted(net.members - {v}), {v});
    assert [] + h.events == h.events;
    assert (v, v) !in net.links;
    assert Connected(h) == LinksOf(net, v);
  }

  lemma JoinedFacts(net: Net, v: Uuid)
    ensures Joined(net, v).seen == map[] && Joined(net, v).log.lastCommitted.ts == 1 == Joined(net, v).clock
  {
  }

  /** Every connected network has a state to start from. */
  lemma StartExists(net: Net)
    requires WellConnected(net)
    ensures Start(net, System(map v <- net.members :: Joined(net, v), map[]))
  {
    hide StartHub, WellConnected, Joined, LinksOf;
    forall v <- net.members
      ensures StartHub(net, v, Joined(net, v))
      ensures Joined(net, v).seen == map[] && Joined(net, v).log.lastCommitted.ts == 1 == Joined(net, v).clock
    {
      JoinedIsStart(net, v);
      JoinedFacts(net, v);
    }
  }
}
