/** Static membership: every hub committed the same configuration, its members are joined by lossless FIFO
    links that form a connected graph, and no fuse is pending. This module follows one hub through its handlers
    and shows what they keep about the whole network; StaticRuns draws the conclusions for runs. */
module StaticOrder {
  import opened Basics
  import opened MessageIds
  import opened Messages
  import opened Logs
  import opened Seen
  import opened Hubs
  import opened HubOrder
  import opened Flooding

  /** The part of a hub that takes part in flooding. */
  function Wire(h: HubState): Flow {
    Flow(h.clock, h.posted, h.received, h.sent)
  }

  function Upd(s: Flood, v: Uuid, h: HubState): Flood {
    s.(flows := s.flows[v := Wire(h)])
  }

  // ----- growth of the network's history

  ghost predicate Grew(s: Flood, s': Flood, q: Uuid) {
    && FlowOf(s, q).clock <= FlowOf(s', q).clock
    && Posted(s, q) <= Posted(s', q)
    && (forall i :: |Posted(s, q)| <= i < |Posted(s', q)| ==> FlowOf(s, q).clock < Posted(s', q)[i].ts)
    && Has(s, q) <= Has(s', q)
  }

  /** Clocks advance, and whatever is constructed later has a timestamp above its poster's clock now. */
  ghost predicate Extends(s: Flood, s': Flood) {
    forall q :: Grew(s, s', q)
  }

  lemma ExtendsTransitive(a: Flood, b: Flood, c: Flood)
    requires Extends(a, b) && Extends(b, c)
    ensures Extends(a, c)
  {
    forall q
      ensures Grew(a, c, q)
    {
      assert Grew(a, b, q) && Grew(b, c, q);
    }
  }

  lemma PostExtends(net: Net, s: Flood, u: Uuid, m: Message)
    requires CanPost(s, u, m)
    ensures Extends(s, PostStep(net, s, u, m))
  {
    var s' := PostStep(net, s, u, m);
    forall q
      ensures Grew(s, s', q)
    {
      PostFacts(net, s, u, m, q, q);
    }
  }

  lemma AcceptExtends(net: Net, s: Flood, u: Uuid, v: Uuid)
    requires CanTake(net, s, u, v)
    ensures Extends(s, AcceptStep(net, s, u, v))
  {
    var s' := AcceptStep(net, s, u, v);
    forall q
      ensures Grew(s, s', q)
    {
      AcceptFacts(net, s, u, v, q, q);
    }
  }

  // ----- what a hub knows about the others

  /** v has everything q constructed up to time ts, and q will construct nothing more up to then. */
  ghost predicate Heard(s: Flood, v: Uuid, q: Uuid, ts: nat) {
    ts <= FlowOf(s, q).clock && forall p <- Posted(s, q) :: p.ts <= ts ==> p.Id() in Has(s, v)
  }

  ghost predicate Stable(net: Net, s: Flood, v: Uuid, ts: nat) {
    forall q <- net.members :: Heard(s, v, q, ts)
  }

  ghost predicate AckFine(net: Net, s: Flood, v: Uuid, k: MessageId, q: Uuid, a: AckData) {
    q in net.members && a.neighbors == LinksOf(net, q) + {q} && Heard(s, v, q, k.ts)
  }

  ghost predicate AcksFine(net: Net, s: Flood, v: Uuid, k: MessageId, acks: map<Uuid, AckData>) {
    forall q <- acks.Keys :: AckFine(net, s, v, k, q, acks[q])
  }

  /** Every acknowledgement in v's log tells v that it has heard all of the acker's past. Those that still wait for
      a message that was consumed or discarded do not matter any more. */
  ghost predicate LogAcksFine(net: Net, s: Flood, v: Uuid, l: LogState) {
    && (forall k <- l.entries.Keys :: AcksFine(net, s, v, k, l.entries[k].acks))
    && (forall k <- l.pendingAcks.Keys :: l.lastCommitted.Lt(k) ==> AcksFine(net, s, v, k, l.pendingAcks[k]))
  }

  /** Somebody broadcast the data under this id. */
  ghost predicate Says(s: Flood, k: MessageId, data: Bytes) {
    exists p :: p in Posted(s, k.op) && p.Id() == k && p.body.UserData? && p.body.data == data
  }

  ghost predicate EntriesFine(s: Flood, l: LogState) {
    forall k <- l.entries.Keys :: l.entries[k].message.body.UserData? && Says(s, k, l.entries[k].message.body.data)
  }

  /** What counts as seen was constructed already and, if it exists, is here. */
  ghost predicate SeenSound(net: Net, s: Flood, v: Uuid, seen: SeenState) {
    forall x :: IsIn(seen, x) && x.op in net.members ==>
      x.ts <= FlowOf(s, x.op).clock && (x in IdsOf(Posted(s, x.op)) ==> x in Has(s, v))
  }

  ghost predicate SeenComplete(s: Flood, v: Uuid, seen: SeenState) {
    forall m <- Received(s, v) :: IsIn(seen, m.Id())
  }

  ghost function UserIds(ms: seq<Message>): set<MessageId> {
    set m <- ms | m.body.UserData? :: m.Id()
  }

  /** All user data the hub has went into its log, except for `out`, which is about to. */
  ghost predicate EnteredFine(s: Flood, v: Uuid, entered: set<MessageId>, out: set<MessageId>) {
    entered + out == UserIds(Posted(s, v)) + UserIds(Received(s, v))
  }

  ghost predicate EventsFine(s: Flood, events: seq<Event>) {
    forall e <- events :: e.Delivered? ==> Says(s, e.id, e.data)
  }

  ghost predicate StaticHub(net: Net, v: Uuid, h: HubState) {
    && h.id == v && v in net.members
    && LatestConfig(h) == net.members
    && h.nodes.Keys == net.members
    && Connected(h) == LinksOf(net, v)
    && h.late == []
  }

  ghost predicate Knowing(net: Net, s: Flood, v: Uuid, h: HubState) {
    && LogAcksFine(net, s, v, h.log)
    && EntriesFine(s, h.log)
    && Stable(net, s, v, h.log.lastCommitted.ts)
    && SeenSound(net, s, v, h.seen)
    && EventsFine(s, h.events)
  }

  /** What is known of hub v in the network s. */
  ghost predicate Fine(net: Net, s: Flood, v: Uuid, h: HubState, out: set<MessageId>) {
    && Sound(h) && MembershipOk(h)
    && StaticHub(net, v, h)
    && Knowing(net, s, v, h)
    && SeenComplete(s, v, h.seen)
    && EnteredFine(s, v, h.entered, out)
  }

  /** What static members construct. */
  ghost predicate PostedShape(net: Net, q: Uuid, posted: seq<Message>) {
    forall m <- posted ::
      && WellFormed(m)
      && m.body.ack.neighbors == LinksOf(net, q) + {q}
      && !m.body.Fuse?
      && (m.body.Ack? ==> m.body.ack.acked.ts < m.ts)
  }

  ghost predicate Shapes(net: Net, s: Flood) {
    forall q <- net.members :: PostedShape(net, q, Posted(s, q))
  }

  ghost predicate NetFine(net: Net, s: Flood) {
    WellConnected(net) && FloodInv(net, s) && Shapes(net, s)
  }

  ghost predicate FineAt(net: Net, s: Flood, v: Uuid, h: HubState, out: set<MessageId>) {
    NetFine(net, s) && Fine(net, s, v, h, out) && FlowOf(s, v) == Wire(h) && !h.wrapped
  }

  // ----- knowledge is stable

  lemma HeardStable(s: Flood, s': Flood, v: Uuid, q: Uuid, ts: nat)
    requires Extends(s, s') && Heard(s, v, q, ts)
    ensures Heard(s', v, q, ts)
  {
    assert Grew(s, s', q) && Grew(s, s', v);
    forall p <- Posted(s', q) | p.ts <= ts
      ensures p.Id() in Has(s', v)
    {
      var i :| 0 <= i < |Posted(s', q)| && Posted(s', q)[i] == p;
      assert i < |Posted(s, q)| && p == Posted(s, q)[i];
    }
  }

  lemma StableStable(net: Net, s: Flood, s': Flood, v: Uuid, ts: nat)
    requires Extends(s, s') && Stable(net, s, v, ts)
    ensures Stable(net, s', v, ts)
  {
    forall q <- net.members
      ensures Heard(s', v, q, ts)
    {
      HeardStable(s, s', v, q, ts);
    }
  }

  lemma AcksStable(net: Net, s: Flood, s': Flood, v: Uuid, k: MessageId, acks: map<Uuid, AckData>)
    requires Extends(s, s') && AcksFine(net, s, v, k, acks)
    ensures AcksFine(net, s', v, k, acks)
  {
    forall q <- acks.Keys
      ensures AckFine(net, s', v, k, q, acks[q])
    {
      assert AckFine(net, s, v, k, q, acks[q]);
      HeardStable(s, s', v, q, k.ts);
    }
  }

  lemma LogAcksStable(net: Net, s: Flood, s': Flood, v: Uuid, l: LogState)
    requires Extends(s, s') && LogAcksFine(net, s, v, l)
    ensures LogAcksFine(net, s', v, l)
  {
    hide AcksFine, Extends;
    forall k <- l.entries.Keys
      ensures AcksFine(net, s', v, k, l.entries[k].acks)
    {
      AcksStable(net, s, s', v, k, l.entries[k].acks);
    }
    forall k <- l.pendingAcks.Keys | l.lastCommitted.Lt(k)
      ensures AcksFine(net, s', v, k, l.pendingAcks[k])
    {
      AcksStable(net, s, s', v, k, l.pendingAcks[k]);
    }
  }

  lemma SaysStable(s: Flood, s': Flood, k: MessageId, data: Bytes)
    requires Extends(s, s') && Says(s, k, data)
    ensures Says(s', k, data)
  {
    assert Grew(s, s', k.op);
    var p :| p in Posted(s, k.op) && p.Id() == k && p.body.UserData? && p.body.data == data;
    assert p in Posted(s', k.op);
  }

  lemma SeenSoundStable(net: Net, s: Flood, s': Flood, v: Uuid, seen: SeenState)
    requires Extends(s, s') && SeenSound(net, s, v, seen)
    ensures SeenSound(net, s', v, seen)
  {
    assert Grew(s, s', v);
    forall x | IsIn(seen, x) && x.op in net.members
      ensures x.ts <= FlowOf(s', x.op).clock
      ensures x in IdsOf(Posted(s', x.op)) ==> x in Has(s', v)
    {
      assert Grew(s, s', x.op);
      if x in IdsOf(Posted(s', x.op)) {
        var p :| p in Posted(s', x.op) && p.Id() == x;
        var i :| 0 <= i < |Posted(s', x.op)| && Posted(s', x.op)[i] == p;
        assert i < |Posted(s, x.op)| && p == Posted(s, x.op)[i];
      }
    }
  }

  lemma KnowingStable(net: Net, s: Flood, s': Flood, v: Uuid, h: HubState)
    requires Extends(s, s') && Knowing(net, s, v, h)
    ensures Knowing(net, s', v, h)
  {
    hide Extends, LogAcksFine, Stable, SeenSound, Says;
    LogAcksStable(net, s, s', v, h.log);
    StableStable(net, s, s', v, h.log.lastCommitted.ts);
    SeenSoundStable(net, s, s', v, h.seen);
    forall k <- h.log.entries.Keys
      ensures Says(s', k, h.log.entries[k].message.body.data)
    {
      SaysStable(s, s', k, h.log.entries[k].message.body.data);
    }
    forall e <- h.events | e.Delivered?
      ensures Says(s', e.id, e.data)
    {
      SaysStable(s, s', e.id, e.data);
    }
  }

  /** The other hubs keep what they know when someone constructs or accepts a message. */
  lemma OthersFine(net: Net, s: Flood, s': Flood, w: Uuid, h: HubState)
    requires Extends(s, s') && Fine(net, s, w, h, {})
    requires FlowOf(s', w) == FlowOf(s, w)
    ensures Fine(net, s', w, h, {})
  {
    hide Extends, Sound, MembershipOk, StaticHub, Knowing, IsIn;
    KnowingStable(net, s, s', w, h);
  }

  // ----- constructing messages

  /** Nothing in FineAt depends on the script. */
  lemma ScriptFine(net: Net, s: Flood, v: Uuid, h: HubState, out: set<MessageId>, script: seq<seq<Bytes>>)
    requires FineAt(net, s, v, h, out)
    ensures FineAt(net, s, v, h.(script := script), out)
  {
    hide NetFine, Valid, StampsOk, ConsumedOk, DeliveredOk, PostedOk, ConfigsOk, Membership, Knowing, SeenComplete,
         EnteredFine;
    var h' := h.(script := script);
    assert Knowing(net, s, v, h') by { KnowingFrame(net, s, v, h, h'); }
  }

  lemma KnowingFrame(net: Net, s: Flood, v: Uuid, h: HubState, h': HubState)
    requires Knowing(net, s, v, h) && h'.log == h.log && h'.seen == h.seen && h'.events == h.events
    ensures Knowing(net, s, v, h')
  {
    hide LogAcksFine, EntriesFine, Stable, SeenSound, EventsFine;
  }

  lemma UserIdsAppend(ms: seq<Message>, m: Message)
    ensures UserIds(ms + [m]) == UserIds(ms) + if m.body.UserData? then {m.Id()} else {}
  {
    assert forall x :: x in ms + [m] <==> x in ms || x == m;
  }

  ghost predicate Constructed(net: Net, h: HubState, v: Uuid, m: Message) {
    m.op == v && m.ts == Tick(h).clock && m.visited == {v} && PostedShape(net, v, [m])
  }

  lemma PostIsStep(net: Net, s: Flood, v: Uuid, h: HubState, m: Message)
    requires FlowOf(s, v) == Wire(h) && StaticHub(net, v, h) && !Tick(h).wrapped && m.visited == {v} &&
             m.ts == Tick(h).clock
    ensures Upd(s, v, Post(h, m)) == PostStep(net, s, v, m)
  {
    var p := Tick(h).(posted := h.posted + [m], basis := h.basis + [h.log.entries.Keys]);
    assert Connected(p) - m.visited == LinksOf(net, v);
  }

  lemma PostShapes(net: Net, s: Flood, v: Uuid, m: Message)
    requires CanPost(s, v, m) && Shapes(net, s) && PostedShape(net, v, [m])
    ensures Shapes(net, PostStep(net, s, v, m))
  {
    assert m in [m];
    forall q <- net.members
      ensures PostedShape(net, q, Posted(PostStep(net, s, v, m), q))
    {
      PostFacts(net, s, v, m, q, q);
    }
  }

  ghost function Outstanding(m: Message): set<MessageId> {
    if m.body.UserData? then {m.Id()} else {}
  }

  lemma PostFine(net: Net, s: Flood, v: Uuid, h: HubState, m: Message, out: set<MessageId>)
    requires FineAt(net, s, v, h, out) && !Tick(h).wrapped && Constructed(net, h, v, m)
    ensures var s' := Upd(s, v, Post(h, m));
            FineAt(net, s', v, Post(h, m), out + Outstanding(m)) && Extends(s, s') && s' == PostStep(net, s, v, m)
  {
    hide Valid, StampsOk, ConsumedOk, DeliveredOk, PostedOk, ConfigsOk, Membership, Knowing, Extends, FloodInv,
         Shapes, WellConnected, WellFormed;
    var h' := Post(h, m);
    var s' := Upd(s, v, h');
    assert CanPost(s, v, m) by { FlowKeys(net, s, v); }
    PostIsStep(net, s, v, h, m);
    PostKeepsFlood(net, s, v, m);
    PostShapes(net, s, v, m);
    PostExtends(net, s, v, m);
    assert m in [m];
    PostKeeps(h, m);
    KnowingStable(net, s, s', v, h);
    KnowingFrame(net, s', v, h, h');
    UserIdsAppend(h.posted, m);
  }

  lemma FlowKeys(net: Net, s: Flood, v: Uuid)
    requires FloodInv(net, s) && v in net.members
    ensures v in s.flows
  {
  }

  lemma UpdUpd(s: Flood, v: Uuid, a: HubState, b: HubState)
    ensures Upd(Upd(s, v, a), v, b) == Upd(s, v, b)
  {
  }

  lemma UpdSame(net: Net, s: Flood, v: Uuid, h: HubState)
    requires FloodInv(net, s) && v in net.members && FlowOf(s, v) == Wire(h)
    ensures Upd(s, v, h) == s
  {
  }

  /** A message may enter the log of v: it is not there yet, and v has heard its poster up to it. */
  ghost predicate Enterable(net: Net, s: Flood, v: Uuid, h: HubState, m: Message) {
    && m.body.UserData? && WellFormed(m) && m.ts <= h.clock
    && h.log.lastCommitted.Lt(m.Id()) && m.Id() !in h.log.entries
    && AckFine(net, s, v, m.Id(), m.op, m.body.ack)
    && Says(s, m.Id(), m.body.data)
  }

  lemma InsertFine(net: Net, s: Flood, v: Uuid, h: HubState, m: Message)
    requires Keyed(h.log) && LogAcksFine(net, s, v, h.log) && EntriesFine(s, h.log) && Enterable(net, s, v, h, m)
    ensures LogAcksFine(net, s, v, InsertEntry(h.log, m)) && EntriesFine(s, InsertEntry(h.log, m))
  {
    hide InsertEntry, AckFine, Says, WellFormed;
    assert m.body.ack.acked == m.Id() by { OwnAck(m); }
    InsertEntryFrame(h.log, m);
  }

  lemma OwnAck(m: Message)
    requires WellFormed(m) && m.body.UserData?
    ensures m.body.ack.acked == m.Id()
  {
  }

  lemma AddLogEntryFine(net: Net, s: Flood, v: Uuid, h: HubState, m: Message)
    requires FineAt(net, s, v, h, {m.Id()}) && Enterable(net, s, v, h, m)
    ensures FineAt(net, s, v, AddLogEntry(h, m), {})
  {
    hide NetFine, Valid, StampsOk, ConsumedOk, DeliveredOk, PostedOk, ConfigsOk, Membership, InsertEntry, Stable,
         LogAcksFine, EntriesFine, SeenSound, SeenComplete, EventsFine, AckFine, Says, WellFormed;
    assert Keyed(h.log) by { ValidKeyed(h.log); }
    InsertFine(net, s, v, h, m);
    AddLogEntryKeeps(h, m);
  }

  lemma ValidKeyed(l: LogState)
    requires Valid(l)
    ensures Keyed(l)
  {
  }

  lemma FreshStamp(h: HubState)
    requires Sound(h) && !Tick(h).wrapped
    ensures MessageId(Tick(h).clock, h.id) !in h.log.entries
    ensures h.log.lastCommitted.Lt(MessageId(Tick(h).clock, h.id))
  {
    hide Valid, ConsumedOk, DeliveredOk, PostedOk, ConfigsOk;
  }

  /** A hub has heard everything it said itself. */
  lemma HeardSelf(s: Flood, v: Uuid, ts: nat)
    requires ts <= FlowOf(s, v).clock
    ensures Heard(s, v, v, ts)
  {
  }

  lemma AckableShape(net: Net, v: Uuid, h: HubState, data: Bytes)
    requires StaticHub(net, v, h) && !Tick(h).wrapped
    ensures Constructed(net, h, v, AckableMessage(h, Say(data)))
  {
    hide PredecessorTime, LatestConfig, LatestConfigId;
  }

  lemma PostAckableFine(net: Net, s: Flood, v: Uuid, h: HubState, data: Bytes)
    requires FineAt(net, s, v, h, {}) && !PostAckable(h, Say(data)).wrapped
    ensures var h' := PostAckable(h, Say(data));
            FineAt(net, Upd(s, v, h'), v, h', {}) && Extends(s, Upd(s, v, h'))
  {
    hide NetFine, Sound, MembershipOk, Knowing, Extends, InsertEntry, PredecessorTime, PostedShape, SeenComplete,
         EnteredFine, Post, LatestConfig, LatestConfigId;
    var m := AckableMessage(h, Say(data));
    AckableShape(net, v, h, data);
    PostFine(net, s, v, h, m, {});
    FreshStamp(h);
    var p := Post(h, m);
    var s' := Upd(s, v, p);
    assert {} + Outstanding(m) == {m.Id()};
    PostedSays(net, s, v, m);
    ConstructedAck(net, h, v, m);
    HeardSelf(s', v, m.ts);
    AddLogEntryFine(net, s', v, p, m);
  }

  lemma ConstructedAck(net: Net, h: HubState, v: Uuid, m: Message)
    requires Constructed(net, h, v, m)
    ensures m.body.ack.neighbors == LinksOf(net, v) + {v} && WellFormed(m)
  {
    assert m in [m];
  }

  lemma PostedSays(net: Net, s: Flood, v: Uuid, m: Message)
    requires m.op == v && m.body.UserData?
    ensures Says(PostStep(net, s, v, m), m.Id(), m.body.data)
  {
    assert m in Posted(PostStep(net, s, v, m), v);
  }

  lemma {:induction false} PostAllFine(net: Net, s: Flood, v: Uuid, h: HubState, payloads: seq<Bytes>)
    requires FineAt(net, s, v, h, {}) && !PostAll(h, payloads).wrapped
    ensures var h' := PostAll(h, payloads);
            FineAt(net, Upd(s, v, h'), v, h', {}) && Extends(s, Upd(s, v, h'))
    decreases |payloads|
  {
    hide NetFine, Fine, Extends, PostAckable;
    if payloads == [] {
      assert Upd(s, v, h) == s by { FineUpd(net, s, v, h, {}); }
      assert Extends(s, s) by { ExtendsReflexive(s); }
    } else {
      var h1 := PostAckable(h, Say(payloads[0]));
      PostAckableFine(net, s, v, h, payloads[0]);
      PostAllFine(net, Upd(s, v, h1), v, h1, payloads[1..]);
      UpdUpd(s, v, h1, PostAll(h, payloads));
      ExtendsTransitive(s, Upd(s, v, h1), Upd(s, v, PostAll(h, payloads)));
    }
  }

  lemma FineUpd(net: Net, s: Flood, v: Uuid, h: HubState, out: set<MessageId>)
    requires FineAt(net, s, v, h, out)
    ensures Upd(s, v, h) == s
  {
    hide Sound, MembershipOk, Knowing, SeenComplete, EnteredFine, Shapes, WellConnected;
    UpdSame(net, s, v, h);
  }

  lemma ExtendsReflexive(s: Flood)
    ensures Extends(s, s)
  {
  }

  // ----- acknowledgements

  lemma ApplyAckKnowing(net: Net, s: Flood, v: Uuid, l: LogState, q: Uuid, ack: AckData)
    requires LogAcksFine(net, s, v, l) && EntriesFine(s, l) && AckFine(net, s, v, ack.acked, q, ack)
    ensures LogAcksFine(net, s, v, ApplyAck(l, q, ack)) && EntriesFine(s, ApplyAck(l, q, ack))
  {
    hide AckFine, Says;
  }

  lemma ApplyAckFine(net: Net, s: Flood, v: Uuid, h: HubState, q: Uuid, ack: AckData, out: set<MessageId>)
    requires FineAt(net, s, v, h, out) && AckFine(net, s, v, ack.acked, q, ack)
    ensures FineAt(net, s, v, h.(log := ApplyAck(h.log, q, ack)), out)
  {
    hide NetFine, Valid, ConsumedOk, DeliveredOk, PostedOk, ConfigsOk, Membership, Stable, LogAcksFine,
         EntriesFine, SeenSound, SeenComplete, EventsFine, EnteredFine;
    var h' := h.(log := ApplyAck(h.log, q, ack));
    ApplyAckKnowing(net, s, v, h.log, q, ack);
    ApplyAckValid(h.log, q, ack);
    assert h'.log.entries.Keys == h.log.entries.Keys;
  }

  lemma AckShape(net: Net, v: Uuid, h: HubState, acked: MessageId)
    requires StaticHub(net, v, h) && !Tick(h).wrapped && acked.ts <= h.clock
    ensures Constructed(net, h, v, AckMessage(h, acked))
  {
    hide PredecessorTime, LatestConfig, LatestConfigId;
  }

  lemma PostAckFine(net: Net, s: Flood, v: Uuid, h: HubState, acked: MessageId, out: set<MessageId>)
    requires FineAt(net, s, v, h, out) && acked.ts <= h.clock && !PostAck(h, acked).wrapped
    ensures var h' := PostAck(h, acked);
            FineAt(net, Upd(s, v, h'), v, h', out) && Extends(s, Upd(s, v, h'))
  {
    hide NetFine, Sound, MembershipOk, Knowing, Extends, ApplyAck, PredecessorTime, PostedShape, SeenComplete,
         EnteredFine, Post, LatestConfig, LatestConfigId;
    var m := AckMessage(h, acked);
    AckShape(net, v, h, acked);
    PostFine(net, s, v, h, m, out);
    assert out + Outstanding(m) == out;
    var p := Post(h, m);
    var s' := Upd(s, v, p);
    ConstructedAck(net, h, v, m);
    HeardSelf(s', v, acked.ts);
    ApplyAckFine(net, s', v, p, v, m.body.ack, out);
  }

  // ----- committing

  /** The heart of the protocol: an entry acknowledged by its whole quorum is acknowledged by every member, so
      the hub has heard everything anyone said up to it. */
  lemma QuorumIsEverybody(net: Net, s: Flood, v: Uuid, k: MessageId, e: LogEntry)
    requires WellConnected(net) && e.message.op in net.members && e.QuorumClosed()
    requires AcksFine(net, s, v, k, e.acks) && e.AckedByAlive(net.members)
    ensures net.members <= e.acks.Keys && Stable(net, s, v, k.ts)
  {
    forall x <- e.acks.Keys
      ensures LinksOf(net, x) <= e.acks.Keys
    {
      assert AckFine(net, s, v, k, x, e.acks[x]);
    }
    ClosedIsEverybody(net, e.acks.Keys, e.message.op);
    forall q <- net.members
      ensures Heard(s, v, q, k.ts)
    {
      assert AckFine(net, s, v, k, q, e.acks[q]);
    }
  }

  lemma EntryPoster(net: Net, s: Flood, k: MessageId, data: Bytes)
    requires FloodInv(net, s) && Says(s, k, data)
    ensures k.op in net.members
  {
  }

  lemma CommitIsStable(net: Net, s: Flood, v: Uuid, h: HubState, k: MessageId)
    requires FineAt(net, s, v, h, {}) && k in h.log.entries && h.log.entries[k].AckedByAlive(net.members)
    ensures Stable(net, s, v, k.ts)
  {
    hide FloodInv, StampsOk, ConsumedOk, DeliveredOk, PostedOk, ConfigsOk, MembershipOk, SeenSound, Stable,
         Chained, PendingOk, SeenComplete, EnteredFine, WellConnected, AcksFine, Says, Shapes;
    var e := h.log.entries[k];
    EntryPoster(net, s, k, e.message.body.data);
    QuorumIsEverybody(net, s, v, k, e);
  }

  lemma CompactedSeen(net: Net, s: Flood, v: Uuid, seen: SeenState, k: MessageId)
    requires SeenSound(net, s, v, seen) && Stable(net, s, v, k.ts)
    ensures SeenSound(net, s, v, SeenEverythingUpTo(seen, k))
    ensures SeenComplete(s, v, seen) ==> SeenComplete(s, v, SeenEverythingUpTo(seen, k))
  {
    forall x
      ensures IsIn(SeenEverythingUpTo(seen, k), x) <==> IsIn(seen, x) || (x.op in seen && x.ts <= k.ts)
    {
      CompactionDenotes(seen, k, x);
    }
    forall x | IsIn(SeenEverythingUpTo(seen, k), x) && x.op in net.members
      ensures x.ts <= FlowOf(s, x.op).clock && (x in IdsOf(Posted(s, x.op)) ==> x in Has(s, v))
    {
      assert Heard(s, v, x.op, k.ts);
    }
  }

  lemma DepartedKnowing(net: Net, s: Flood, v: Uuid, h: HubState, k: MessageId)
    requires Knowing(net, s, v, h) && k in h.log.entries && h.log.lastCommitted.Lt(k) && Stable(net, s, v, k.ts)
    ensures Knowing(net, s, v, Departed(h, k))
  {
    hide AcksFine, SeenSound, Stable, Says, Work;
    CompactedSeen(net, s, v, h.seen, k);
  }

  lemma DepartedFine(net: Net, s: Flood, v: Uuid, h: HubState, k: MessageId)
    requires FineAt(net, s, v, h, {}) && IsMin(h.log.entries.Keys, k) && Stable(net, s, v, k.ts)
    ensures FineAt(net, s, v, Departed(h, k), {})
    ensures EventOk(Departed(h, k), Delivered(k, h.log.entries[k].message.body.data))
  {
    hide NetFine, Valid, StampsOk, ConsumedOk, DeliveredOk, PostedOk, ConfigsOk, Membership, DeliveredIds, Stable,
         LogAcksFine, EntriesFine, SeenSound, EventsFine, EnteredFine, Says, Work;
    assert h.log.entries[k].message.body.UserData? by { EntryIsUserData(net, s, v, h, k); }
    DepartedKeeps(h, k);
    ValidKeyed(h.log);
    DepartedKnowing(net, s, v, h, k);
    assert SeenComplete(s, v, SeenEverythingUpTo(h.seen, k)) by { CompactedSeen(net, s, v, h.seen, k); }
  }

  lemma EntryIsUserData(net: Net, s: Flood, v: Uuid, h: HubState, k: MessageId)
    requires FineAt(net, s, v, h, {}) && k in h.log.entries
    ensures h.log.entries[k].message.body.UserData? && h.log.entries[k].message.Id() == k
    ensures Says(s, k, h.log.entries[k].message.body.data) && k.op in net.members
  {
    hide FloodInv, StampsOk, ConsumedOk, DeliveredOk, PostedOk, ConfigsOk, MembershipOk, SeenSound, Stable,
         Chained, PendingOk, AllClosed, SeenComplete, EnteredFine, WellConnected, LogAcksFine, Says, Shapes,
         EventsFine;
    EntryPoster(net, s, k, h.log.entries[k].message.body.data);
  }

  lemma EventFine(net: Net, s: Flood, v: Uuid, h: HubState, e: Event)
    requires FineAt(net, s, v, h, {}) && EventOk(h, e) && e.Delivered? && Says(s, e.id, e.data)
    ensures FineAt(net, s, v, h.(events := h.events + [e]), {})
  {
    hide NetFine, Valid, StampsOk, ConsumedOk, DeliveredOk, PostedOk, ConfigsOk, Membership, Stable, LogAcksFine,
         DeliveredIds, EntriesFine, SeenSound, SeenComplete, EnteredFine, Says;
    EventKeeps(h, e);
    EventAppended(h.events, e, {h.id});
  }

  lemma CallbackFine(net: Net, s: Flood, v: Uuid, h: HubState, e: Event)
    requires FineAt(net, s, v, h, {}) && EventOk(h, e) && e.Delivered? && Says(s, e.id, e.data)
    requires !Callback(h, e).wrapped
    ensures var h' := Callback(h, e);
            FineAt(net, Upd(s, v, h'), v, h', {}) && Extends(s, Upd(s, v, h'))
  {
    hide NetFine, Fine, Extends, PostAll, Says, EventOk, Work;
    EventFine(net, s, v, h, e);
    var h1 := h.(events := h.events + [e]);
    if h.script == [] {
      FineUpd(net, s, v, h1, {});
      ExtendsReflexive(s);
    } else {
      ScriptFine(net, s, v, h1, {}, h.script[1..]);
      PostAllFine(net, s, v, h1.(script := h.script[1..]), h.script[0]);
    }
  }

  /** Every id taken out of the log was delivered. */
  ghost predicate AllDelivered(h: HubState) {
    DeliveredIds(h.events) == h.consumed
  }

  lemma CommitEntryFine(net: Net, s: Flood, v: Uuid, h: HubState, k: MessageId)
    requires FineAt(net, s, v, h, {}) && IsMin(h.log.entries.Keys, k)
    requires h.log.entries[k].message.body.UserData? && h.log.entries[k].AckedByAlive(net.members)
    requires !CommitEntry(h, k).wrapped
    ensures var h' := CommitEntry(h, k);
            && FineAt(net, Upd(s, v, h'), v, h', {}) && Extends(s, Upd(s, v, h'))
            && h'.log.lastCommitted == k
            && (AllDelivered(h) ==> AllDelivered(h'))
  {
    hide NetFine, Sound, MembershipOk, Knowing, Extends, Callback, Says, EventOk, Work, DeliveredIds, SeenComplete,
         EnteredFine, Stable, LatestConfig;
    var e := h.log.entries[k];
    CommitIsStable(net, s, v, h, k);
    DepartedFine(net, s, v, h, k);
    EntryIsUserData(net, s, v, h, k);
    var d := Departed(h, k);
    var ev := Delivered(k, e.message.body.data);
    assert CommitEntry(h, k) == Callback(d, ev);
    CallbackFine(net, s, v, d, ev);
    CallbackKeepsPosition(d, ev);
    EventAppended(h.events, ev, {});
  }

  lemma CallbackKeepsPosition(h: HubState, e: Event)
    requires Sound(h) && EventOk(h, e) && !Callback(h, e).wrapped
    ensures Callback(h, e).log.lastCommitted == h.log.lastCommitted
  {
    hide Sound, Callback, EventOk;
    CallbackKeeps(h, e);
  }

  lemma FrontAdvances(net: Net, s: Flood, v: Uuid, h: HubState, k: MessageId)
    requires FineAt(net, s, v, h, {}) && IsMin(h.log.entries.Keys, k) && h.log.entries[k].message.body.UserData?
    requires !CommitEntry(h, k).wrapped
    ensures AtFront(CommitEntry(h, k), Next(h.log.entries.Keys, k))
  {
    hide NetFine, Valid, ConsumedOk, DeliveredOk, PostedOk, ConfigsOk, MembershipOk, Knowing, CommitEntry, Work,
         SeenComplete, EnteredFine;
    CommitEntryKeeps(h, k);
    NextIsFront(h, k, CommitEntry(h, k));
  }

  lemma {:induction false} LoopFine(net: Net, s: Flood, v: Uuid, h: HubState, cursor: Option<MessageId>)
    requires FineAt(net, s, v, h, {}) && AtFront(h, cursor)
    requires !Loop(h, cursor, None, net.members).wrapped
    ensures var h' := Loop(h, cursor, None, net.members);
            && FineAt(net, Upd(s, v, h'), v, h', {}) && Extends(s, Upd(s, v, h'))
            && (AllDelivered(h) ==> AllDelivered(h'))
    decreases Work(h)
  {
    hide NetFine, Fine, Extends, CommitEntry, Work, AllDelivered, Blocked;
    FineUpd(net, s, v, h, {});
    ExtendsReflexive(s);
    if cursor.Some? {
      var k := cursor.value;
      EntryIsUserData(net, s, v, h, k);
      if Judge(h, k, None, net.members).Commit? {
        var h1 := CommitEntry(h, k);
        var next := Next(h.log.entries.Keys, k);
        assert Loop(h, cursor, None, net.members) == Loop(h1, next, None, net.members);
        CommitEntryFine(net, s, v, h, k);
        FrontAdvances(net, s, v, h, k);
        LoopFine(net, Upd(s, v, h1), v, h1, next);
        var h' := Loop(h1, next, None, net.members);
        UpdUpd(s, v, h1, h');
        ExtendsTransitive(s, Upd(s, v, h1), Upd(s, v, h'));
      }
    }
  }

  lemma NoFuses(net: Net, s: Flood, v: Uuid, h: HubState)
    requires FineAt(net, s, v, h, {})
    ensures LastCommittableFuse(h.log) == None && LiveNodes(h) == net.members
  {
    hide NetFine, Sound, MembershipOk, LogAcksFine, Stable, SeenSound, EventsFine, SeenComplete, EnteredFine, Says,
         LatestConfig;
    assert FuseIds(h.log) == {};
  }

  /** The commit loop keeps everything known about the network. */
  lemma CommitFine(net: Net, s: Flood, v: Uuid, h: HubState)
    requires FineAt(net, s, v, h, {}) && !CommitWhatWasSeenByEveryone(h).wrapped
    ensures var h' := CommitWhatWasSeenByEveryone(h);
            && FineAt(net, Upd(s, v, h'), v, h', {}) && Extends(s, Upd(s, v, h'))
            && (AllDelivered(h) ==> AllDelivered(h'))
  {
    hide NetFine, Fine, Extends, Loop, AllDelivered, LastCommittableFuse, LiveNodes;
    NoFuses(net, s, v, h);
    LoopFine(net, s, v, h, First(h.log.entries.Keys));
  }

  // ----- receiving

  lemma AdvanceExtends(s: Flood, u: Uuid, v: Uuid)
    ensures Extends(s, Advance(s, u, v))
  {
    assert forall q :: Has(Advance(s, u, v), q) == Has(s, q);
  }

  /** A genuine copy carries its poster's body, so what holds of posted messages holds of it. */
  lemma CopyShape(net: Net, s: Flood, v: Uuid, m: Message)
    requires NetFine(net, s) && Genuine(s, m)
    ensures m.op in net.members && WellFormed(m) && !m.body.Fuse?
    ensures m.body.ack.neighbors == LinksOf(net, m.op) + {m.op}
    ensures m.body.Ack? ==> m.body.ack.acked.ts < m.ts
    ensures m.ts <= FlowOf(s, m.op).clock && m.Id() in IdsOf(Posted(s, m.op))
    ensures m.body.UserData? ==> Says(s, m.Id(), m.body.data)
  {
    assert m.Original() in Posted(s, m.op);
    assert m.op in s.flows;
    assert PostedFine(m.op, FlowOf(s, m.op).clock, Posted(s, m.op));
    assert PostedShape(net, m.op, Posted(s, m.op));
    assert m.Original().Id() == m.Id();
  }

  /** `SeenMessages` tells duplicates from new messages exactly. */
  lemma SeenIsExact(net: Net, s: Flood, v: Uuid, h: HubState, m: Message)
    requires FineAt(net, s, v, h, {}) && Genuine(s, m) && m.op != v
    ensures IsIn(h.seen, m.Id()) <==> m.Id() in Has(s, v)
    ensures IsIn(h.seen, m.Id()) <==> m.Id() in IdsOf(Received(s, v))
  {
    hide Sound, MembershipOk, LogAcksFine, EntriesFine, Stable, EventsFine, EnteredFine, IsIn, Shapes, WellConnected;
    CopyShape(net, s, v, m);
    assert PostedFine(v, FlowOf(s, v).clock, Posted(s, v));
  }

  lemma AcceptIsStep(net: Net, s: Flood, u: Uuid, v: Uuid, h: HubState)
    requires CanTake(net, s, u, v) && FlowOf(s, v) == Wire(h) && StaticHub(net, v, h) &&
             Front(s, u, v).op in net.members
    ensures Upd(Advance(s, u, v), v, Accept(h, Front(s, u, v))) == AcceptStep(net, s, u, v)
  {
    var m := Front(s, u, v);
    assert Note(h, m).nodes == h.nodes;
    assert Connected(Note(h, m).(received := h.received + [m])) == LinksOf(net, v);
  }

  lemma AcceptSeen(net: Net, s: Flood, u: Uuid, v: Uuid, seen: SeenState)
    requires CanTake(net, s, u, v) && Front(s, u, v).ts <= FlowOf(s, Front(s, u, v).op).clock
    requires SeenSound(net, s, v, seen) && SeenComplete(s, v, seen)
    ensures var s' := AcceptStep(net, s, u, v);
            var seen' := Insert(seen, Front(s, u, v).Id());
            SeenSound(net, s', v, seen') && SeenComplete(s', v, seen')
  {
    var m := Front(s, u, v);
    var s' := AcceptStep(net, s, u, v);
    AcceptExtends(net, s, u, v);
    SeenSoundStable(net, s, s', v, seen);
    AcceptFacts(net, s, u, v, v, v);
    assert Grew(s, s', m.op);
    forall x
      ensures IsIn(Insert(seen, m.Id()), x) <==> IsIn(seen, x) || x == m.Id()
    {
      InsertDenotes(seen, m.Id(), x);
    }
  }

  lemma AcceptShapes(net: Net, s: Flood, u: Uuid, v: Uuid)
    requires CanTake(net, s, u, v) && Shapes(net, s)
    ensures Shapes(net, AcceptStep(net, s, u, v))
  {
    forall q <- net.members
      ensures PostedShape(net, q, Posted(AcceptStep(net, s, u, v), q))
    {
      AcceptFacts(net, s, u, v, q, q);
    }
  }

  lemma AcceptSound(h: HubState, m: Message)
    requires Sound(h) && MembershipOk(h) && !h.wrapped
    ensures Sound(Accept(h, m)) && MembershipOk(Accept(h, m))
  {
    hide Valid, ConsumedOk, DeliveredOk, ConfigsOk, Membership, WellFormed, Broadcast;
  }

  lemma AcceptFine(net: Net, s: Flood, u: Uuid, v: Uuid, h: HubState)
    requires FineAt(net, s, v, h, {}) && CanTake(net, s, u, v) && Front(s, u, v).Id() !in Has(s, v)
    ensures var m := Front(s, u, v);
            var s' := AcceptStep(net, s, u, v);
            && FineAt(net, s', v, Accept(h, m), Outstanding(m))
            && Extends(s, s')
            && s' == Upd(Advance(s, u, v), v, Accept(h, m))
  {
    hide Sound, MembershipOk, Knowing, SeenComplete, EnteredFine, Extends, FloodInv, WellConnected, Shapes,
         CopyFine, WellFormed, Genuine, LatestConfig, Says, IdsOf;
    var m := Front(s, u, v);
    LinkCopies(net, s, u, v);
    CopyShape(net, s, v, m);
    AcceptIsStep(net, s, u, v, h);
    AcceptKeepsFlood(net, s, u, v);
    AcceptShapes(net, s, u, v);
    AcceptExtends(net, s, u, v);
    AcceptSound(h, m);
    AcceptStatic(net, v, h, m);
    AcceptKnowing(net, s, u, v, h);
    AcceptEntered(net, s, u, v, h.entered);
  }

  lemma AcceptStatic(net: Net, v: Uuid, h: HubState, m: Message)
    requires StaticHub(net, v, h) && m.op in net.members
    ensures StaticHub(net, v, Accept(h, m))
  {
    var a := Accept(h, m);
    assert a.nodes == h.nodes && a.configs == h.configs;
    assert LatestConfigId(a) == LatestConfigId(h);
  }

  lemma AcceptKnowing(net: Net, s: Flood, u: Uuid, v: Uuid, h: HubState)
    requires Knowing(net, s, v, h) && SeenComplete(s, v, h.seen) && CanTake(net, s, u, v)
    requires Front(s, u, v).ts <= FlowOf(s, Front(s, u, v).op).clock
    ensures var s', a := AcceptStep(net, s, u, v), Accept(h, Front(s, u, v));
            Knowing(net, s', v, a) && SeenComplete(s', v, a.seen)
  {
    hide LogAcksFine, EntriesFine, Stable, SeenSound, SeenComplete, EventsFine, Extends, AcceptStep, Insert;
    AcceptExtends(net, s, u, v);
    KnowingStable(net, s, AcceptStep(net, s, u, v), v, h);
    AcceptSeen(net, s, u, v, h.seen);
  }

  lemma AcceptEntered(net: Net, s: Flood, u: Uuid, v: Uuid, entered: set<MessageId>)
    requires EnteredFine(s, v, entered, {}) && CanTake(net, s, u, v)
    ensures EnteredFine(AcceptStep(net, s, u, v), v, entered, Outstanding(Front(s, u, v)))
  {
    hide AcceptStep, UserIds, IdsOf, Has;
    UserIdsAppend(Received(s, v), Front(s, u, v));
    AcceptFacts(net, s, u, v, v, v);
  }

  lemma LinkCopies(net: Net, s: Flood, u: Uuid, v: Uuid)
    requires FloodInv(net, s) && CanTake(net, s, u, v)
    ensures CopyFine(s, u, v, Front(s, u, v)) && Front(s, u, v).op != v && Genuine(s, Front(s, u, v))
  {
    assert (u, v) in net.links;
    assert CopiesFine(s, u, v);
    FrontIsCopy(net, s, u, v);
  }

  /** After accepting m, v has heard its poster up to just before m, and up to m. */
  lemma HeardFromReceipt(net: Net, s: Flood, v: Uuid, m: Message, ts: nat)
    requires NetFine(net, s) && v in net.members && m in Received(s, v) && ts <= m.ts
    ensures Heard(s, v, m.op, ts)
  {
    assert ReceiptsFine(s, v);
    CopyShape(net, s, v, m);
    assert m.Id() in IdsOf(Received(s, v));
    assert PostedFine(m.op, FlowOf(s, m.op).clock, Posted(s, m.op));
    forall p <- Posted(s, m.op) | p.ts <= ts
      ensures p.Id() in Has(s, v)
    {
      if p.ts < m.ts {
        assert Earlier(s, p, m);
      } else {
        assert p.Id() == m.Id();
      }
    }
  }

  /** What AcceptFine leaves for the processing of the message. */
  ghost predicate JustReceived(s: Flood, v: Uuid, h: HubState, m: Message) {
    && m in Received(s, v) && Genuine(s, m) && m.ts <= h.clock
    && (m.body.UserData? ==> h.log.lastCommitted.Lt(m.Id()) && m.Id() !in h.log.entries)
  }

  lemma ProcessAckFine(net: Net, s: Flood, v: Uuid, h: HubState, m: Message)
    requires FineAt(net, s, v, h, {}) && JustReceived(s, v, h, m) && m.body.Ack?
    ensures FineAt(net, s, v, Process(h, m), {})
  {
    hide FloodInv, WellConnected, Shapes, Fine, Heard, Genuine, WellFormed;
    CopyShape(net, s, v, m);
    assert v in net.members by { FineMember(net, s, v, h, {}); }
    HeardFromReceipt(net, s, v, m, m.body.ack.acked.ts);
    ApplyAckFine(net, s, v, h, m.op, m.body.ack, {});
  }

  lemma FineMember(net: Net, s: Flood, v: Uuid, h: HubState, out: set<MessageId>)
    requires FineAt(net, s, v, h, out)
    ensures v in net.members && h.id == v && Sound(h)
  {
    hide NetFine, Sound, MembershipOk, Knowing, SeenComplete, EnteredFine;
  }

  lemma ProcessUserDataFine(net: Net, s: Flood, v: Uuid, h: HubState, m: Message)
    requires FineAt(net, s, v, h, {m.Id()}) && JustReceived(s, v, h, m) && m.body.UserData?
    requires !Process(h, m).wrapped
    ensures var h' := Process(h, m);
            FineAt(net, Upd(s, v, h'), v, h', {}) && Extends(s, Upd(s, v, h'))
  {
    hide NetFine, Fine, Heard, Genuine, WellFormed, PostAck, Extends, Says, InsertEntry;
    CopyShape(net, s, v, m);
    FineMember(net, s, v, h, {m.Id()});
    HeardFromReceipt(net, s, v, m, m.ts);
    PostAckFine(net, s, v, h, m.Id(), {m.Id()});
    var h1 := PostAck(h, m.Id());
    var s1 := Upd(s, v, h1);
    HeardStable(s, s1, v, m.op, m.ts);
    SaysStable(s, s1, m.Id(), m.body.data);
    PostAckFrame(h, m.Id());
    AddLogEntryFine(net, s1, v, h1, m);
  }

  lemma PostAckFrame(h: HubState, acked: MessageId)
    requires !PostAck(h, acked).wrapped
    ensures var h' := PostAck(h, acked);
            && h'.log.entries.Keys == h.log.entries.Keys && h'.log.lastCommitted == h.log.lastCommitted
            && h.clock <= h'.clock
  {
    hide Post, PredecessorTime;
  }

  lemma ProcessFine(net: Net, s: Flood, v: Uuid, h: HubState, m: Message)
    requires FineAt(net, s, v, h, Outstanding(m)) && JustReceived(s, v, h, m)
    requires !Process(h, m).wrapped
    ensures var h' := Process(h, m);
            && FineAt(net, Upd(s, v, h'), v, h', {}) && Extends(s, Upd(s, v, h'))
            && (AllDelivered(h) ==> AllDelivered(h'))
  {
    hide NetFine, Fine, Genuine, WellFormed, PostAck, Extends, AddLogEntry, Heard, Says, DeliveredIds,
         CommitWhatWasSeenByEveryone;
    CopyShape(net, s, v, m);
    if m.body.Ack? {
      ProcessAckFine(net, s, v, h, m);
      FineUpd(net, s, v, Process(h, m), {});
      ExtendsReflexive(s);
    } else {
      ProcessUserDataFine(net, s, v, h, m);
    }
  }

  /** A message v does not have yet lies above everything v consumed: nothing arrives late. */
  lemma NotLate(net: Net, s: Flood, v: Uuid, h: HubState, m: Message)
    requires FineAt(net, s, v, h, {}) && Genuine(s, m) && m.Id() !in Has(s, v)
    ensures h.log.lastCommitted.Lt(m.Id()) && m.Id() !in h.log.entries
  {
    hide LogAcksFine, EntriesFine, SeenSound, EventsFine, MembershipOk, Valid, StampsOk, DeliveredOk, PostedOk,
         ConfigsOk, FloodInv, Shapes, WellConnected, SeenComplete, WellFormed, Says;
    CopyShape(net, s, v, m);
    assert Heard(s, v, m.op, h.log.lastCommitted.ts);
    assert m.Original() in Posted(s, m.op) && m.Original().Id() == m.Id();
  }

  /** Delivery of the next message of a link, as the hub handles it. */
  lemma HearFine(net: Net, s: Flood, u: Uuid, v: Uuid, h: HubState)
    requires FineAt(net, s, v, h, {}) && CanTake(net, s, u, v)
    requires !OnRecv(h, Front(s, u, v)).wrapped
    ensures var h' := OnRecv(h, Front(s, u, v));
            var s' := Upd(Advance(s, u, v), v, h');
            && FineAt(net, s', v, h', {}) && Extends(s, s')
            && (AllDelivered(h) ==> AllDelivered(h'))
  {
    hide FloodInv, WellConnected, Shapes, Fine, Genuine, Extends, Accept, Process, CommitWhatWasSeenByEveryone,
         IsIn, Has, CopyFine, DeliveredIds;
    var m := Front(s, u, v);
    var s0 := Advance(s, u, v);
    LinkCopies(net, s, u, v);
    SeenIsExact(net, s, v, h, m);
    FineMember(net, s, v, h, {});
    if IsIn(h.seen, m.Id()) {
      SkipFine(net, s, u, v, h);
    } else {
      AcceptFine(net, s, u, v, h);
      var h1 := Accept(h, m);
      var s1 := AcceptStep(net, s, u, v);
      ReceivedNow(net, s, u, v, h);
      ProcessFine(net, s1, v, h1, m);
      var h2 := Process(h1, m);
      var s2 := Upd(s1, v, h2);
      CommitFine(net, s2, v, h2);
      var h3 := CommitWhatWasSeenByEveryone(h2);
      UpdUpd(s1, v, h2, h3);
      UpdUpd(s0, v, h1, h3);
      ExtendsTransitive(s, s1, s2);
      ExtendsTransitive(s, s2, Upd(s2, v, h3));
    }
  }

  lemma ReceivedNow(net: Net, s: Flood, u: Uuid, v: Uuid, h: HubState)
    requires FineAt(net, s, v, h, {}) && CanTake(net, s, u, v)
    requires Front(s, u, v).Id() !in Has(s, v)
    ensures JustReceived(AcceptStep(net, s, u, v), v, Accept(h, Front(s, u, v)), Front(s, u, v))
    ensures AllDelivered(h) ==> AllDelivered(Accept(h, Front(s, u, v)))
  {
    hide NetFine, Fine, Has, CopyFine, DeliveredIds;
    var m := Front(s, u, v);
    assert CopyFine(s, u, v, m) && Genuine(s, m) by { NetLinkCopies(net, s, u, v); }
    NotLate(net, s, v, h, m);
    AcceptFacts(net, s, u, v, v, v);
    AcceptFacts(net, s, u, v, m.op, m.op);
  }

  lemma NetLinkCopies(net: Net, s: Flood, u: Uuid, v: Uuid)
    requires NetFine(net, s) && CanTake(net, s, u, v)
    ensures CopyFine(s, u, v, Front(s, u, v)) && Front(s, u, v).op != v && Genuine(s, Front(s, u, v))
  {
    hide FloodInv, Shapes, WellConnected, CopyFine, Genuine;
    LinkCopies(net, s, u, v);
  }

  lemma SkipFine(net: Net, s: Flood, u: Uuid, v: Uuid, h: HubState)
    requires FineAt(net, s, v, h, {}) && CanTake(net, s, u, v) && Front(s, u, v).Id() in Has(s, v)
    ensures var s' := Upd(Advance(s, u, v), v, h);
            FineAt(net, s', v, h, {}) && Extends(s, s')
  {
    hide FloodInv, WellConnected, Fine, Extends, Has;
    var s0 := Advance(s, u, v);
    SkipKeepsFlood(net, s, u, v);
    AdvanceExtends(s, u, v);
    assert forall q :: Posted(s0, q) == Posted(s, q);
    OthersFine(net, s, s0, v, h);
    FineUpd(net, s0, v, h, {});
  }
}
