/** Two new hubs that meet become a network with static membership: the handlers of both, run on each other's
    messages, lead to a state that StaticRuns starts from. */
module Fusing {
  import opened Basics
  import opened MessageIds
  import opened Messages
  import opened Graphs
  import opened Logs
  import opened Seen
  import opened Hubs
  import opened HubOrder
  import opened Flooding
  import opened StaticOrder
  import opened StaticRuns

  // ----- what they construct

  /** Hub u asks for a configuration with w. */
  function FuseOf(u: Uuid, w: Uuid): Message {
    Message(u, 1, MessageId(0, u), {u}, Fuse(AckData(MessageId(1, u), NO_MESSAGE, {u, w}), w))
  }

  /** Hub a, which has the smaller id, acknowledges the fuse of b. */
  function AckOf(a: Uuid, b: Uuid): Message {
    Message(a, 2, MessageId(0, a), {a}, Ack(AckData(MessageId(1, b), MessageId(1, a), {a, b})))
  }

  function FuseEntry(u: Uuid, w: Uuid, preds: set<MessageId>, acks: map<Uuid, AckData>): LogEntry {
    LogEntry(Spent(NewEntry(FuseOf(u, w))).message, preds, {u, w}, acks)
  }

  function OwnAcks(u: Uuid, w: Uuid): map<Uuid, AckData> {
    map[u := FuseOf(u, w).body.ack]
  }

  function BothAcks(a: Uuid, b: Uuid): map<Uuid, AckData> {
    map[b := FuseOf(b, a).body.ack, a := AckOf(a, b).body.ack]
  }

  // ----- meeting

  /** The log of u once its own fuse is in it. */
  function MetLog(u: Uuid, w: Uuid): LogState {
    EMPTY_LOG.(entries := map[MessageId(1, u) := FuseEntry(u, w, {NO_MESSAGE}, OwnAcks(u, w))])
  }

  function Met(u: Uuid, w: Uuid): HubState {
    NewHub(u).(clock := 1, nodes := map[u := false, w := true], log := MetLog(u, w),
               posted := [FuseOf(u, w)], basis := [{}],
               sent := map[w := [FuseOf(u, w)]], entered := {MessageId(1, u)}, events := [Fused(w)])
  }

  lemma InsertFirst(u: Uuid, w: Uuid)
    ensures InsertEntry(EMPTY_LOG, FuseOf(u, w)) == MetLog(u, w)
  {
    var m := FuseOf(u, w);
    var l := LinkIn(EMPTY_LOG, m);
    assert Below({}, m.Id()) == {} && Above({}, m.Id()) == {};
    assert {} + {NO_MESSAGE} + {} == {NO_MESSAGE};
    assert l.entries == map[m.Id() := NewEntry(m).(predecessors := {NO_MESSAGE})];
    NothingPending(l, m.Id());
    var e := WithAck(l.entries[m.Id()], u, m.body.ack);
    assert e.quorum == {u, w} && e.predecessors == {NO_MESSAGE} && e.acks == OwnAcks(u, w);
    assert InsertEntry(EMPTY_LOG, m).entries == map[m.Id() := Spent(e)];
  }

  lemma NewHubConfig(u: Uuid)
    ensures LatestConfigId(NewHub(u)) == MessageId(0, u)
  {
    assert IsMax(NewHub(u).configs.Keys, MessageId(0, u));
  }

  lemma Constructs(u: Uuid, w: Uuid)
    requires u != w
    ensures var h := NewHub(u).(nodes := map[u := false, w := true]);
            && AckableMessage(h, Join(w)) == FuseOf(u, w)
            && Connected(h) == {w}
  {
    NewHubConfig(u);
    var h := NewHub(u).(nodes := map[u := false, w := true]);
    assert LatestConfigId(h) == MessageId(0, u);
    assert Neighbors(h) == {u, w};
  }

  lemma SendsOne(w: Uuid, ms: seq<Message>, m: Message)
    ensures Enqueue(map[w := ms], {w}, m) == map[w := ms + [m]]
    ensures Enqueue(map[], {w}, m) == map[w := [m]]
  {
    assert Enqueue(map[w := ms], {w}, m).Keys == {w};
    assert QueueTo(map[w := ms], w) == ms;
    var none: map<Uuid, seq<Message>> := map[];
    assert Enqueue(none, {w}, m).Keys == {w};
    assert Enqueue(none, {w}, m)[w] == [] + [m] == [m];
  }

  /** Hub u, connected to w alone, posts a message of its own. */
  lemma PostsToPartner(h: HubState, w: Uuid, m: Message)
    requires Connected(h) == {w} && w != h.id && m.visited == {h.id}
    ensures Post(h, m) == Tick(h).(posted := h.posted + [m], basis := h.basis + [h.log.entries.Keys],
                                   sent := Enqueue(h.sent, {w}, m))
  {
    hide Enqueue;
    assert Connected(Tick(h).(posted := h.posted + [m], basis := h.basis + [h.log.entries.Keys])) - m.visited == {w};
  }

  lemma Announces(u: Uuid, w: Uuid)
    requires u != w
    ensures PostAckable(NewHub(u).(nodes := map[u := false, w := true]), Join(w)) == Met(u, w).(events := [])
  {
    hide InsertEntry, AckableMessage, LatestConfigId, Enqueue, Connected, Post, MetLog;
    var h := NewHub(u).(nodes := map[u := false, w := true]);
    Constructs(u, w);
    InsertFirst(u, w);
    var m := FuseOf(u, w);
    PostsToPartner(h, w, m);
    SendsOne(w, [], m);
    assert [] + [m] == [m] && {} + {m.Id()} == {m.Id()};
  }

  /** Nothing is committable while each fuse has only its poster's acknowledgement. */
  lemma Waits(h: HubState)
    requires forall k <- h.log.entries.Keys :: h.log.entries[k].message.body.Fuse? && !h.log.entries[k].AckedByQuorum()
    ensures CommitWhatWasSeenByEveryone(h) == h
  {
    assert CommittableFuses(h.log) == {};
  }

  lemma Meets(u: Uuid, w: Uuid)
    requires u != w
    ensures Do(NewHub(u), Meet(w), []) == Met(u, w)
  {
    hide PostAckable, CommitWhatWasSeenByEveryone;
    var h := NewHub(u);
    assert h.(script := []) == h;
    assert h.nodes[w := true] == map[u := false, w := true];
    Announces(u, w);
    assert Callback(Met(u, w).(events := []), Fused(w)) == Met(u, w) by { assert [] + [Fused(w)] == [Fused(w)]; }
    assert w !in OwnAcks(u, w);
    Waits(Met(u, w));
  }

  // ----- hearing the fuse of the other

  /** Both fuses are in the log, a's own with nothing new, b's with the given acknowledgements. */
  function FusedLog(a: Uuid, b: Uuid, acks: map<Uuid, AckData>): LogState {
    EMPTY_LOG.(entries := map[MessageId(1, a) := FuseEntry(a, b, {NO_MESSAGE}, OwnAcks(a, b)),
                              MessageId(1, b) := FuseEntry(b, a, {NO_MESSAGE, MessageId(1, a)}, acks)])
  }

  /** Hub a, with the smaller id, puts b's fuse behind its own. */
  lemma InsertBehind(a: Uuid, b: Uuid)
    requires a < b
    ensures InsertEntry(MetLog(a, b), FuseOf(b, a)) == FusedLog(a, b, OwnAcks(b, a))
  {
    var m, ka := FuseOf(b, a), MessageId(1, a);
    var l0 := MetLog(a, b);
    var l := LinkIn(l0, m);
    assert l0.entries.Keys == {ka};
    assert Below({ka}, m.Id()) == {ka} && Above({ka}, m.Id()) == {};
    assert MaxOf({ka}) == ka;
    assert {} + ({NO_MESSAGE} + {ka}) == {NO_MESSAGE, ka};
    assert l.entries == l0.entries[m.Id() := NewEntry(m).(predecessors := {NO_MESSAGE, ka})];
    NothingPending(l, m.Id());
    var e := WithAck(l.entries[m.Id()], b, m.body.ack);
    assert e.quorum == {b, a} && e.predecessors == {NO_MESSAGE, ka} && e.acks == OwnAcks(b, a);
    assert InsertEntry(l0, m).entries == l0.entries[m.Id() := Spent(e)];
    assert InsertEntry(l0, m).entries == FusedLog(a, b, OwnAcks(b, a)).entries;
  }

  /** Hub b puts a's fuse before its own, which records the new predecessor. */
  lemma InsertBefore(a: Uuid, b: Uuid)
    requires a < b
    ensures InsertEntry(MetLog(b, a), FuseOf(a, b)) == FusedLog(a, b, OwnAcks(b, a))
  {
    var m, kb := FuseOf(a, b), MessageId(1, b);
    var l0 := MetLog(b, a);
    var l := LinkIn(l0, m);
    assert l0.entries.Keys == {kb};
    assert Below({kb}, m.Id()) == {} && Above({kb}, m.Id()) == {kb};
    assert MinOf({kb}) == kb;
    assert {} + ({NO_MESSAGE} + {}) == {NO_MESSAGE};
    assert {NO_MESSAGE} + {m.Id()} == {NO_MESSAGE, m.Id()};
    var eb := FuseEntry(b, a, {NO_MESSAGE, m.Id()}, OwnAcks(b, a));
    assert l.entries == map[m.Id() := NewEntry(m).(predecessors := {NO_MESSAGE}), kb := eb];
    NothingPending(l, m.Id());
    var e := WithAck(l.entries[m.Id()], a, m.body.ack);
    assert e.quorum == {a, b} && e.predecessors == {NO_MESSAGE} && e.acks == OwnAcks(a, b);
    assert InsertEntry(l0, m).entries == map[m.Id() := Spent(e), kb := eb];
  }

  /** The acknowledgement of b's fuse by a completes its quorum. */
  lemma AckCompletes(a: Uuid, b: Uuid)
    requires a < b
    ensures ApplyAck(FusedLog(a, b, OwnAcks(b, a)), a, AckOf(a, b).body.ack) == FusedLog(a, b, BothAcks(a, b))
  {
    var l, kb, ack := FusedLog(a, b, OwnAcks(b, a)), MessageId(1, b), AckOf(a, b).body.ack;
    var e := WithAck(l.entries[kb], a, ack);
    assert e.quorum == {b, a} && e.predecessors == {NO_MESSAGE, MessageId(1, a)} && e.acks == BothAcks(a, b);
    assert l.entries[kb := e] == FusedLog(a, b, BothAcks(a, b)).entries;
  }

  // ----- committing it

  /** A hub that was alone has both fuses in its log, and the greater one is acknowledged by both. */
  ghost predicate Ready(h: HubState, a: Uuid, b: Uuid, u: Uuid) {
    && a < b && u in {a, b} && h.id == u
    && h.log == FusedLog(a, b, BothAcks(a, b)) && h.script == []
    && h.configs == map[MessageId(0, u) := {u}] && h.nodes.Keys == {a, b}
  }

  /** The log once the smaller fuse is discarded. */
  function LaterLog(a: Uuid, b: Uuid): LogState {
    LogState(map[MessageId(1, b) := FuseEntry(b, a, {NO_MESSAGE, MessageId(1, a)}, BothAcks(a, b))],
             NO_MESSAGE, MessageId(1, a), map[])
  }

  function CommittedLog(b: Uuid): LogState {
    EMPTY_LOG.(lastFuseCommit := MessageId(1, b), lastCommitted := MessageId(1, b))
  }

  lemma Chooses(h: HubState, a: Uuid, b: Uuid, u: Uuid)
    requires Ready(h, a, b, u)
    ensures LastCommittableFuse(h.log) == Some(MessageId(1, b)) && LiveNodes(h) == {a, b}
    ensures First(h.log.entries.Keys) == Some(MessageId(1, a))
    ensures MessageIds.Next(h.log.entries.Keys, MessageId(1, a)) == Some(MessageId(1, b))
  {
    var ka, kb := MessageId(1, a), MessageId(1, b);
    assert h.log.entries.Keys == {ka, kb};
    assert b !in h.log.entries[ka].acks;
    assert CommittableFuses(h.log) == {kb};
    assert IsMin({ka, kb}, ka);
    assert Above({ka, kb}, ka) == {kb};
  }

  lemma Discards(h: HubState, a: Uuid, b: Uuid, u: Uuid)
    requires Ready(h, a, b, u)
    ensures var ka, kb := MessageId(1, a), MessageId(1, b);
            && Judge(h, ka, Some(kb), {a, b}) == Discard
            && TakeOut(h, ka) == h.(log := LaterLog(a, b), consumed := h.consumed + [ka])
  {
    hide Work;
    var ka := MessageId(1, a);
    assert b in h.log.entries[ka].quorum && b !in h.log.entries[ka].acks;
    assert h.log.entries - {ka} == LaterLog(a, b).entries;
  }

  lemma Agrees(h: HubState, a: Uuid, b: Uuid, u: Uuid)
    requires Ready(h.(log := FusedLog(a, b, BothAcks(a, b))), a, b, u) && h.log == LaterLog(a, b)
    ensures Judge(h, MessageId(1, b), Some(MessageId(1, b)), {a, b}) == Commit
    ensures MessageIds.Next(h.log.entries.Keys, MessageId(1, b)) == None
  {
    var ka, kb := MessageId(1, a), MessageId(1, b);
    var e := h.log.entries[kb];
    assert IsMax(e.predecessors, ka);
    assert h.log.entries.Keys == {kb} && Above({kb}, kb) == {};
  }

  function Partner(a: Uuid, b: Uuid, u: Uuid): Uuid {
    if u == a then b else a
  }

  /** What a hub is after the commit. */
  ghost function Paired(h: HubState, a: Uuid, b: Uuid, u: Uuid): HubState {
    var kb := MessageId(1, b);
    h.(log := CommittedLog(b), consumed := h.consumed + [kb], seen := SeenEverythingUpTo(h.seen, kb),
       configs := h.configs[kb := {b, a}], routing := AcksToGraph(BothAcks(a, b)),
       events := h.events + [Inserted({Partner(a, b, u)})])
  }

  lemma Installs(h: HubState, a: Uuid, b: Uuid, u: Uuid)
    requires Ready(h.(log := FusedLog(a, b, BothAcks(a, b))), a, b, u) && h.log == LaterLog(a, b)
    ensures CommitEntry(h, MessageId(1, b)) == Paired(h, a, b, u)
  {
    hide Work, SeenEverythingUpTo, AcksToGraph;
    var kb := MessageId(1, b);
    var e := h.log.entries[kb];
    var d := Departed(h, kb);
    assert h.log.entries - {kb} == map[];
    assert d == h.(log := CommittedLog(b), consumed := h.consumed + [kb], seen := SeenEverythingUpTo(h.seen, kb));
    assert IsMax(d.configs.Keys, MessageId(0, u));
    assert LatestConfig(d) == {u};
    assert e.quorum - {u} == {Partner(a, b, u)} && {u} - e.quorum == {};
    assert d.seen - {} == d.seen && d.nodes - {} == d.nodes;
  }

  lemma CommitsFuse(h: HubState, a: Uuid, b: Uuid, u: Uuid)
    requires Ready(h, a, b, u)
    ensures CommitWhatWasSeenByEveryone(h) == Paired(h.(consumed := h.consumed + [MessageId(1, a)]), a, b, u)
  {
    hide Work, Judge, CommitEntry, TakeOut, LastCommittableFuse, LiveNodes, SeenEverythingUpTo, AcksToGraph;
    var ka, kb := MessageId(1, a), MessageId(1, b);
    Chooses(h, a, b, u);
    Discards(h, a, b, u);
    var h1 := TakeOut(h, ka);
    assert h1.(log := FusedLog(a, b, BothAcks(a, b))) == h.(consumed := h1.consumed);
    Agrees(h1, a, b, u);
    Installs(h1, a, b, u);
    var h2 := CommitEntry(h1, kb);
    assert Loop(h, Some(ka), Some(kb), {a, b}) == Loop(h1, Some(kb), Some(kb), {a, b});
    assert Loop(h1, Some(kb), Some(kb), {a, b}) == Loop(h2, None, None, {a, b}) == h2;
  }

  // ----- the handlers

  /** A first receipt from the only partner is not forwarded. */
  lemma AcceptsQuietly(h: HubState, w: Uuid, m: Message)
    requires Connected(h) == {w} && m.op == w && m.visited == {w} && w in h.nodes && w != h.id
    ensures Accept(h, m) ==
            h.(seen := Insert(h.seen, m.Id()), clock := Max(h.clock, m.ts), received := h.received + [m])
  {
    hide Enqueue, Insert;
    var n := Note(h, m).(received := h.received + [m]);
    assert Connected(n) - (m.visited + {h.id}) == {};
    EnqueueNothing(h.sent, m.(visited := m.visited + {h.id}));
  }

  lemma MetConnected(u: Uuid, w: Uuid, h: HubState)
    requires u != w && h.id == u && h.nodes == map[u := false, w := true]
    ensures Connected(h) == {w} && Neighbors(h) == {u, w}
  {
  }

  lemma GreatestFuse(h: HubState, a: Uuid, b: Uuid, acks: map<Uuid, AckData>)
    requires a < b && h.log == FusedLog(a, b, acks)
    ensures FuseIds(h.log) == {MessageId(1, a), MessageId(1, b)} && MaxOf(FuseIds(h.log)) == MessageId(1, b)
    ensures PredecessorTime(h.log, MessageId(1, b)) == MessageId(1, a)
  {
    var ka, kb := MessageId(1, a), MessageId(1, b);
    assert FuseIds(h.log) == {ka, kb};
    assert IsMax({ka, kb}, kb);
    assert h.log.entries.Keys == {ka, kb} && Below({ka, kb}, kb) == {ka};
  }

  /** Hub a after it put b's fuse behind its own. */
  ghost function Took(h: HubState, u: Uuid, w: Uuid, l: LogState): HubState {
    var m := FuseOf(w, u);
    h.(seen := Insert(h.seen, m.Id()), received := [m], log := l, entered := h.entered + {m.Id()})
  }

  lemma Takes(u: Uuid, w: Uuid, l: LogState)
    requires u != w && InsertEntry(MetLog(u, w), FuseOf(w, u)) == l
    ensures AddLogEntry(Accept(Met(u, w), FuseOf(w, u)), FuseOf(w, u)) == Took(Met(u, w), u, w, l)
  {
    hide InsertEntry, Accept, Insert, Connected, MetLog;
    MetConnected(u, w, Met(u, w));
    AcceptsQuietly(Met(u, w), w, FuseOf(w, u));
    assert MetLog(u, w).lastCommitted == NO_MESSAGE by { EmptyPosition(u, w); }
  }

  lemma EmptyPosition(u: Uuid, w: Uuid)
    ensures MetLog(u, w).lastCommitted == NO_MESSAGE
  {
  }

  lemma AcksFuse(h: HubState, a: Uuid, b: Uuid)
    requires a < b && h.id == a && h.nodes == map[a := false, b := true] && h.clock == 1 && !h.wrapped
    requires h.configs == map[MessageId(0, a) := {a}] && h.log == FusedLog(a, b, OwnAcks(b, a))
    requires h.sent == map[b := [FuseOf(a, b)]]
    ensures PostAck(h, MessageId(1, b)) ==
            h.(clock := 2, log := FusedLog(a, b, BothAcks(a, b)), posted := h.posted + [AckOf(a, b)],
               basis := h.basis + [{MessageId(1, a), MessageId(1, b)}],
               sent := map[b := [FuseOf(a, b), AckOf(a, b)]])
  {
    hide ApplyAck, FusedLog, BothAcks, PredecessorTime, Connected, Post, Enqueue;
    MetConnected(a, b, h);
    GreatestFuse(h, a, b, OwnAcks(b, a));
    assert IsMax(h.configs.Keys, MessageId(0, a));
    assert AckMessage(h, MessageId(1, b)) == AckOf(a, b);
    PostsToPartner(h, b, AckOf(a, b));
    SendsOne(b, [FuseOf(a, b)], AckOf(a, b));
    assert [FuseOf(a, b)] + [AckOf(a, b)] == [FuseOf(a, b), AckOf(a, b)];
    AckCompletes(a, b);
    FusedKeys(a, b, OwnAcks(b, a));
  }

  lemma FusedKeys(a: Uuid, b: Uuid, acks: map<Uuid, AckData>)
    ensures FusedLog(a, b, acks).entries.Keys == {MessageId(1, a), MessageId(1, b)}
  {
  }

  /** Hub a when it has heard b's fuse and acknowledged it. */
  ghost function AckedAt(a: Uuid, b: Uuid): HubState {
    Took(Met(a, b), a, b, FusedLog(a, b, BothAcks(a, b))).(
      clock := 2, posted := [FuseOf(a, b), AckOf(a, b)], basis := [{}, {MessageId(1, a), MessageId(1, b)}],
      sent := map[b := [FuseOf(a, b), AckOf(a, b)]])
  }

  /** Hub b when it has heard both of a's messages. */
  ghost function AckedThere(a: Uuid, b: Uuid): HubState {
    var t := Took(Met(b, a), b, a, FusedLog(a, b, BothAcks(a, b)));
    t.(clock := 2, seen := Insert(t.seen, MessageId(2, a)), received := [FuseOf(a, b), AckOf(a, b)])
  }

  /** A hub that commits both fuses in the handler it is in. */
  ghost function Committed(h: HubState, a: Uuid, b: Uuid, u: Uuid): HubState {
    Paired(h.(consumed := [MessageId(1, a)]), a, b, u)
  }

  lemma CommitsAll(h: HubState, a: Uuid, b: Uuid, u: Uuid)
    requires Ready(h, a, b, u) && h.consumed == []
    ensures CommitWhatWasSeenByEveryone(h) == Committed(h, a, b, u)
    ensures CommitWhatWasSeenByEveryone(Committed(h, a, b, u)) == Committed(h, a, b, u)
  {
    hide CommitWhatWasSeenByEveryone, SeenEverythingUpTo, AcksToGraph, Ready;
    CommitsFuse(h, a, b, u);
    assert [] + [MessageId(1, a)] == [MessageId(1, a)];
    Waits(Committed(h, a, b, u));
  }

  lemma FirstHears(a: Uuid, b: Uuid)
    requires a < b
    ensures Do(Met(a, b), Hear(FuseOf(b, a)), []) == Committed(AckedAt(a, b), a, b, a)
  {
    hide CommitWhatWasSeenByEveryone, Accept, AddLogEntry, PostAck, FusedLog, MetLog, BothAcks, Insert, Paired, MaxOf,
         FuseIds;
    var h, m := Met(a, b), FuseOf(b, a);
    var own := FusedLog(a, b, OwnAcks(b, a));
    assert h.(script := []) == h;
    InsertBehind(a, b);
    Takes(a, b, own);
    var t := Took(h, a, b, own);
    GreatestFuse(t, a, b, OwnAcks(b, a));
    AcksFuse(t, a, b);
    assert [FuseOf(a, b)] + [AckOf(a, b)] == [FuseOf(a, b), AckOf(a, b)];
    assert PostAck(t, m.Id()) == AckedAt(a, b);
    assert AckedAt(a, b).nodes.Keys == {a, b};
    CommitsAll(AckedAt(a, b), a, b, a);
  }

  lemma SecondHearsFuse(a: Uuid, b: Uuid)
    requires a < b
    ensures Do(Met(b, a), Hear(FuseOf(a, b)), []) == Took(Met(b, a), b, a, FusedLog(a, b, OwnAcks(b, a)))
  {
    hide CommitWhatWasSeenByEveryone, Accept, AddLogEntry, PostAck, FusedLog, MetLog, BothAcks, Insert, MaxOf, FuseIds;
    var h := Met(b, a);
    var own := FusedLog(a, b, OwnAcks(b, a));
    assert h.(script := []) == h;
    InsertBefore(a, b);
    Takes(b, a, own);
    var t := Took(h, b, a, own);
    GreatestFuse(t, a, b, OwnAcks(b, a));
    NotReady(a, b);
    Waits(t);
  }

  lemma NotReady(a: Uuid, b: Uuid)
    requires a < b
    ensures forall k <- FusedLog(a, b, OwnAcks(b, a)).entries.Keys ::
              var e := FusedLog(a, b, OwnAcks(b, a)).entries[k];
              e.message.body.Fuse? && !e.AckedByQuorum()
  {
    assert b !in OwnAcks(a, b) && a !in OwnAcks(b, a);
  }

  lemma SecondHearsAck(a: Uuid, b: Uuid)
    requires a < b
    ensures Do(Took(Met(b, a), b, a, FusedLog(a, b, OwnAcks(b, a))), Hear(AckOf(a, b)), []) ==
            Committed(AckedThere(a, b), a, b, b)
  {
    hide CommitWhatWasSeenByEveryone, Accept, FusedLog, MetLog, BothAcks, Paired, ApplyAck, Connected;
    var t, m := Took(Met(b, a), b, a, FusedLog(a, b, OwnAcks(b, a))), AckOf(a, b);
    assert t.(script := []) == t;
    MetConnected(b, a, t);
    AcceptsQuietly(t, a, m);
    AckCompletes(a, b);
    assert [FuseOf(a, b)] + [m] == [FuseOf(a, b), m];
    assert Process(Accept(t, m), m) == AckedThere(a, b);
    assert AckedThere(a, b).nodes.Keys == {a, b};
    CommitsAll(AckedThere(a, b), a, b, b);
  }

  // ----- the two runs

  ghost function FirstTurns(a: Uuid, b: Uuid): seq<Turn> {
    [Turn(Meet(b), []), Turn(Hear(FuseOf(b, a)), [])]
  }

  ghost function SecondTurns(a: Uuid, b: Uuid): seq<Turn> {
    [Turn(Meet(a), []), Turn(Hear(FuseOf(a, b)), []), Turn(Hear(AckOf(a, b)), [])]
  }

  lemma RunNext(id: Uuid, turns: seq<Turn>, t: Turn)
    ensures Run(id, turns + [t]) == Do(Run(id, turns), t.step, t.script)
  {
    assert (turns + [t])[..|turns + [t]| - 1] == turns;
  }

  lemma FirstRun(a: Uuid, b: Uuid)
    requires a < b
    ensures Run(a, FirstTurns(a, b)) == Committed(AckedAt(a, b), a, b, a)
  {
    hide Do, Met, AckedAt, Committed, Run;
    assert Run(a, []) == NewHub(a) by { NoTurns(a); }
    RunNext(a, [], Turn(Meet(b), []));
    assert [] + [Turn(Meet(b), [])] == [Turn(Meet(b), [])];
    RunNext(a, [Turn(Meet(b), [])], Turn(Hear(FuseOf(b, a)), []));
    assert [Turn(Meet(b), [])] + [Turn(Hear(FuseOf(b, a)), [])] == FirstTurns(a, b);
    Meets(a, b);
    FirstHears(a, b);
  }

  lemma NoTurns(id: Uuid)
    ensures Run(id, []) == NewHub(id)
  {
  }

  lemma SecondRun(a: Uuid, b: Uuid)
    requires a < b
    ensures Run(b, SecondTurns(a, b)) == Committed(AckedThere(a, b), a, b, b)
  {
    hide Do, Met, AckedThere, Committed, Run, Took;
    assert Run(b, []) == NewHub(b) by { NoTurns(b); }
    var t0, t1, t2 := Turn(Meet(a), []), Turn(Hear(FuseOf(a, b)), []), Turn(Hear(AckOf(a, b)), []);
    RunNext(b, [], t0);
    assert [] + [t0] == [t0];
    RunNext(b, [t0], t1);
    assert [t0] + [t1] == [t0, t1];
    RunNext(b, [t0, t1], t2);
    assert [t0, t1] + [t2] == SecondTurns(a, b);
    Meets(b, a);
    SecondHearsFuse(a, b);
    SecondHearsAck(a, b);
  }

  // ----- where they arrive

  /** The hub from now on: what it did before is not recorded. No handler reads these records. */
  ghost function Since(h: HubState): HubState {
    h.(posted := [], basis := [], received := [], sent := map[], consumed := [], entered := {})
  }

  lemma SinceSound(h: HubState)
    requires Sound(h) && MembershipOk(h) && h.log.entries == map[] && forall e <- h.events :: !e.Delivered?
    ensures Sound(Since(h)) && MembershipOk(Since(h))
  {
    NothingDelivered(h.events);
    assert PostedIds([]) == [];
  }

  ghost function Pair(a: Uuid, b: Uuid): Net {
    Net({a, b}, {(a, b), (b, a)})
  }

  lemma PairConnected(a: Uuid, b: Uuid)
    requires a != b
    ensures WellConnected(Pair(a, b)) && LinksOf(Pair(a, b), a) == {b} && LinksOf(Pair(a, b), b) == {a}
  {
    var g := LinkGraph(Pair(a, b));
    assert LinksOf(Pair(a, b), a) == {b} && LinksOf(Pair(a, b), b) == {a};
    assert b in g.Peers(a) && a in g.Peers(b);
    ReachesSelf(g, a);
    ReachesSelf(g, b);
    ReachesStep(g, a, a, b);
    ReachesStep(g, b, b, a);
  }

  lemma TurnsOk(a: Uuid, b: Uuid)
    ensures RunOk(FirstTurns(a, b)) && RunOk(SecondTurns(a, b))
  {
  }

  lemma PairedStatic(h: HubState, a: Uuid, b: Uuid, u: Uuid)
    requires a < b && u in {a, b} && h.id == u && h.configs == map[MessageId(0, u) := {u}] && h.late == []
    requires h.nodes == map[u := false, Partner(a, b, u) := true]
    ensures StaticHub(Pair(a, b), u, Since(Committed(h, a, b, u)))
  {
    hide SeenEverythingUpTo, AcksToGraph;
    var r := Since(Committed(h, a, b, u));
    assert IsMax(r.configs.Keys, MessageId(1, b));
    assert LatestConfig(r) == {a, b};
    MetConnected(u, Partner(a, b, u), r);
    PairConnected(a, b);
  }

  lemma PairedStart(h: HubState, a: Uuid, b: Uuid, u: Uuid)
    requires a < b && u in {a, b} && h.id == u && h.configs == map[MessageId(0, u) := {u}] && h.late == [] && !h.wrapped
    requires h.nodes == map[u := false, Partner(a, b, u) := true] && forall e <- h.events :: !e.Delivered?
    requires Inv(Committed(h, a, b, u))
    ensures StartHub(Pair(a, b), u, Since(Committed(h, a, b, u)))
  {
    hide Sound, MembershipOk, StaticHub, SeenEverythingUpTo, AcksToGraph;
    PairedStatic(h, a, b, u);
    SinceSound(Committed(h, a, b, u));
  }

  /** Nothing that was seen lies ahead of the clocks. */
  lemma SeenEarly(seen: SeenState, k: MessageId, x: MessageId)
    requires IsIn(SeenEverythingUpTo(seen, k), x) && k.ts <= 2 && forall y :: IsIn(seen, y) ==> y.ts <= 2
    ensures x.ts <= 2
  {
    CompactionDenotes(seen, k, x);
  }

  lemma FirstFields(a: Uuid, b: Uuid, x: MessageId)
    ensures var h := AckedAt(a, b);
            && h.id == a && h.configs == map[MessageId(0, a) := {a}] && h.late == [] && !h.wrapped && h.clock == 2
            && h.nodes == map[a := false, b := true] && h.events == [Fused(b)]
            && h.sent == map[b := [FuseOf(a, b), AckOf(a, b)]] && h.received == [FuseOf(b, a)]
            && (IsIn(h.seen, x) ==> x.ts <= 2)
  {
    hide FusedLog;
  }

  lemma SecondFields(a: Uuid, b: Uuid, x: MessageId)
    ensures var h := AckedThere(a, b);
            && h.id == b && h.configs == map[MessageId(0, b) := {b}] && h.late == [] && !h.wrapped && h.clock == 2
            && h.nodes == map[b := false, a := true] && h.events == [Fused(a)]
            && h.sent == map[a := [FuseOf(b, a)]] && h.received == [FuseOf(a, b), AckOf(a, b)]
            && (IsIn(h.seen, x) ==> x.ts <= 2)
  {
    hide FusedLog, Insert;
    var t := Took(Met(b, a), b, a, FusedLog(a, b, BothAcks(a, b)));
    InsertDenotes(t.seen, MessageId(2, a), x);
    InsertDenotes(map[], MessageId(1, a), x);
  }

  lemma CommittedFields(h: HubState, a: Uuid, b: Uuid, u: Uuid, x: MessageId)
    requires h.clock == 2 && forall y :: IsIn(h.seen, y) ==> y.ts <= 2
    ensures var r := Committed(h, a, b, u);
            && r.clock == 2 && r.log.lastCommitted.ts == 1 && r.sent == h.sent && r.received == h.received
            && (IsIn(r.seen, x) ==> x.ts <= 2)
  {
    hide SeenEverythingUpTo, IsIn, AcksToGraph;
    if IsIn(SeenEverythingUpTo(h.seen, MessageId(1, b)), x) {
      SeenEarly(h.seen, MessageId(1, b), x);
    }
  }

  /** Two new hubs that meet, and hear everything the other sends, are from then on a static network: they
      committed one configuration and no fuse is left. */
  lemma TwoHubsReachStart(a: Uuid, b: Uuid)
    requires a < b
    ensures var ha, hb := Run(a, FirstTurns(a, b)), Run(b, SecondTurns(a, b));
            && ha.sent == map[b := hb.received] && hb.sent == map[a := ha.received]
            && Start(Pair(a, b), System(map[a := Since(ha), b := Since(hb)], map[]))
  {
    hide Run, FirstTurns, SecondTurns, Committed, AckedAt, AckedThere, StartHub, WellConnected, IsIn, Inv, RunOk;
    FirstRun(a, b);
    SecondRun(a, b);
    TurnsOk(a, b);
    RunInv(a, FirstTurns(a, b));
    RunInv(b, SecondTurns(a, b));
    PairConnected(a, b);
    forall x
      ensures IsIn(AckedAt(a, b).seen, x) ==> x.ts <= 2
      ensures IsIn(AckedThere(a, b).seen, x) ==> x.ts <= 2
    {
      FirstFields(a, b, x);
      SecondFields(a, b, x);
    }
    FirstFields(a, b, NO_MESSAGE);
    SecondFields(a, b, NO_MESSAGE);
    PairedStart(AckedAt(a, b), a, b, a);
    PairedStart(AckedThere(a, b), a, b, b);
    forall x
      ensures IsIn(Since(Run(a, FirstTurns(a, b))).seen, x) ==> x.ts <= 2
      ensures IsIn(Since(Run(b, SecondTurns(a, b))).seen, x) ==> x.ts <= 2
    {
      CommittedFields(AckedAt(a, b), a, b, a, x);
      CommittedFields(AckedThere(a, b), a, b, b, x);
    }
    CommittedFields(AckedAt(a, b), a, b, a, NO_MESSAGE);
    CommittedFields(AckedThere(a, b), a, b, b, NO_MESSAGE);
  }
}
