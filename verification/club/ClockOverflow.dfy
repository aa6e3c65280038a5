/** Where the order of broadcasts ends: the 32-bit clock of a hub. The guarantees of HubOrder are about runs in
    which it has not overflowed; here is exactly how far that is, and what becomes of a hub behind it. */
module ClockOverflow {
  import opened Basics
  import opened MessageIds
  import opened Messages
  import opened Graphs
  import opened Logs
  import opened Seen
  import opened Hubs
  import opened HubGrowth
  import opened HubOrder
  import StaticRuns

  // ----- how far it is good

  /** The highest timestamp heard in a run. */
  function MaxHeard(turns: seq<Turn>): nat {
    if turns == [] then 0
    else Max(MaxHeard(turns[..|turns| - 1]), HeardStamp(turns[|turns| - 1].step))
  }

  /** How far a run can have taken the clock: the highest timestamp heard, and a tick for each message constructed. */
  ghost function Reach(id: Uuid, turns: seq<Turn>): nat {
    MaxHeard(turns) + |Run(id, turns).posted|
  }

  lemma {:induction false} RunTicks(id: Uuid, turns: seq<Turn>)
    ensures var h := Run(id, turns);
            h.clock <= Reach(id, turns) && (h.wrapped ==> Reach(id, turns) >= TIMESTAMP_LIMIT)
    decreases |turns|
  {
    hide Do;
    if turns != [] {
      var init, last := turns[..|turns| - 1], turns[|turns| - 1];
      RunTicks(id, init);
      DoGrows(Run(id, init), last.step, last.script);
    }
  }

  /** The ids of what the hub constructed increase, and it rejected nothing of its own as late. */
  ghost predicate OwnOnTime(h: HubState) {
    Increasing(PostedIds(h.posted)) && LateOk(h.id, h.late)
  }

  ghost predicate OnTimeUpTo(n: nat) {
    forall id: Uuid, turns :: RunOk(turns) && Reach(id, turns) <= n ==> OwnOnTime(Run(id, turns))
  }

  // ----- a hub alone

  /** The hub knows only itself, and its log is empty. */
  ghost predicate Alone(h: HubState) {
    && h.nodes == map[h.id := false] && h.configs == map[MessageId(0, h.id) := {h.id}]
    && h.log.entries == map[] && h.log.pendingAcks == map[] && h.clock < TIMESTAMP_LIMIT
    && h.log.lastFuseCommit == NO_MESSAGE
  }

  lemma AloneConfig(h: HubState)
    requires Alone(h)
    ensures LatestConfigId(h) == MessageId(0, h.id) && LatestConfig(h) == {h.id} && Connected(h) == {}
    ensures Neighbors(h) == {h.id} && PredecessorTime(h.log, MessageId(Tick(h).clock, h.id)) == NO_MESSAGE
  {
    assert IsMax(h.configs.Keys, MessageId(0, h.id));
    assert Below(h.log.entries.Keys, MessageId(Tick(h).clock, h.id)) == {};
  }

  /** What it constructs. */
  ghost function Word(h: HubState, data: Bytes): Message {
    var id := MessageId(Tick(h).clock, h.id);
    Message(h.id, id.ts, MessageId(0, h.id), {h.id}, UserData(AckData(id, NO_MESSAGE, {h.id}), data))
  }

  ghost function WordEntry(h: HubState, data: Bytes): LogEntry {
    var m := Word(h, data);
    Spent(LogEntry(m, {h.log.lastCommitted, NO_MESSAGE}, {h.id}, map[h.id := m.body.ack]))
  }

  lemma InsertWord(h: HubState, data: Bytes)
    requires Alone(h) && h.log.lastCommitted.Lt(Word(h, data).Id())
    ensures InsertEntry(h.log, Word(h, data)) == h.log.(entries := map[Word(h, data).Id() := WordEntry(h, data)])
  {
    var m := Word(h, data);
    var l := LinkIn(h.log, m);
    assert Below({}, m.Id()) == {} && Above({}, m.Id()) == {};
    assert {} + ({h.log.lastCommitted} + {}) == {h.log.lastCommitted};
    assert l.entries == map[m.Id() := NewEntry(m).(predecessors := {h.log.lastCommitted})];
    NothingPending(l, m.Id());
    var e := WithAck(l.entries[m.Id()], h.id, m.body.ack);
    assert e.quorum == {h.id} && e.acks == map[h.id := m.body.ack];
    assert e.predecessors == {h.log.lastCommitted, NO_MESSAGE};
    assert InsertEntry(h.log, m).entries == map[m.Id() := Spent(e)];
  }

  /** Its broadcast enters the log, or is rejected as late. */
  lemma SpeaksAlone(h: HubState, data: Bytes)
    requires Alone(h)
    ensures var m, h' := Word(h, data), PostAckable(h, Say(data));
            var p := Tick(h).(posted := h.posted + [m], basis := h.basis + [{}]);
            h' == if m.Id().Le(h.log.lastCommitted) then p.(late := h.late + [m.Id()])
                  else p.(log := h.log.(entries := map[m.Id() := WordEntry(h, data)]), entered := h.entered + {m.Id()})
  {
    hide InsertEntry, WordEntry, Enqueue, LatestConfigId;
    AloneConfig(h);
    var m := Word(h, data);
    assert AckableMessage(h, Say(data)) == m;
    var p := Tick(h).(posted := h.posted + [m], basis := h.basis + [{}]);
    assert Connected(p) == {} by { assert Connected(p) == Connected(h); }
    EnqueueNothing(h.sent, m);
    assert Connected(p) - m.visited == {};
    if !m.Id().Le(h.log.lastCommitted) {
      InsertWord(h, data);
    }
  }

  /** The log with that one broadcast in it. */
  ghost predicate Spoken(h: HubState, h1: HubState, data: Bytes) {
    && Alone(h) && h.log.lastCommitted.Lt(Word(h, data).Id())
    && h1.id == h.id && h1.nodes == h.nodes && h1.configs == h.configs && h1.script == []
    && h1.log == h.log.(entries := map[Word(h, data).Id() := WordEntry(h, data)])
  }

  lemma JudgesWord(h: HubState, h1: HubState, data: Bytes)
    requires Spoken(h, h1, data)
    ensures LastCommittableFuse(h1.log) == None && LiveNodes(h1) == {h.id}
    ensures Judge(h1, Word(h, data).Id(), None, {h.id}) == Commit
  {
    AloneConfig(h);
    assert LatestConfig(h1) == LatestConfig(h);
    assert CommittableFuses(h1.log) == {};
    var e := h1.log.entries[Word(h, data).Id()];
    assert IsMax(e.predecessors, h.log.lastCommitted) by { NothingBelow(h.log.lastCommitted); }
    assert MaxOf(e.predecessors) == h.log.lastCommitted;
  }

  lemma NothingBelow(x: MessageId)
    ensures NO_MESSAGE.Le(x)
  {
  }

  lemma CommitsWord(h: HubState, h1: HubState, data: Bytes)
    requires Spoken(h, h1, data)
    ensures var k, h2 := Word(h, data).Id(), CommitWhatWasSeenByEveryone(h1);
            && h2 == h1.(log := h.log.(lastCommitted := k), consumed := h1.consumed + [k], seen := h2.seen,
                         events := h1.events + [Delivered(k, data)])
  {
    hide Judge, WordEntry, LiveNodes, LastCommittableFuse, SeenEverythingUpTo, Work;
    var k := Word(h, data).Id();
    JudgesWord(h, h1, data);
    WordEntryIs(h, data);
    assert h1.log.entries.Keys == {k} && First({k}) == Some(k);
    assert Above({k}, k) == {};
    assert Next({k}, k) == None;
    assert h1.log.entries - {k} == map[];
    assert Loop(CommitEntry(h1, k), None, None, {h.id}) == CommitEntry(h1, k);
  }

  lemma WordEntryIs(h: HubState, data: Bytes)
    ensures var m := WordEntry(h, data).message;
            m.body.UserData? && m.body.data == data && m.op == h.id && m.Id() == Word(h, data).Id()
  {
  }

  /** The user broadcasts these payloads one after another, and the hub commits after each. */
  ghost function Says(payloads: seq<Bytes>): seq<Turn> {
    if payloads == [] then []
    else
      var last := payloads[|payloads| - 1];
      Says(payloads[..|payloads| - 1]) + [Turn(Speak(last), []), Turn(Poll, [])]
  }

  ghost function Numbered(id: Uuid, payloads: seq<Bytes>): seq<(MessageId, Bytes)> {
    seq(|payloads|, i requires 0 <= i < |payloads| => (MessageId(i + 1, id), payloads[i]))
  }

  /** How many of n broadcasts a lone hub commits. */
  function Committed(n: nat): nat {
    if n < TIMESTAMP_LIMIT then n else TIMESTAMP_LIMIT - 1
  }

  function LastId(id: Uuid, m: nat): MessageId {
    if m == 0 then NO_MESSAGE else MessageId(m, id)
  }

  ghost predicate StampedInOrder(id: Uuid, posted: seq<Message>) {
    forall i :: 0 <= i < |posted| ==> posted[i].Id() == MessageId((i + 1) % TIMESTAMP_LIMIT, id)
  }

  ghost predicate AloneAfter(h: HubState, id: Uuid, payloads: seq<Bytes>) {
    var n := |payloads|;
    && Alone(h) && h.id == id && h.clock == n % TIMESTAMP_LIMIT
    && h.log.lastCommitted == LastId(id, Committed(n))
    && |h.posted| == n && StampedInOrder(id, h.posted)
    && StaticRuns.Deliveries(h.events) == Numbered(id, payloads[..Committed(n)])
    && |h.late| == n - Committed(n) && forall x <- h.late :: x.op == id
  }

  lemma DeliveredOne(es: seq<Event>, k: MessageId, data: Bytes)
    ensures StaticRuns.Deliveries(es + [Delivered(k, data)]) == StaticRuns.Deliveries(es) + [(k, data)]
  {
    assert (es + [Delivered(k, data)])[..|es|] == es;
  }

  lemma NextStamp(n: nat)
    ensures (n % TIMESTAMP_LIMIT + 1) % TIMESTAMP_LIMIT == (n + 1) % TIMESTAMP_LIMIT
    ensures n + 1 < TIMESTAMP_LIMIT ==> n % TIMESTAMP_LIMIT + 1 == n + 1
  {
  }

  lemma StampedOne(id: Uuid, posted: seq<Message>, m: Message)
    requires StampedInOrder(id, posted) && m.Id() == MessageId((|posted| + 1) % TIMESTAMP_LIMIT, id)
    ensures StampedInOrder(id, posted + [m])
  {
  }

  /** With a fresh timestamp a broadcast is delivered. */
  lemma SaysInTime(h: HubState, id: Uuid, payloads: seq<Bytes>, data: Bytes)
    requires AloneAfter(h, id, payloads) && |payloads| + 1 < TIMESTAMP_LIMIT && h.script == []
    ensures AloneAfter(CommitWhatWasSeenByEveryone(PostAckable(h, Say(data))), id, payloads + [data])
  {
    hide PostAckable, CommitWhatWasSeenByEveryone, WordEntry, StaticRuns.Deliveries, StampedInOrder, Numbered;
    var n := |payloads|;
    NextStamp(n);
    SpeaksAlone(h, data);
    var h1, m := PostAckable(h, Say(data)), Word(h, data);
    CommitsWord(h, h1, data);
    DeliveredOne(h.events, m.Id(), data);
    StampedOne(id, h.posted, m);
    assert payloads[..n] == payloads && (payloads + [data])[..n + 1] == payloads + [data];
    NumberedOne(id, payloads, data);
  }

  lemma NumberedOne(id: Uuid, payloads: seq<Bytes>, data: Bytes)
    ensures Numbered(id, payloads + [data]) ==
            Numbered(id, payloads) + [(MessageId(|payloads| + 1, id), data)]
  {
  }

  /** Otherwise it is late. */
  lemma SaysLate(h: HubState, id: Uuid, payloads: seq<Bytes>, data: Bytes)
    requires AloneAfter(h, id, payloads) && |payloads| + 1 >= TIMESTAMP_LIMIT && h.script == []
    ensures AloneAfter(CommitWhatWasSeenByEveryone(PostAckable(h, Say(data))), id, payloads + [data])
  {
    hide PostAckable, CommitWhatWasSeenByEveryone, WordEntry, StaticRuns.Deliveries, StampedInOrder, Numbered;
    var n := |payloads|;
    NextStamp(n);
    SpeaksAlone(h, data);
    var h1, m := PostAckable(h, Say(data)), Word(h, data);
    assert m.Id().Le(h.log.lastCommitted);
    NothingToCommit(h1);
    StampedOne(id, h.posted, m);
    assert (payloads + [data])[..Committed(n + 1)] == payloads[..Committed(n)];
  }

  lemma SaysOne(h: HubState, id: Uuid, payloads: seq<Bytes>, data: Bytes)
    requires AloneAfter(h, id, payloads)
    ensures AloneAfter(Do(Do(h, Speak(data), []), Poll, []), id, payloads + [data])
  {
    hide PostAckable, CommitWhatWasSeenByEveryone, StaticRuns.Deliveries, StampedInOrder, Numbered;
    var h0 := h.(script := []);
    var h1 := PostAckable(h0, Say(data));
    assert h1.(script := []) == h1;
    if |payloads| + 1 < TIMESTAMP_LIMIT {
      SaysInTime(h0, id, payloads, data);
    } else {
      SaysLate(h0, id, payloads, data);
    }
  }

  lemma NothingToCommit(h: HubState)
    requires h.log.entries == map[]
    ensures CommitWhatWasSeenByEveryone(h) == h
  {
  }

  lemma {:induction false} SaysAll(id: Uuid, payloads: seq<Bytes>)
    ensures AloneAfter(Run(id, Says(payloads)), id, payloads)
    decreases |payloads|
  {
    hide Do, AloneAfter;
    if payloads == [] {
      assert AloneAfter(NewHub(id), id, []) by { NewIsAlone(id); }
    } else {
      var init, last := payloads[..|payloads| - 1], payloads[|payloads| - 1];
      SaysAll(id, init);
      SaysOne(Run(id, Says(init)), id, init, last);
      var turns := Says(payloads);
      assert turns[..|turns| - 1] == Says(init) + [Turn(Speak(last), [])];
      assert turns[..|turns| - 1][..|turns| - 2] == Says(init);
      assert payloads == init + [last];
    }
  }

  lemma NewIsAlone(id: Uuid)
    ensures AloneAfter(NewHub(id), id, [])
  {
  }

  /** A hub alone delivers what its user broadcasts, in order, up to 2^32 - 1 payloads. Everything behind that is
      rejected as late, and never anything delivered again. */
  lemma LoneHubDelivers(id: Uuid, payloads: seq<Bytes>)
    ensures var h := Run(id, Says(payloads));
            && StaticRuns.Deliveries(h.events) == Numbered(id, payloads[..Committed(|payloads|)])
            && (h.late == [] <==> |payloads| < TIMESTAMP_LIMIT)
  {
    hide Run;
    SaysAll(id, payloads);
  }

  // ----- the exact bound

  lemma {:induction false} SaysIsOk(payloads: seq<Bytes>)
    ensures RunOk(Says(payloads)) && MaxHeard(Says(payloads)) == 0
    decreases |payloads|
  {
    if payloads != [] {
      var init, last := payloads[..|payloads| - 1], payloads[|payloads| - 1];
      SaysIsOk(init);
      var turns := Says(payloads);
      assert turns[..|turns| - 1] == Says(init) + [Turn(Speak(last), [])];
      assert turns[..|turns| - 1][..|turns| - 2] == Says(init);
    }
  }

  /** In all runs whose clock can have got to n the hub's own messages are in order and on time, exactly while the
      32-bit counter does not overflow. */
  lemma OnTimeIff(n: nat)
    ensures OnTimeUpTo(n) <==> n < TIMESTAMP_LIMIT
  {
    hide Run, OwnOnTime;
    if n < TIMESTAMP_LIMIT {
      forall id: Uuid, turns | RunOk(turns) && Reach(id, turns) <= n
        ensures OwnOnTime(Run(id, turns))
      {
        InTime(id, turns);
      }
    } else {
      var turns := Overdue();
      assert !OwnOnTime(Run(0, turns)) && Reach(0, turns) <= n;
    }
  }

  lemma InTime(id: Uuid, turns: seq<Turn>)
    requires RunOk(turns) && Reach(id, turns) < TIMESTAMP_LIMIT
    ensures OwnOnTime(Run(id, turns))
  {
    hide Run, Valid, ConsumedOk, DeliveredOk, ConfigsOk, Membership;
    RunTicks(id, turns);
    RunInv(id, turns);
  }

  lemma Overdue() returns (turns: seq<Turn>)
    ensures RunOk(turns) && Reach(0, turns) == TIMESTAMP_LIMIT && !OwnOnTime(Run(0, turns))
  {
    hide Run, Increasing, Says, StaticRuns.Deliveries;
    var payloads: seq<Bytes> := seq(TIMESTAMP_LIMIT, _ => []);
    turns := Says(payloads);
    SaysIsOk(payloads);
    SaysAll(0, payloads);
    var h := Run(0, turns);
    assert h.late[0] in h.late;
  }
}
