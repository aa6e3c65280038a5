/** What every run of a hub keeps, whatever it receives: the log is consumed in id order without gaps, the
    callbacks report every configuration change, and the predecessor and quorum bookkeeping stays exact. */
module HubOrder {
  import opened Basics
  import opened MessageIds
  import opened Messages
  import opened Graphs
  import opened Logs
  import opened Seen
  import opened Hubs

  /** The ids handed to `on_receive`, in order. */
  ghost function DeliveredIds(es: seq<Event>): seq<MessageId> {
    if es == [] then []
    else
      var rest := DeliveredIds(es[..|es| - 1]);
      match es[|es| - 1]
      case Delivered(id, _) => rest + [id]
      case _ => rest
  }

  /** How a user's view of the membership changes with one callback. */
  ghost function Told(members: set<Uuid>, e: Event): set<Uuid> {
    if e.Inserted? then members + e.ids else if e.Removed? then members - e.ids else members
  }

  /** The membership a user computes by folding the `on_insert` and `on_remove` callbacks. */
  ghost function Membership(es: seq<Event>, start: set<Uuid>): set<Uuid> {
    if es == [] then start else Told(Membership(es[..|es| - 1], start), es[|es| - 1])
  }

  lemma EventAppended(es: seq<Event>, e: Event, start: set<Uuid>)
    ensures DeliveredIds(es + [e]) == DeliveredIds(es) + (if e.Delivered? then [e.id] else [])
    ensures Membership(es + [e], start) == Told(Membership(es, start), e)
  {
    assert (es + [e])[..|es + [e]| - 1] == es;
  }

  ghost function PostedIds(posted: seq<Message>): seq<MessageId> {
    seq(|posted|, i requires 0 <= i < |posted| => posted[i].Id())
  }

  // ----- the invariant

  ghost predicate StampsOk(clock: nat, l: LogState) {
    && l.lastCommitted.ts <= clock
    && forall k <- l.entries.Keys :: 1 <= k.ts <= clock
  }

  /** What was consumed, in order, ends in `last_committed`; what entered is consumed or still in the log. */
  ghost predicate ConsumedOk(consumed: seq<MessageId>, entered: set<MessageId>, keys: set<MessageId>, last: MessageId) {
    && Increasing(consumed)
    && (forall x <- consumed :: x.Le(last))
    && (consumed != [] ==> consumed[|consumed| - 1] == last)
    && entered == (set x <- consumed) + keys
  }

  ghost predicate DeliveredOk(events: seq<Event>, consumed: seq<MessageId>) {
    && Increasing(DeliveredIds(events))
    && forall x <- DeliveredIds(events) :: x in consumed
  }

  ghost predicate PostedOk(id: Uuid, clock: nat, posted: seq<Message>) {
    && Increasing(PostedIds(posted))
    && forall m <- posted :: m.op == id && m.ts <= clock && WellFormed(m)
  }

  ghost predicate ConfigsOk(id: Uuid, configs: map<MessageId, set<Uuid>>, lastFuse: MessageId) {
    && MessageId(0, id) in configs
    && forall c <- configs.Keys :: c == MessageId(0, id) || (1 <= c.ts && c.Le(lastFuse))
  }

  /** What was rejected for being late came from others. */
  ghost predicate LateOk(id: Uuid, late: seq<MessageId>) {
    forall x <- late :: x.op != id
  }

  ghost predicate Sound(h: HubState) {
    && Valid(h.log)
    && StampsOk(h.clock, h.log)
    && ConsumedOk(h.consumed, h.entered, h.log.entries.Keys, h.log.lastCommitted)
    && DeliveredOk(h.events, h.consumed)
    && PostedOk(h.id, h.clock, h.posted)
    && ConfigsOk(h.id, h.configs, h.log.lastFuseCommit)
    && LateOk(h.id, h.late)
  }

  /** The latest configuration is what the callbacks told the user, and what the routing table was built from. */
  ghost predicate MembershipOk(h: HubState) {
    Membership(h.events, {h.id}) == LatestConfig(h) == h.routing.nodes
  }

  ghost predicate Inv(h: HubState) {
    h.wrapped || (Sound(h) && MembershipOk(h))
  }

  // ----- constructing messages

  /** The log l' has the entries of l and others above the clock. */
  ghost predicate Grown(clock: nat, l: LogState, l': LogState) {
    && l'.lastCommitted == l.lastCommitted && l'.lastFuseCommit == l.lastFuseCommit
    && l.entries.Keys <= l'.entries.Keys
    && forall k <- l'.entries.Keys :: k in l.entries || clock < k.ts
  }

  lemma PostedAppended(id: Uuid, clock: nat, posted: seq<Message>, m: Message)
    requires PostedOk(id, clock, posted) && m.op == id && clock < m.ts && WellFormed(m)
    ensures PostedOk(id, m.ts, posted + [m])
  {
    assert PostedIds(posted + [m]) == PostedIds(posted) + [m.Id()];
    forall i | 0 <= i < |posted|
      ensures PostedIds(posted)[i].Lt(m.Id())
    {
      assert posted[i] in posted;
    }
  }

  lemma PostKeeps(h: HubState, m: Message)
    requires Sound(h) && !Tick(h).wrapped
    requires m.op == h.id && m.ts == Tick(h).clock && WellFormed(m)
    ensures Sound(Post(h, m))
  {
    hide Valid, ConsumedOk, DeliveredOk, ConfigsOk, PostedOk, WellFormed, Broadcast;
    PostedAppended(h.id, h.clock, h.posted, m);
  }

  lemma AddLogEntryKeeps(h: HubState, m: Message)
    requires Sound(h) && WellFormed(m) && !m.body.Ack? && m.ts <= h.clock
    requires m.op == h.id ==> h.log.lastCommitted.Lt(m.Id())
    ensures Sound(AddLogEntry(h, m))
  {
    hide InsertEntry, Valid, DeliveredOk, PostedOk, ConfigsOk;
    if !m.Id().Le(h.log.lastCommitted) {
      InsertEntryValid(h.log, m);
    }
  }

  lemma CommittedByNow(h: HubState)
    requires Sound(h)
    ensures h.log.lastCommitted.ts <= h.clock
  {
  }

  lemma PostAckableKeeps(h: HubState, r: Request)
    requires h.wrapped || Sound(h)
    ensures var h' := PostAckable(h, r);
            h'.wrapped || (Sound(h') && Grown(h.clock, h.log, h'.log) && h.clock <= h'.clock)
  {
    hide InsertEntry, Sound, Post, PredecessorTime;
    if !Tick(h).wrapped {
      var m := AckableMessage(h, r);
      PostKeeps(h, m);
      CommittedByNow(h);
      AddLogEntryKeeps(Post(h, m), m);
    }
  }

  lemma PostAckKeeps(h: HubState, acked: MessageId)
    requires h.wrapped || Sound(h)
    ensures PostAck(h, acked).wrapped || Sound(PostAck(h, acked))
  {
    hide Valid, Post, PredecessorTime, ConsumedOk, DeliveredOk, ConfigsOk, PostedOk;
    if !Tick(h).wrapped {
      var m := AckMessage(h, acked);
      PostKeeps(h, m);
      ApplyAckValid(h.log, h.id, m.body.ack);
      assert ApplyAck(h.log, h.id, m.body.ack).entries.Keys == h.log.entries.Keys;
    }
  }

  lemma {:induction false} PostAllKeeps(h: HubState, payloads: seq<Bytes>)
    requires h.wrapped || Sound(h)
    ensures var h' := PostAll(h, payloads);
            h'.wrapped || (Sound(h') && Grown(h.clock, h.log, h'.log) && h.clock <= h'.clock)
    decreases |payloads|
  {
    hide Sound, PostAckable;
    if payloads != [] {
      PostAckableKeeps(h, Say(payloads[0]));
      PostAllKeeps(PostAckable(h, Say(payloads[0])), payloads[1..]);
    }
  }

  // ----- callbacks

  /** A delivery reports an id just consumed, above all that were delivered before. */
  ghost predicate EventOk(h: HubState, e: Event) {
    e.Delivered? ==> e.id in h.consumed && forall x <- DeliveredIds(h.events) :: x.Lt(e.id)
  }

  lemma EventKeeps(h: HubState, e: Event)
    requires Sound(h) && EventOk(h, e)
    ensures Sound(h.(events := h.events + [e]))
  {
    hide Valid, ConsumedOk, PostedOk, ConfigsOk;
    EventAppended(h.events, e, {});
  }

  lemma CallbackKeeps(h: HubState, e: Event)
    requires h.wrapped || (Sound(h) && EventOk(h, e))
    ensures var h' := Callback(h, e);
            h'.wrapped || (Sound(h') && Grown(h.clock, h.log, h'.log) && h.clock <= h'.clock)
  {
    hide Valid, StampsOk, ConsumedOk, DeliveredOk, PostedOk, ConfigsOk, PostAll, EventOk;
    if !h.wrapped {
      EventKeeps(h, e);
    }
    if h.script != [] {
      PostAllKeeps(h.(events := h.events + [e], script := h.script[1..]), h.script[0]);
    }
  }

  // ----- the commit loop

  lemma ConsumeValid(l: LogState, k: MessageId)
    requires Valid(l) && IsMin(l.entries.Keys, k)
    ensures Valid(Consume(l, k))
    ensures Valid(Consume(l, k).(lastFuseCommit := k))
  {
    var c := Consume(l, k);
    assert c.entries.Keys == l.entries.Keys - {k};
    forall p, x | Adjacent(c.entries.Keys + {k}, p, x) && x in c.entries
      ensures p in c.entries[x].predecessors
    {
      assert Adjacent(l.entries.Keys + {l.lastCommitted}, p, x);
    }
  }

  lemma ConsumedAppended(consumed: seq<MessageId>, entered: set<MessageId>, keys: set<MessageId>, last: MessageId,
                         k: MessageId)
    requires ConsumedOk(consumed, entered, keys, last) && k in keys && last.Lt(k)
    ensures ConsumedOk(consumed + [k], entered, keys - {k}, k)
  {
    assert (set x <- consumed + [k]) == (set x <- consumed) + {k};
  }

  lemma TakeOutKeeps(h: HubState, k: MessageId)
    requires Sound(h) && IsMin(h.log.entries.Keys, k)
    ensures Sound(TakeOut(h, k))
  {
    hide Chained, AllClosed, PendingOk, PostedOk, ConsumedOk, DeliveredIds;
    ConsumeValid(h.log, k);
    ConsumedAppended(h.consumed, h.entered, h.log.entries.Keys, h.log.lastCommitted, k);
    assert (h.log.entries - {k}).Keys == h.log.entries.Keys - {k};
  }

  /** The front of the log lies above everything delivered and every installed configuration. */
  lemma FrontIsLatest(h: HubState, k: MessageId)
    requires Sound(h) && k in h.log.entries
    ensures forall x <- DeliveredIds(h.events) :: x.Lt(k)
    ensures forall c <- h.configs.Keys :: c.Lt(k)
  {
    hide Chained, AllClosed, PendingOk, PostedOk, DeliveredIds;
  }

  lemma DepartedKeeps(h: HubState, k: MessageId)
    requires Sound(h) && IsMin(h.log.entries.Keys, k)
    ensures Sound(Departed(h, k))
    ensures forall x <- DeliveredIds(h.events) :: x.Lt(k)
    ensures forall c <- h.configs.Keys :: c.Lt(k)
  {
    hide Chained, AllClosed, PendingOk, PostedOk, DeliveredOk, ConsumedOk;
    FrontIsLatest(h, k);
    TakeOutKeeps(h, k);
    ConsumeValid(h.log, k);
  }

  /** For a fuse that installs a configuration, the quorum, the ackers and the nodes of the new graph coincide. */
  lemma CommittedFuseQuorum(e: LogEntry)
    requires e.QuorumClosed() && e.AckedByQuorum()
    ensures e.quorum == e.acks.Keys == AcksToGraph(e.acks).nodes
    ensures forall u <- e.quorum :: AcksToGraph(e.acks).Peers(u) <= e.quorum
  {
  }

  /** The graph of the acknowledgements is closed, so the routing tables made from it cover it. */
  lemma AcksGraphClosed(acks: map<Uuid, AckData>)
    ensures Closed(AcksToGraph(acks))
  {
  }

  /** The entry e was just committed as a fuse: its id is above every installed configuration. */
  ghost predicate Fresh(h: HubState, e: LogEntry) {
    && e.QuorumClosed()
    && e.message.Id() == h.log.lastFuseCommit
    && 1 <= e.message.ts
    && forall c <- h.configs.Keys :: c.Lt(e.message.Id())
  }

  lemma InstalledKeeps(h: HubState, e: LogEntry)
    requires Sound(h) && Fresh(h, e) && e.AckedByQuorum()
    ensures Sound(Installed(h, e))
    ensures LatestConfig(Installed(h, e)) == e.quorum == Installed(h, e).routing.nodes
  {
    hide Valid, StampsOk, ConsumedOk, DeliveredOk, PostedOk;
    CommittedFuseQuorum(e);
    var i := Installed(h, e);
    assert i.configs.Keys == h.configs.Keys + {e.message.Id()};
    assert IsMax(i.configs.Keys, e.message.Id());
    assert LatestConfigId(i) == e.message.Id();
  }

  lemma ReportKeeps(h: HubState, e: Event)
    requires h.wrapped || Sound(h)
    requires e.Inserted? || e.Removed?
    ensures var h' := Report(h, e);
            h'.wrapped ||
            (Sound(h') && Grown(h.clock, h.log, h'.log) && h.clock <= h'.clock
             && Membership(h'.events, {h.id}) == Told(Membership(h.events, {h.id}), e)
             && h'.id == h.id && h'.configs == h.configs && h'.routing == h.routing)
  {
    hide Sound, Callback, DeliveredIds, Membership, Work;
    if e.ids != {} {
      CallbackKeeps(h, e);
      EventAppended(h.events, e, {h.id});
    }
  }

  lemma CommitFuseKeeps(h: HubState, e: LogEntry)
    requires Sound(h) && MembershipOk(h) && !h.wrapped && Fresh(h, e)
    ensures var h' := CommitFuse(h, e);
            h'.wrapped || (Sound(h') && MembershipOk(h') && Grown(h.clock, h.log, h'.log) && h.clock <= h'.clock)
  {
    hide Sound, Fresh, Membership, Report;
    if e.AckedByQuorum() {
      InstalledKeeps(h, e);
      var added := e.quorum - LatestConfig(h);
      var removed := LatestConfig(h) - e.quorum;
      var h1 := Installed(h, e);
      ReportKeeps(h1, Inserted(added));
      ReportKeeps(Report(h1, Inserted(added)), Removed(removed));
    }
  }

  lemma DepartedFuse(h: HubState, k: MessageId)
    requires Sound(h) && IsMin(h.log.entries.Keys, k) && h.log.entries[k].message.body.Fuse?
    ensures Fresh(Departed(h, k), h.log.entries[k])
  {
    hide Chained, PendingOk, PostedOk, DeliveredIds, ConsumedOk, Work;
    DepartedKeeps(h, k);
  }

  lemma CommitUserDataKeeps(h: HubState, m: Message)
    requires Sound(h) && MembershipOk(h) && !h.wrapped && m.body.UserData?
    requires EventOk(h, Delivered(m.Id(), m.body.data))
    ensures var h' := CommitUserData(h, m);
            h'.wrapped || (Sound(h') && MembershipOk(h') && Grown(h.clock, h.log, h'.log))
  {
    hide Sound, Callback, DeliveredIds, Membership, EventOk, Work;
    if m.op in h.nodes {
      CallbackKeeps(h, Delivered(m.Id(), m.body.data));
      EventAppended(h.events, Delivered(m.Id(), m.body.data), {h.id});
    }
  }

  lemma CommitEntryKeeps(h: HubState, k: MessageId)
    requires h.wrapped || (Sound(h) && MembershipOk(h) && IsMin(h.log.entries.Keys, k))
    requires k in h.log.entries && !h.log.entries[k].message.body.Ack?
    ensures var h' := CommitEntry(h, k);
            h'.wrapped || (Sound(h') && MembershipOk(h') && Grown(h.clock, Departed(h, k).log, h'.log))
  {
    hide Chained, AllClosed, PendingOk, PostedOk, ConsumedOk, DeliveredIds, CommitFuse, CommitUserData, Membership,
         Work;
    if !h.wrapped {
      var e := h.log.entries[k];
      DepartedKeeps(h, k);
      if e.message.body.Fuse? {
        DepartedFuse(h, k);
        CommitFuseKeeps(Departed(h, k), e);
      } else {
        CommitUserDataKeeps(Departed(h, k), e.message);
      }
    }
  }

  /** The loop's iterator stands on the front of the log, or at its end. */
  ghost predicate AtFront(h: HubState, cursor: Option<MessageId>) {
    cursor.None? || IsMin(h.log.entries.Keys, cursor.value)
  }

  /** Erasing the front leaves the iterator's successor at the front; callbacks only append behind it. */
  lemma NextIsFront(h: HubState, k: MessageId, h': HubState)
    requires StampsOk(h.clock, h.log) && IsMin(h.log.entries.Keys, k)
    requires Grown(h.clock, Consume(h.log, k).(lastFuseCommit := h'.log.lastFuseCommit), h'.log)
    ensures AtFront(h', Next(h.log.entries.Keys, k))
  {
    var next := Next(h.log.entries.Keys, k);
    if next.Some? {
      assert next.value in Above(h.log.entries.Keys, k);
      forall x <- h'.log.entries.Keys
        ensures next.value.Le(x)
      {
        if x in h.log.entries {
          assert x in Above(h.log.entries.Keys, k);
        }
      }
    }
  }

  lemma {:induction false} LoopKeeps(h: HubState, cursor: Option<MessageId>, lastFuse: Option<MessageId>,
                                     live: set<Uuid>)
    requires Inv(h) && (h.wrapped || AtFront(h, cursor))
    ensures Inv(Loop(h, cursor, lastFuse, live))
    decreases Work(h)
  {
    hide Valid, ConsumedOk, PostedOk, DeliveredOk, ConfigsOk, Membership, Work, CommitEntry, Judge;
    if cursor.Some? && cursor.value in h.log.entries && !h.log.entries[cursor.value].message.body.Ack? {
      var k := cursor.value;
      var next := Next(h.log.entries.Keys, k);
      match Judge(h, k, lastFuse, live)
      case Stop =>
      case Discard =>
        if !h.wrapped {
          TakeOutKeeps(h, k);
          NextIsFront(h, k, TakeOut(h, k));
        }
        LoopKeeps(TakeOut(h, k), next, lastFuse, live);
      case Commit =>
        CommitEntryKeeps(h, k);
        if !CommitEntry(h, k).wrapped {
          NextIsFront(h, k, CommitEntry(h, k));
        }
        LoopKeeps(CommitEntry(h, k), next, if lastFuse == Some(k) then None else lastFuse, live);
    }
  }

  /** The guard of the commit loop, stated without its scan: the front entry waits exactly while its
      configuration is known here and somebody reported a predecessor that is not consumed yet. */
  lemma GuardMeaning(h: HubState, k: MessageId)
    requires Sound(h) && IsMin(h.log.entries.Keys, k)
    ensures var e := h.log.entries[k];
            Blocked(h, e) <==>
            e.message.configId in h.configs && exists p <- e.predecessors :: h.log.lastCommitted.Lt(p)
  {
    hide PostedOk, ConsumedOk, DeliveredOk, ConfigsOk, AllClosed, PendingOk;
    assert Adjacent(h.log.entries.Keys + {h.log.lastCommitted}, h.log.lastCommitted, k);
    assert h.log.lastCommitted in h.log.entries[k].predecessors;
  }

  lemma CommitKeeps(h: HubState)
    requires Inv(h)
    ensures Inv(CommitWhatWasSeenByEveryone(h))
  {
    hide Inv, Loop, LastCommittableFuse, LiveNodes;
    LoopKeeps(h, First(h.log.entries.Keys), LastCommittableFuse(h.log), LiveNodes(h));
  }

  // ----- receiving

  lemma AcceptKeeps(h: HubState, m: Message)
    requires Inv(h) && WellFormed(m)
    ensures Inv(Accept(h, m))
    ensures m.ts <= Accept(h, m).clock && Accept(h, m).wrapped == h.wrapped
  {
    hide Valid, ConsumedOk, DeliveredOk, ConfigsOk, Membership, WellFormed, Broadcast;
  }

  lemma ProcessKeeps(h: HubState, m: Message)
    requires Inv(h) && WellFormed(m) && m.ts <= h.clock && m.op != h.id
    ensures Inv(Process(h, m))
  {
    hide Sound, CommitWhatWasSeenByEveryone, PostAck, InsertEntry, Membership;
    match m.body
    case Ack(ack) =>
      if !h.wrapped {
        ProcessAckKeeps(h, m);
      }
    case Fuse(_, _) =>
      if !h.wrapped {
        AddLogEntryKeeps(h, m);
      }
      var h1 := AddLogEntry(h, m);
      PostAckKeeps(h1, m.Id());
      CommitKeeps(PostAck(h1, m.Id()));
    case UserData(_, _) =>
      PostAckKeeps(h, m.Id());
      if !PostAck(h, m.Id()).wrapped {
        AddLogEntryKeeps(PostAck(h, m.Id()), m);
      }
  }

  lemma ProcessAckKeeps(h: HubState, m: Message)
    requires Sound(h) && WellFormed(m) && m.body.Ack?
    ensures Sound(h.(log := ApplyAck(h.log, m.op, m.body.ack)))
  {
    hide Valid, ConsumedOk, DeliveredOk, ConfigsOk, PostedOk;
    ApplyAckValid(h.log, m.op, m.body.ack);
    assert ApplyAck(h.log, m.op, m.body.ack).entries.Keys == h.log.entries.Keys;
  }

  lemma OnRecvKeeps(h: HubState, m: Message)
    requires Inv(h) && WellFormed(m)
    ensures Inv(OnRecv(h, m))
  {
    hide CommitWhatWasSeenByEveryone, Process, Accept, Valid, ConsumedOk, DeliveredOk, ConfigsOk, Membership,
         WellFormed;
    AcceptKeeps(h, m);
    if m.op != h.id {
      ProcessKeeps(Accept(h, m), m);
      CommitKeeps(Process(Accept(h, m), m));
    }
  }

  // ----- runs

  lemma CallbackFusedKeeps(h: HubState, peer: Uuid)
    requires Inv(h)
    ensures Inv(Callback(h, Fused(peer)))
  {
    hide Sound, Callback, DeliveredIds, Membership, Work;
    CallbackKeeps(h, Fused(peer));
    EventAppended(h.events, Fused(peer), {h.id});
  }

  lemma PostAckableInv(h: HubState, r: Request)
    requires Inv(h)
    ensures Inv(PostAckable(h, r))
  {
    hide Sound, PostAckable, Membership;
    PostAckableKeeps(h, r);
  }

  /** Changing what the invariant does not mention. */
  lemma Indifferent(h: HubState, script: seq<seq<Bytes>>, nodes: map<Uuid, bool>)
    requires Inv(h)
    ensures Inv(h.(script := script, nodes := nodes)) && Inv(h.(script := script)) && Inv(h.(nodes := nodes))
  {
    hide Valid, ConsumedOk, DeliveredOk, ConfigsOk, PostedOk, Membership;
  }

  ghost predicate StepOk(step: Step) {
    step.Hear? ==> WellFormed(step.message)
  }

  lemma DoKeeps(h0: HubState, step: Step, script: seq<seq<Bytes>>)
    requires Inv(h0) && StepOk(step)
    ensures Inv(Do(h0, step, script))
  {
    hide Inv, CommitWhatWasSeenByEveryone, PostAckable, OnRecv, Callback, WellFormed;
    Indifferent(h0, script, h0.nodes);
    var h := h0.(script := script);
    match step
    case Speak(data) => PostAckableInv(h, Say(data));
    case Poll => CommitKeeps(h);
    case Hear(m) => OnRecvKeeps(h, m);
    case Meet(peer) =>
      var met := h.(nodes := h.nodes[peer := true]);
      Indifferent(h, script, met.nodes);
      PostAckableInv(met, Join(peer));
      CallbackFusedKeeps(PostAckable(met, Join(peer)), peer);
      CommitKeeps(Callback(PostAckable(met, Join(peer)), Fused(peer)));
    case Lose(peer) =>
      var lost := h.(nodes := if peer in h.nodes then h.nodes[peer := false] else h.nodes);
      Indifferent(h, script, lost.nodes);
      PostAckableInv(lost, Join(peer));
      CommitKeeps(PostAckable(lost, Join(peer)));
  }

  /** A step together with what the callbacks it makes will broadcast. */
  datatype Turn = Turn(step: Step, script: seq<seq<Bytes>>)

  /** The hub `id` after the given handlers ran one after another. */
  ghost function Run(id: Uuid, turns: seq<Turn>): HubState {
    if turns == [] then NewHub(id)
    else Do(Run(id, turns[..|turns| - 1]), turns[|turns| - 1].step, turns[|turns| - 1].script)
  }

  ghost predicate RunOk(turns: seq<Turn>) {
    forall t <- turns :: StepOk(t.step)
  }

  lemma NewHubInv(id: Uuid)
    ensures Inv(NewHub(id))
  {
    var h := NewHub(id);
    assert PostedIds(h.posted) == [];
    assert IsMax(h.configs.Keys, MessageId(0, id));
    assert LatestConfigId(h) == MessageId(0, id);
  }

  lemma {:induction false} RunInv(id: Uuid, turns: seq<Turn>)
    requires RunOk(turns)
    ensures Inv(Run(id, turns))
    decreases |turns|
  {
    hide Inv, StepOk, Do;
    if turns == [] {
      NewHubInv(id);
    } else {
      var last := |turns| - 1;
      assert turns[last] in turns;
      RunInv(id, turns[..last]);
      DoKeeps(Run(id, turns[..last]), turns[last].step, turns[last].script);
    }
  }

  lemma {:induction false} RunId(id: Uuid, turns: seq<Turn>)
    ensures Run(id, turns).id == id
    decreases |turns|
  {
    hide Do;
    if turns != [] {
      RunId(id, turns[..|turns| - 1]);
    }
  }

  // ----- the guarantees

  /** What is consumed is a gapless prefix, in id order, of everything that ever entered the log. */
  lemma ConsumedIsGaplessPrefix(id: Uuid, turns: seq<Turn>)
    requires RunOk(turns) && !Run(id, turns).wrapped
    ensures var h := Run(id, turns);
            && Increasing(h.consumed)
            && (forall x <- h.entered :: x in h.consumed <==> x.Le(h.log.lastCommitted))
            && (forall x <- h.entered :: x in h.log.entries <==> h.log.lastCommitted.Lt(x))
            && (forall x <- h.consumed :: x in h.entered)
            && h.log.entries.Keys <= h.entered
            && h.log.lastFuseCommit.Le(h.log.lastCommitted)
  {
    hide Run;
    RunInv(id, turns);
  }

  /** Guarantee 1: two messages delivered at two hubs are delivered in the same order at both. */
  lemma SameOrderEverywhere(id: Uuid, turns: seq<Turn>, id': Uuid, turns': seq<Turn>, a: MessageId, b: MessageId)
    requires RunOk(turns) && RunOk(turns') && !Run(id, turns).wrapped && !Run(id', turns').wrapped
    requires Before(DeliveredIds(Run(id, turns).events), a, b)
    requires a in DeliveredIds(Run(id', turns').events) && b in DeliveredIds(Run(id', turns').events)
    ensures Before(DeliveredIds(Run(id', turns').events), a, b)
  {
    hide Run, DeliveredIds, Valid, ConsumedOk;
    RunInv(id, turns);
    RunInv(id', turns');
    BeforeIffLt(DeliveredIds(Run(id, turns).events), a, b);
    BeforeIffLt(DeliveredIds(Run(id', turns').events), a, b);
  }

  /** Guarantee 2: what a hub sent first is delivered first wherever both messages are delivered. */
  lemma SenderOrderEverywhere(id: Uuid, turns: seq<Turn>, id': Uuid, turns': seq<Turn>, i: nat, j: nat)
    requires RunOk(turns) && RunOk(turns') && !Run(id, turns).wrapped && !Run(id', turns').wrapped
    requires i < j < |Run(id, turns).posted|
    requires Run(id, turns).posted[i].Id() in DeliveredIds(Run(id', turns').events)
    requires Run(id, turns).posted[j].Id() in DeliveredIds(Run(id', turns').events)
    ensures Before(DeliveredIds(Run(id', turns').events), Run(id, turns).posted[i].Id(), Run(id, turns).posted[j].Id())
  {
    hide Run, DeliveredIds, Valid, ConsumedOk;
    RunInv(id, turns);
    RunInv(id', turns');
    var posted := Run(id, turns).posted;
    assert PostedIds(posted)[i].Lt(PostedIds(posted)[j]);
    BeforeIffLt(DeliveredIds(Run(id', turns').events), posted[i].Id(), posted[j].Id());
  }

  /** Folding the membership callbacks from the hub alone gives the latest configuration, which is the node
      set of the graph the routing table was computed from. */
  lemma MembershipReplay(id: Uuid, turns: seq<Turn>)
    requires RunOk(turns) && !Run(id, turns).wrapped
    ensures var h := Run(id, turns);
            Membership(h.events, {id}) == LatestConfig(h) == h.routing.nodes
  {
    hide Run;
    RunInv(id, turns);
    RunId(id, turns);
  }

  /** Everything a hub constructs satisfies what StepOk asks of messages heard. */
  lemma PostedMessagesAreWellFormed(id: Uuid, turns: seq<Turn>)
    requires RunOk(turns) && !Run(id, turns).wrapped
    ensures forall m <- Run(id, turns).posted :: WellFormed(m) && m.op == id && m.ts <= Run(id, turns).clock
  {
    hide Run;
    RunInv(id, turns);
    RunId(id, turns);
  }
}
