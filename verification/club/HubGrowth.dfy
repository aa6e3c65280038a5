/** What the handlers of a hub only add to: the messages it constructed, with one tick of the clock for each and the
    right predecessor in it, and what it handed to the sockets of the peers it is connected to. */
module HubGrowth {
  import opened Basics
  import opened MessageIds
  import opened Messages
  import opened Graphs
  import opened Logs
  import opened Seen
  import opened Hubs

  /** Nothing that was handed to a socket is taken back. */
  ghost predicate SendsMore(h: HubState, h': HubState) {
    forall w: Uuid :: QueueTo(h.sent, w) <= QueueTo(h'.sent, w)
  }

  /** Peers that are not connected stay so and are sent nothing. */
  ghost predicate KeepsApart(h: HubState, h': HubState) {
    forall w: Uuid :: w !in Connected(h) ==> w !in Connected(h') && QueueTo(h'.sent, w) == QueueTo(h.sent, w)
  }

  /** Every message reports as predecessor the id that stood immediately before the acknowledged one in the log. */
  ghost predicate Reports(h: HubState) {
    && |h.basis| == |h.posted|
    && forall i :: 0 <= i < |h.posted| ==>
         StandsBefore(h.basis[i], h.posted[i].body.ack.acked, h.posted[i].body.ack.prev)
  }

  /** From clock c, h became h' by constructing and sending messages, with one tick for each that it constructed. */
  ghost predicate GrowsFrom(c: nat, h: HubState, h': HubState) {
    && SendsMore(h, h') && KeepsApart(h, h')
    && h.posted <= h'.posted && (Reports(h) ==> Reports(h'))
    && h'.clock <= c + |h'.posted| - |h.posted|
    && (h'.wrapped ==> h.wrapped || c + |h'.posted| - |h.posted| >= TIMESTAMP_LIMIT)
  }

  ghost predicate Grows(h: HubState, h': HubState) {
    GrowsFrom(h.clock, h, h')
  }

  /** All that was constructed is user data. */
  ghost predicate OnlyData(h: HubState, h': HubState) {
    && h.posted <= h'.posted
    && forall i :: |h.posted| <= i < |h'.posted| ==> h'.posted[i].body.UserData?
  }

  lemma GrowsOn(c: nat, h: HubState, h1: HubState, h2: HubState)
    requires GrowsFrom(c, h, h1) && Grows(h1, h2)
    ensures GrowsFrom(c, h, h2)
  {
    hide Reports, Connected;
  }

  lemma OnlyDataOn(h: HubState, h1: HubState, h2: HubState)
    requires OnlyData(h, h1) && OnlyData(h1, h2)
    ensures OnlyData(h, h2)
  {
  }

  /** The same in all that matters here, but for connections that were given up. */
  ghost predicate SameGrowth(h: HubState, h': HubState) {
    && h'.sent == h.sent && h'.posted == h.posted && h'.basis == h.basis && h'.wrapped == h.wrapped
    && h'.clock == h.clock && Connected(h') <= Connected(h)
  }

  lemma GrowsNot(h: HubState, h': HubState)
    requires SameGrowth(h, h')
    ensures Grows(h, h') && OnlyData(h, h')
  {
    hide Connected;
  }

  /** Only these parts of the hub matter. */
  lemma GrowsFrame(c: nat, h: HubState, h0: HubState, h': HubState)
    requires GrowsFrom(c, h, h') && h0 == h.(script := h0.script)
    ensures GrowsFrom(c, h0, h')
  {
    assert Connected(h0) == Connected(h);
  }

  lemma BroadcastGrows(h: HubState, m: Message)
    ensures SendsMore(h, Broadcast(h, m)) && KeepsApart(h, Broadcast(h, m))
  {
    hide Enqueue;
    var h' := Broadcast(h, m);
    forall w: Uuid
      ensures QueueTo(h.sent, w) <= QueueTo(h'.sent, w)
      ensures w !in Connected(h) ==> w !in Connected(h') && QueueTo(h'.sent, w) == QueueTo(h.sent, w)
    {
    }
  }

  lemma ReportsMore(h: HubState, h': HubState, m: Message)
    requires h'.posted == h.posted + [m] && h'.basis == h.basis + [h.log.entries.Keys]
    requires StandsBefore(h.log.entries.Keys, m.body.ack.acked, m.body.ack.prev)
    ensures Reports(h) ==> Reports(h')
  {
    hide StandsBefore;
  }

  /** One message is constructed and flooded. */
  lemma PostGrows(h: HubState, m: Message)
    requires StandsBefore(h.log.entries.Keys, m.body.ack.acked, m.body.ack.prev)
    ensures Grows(h, Post(h, m))
  {
    hide Broadcast, StandsBefore, Reports;
    var p := Tick(h).(posted := h.posted + [m], basis := h.basis + [h.log.entries.Keys]);
    BroadcastGrows(p, m);
    ReportsMore(h, Post(h, m), m);
    assert Connected(p) == Connected(h) && Connected(Post(h, m)) == Connected(h);
  }

  lemma AckableGrows(h: HubState, r: Request)
    ensures Grows(h, PostAckable(h, r)) && (r.Say? ==> OnlyData(h, PostAckable(h, r)))
  {
    hide InsertEntry, Post, GrowsFrom, PredecessorTime;
    var m := AckableMessage(h, r);
    PredecessorStandsBefore(h.log, m.Id());
    PostGrows(h, m);
    var p := Post(h, m);
    assert Connected(AddLogEntry(p, m)) == Connected(p);
    GrowsNot(p, AddLogEntry(p, m));
    GrowsOn(h.clock, h, p, AddLogEntry(p, m));
  }

  lemma AckGrows(h: HubState, acked: MessageId)
    ensures Grows(h, PostAck(h, acked))
  {
    hide ApplyAck, Post, GrowsFrom, PredecessorTime;
    var m := AckMessage(h, acked);
    PredecessorStandsBefore(h.log, acked);
    PostGrows(h, m);
    var p := Post(h, m);
    assert Connected(PostAck(h, acked)) == Connected(p);
    GrowsNot(p, PostAck(h, acked));
    GrowsOn(h.clock, h, p, PostAck(h, acked));
  }

  lemma {:induction false} PostAllGrows(h: HubState, payloads: seq<Bytes>)
    ensures Grows(h, PostAll(h, payloads)) && OnlyData(h, PostAll(h, payloads))
    decreases |payloads|
  {
    hide PostAckable, GrowsFrom, OnlyData;
    if payloads == [] {
      GrowsNot(h, h);
    } else {
      var h1 := PostAckable(h, Say(payloads[0]));
      AckableGrows(h, Say(payloads[0]));
      PostAllGrows(h1, payloads[1..]);
      GrowsOn(h.clock, h, h1, PostAll(h, payloads));
      OnlyDataOn(h, h1, PostAll(h, payloads));
    }
  }

  lemma CallbackGrows(h: HubState, e: Event)
    ensures Grows(h, Callback(h, e)) && OnlyData(h, Callback(h, e))
  {
    hide PostAll, Work, GrowsFrom, OnlyData;
    var h1 := h.(events := h.events + [e], script := if h.script == [] then [] else h.script[1..]);
    assert Connected(h1) == Connected(h);
    GrowsNot(h, h1);
    if h.script != [] {
      PostAllGrows(h1, h.script[0]);
      GrowsOn(h.clock, h, h1, Callback(h, e));
      OnlyDataOn(h, h1, Callback(h, e));
    }
  }

  lemma ReportGrows(h: HubState, e: Event)
    requires e.Inserted? || e.Removed?
    ensures Grows(h, Report(h, e)) && OnlyData(h, Report(h, e))
  {
    hide Callback, GrowsFrom, OnlyData, Work;
    CallbackGrows(h, e);
    GrowsNot(h, h);
  }

  lemma CommitFuseGrows(h: HubState, e: LogEntry)
    ensures Grows(h, CommitFuse(h, e)) && OnlyData(h, CommitFuse(h, e))
  {
    hide Report, GrowsFrom, OnlyData, AcksToGraph, LatestConfig, ForgetAll, Work;
    GrowsNot(h, h);
    if e.AckedByQuorum() {
      var i := Installed(h, e);
      var h1 := Report(i, Inserted(e.quorum - LatestConfig(h)));
      assert Connected(i) <= Connected(h);
      GrowsNot(h, i);
      ReportGrows(i, Inserted(e.quorum - LatestConfig(h)));
      GrowsOn(h.clock, h, i, h1);
      OnlyDataOn(h, i, h1);
      ReportGrows(h1, Removed(LatestConfig(h) - e.quorum));
      GrowsOn(h.clock, h, h1, CommitFuse(h, e));
      OnlyDataOn(h, h1, CommitFuse(h, e));
    }
  }

  lemma CommitEntryGrows(h: HubState, k: MessageId)
    requires k in h.log.entries && !h.log.entries[k].message.body.Ack?
    ensures Grows(h, CommitEntry(h, k)) && OnlyData(h, CommitEntry(h, k))
  {
    hide Callback, CommitFuse, GrowsFrom, OnlyData, Work, SeenEverythingUpTo, Consume;
    var e, d := h.log.entries[k], Departed(h, k);
    assert Connected(d) == Connected(h);
    GrowsNot(h, d);
    GrowsNot(d, d);
    if e.message.body.UserData? {
      CallbackGrows(d, Delivered(e.message.Id(), e.message.body.data));
    } else {
      CommitFuseGrows(d, e);
    }
    GrowsOn(h.clock, h, d, CommitEntry(h, k));
    OnlyDataOn(h, d, CommitEntry(h, k));
  }

  lemma {:induction false} LoopGrows(h: HubState, cursor: Option<MessageId>, lastFuse: Option<MessageId>,
                                     live: set<Uuid>)
    ensures Grows(h, Loop(h, cursor, lastFuse, live)) && OnlyData(h, Loop(h, cursor, lastFuse, live))
    decreases Work(h)
  {
    hide Work, CommitEntry, Judge, Next, GrowsFrom, OnlyData;
    GrowsNot(h, h);
    if cursor.Some? && cursor.value in h.log.entries && !h.log.entries[cursor.value].message.body.Ack? {
      var k, h' := cursor.value, Loop(h, cursor, lastFuse, live);
      var next := Next(h.log.entries.Keys, k);
      match Judge(h, k, lastFuse, live)
      case Stop =>
      case Discard =>
        var h1 := TakeOut(h, k);
        assert Connected(h1) == Connected(h);
        GrowsNot(h, h1);
        LoopGrows(h1, next, lastFuse, live);
        GrowsOn(h.clock, h, h1, h');
        OnlyDataOn(h, h1, h');
      case Commit =>
        var h1 := CommitEntry(h, k);
        CommitEntryGrows(h, k);
        LoopGrows(h1, next, if lastFuse == Some(k) then None else lastFuse, live);
        GrowsOn(h.clock, h, h1, h');
        OnlyDataOn(h, h1, h');
    }
  }

  lemma CommitGrows(h: HubState)
    ensures var h' := CommitWhatWasSeenByEveryone(h);
            Grows(h, h') && OnlyData(h, h')
  {
    hide GrowsFrom, OnlyData, Loop, LastCommittableFuse, LiveNodes, First;
    LoopGrows(h, First(h.log.entries.Keys), LastCommittableFuse(h.log), LiveNodes(h));
  }

  lemma LogGrows(h: HubState, h': HubState)
    requires h' == h.(log := h'.log, entered := h'.entered, late := h'.late)
    ensures Grows(h, h')
  {
    hide GrowsFrom;
    assert Connected(h') == Connected(h);
    GrowsNot(h, h');
  }

  lemma ProcessGrows(h: HubState, m: Message)
    ensures Grows(h, Process(h, m))
  {
    hide PostAck, CommitWhatWasSeenByEveryone, InsertEntry, ApplyAck, FuseIds, GrowsFrom;
    match m.body
    case Ack(_) =>
      LogGrows(h, Process(h, m));
    case Fuse(_, _) =>
      var h1 := AddLogEntry(h, m);
      var h2 := PostAck(h1, m.Id());
      LogGrows(h, h1);
      AckGrows(h1, m.Id());
      GrowsOn(h.clock, h, h1, h2);
      CommitGrows(h2);
      GrowsOn(h.clock, h, h2, CommitWhatWasSeenByEveryone(h2));
    case UserData(_, _) =>
      var h1 := PostAck(h, m.Id());
      AckGrows(h, m.Id());
      LogGrows(h1, AddLogEntry(h1, m));
      GrowsOn(h.clock, h, h1, AddLogEntry(h1, m));
  }

  lemma NoteGrows(h: HubState, m: Message)
    ensures GrowsFrom(Max(h.clock, m.ts), h, Note(h, m)) && GrowsFrom(Max(h.clock, m.ts), h, Accept(h, m))
  {
    hide Broadcast, Insert, Reports;
    var n := Note(h, m);
    assert Connected(n) == Connected(h);
    assert Reports(h) ==> Reports(n) && Reports(Accept(h, m)) by { SameReports(h, n); SameReports(h, Accept(h, m)); }
    var r := n.(received := n.received + [m]);
    assert Connected(r) == Connected(h);
    BroadcastGrows(r, m.(visited := m.visited + {h.id}));
  }

  lemma SameReports(h: HubState, h': HubState)
    requires h'.posted == h.posted && h'.basis == h.basis
    ensures Reports(h) ==> Reports(h')
  {
  }

  lemma OnRecvGrows(h: HubState, m: Message)
    ensures GrowsFrom(Max(h.clock, m.ts), h, OnRecv(h, m))
  {
    hide Process, CommitWhatWasSeenByEveryone, Accept, Note, IsIn, GrowsFrom;
    var c := Max(h.clock, m.ts);
    NoteGrows(h, m);
    GrowsLater(h, c);
    var h1 := Process(Accept(h, m), m);
    ProcessGrows(Accept(h, m), m);
    GrowsOn(c, h, Accept(h, m), h1);
    CommitGrows(h1);
    GrowsOn(c, h, h1, CommitWhatWasSeenByEveryone(h1));
  }

  lemma GrowsLater(h: HubState, c: nat)
    requires c >= h.clock
    ensures GrowsFrom(c, h, h)
  {
  }

  /** The highest timestamp heard in a step. */
  function HeardStamp(step: Step): nat {
    if step.Hear? then step.message.ts else 0
  }

  /** The hub with the connection made or given up that the step is about. */
  function Prepared(h: HubState, step: Step): HubState {
    match step
    case Meet(peer) => if peer == h.id then h else h.(nodes := h.nodes[peer := true])
    case Lose(peer) => h.(nodes := if peer in h.nodes then h.nodes[peer := false] else h.nodes)
    case _ => h
  }

  lemma MeetGrows(h: HubState, peer: Uuid)
    ensures Grows(h, CommitWhatWasSeenByEveryone(Callback(PostAckable(h, Join(peer)), Fused(peer))))
  {
    hide PostAckable, CommitWhatWasSeenByEveryone, Callback, GrowsFrom;
    var posted := PostAckable(h, Join(peer));
    var joined := Callback(posted, Fused(peer));
    AckableGrows(h, Join(peer));
    CallbackGrows(posted, Fused(peer));
    GrowsOn(h.clock, h, posted, joined);
    CommitGrows(joined);
    GrowsOn(h.clock, h, joined, CommitWhatWasSeenByEveryone(joined));
  }

  lemma LoseGrows(h: HubState, peer: Uuid)
    ensures Grows(h, CommitWhatWasSeenByEveryone(PostAckable(h, Join(peer))))
  {
    hide PostAckable, CommitWhatWasSeenByEveryone, GrowsFrom;
    var posted := PostAckable(h, Join(peer));
    AckableGrows(h, Join(peer));
    CommitGrows(posted);
    GrowsOn(h.clock, h, posted, CommitWhatWasSeenByEveryone(posted));
  }

  /** What a step does once its connection is made or given up. */
  function Rest(h: HubState, step: Step): HubState {
    match step
    case Speak(data) => PostAckable(h, Say(data))
    case Poll => CommitWhatWasSeenByEveryone(h)
    case Hear(m) => OnRecv(h, m)
    case Meet(peer) =>
      if peer == h.id then h
      else CommitWhatWasSeenByEveryone(Callback(PostAckable(h, Join(peer)), Fused(peer)))
    case Lose(peer) => CommitWhatWasSeenByEveryone(PostAckable(h, Join(peer)))
  }

  lemma DoIsRest(h0: HubState, step: Step, script: seq<seq<Bytes>>)
    ensures Do(h0, step, script) == Rest(Prepared(h0, step).(script := script), step)
  {
    hide PostAckable, CommitWhatWasSeenByEveryone, OnRecv, Callback;
    var h := h0.(script := script);
    assert Prepared(h, step) == Prepared(h0, step).(script := script);
  }

  lemma RestGrows(h: HubState, step: Step)
    ensures GrowsFrom(Max(h.clock, HeardStamp(step)), h, Rest(h, step))
  {
    hide PostAckable, CommitWhatWasSeenByEveryone, OnRecv, Callback, GrowsFrom;
    match step
    case Speak(data) => AckableGrows(h, Say(data));
    case Poll => CommitGrows(h);
    case Hear(m) => OnRecvGrows(h, m);
    case Meet(peer) =>
      MeetGrows(h, peer);
      GrowsLater(h, h.clock);
    case Lose(peer) => LoseGrows(h, peer);
  }

  lemma DoGrows(h0: HubState, step: Step, script: seq<seq<Bytes>>)
    ensures GrowsFrom(Max(h0.clock, HeardStamp(step)), Prepared(h0, step), Do(h0, step, script))
  {
    hide Rest, Do, GrowsFrom;
    var h := Prepared(h0, step).(script := script);
    DoIsRest(h0, step, script);
    RestGrows(h, step);
    GrowsFrame(Max(h0.clock, HeardStamp(step)), h, Prepared(h0, step), Do(h0, step, script));
  }
}
