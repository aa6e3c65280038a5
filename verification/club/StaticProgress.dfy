/** Nothing gets stuck: when a network with static membership has nothing left under way, a hub that runs its
    commit loop has delivered everything anyone ever broadcast. Together with StaticRuns this makes the
    broadcast atomic: all hubs deliver the same messages in the same order. */
module StaticProgress {
  import opened Basics
  import opened MessageIds
  import opened Messages
  import opened Logs
  import opened Seen
  import opened Hubs
  import opened HubOrder
  import opened Flooding
  import opened StaticOrder
  import opened StaticRuns

  // ----- predecessors are messages that exist

  /** A reported predecessor of k is none at all, or user data below k. */
  ghost predicate PrevFine(s: Flood, p: MessageId, k: MessageId) {
    p == NO_MESSAGE || (p.Lt(k) && SaidId(s, p))
  }

  /** A recorded predecessor of k is consumed, or user data below k. */
  ghost predicate PredFine(s: Flood, last: MessageId, p: MessageId, k: MessageId) {
    p.Le(last) || (p.Lt(k) && SaidId(s, p))
  }

  ghost predicate PredsFine(s: Flood, l: LogState) {
    forall k <- l.entries.Keys :: forall p <- l.entries[k].predecessors :: PredFine(s, l.lastCommitted, p, k)
  }

  ghost predicate AcksPrevFine(s: Flood, k: MessageId, acks: map<Uuid, AckData>) {
    forall q <- acks.Keys :: PrevFine(s, acks[q].prev, k)
  }

  ghost predicate PendingPrevs(s: Flood, l: LogState) {
    forall k <- l.pendingAcks.Keys :: l.lastCommitted.Lt(k) ==> AcksPrevFine(s, k, l.pendingAcks[k])
  }

  ghost predicate PostedPrevs(s: Flood, posted: seq<Message>) {
    forall m <- posted :: PrevFine(s, m.body.ack.prev, m.body.ack.acked)
  }

  ghost predicate OwnAcked(l: LogState) {
    forall k <- l.entries.Keys :: k.op in l.entries[k].acks
  }

  ghost predicate LogDiligent(s: Flood, l: LogState) {
    PredsFine(s, l) && PendingPrevs(s, l) && OwnAcked(l)
  }

  // ----- acknowledgements are not lost

  /** The acknowledgement of k by q is with the entry, waits for it, or came when k was consumed. */
  ghost predicate AckRecorded(l: LogState, entered: set<MessageId>, q: Uuid, k: MessageId) {
    if k in l.entries then q in l.entries[k].acks
    else k in entered || (k in l.pendingAcks && q in l.pendingAcks[k])
  }

  ghost predicate Recorded(l: LogState, entered: set<MessageId>, ms: seq<Message>) {
    forall a <- ms :: a.body.Ack? ==> AckRecorded(l, entered, a.op, a.body.ack.acked)
  }

  ghost function AckedBy(ms: seq<Message>): set<MessageId> {
    set m <- ms | m.body.Ack? :: m.body.ack.acked
  }

  /** Every user data received was acknowledged. */
  ghost predicate Answered(posted: seq<Message>, received: seq<Message>) {
    forall m <- received :: m.body.UserData? ==> m.Id() in AckedBy(posted)
  }

  /** The hub has dealt with what it constructed and with the receipts `rec`. */
  ghost predicate Diligent(s: Flood, h: HubState, rec: seq<Message>) {
    && LogDiligent(s, h.log)
    && Recorded(h.log, h.entered, h.posted)
    && Recorded(h.log, h.entered, rec)
    && Answered(h.posted, rec)
  }

  ghost predicate PrevsFine(net: Net, s: Flood) {
    forall q <- net.members :: PostedPrevs(s, Posted(s, q))
  }

  // ----- stability

  lemma SaidIdStable(s: Flood, s': Flood, k: MessageId)
    requires Extends(s, s') && SaidId(s, k)
    ensures SaidId(s', k)
  {
    var d :| Says(s, k, d);
    SaysStable(s, s', k, d);
  }

  lemma PrevStable(s: Flood, s': Flood, p: MessageId, k: MessageId)
    requires Extends(s, s') && PrevFine(s, p, k)
    ensures PrevFine(s', p, k)
  {
    hide SaidId, Extends;
    if p != NO_MESSAGE {
      SaidIdStable(s, s', p);
    }
  }

  lemma LogDiligentStable(s: Flood, s': Flood, l: LogState)
    requires Extends(s, s') && LogDiligent(s, l)
    ensures LogDiligent(s', l)
  {
    hide SaidId, Extends;
    forall k <- l.entries.Keys, p <- l.entries[k].predecessors
      ensures PredFine(s', l.lastCommitted, p, k)
    {
      assert PredFine(s, l.lastCommitted, p, k);
      if !p.Le(l.lastCommitted) {
        SaidIdStable(s, s', p);
      }
    }
    forall k <- l.pendingAcks.Keys, q <- l.pendingAcks[k].Keys | l.lastCommitted.Lt(k)
      ensures PrevFine(s', l.pendingAcks[k][q].prev, k)
    {
      assert AcksPrevFine(s, k, l.pendingAcks[k]);
      PrevStable(s, s', l.pendingAcks[k][q].prev, k);
    }
  }

  lemma DiligentStable(s: Flood, s': Flood, h: HubState, rec: seq<Message>)
    requires Extends(s, s') && Diligent(s, h, rec)
    ensures Diligent(s', h, rec)
  {
    hide Extends, LogDiligent;
    LogDiligentStable(s, s', h.log);
  }

  lemma PostedPrevsStable(s: Flood, s': Flood, posted: seq<Message>)
    requires Extends(s, s') && PostedPrevs(s, posted)
    ensures PostedPrevs(s', posted)
  {
    hide Extends, PrevFine;
    forall m <- posted
      ensures PrevFine(s', m.body.ack.prev, m.body.ack.acked)
    {
      PrevStable(s, s', m.body.ack.prev, m.body.ack.acked);
    }
  }

  // ----- operations of the log

  lemma ApplyAckDiligent(s: Flood, l: LogState, q: Uuid, ack: AckData)
    requires LogDiligent(s, l) && PrevFine(s, ack.prev, ack.acked)
    ensures LogDiligent(s, ApplyAck(l, q, ack))
  {
    hide SaidId;
  }

  lemma ApplyAckRecorded(l: LogState, entered: set<MessageId>, q: Uuid, ack: AckData, ms: seq<Message>)
    requires Recorded(l, entered, ms)
    ensures Recorded(ApplyAck(l, q, ack), entered, ms) && AckRecorded(ApplyAck(l, q, ack), entered, q, ack.acked)
  {
    forall a <- ms | a.body.Ack?
      ensures AckRecorded(ApplyAck(l, q, ack), entered, a.op, a.body.ack.acked)
    {
      assert AckRecorded(l, entered, a.op, a.body.ack.acked);
    }
  }

  lemma LinkPredecessors(l: LogState, m: Message, k: MessageId, p: MessageId)
    requires m.Id() !in l.entries && k in Linked(l, m) && p in Linked(l, m)[k].predecessors
    ensures k != m.Id() ==> k in l.entries && (p in l.entries[k].predecessors || (p == m.Id() && m.Id().Lt(k)))
    ensures k == m.Id() ==> p == l.lastCommitted || (p in l.entries && p.Lt(k))
  {
  }

  lemma LinkedMessage(l: LogState, m: Message)
    requires m.Id() !in l.entries
    ensures Linked(l, m)[m.Id()].message == m
  {
  }

  lemma PendingPredecessors(l: LogState, id: MessageId, k: MessageId, p: MessageId)
    requires id in l.entries && k in l.entries && p in TakePending(l, id).entries[k].predecessors
    ensures p in l.entries[k].predecessors ||
            (k == id && exists q :: q in PendingFor(l.pendingAcks, k) && PendingFor(l.pendingAcks, k)[q].prev == p)
  {
  }

  lemma OwnPredecessors(l: LogState, id: MessageId, k: MessageId, p: MessageId)
    requires id in l.entries && k in l.entries && l.entries[id].message.body.ack.acked == id
    requires p in Spend(ApplyOwnAck(l, id), id).entries[k].predecessors
    ensures p in l.entries[k].predecessors || (k == id && p == l.entries[id].message.body.ack.prev)
  {
  }

  /** Where the predecessor of an entry after an insertion comes from. */
  ghost predicate PredecessorSource(l: LogState, m: Message, k: MessageId, p: MessageId) {
    if k != m.Id() then k in l.entries && (p in l.entries[k].predecessors || (p == m.Id() && m.Id().Lt(k)))
    else
      || p == l.lastCommitted || (p in l.entries && p.Lt(k)) || p == m.body.ack.prev
      || exists q :: q in PendingFor(l.pendingAcks, k) && PendingFor(l.pendingAcks, k)[q].prev == p
  }

  lemma InsertPredecessors(l: LogState, m: Message, k: MessageId, p: MessageId)
    requires m.Id() !in l.entries && l.lastCommitted.Lt(m.Id()) && m.body.ack.acked == m.Id()
    requires k in InsertEntry(l, m).entries && p in InsertEntry(l, m).entries[k].predecessors
    ensures PredecessorSource(l, m, k, p)
  {
    hide Linked, TakePending, ApplyOwnAck, Spend;
    var id := m.Id();
    var l1 := LinkIn(l, m);
    var l2 := TakePending(l1, id);
    LinkedMessage(l, m);
    TakePendingMessage(l1, id);
    OwnPredecessors(l2, id, k, p);
    if p in l2.entries[k].predecessors {
      PendingPredecessors(l1, id, k, p);
      if p in l1.entries[k].predecessors {
        LinkPredecessors(l, m, k, p);
      }
    }
  }

  lemma TakePendingMessage(l: LogState, id: MessageId)
    requires id in l.entries
    ensures TakePending(l, id).entries[id].message == l.entries[id].message
  {
  }

  lemma InsertDiligent(s: Flood, l: LogState, m: Message)
    requires LogDiligent(s, l) && Keyed(l) && EntriesFine(s, l)
    requires m.Id() !in l.entries && l.lastCommitted.Lt(m.Id()) && m.body.ack.acked == m.Id()
    requires SaidId(s, m.Id()) && PrevFine(s, m.body.ack.prev, m.Id())
    ensures LogDiligent(s, InsertEntry(l, m))
  {
    hide InsertEntry;
    var r := InsertEntry(l, m);
    InsertEntryFrame(l, m);
    forall k <- r.entries.Keys, p <- r.entries[k].predecessors
      ensures PredFine(s, r.lastCommitted, p, k)
    {
      InsertPredecessors(l, m, k, p);
      SourceFine(s, l, m, k, p);
    }
  }

  lemma SourceFine(s: Flood, l: LogState, m: Message, k: MessageId, p: MessageId)
    requires LogDiligent(s, l) && EntriesFine(s, l) && PredecessorSource(l, m, k, p) && l.lastCommitted.Lt(m.Id())
    requires SaidId(s, m.Id()) && PrevFine(s, m.body.ack.prev, m.Id())
    ensures PredFine(s, l.lastCommitted, p, k)
  {
    if k != m.Id() {
      if p in l.entries[k].predecessors {
        assert PredFine(s, l.lastCommitted, p, k);
      }
    } else if p in l.entries && p.Lt(k) {
      assert Says(s, p, l.entries[p].message.body.data);
    } else if p != l.lastCommitted && p != m.body.ack.prev {
      assert k in l.pendingAcks && AcksPrevFine(s, k, l.pendingAcks[k]);
    }
  }

  lemma InsertRecorded(l: LogState, entered: set<MessageId>, m: Message, ms: seq<Message>)
    requires Recorded(l, entered, ms) && Keyed(l)
    requires m.Id() !in l.entries && m.Id() !in entered && l.lastCommitted.Lt(m.Id()) && m.body.ack.acked == m.Id()
    ensures Recorded(InsertEntry(l, m), entered + {m.Id()}, ms)
  {
    hide InsertEntry;
    InsertEntryFrame(l, m);
    forall a <- ms | a.body.Ack?
      ensures AckRecorded(InsertEntry(l, m), entered + {m.Id()}, a.op, a.body.ack.acked)
    {
      assert AckRecorded(l, entered, a.op, a.body.ack.acked);
    }
  }

  lemma ConsumeDiligent(s: Flood, l: LogState, k: MessageId, fuse: MessageId)
    requires LogDiligent(s, l) && l.lastCommitted.Lt(k)
    ensures LogDiligent(s, Consume(l, k).(lastFuseCommit := fuse))
  {
    hide SaidId;
    var r := Consume(l, k).(lastFuseCommit := fuse);
    forall x <- r.entries.Keys, p <- r.entries[x].predecessors
      ensures PredFine(s, k, p, x)
    {
      assert PredFine(s, l.lastCommitted, p, x);
    }
  }

  lemma ConsumeRecorded(l: LogState, entered: set<MessageId>, k: MessageId, fuse: MessageId, ms: seq<Message>)
    requires Recorded(l, entered, ms) && k in entered
    ensures Recorded(Consume(l, k).(lastFuseCommit := fuse), entered, ms)
  {
    forall a <- ms | a.body.Ack?
      ensures AckRecorded(Consume(l, k).(lastFuseCommit := fuse), entered, a.op, a.body.ack.acked)
    {
      assert AckRecorded(l, entered, a.op, a.body.ack.acked);
    }
  }

  // ----- handlers of a hub

  ghost predicate Busy(net: Net, s: Flood, v: Uuid, h: HubState, rec: seq<Message>) {
    FineAt(net, s, v, h, {}) && PrevsFine(net, s) && Diligent(s, h, rec)
  }

  lemma PostPrevs(net: Net, s: Flood, v: Uuid, m: Message)
    requires PrevsFine(net, s) && CanPost(s, v, m) && PrevFine(s, m.body.ack.prev, m.body.ack.acked)
    ensures PrevsFine(net, PostStep(net, s, v, m))
  {
    hide PrevFine, CanPost;
    var s' := PostStep(net, s, v, m);
    PostExtends(net, s, v, m);
    forall q <- net.members
      ensures PostedPrevs(s', Posted(s', q))
    {
      PostFacts(net, s, v, m, q, q);
      PostedPrevsStable(s, s', Posted(s, q));
      PrevStable(s, s', m.body.ack.prev, m.body.ack.acked);
    }
  }

  lemma PredecessorIsSaid(s: Flood, l: LogState, id: MessageId)
    requires EntriesFine(s, l)
    ensures PrevFine(s, PredecessorTime(l, id), id)
  {
    var p := PredecessorTime(l, id);
    if Below(l.entries.Keys, id) != {} {
      assert Says(s, p, l.entries[p].message.body.data);
    }
  }

  lemma FineKnows(net: Net, s: Flood, v: Uuid, h: HubState, out: set<MessageId>)
    requires FineAt(net, s, v, h, out)
    ensures EntriesFine(s, h.log) && Keyed(h.log) && StaticHub(net, v, h) && Knowing(net, s, v, h)
    ensures forall k :: h.log.lastCommitted.Lt(k) && k !in h.log.entries ==> k !in h.entered
    ensures h.log.entries.Keys <= h.entered
  {
    hide NetFine, MembershipOk, LogAcksFine, Stable, SeenSound, EventsFine, SeenComplete, EnteredFine, Says,
         DeliveredOk, PostedOk, ConfigsOk;
  }

  lemma AnswersGrow(posted: seq<Message>, m: Message, rec: seq<Message>)
    requires Answered(posted, rec)
    ensures Answered(posted + [m], rec)
    ensures m.body.Ack? ==> m.body.ack.acked in AckedBy(posted + [m])
  {
    assert forall x :: x in posted ==> x in posted + [m];
    assert m in posted + [m];
    forall x <- AckedBy(posted)
      ensures x in AckedBy(posted + [m])
    {
      var y :| y in posted && y.body.Ack? && y.body.ack.acked == x;
    }
  }

  lemma RecordedGrow(l: LogState, entered: set<MessageId>, ms: seq<Message>, m: Message)
    requires Recorded(l, entered, ms) && (m.body.Ack? ==> AckRecorded(l, entered, m.op, m.body.ack.acked))
    ensures Recorded(l, entered, ms + [m])
  {
  }

  /** Posting a constructed message, before the log takes it. */
  lemma PostBusy(net: Net, s: Flood, v: Uuid, h: HubState, m: Message, out: set<MessageId>)
    requires FineAt(net, s, v, h, out) && PrevsFine(net, s) && LogDiligent(s, h.log)
    requires !Tick(h).wrapped && Constructed(net, h, v, m) && PrevFine(s, m.body.ack.prev, m.body.ack.acked)
    ensures var s' := Upd(s, v, Post(h, m));
            && s' == PostStep(net, s, v, m) && PrevsFine(net, s') && LogDiligent(s', h.log) && EntriesFine(s', h.log)
            && PrevFine(s', m.body.ack.prev, m.body.ack.acked)
  {
    hide NetFine, Fine, Extends, LogDiligent, PrevFine, PrevsFine, Post, PostedShape, LogAcksFine, EntriesFine,
         Stable, SeenSound, EventsFine;
    var s' := Upd(s, v, Post(h, m));
    PostFine(net, s, v, h, m, out);
    FineKnows(net, s, v, h, out);
    MemberFlow(net, s, v, h, out);
    PostPrevs(net, s, v, m);
    KnowingStable(net, s, s', v, h);
    PrevStable(s, s', m.body.ack.prev, m.body.ack.acked);
    LogDiligentStable(s, s', h.log);
  }

  lemma EntryDiligent(s: Flood, h: HubState, m: Message, rec: seq<Message>)
    requires Diligent(s, h, rec) && Keyed(h.log) && EntriesFine(s, h.log)
    requires m.Id() !in h.log.entries && m.Id() !in h.entered && h.log.lastCommitted.Lt(m.Id()) &&
             m.body.ack.acked == m.Id()
    requires SaidId(s, m.Id()) && PrevFine(s, m.body.ack.prev, m.Id())
    ensures Diligent(s, AddLogEntry(h, m), rec)
  {
    hide InsertEntry, Recorded, Answered, LogDiligent, Keyed, EntriesFine, SaidId, PrevFine;
    InsertDiligent(s, h.log, m);
    InsertRecorded(h.log, h.entered, m, h.posted);
    InsertRecorded(h.log, h.entered, m, rec);
  }

  lemma PostAckableBusy(net: Net, s: Flood, v: Uuid, h: HubState, data: Bytes, rec: seq<Message>)
    requires Busy(net, s, v, h, rec) && !PostAckable(h, Say(data)).wrapped
    ensures var h' := PostAckable(h, Say(data));
            Busy(net, Upd(s, v, h'), v, h', rec) && Extends(s, Upd(s, v, h'))
  {
    hide FineAt, Extends, InsertEntry, PredecessorTime, LogDiligent, Recorded, Answered, PrevFine, PrevsFine,
         LatestConfig, LatestConfigId, Post, EntriesFine, Keyed, Knowing, Sound, Constructed;
    var m := AckableMessage(h, Say(data));
    var p, h' := Post(h, m), PostAckable(h, Say(data));
    var s' := Upd(s, v, h');
    PostAckableFine(net, s, v, h, data);
    FineKnows(net, s, v, h, {});
    FineMember(net, s, v, h, {});
    AckableShape(net, v, h, data);
    PredecessorIsSaid(s, h.log, m.Id());
    PostBusy(net, s, v, h, m, {});
    FreshStamp(h);
    PostedSays(net, s, v, m);
    assert s' == Upd(s, v, p);
    assert SaidId(s', m.Id());
    RecordedGrow(h.log, h.entered, h.posted, m);
    AnswersGrow(h.posted, m, rec);
    EntryDiligent(s', p, m, rec);
  }

  lemma MemberFlow(net: Net, s: Flood, v: Uuid, h: HubState, out: set<MessageId>)
    requires FineAt(net, s, v, h, out)
    ensures v in s.flows && FlowOf(s, v).clock == h.clock
  {
    hide Sound, MembershipOk, Knowing, SeenComplete, EnteredFine, Shapes, WellConnected;
  }

  lemma {:induction false} PostAllBusy(net: Net, s: Flood, v: Uuid, h: HubState, payloads: seq<Bytes>,
                                       rec: seq<Message>)
    requires Busy(net, s, v, h, rec) && !PostAll(h, payloads).wrapped
    ensures var h' := PostAll(h, payloads);
            Busy(net, Upd(s, v, h'), v, h', rec) && Extends(s, Upd(s, v, h'))
    decreases |payloads|
  {
    hide FineAt, PrevsFine, Diligent, Extends, PostAckable;
    if payloads == [] {
      FineUpd(net, s, v, h, {});
      ExtendsReflexive(s);
    } else {
      var h1 := PostAckable(h, Say(payloads[0]));
      PostAckableBusy(net, s, v, h, payloads[0], rec);
      PostAllBusy(net, Upd(s, v, h1), v, h1, payloads[1..], rec);
      UpdUpd(s, v, h1, PostAll(h, payloads));
      ExtendsTransitive(s, Upd(s, v, h1), Upd(s, v, PostAll(h, payloads)));
    }
  }

  lemma CallbackBusy(net: Net, s: Flood, v: Uuid, h: HubState, e: Event, rec: seq<Message>)
    requires Busy(net, s, v, h, rec) && EventOk(h, e) && e.Delivered? && Says(s, e.id, e.data) &&
             !Callback(h, e).wrapped
    ensures var h' := Callback(h, e);
            Busy(net, Upd(s, v, h'), v, h', rec) && Extends(s, Upd(s, v, h'))
  {
    hide NetFine, Fine, PrevsFine, LogDiligent, Recorded, Answered, Extends, PostAll, Says, EventOk, Work;
    EventFine(net, s, v, h, e);
    var h1 := h.(events := h.events + [e]);
    if h.script == [] {
      FineUpd(net, s, v, h1, {});
      ExtendsReflexive(s);
    } else {
      ScriptFine(net, s, v, h1, {}, h.script[1..]);
      PostAllBusy(net, s, v, h1.(script := h.script[1..]), h.script[0], rec);
    }
  }

  lemma CommitEntryBusy(net: Net, s: Flood, v: Uuid, h: HubState, k: MessageId, rec: seq<Message>)
    requires Busy(net, s, v, h, rec) && IsMin(h.log.entries.Keys, k)
    requires h.log.entries[k].message.body.UserData? && h.log.entries[k].AckedByAlive(net.members)
    requires !CommitEntry(h, k).wrapped
    ensures var h' := CommitEntry(h, k);
            Busy(net, Upd(s, v, h'), v, h', rec) && Extends(s, Upd(s, v, h'))
  {
    hide NetFine, Sound, MembershipOk, Knowing, Extends, Callback, Says, EventOk, Work, SeenComplete, EnteredFine,
         Stable, LatestConfig, PrevsFine, LogDiligent, Recorded, Answered;
    var e := h.log.entries[k];
    CommitIsStable(net, s, v, h, k);
    DepartedFine(net, s, v, h, k);
    EntryIsUserData(net, s, v, h, k);
    FineKnows(net, s, v, h, {});
    var d := Departed(h, k);
    var ev := Delivered(k, e.message.body.data);
    assert CommitEntry(h, k) == Callback(d, ev);
    ConsumeDiligent(s, h.log, k, h.log.lastFuseCommit);
    ConsumeRecorded(h.log, h.entered, k, h.log.lastFuseCommit, h.posted);
    ConsumeRecorded(h.log, h.entered, k, h.log.lastFuseCommit, rec);
    CallbackBusy(net, s, v, d, ev, rec);
  }

  lemma {:induction false} LoopBusy(net: Net, s: Flood, v: Uuid, h: HubState, cursor: Option<MessageId>,
                                    rec: seq<Message>)
    requires Busy(net, s, v, h, rec) && AtFront(h, cursor)
    requires !Loop(h, cursor, None, net.members).wrapped
    ensures var h' := Loop(h, cursor, None, net.members);
            Busy(net, Upd(s, v, h'), v, h', rec) && Extends(s, Upd(s, v, h'))
    decreases Work(h)
  {
    hide FineAt, PrevsFine, Diligent, Extends, CommitEntry, Work, Blocked;
    FineUpd(net, s, v, h, {});
    ExtendsReflexive(s);
    if cursor.Some? {
      var k := cursor.value;
      EntryIsUserData(net, s, v, h, k);
      if Judge(h, k, None, net.members).Commit? {
        var h1 := CommitEntry(h, k);
        var next := MessageIds.Next(h.log.entries.Keys, k);
        assert Loop(h, cursor, None, net.members) == Loop(h1, next, None, net.members);
        CommitEntryBusy(net, s, v, h, k, rec);
        FrontAdvances(net, s, v, h, k);
        LoopBusy(net, Upd(s, v, h1), v, h1, next, rec);
        var h' := Loop(h1, next, None, net.members);
        UpdUpd(s, v, h1, h');
        ExtendsTransitive(s, Upd(s, v, h1), Upd(s, v, h'));
      }
    }
  }

  lemma CommitBusy(net: Net, s: Flood, v: Uuid, h: HubState, rec: seq<Message>)
    requires Busy(net, s, v, h, rec) && !CommitWhatWasSeenByEveryone(h).wrapped
    ensures var h' := CommitWhatWasSeenByEveryone(h);
            Busy(net, Upd(s, v, h'), v, h', rec) && Extends(s, Upd(s, v, h'))
  {
    hide FineAt, PrevsFine, Diligent, Extends, Loop, LastCommittableFuse, LiveNodes;
    NoFuses(net, s, v, h);
    LoopBusy(net, s, v, h, First(h.log.entries.Keys), rec);
  }

  lemma PostAckBusy(net: Net, s: Flood, v: Uuid, h: HubState, acked: MessageId, rec: seq<Message>, out: set<MessageId>)
    requires FineAt(net, s, v, h, out) && PrevsFine(net, s) && Diligent(s, h, rec)
    requires acked.ts <= h.clock && !PostAck(h, acked).wrapped
    ensures var h' := PostAck(h, acked);
            && PrevsFine(net, Upd(s, v, h')) && Diligent(Upd(s, v, h'), h', rec)
            && acked in AckedBy(h'.posted)
  {
    hide FineAt, Extends, ApplyAck, PredecessorTime, LogDiligent, Recorded, Answered, PrevFine, PrevsFine,
         LatestConfig, LatestConfigId, Post, EntriesFine, Keyed, Knowing, Constructed, AckRecorded, AckedBy;
    var m := AckMessage(h, acked);
    var h' := PostAck(h, acked);
    var s' := Upd(s, v, h');
    FineKnows(net, s, v, h, out);
    AckShape(net, v, h, acked);
    PredecessorIsSaid(s, h.log, acked);
    PostBusy(net, s, v, h, m, out);
    assert s' == Upd(s, v, Post(h, m));
    ApplyAckDiligent(s', h.log, v, m.body.ack);
    ApplyAckRecorded(h.log, h.entered, v, m.body.ack, h.posted);
    ApplyAckRecorded(h.log, h.entered, v, m.body.ack, rec);
    RecordedGrow(h'.log, h.entered, h.posted, m);
    AnswersGrow(h.posted, m, rec);
  }

  // ----- receiving

  lemma PrevsStable(net: Net, s: Flood, s': Flood)
    requires PrevsFine(net, s) && Extends(s, s') && forall q <- net.members :: Posted(s', q) == Posted(s, q)
    ensures PrevsFine(net, s')
  {
    hide Extends, PostedPrevs;
    forall q <- net.members
      ensures PostedPrevs(s', Posted(s', q))
    {
      PostedPrevsStable(s, s', Posted(s, q));
    }
  }

  lemma AcceptBusy(net: Net, s: Flood, u: Uuid, v: Uuid, h: HubState)
    requires Busy(net, s, v, h, h.received) && CanTake(net, s, u, v) && Front(s, u, v).Id() !in Has(s, v)
    ensures var s' := AcceptStep(net, s, u, v);
            PrevsFine(net, s') && Diligent(s', Accept(h, Front(s, u, v)), h.received)
  {
    hide FineAt, Extends, LogDiligent, Recorded, Answered, PrevsFine, Has;
    var s' := AcceptStep(net, s, u, v);
    AcceptExtends(net, s, u, v);
    forall q <- net.members
      ensures Posted(s', q) == Posted(s, q)
    {
      AcceptFacts(net, s, u, v, q, q);
    }
    PrevsStable(net, s, s');
    DiligentStable(s, s', h, h.received);
  }

  lemma CopyPrev(net: Net, s: Flood, m: Message)
    requires NetFine(net, s) && PrevsFine(net, s) && Genuine(s, m)
    ensures PrevFine(s, m.body.ack.prev, m.body.ack.acked)
  {
    hide PrevFine;
    assert m.op in net.members by { CopyShape(net, s, m.op, m); }
    assert PostedPrevs(s, Posted(s, m.op));
  }

  lemma ProcessAckBusy(net: Net, s: Flood, h: HubState, m: Message, rec: seq<Message>)
    requires NetFine(net, s) && PrevsFine(net, s) && Diligent(s, h, rec) && Genuine(s, m) && m.body.Ack?
    ensures Diligent(s, Process(h, m), rec + [m])
  {
    hide NetFine, PrevsFine, Recorded, Answered, LogDiligent, PrevFine, ApplyAck, AckRecorded, Genuine;
    CopyPrev(net, s, m);
    var h' := Process(h, m);
    ApplyAckDiligent(s, h.log, m.op, m.body.ack);
    ApplyAckRecorded(h.log, h.entered, m.op, m.body.ack, h.posted);
    ApplyAckRecorded(h.log, h.entered, m.op, m.body.ack, rec);
    RecordedGrow(h'.log, h.entered, rec, m);
    assert Answered(h.posted, rec + [m]) by { AnsweredGrow(h.posted, rec, m); }
  }

  lemma AnsweredGrow(posted: seq<Message>, rec: seq<Message>, m: Message)
    requires Answered(posted, rec) && (m.body.UserData? ==> m.Id() in AckedBy(posted))
    ensures Answered(posted, rec + [m])
  {
    hide AckedBy;
  }

  lemma ProcessUserDataBusy(net: Net, s: Flood, v: Uuid, h: HubState, m: Message, rec: seq<Message>)
    requires FineAt(net, s, v, h, {m.Id()}) && PrevsFine(net, s) && Diligent(s, h, rec)
    requires JustReceived(s, v, h, m) && m.body.UserData? && !Process(h, m).wrapped
    ensures var h' := Process(h, m);
            PrevsFine(net, Upd(s, v, h')) && Diligent(Upd(s, v, h'), h', rec + [m])
  {
    hide FineAt, PrevsFine, Recorded, Answered, LogDiligent, PrevFine, PostAck, Genuine, Extends, InsertEntry,
         AckedBy, Says, WellFormed, NetFine, EntriesFine, Keyed, Knowing;
    assert NetFine(net, s) by { FineNet(net, s, v, h, {m.Id()}); }
    CopyShape(net, s, v, m);
    CopyPrev(net, s, m);
    OwnAck(m);
    PostAckBusy(net, s, v, h, m.Id(), rec, {m.Id()});
    PostAckFine(net, s, v, h, m.Id(), {m.Id()});
    var h1 := PostAck(h, m.Id());
    var s1 := Upd(s, v, h1);
    assert SaidId(s, m.Id());
    SaidIdStable(s, s1, m.Id());
    PrevStable(s, s1, m.body.ack.prev, m.Id());
    PostAckFrame(h, m.Id());
    FineKnows(net, s1, v, h1, {m.Id()});
    EntryDiligent(s1, h1, m, rec);
    AnsweredGrow(h1.posted, rec, m);
    var h' := Process(h, m);
    RecordedGrow(h'.log, h'.entered, rec, m);
  }

  lemma FineNet(net: Net, s: Flood, v: Uuid, h: HubState, out: set<MessageId>)
    requires FineAt(net, s, v, h, out)
    ensures NetFine(net, s)
  {
    hide NetFine, Fine;
  }

  lemma ProcessBusy(net: Net, s: Flood, v: Uuid, h: HubState, m: Message, rec: seq<Message>)
    requires FineAt(net, s, v, h, Outstanding(m)) && PrevsFine(net, s) && Diligent(s, h, rec)
    requires JustReceived(s, v, h, m) && !Process(h, m).wrapped
    ensures var h' := Process(h, m);
            Busy(net, Upd(s, v, h'), v, h', rec + [m]) && Extends(s, Upd(s, v, h'))
  {
    hide FineAt, PrevsFine, Diligent, Process, Extends, NetFine;
    ProcessFine(net, s, v, h, m);
    assert NetFine(net, s) by { FineNet(net, s, v, h, Outstanding(m)); }
    CopyShape(net, s, v, m);
    if m.body.Ack? {
      ProcessAckBusy(net, s, h, m, rec);
      ProcessAckFine(net, s, v, h, m);
      FineUpd(net, s, v, Process(h, m), {});
    } else {
      ProcessUserDataBusy(net, s, v, h, m, rec);
    }
  }

  /** Delivery of the next message of a link. */
  lemma HearBusy(net: Net, s: Flood, u: Uuid, v: Uuid, h: HubState)
    requires Busy(net, s, v, h, h.received) && CanTake(net, s, u, v)
    requires !OnRecv(h, Front(s, u, v)).wrapped
    ensures var h' := OnRecv(h, Front(s, u, v));
            Busy(net, Upd(Advance(s, u, v), v, h'), v, h', h'.received)
  {
    hide FineAt, PrevsFine, Diligent, Genuine, Extends, Accept, Process, CommitWhatWasSeenByEveryone, IsIn, Has,
         CopyFine, NetFine;
    var m := Front(s, u, v);
    var s0 := Advance(s, u, v);
    FineNet(net, s, v, h, {});
    NetLinkCopies(net, s, u, v);
    SeenIsExact(net, s, v, h, m);
    FineMember(net, s, v, h, {});
    HearFine(net, s, u, v, h);
    if IsIn(h.seen, m.Id()) {
      SkipBusy(net, s, u, v, h);
    } else {
      AcceptFine(net, s, u, v, h);
      AcceptBusy(net, s, u, v, h);
      var h1 := Accept(h, m);
      var s1 := AcceptStep(net, s, u, v);
      ReceivedNow(net, s, u, v, h);
      ProcessBusy(net, s1, v, h1, m, h.received);
      var h2 := Process(h1, m);
      var s2 := Upd(s1, v, h2);
      CommitBusy(net, s2, v, h2, h.received + [m]);
      var h3 := CommitWhatWasSeenByEveryone(h2);
      UpdUpd(s1, v, h2, h3);
      UpdUpd(s0, v, h1, h3);
      CopyShape(net, s, v, m);
      ReceivedFrame(h, m);
    }
  }

  lemma ReportReceived(h: HubState, e: Event)
    requires e.Inserted? || e.Removed?
    ensures Report(h, e).received == h.received
  {
    hide Callback, Work;
  }

  lemma CommitEntryReceived(h: HubState, k: MessageId)
    requires k in h.log.entries && !h.log.entries[k].message.body.Ack?
    ensures CommitEntry(h, k).received == h.received
  {
    hide Callback, Report, Work, SeenEverythingUpTo, AcksToGraph, Consume;
    var e := h.log.entries[k];
    var d := Departed(h, k);
    assert d.received == h.received;
    if e.message.body.Fuse? && e.AckedByQuorum() {
      var added := Inserted(e.quorum - LatestConfig(d));
      ReportReceived(Installed(d, e), added);
      ReportReceived(Report(Installed(d, e), added), Removed(LatestConfig(d) - e.quorum));
    }
  }

  lemma {:induction false} LoopReceived(h: HubState, cursor: Option<MessageId>, lastFuse: Option<MessageId>,
                                        live: set<Uuid>)
    ensures Loop(h, cursor, lastFuse, live).received == h.received
    decreases Work(h)
  {
    hide CommitEntry, Work, Blocked, Consume;
    if cursor.Some? && cursor.value in h.log.entries && !h.log.entries[cursor.value].message.body.Ack? {
      var k := cursor.value;
      var next := MessageIds.Next(h.log.entries.Keys, k);
      match Judge(h, k, lastFuse, live) {
        case Stop =>
        case Discard =>
          LoopReceived(TakeOut(h, k), next, lastFuse, live);
        case Commit =>
          CommitEntryReceived(h, k);
          LoopReceived(CommitEntry(h, k), next, if lastFuse == Some(k) then None else lastFuse, live);
      }
    }
  }

  lemma ReceivedFrame(h: HubState, m: Message)
    requires !m.body.Fuse?
    ensures CommitWhatWasSeenByEveryone(Process(Accept(h, m), m)).received == h.received + [m]
  {
    hide Loop, PostAck, AddLogEntry, ApplyAck, LastCommittableFuse, LiveNodes;
    var p := Process(Accept(h, m), m);
    LoopReceived(p, First(p.log.entries.Keys), LastCommittableFuse(p.log), LiveNodes(p));
  }

  lemma SkipBusy(net: Net, s: Flood, u: Uuid, v: Uuid, h: HubState)
    requires Busy(net, s, v, h, h.received) && CanTake(net, s, u, v) && Front(s, u, v).Id() in Has(s, v)
    ensures Busy(net, Upd(Advance(s, u, v), v, h), v, h, h.received)
  {
    hide FineAt, Extends, Diligent, PostedPrevs, Has;
    SkipFine(net, s, u, v, h);
    var s' := Upd(Advance(s, u, v), v, h);
    FlowHere(net, s, v, h);
    assert forall q :: Posted(s', q) == Posted(s, q);
    PrevsStable(net, s, s');
    DiligentStable(s, s', h, h.received);
  }

  lemma FlowHere(net: Net, s: Flood, v: Uuid, h: HubState)
    requires FineAt(net, s, v, h, {})
    ensures FlowOf(s, v) == Wire(h)
  {
    hide NetFine, Fine;
  }

  // ----- runs

  ghost predicate BusyInv(net: Net, sys: System) {
    && SysInv(net, sys)
    && PrevsFine(net, Project(sys))
    && forall v <- net.members :: Diligent(Project(sys), sys.hubs[v], sys.hubs[v].received)
  }

  lemma ScriptBusy(net: Net, s: Flood, v: Uuid, h: HubState, rec: seq<Message>, script: seq<seq<Bytes>>)
    requires Busy(net, s, v, h, rec)
    ensures Busy(net, s, v, h.(script := script), rec)
  {
    hide FineAt, LogDiligent, Recorded, Answered, PrevsFine;
    ScriptFine(net, s, v, h, {}, script);
  }

  lemma DoBusy(net: Net, s: Flood, v: Uuid, h: HubState, step: Step, script: seq<seq<Bytes>>)
    requires Busy(net, s, v, h, h.received) && (step.Speak? || step.Poll?)
    requires !Do(h, step, script).wrapped
    ensures var h' := Do(h, step, script);
            Busy(net, Upd(s, v, h'), v, h', h'.received)
  {
    hide Busy, PostAckable, Loop, LastCommittableFuse, LiveNodes;
    ScriptBusy(net, s, v, h, h.received, script);
    var hs := h.(script := script);
    if step.Speak? {
      PostAckableBusy(net, s, v, hs, step.data, h.received);
    } else {
      CommitBusy(net, s, v, hs, h.received);
      LoopReceived(hs, First(hs.log.entries.Keys), LastCommittableFuse(hs.log), LiveNodes(hs));
    }
  }

  lemma DoHearBusy(net: Net, s: Flood, u: Uuid, v: Uuid, h: HubState, script: seq<seq<Bytes>>)
    requires Busy(net, s, v, h, h.received) && CanTake(net, s, u, v)
    requires !Do(h, Hear(Front(s, u, v)), script).wrapped
    ensures var h' := Do(h, Hear(Front(s, u, v)), script);
            Busy(net, Upd(Advance(s, u, v), v, h'), v, h', h'.received)
  {
    hide Busy, OnRecv;
    ScriptBusy(net, s, v, h, h.received, script);
    HearBusy(net, s, u, v, h.(script := script));
  }

  lemma MovedBusy(net: Net, sys: System, v: Uuid, sys': System)
    requires BusyInv(net, sys) && v in net.members && v in sys'.hubs && sys'.hubs == sys.hubs[v := sys'.hubs[v]]
    requires Busy(net, Project(sys'), v, sys'.hubs[v], sys'.hubs[v].received)
    requires SysInv(net, sys') && Extends(Project(sys), Project(sys'))
    ensures BusyInv(net, sys')
  {
    hide FineAt, Extends, AllDelivered, Project, Diligent, PrevsFine;
    forall w <- net.members
      ensures Diligent(Project(sys'), sys'.hubs[w], sys'.hubs[w].received)
    {
      if w != v {
        DiligentStable(Project(sys), Project(sys'), sys.hubs[w], sys.hubs[w].received);
      }
    }
  }

  lemma NextBusy(net: Net, sys: System, move: Move)
    requires BusyInv(net, sys) && !Overflowed(StaticRuns.Next(net, sys, move))
    ensures BusyInv(net, StaticRuns.Next(net, sys, move))
  {
    hide FineAt, Extends, AllDelivered, Do, CanTake, Diligent, PrevsFine;
    var sys' := StaticRuns.Next(net, sys, move);
    var who := Mover(net, sys, move);
    if who.Some? {
      var v := who.value;
      assert v in sys.hubs by { TakerIsHub(net, sys, move); }
      assert !sys'.hubs[v].wrapped;
      ProjectPut(sys, v, sys'.hubs[v]);
      assert Busy(net, Project(sys), v, sys.hubs[v], sys.hubs[v].received);
      match move.act {
        case Utter(_, data) =>
          DoBusy(net, Project(sys), v, sys.hubs[v], Speak(data), move.script);
        case Check(_) =>
          DoBusy(net, Project(sys), v, sys.hubs[v], Poll, move.script);
        case Deliver(u, _) =>
          assert Project(sys') == Upd(Advance(Project(sys), u, v), v, sys'.hubs[v]);
          DoHearBusy(net, Project(sys), u, v, sys.hubs[v], move.script);
      }
      NextKeeps(net, sys, move);
      MovedBusy(net, sys, v, sys');
    }
  }

  lemma StartBusy(net: Net, sys: System)
    requires Start(net, sys) && SysInv(net, sys)
    ensures BusyInv(net, sys)
  {
    hide Sound, MembershipOk, StaticHub, IsIn, WellConnected, FineAt, AllDelivered;
    var s := Project(sys);
    assert forall v <- net.members :: Posted(s, v) == [];
  }

  lemma {:induction false} RunBusy(net: Net, start: System, moves: seq<Move>)
    requires Start(net, start) && !Overflowed(RunFrom(net, start, moves))
    ensures BusyInv(net, RunFrom(net, start, moves))
    decreases |moves|
  {
    hide StaticRuns.Next, BusyInv, SysInv, Start;
    RunKeeps(net, start, moves);
    if moves == [] {
      StartBusy(net, start);
    } else {
      var before := RunFrom(net, start, moves[..|moves| - 1]);
      if Overflowed(before) {
        OverflowSticks(net, before, moves[|moves| - 1]);
      }
      RunBusy(net, start, moves[..|moves| - 1]);
      NextBusy(net, before, moves[|moves| - 1]);
    }
  }

  // ----- when nothing is under way

  /** Everything handed to a socket has arrived. */
  ghost predicate Drained(net: Net, s: Flood) {
    forall l <- net.links :: Taken(s, l.0, l.1) == |Queue(s, l.0, l.1)|
  }

  ghost predicate AllAnswered(net: Net, s: Flood) {
    forall q <- net.members :: Answered(Posted(s, q), Received(s, q))
  }

  lemma DrainedLink(net: Net, s: Flood, u: Uuid, v: Uuid)
    requires FloodInv(net, s) && Drained(net, s) && (u, v) in net.links
    ensures Has(s, u) <= Has(s, v)
  {
    assert Covered(s, (u, v).0, (u, v).1) && Arrived(s, (u, v).0, (u, v).1);
    assert Queue(s, u, v)[..Taken(s, u, v)] == Queue(s, u, v);
  }

  /** What one member has, everybody has. */
  lemma DrainedSpreads(net: Net, s: Flood, u: Uuid, v: Uuid, x: MessageId)
    requires NetFine(net, s) && Drained(net, s) && u in net.members && v in net.members && x in Has(s, u)
    ensures x in Has(s, v)
  {
    hide FloodInv, Shapes, Has, Drained;
    var holders := set w <- net.members | x in Has(s, w);
    forall w <- holders
      ensures LinksOf(net, w) <= holders
    {
      forall z <- LinksOf(net, w)
        ensures z in holders
      {
        DrainedLink(net, s, w, z);
      }
    }
    ClosedIsEverybody(net, holders, u);
  }

  lemma SaidSpreads(net: Net, s: Flood, v: Uuid, k: MessageId)
    requires NetFine(net, s) && Drained(net, s) && v in net.members && SaidId(s, k)
    ensures k in Has(s, v) && k.op in net.members
  {
    hide Drained, Shapes;
    var d :| Says(s, k, d);
    EntryPoster(net, s, k, d);
    DrainedSpreads(net, s, k.op, v, k);
  }

  /** Two posted messages with one id are one message. */
  lemma SameMessage(net: Net, s: Flood, q: Uuid, a: Message, b: Message)
    requires FloodInv(net, s) && q in net.members && a in Posted(s, q) && b in Posted(s, q) && a.Id() == b.Id()
    ensures a == b
  {
    assert PostedFine(q, FlowOf(s, q).clock, Posted(s, q));
  }

  /** Every other member answered k. */
  lemma MemberAnswered(net: Net, s: Flood, q: Uuid, k: MessageId)
    requires NetFine(net, s) && Drained(net, s) && AllAnswered(net, s) && q in net.members && q != k.op && SaidId(s, k)
    ensures k in AckedBy(Posted(s, q))
  {
    hide Drained, Shapes, WellConnected, AckedBy;
    SaidSpreads(net, s, q, k);
    var d :| Says(s, k, d);
    assert PostedFine(q, FlowOf(s, q).clock, Posted(s, q));
    var m :| m in Received(s, q) && m.Id() == k;
    HeldIsUserData(net, s, q, m, d);
    assert Answered(Posted(s, q), Received(s, q));
  }

  /** Whatever acknowledgement q constructed is among what v recorded. */
  lemma AnswerIsRecorded(net: Net, s: Flood, v: Uuid, h: HubState, q: Uuid, a: Message)
    requires NetFine(net, s) && Drained(net, s) && v in net.members && q in net.members && FlowOf(s, v) == Wire(h)
    requires a in Posted(s, q) && a.body.Ack?
    requires Recorded(h.log, h.entered, h.posted) && Recorded(h.log, h.entered, h.received)
    ensures AckRecorded(h.log, h.entered, q, a.body.ack.acked)
  {
    hide Drained, Shapes, WellConnected, AckRecorded;
    assert PostedFine(q, FlowOf(s, q).clock, Posted(s, q));
    if q != v {
      assert a.Id() in Has(s, q);
      DrainedSpreads(net, s, q, v, a.Id());
      assert PostedFine(v, FlowOf(s, v).clock, Posted(s, v)) && ReceiptsFine(s, v);
      var m :| m in Received(s, v) && m.Id() == a.Id();
      assert Genuine(s, m);
      SameMessage(net, s, q, m.Original(), a);
    }
  }

  lemma EntryIsAcked(net: Net, s: Flood, v: Uuid, h: HubState, k: MessageId, q: Uuid)
    requires Busy(net, s, v, h, h.received) && Drained(net, s) && AllAnswered(net, s)
    requires k in h.log.entries && q in net.members
    ensures q in h.log.entries[k].acks
  {
    hide Fine, Drained, AllAnswered, Recorded, Answered, PrevsFine, NetFine, PredsFine, PendingPrevs;
    EntryIsUserData(net, s, v, h, k);
    FineMember(net, s, v, h, {});
    if q != k.op {
      MemberAnswered(net, s, q, k);
      var a :| a in Posted(s, q) && a.body.Ack? && a.body.ack.acked == k;
      AnswerIsRecorded(net, s, v, h, q, a);
    }
  }

  lemma NotBlocked(net: Net, s: Flood, v: Uuid, h: HubState, k: MessageId)
    requires Busy(net, s, v, h, h.received) && Drained(net, s) && IsMin(h.log.entries.Keys, k)
    ensures !Blocked(h, h.log.entries[k])
  {
    hide FineAt, Drained, Recorded, Answered, PrevsFine, PendingPrevs, OwnAcked, Blocked, Sound, NetFine, SaidId,
         Has, EntriesFine, Knowing;
    FineMember(net, s, v, h, {});
    FineNet(net, s, v, h, {});
    FineKnows(net, s, v, h, {});
    GuardMeaning(h, k);
    forall p <- h.log.entries[k].predecessors
      ensures !h.log.lastCommitted.Lt(p)
    {
      assert PredFine(s, h.log.lastCommitted, p, k);
      if !p.Le(h.log.lastCommitted) {
        SaidSpreads(net, s, v, p);
        OwnUserIds(net, s, v, h, p);
      }
    }
  }

  lemma FrontCommits(net: Net, s: Flood, v: Uuid, h: HubState, k: MessageId)
    requires Busy(net, s, v, h, h.received) && Drained(net, s) && AllAnswered(net, s) && IsMin(h.log.entries.Keys, k)
    ensures h.log.entries[k].message.body.UserData?
    ensures h.log.entries[k].AckedByAlive(net.members) && Judge(h, k, None, net.members) == Commit
  {
    hide FineAt, Diligent, PrevsFine, Drained, AllAnswered, Blocked;
    EntryIsUserData(net, s, v, h, k);
    forall q <- h.log.entries[k].quorum | q in net.members
      ensures q in h.log.entries[k].acks
    {
      EntryIsAcked(net, s, v, h, k, q);
    }
    NotBlocked(net, s, v, h, k);
  }

  /** Without broadcasts from the callback, a commit sends nothing. */
  lemma SilentCommit(h: HubState, k: MessageId)
    requires k in h.log.entries && h.log.entries[k].message.body.UserData? && h.script == []
    ensures var h' := CommitEntry(h, k);
            && Wire(h') == Wire(h) && h'.script == [] && h'.wrapped == h.wrapped
            && h'.log.entries.Keys == h.log.entries.Keys - {k}
  {
    hide Work, SeenEverythingUpTo;
  }

  lemma {:induction false} LoopDrains(net: Net, s: Flood, v: Uuid, h: HubState, cursor: Option<MessageId>)
    requires Busy(net, s, v, h, h.received) && Drained(net, s) && AllAnswered(net, s) && h.script == []
    requires AtFront(h, cursor) && (cursor.None? ==> h.log.entries == map[])
    ensures var h' := Loop(h, cursor, None, net.members);
            h'.log.entries == map[] && Wire(h') == Wire(h) && h'.wrapped == h.wrapped
    decreases Work(h)
  {
    hide FineAt, PrevsFine, Diligent, CommitEntry, Work, Judge, Drained, AllAnswered;
    if cursor.Some? {
      var k := cursor.value;
      FrontCommits(net, s, v, h, k);
      SilentCommit(h, k);
      FineMember(net, s, v, h, {});
      NotWrapped(net, s, v, h, {});
      var h1 := CommitEntry(h, k);
      var next := MessageIds.Next(h.log.entries.Keys, k);
      CommitEntryBusy(net, s, v, h, k, h.received);
      FrontAdvances(net, s, v, h, k);
      FineUpd(net, s, v, h, {});
      assert Upd(s, v, h1) == Upd(s, v, h);
      LoopDrains(net, s, v, h1, next);
    }
  }

  lemma NotWrapped(net: Net, s: Flood, v: Uuid, h: HubState, out: set<MessageId>)
    requires FineAt(net, s, v, h, out)
    ensures !h.wrapped
  {
    hide NetFine, Fine;
  }

  // ----- the guarantees

  /** The commit loop of v, with callbacks that broadcast nothing. */
  function Settle(v: Uuid): Move {
    Move(Check(v), [])
  }

  lemma RunAppend(net: Net, start: System, moves: seq<Move>, move: Move)
    ensures RunFrom(net, start, moves + [move]) == StaticRuns.Next(net, RunFrom(net, start, moves), move)
  {
    assert (moves + [move])[..|moves + [move]| - 1] == moves;
  }

  lemma AnsweredFromInv(net: Net, sys: System)
    requires BusyInv(net, sys)
    ensures AllAnswered(net, Project(sys))
  {
    hide FineAt, AllDelivered, LogDiligent, Recorded, Answered, PrevsFine;
    forall q <- net.members
      ensures Answered(Posted(Project(sys), q), Received(Project(sys), q))
    {
      FlowHere(net, Project(sys), q, sys.hubs[q]);
    }
  }

  lemma SettleStep(net: Net, sys: System, v: Uuid)
    requires BusyInv(net, sys) && Drained(net, Project(sys)) && v in net.members
    ensures var sys' := StaticRuns.Next(net, sys, Settle(v));
            && sys'.hubs == sys.hubs[v := sys'.hubs[v]] && sys'.hubs[v].log.entries == map[]
            && Project(sys') == Project(sys) && !sys'.hubs[v].wrapped
  {
    hide FineAt, AllDelivered, Diligent, PrevsFine, Drained, Loop, LastCommittableFuse, LiveNodes, AllAnswered;
    var s := Project(sys);
    var h := sys.hubs[v].(script := []);
    AnsweredFromInv(net, sys);
    assert Busy(net, s, v, sys.hubs[v], h.received);
    ScriptBusy(net, s, v, sys.hubs[v], h.received, []);
    NoFuses(net, s, v, h);
    LoopDrains(net, s, v, h, First(h.log.entries.Keys));
    NotWrapped(net, s, v, h, {});
    FineUpd(net, s, v, h, {});
    var h' := Loop(h, First(h.log.entries.Keys), None, net.members);
    ProjectPut(sys, v, h');
    assert Upd(s, v, h') == Upd(s, v, h);
  }

  lemma SettledRun(net: Net, start: System, moves: seq<Move>, v: Uuid)
    requires Start(net, start) && !Overflowed(RunFrom(net, start, moves)) && v in net.members
    requires Drained(net, Project(RunFrom(net, start, moves)))
    ensures var sys, sys' := RunFrom(net, start, moves), RunFrom(net, start, moves + [Settle(v)]);
            && !Overflowed(sys') && v in sys'.hubs && sys'.hubs == sys.hubs[v := sys'.hubs[v]]
            && sys'.hubs[v].log.entries == map[] && Project(sys') == Project(sys)
  {
    hide RunFrom, Start, FineAt, AllDelivered, Diligent, PrevsFine, Drained, StaticRuns.Next;
    var sys, sys' := RunFrom(net, start, moves), RunFrom(net, start, moves + [Settle(v)]);
    RunBusy(net, start, moves);
    RunAppend(net, start, moves, Settle(v));
    SettleStep(net, sys, v);
    forall w <- sys'.hubs.Keys
      ensures !sys'.hubs[w].wrapped
    {
      if w != v {
        NotWrapped(net, Project(sys), w, sys.hubs[w], {});
      }
    }
  }

  /** A hub whose log is empty when nothing is under way has consumed everything. */
  lemma EmptyLogIsComplete(net: Net, s: Flood, v: Uuid, h: HubState, k: MessageId)
    requires FineAt(net, s, v, h, {}) && Drained(net, s) && h.log.entries == map[]
    ensures k in h.consumed <==> SaidId(s, k)
  {
    hide NetFine, Valid, StampsOk, DeliveredOk, PostedOk, ConfigsOk, MembershipOk, Knowing, SeenComplete,
         EnteredFine, StaticHub, SaidId, Drained, Has;
    FineMember(net, s, v, h, {});
    OwnUserIds(net, s, v, h, k);
    if SaidId(s, k) {
      SaidSpreads(net, s, v, k);
    }
  }

  lemma DeliveredData(net: Net, s: Flood, v: Uuid, h: HubState, k: MessageId, data: Bytes)
    requires FineAt(net, s, v, h, {}) && AllDelivered(h) && Drained(net, s) && h.log.entries == map[]
    ensures (k, data) in Deliveries(h.events) <==> Says(s, k, data)
  {
    hide NetFine, Sound, MembershipOk, LogAcksFine, EntriesFine, Stable, SeenSound, SeenComplete, EnteredFine,
         StaticHub, Drained, DeliveredIds, Deliveries, Says;
    DeliveriesMatch(s, h.events);
    EmptyLogIsComplete(net, s, v, h, k);
    if Says(s, k, data) {
      assert SaidId(s, k);
      var i :| 0 <= i < |DeliveredIds(h.events)| && DeliveredIds(h.events)[i] == k;
      SaysUniqueIn(net, s, k, data, Deliveries(h.events)[i].1);
      assert Deliveries(h.events)[i] == (k, data);
    }
  }

  /** Validity and completeness: in any run, once nothing is under way, a hub that runs its commit loop has
      delivered every payload anyone broadcast, under its id, and nothing else; its log is empty. */
  lemma EverythingIsDelivered(net: Net, start: System, moves: seq<Move>, v: Uuid)
    requires Start(net, start) && !Overflowed(RunFrom(net, start, moves)) && v in net.members
    requires Drained(net, Project(RunFrom(net, start, moves)))
    ensures var s, sys' := Project(RunFrom(net, start, moves)), RunFrom(net, start, moves + [Settle(v)]);
            && v in sys'.hubs && sys'.hubs[v].log.entries == map[]
            && forall k, data :: (k, data) in Deliveries(sys'.hubs[v].events) <==> Says(s, k, data)
  {
    hide RunFrom, Start, FineAt, AllDelivered, Drained, Deliveries, Says;
    var sys' := RunFrom(net, start, moves + [Settle(v)]);
    SettledRun(net, start, moves, v);
    RunKeeps(net, start, moves + [Settle(v)]);
    forall k, data
      ensures (k, data) in Deliveries(sys'.hubs[v].events) <==> Says(Project(sys'), k, data)
    {
      DeliveredData(net, Project(sys'), v, sys'.hubs[v], k, data);
    }
  }

  lemma CompleteLogsAgree(net: Net, s: Flood, v: Uuid, hv: HubState, w: Uuid, hw: HubState)
    requires FineAt(net, s, v, hv, {}) && AllDelivered(hv) && FineAt(net, s, w, hw, {}) && AllDelivered(hw)
    requires Drained(net, s) && hv.log.entries == map[] && hw.log.entries == map[]
    requires hv.log.lastCommitted.Le(hw.log.lastCommitted)
    ensures Deliveries(hv.events) == Deliveries(hw.events)
  {
    hide NetFine, Valid, StampsOk, PostedOk, ConfigsOk, MembershipOk, Knowing, SeenComplete, EnteredFine,
         StaticHub, SaidId, DeliveredIds, Deliveries, Says, Drained;
    ShorterIsPrefix(net, s, v, hv, w, hw);
    CountMatches(net, s, v, hv);
    CountMatches(net, s, w, hw);
    forall k
      ensures k in hv.consumed <==> k in hw.consumed
    {
      EmptyLogIsComplete(net, s, v, hv, k);
      EmptyLogIsComplete(net, s, w, hw, k);
    }
    BoundedSubsequenceIsPrefix(hw.consumed, hv.consumed, hw.log.lastCommitted);
  }

  lemma CountMatches(net: Net, s: Flood, v: Uuid, h: HubState)
    requires FineAt(net, s, v, h, {}) && AllDelivered(h)
    ensures |Deliveries(h.events)| == |h.consumed|
  {
    hide NetFine, Sound, MembershipOk, LogAcksFine, EntriesFine, Stable, SeenSound, SeenComplete, EnteredFine,
         StaticHub, DeliveredIds, Deliveries, Says, EventsFine;
    DeliveriesMatch(s, h.events);
  }

  /** Agreement: once nothing is under way, two hubs that run their commit loops have delivered the same
      payloads in the same order. */
  lemma EveryoneAgrees(net: Net, start: System, moves: seq<Move>, v: Uuid, w: Uuid)
    requires Start(net, start) && !Overflowed(RunFrom(net, start, moves)) && v in net.members && w in net.members
    requires Drained(net, Project(RunFrom(net, start, moves)))
    ensures var sys := RunFrom(net, start, moves + [Settle(v)] + [Settle(w)]);
            && v in sys.hubs && w in sys.hubs
            && Deliveries(sys.hubs[v].events) == Deliveries(sys.hubs[w].events)
  {
    hide RunFrom, Start, FineAt, AllDelivered, Drained, Deliveries;
    SettledRun(net, start, moves, v);
    SettledRun(net, start, moves + [Settle(v)], w);
    RunKeeps(net, start, moves + [Settle(v)] + [Settle(w)]);
    var sys := RunFrom(net, start, moves + [Settle(v)] + [Settle(w)]);
    var hv, hw := sys.hubs[v], sys.hubs[w];
    if hv.log.lastCommitted.Le(hw.log.lastCommitted) {
      CompleteLogsAgree(net, Project(sys), v, hv, w, hw);
    } else {
      CompleteLogsAgree(net, Project(sys), w, hw, v, hv);
    }
  }
}
