/** The log of uncommitted messages (src/club/log.h, src/club/log_entry.h). */
module Logs {
  import opened Basics
  import opened MessageIds
  import opened Messages

  /** A log entry. The source maps each predecessor to the uuid that reported it, but only ever reads the keys. */
  datatype LogEntry = LogEntry(
    message: Message,
    predecessors: set<MessageId>,
    quorum: set<Uuid>,
    acks: map<Uuid, AckData>)
  {
    predicate AckedByQuorum() {
      quorum <= acks.Keys
    }

    predicate AckedByAlive(alive: set<Uuid>) {
      forall q <- quorum :: q in acks || q !in alive
    }

    /** Quorum closure: the poster, every acker and every neighbour of an acker is in the quorum. */
    ghost predicate QuorumClosed() {
      && message.op in quorum
      && acks.Keys <= quorum
      && forall a <- acks.Keys :: acks[a].neighbors <= quorum
    }
  }

  type PendingAcks = map<MessageId, map<Uuid, AckData>>

  datatype LogState = LogState(
    entries: map<MessageId, LogEntry>,
    lastFuseCommit: MessageId,
    lastCommitted: MessageId,
    pendingAcks: PendingAcks)

  const EMPTY_LOG := LogState(map[], NO_MESSAGE, NO_MESSAGE, map[])

  function PendingFor(pending: PendingAcks, id: MessageId): map<Uuid, AckData> {
    if id in pending then pending[id] else map[]
  }

  function WithAck(e: LogEntry, op: Uuid, ack: AckData): LogEntry {
    e.(quorum := e.quorum + ack.neighbors,
       acks := e.acks[op := ack],
       predecessors := e.predecessors + {ack.prev})
  }

  function WithAcks(e: LogEntry, acks: map<Uuid, AckData>): LogEntry {
    e.(quorum := e.quorum + (set q <- acks.Keys, n <- acks[q].neighbors :: n),
       acks := e.acks + acks,
       predecessors := e.predecessors + (set q <- acks.Keys :: acks[q].prev))
  }

  function ApplyAck(l: LogState, op: Uuid, ack: AckData): LogState {
    if ack.acked in l.entries then
      l.(entries := l.entries[ack.acked := WithAck(l.entries[ack.acked], op, ack)])
    else
      l.(pendingAcks := l.pendingAcks[ack.acked := PendingFor(l.pendingAcks, ack.acked)[op := ack]])
  }

  /** The id of the entry just below `supremum`, or the default id. */
  function PredecessorTime(l: LogState, supremum: MessageId): (r: MessageId)
    ensures r == NO_MESSAGE || r.Lt(supremum)
  {
    var below := Below(l.entries.Keys, supremum);
    if below == {} then NO_MESSAGE else MaxOf(below)
  }

  /** It is the entry with no entry between it and the supremum. */
  lemma PredecessorStandsBefore(l: LogState, supremum: MessageId)
    ensures StandsBefore(l.entries.Keys, supremum, PredecessorTime(l, supremum))
  {
    var below := Below(l.entries.Keys, supremum);
    assert forall x <- l.entries.Keys :: x.Lt(supremum) ==> x in below;
  }

  function FuseIds(l: LogState): set<MessageId> {
    set k <- l.entries.Keys | l.entries[k].message.body.Fuse?
  }

  /** The message's own acknowledgement is moved out of it when it is applied. */
  function Spent(e: LogEntry): LogEntry {
    e.(message := e.message.(body := e.message.body.(ack := e.message.body.ack.(neighbors := {}))))
  }

  function NewEntry(m: Message): LogEntry {
    LogEntry(m, {}, {m.op}, map[])
  }

  /** Entries after `id` is placed between its neighbours, with the predecessors recorded. */
  function Linked(l: LogState, m: Message): (r: map<MessageId, LogEntry>)
    ensures r.Keys == l.entries.Keys + {m.Id()}
  {
    var id := m.Id();
    var prior := if id in l.entries then l.entries[id] else NewEntry(m);
    var below := Below(l.entries.Keys, id);
    var above := Above(l.entries.Keys, id);
    var preds := {l.lastCommitted} + if below == {} then {} else {MaxOf(below)};
    var placed := l.entries[id := prior.(predecessors := prior.predecessors + preds)];
    if above == {} then placed
    else
      var n := MinOf(above);
      placed[n := placed[n].(predecessors := placed[n].predecessors + {id})]
  }

  function LinkIn(l: LogState, m: Message): LogState {
    l.(entries := Linked(l, m))
  }

  function TakePending(l: LogState, id: MessageId): (r: LogState)
    requires id in l.entries
    ensures r.entries.Keys == l.entries.Keys
  {
    l.(entries := l.entries[id := WithAcks(l.entries[id], PendingFor(l.pendingAcks, id))],
       pendingAcks := l.pendingAcks - {id})
  }

  function ApplyOwnAck(l: LogState, id: MessageId): (r: LogState)
    requires id in l.entries
    ensures r.entries.Keys == l.entries.Keys
  {
    ApplyAck(l, l.entries[id].message.op, l.entries[id].message.body.ack)
  }

  function Spend(l: LogState, id: MessageId): (r: LogState)
    requires id in l.entries
    ensures r.entries.Keys == l.entries.Keys
  {
    l.(entries := l.entries[id := Spent(l.entries[id])])
  }

  /** A message at or below `last_committed` is ignored; any other enters the log. */
  function InsertEntry(l: LogState, m: Message): (r: LogState)
    ensures r.entries.Keys == l.entries.Keys + if m.Id().Le(l.lastCommitted) then {} else {m.Id()}
    ensures r.lastCommitted == l.lastCommitted && r.lastFuseCommit == l.lastFuseCommit
  {
    var id := m.Id();
    if id.Le(l.lastCommitted) then l
    else Spend(ApplyOwnAck(TakePending(LinkIn(l, m), id), id), id)
  }

  /** Erasing an entry, as committing or discarding it does, and moving `last_committed` onto it. */
  function Consume(l: LogState, k: MessageId): LogState {
    l.(entries := l.entries - {k}, lastCommitted := k)
  }

  // ----- invariants

  /** p stands immediately before k in the ordered set s. */
  ghost predicate Adjacent(s: set<MessageId>, p: MessageId, k: MessageId) {
    p in s && k in s && p.Lt(k) && forall x <- s :: x.Le(p) || k.Le(x)
  }

  ghost predicate Keyed(l: LogState) {
    && (forall k <- l.entries.Keys :: l.entries[k].message.Id() == k)
    && (forall k <- l.entries.Keys :: !l.entries[k].message.body.Ack?)
    && (forall k <- l.entries.Keys :: l.entries[k].message.body.ack.acked == k)
    && (forall k <- l.entries.Keys :: l.lastCommitted.Lt(k))
    && l.lastFuseCommit.Le(l.lastCommitted)
  }

  ghost predicate PendingOk(pending: PendingAcks) {
    forall k <- pending.Keys :: forall q <- pending[k].Keys :: pending[k][q].acked == k && q in pending[k][q].neighbors
  }

  /** With `last_committed` put in front, every entry records its neighbour in the log as a predecessor. */
  ghost predicate Chained(l: LogState) {
    forall p, k :: Adjacent(l.entries.Keys + {l.lastCommitted}, p, k) && k in l.entries ==>
        p in l.entries[k].predecessors
  }

  ghost predicate AllClosed(l: LogState) {
    forall k <- l.entries.Keys :: l.entries[k].QuorumClosed()
  }

  /** What the ackers of an entry reported to stand before it is recorded with it. */
  ghost predicate AllRecorded(l: LogState) {
    forall k <- l.entries.Keys :: forall q <- l.entries[k].acks.Keys ::
        l.entries[k].acks[q].prev in l.entries[k].predecessors
  }

  ghost predicate Valid(l: LogState) {
    Keyed(l) && PendingOk(l.pendingAcks) && Chained(l) && AllClosed(l) && AllRecorded(l)
  }

  /** What a hub puts on the wire: see HubOrder.PostedMessagesAreWellFormed. */
  ghost predicate WellFormed(m: Message) {
    && m.ts >= 1
    && m.op in m.body.ack.neighbors
    && (!m.body.Ack? ==> m.body.ack.acked == m.Id())
  }

  lemma ApplyAckValid(l: LogState, op: Uuid, ack: AckData)
    requires Valid(l)
    requires op in ack.neighbors || (ack.acked in l.entries && op in l.entries[ack.acked].quorum)
    ensures Valid(ApplyAck(l, op, ack))
  {
    var r := ApplyAck(l, op, ack);
    if ack.acked in l.entries {
      assert r.entries.Keys == l.entries.Keys;
    }
  }

  lemma LinkedChained(l: LogState, m: Message)
    requires Valid(l) && l.lastCommitted.Lt(m.Id())
    ensures Chained(l.(entries := Linked(l, m)))
  {
    var id := m.Id();
    var r := Linked(l, m);
    var keys := l.entries.Keys + {l.lastCommitted};
    forall p, k | Adjacent(r.Keys + {l.lastCommitted}, p, k) && k in r
      ensures p in r[k].predecessors
    {
      if k == id {
        if p != l.lastCommitted {
          var below := Below(l.entries.Keys, id);
          assert p in below;
          assert MaxOf(below) in r.Keys;
        }
      } else if p == id {
        var above := Above(l.entries.Keys, id);
        assert k in above;
        assert MinOf(above) in r.Keys;
      } else {
        assert Adjacent(keys, p, k);
      }
    }
  }

  /** Linking touches predecessors only. */
  lemma LinkedEntry(l: LogState, m: Message, k: MessageId)
    requires k in Linked(l, m)
    ensures var was := if k in l.entries then l.entries[k] else NewEntry(m);
            && Linked(l, m)[k] == was.(predecessors := Linked(l, m)[k].predecessors)
            && was.predecessors <= Linked(l, m)[k].predecessors
    ensures k in l.entries || k == m.Id()
  {
  }

  lemma LinkInValid(l: LogState, m: Message)
    requires Valid(l) && WellFormed(m) && !m.body.Ack? && l.lastCommitted.Lt(m.Id())
    ensures Valid(LinkIn(l, m))
  {
    hide Linked, Chained;
    LinkedChained(l, m);
    forall k <- Linked(l, m).Keys
      ensures var e := Linked(l, m)[k];
              e.message.Id() == k && !e.message.body.Ack? && e.message.body.ack.acked == k && e.QuorumClosed()
              && l.lastCommitted.Lt(k) && forall q <- e.acks.Keys :: e.acks[q].prev in e.predecessors
    {
      LinkedEntry(l, m, k);
    }
  }

  lemma TakePendingValid(l: LogState, id: MessageId)
    requires Valid(l) && id in l.entries
    ensures Valid(TakePending(l, id))
  {
    var r := TakePending(l, id);
    assert r.entries.Keys == l.entries.Keys;
    assert forall k <- r.entries.Keys :: l.entries[k].predecessors <= r.entries[k].predecessors;
    var pending := PendingFor(l.pendingAcks, id);
    forall q <- pending.Keys
      ensures q in r.entries[id].quorum && pending[q].neighbors <= r.entries[id].quorum
    {
      assert q in pending[q].neighbors;
    }
    assert r.entries[id].QuorumClosed();
  }

  lemma SpendValid(l: LogState, id: MessageId)
    requires Valid(l) && id in l.entries
    ensures Valid(Spend(l, id))
  {
    assert Spend(l, id).entries.Keys == l.entries.Keys;
  }

  /** Inserting a message, with its own and any pending acknowledgements, keeps every invariant of the log. */
  lemma InsertEntryValid(l: LogState, m: Message)
    requires Valid(l) && WellFormed(m) && !m.body.Ack?
    ensures Valid(InsertEntry(l, m))
  {
    var id := m.Id();
    if !id.Le(l.lastCommitted) {
      LinkInValid(l, m);
      TakePendingValid(LinkIn(l, m), id);
      var l2 := TakePending(LinkIn(l, m), id);
      ApplyAckValid(l2, l2.entries[id].message.op, l2.entries[id].message.body.ack);
      SpendValid(ApplyOwnAck(l2, id), id);
    }
  }

  /** A new entry starts with the acknowledgements that arrived before it and its poster's own; nothing else
      changes but the predecessors its neighbour records. */
  lemma InsertEntryFrame(l: LogState, m: Message)
    requires Keyed(l) && m.Id() !in l.entries && l.lastCommitted.Lt(m.Id()) && m.body.ack.acked == m.Id()
    ensures var r := InsertEntry(l, m);
            var id := m.Id();
            && id in r.entries
            && r.entries[id].acks == PendingFor(l.pendingAcks, id)[m.op := m.body.ack]
            && r.entries[id].message == Spent(NewEntry(m)).message
            && r.pendingAcks == l.pendingAcks - {id}
            && forall k <- l.entries.Keys ::
                 && k in r.entries
                 && r.entries[k] == l.entries[k].(predecessors := r.entries[k].predecessors)
  {
    hide Linked, Keyed;
    var id := m.Id();
    forall k <- Linked(l, m).Keys
      ensures var was := if k in l.entries then l.entries[k] else NewEntry(m);
              Linked(l, m)[k] == was.(predecessors := Linked(l, m)[k].predecessors)
    {
      LinkedEntry(l, m, k);
    }
    var l2 := TakePending(LinkIn(l, m), id);
    assert l2.entries[id].acks == PendingFor(l.pendingAcks, id);
    assert l2.entries[id].message == m;
  }

  // ----- the log as the hub holds it

  /** Pending acknowledgements are filed under the message they acknowledge. */
  ghost predicate PendingKeyed(pending: PendingAcks) {
    forall k <- pending.Keys :: forall q <- pending[k].Keys :: pending[k][q].acked == k
  }

  class Log {
    var entries: map<MessageId, LogEntry>
    var lastFuseCommit: MessageId
    var lastCommitted: MessageId
    var pendingAcks: PendingAcks

    ghost function View(): LogState
      reads this
    {
      LogState(entries, lastFuseCommit, lastCommitted, pendingAcks)
    }

    constructor ()
      ensures View() == EMPTY_LOG
    {
      entries, lastFuseCommit, lastCommitted, pendingAcks := map[], NO_MESSAGE, NO_MESSAGE, map[];
    }

    method GetPredecessorTime(supremum: MessageId) returns (id: MessageId)
      ensures id == PredecessorTime(View(), supremum) && StandsBefore(entries.Keys, supremum, id)
    {
      PredecessorStandsBefore(View(), supremum);
      var below := Below(entries.Keys, supremum);
      if below == {} {
        return NO_MESSAGE;
      }
      id := MaxOf(below);
    }

    /** Scans from the end. */
    method FindHighestFuse() returns (r: Option<MessageId>)
      ensures r == (if FuseIds(View()) == {} then None else Some(MaxOf(FuseIds(View()))))
    {
      var rest := entries.Keys;
      while rest != {}
        invariant rest <= entries.Keys && forall k <- FuseIds(View()) :: k in rest
        decreases rest
      {
        var k := MaxOf(rest);
        if entries[k].message.body.Fuse? {
          assert IsMax(FuseIds(View()), k);
          return Some(k);
        }
        rest := rest - {k};
      }
      return None;
    }

    method AddAck(op: Uuid, ack: AckData)
      requires PendingKeyed(pendingAcks)
      modifies this
      ensures View() == ApplyAck(old(View()), op, ack) && PendingKeyed(pendingAcks)
    {
      if ack.acked !in entries {
        var sofar := if ack.acked in pendingAcks then pendingAcks[ack.acked] else map[];
        pendingAcks := pendingAcks[ack.acked := sofar[op := ack]];
        return;
      }
      var e := entries[ack.acked];
      entries := entries[ack.acked := e.(quorum := e.quorum + ack.neighbors,
                                         acks := e.acks[op := ack],
                                         predecessors := e.predecessors + {ack.prev})];
    }

    /** Places the entry, records predecessors on both sides, then applies the acknowledgements that came early
        and the poster's own. */
    method Add(m: Message)
      requires PendingKeyed(pendingAcks)
      modifies this
      ensures View() == InsertEntry(old(View()), m) && PendingKeyed(pendingAcks)
    {
      var id := m.Id();
      if id.Le(lastCommitted) {
        return;
      }
      LinkEntry(m);
      ApplyPending(id);
      var own := entries[id].message;
      AddAck(own.op, own.body.ack);
      entries := entries[id := Spent(entries[id])];
    }

    method LinkEntry(m: Message)
      modifies this
      ensures View() == LinkIn(old(View()), m)
    {
      var id := m.Id();
      var keys := entries.Keys;
      var e := if id in entries then entries[id] else LogEntry(m, {}, {m.op}, map[]);
      var before := Below(keys, id);
      e := e.(predecessors := e.predecessors + {lastCommitted});
      if before != {} {
        e := e.(predecessors := e.predecessors + {MaxOf(before)});
      }
      assert e.predecessors == (if id in entries then entries[id].predecessors else {})
                               + ({lastCommitted} + if before == {} then {} else {MaxOf(before)});
      entries := entries[id := e];
      var after := Above(keys, id);
      if after != {} {
        var n := MinOf(after);
        entries := entries[n := entries[n].(predecessors := entries[n].predecessors + {id})];
      }
    }

    method ApplyPending(id: MessageId)
      requires id in entries && PendingKeyed(pendingAcks)
      modifies this
      ensures View() == TakePending(old(View()), id) && PendingKeyed(pendingAcks)
    {
      hide WithAcks, WithAck;
      if id !in pendingAcks {
        NothingPending(View(), id);
        return;
      }
      var acks := pendingAcks[id];
      pendingAcks := pendingAcks - {id};
      ghost var base := entries[id];
      ghost var done: set<Uuid> := {};
      var rest := acks.Keys;
      WithNoAcks(base, acks);
      while rest != {}
        invariant rest + done == acks.Keys && rest !! done
        invariant id in entries && entries == old(entries)[id := WithAcks(base, Only(acks, done))]
        invariant pendingAcks == old(pendingAcks) - {id}
        invariant lastCommitted == old(lastCommitted) && lastFuseCommit == old(lastFuseCommit)
        decreases rest
      {
        var op :| op in rest;
        OneMoreAck(base, acks, done, op);
        AddAck(op, acks[op]);
        rest, done := rest - {op}, done + {op};
      }
      assert Only(acks, done) == acks;
    }

    method Erase(k: MessageId)
      modifies this
      ensures View() == Consume(old(View()), k)
    {
      entries := entries - {k};
      lastCommitted := k;
    }
  }

  ghost function Only(acks: map<Uuid, AckData>, ops: set<Uuid>): map<Uuid, AckData> {
    map op <- acks.Keys * ops :: acks[op]
  }

  lemma WithNoAcks(e: LogEntry, acks: map<Uuid, AckData>)
    ensures WithAcks(e, Only(acks, {})) == e
  {
  }

  lemma NothingPending(l: LogState, id: MessageId)
    requires id in l.entries && id !in l.pendingAcks
    ensures TakePending(l, id) == l
  {
    assert WithAcks(l.entries[id], map[]) == l.entries[id];
    assert l.pendingAcks - {id} == l.pendingAcks;
  }

  /** Acknowledgements can be applied one by one. */
  lemma OneMoreAck(e: LogEntry, acks: map<Uuid, AckData>, done: set<Uuid>, op: Uuid)
    requires op in acks && op !in done
    ensures WithAck(WithAcks(e, Only(acks, done)), op, acks[op]) == WithAcks(e, Only(acks, done + {op}))
  {
    var a, b := Only(acks, done), Only(acks, done + {op});
    assert b == a[op := acks[op]];
    assert e.acks + b == (e.acks + a)[op := acks[op]];
    var prevsA, prevsB := set q <- a.Keys :: a[q].prev, set q <- b.Keys :: b[q].prev;
    assert b.Keys == a.Keys + {op};
    forall x
      ensures x in prevsB <==> x in prevsA || x == b[op].prev
    {
      assert forall q <- a.Keys :: q in b.Keys && b[q].prev == a[q].prev;
      assert op in b.Keys;
    }
    var nbsA, nbsB := set q <- a.Keys, n <- a[q].neighbors :: n, set q <- b.Keys, n <- b[q].neighbors :: n;
    forall x
      ensures x in nbsB <==> x in nbsA || x in b[op].neighbors
    {
      assert forall q <- a.Keys :: q in b.Keys && b[q].neighbors == a[q].neighbors;
      assert op in b.Keys;
    }
    assert prevsB == prevsA + {b[op].prev} && nbsB == nbsA + b[op].neighbors;
  }
}
