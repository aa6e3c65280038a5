/** One end of a connection: in-order delivery of reliable messages, and unreliable ones that are never reordered
    (include/club/socket.h).

    An Endpoint holds the socket's fields and a record of what was passed to the send functions (`said`), handed
    to the receive handlers (`heard`) and put on the wire (`sent`). `reactions` is what the receive handlers do,
    one after another, when they are called. Sequence numbers are 32-bit and wrap around. */
module Sockets {
  import opened Basics
  import opened NatSets
  import opened AckSets
  import opened PartInfos
  import opened Fragments
  import opened CyclicQueues
  import opened TransmitQueues

  /** The last sequence numbers used, once a sync message was received. */
  datatype Progress = Progress(reliable: nat, unreliable: nat)

  /** A packet: the acknowledgement window, if it carries one, and the fragments. */
  datatype Datagram = Datagram(window: Option<AckState>, fragments: seq<Fragment>)

  /** What a user, or a handler when it is called, can do with the socket. Both send functions start sending at
      once; how much a packet takes and what counts as recently sent is left open. */
  datatype Deed =
    | SayReliable(data: Payload)
    | SayUnreliable(data: Payload)
    | ListenReliable
    | ListenUnreliable
    | StartSending(room: nat, now: int, threshold: int, withWindow: bool)

  datatype Note = Note(sn: nat, payload: Payload)

  datatype Endpoint = Endpoint(
    queue: seq<Entry>,
    peerHas: AckState,
    sync: Option<Progress>,
    pending: map<nat, Incoming>,
    pendingUnreliable: Option<Incoming>,
    received: AckState,
    nextReliable: nat,
    nextUnreliable: nat,
    wantsReliable: bool,
    wantsUnreliable: bool,
    reactions: seq<seq<Deed>>,
    sent: set<Datagram>,
    said: seq<Payload>,
    saidUnreliable: seq<Payload>,
    heard: seq<Payload>,
    heardUnreliable: seq<Note>)

  /** A socket whose sync message is queued, as `rendezvous_connect` leaves it. */
  const CONNECTED: Endpoint :=
    Endpoint([Entry(Never, Outgoing(true, Sync, 0, [], 0))], NO_ACKS, None, map[], None, NO_ACKS, 1, 1,
             false, false, [], {}, [], [], [], [])

  // ----- sending

  /** Payloads that do not fit the 16-bit size violate an assertion of the source and are not sent. */
  function SendReliable(p: Endpoint, data: Payload): Endpoint {
    if |data| >= SIZE_LIMIT then p
    else
      p.(queue := p.queue + [Entry(Never, Outgoing(true, Reliable, p.nextReliable, data, 0))],
         nextReliable := Plus32(p.nextReliable, 1), said := p.said + [data])
  }

  function SendUnreliable(p: Endpoint, data: Payload): Endpoint {
    if |data| >= SIZE_LIMIT then p
    else
      p.(queue := p.queue + [Entry(Never, Outgoing(false, Unreliable, p.nextUnreliable, data, 0))],
         nextUnreliable := Plus32(p.nextUnreliable, 1), saidUnreliable := p.saidUnreliable + [data])
  }

  /** One packet: a sending pass and, perhaps, the window, whose lowest number does not travel. */
  ghost function Transmit(p: Endpoint, room: nat, now: int, threshold: int, withWindow: bool): Endpoint {
    if !AllValid(p.queue) then p
    else
      var out := SendPass(p.queue, room, Occasion(p.peerHas, now, threshold));
      var window := if withWindow then Some(p.received.(lowest := 0)) else None;
      p.(queue := out.queue, sent := p.sent + {Datagram(window, out.fragments)})
  }

  ghost function Perform(p: Endpoint, deed: Deed): Endpoint {
    match deed
    case SayReliable(data) => SendReliable(p, data)
    case SayUnreliable(data) => SendUnreliable(p, data)
    case ListenReliable => p.(wantsReliable := true)
    case ListenUnreliable => p.(wantsUnreliable := true)
    case StartSending(room, now, threshold, withWindow) => Transmit(p, room, now, threshold, withWindow)
  }

  ghost function PerformAll(p: Endpoint, deeds: seq<Deed>): Endpoint
    decreases |deeds|
  {
    if deeds == [] then p else PerformAll(Perform(p, deeds[0]), deeds[1..])
  }

  /** What the handler that was called does. */
  ghost function React(p: Endpoint): Endpoint {
    if p.reactions == [] then p else PerformAll(p.(reactions := p.reactions[1..]), p.reactions[0])
  }

  // ----- receiving

  function HandleSync(p: Endpoint, sn: nat): Endpoint {
    if p.sync.Some? then p
    else p.(received := Added(p.received, sn), sync := Some(Progress(sn, sn)))
  }

  /** Hands a complete message to the receive handler; nothing happens when there is none. The handler is taken
      away before it is called, and the number counts as received only after it returned. */
  ghost function Deliver(p: Endpoint, sn: nat, payload: Payload): Endpoint
    requires p.sync.Some?
  {
    if !p.wantsReliable then p
    else
      var q := React(p.(wantsReliable := false));
      q.(heard := q.heard + [payload], received := Added(q.received, sn), sync := Some(p.sync.value.(reliable := sn)))
  }

  /** Delivers pending messages for as long as the next one is complete and a handler is there. One pass goes
      over them in the order of their numbers and has left those below `low` behind. */
  ghost function ReplayFrom(p: Endpoint, low: nat): Endpoint
    requires p.sync.Some?
    decreases |p.pending|
  {
    var sn := Plus32(p.sync.value.reliable, 1);
    if sn < low || sn !in p.pending || !p.pending[sn].IsComplete() || !p.wantsReliable then p
    else
      var q := Deliver(p, sn, p.pending[sn].data);
      ReactFrame(p.(wantsReliable := false));
      Smaller(q.pending, sn);
      ReplayFrom(q.(pending := q.pending - {sn}), sn + 1)
  }

  ghost function Replay(p: Endpoint): Endpoint
    requires p.sync.Some?
  {
    ReplayFrom(p, 0)
  }

  lemma Smaller(m: map<nat, Incoming>, sn: nat)
    requires sn in m
    ensures |m - {sn}| < |m|
  {
    assert (m - {sn}).Keys == m.Keys - {sn};
    assert |m| == |m.Keys| && |m - {sn}| == |(m - {sn}).Keys|;
  }

  /** The same in all that deeds do not touch. */
  ghost predicate SameReceiver(p: Endpoint, p': Endpoint) {
    && p'.peerHas == p.peerHas && p'.sync == p.sync && p'.pending == p.pending
    && p'.pendingUnreliable == p.pendingUnreliable && p'.received == p.received
    && p'.heard == p.heard && p'.heardUnreliable == p.heardUnreliable
  }

  lemma {:induction false} PerformAllFrame(p: Endpoint, deeds: seq<Deed>)
    ensures SameReceiver(p, PerformAll(p, deeds)) && PerformAll(p, deeds).reactions == p.reactions
    decreases |deeds|
  {
    hide SendPass;
    if deeds != [] {
      PerformAllFrame(Perform(p, deeds[0]), deeds[1..]);
    }
  }

  lemma ReactFrame(p: Endpoint)
    ensures SameReceiver(p, React(p))
  {
    hide PerformAll;
    if p.reactions != [] {
      PerformAllFrame(p.(reactions := p.reactions[1..]), p.reactions[0]);
    }
  }

  /** The fragment lies inside the message it belongs to, as every sent fragment does. */
  ghost predicate Fitting(p: Endpoint, f: Fragment) {
    && f.start + |f.payload| <= f.size
    && (f.sn in p.pending ==> |p.pending[f.sn].data| == f.size)
  }

  ghost function HandleReliable(p: Endpoint, f: Fragment): Endpoint
    requires Fitting(p, f)
  {
    if p.sync.None? || !Admits(p.received, f.sn) then p
    else if f.sn == Plus32(p.sync.value.reliable, 1) && f.IsComplete() then
      if !p.wantsReliable then p else
      var q := Deliver(p, f.sn, f.payload);
      Replay(q)
    else if f.sn !in p.pending then p.(pending := p.pending[f.sn := FromFragment(f)])
    else Replay(p.(pending := p.pending[f.sn := Updated(p.pending[f.sn], f.start, f.payload)]))
  }

  ghost function DeliverUnreliable(p: Endpoint, sn: nat, payload: Payload): Endpoint
    requires p.sync.Some?
  {
    var q := React(p.(wantsUnreliable := false));
    q.(heardUnreliable := q.heardUnreliable + [Note(sn, payload)],
       sync := Some(p.sync.value.(unreliable := sn)), pendingUnreliable := None)
  }

  ghost predicate FittingUnreliable(p: Endpoint, f: Fragment) {
    && f.start + |f.payload| <= f.size
    && (p.pendingUnreliable.Some? && p.pendingUnreliable.value.sn == f.sn ==>
          |p.pendingUnreliable.value.data| == f.size)
  }

  ghost function HandleUnreliable(p: Endpoint, f: Fragment): Endpoint
    requires FittingUnreliable(p, f)
  {
    if !p.wantsUnreliable || p.sync.None? || f.sn <= p.sync.value.unreliable then p
    else if f.IsComplete() then DeliverUnreliable(p, f.sn, f.payload)
    else if p.pendingUnreliable.None? || p.pendingUnreliable.value.sn < f.sn then
      p.(pendingUnreliable := Some(FromFragment(f)))
    else if p.pendingUnreliable.value.sn > f.sn then p
    else
      var m := Updated(p.pendingUnreliable.value, f.start, f.payload);
      if m.IsComplete() then DeliverUnreliable(p, f.sn, m.data) else p.(pendingUnreliable := Some(m))
  }

  /** `handle_message`, for an open connection. */
  ghost function Handle(p: Endpoint, f: Fragment): Endpoint
    requires f.kind.Reliable? ==> Fitting(p, f)
    requires f.kind.Unreliable? ==> FittingUnreliable(p, f)
  {
    match f.kind
    case Sync => HandleSync(p, f.sn)
    case Reliable => HandleReliable(p, f)
    case Unreliable => HandleUnreliable(p, f)
    case KeepAlive => p
    case Close => p
  }

  // ----- the socket

  class Socket {
    const transmitQueue: TransmitQueue
    const receivedIds: AckSet
    var peerHas: AckState
    var sync: Option<Progress>
    var pending: map<nat, Incoming>
    var pendingUnreliable: Option<Incoming>
    var nextReliable: nat
    var nextUnreliable: nat
    var wantsReliable: bool
    var wantsUnreliable: bool
    var reactions: seq<seq<Deed>>
    ghost var sent: set<Datagram>
    ghost var said: seq<Payload>
    ghost var saidUnreliable: seq<Payload>
    ghost var heard: seq<Payload>
    ghost var heardUnreliable: seq<Note>

    ghost function Repr(): set<object>
      reads this, transmitQueue
    {
      {this, transmitQueue, transmitQueue.queue, receivedIds}
    }

    ghost predicate Valid()
      reads this, transmitQueue, transmitQueue.queue, receivedIds
    {
      transmitQueue.Valid() && Word(receivedIds.View())
    }

    ghost function View(): Endpoint
      reads this, transmitQueue, transmitQueue.queue, receivedIds
    {
      Endpoint(transmitQueue.queue.messages, peerHas, sync, pending, pendingUnreliable, receivedIds.View(),
               nextReliable, nextUnreliable, wantsReliable, wantsUnreliable, reactions, sent, said, saidUnreliable,
               heard, heardUnreliable)
    }

    /** A socket after `rendezvous_connect`. */
    constructor ()
      ensures Valid() && View() == CONNECTED && fresh(Repr())
    {
      transmitQueue := new TransmitQueue();
      receivedIds := new AckSet();
      peerHas, sync, pending, pendingUnreliable := NO_ACKS, None, map[], None;
      nextReliable, nextUnreliable, wantsReliable, wantsUnreliable, reactions := 0, 1, false, false, [];
      sent, said, saidUnreliable, heard, heardUnreliable := {}, [], [], [], [];
      new;
      transmitQueue.Insert(Outgoing(true, Sync, nextReliable, [], 0));
      nextReliable := Plus32(nextReliable, 1);
    }

    method Send(data: Payload)
      requires Valid() && |data| < SIZE_LIMIT
      modifies Repr()
      ensures Valid() && View() == SendReliable(old(View()), data)
    {
      transmitQueue.Insert(Outgoing(true, Reliable, nextReliable, data, 0));
      nextReliable := Plus32(nextReliable, 1);
      said := said + [data];
    }

    method SendOnce(data: Payload)
      requires Valid() && |data| < SIZE_LIMIT
      modifies Repr()
      ensures Valid() && View() == SendUnreliable(old(View()), data)
    {
      transmitQueue.Insert(Outgoing(false, Unreliable, nextUnreliable, data, 0));
      nextUnreliable := Plus32(nextUnreliable, 1);
      saidUnreliable := saidUnreliable + [data];
    }

    /** The contents of one packet; Congestion.EncodePacket writes them. */
    method StartSendingPacket(room: nat, now: int, threshold: int, withWindow: bool)
      requires Valid()
      modifies Repr()
      ensures Valid() && View() == Transmit(old(View()), room, now, threshold, withWindow)
    {
      hide PassOver, IsIn;
      var fragments, _ := transmitQueue.EncodePayload(room, Occasion(peerHas, now, threshold));
      ghost var window := if withWindow then Some(receivedIds.View().(lowest := 0)) else None;
      sent := sent + {Datagram(window, fragments)};
    }

    method PerformOne(deed: Deed)
      requires Valid()
      modifies Repr()
      ensures Valid() && View() == Perform(old(View()), deed)
    {
      hide Transmit;
      match deed
      case SayReliable(data) =>
        if |data| < SIZE_LIMIT {
          Send(data);
        }
      case SayUnreliable(data) =>
        if |data| < SIZE_LIMIT {
          SendOnce(data);
        }
      case ListenReliable => wantsReliable := true;
      case ListenUnreliable => wantsUnreliable := true;
      case StartSending(room, now, threshold, withWindow) => StartSendingPacket(room, now, threshold, withWindow);
    }

    /** Runs what the called handler does. */
    method RunHandler()
      requires Valid()
      modifies Repr()
      ensures Valid() && View() == React(old(View()))
    {
      hide Perform;
      if |reactions| == 0 {
        return;
      }
      var deeds := reactions[0];
      reactions := reactions[1..];
      ghost var start := View();
      var i := 0;
      assert deeds[0..] == deeds;
      while i < |deeds|
        invariant i <= |deeds| && Valid()
        invariant PerformAll(View(), deeds[i..]) == PerformAll(start, deeds)
      {
        assert deeds[i..][0] == deeds[i] && deeds[i..][1..] == deeds[i + 1..];
        PerformOne(deeds[i]);
        i := i + 1;
      }
      assert deeds[i..] == [];
    }

    method HandleSyncMessage(sn: nat)
      requires Valid() && sn < WORD
      modifies Repr()
      ensures Valid() && View() == HandleSync(old(View()), sn)
    {
      hide Admits, Added;
      if sync.None? {
        var _ := receivedIds.TryAdd(sn);
        sync := Some(Progress(sn, sn));
      }
    }

    /** `user_handle_reliable_msg`: false when no handler is there. */
    method UserHandleReliable(sn: nat, payload: Payload) returns (ok: bool)
      requires Valid() && sync.Some? && sn < WORD
      modifies Repr()
      ensures Valid() && ok == old(wantsReliable) && View() == Deliver(old(View()), sn, payload)
    {
      hide Admits, Added, React;
      if !wantsReliable {
        return false;
      }
      var progress := sync.value;
      wantsReliable := false;
      ReactFrame(View());
      RunHandler();
      heard := heard + [payload];
      var _ := receivedIds.TryAdd(sn);
      sync := Some(progress.(reliable := sn));
      return true;
    }

    /** One turn of the loop over the pending messages; the loop ends where the source returns. */
    method ReplayOne(sn: nat, ghost low: nat) returns (go: bool)
      requires Valid() && sync.Some? && sn in pending && low <= sn < WORD
      requires forall k <- pending.Keys :: low <= k ==> sn <= k
      modifies Repr()
      ensures Valid() && sync.Some?
      ensures !go ==> View() == ReplayFrom(old(View()), low)
      ensures go ==> ReplayFrom(View(), sn + 1) == ReplayFrom(old(View()), low)
      ensures go ==> pending.Keys + {sn} == old(pending.Keys)
    {
      hide Admits, Added, Deliver, ReplayFrom;
      ghost var p := View();
      ReplayStep(p, low);
      ReplayStep(p, sn + 1);
      if sn != Plus32(sync.value.reliable, 1) {
        return true;
      }
      if !pending[sn].IsComplete() {
        return false;
      }
      DeliverChanges(p, sn, p.pending[sn].data);
      go := UserHandleReliable(sn, pending[sn].data);
      if go {
        pending := pending - {sn};
      } else {
        NoHandler(p, sn, p.pending[sn].data);
      }
    }

    /** Walks the pending messages in the order of their numbers. */
    method ReplayPending()
      requires Valid() && sync.Some? && forall sn <- pending.Keys :: sn < WORD
      modifies Repr()
      ensures Valid() && View() == Replay(old(View()))
    {
      hide ReplayFrom, Sorted, Waiting, AllValid, TotalBytes;
      var keys := Sorted(pending.Keys);
      SortedAscends(pending.Keys);
      var i := 0;
      ghost var low := 0;
      WaitingStart(keys, pending.Keys);
      while i < |keys|
        invariant i <= |keys| && Valid() && sync.Some? && ReplayFrom(View(), low) == Replay(old(View()))
        invariant Waiting(keys, i, low, pending.Keys)
      {
        WaitingNext(keys, i, low, pending.Keys);
        var go := ReplayOne(keys[i], low);
        if !go {
          return;
        }
        WaitingOn(keys, i, low, pending.Keys);
        low := keys[i] + 1;
        i := i + 1;
      }
      WaitingEnd(keys, low, pending.Keys);
      ReplayStep(View(), low);
    }

    method HandleReliableMessage(f: Fragment)
      requires Valid() && Fitting(View(), f) && f.sn < WORD && forall sn <- pending.Keys :: sn < WORD
      modifies Repr()
      ensures Valid() && View() == HandleReliable(old(View()), f)
    {
      hide Admits, Added, Deliver, Replay, FromFragment, Updated;
      if sync.None? {
        return;
      }
      var can := receivedIds.CanAdd(f.sn);
      if !can {
        return;
      }
      if f.sn == Plus32(sync.value.reliable, 1) && f.IsComplete() {
        ghost var p := View();
        var ok := UserHandleReliable(f.sn, f.payload);
        DeliverChanges(p, f.sn, f.payload);
        if !ok {
          NoHandler(p, f.sn, f.payload);
          return;
        }
        ReplayPending();
        return;
      }
      if f.sn !in pending {
        pending := pending[f.sn := FromFragment(f)];
      } else {
        pending := pending[f.sn := Updated(pending[f.sn], f.start, f.payload)];
        ReplayPending();
      }
    }

    method HandleUnreliableMessage(f: Fragment)
      requires Valid() && FittingUnreliable(View(), f)
      modifies Repr()
      ensures Valid() && View() == HandleUnreliable(old(View()), f)
    {
      hide Admits, Added, React, FromFragment, Updated;
      if !wantsUnreliable || sync.None? || f.sn <= sync.value.unreliable {
        return;
      }
      if f.IsComplete() {
        UserHandleUnreliable(f.sn, f.payload);
        return;
      }
      if pendingUnreliable.None? || pendingUnreliable.value.sn < f.sn {
        pendingUnreliable := Some(FromFragment(f));
        return;
      }
      if pendingUnreliable.value.sn > f.sn {
        return;
      }
      var m := Updated(pendingUnreliable.value, f.start, f.payload);
      if m.IsComplete() {
        UserHandleUnreliable(f.sn, m.data);
      } else {
        pendingUnreliable := Some(m);
      }
    }

    method UserHandleUnreliable(sn: nat, payload: Payload)
      requires Valid() && sync.Some?
      modifies Repr()
      ensures Valid() && View() == DeliverUnreliable(old(View()), sn, payload)
    {
      hide Admits, Added, React;
      var progress := sync.value;
      wantsUnreliable := false;
      ReactFrame(View());
      RunHandler();
      heardUnreliable := heardUnreliable + [Note(sn, payload)];
      sync := Some(progress.(unreliable := sn));
      pendingUnreliable := None;
    }
  }

  lemma DeliverChanges(p: Endpoint, sn: nat, payload: Payload)
    requires p.sync.Some?
    ensures Deliver(p, sn, payload).pending == p.pending
    ensures Deliver(p, sn, payload).sync == if p.wantsReliable then Some(p.sync.value.(reliable := sn)) else p.sync
  {
    hide React, Added;
    ReactFrame(p.(wantsReliable := false));
  }

  ghost predicate Ascends(keys: seq<nat>) {
    forall i, j :: 0 <= i < j < |keys| ==> keys[i] < keys[j]
  }

  /** The loop over the pending messages is at position i: what lies at or above `low` is what the keys from
      there on say. */
  ghost predicate Waiting(keys: seq<nat>, i: nat, low: nat, pending: set<nat>) {
    && i <= |keys| && Ascends(keys)
    && (forall j :: 0 <= j < |keys| ==> keys[j] < WORD)
    && (forall j :: i <= j < |keys| ==> low <= keys[j] && keys[j] in pending)
    && (forall sn <- pending :: low <= sn ==> sn in keys[i..])
  }

  lemma WaitingStart(keys: seq<nat>, pending: set<nat>)
    requires Ascends(keys) && (forall j :: 0 <= j < |keys| ==> keys[j] in pending) && forall sn <- pending :: sn in keys
    requires forall sn <- pending :: sn < WORD
    ensures Waiting(keys, 0, 0, pending)
  {
    assert keys[0..] == keys;
  }

  lemma WaitingNext(keys: seq<nat>, i: nat, low: nat, pending: set<nat>)
    requires Waiting(keys, i, low, pending) && i < |keys|
    ensures low <= keys[i] < WORD && keys[i] in pending
    ensures forall k <- pending :: low <= k ==> keys[i] <= k
  {
    forall k <- pending | low <= k
      ensures keys[i] <= k
    {
      var j :| 0 <= j < |keys[i..]| && keys[i..][j] == k;
      assert keys[i + j] == k;
    }
  }

  /** The turn may have removed the key it was at. */
  lemma WaitingOn(keys: seq<nat>, i: nat, low: nat, pending: set<nat>)
    requires i < |keys| && Waiting(keys, i, low, pending + {keys[i]})
    ensures Waiting(keys, i + 1, keys[i] + 1, pending)
  {
    assert keys[i..] == [keys[i]] + keys[i + 1..];
  }

  lemma WaitingEnd(keys: seq<nat>, low: nat, pending: set<nat>)
    requires Waiting(keys, |keys|, low, pending)
    ensures forall sn <- pending :: sn < low
  {
    assert keys[|keys|..] == [];
  }

  lemma NoHandler(p: Endpoint, sn: nat, payload: Payload)
    requires p.sync.Some? && !p.wantsReliable
    ensures Deliver(p, sn, payload) == p
  {
  }

  lemma ReplayStep(p: Endpoint, low: nat)
    requires p.sync.Some?
    ensures var sn := Plus32(p.sync.value.reliable, 1);
            if sn < low || sn !in p.pending || !p.pending[sn].IsComplete() || !p.wantsReliable then
              ReplayFrom(p, low) == p
            else
              var q := Deliver(p, sn, p.pending[sn].data);
              q.sync.Some? && ReplayFrom(p, low) == ReplayFrom(q.(pending := q.pending - {sn}), sn + 1)
  {
    hide Deliver;
    var sn := Plus32(p.sync.value.reliable, 1);
    if sn in p.pending {
      DeliverChanges(p, sn, p.pending[sn].data);
    }
  }
}
