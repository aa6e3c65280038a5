/** Sequence numbers are 32-bit: exactly how many messages the guarantees of the transport survive. The witnesses
    are runs in which a number is used again. */
module WrapAround {
  import opened Basics
  import opened AckSets
  import opened PartInfos
  import opened Fragments
  import opened TransmitQueues
  import opened Sockets
  import opened ReliableTransport
  import opened TransportProgress

  // ----- packets with one short message

  /** Nothing that was sent once is sent again. */
  const SEND: Deed := StartSending(1000, 0, -1, false)

  const OCCASION: Occasion := Occasion(NO_ACKS, 0, -1)

  /** An entry whose only fragment was sent. */
  function SentEntry(kind: Kind, sn: nat, data: Payload): Entry {
    Entry(At(0), Outgoing(true, kind, sn, data, |data|))
  }

  function Alone(kind: Kind, sn: nat, data: Payload): Datagram {
    Datagram(None, [Whole(kind, sn, data)])
  }

  ghost predicate Recents(es: seq<Entry>) {
    forall i :: 0 <= i < |es| ==> es[i].message.Valid() && es[i].lastSent == At(0)
  }

  lemma {:induction false} PassRecents(es: seq<Entry>, e: Entry, kept: seq<Entry>)
    requires Recents(es) && e.message.Valid()
    ensures AllValid(es + [e])
    ensures PassOver(es + [e], kept, [], 1000, OCCASION) == PassOver([e], kept + es, [], 1000, OCCASION)
    decreases |es|
  {
    assert forall i :: 0 <= i < |es + [e]| ==> (es + [e])[i].message.Valid();
    if es == [] {
      assert es + [e] == [e] && kept + es == kept;
    } else {
      assert (es + [e])[0] == es[0] && (es + [e])[1..] == es[1..] + [e];
      assert Judge(es[0], 1000, OCCASION).Recent?;
      PassRecents(es[1..], e, kept + [es[0]]);
      assert kept + [es[0]] + es[1..] == kept + es;
    }
  }

  /** The new message, behind others that were sent, is all the packet holds. */
  lemma PassAlone(es: seq<Entry>, reliable: bool, kind: Kind, sn: nat, data: Payload)
    requires Recents(es) && |data| <= 1
    ensures var e := Entry(Never, Outgoing(reliable, kind, sn, data, 0));
            && AllValid(es + [e])
            && var out := SendPass(es + [e], 1000, OCCASION);
               && out.fragments == [Whole(kind, sn, data)]
               && out.queue == if reliable then es + [SentEntry(kind, sn, data)] else es
  {
    var e := Entry(Never, Outgoing(reliable, kind, sn, data, 0));
    PassRecents(es, e, []);
    assert [] + es == es;
    assert Judge(e, 1000, OCCASION).Send?;
    assert e.message.Next(1000) == Whole(kind, sn, data) by { assert data[0..|data|] == data; }
    assert SentOnce(e, 1000, 0) == Entry(At(0), Outgoing(reliable, kind, sn, data, |data|));
    assert [e][1..] == [];
    assert [] + [Whole(kind, sn, data)] == [Whole(kind, sn, data)];
  }

  // ----- both ends after the sync message

  ghost predicate Idle(q: Endpoint) {
    && q.pending == map[] && q.pendingUnreliable == None && q.reactions == []
  }

  /** A sender that has sent everything it queued and heard of no acknowledgement. */
  ghost predicate Spoken(p: Endpoint) {
    && Recents(p.queue) && p.peerHas == NO_ACKS && QueueFine(p)
  }

  /** The connected sockets after the left one's sync message arrived. */
  ghost function Synced(): seq<Event> {
    [Event(Left, Act(SEND)), Event(Right, Arrive(Alone(Sync, 0, []), []))]
  }

  lemma SyncSent()
    ensures Transmit(CONNECTED, 1000, 0, -1, false) ==
            CONNECTED.(queue := [SentEntry(Sync, 0, [])], sent := {Alone(Sync, 0, [])})
  {
    hide SendPass;
    PassAlone([], true, Sync, 0, []);
    assert [] + [Entry(Never, Outgoing(true, Sync, 0, [], 0))] == CONNECTED.queue;
    assert [] + [SentEntry(Sync, 0, [])] == [SentEntry(Sync, 0, [])];
    assert {} + {Alone(Sync, 0, [])} == {Alone(Sync, 0, [])};
  }

  lemma OneFragment(p: Endpoint, d: Datagram, f: Fragment, reactions: seq<seq<Deed>>)
    requires d == Datagram(None, [f])
    requires f.kind.Reliable? ==> Fitting(p, f)
    requires f.kind.Unreliable? ==> FittingUnreliable(p, f)
    ensures Receive(p, d, reactions) == Handle(p.(reactions := reactions), f)
  {
    var p1 := p.(reactions := reactions);
    assert Opened(p, d, reactions) == p1;
    assert [f][..0] == [];
    assert HandleAll(p1, []) == p1;
  }

  lemma SyncedState()
    ensures var w := Run(Synced());
            && Spoken(w.left) && w.left.said == [] && w.left.saidUnreliable == []
            && w.right == CONNECTED.(sync := Some(Progress(0, 0)), received := UpTo(0))
  {
    hide Run, SendPass, UpTo, Added;
    var e0, e1 := Event(Left, Act(SEND)), Event(Right, Arrive(Alone(Sync, 0, []), []));
    assert Run([]) == START by { NoEvents(); }
    RunNext([], e0);
    assert [] + [e0] == [e0];
    RunNext([e0], e1);
    assert [e0] + [e1] == Synced();
    SyncSent();
    OneFragment(CONNECTED, Alone(Sync, 0, []), Whole(Sync, 0, []), []);
    InOrderStart();
    NumberSmall(0);
  }

  lemma NoEvents()
    ensures Run([]) == START
  {
  }

  // ----- unreliable messages

  /** Every message went out alone. */
  ghost predicate SentEach(p: Endpoint, kind: Kind, said: seq<Payload>) {
    forall i :: 0 <= i < |said| ==> Alone(kind, NumberOf(i), said[i]) in p.sent
  }

  lemma SayAloneUnreliable(p: Endpoint, data: Payload)
    requires Spoken(p) && |data| <= 1 && SentEach(p, Unreliable, p.saidUnreliable)
    ensures var p' := Transmit(SendUnreliable(p, data), 1000, 0, -1, false);
            && Spoken(p') && p'.saidUnreliable == p.saidUnreliable + [data] && p'.said == p.said
            && SentEach(p', Unreliable, p'.saidUnreliable)
  {
    hide SendPass, NumberOf, EntryFine, Numbered;
    var p1 := SendUnreliable(p, data);
    var p' := Transmit(p1, 1000, 0, -1, false);
    PassAlone(p.queue, false, Unreliable, p.nextUnreliable, data);
    NextNumber(|p.saidUnreliable|);
    forall i | 0 <= i < |p'.queue|
      ensures EntryFine(p', p'.queue[i])
    {
      EntryMore(p, p', p.queue[i]);
    }
  }

  lemma {:induction false} SayAllUnreliable(datas: seq<Payload>) returns (events: seq<Event>)
    requires forall d <- datas :: |d| <= 1
    ensures var w := Run(events);
            && Spoken(w.left) && w.left.saidUnreliable == datas && SentEach(w.left, Unreliable, datas)
            && w.right == Run(Synced()).right
    decreases |datas|
  {
    hide Run, Spoken, SentEach, Transmit, SendUnreliable, Synced;
    SyncedState();
    if datas == [] {
      events := Synced();
      NothingSent(Run(events).left, Unreliable);
    } else {
      var init, last := datas[..|datas| - 1], datas[|datas| - 1];
      var before := SayAllUnreliable(init);
      var e0, e1 := Event(Left, Act(SayUnreliable(last))), Event(Left, Act(SEND));
      RunNext(before, e0);
      RunNext(before + [e0], e1);
      SayAloneUnreliable(Run(before).left, last);
      assert init + [last] == datas;
      events := before + [e0] + [e1];
    }
  }

  lemma NothingSent(p: Endpoint, kind: Kind)
    ensures SentEach(p, kind, [])
  {
  }

  /** The handler is called with the message and, perhaps, asks for the next. */
  lemma HearUnreliable(q: Endpoint, sn: nat, data: Payload, again: bool)
    requires Idle(q) && q.sync.Some? && q.sync.value.unreliable < sn && q.wantsUnreliable
    ensures var q' := Receive(q, Alone(Unreliable, sn, data), if again then [[ListenUnreliable]] else []);
            && Idle(q') && q'.sync == Some(q.sync.value.(unreliable := sn)) && q'.wantsUnreliable == again
            && q'.heardUnreliable == q.heardUnreliable + [Note(sn, data)]
  {
    var deeds := if again then [[ListenUnreliable]] else [];
    OneFragment(q, Alone(Unreliable, sn, data), Whole(Unreliable, sn, data), deeds);
    var q0 := q.(reactions := deeds, wantsUnreliable := false);
    if again {
      OneDeed(q0.(reactions := []), ListenUnreliable);
      assert React(q0) == q.(reactions := [], wantsUnreliable := true);
    }
  }

  lemma OneDeed(p: Endpoint, deed: Deed)
    ensures PerformAll(p, [deed]) == Perform(p, deed)
  {
    hide Perform;
    assert [deed][1..] == [];
    assert PerformAll(Perform(p, deed), []) == Perform(p, deed);
  }

  /** Number 2 is said, 2^32 messages go by, number 1 comes round again. */
  ghost function Round(): seq<Payload> {
    seq(WORD + 1, i => if i == 1 then [1] else if i == WORD then [2] else [0])
  }

  lemma RoundTurns()
    ensures |Round()| == WORD + 1 && Round()[1] == [1] && Round()[WORD] == [2] && forall d <- Round() :: |d| <= 1
    ensures NumberOf(WORD) == 1 && NumberOf(1) == 2
    ensures !Subsequence([[2], [1]], Round())
  {
    var xs: seq<Payload> := [[2], [1]];
    assert xs[0] == [2] && xs[1] == [1];
    assert forall i :: 0 <= i <= WORD && Round()[i] == [2] ==> i == WORD;
    assert forall i :: 0 <= i <= WORD && Round()[i] == [1] ==> i == 1;
  }

  /** After 2^32 + 1 unreliable messages one can be heard before an older one. */
  lemma ReorderedAfterWrap() returns (events: seq<Event>)
    ensures |Run(events).left.saidUnreliable| == WORD + 1
    ensures !Subsequence(PayloadsOf(Run(events).right.heardUnreliable), Run(events).left.saidUnreliable)
  {
    hide Run, Receive, Round, Synced, Subsequence, NumberOf, UpTo;
    RoundTurns();
    var before := SayAllUnreliable(Round());
    SyncedState();
    var dC, dB := Alone(Unreliable, 1, [2]), Alone(Unreliable, 2, [1]);
    assert dC in Run(before).left.sent && dB in Run(before).left.sent;
    var e0 := Event(Right, Act(ListenUnreliable));
    var e1 := Event(Right, Arrive(dC, [[ListenUnreliable]]));
    var e2 := Event(Right, Arrive(dB, []));
    RunNext(before, e0);
    RunNext(before + [e0], e1);
    RunNext(before + [e0] + [e1], e2);
    events := before + [e0] + [e1] + [e2];
    var q := Run(before + [e0]).right;
    HearUnreliable(q, 1, [2], true);
    HearUnreliable(Run(before + [e0] + [e1]).right, 2, [1], false);
    assert Run(events).right.heardUnreliable == [Note(1, [2]), Note(2, [1])];
    assert PayloadsOf(Run(events).right.heardUnreliable) == [[2], [1]];
  }

  /** Unreliable messages are never heard out of order in any run with at most n of them. */
  ghost predicate OrderUpTo(n: nat) {
    forall events, s: Side :: |End(Run(events), s).saidUnreliable| <= n ==>
      Subsequence(PayloadsOf(End(Run(events), Other(s)).heardUnreliable), End(Run(events), s).saidUnreliable)
  }

  /** Exactly up to 2^32 messages: the last of these has number 0, which is never heard. */
  lemma OrderIff(n: nat)
    ensures OrderUpTo(n) <==> n <= WORD
  {
    hide Run, Subsequence;
    if n <= WORD {
      forall events, s: Side | |End(Run(events), s).saidUnreliable| <= n
        ensures Subsequence(PayloadsOf(End(Run(events), Other(s)).heardUnreliable), End(Run(events), s).saidUnreliable)
      {
        UnreliableNeverReordered(events, s);
      }
    } else {
      var events := ReorderedAfterWrap();
      assert |End(Run(events), Left).saidUnreliable| <= n && End(Run(events), Other(Left)) == Run(events).right;
    }
  }

  // ----- reliable messages

  /** All reliable messages of the witness are this one. */
  const BIT: Payload := [0]

  lemma SayAlone(p: Endpoint)
    requires Spoken(p) && SentEach(p, Reliable, p.said)
    ensures var p' := Transmit(SendReliable(p, BIT), 1000, 0, -1, false);
            && Spoken(p') && p'.said == p.said + [BIT] && SentEach(p', Reliable, p'.said)
  {
    hide SendPass, NumberOf, EntryFine, Numbered, Plus32;
    var p1 := SendReliable(p, BIT);
    var p' := Transmit(p1, 1000, 0, -1, false);
    PassAlone(p.queue, true, Reliable, p.nextReliable, BIT);
    NextNumber(|p.said|);
    LastNumbered(p.said, BIT);
    forall i | 0 <= i < |p'.queue|
      ensures EntryFine(p', p'.queue[i])
    {
      if i < |p.queue| {
        EntryMore(p, p', p.queue[i]);
      } else {
        assert EntryFine(p', SentEntry(Reliable, p.nextReliable, BIT)) by { SentEntryFine(p', p.nextReliable); }
      }
    }
  }

  lemma SentEntryFine(p: Endpoint, sn: nat)
    requires Numbered(p.said, sn, BIT)
    ensures EntryFine(p, SentEntry(Reliable, sn, BIT))
  {
    hide Numbered;
  }

  lemma {:induction false} SayAll(n: nat) returns (events: seq<Event>)
    ensures var w := Run(events);
            && Spoken(w.left) && |w.left.said| == n && SentEach(w.left, Reliable, w.left.said)
            && (forall i :: 0 <= i < n ==> w.left.said[i] == BIT)
            && w.right == Run(Synced()).right
  {
    hide Run, Spoken, SentEach, Transmit, SendReliable, Synced;
    SyncedState();
    if n == 0 {
      events := Synced();
      NothingSent(Run(events).left, Reliable);
    } else {
      var before := SayAll(n - 1);
      var e0, e1 := Event(Left, Act(SayReliable(BIT))), Event(Left, Act(SEND));
      RunNext(before, e0);
      RunNext(before + [e0], e1);
      SayAlone(Run(before).left);
      events := before + [e0] + [e1];
    }
  }

  /** The receiver has delivered number n, acknowledges up to m, and called its handler `count` times. */
  ghost predicate HasGot(q: Endpoint, n: nat, m: nat, count: nat) {
    q.sync.Some? && q.sync.value.reliable == n && q.received == UpTo(m) && |q.heard| == count
  }

  lemma Accepted(q: Endpoint, sn: nat)
    requires q.pending == map[] && q.sync.Some? && Admits(q.received, sn) && sn == Plus32(q.sync.value.reliable, 1)
    requires q.wantsReliable
    ensures var q' := Receive(q, Alone(Reliable, sn, BIT), []);
            && q'.pending == map[] && q'.sync == Some(q.sync.value.(reliable := sn))
            && q'.received == Added(q.received, sn) && |q'.heard| == |q.heard| + 1
  {
    hide Admits, Added, Plus32;
    OneFragment(q, Alone(Reliable, sn, BIT), Whole(Reliable, sn, BIT), []);
    assert React(q.(reactions := [], wantsReliable := false)) == q.(reactions := [], wantsReliable := false);
  }

  /** The right side asks for a message, and a packet arrives there. */
  lemma Hears(before: seq<Event>, d: Datagram, reactions: seq<seq<Deed>>) returns (events: seq<Event>)
    requires d in Run(before).left.sent
    ensures Run(events).left == Run(before).left
    ensures Run(events).right == Receive(Run(before).right.(wantsReliable := true), d, reactions)
  {
    hide Run, Receive;
    var e0, e1 := Event(Right, Act(ListenReliable)), Event(Right, Arrive(d, reactions));
    RunNext(before, e0);
    RunNext(before + [e0], e1);
    events := before + [e0] + [e1];
  }

  /** The left side said n messages, each in a packet of its own. */
  ghost predicate AllSent(p: Endpoint, n: nat) {
    |p.said| == n && forall i: nat :: i < n ==> Alone(Reliable, NumberOf(i), BIT) in p.sent
  }

  lemma SentAll(p: Endpoint)
    requires SentEach(p, Reliable, p.said) && forall i :: 0 <= i < |p.said| ==> p.said[i] == BIT
    ensures AllSent(p, |p.said|)
  {
    forall i: nat | i < |p.said|
      ensures Alone(Reliable, NumberOf(i), BIT) in p.sent
    {
      assert Alone(Reliable, NumberOf(i), p.said[i]) in p.sent;
    }
  }

  lemma NumberSent(p: Endpoint, total: nat, sn: nat)
    requires AllSent(p, total) && sn < WORD && (1 <= sn <= total || (sn == 0 && total == WORD))
    ensures Alone(Reliable, sn, BIT) in p.sent
  {
    var i := if sn == 0 then WORD - 1 else sn - 1;
    NumberSmall(i);
    assert Alone(Reliable, NumberOf(i), BIT) in p.sent;
  }

  lemma {:induction false} HearInOrder(total: nat, n: nat) returns (events: seq<Event>)
    requires n <= LAST_IN_ORDER && n <= total <= WORD
    ensures AllSent(Run(events).left, total) && HasGot(Run(events).right, n, n, n) && Run(events).right.pending == map[]
  {
    hide Run, Receive, SentEach, Spoken, UpTo, Added, Admits, Synced, AllSent;
    if n == 0 {
      events := SayAll(total);
      SyncedState();
      SentAll(Run(events).left);
    } else {
      var before := HearInOrder(total, n - 1);
      var q := Run(before).right;
      InOrderNext(n - 1);
      Accepted(q.(wantsReliable := true), n);
      NumberSent(Run(before).left, total, n);
      events := Hears(before, Alone(Reliable, n, BIT), []);
    }
  }

  function Waiting(sn: nat): Incoming {
    FromFragment(Whole(Reliable, sn, BIT))
  }

  /** What waits behind the number the window ends with. */
  ghost function Behind(k: nat, m: nat): map<nat, Incoming> {
    map sn: nat | k < sn < m :: Waiting(sn)
  }

  lemma Stored(q: Endpoint, sn: nat)
    requires q.sync.Some? && Admits(q.received, sn) && sn != Plus32(q.sync.value.reliable, 1) && sn !in q.pending
    ensures Receive(q, Alone(Reliable, sn, BIT), []) == q.(reactions := [], pending := q.pending[sn := Waiting(sn)])
  {
    hide Admits, Plus32;
    OneFragment(q, Alone(Reliable, sn, BIT), Whole(Reliable, sn, BIT), []);
  }

  lemma {:induction false} StoreBehind(m: nat) returns (events: seq<Event>)
    requires LAST_IN_ORDER < m <= WORD
    ensures AllSent(Run(events).left, WORD)
    ensures HasGot(Run(events).right, LAST_IN_ORDER - 1, LAST_IN_ORDER - 1, LAST_IN_ORDER - 1)
    ensures Run(events).right.pending == Behind(LAST_IN_ORDER, m)
    decreases m
  {
    hide Run, Receive, UpTo, Admits, Waiting, AllSent;
    if m == LAST_IN_ORDER + 1 {
      events := HearInOrder(WORD, LAST_IN_ORDER - 1);
      assert Behind(LAST_IN_ORDER, m) == map[];
    } else {
      var before := StoreBehind(m - 1);
      var q := Run(before).right;
      InOrderAhead(LAST_IN_ORDER - 1, m - 1);
      Stored(q.(wantsReliable := true), m - 1);
      NumberSent(Run(before).left, WORD, m - 1);
      events := Hears(before, Alone(Reliable, m - 1, BIT), []);
      assert Behind(LAST_IN_ORDER, m - 1)[m - 1 := Waiting(m - 1)] == Behind(LAST_IN_ORDER, m);
    }
  }

  /** Every handler asks for the next message. */
  ghost predicate Eager(q: Endpoint, n: nat) {
    |q.reactions| >= n && forall i :: 0 <= i < |q.reactions| ==> q.reactions[i] == [ListenReliable]
  }

  lemma DeliverEagerly(q: Endpoint, sn: nat, n: nat)
    requires q.sync.Some? && q.wantsReliable && Eager(q, n + 1)
    ensures Deliver(q, sn, BIT) ==
            q.(heard := q.heard + [BIT], received := Added(q.received, sn), sync := Some(q.sync.value.(reliable := sn)),
               reactions := q.reactions[1..])
    ensures Eager(Deliver(q, sn, BIT), n)
  {
    hide Added;
    var q0 := q.(wantsReliable := false);
    OneDeed(q0.(reactions := q.reactions[1..]), ListenReliable);
  }

  /** The pending messages are delivered although the window does not record them any more. */
  lemma {:induction false} ReplayBehind(q: Endpoint, k: nat, low: nat)
    requires LAST_IN_ORDER <= k < WORD && low <= k + 1 && HasGot(q, k, LAST_IN_ORDER, k) && q.wantsReliable
    requires q.pending == Behind(k, WORD) && Eager(q, WORD - 1 - k)
    ensures var q' := ReplayFrom(q, low);
            HasGot(q', WORD - 1, LAST_IN_ORDER, WORD - 1) && q'.pending == map[]
    decreases WORD - k
  {
    hide ReplayFrom, Deliver, UpTo, Added;
    ReplayStep(q, low);
    if k == WORD - 1 {
      assert Behind(k, WORD) == map[];
    } else {
      var sn := k + 1;
      assert Plus32(k, 1) == sn && sn in q.pending && q.pending[sn] == Waiting(sn);
      assert Waiting(sn).IsComplete() && Waiting(sn).data == BIT by { Completes(sn); }
      InOrderFull(sn);
      DeliverEagerly(q, sn, WORD - 2 - k);
      var q1 := Deliver(q, sn, BIT);
      assert Behind(k, WORD) - {sn} == Behind(sn, WORD);
      ReplayBehind(q1.(pending := q1.pending - {sn}), sn, sn + 1);
    }
  }

  lemma Completes(sn: nat)
    ensures Waiting(sn).IsComplete() && Waiting(sn).data == BIT
  {
    var f := Whole(Reliable, sn, BIT);
    assert PieceOf(f, BIT);
    FromFragmentFaithful(f, BIT);
    assert forall x: nat :: x < 1 ==> Spans(f, x);
    CompleteMeansWhole(Waiting(sn), BIT);
  }

  /** All numbers but zero are delivered. */
  lemma HearAllButZero() returns (events: seq<Event>)
    ensures AllSent(Run(events).left, WORD) && HasGot(Run(events).right, WORD - 1, LAST_IN_ORDER, WORD - 1)
    ensures Run(events).right.pending == map[]
  {
    hide Run, Receive, UpTo, Admits, Added, Deliver, ReplayFrom, Behind, AllSent;
    var before := StoreBehind(WORD);
    var reactions := seq(31, _ => [ListenReliable]);
    var d := Alone(Reliable, LAST_IN_ORDER, BIT);
    NumberSent(Run(before).left, WORD, LAST_IN_ORDER);
    events := Hears(before, d, reactions);
    var q := Run(before).right.(wantsReliable := true);
    var q0 := q.(reactions := reactions);
    assert Fitting(q, Whole(Reliable, LAST_IN_ORDER, BIT)) by { NotBehind(); }
    OneFragment(q, d, Whole(Reliable, LAST_IN_ORDER, BIT), reactions);
    InOrderNext(LAST_IN_ORDER - 1);
    DeliverEagerly(q0, LAST_IN_ORDER, 30);
    ReplayBehind(Deliver(q0, LAST_IN_ORDER, BIT), LAST_IN_ORDER, 0);
  }

  lemma NotBehind()
    ensures LAST_IN_ORDER !in Behind(LAST_IN_ORDER, WORD)
  {
  }

  /** After 2^32 reliable messages one can be heard again. */
  lemma RepeatedAfterWrap() returns (events: seq<Event>)
    ensures |Run(events).left.said| == WORD && |Run(events).right.heard| == WORD + 1
  {
    hide Run, Receive, Added;
    var e0 := HearAllButZero();
    var q0 := Run(e0).right;
    assert Admits(q0.received, 0);
    Accepted(q0.(wantsReliable := true), 0);
    NumberSent(Run(e0).left, WORD, 0);
    NumberSent(Run(e0).left, WORD, 1);
    var e1 := Hears(e0, Alone(Reliable, 0, BIT), []);
    var q1 := Run(e1).right;
    assert q1.received.highest == LAST_IN_ORDER by { ZeroChangesNothing(); }
    assert Admits(q1.received, 1);
    Accepted(q1.(wantsReliable := true), 1);
    events := Hears(e1, Alone(Reliable, 1, BIT), []);
  }

  lemma ZeroChangesNothing()
    ensures Added(UpTo(LAST_IN_ORDER), 0).highest == LAST_IN_ORDER
  {
    assert 0 in UpTo(LAST_IN_ORDER).bits;
  }

  /** In any run with at most n reliable messages what is heard is a prefix of what was said. */
  ghost predicate PrefixUpTo(n: nat) {
    forall events, s: Side :: |End(Run(events), s).said| <= n ==>
      End(Run(events), Other(s)).heard <= End(Run(events), s).said
  }

  /** Exactly below 2^32 messages. */
  lemma PrefixIff(n: nat)
    ensures PrefixUpTo(n) <==> n < WORD
  {
    hide Run;
    if n < WORD {
      forall events, s: Side | |End(Run(events), s).said| <= n
        ensures End(Run(events), Other(s)).heard <= End(Run(events), s).said
      {
        HeardIsPrefixOfSaid(events, s);
      }
    } else {
      var events := RepeatedAfterWrap();
      assert |End(Run(events), Left).said| <= n && End(Run(events), Other(Left)) == Run(events).right;
    }
  }

  // ----- getting stuck

  /** The window is full, and the next message is not there. */
  ghost predicate Stuck(q: Endpoint) {
    q.sync.Some? && q.sync.value.reliable == LAST_IN_ORDER && q.received == UpTo(LAST_IN_ORDER)
    && LAST_IN_ORDER + 1 !in q.pending
  }

  lemma StuckReplay(q: Endpoint)
    requires Stuck(q)
    ensures ReplayFrom(q, 0) == q
  {
    hide ReplayFrom, UpTo;
    ReplayStep(q, 0);
  }

  lemma StuckReliable(q: Endpoint, f: Fragment)
    requires Stuck(q) && Fitting(q, f) && f.sn < WORD
    ensures Stuck(HandleReliable(q, f)) && HandleReliable(q, f).heard == q.heard
  {
    hide ReplayFrom, UpTo, Admits, FromFragment, Updated;
    if LAST_IN_ORDER < f.sn {
      InOrderFull(f.sn);
    } else if f.sn in q.pending {
      StuckReplay(q.(pending := q.pending[f.sn := Updated(q.pending[f.sn], f.start, f.payload)]));
    }
  }

  lemma StuckUnreliable(q: Endpoint, f: Fragment)
    requires Stuck(q) && FittingUnreliable(q, f)
    ensures Stuck(HandleUnreliable(q, f)) && HandleUnreliable(q, f).heard == q.heard
  {
    hide React, UpTo, FromFragment, Updated;
    ReactFrame(q.(wantsUnreliable := false));
  }

  lemma {:induction false} StuckAll(q: Endpoint, fs: seq<Fragment>)
    requires Stuck(q) && forall i :: 0 <= i < |fs| && fs[i].kind.Reliable? ==> fs[i].sn < WORD
    ensures Stuck(HandleAll(q, fs)) && HandleAll(q, fs).heard == q.heard
    decreases |fs|
  {
    hide Stuck, HandleReliable, HandleUnreliable, Fitting, FittingUnreliable;
    if fs != [] {
      StuckAll(q, fs[..|fs| - 1]);
      var q1, f := HandleAll(q, fs[..|fs| - 1]), fs[|fs| - 1];
      match f.kind
      case Reliable =>
        if Fitting(q1, f) {
          StuckReliable(q1, f);
        }
      case Unreliable =>
        if FittingUnreliable(q1, f) {
          StuckUnreliable(q1, f);
        }
      case Sync => assert HandleSync(q1, f.sn) == q1 by { StuckIsSynced(q1); }
      case KeepAlive =>
      case Close =>
    }
  }

  lemma StuckIsSynced(q: Endpoint)
    requires Stuck(q)
    ensures q.sync.Some?
  {
  }

  lemma StuckReceives(q: Endpoint, p: Endpoint, d: Datagram, reactions: seq<seq<Deed>>)
    requires Stuck(q) && SendingFine(p) && d in p.sent
    ensures Stuck(Receive(q, d, reactions)) && Receive(q, d, reactions).heard == q.heard
  {
    hide HandleAll, QueueFine, UpTo;
    assert PacketFine(p, d);
    forall i | 0 <= i < |d.fragments| && d.fragments[i].kind.Reliable?
      ensures d.fragments[i].sn < WORD
    {
      assert FragmentFine(p, d.fragments[i]);
    }
    StuckAll(Opened(q, d, reactions), d.fragments);
  }

  lemma StuckPerforms(q: Endpoint, deed: Deed)
    requires Stuck(q)
    ensures Stuck(Perform(q, deed)) && Perform(q, deed).heard == q.heard
  {
    hide SendPass, UpTo;
  }

  lemma StuckKeepsAlive(q: Endpoint)
    requires Stuck(q)
    ensures Stuck(ReliableTransport.KeepAlive(q)) && ReliableTransport.KeepAlive(q).heard == q.heard
  {
    hide UpTo;
  }

  /** Whatever happens from then on, nothing more is heard. */
  lemma {:induction false} StuckForever(events: seq<Event>, more: seq<Event>)
    requires Stuck(Run(events).right)
    ensures Stuck(Run(events + more).right) && Run(events + more).right.heard == Run(events).right.heard
    decreases |more|
  {
    hide Run, Stuck, Perform, Receive, SendingFine, ReliableTransport.KeepAlive;
    if more == [] {
      assert events + more == events;
    } else {
      var init, e := more[..|more| - 1], more[|more| - 1];
      StuckForever(events, init);
      assert events + more == events + init + [e];
      RunNext(events + init, e);
      var q := Run(events + init).right;
      if e.side.Right? {
        match e.step
        case Act(deed) => StuckPerforms(q, deed);
        case Arrive(d, reactions) =>
          RunDirection(events + init, Left);
          if d in Run(events + init).left.sent {
            StuckReceives(q, Run(events + init).left, d, reactions);
          }
        case KeepAliveAlarm => StuckKeepsAlive(q);
      }
    }
  }

  /** From any run with at most n reliable messages the peer can be brought to hear them all, at any pace. */
  ghost predicate HearableUpTo(n: nat) {
    forall events, s: Side, pace: Pace :: pace.Moves() && |End(Run(events), s).said| <= n ==> Hearable(events, s, pace)
  }

  ghost predicate Hearable(events: seq<Event>, s: Side, pace: Pace) {
    exists more :: OnlyTransport(more, pace) && End(Run(events + more), Other(s)).heard == End(Run(events), s).said
  }

  /** From any such run it can come to hear them all, in whatever way. */
  ghost predicate EverHeardUpTo(n: nat) {
    forall events, s: Side :: |End(Run(events), s).said| <= n ==> EverHeard(events, s)
  }

  ghost predicate EverHeard(events: seq<Event>, s: Side) {
    exists more :: End(Run(events), s).said <= End(Run(events + more), Other(s)).heard
  }

  /** Exactly as far as the window can count: behind it a connection stops delivering, whatever is done. */
  lemma HearableIff(n: nat)
    ensures HearableUpTo(n) <==> n <= LAST_IN_ORDER
    ensures EverHeardUpTo(n) <==> n <= LAST_IN_ORDER
  {
    hide Run, OnlyTransport, Stuck, EverHeard, Hearable;
    if n <= LAST_IN_ORDER {
      forall events, s: Side, pace: Pace | pace.Moves() && |End(Run(events), s).said| <= n
        ensures Hearable(events, s, pace) && EverHeard(events, s)
      {
        CanHear(events, s, pace);
      }
      assert Pace(HEADER_SIZE + 1, 1).Moves();
    } else {
      var events := CannotHear();
      HearableIsHeard(events, Left, Pace(HEADER_SIZE + 1, 1));
    }
  }

  lemma CanHear(events: seq<Event>, s: Side, pace: Pace)
    requires pace.Moves() && |End(Run(events), s).said| <= LAST_IN_ORDER
    ensures Hearable(events, s, pace) && EverHeard(events, s)
  {
    hide Run, OnlyTransport;
    var more := EverythingIsHeard(events, s, pace);
    assert End(Run(events), s).said <= End(Run(events + more), Other(s)).heard;
  }

  lemma HearableIsHeard(events: seq<Event>, s: Side, pace: Pace)
    ensures Hearable(events, s, pace) ==> EverHeard(events, s)
  {
    hide Run, OnlyTransport;
    if Hearable(events, s, pace) {
      var more :| OnlyTransport(more, pace) && End(Run(events + more), Other(s)).heard == End(Run(events), s).said;
      assert End(Run(events), s).said <= End(Run(events + more), Other(s)).heard;
    }
  }

  lemma CannotHear() returns (events: seq<Event>)
    ensures |End(Run(events), Left).said| == LAST_IN_ORDER + 1 && !EverHeard(events, Left)
  {
    hide Run, AllSent;
    events := HearInOrder(LAST_IN_ORDER + 1, LAST_IN_ORDER);
    SaidAll(Run(events).left, LAST_IN_ORDER + 1);
    forall more
      ensures !(End(Run(events), Left).said <= End(Run(events + more), Other(Left)).heard)
    {
      StuckForever(events, more);
    }
  }

  lemma SaidAll(p: Endpoint, n: nat)
    requires AllSent(p, n)
    ensures |p.said| == n
  {
  }

  // ----- dropping what was not heard

  lemma {:induction false} PassDropsAcked(es: seq<Entry>, kept: seq<Entry>, o: Occasion, id: Identity)
    requires Recents(es) && o.threshold < 0 && id.reliable && IsIn(o.acked, id.sn) && !Has(kept, id)
    ensures AllValid(es) && !Has(PassOver(es, kept, [], 1000, o).queue, id)
    decreases |es|
  {
    hide IsIn;
    if es != [] {
      var e := es[0];
      if e.message.reliable && IsIn(o.acked, e.message.sn) {
        PassDropsAcked(es[1..], kept, o, id);
      } else {
        HasSplit(kept, [e], id);
        HasOne(e, id);
        PassDropsAcked(es[1..], kept + [e], o, id);
      }
    }
  }

  /** The right side tells that it is synchronised; to the left that means that number 0 was heard. */
  lemma ToldZero() returns (events: seq<Event>)
    ensures var w := Run(events);
            && |w.left.said| == WORD && w.left.said[WORD - 1] == BIT && w.right.heard == []
            && Recents(w.left.queue) && w.left.peerHas == UpTo(0)
  {
    hide Run, SendPass, UpTo, Added, SentEach, QueueFine, Synced;
    var before := SayAll(WORD);
    SyncedState();
    var told := Datagram(Some(UpTo(0)), [Whole(Sync, 0, [])]);
    var e0, e1 := Event(Right, Act(StartSending(1000, 0, -1, true))), Event(Left, Arrive(told, []));
    RunNext(before, e0);
    RunNext(before + [e0], e1);
    var p, q := Run(before).left, Run(before).right;
    assert Transmit(q, 1000, 0, -1, true).sent == {told} by { TellsWindow(q); }
    var p1 := Opened(p, told, []);
    HandleOne(p1, Whole(Sync, 0, []));
    events := before + [e0] + [e1];
  }

  lemma TellsWindow(q: Endpoint)
    requires q == CONNECTED.(sync := Some(Progress(0, 0)), received := UpTo(0))
    ensures Transmit(q, 1000, 0, -1, true).sent == {Datagram(Some(UpTo(0)), [Whole(Sync, 0, [])])}
  {
    hide SendPass;
    PassAlone([], true, Sync, 0, []);
    assert [] + [Entry(Never, Outgoing(true, Sync, 0, [], 0))] == q.queue;
    assert UpTo(0).(lowest := 0) == UpTo(0);
  }

  /** The message with number 0 leaves the queue as acknowledged although it was not heard. */
  lemma DroppedAfterWrap() returns (events: seq<Event>)
    ensures |Run(events).left.said| == WORD && Run(events).left.said[WORD - 1] == BIT && Run(events).right.heard == []
    ensures !Has(Run(events).left.queue, Identity(true, Reliable, NumberOf(WORD - 1), BIT))
  {
    hide Run, PassOver, UpTo, Recents, Has, IsIn;
    var before := ToldZero();
    var e := Event(Left, Act(SEND));
    RunNext(before, e);
    NumberSmall(WORD - 1);
    var id := Identity(true, Reliable, 0, BIT);
    HasNothing(id);
    assert IsIn(UpTo(0), 0) by { InOrderIsIn(0, 0); }
    PassDropsAcked(Run(before).left.queue, [], Occasion(UpTo(0), 0, -1), id);
    events := before + [e];
  }

  /** In any run with at most n reliable messages each is queued or heard. */
  ghost predicate KeptUpTo(n: nat) {
    forall events, s: Side, i: nat :: i < |End(Run(events), s).said| <= n ==> QueuedOrHeard(events, s, i)
  }

  ghost predicate QueuedOrHeard(events: seq<Event>, s: Side, i: nat)
    requires i < |End(Run(events), s).said|
  {
    || Has(End(Run(events), s).queue, Identity(true, Reliable, NumberOf(i), End(Run(events), s).said[i]))
    || i < |End(Run(events), Other(s)).heard|
  }

  /** Exactly below 2^32 messages. */
  lemma KeptIff(n: nat)
    ensures KeptUpTo(n) <==> n < WORD
  {
    hide Run, Has;
    if n < WORD {
      forall events, s: Side, i: nat | i < |End(Run(events), s).said| <= n
        ensures QueuedOrHeard(events, s, i)
      {
        NumberSmall(i);
        UnheardIsQueued(events, s, i);
      }
    } else {
      var events := DroppedAfterWrap();
      assert !QueuedOrHeard(events, Left, WORD - 1);
    }
  }
}
