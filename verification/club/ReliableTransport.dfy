/** Two connected sockets over a network that loses, repeats and reorders packets: what one side hears is always
    a prefix of what the other side said (include/club/socket.h, transport/transmit_queue.h).

    A packet, once sent, stays available to the network, which may deliver it at any time, any number of times,
    or never. Packets are taken as their contents; Links connects contents and bytes. */
module ReliableTransport {
  import opened Basics
  import opened AckSets
  import opened PartInfos
  import opened Fragments
  import opened TransmitQueues
  import opened Sockets

  datatype Side = Left | Right

  function Other(s: Side): Side { if s.Left? then Right else Left }

  datatype World = World(left: Endpoint, right: Endpoint)

  function End(w: World, s: Side): Endpoint { if s.Left? then w.left else w.right }

  function Put(w: World, s: Side, p: Endpoint): World {
    if s.Left? then w.(left := p) else w.(right := p)
  }

  /** A user's call, the keep-alive timer, or the arrival of a packet together with what the handlers it leads to
      will do. */
  datatype Step =
    | Act(deed: Deed)
    | KeepAliveAlarm
    | Arrive(datagram: Datagram, reactions: seq<seq<Deed>>)

  datatype Event = Event(side: Side, step: Step)

  // ----- steps

  ghost function HandleAll(p: Endpoint, fs: seq<Fragment>): Endpoint {
    if fs == [] then p
    else
      var q := HandleAll(p, fs[..|fs| - 1]);
      var f := fs[|fs| - 1];
      if f.kind.Reliable? && !Fitting(q, f) then q
      else if f.kind.Unreliable? && !FittingUnreliable(q, f) then q
      else Handle(q, f)
  }

  /** The packet is unpacked: its window replaces the one known of the peer, then its fragments are handled. */
  function Opened(p: Endpoint, d: Datagram, reactions: seq<seq<Deed>>): Endpoint {
    p.(reactions := reactions, peerHas := if d.window.Some? then d.window.value else p.peerHas)
  }

  ghost function Receive(p: Endpoint, d: Datagram, reactions: seq<seq<Deed>>): Endpoint {
    HandleAll(Opened(p, d, reactions), d.fragments)
  }

  function KeepAlive(p: Endpoint): Endpoint {
    if p.queue != [] then p else p.(queue := [Entry(Never, Outgoing(false, Kind.KeepAlive, 0, [], 0))])
  }

  ghost function Next(w: World, e: Event): World {
    var p := End(w, e.side);
    match e.step
    case Act(deed) => Put(w, e.side, Perform(p, deed))
    case KeepAliveAlarm => Put(w, e.side, KeepAlive(p))
    case Arrive(d, reactions) =>
      if d in End(w, Other(e.side)).sent then Put(w, e.side, Receive(p, d, reactions)) else w
  }

  const START: World := World(CONNECTED, CONNECTED)

  ghost function Run(events: seq<Event>): World {
    if events == [] then START else Next(Run(events[..|events| - 1]), events[|events| - 1])
  }

  lemma RunNext(events: seq<Event>, e: Event)
    ensures Run(events + [e]) == Next(Run(events), e)
  {
    assert (events + [e])[..|events + [e]| - 1] == events;
  }

  // ----- what the sender s keeps, whatever it does

  /** The number of the message at index i: they start from one, and wrap around. */
  function NumberOf(i: nat): nat { Plus32(i, 1) }

  lemma NumberSmall(i: nat)
    ensures i + 1 < WORD ==> NumberOf(i) == i + 1
    ensures i + 1 == WORD ==> NumberOf(i) == 0
  {
  }

  ghost predicate Numbered(said: seq<Payload>, sn: nat, data: Payload) {
    exists i: nat :: i < |said| && NumberOf(i) == sn && said[i] == data
  }

  ghost predicate PieceNumbered(said: seq<Payload>, f: Fragment) {
    exists i: nat :: i < |said| && NumberOf(i) == f.sn && PieceOf(f, said[i])
  }

  ghost predicate FragmentFine(s: Endpoint, f: Fragment) {
    match f.kind
    case Reliable => PieceNumbered(s.said, f)
    case Unreliable => PieceNumbered(s.saidUnreliable, f)
    case Sync => f.sn == 0
    case KeepAlive => true
    case Close => false
  }

  ghost predicate EntryFine(s: Endpoint, e: Entry) {
    && e.message.Valid()
    && match e.message.kind
       case Reliable => e.message.reliable && Numbered(s.said, e.message.sn, e.message.data)
       case Unreliable => !e.message.reliable && Numbered(s.saidUnreliable, e.message.sn, e.message.data)
       case Sync => e.message.reliable && e.message.sn == 0 && e.message.data == []
       case KeepAlive => !e.message.reliable && e.message.sn == 0
       case Close => false
  }

  ghost predicate QueueFine(s: Endpoint) {
    && (forall i :: 0 <= i < |s.queue| ==> EntryFine(s, s.queue[i]))
    && s.nextReliable == NumberOf(|s.said|) && s.nextUnreliable == NumberOf(|s.saidUnreliable|)
  }

  ghost predicate PacketFine(s: Endpoint, d: Datagram) {
    forall i :: 0 <= i < |d.fragments| ==> FragmentFine(s, d.fragments[i])
  }

  ghost predicate WireFine(s: Endpoint) {
    forall d <- s.sent :: PacketFine(s, d)
  }

  ghost predicate SendingFine(s: Endpoint) {
    QueueFine(s) && WireFine(s)
  }

  // ----- what s still owes to the receiver r

  /** The highest sequence number r delivered; nobody is synchronised below zero. */
  function Done(r: Endpoint): int {
    if r.sync.Some? then r.sync.value.reliable else -1
  }

  /** An acknowledgement window that r may have sent. */
  ghost predicate WindowFine(r: Endpoint, a: AckState) {
    a == NO_ACKS || exists n: nat :: n <= Done(r) && n < WORD && a == UpTo(n)
  }

  ghost predicate Queued(s: Endpoint, i: nat)
    requires i < |s.said|
  {
    Has(s.queue, Identity(true, Reliable, NumberOf(i), s.said[i]))
  }

  const SYNC: Identity := Identity(true, Sync, 0, [])

  /** A message is gone from the queue only once it was delivered. */
  ghost predicate Kept(s: Endpoint, r: Endpoint) {
    && (Has(s.queue, SYNC) || Done(r) >= 0)
    && forall i: nat :: Done(r) <= i < |s.said| && i + 1 < WORD ==> Queued(s, i)
  }

  ghost predicate Owed(s: Endpoint, r: Endpoint) {
    Kept(s, r) && WindowFine(r, s.peerHas)
  }

  // ----- what r has of s's messages

  /** So many reliable messages that no two have the same number. */
  ghost predicate Few(s: Endpoint) {
    |s.said| < WORD
  }

  ghost predicate FewUnreliable(s: Endpoint) {
    |s.saidUnreliable| <= WORD
  }

  ghost predicate PendingFine(s: Endpoint, r: Endpoint) {
    forall sn <- r.pending.Keys :: 1 <= sn <= |s.said| && Faithful(r.pending[sn], s.said[sn - 1])
  }

  /** r heard what s said up to number Done(r), and acknowledges it as far as the window goes. */
  ghost predicate HeardFine(s: Endpoint, r: Endpoint) {
    && Done(r) <= |s.said|
    && r.heard == s.said[..Max(Done(r), 0)]
    && r.received == (if Done(r) < 0 then NO_ACKS else UpTo(Min(Done(r), LAST_IN_ORDER)))
  }

  ghost predicate WindowsFine(r: Endpoint) {
    forall d <- r.sent :: d.window.Some? ==> WindowFine(r, d.window.value)
  }

  ghost predicate Hearing(s: Endpoint, r: Endpoint) {
    PendingFine(s, r) && HeardFine(s, r) && WindowsFine(r)
  }

  ghost predicate Rising(notes: seq<Note>) {
    forall i, j :: 0 <= i < j < |notes| ==> notes[i].sn < notes[j].sn
  }

  /** A note that was heard: its number is used up, and it is what was sent under that number. */
  ghost predicate NoteFine(said: seq<Payload>, sync: Option<Progress>, n: Note) {
    sync.Some? && 1 <= n.sn <= sync.value.unreliable && n.sn <= |said| && said[n.sn - 1] == n.payload
  }

  ghost predicate Noting(s: Endpoint, r: Endpoint) {
    && Rising(r.heardUnreliable)
    && (forall i :: 0 <= i < |r.heardUnreliable| ==> NoteFine(s.saidUnreliable, r.sync, r.heardUnreliable[i]))
    && (r.pendingUnreliable.Some? ==>
          var m := r.pendingUnreliable.value;
          1 <= m.sn <= |s.saidUnreliable| && Faithful(m, s.saidUnreliable[m.sn - 1]))
  }

  /** Everything known of the direction from s to r. */
  ghost predicate Direction(s: Endpoint, r: Endpoint) {
    && SendingFine(s)
    && (Few(s) ==> Owed(s, r) && Hearing(s, r))
    && (FewUnreliable(s) ==> Noting(s, r))
  }

  ghost predicate Inv(w: World) {
    Direction(w.left, w.right) && Direction(w.right, w.left)
  }

  // ----- saying more

  ghost predicate SaysMore(s: Endpoint, s': Endpoint) {
    s.said <= s'.said && s.saidUnreliable <= s'.saidUnreliable
  }

  /** Nothing that was said or heard is taken back. */
  ghost predicate Grows(s: Endpoint, s': Endpoint) {
    SaysMore(s, s') && s.heard <= s'.heard
  }

  lemma NumberedMore(said: seq<Payload>, said': seq<Payload>, sn: nat, data: Payload)
    requires said <= said' && Numbered(said, sn, data)
    ensures Numbered(said', sn, data)
  {
    var i: nat :| i < |said| && NumberOf(i) == sn && said[i] == data;
    assert said'[i] == data;
  }

  lemma PieceMore(said: seq<Payload>, said': seq<Payload>, f: Fragment)
    requires said <= said' && PieceNumbered(said, f)
    ensures PieceNumbered(said', f)
  {
    var i: nat :| i < |said| && NumberOf(i) == f.sn && PieceOf(f, said[i]);
    assert said'[i] == said[i];
  }

  lemma FragmentMore(s: Endpoint, s': Endpoint, f: Fragment)
    requires SaysMore(s, s') && FragmentFine(s, f)
    ensures FragmentFine(s', f)
  {
    hide PieceNumbered;
    if f.kind.Reliable? {
      PieceMore(s.said, s'.said, f);
    } else if f.kind.Unreliable? {
      PieceMore(s.saidUnreliable, s'.saidUnreliable, f);
    }
  }

  lemma EntryMore(s: Endpoint, s': Endpoint, e: Entry)
    requires SaysMore(s, s') && EntryFine(s, e)
    ensures EntryFine(s', e)
  {
    hide Numbered;
    if e.message.kind.Reliable? {
      NumberedMore(s.said, s'.said, e.message.sn, e.message.data);
    } else if e.message.kind.Unreliable? {
      NumberedMore(s.saidUnreliable, s'.saidUnreliable, e.message.sn, e.message.data);
    }
  }

  lemma WireMore(s: Endpoint, s': Endpoint)
    requires SaysMore(s, s') && WireFine(s) && s'.sent == s.sent
    ensures WireFine(s')
  {
    hide FragmentFine;
    forall d <- s.sent
      ensures PacketFine(s', d)
    {
      assert PacketFine(s, d);
      forall i | 0 <= i < |d.fragments|
        ensures FragmentFine(s', d.fragments[i])
      {
        FragmentMore(s, s', d.fragments[i]);
      }
    }
  }

  lemma HearingMore(s: Endpoint, s': Endpoint, r: Endpoint)
    requires s.said <= s'.said && Hearing(s, r)
    ensures Hearing(s', r)
  {
    hide Faithful, WindowsFine, UpTo;
    forall sn <- r.pending.Keys
      ensures 1 <= sn <= |s'.said| && s'.said[sn - 1] == s.said[sn - 1]
    {
      assert 1 <= sn <= |s.said|;
    }
    assert s'.said[..Max(Done(r), 0)] == s.said[..Max(Done(r), 0)];
  }

  lemma NotingMore(s: Endpoint, s': Endpoint, r: Endpoint)
    requires s.saidUnreliable <= s'.saidUnreliable && Noting(s, r)
    ensures Noting(s', r)
  {
    hide Faithful;
    forall i | 0 <= i < |r.heardUnreliable|
      ensures NoteFine(s'.saidUnreliable, r.sync, r.heardUnreliable[i])
    {
      assert NoteFine(s.saidUnreliable, r.sync, r.heardUnreliable[i]);
    }
  }

  // ----- deeds of the sender

  /** What s keeps as a sender; `owed` says whether its debt to r is followed. */
  ghost predicate Sender(s: Endpoint, r: Endpoint, owed: bool) {
    SendingFine(s) && (owed ==> Owed(s, r))
  }

  ghost predicate SameSender(s: Endpoint, s': Endpoint) {
    && s'.queue == s.queue && s'.nextReliable == s.nextReliable && s'.nextUnreliable == s.nextUnreliable
    && s'.said == s.said && s'.saidUnreliable == s.saidUnreliable && s'.peerHas == s.peerHas && s'.sent == s.sent
  }

  lemma SenderFrame(s: Endpoint, s': Endpoint, r: Endpoint, owed: bool)
    requires Sender(s, r, owed) && SameSender(s, s')
    ensures Sender(s', r, owed)
  {
    hide Has, WindowFine, EntryFine, WireFine;
    forall i | 0 <= i < |s.queue|
      ensures EntryFine(s', s'.queue[i])
    {
      EntryMore(s, s', s.queue[i]);
    }
    WireMore(s, s');
    assert forall i: nat :: i < |s.said| && Queued(s, i) ==> Queued(s', i);
  }

  /** An entry e is queued behind the others. */
  lemma EnqueueSender(s: Endpoint, s': Endpoint, r: Endpoint, e: Entry, owed: bool)
    requires Sender(s, r, owed) && SaysMore(s, s') && s'.queue == s.queue + [e] && EntryFine(s', e)
    requires s'.sent == s.sent && s'.peerHas == s.peerHas
    requires s'.nextReliable == NumberOf(|s'.said|) && s'.nextUnreliable == NumberOf(|s'.saidUnreliable|)
    requires |s.said| <= |s'.said| <= |s.said| + 1
    requires |s'.said| == |s.said| + 1 ==>
               IdentityOf(e) == Identity(true, Reliable, NumberOf(|s.said|), s'.said[|s.said|])
    ensures Sender(s', r, owed)
  {
    hide WindowFine, EntryFine, WireFine, Has, NumberOf;
    WireMore(s, s');
    forall i | 0 <= i < |s'.queue|
      ensures EntryFine(s', s'.queue[i])
    {
      if i < |s.queue| {
        EntryMore(s, s', s.queue[i]);
      }
    }
    if owed {
      HasSplit(s.queue, [e], SYNC);
      forall i: nat | Done(r) <= i < |s'.said| && i + 1 < WORD
        ensures Queued(s', i)
      {
        HasSplit(s.queue, [e], Identity(true, Reliable, NumberOf(i), s'.said[i]));
        HasOne(e, Identity(true, Reliable, NumberOf(i), s'.said[i]));
        if i < |s.said| {
          assert Queued(s, i);
        }
      }
    }
  }

  lemma NextNumber(n: nat)
    ensures Plus32(NumberOf(n), 1) == NumberOf(n + 1)
  {
  }

  lemma LastNumbered(said: seq<Payload>, data: Payload)
    ensures Numbered(said + [data], NumberOf(|said|), data)
  {
    assert (said + [data])[|said|] == data;
  }

  lemma SaySender(p: Endpoint, q: Endpoint, data: Payload, owed: bool)
    requires Sender(p, q, owed)
    ensures Sender(SendReliable(p, data), q, owed) && Grows(p, SendReliable(p, data))
  {
    hide Owed, WireFine, Numbered, NumberOf, Plus32;
    if |data| < SIZE_LIMIT {
      var p' := SendReliable(p, data);
      NextNumber(|p.said|);
      LastNumbered(p.said, data);
      EnqueueSender(p, p', q, p'.queue[|p.queue|], owed);
    }
  }

  lemma SayUnreliableSender(p: Endpoint, q: Endpoint, data: Payload, owed: bool)
    requires Sender(p, q, owed)
    ensures Sender(SendUnreliable(p, data), q, owed) && Grows(p, SendUnreliable(p, data))
  {
    hide Owed, WireFine, Numbered, NumberOf, Plus32;
    if |data| < SIZE_LIMIT {
      var p' := SendUnreliable(p, data);
      NextNumber(|p.saidUnreliable|);
      LastNumbered(p.saidUnreliable, data);
      EnqueueSender(p, p', q, p'.queue[|p.queue|], owed);
    }
  }

  lemma KeepAliveSender(p: Endpoint, q: Endpoint, owed: bool)
    requires Sender(p, q, owed)
    ensures Sender(KeepAlive(p), q, owed)
  {
    hide Owed, WireFine, NumberOf;
    if p.queue == [] {
      var e := KeepAlive(p).queue[0];
      assert KeepAlive(p).queue == p.queue + [e];
      EnqueueSender(p, KeepAlive(p), q, e, owed);
    }
  }

  // ----- transmitting

  /** A window never claims more than was delivered. */
  lemma WindowTruth(r: Endpoint, a: AckState, sn: nat)
    requires WindowFine(r, a) && IsIn(a, sn)
    ensures sn <= Done(r)
  {
    if a != NO_ACKS {
      var n: nat :| n <= Done(r) && n < WORD && a == UpTo(n);
      InOrderIsIn(n, sn);
    }
  }

  lemma SameIdentityFine(s: Endpoint, e: Entry, e': Entry)
    requires EntryFine(s, e) && IdentityOf(e) == IdentityOf(e') && e'.message.Valid()
    ensures EntryFine(s, e')
  {
    hide Numbered;
  }

  lemma QueueIsValid(s: Endpoint)
    requires QueueFine(s)
    ensures AllValid(s.queue)
  {
    assert forall i :: 0 <= i < |s.queue| ==> EntryFine(s, s.queue[i]);
  }

  lemma PassQueueFine(s: Endpoint, s': Endpoint, room: nat, o: Occasion)
    requires QueueFine(s) && AllValid(s.queue) && s' == s.(queue := SendPass(s.queue, room, o).queue, sent := s'.sent)
    ensures QueueFine(s')
  {
    hide PassOver, IsIn, EntryFine, NumberOf;
    PassKeepsValid(s.queue, [], [], room, o);
    forall i | 0 <= i < |s'.queue|
      ensures EntryFine(s', s'.queue[i])
    {
      var e' := s'.queue[i];
      assert Has(s'.queue, IdentityOf(e'));
      PassKeepsUnacked(s.queue, [], [], room, o, IdentityOf(e'));
      assert Has(s.queue, IdentityOf(e')) by { HasNothing(IdentityOf(e')); }
      var e :| e in s.queue && IdentityOf(e) == IdentityOf(e');
      SameIdentityFine(s, e, e');
      EntryMore(s, s', e');
    }
  }

  lemma PassKept(s: Endpoint, s': Endpoint, r: Endpoint, room: nat, now: int, threshold: int)
    requires Kept(s, r) && AllValid(s.queue) && WindowFine(r, s.peerHas) && s'.said == s.said
    requires s'.queue == SendPass(s.queue, room, Occasion(s.peerHas, now, threshold)).queue
    ensures Kept(s', r)
  {
    hide PassOver, IsIn, Has, WindowFine;
    var o := Occasion(s.peerHas, now, threshold);
    PassKeepsUnacked(s.queue, [], [], room, o, SYNC);
    if IsIn(s.peerHas, 0) {
      WindowTruth(r, s.peerHas, 0);
    }
    forall i: nat | Done(r) <= i < |s'.said| && i + 1 < WORD
      ensures Queued(s', i)
    {
      assert Queued(s, i);
      NumberSmall(i);
      PassKeepsUnacked(s.queue, [], [], room, o, Identity(true, Reliable, NumberOf(i), s.said[i]));
      if IsIn(s.peerHas, i + 1) {
        WindowTruth(r, s.peerHas, i + 1);
      }
    }
  }

  lemma CutIsFine(s: Endpoint, f: Fragment)
    requires QueueFine(s) && CutFromSome(f, s.queue)
    ensures FragmentFine(s, f)
  {
    var e :| e in s.queue && CutFrom(f, e);
    assert EntryFine(s, e);
    if e.message.kind.Reliable? {
      var i: nat :| i < |s.said| && NumberOf(i) == e.message.sn && s.said[i] == e.message.data;
      assert PieceOf(f, s.said[i]);
    } else if e.message.kind.Unreliable? {
      var i: nat :| i < |s.saidUnreliable| && NumberOf(i) == e.message.sn && s.saidUnreliable[i] == e.message.data;
      assert PieceOf(f, s.saidUnreliable[i]);
    }
  }

  lemma PassPacketFine(s: Endpoint, room: nat, o: Occasion, window: Option<AckState>)
    requires QueueFine(s) && AllValid(s.queue)
    ensures PacketFine(s, Datagram(window, SendPass(s.queue, room, o).fragments))
  {
    hide PassOver, IsIn, CutFromSome, FragmentFine, QueueFine;
    PassSendsPieces(s.queue, [], [], room, o);
    var fs := SendPass(s.queue, room, o).fragments;
    forall i | 0 <= i < |fs|
      ensures FragmentFine(s, fs[i])
    {
      CutIsFine(s, fs[i]);
    }
  }

  lemma WireAdded(s: Endpoint, s': Endpoint, d: Datagram)
    requires WireFine(s) && PacketFine(s, d) && s'.sent == s.sent + {d} && s'.said == s.said
    requires s'.saidUnreliable == s.saidUnreliable
    ensures WireFine(s')
  {
    hide FragmentFine;
    forall d' <- s'.sent
      ensures PacketFine(s', d')
    {
      assert PacketFine(s, d');
      forall i | 0 <= i < |d'.fragments|
        ensures FragmentFine(s', d'.fragments[i])
      {
        FragmentMore(s, s', d'.fragments[i]);
      }
    }
  }

  lemma TransmitSender(p: Endpoint, q: Endpoint, room: nat, now: int, threshold: int, withWindow: bool, owed: bool)
    requires Sender(p, q, owed)
    ensures Sender(Transmit(p, room, now, threshold, withWindow), q, owed)
  {
    hide PassOver, IsIn, WindowFine, Kept, WireFine, QueueFine, PacketFine;
    QueueIsValid(p);
    var o := Occasion(p.peerHas, now, threshold);
    var p' := Transmit(p, room, now, threshold, withWindow);
    var window := if withWindow then Some(p.received.(lowest := 0)) else None;
    PassQueueFine(p, p', room, o);
    PassPacketFine(p, room, o, window);
    WireAdded(p, p', Datagram(window, SendPass(p.queue, room, o).fragments));
    if owed {
      PassKept(p, p', q, room, now, threshold);
    }
  }

  lemma PerformSender(p: Endpoint, deed: Deed, q: Endpoint, owed: bool)
    requires Sender(p, q, owed)
    ensures Sender(Perform(p, deed), q, owed) && Grows(p, Perform(p, deed))
  {
    hide Sender, SendReliable, SendUnreliable, SendPass;
    match deed
    case SayReliable(data) => SaySender(p, q, data, owed);
    case SayUnreliable(data) => SayUnreliableSender(p, q, data, owed);
    case ListenReliable => SenderFrame(p, Perform(p, deed), q, owed);
    case ListenUnreliable => SenderFrame(p, Perform(p, deed), q, owed);
    case StartSending(room, now, threshold, withWindow) => TransmitSender(p, q, room, now, threshold, withWindow, owed);
  }

  lemma {:induction false} PerformAllSender(p: Endpoint, deeds: seq<Deed>, q: Endpoint, owed: bool)
    requires Sender(p, q, owed)
    ensures Sender(PerformAll(p, deeds), q, owed) && Grows(p, PerformAll(p, deeds))
    decreases |deeds|
  {
    hide Sender, Perform;
    if deeds != [] {
      PerformSender(p, deeds[0], q, owed);
      PerformAllSender(Perform(p, deeds[0]), deeds[1..], q, owed);
    }
  }

  lemma ReactSender(p: Endpoint, q: Endpoint, owed: bool)
    requires Sender(p, q, owed)
    ensures Sender(React(p), q, owed) && Grows(p, React(p))
  {
    hide Sender, PerformAll;
    if p.reactions != [] {
      SenderFrame(p, p.(reactions := p.reactions[1..]), q, owed);
      PerformAllSender(p.(reactions := p.reactions[1..]), p.reactions[0], q, owed);
    }
  }

  // As a sender, an end that receives changes only by what its handlers do.

  lemma DeliverSender(p: Endpoint, sn: nat, payload: Payload, q: Endpoint, owed: bool)
    requires Sender(p, q, owed) && p.sync.Some?
    ensures Sender(Deliver(p, sn, payload), q, owed) && Grows(p, Deliver(p, sn, payload))
  {
    hide Sender, React, Added;
    if p.wantsReliable {
      var p0 := p.(wantsReliable := false);
      SenderFrame(p, p0, q, owed);
      ReactSender(p0, q, owed);
      SenderFrame(React(p0), Deliver(p, sn, payload), q, owed);
    }
  }

  lemma {:induction false} ReplaySender(p: Endpoint, low: nat, q: Endpoint, owed: bool)
    requires Sender(p, q, owed) && p.sync.Some?
    ensures Sender(ReplayFrom(p, low), q, owed) && Grows(p, ReplayFrom(p, low))
    decreases |p.pending|
  {
    hide Sender, Deliver, ReplayFrom;
    ReplayStep(p, low);
    var sn := Plus32(p.sync.value.reliable, 1);
    if !(sn < low || sn !in p.pending || !p.pending[sn].IsComplete() || !p.wantsReliable) {
      var p1 := Deliver(p, sn, p.pending[sn].data);
      DeliverSender(p, sn, p.pending[sn].data, q, owed);
      DeliverChanges(p, sn, p.pending[sn].data);
      var p2 := p1.(pending := p1.pending - {sn});
      SenderFrame(p1, p2, q, owed);
      Smaller(p1.pending, sn);
      ReplaySender(p2, sn + 1, q, owed);
    }
  }

  lemma DeliverUnreliableSender(p: Endpoint, sn: nat, payload: Payload, q: Endpoint, owed: bool)
    requires Sender(p, q, owed) && p.sync.Some?
    ensures Sender(DeliverUnreliable(p, sn, payload), q, owed) && Grows(p, DeliverUnreliable(p, sn, payload))
  {
    hide Sender, React;
    var p0 := p.(wantsUnreliable := false);
    SenderFrame(p, p0, q, owed);
    ReactSender(p0, q, owed);
    SenderFrame(React(p0), DeliverUnreliable(p, sn, payload), q, owed);
  }

  lemma HandleReliableSender(p: Endpoint, f: Fragment, q: Endpoint, owed: bool)
    requires Sender(p, q, owed) && Fitting(p, f)
    ensures Sender(HandleReliable(p, f), q, owed) && Grows(p, HandleReliable(p, f))
  {
    hide Sender, Deliver, ReplayFrom, Added, Admits, FromFragment, Updated;
    if p.sync.Some? && Admits(p.received, f.sn) {
      if f.sn == Plus32(p.sync.value.reliable, 1) && f.IsComplete() {
        if p.wantsReliable {
          DeliverSender(p, f.sn, f.payload, q, owed);
          DeliverChanges(p, f.sn, f.payload);
          ReplaySender(Deliver(p, f.sn, f.payload), 0, q, owed);
        }
      } else if f.sn !in p.pending {
        SenderFrame(p, HandleReliable(p, f), q, owed);
      } else {
        var p1 := p.(pending := p.pending[f.sn := Updated(p.pending[f.sn], f.start, f.payload)]);
        SenderFrame(p, p1, q, owed);
        ReplaySender(p1, 0, q, owed);
      }
    }
  }

  lemma HandleUnreliableSender(p: Endpoint, f: Fragment, q: Endpoint, owed: bool)
    requires Sender(p, q, owed) && FittingUnreliable(p, f)
    ensures Sender(HandleUnreliable(p, f), q, owed) && Grows(p, HandleUnreliable(p, f))
  {
    hide Sender, DeliverUnreliable, FromFragment, Updated;
    if p.wantsUnreliable && p.sync.Some? && p.sync.value.unreliable < f.sn {
      if f.IsComplete() {
        DeliverUnreliableSender(p, f.sn, f.payload, q, owed);
      } else if p.pendingUnreliable.None? || p.pendingUnreliable.value.sn < f.sn {
        SenderFrame(p, HandleUnreliable(p, f), q, owed);
      } else if p.pendingUnreliable.value.sn == f.sn {
        var m := Updated(p.pendingUnreliable.value, f.start, f.payload);
        if m.IsComplete() {
          DeliverUnreliableSender(p, f.sn, m.data, q, owed);
        } else {
          SenderFrame(p, HandleUnreliable(p, f), q, owed);
        }
      }
    }
  }

  lemma HandleSender(p: Endpoint, f: Fragment, q: Endpoint, owed: bool)
    requires Sender(p, q, owed)
    requires f.kind.Reliable? ==> Fitting(p, f)
    requires f.kind.Unreliable? ==> FittingUnreliable(p, f)
    ensures Sender(Handle(p, f), q, owed) && Grows(p, Handle(p, f))
  {
    hide Sender, HandleReliable, HandleUnreliable, Fitting, FittingUnreliable, Added;
    match f.kind
    case Sync => SenderFrame(p, HandleSync(p, f.sn), q, owed);
    case Reliable => HandleReliableSender(p, f, q, owed);
    case Unreliable => HandleUnreliableSender(p, f, q, owed);
    case KeepAlive =>
    case Close =>
  }

  lemma {:induction false} HandleAllSender(p: Endpoint, fs: seq<Fragment>, q: Endpoint, owed: bool)
    requires Sender(p, q, owed)
    ensures Sender(HandleAll(p, fs), q, owed) && Grows(p, HandleAll(p, fs))
    decreases |fs|
  {
    hide Sender, Handle, Fitting, FittingUnreliable;
    if fs != [] {
      HandleAllSender(p, fs[..|fs| - 1], q, owed);
      var p1, f := HandleAll(p, fs[..|fs| - 1]), fs[|fs| - 1];
      if (f.kind.Reliable? ==> Fitting(p1, f)) && (f.kind.Unreliable? ==> FittingUnreliable(p1, f)) {
        HandleSender(p1, f, q, owed);
      }
    }
  }

  // ----- what the receiver r keeps of s's reliable messages

  ghost predicate SameHearer(r: Endpoint, r': Endpoint) {
    && Done(r') == Done(r) && r'.pending == r.pending && r'.received == r.received && r'.heard == r.heard
    && r'.sent == r.sent
  }

  lemma HearingFrame(s: Endpoint, r: Endpoint, r': Endpoint)
    requires Hearing(s, r) && SameHearer(r, r')
    ensures Hearing(s, r')
  {
    hide Faithful, UpTo;
    forall d <- r'.sent | d.window.Some?
      ensures WindowFine(r', d.window.value)
    {
      assert WindowFine(r, d.window.value);
    }
  }

  /** The receiver advanced; what was known of windows stays true. */
  lemma WindowAdvances(r: Endpoint, r': Endpoint, a: AckState)
    requires WindowFine(r, a) && Done(r) <= Done(r')
    ensures WindowFine(r', a)
  {
    if a != NO_ACKS {
      var n: nat :| n <= Done(r) && n < WORD && a == UpTo(n);
      assert n <= Done(r');
    }
  }

  lemma OwedAdvances(s: Endpoint, r: Endpoint, r': Endpoint)
    requires Owed(s, r) && Done(r) <= Done(r')
    ensures Owed(s, r')
  {
    hide WindowFine;
    WindowAdvances(r, r', s.peerHas);
  }

  lemma OwnWindowFine(s: Endpoint, r: Endpoint)
    requires HeardFine(s, r)
    ensures WindowFine(r, r.received.(lowest := 0))
  {
    if Done(r) >= 0 {
      var n: nat := Min(Done(r), LAST_IN_ORDER);
      assert r.received.(lowest := 0) == UpTo(n);
    }
  }

  lemma TransmitHearing(p: Endpoint, q: Endpoint, room: nat, now: int, threshold: int, withWindow: bool)
    requires Hearing(q, p)
    ensures Hearing(q, Transmit(p, room, now, threshold, withWindow))
  {
    hide SendPass, Faithful, UpTo, HeardFine;
    var p' := Transmit(p, room, now, threshold, withWindow);
    assert HeardFine(q, p') by { SameHeard(q, p, p'); }
    OwnWindowFine(q, p);
    forall d <- p'.sent | d.window.Some?
      ensures WindowFine(p', d.window.value)
    {
      WindowAdvances(p, p', d.window.value);
    }
  }

  lemma SameHeard(s: Endpoint, r: Endpoint, r': Endpoint)
    requires HeardFine(s, r) && r'.sync == r.sync && r'.heard == r.heard && r'.received == r.received
    ensures HeardFine(s, r')
  {
  }

  lemma PerformHearing(p: Endpoint, deed: Deed, q: Endpoint)
    requires Hearing(q, p)
    ensures Hearing(q, Perform(p, deed)) && Done(Perform(p, deed)) == Done(p)
  {
    hide Hearing, SendPass;
    if deed.StartSending? {
      TransmitHearing(p, q, deed.room, deed.now, deed.threshold, deed.withWindow);
    } else {
      HearingFrame(q, p, Perform(p, deed));
    }
  }

  lemma {:induction false} PerformAllHearing(p: Endpoint, deeds: seq<Deed>, q: Endpoint)
    requires Hearing(q, p)
    ensures Hearing(q, PerformAll(p, deeds)) && Done(PerformAll(p, deeds)) == Done(p)
    decreases |deeds|
  {
    hide Hearing, Perform;
    if deeds != [] {
      PerformHearing(p, deeds[0], q);
      PerformAllHearing(Perform(p, deeds[0]), deeds[1..], q);
    }
  }

  lemma ReactHearing(p: Endpoint, q: Endpoint)
    requires Hearing(q, p)
    ensures Hearing(q, React(p)) && Done(React(p)) == Done(p)
  {
    hide Hearing, PerformAll;
    if p.reactions != [] {
      HearingFrame(q, p, p.(reactions := p.reactions[1..]));
      PerformAllHearing(p.(reactions := p.reactions[1..]), p.reactions[0], q);
    }
  }

  /** Recording the next number, in the window as far as it goes. */
  lemma NextReceived(n: nat)
    requires n + 1 < WORD
    ensures Added(UpTo(Min(n, LAST_IN_ORDER)), n + 1) == UpTo(Min(n + 1, LAST_IN_ORDER))
  {
    hide Added, UpTo;
    if n <= LAST_IN_ORDER {
      InOrderNext(n);
    } else {
      InOrderFull(n + 1);
    }
  }

  lemma DeliveredHearing(q: Endpoint, p: Endpoint, p': Endpoint, payload: Payload)
    requires Hearing(q, p) && Few(q) && p.sync.Some? && Done(p) < |q.said| && q.said[Done(p)] == payload
    requires p' == p.(heard := p.heard + [payload], received := Added(p.received, Done(p) + 1),
                      sync := Some(p.sync.value.(reliable := Done(p) + 1)))
    ensures Hearing(q, p') && Done(p') == Done(p) + 1
  {
    hide Added, UpTo, Faithful, WindowFine;
    NextReceived(Done(p));
    assert q.said[..Done(p) + 1] == q.said[..Done(p)] + [payload];
    forall d <- p'.sent | d.window.Some?
      ensures WindowFine(p', d.window.value)
    {
      WindowAdvances(p, p', d.window.value);
    }
  }

  lemma DeliverHearing(p: Endpoint, payload: Payload, q: Endpoint)
    requires Hearing(q, p) && Few(q) && p.sync.Some? && p.wantsReliable
    requires Done(p) < |q.said| && q.said[Done(p)] == payload
    ensures var p' := Deliver(p, Done(p) + 1, payload);
            Hearing(q, p') && Done(p') == Done(p) + 1
  {
    hide Hearing, React, Added;
    var p0 := p.(wantsReliable := false);
    HearingFrame(q, p, p0);
    ReactHearing(p0, q);
    ReactFrame(p0);
    DeliveredHearing(q, React(p0), Deliver(p, Done(p) + 1, payload), payload);
  }

  /** Forgetting or changing pending messages. */
  lemma PendingHearing(p: Endpoint, pending: map<nat, Incoming>, q: Endpoint)
    requires Hearing(q, p) && PendingFine(q, p.(pending := pending))
    ensures Hearing(q, p.(pending := pending))
  {
    hide PendingFine, UpTo;
    var p' := p.(pending := pending);
    forall d <- p'.sent | d.window.Some?
      ensures WindowFine(p', d.window.value)
    {
      WindowAdvances(p, p', d.window.value);
    }
  }

  lemma HearingPending(q: Endpoint, p: Endpoint)
    requires Hearing(q, p)
    ensures PendingFine(q, p) && Done(p) <= |q.said|
  {
  }

  /** What is pending next has the number behind the last one. */
  lemma NextPending(p: Endpoint, q: Endpoint)
    requires Hearing(q, p) && Few(q) && p.sync.Some? && Plus32(p.sync.value.reliable, 1) in p.pending
    ensures Plus32(p.sync.value.reliable, 1) == Done(p) + 1 <= |q.said|
    ensures Faithful(p.pending[Done(p) + 1], q.said[Done(p)])
  {
    hide Faithful, WindowsFine;
  }

  lemma {:induction false} ReplayHearing(p: Endpoint, low: nat, q: Endpoint)
    requires Hearing(q, p) && Few(q) && p.sync.Some?
    ensures Hearing(q, ReplayFrom(p, low)) && Done(p) <= Done(ReplayFrom(p, low))
    decreases |p.pending|
  {
    hide Hearing, Deliver, ReplayFrom, Faithful, Covers, Separated, Plus32;
    ReplayStep(p, low);
    var sn := Plus32(p.sync.value.reliable, 1);
    if !(sn < low || sn !in p.pending || !p.pending[sn].IsComplete() || !p.wantsReliable) {
      NextPending(p, q);
      CompleteMeansWhole(p.pending[sn], q.said[sn - 1]);
      var p1 := Deliver(p, sn, p.pending[sn].data);
      DeliverHearing(p, p.pending[sn].data, q);
      DeliverChanges(p, sn, p.pending[sn].data);
      HearingPending(q, p1);
      PendingHearing(p1, p1.pending - {sn}, q);
      Smaller(p1.pending, sn);
      ReplayHearing(p1.(pending := p1.pending - {sn}), sn + 1, q);
    }
  }

  /** With few messages the number of a piece tells which it is a piece of. */
  lemma PieceIndex(said: seq<Payload>, f: Fragment)
    requires PieceNumbered(said, f) && (|said| < WORD || (|said| == WORD && f.sn > 0))
    ensures 1 <= f.sn <= |said| && f.sn < WORD && PieceOf(f, said[f.sn - 1])
  {
    var i: nat :| i < |said| && NumberOf(i) == f.sn && PieceOf(f, said[i]);
    NumberSmall(i);
  }

  lemma HandleReliableHearing(p: Endpoint, f: Fragment, q: Endpoint)
    requires Hearing(q, p) && Few(q) && f.kind.Reliable? && FragmentFine(q, f)
    ensures Fitting(p, f) && Hearing(q, HandleReliable(p, f)) && Done(p) <= Done(HandleReliable(p, f))
  {
    hide Hearing, Deliver, ReplayFrom, Added, Admits, FromFragment, Updated, Separated;
    PieceIndex(q.said, f);
    HearingPending(q, p);
    var data := q.said[f.sn - 1];
    if p.sync.Some? && Admits(p.received, f.sn) {
      if f.sn == Plus32(p.sync.value.reliable, 1) && f.IsComplete() {
        if p.wantsReliable {
          assert f.payload == data && f.sn == Done(p) + 1;
          DeliverHearing(p, f.payload, q);
          DeliverChanges(p, f.sn, f.payload);
          ReplayHearing(Deliver(p, f.sn, f.payload), 0, q);
        }
      } else if f.sn !in p.pending {
        FromFragmentFaithful(f, data);
        PendingHearing(p, p.pending[f.sn := FromFragment(f)], q);
      } else {
        UpdatedFaithful(p.pending[f.sn], f, data);
        var pending := p.pending[f.sn := Updated(p.pending[f.sn], f.start, f.payload)];
        PendingHearing(p, pending, q);
        ReplayHearing(p.(pending := pending), 0, q);
      }
    }
  }

  lemma HandleSyncHearing(p: Endpoint, q: Endpoint)
    requires Hearing(q, p)
    ensures Hearing(q, HandleSync(p, 0)) && Done(p) <= Done(HandleSync(p, 0))
  {
    hide Added, UpTo, Faithful;
    if p.sync.None? {
      var p' := HandleSync(p, 0);
      InOrderStart();
      forall d <- p'.sent | d.window.Some?
        ensures WindowFine(p', d.window.value)
      {
        WindowAdvances(p, p', d.window.value);
      }
    }
  }

  lemma DeliverUnreliableHearing(p: Endpoint, sn: nat, payload: Payload, q: Endpoint)
    requires Hearing(q, p) && p.sync.Some?
    ensures var p' := DeliverUnreliable(p, sn, payload);
            Hearing(q, p') && Done(p') == Done(p)
  {
    hide Hearing, React;
    var p0 := p.(wantsUnreliable := false);
    HearingFrame(q, p, p0);
    ReactHearing(p0, q);
    ReactFrame(p0);
    HearingFrame(q, React(p0), DeliverUnreliable(p, sn, payload));
  }

  lemma HandleUnreliableHearing(p: Endpoint, f: Fragment, q: Endpoint)
    requires Hearing(q, p) && FittingUnreliable(p, f)
    ensures Hearing(q, HandleUnreliable(p, f)) && Done(HandleUnreliable(p, f)) == Done(p)
  {
    hide Hearing, DeliverUnreliable, FromFragment, Updated;
    if p.wantsUnreliable && p.sync.Some? && p.sync.value.unreliable < f.sn {
      DeliverUnreliableHearing(p, f.sn, f.payload, q);
      if !f.IsComplete() {
        if p.pendingUnreliable.Some? && p.pendingUnreliable.value.sn == f.sn {
          var m := Updated(p.pendingUnreliable.value, f.start, f.payload);
          DeliverUnreliableHearing(p, f.sn, m.data, q);
          HearingFrame(q, p, p.(pendingUnreliable := Some(m)));
        }
        HearingFrame(q, p, p.(pendingUnreliable := Some(FromFragment(f))));
      }
    }
  }

  lemma {:induction false} HandleAllHearing(p: Endpoint, fs: seq<Fragment>, q: Endpoint)
    requires Hearing(q, p) && Few(q) && forall i :: 0 <= i < |fs| ==> FragmentFine(q, fs[i])
    ensures Hearing(q, HandleAll(p, fs)) && Done(p) <= Done(HandleAll(p, fs))
    decreases |fs|
  {
    hide Hearing, HandleReliable, HandleUnreliable, HandleSync, Fitting, FittingUnreliable;
    if fs != [] {
      HandleAllHearing(p, fs[..|fs| - 1], q);
      var p1, f := HandleAll(p, fs[..|fs| - 1]), fs[|fs| - 1];
      match f.kind
      case Sync => HandleSyncHearing(p1, q);
      case Reliable => HandleReliableHearing(p1, f, q);
      case Unreliable =>
        if FittingUnreliable(p1, f) {
          HandleUnreliableHearing(p1, f, q);
        }
      case KeepAlive =>
      case Close =>
    }
  }

  // ----- what the receiver r keeps of s's unreliable messages

  ghost predicate SameNotes(r: Endpoint, r': Endpoint) {
    && r'.heardUnreliable == r.heardUnreliable && r'.pendingUnreliable == r.pendingUnreliable
    && (r.sync.Some? ==> r'.sync.Some? && r'.sync.value.unreliable == r.sync.value.unreliable)
  }

  lemma NotingFrame(s: Endpoint, r: Endpoint, r': Endpoint)
    requires Noting(s, r) && SameNotes(r, r')
    ensures Noting(s, r')
  {
    hide Faithful;
    forall i | 0 <= i < |r'.heardUnreliable|
      ensures NoteFine(s.saidUnreliable, r'.sync, r'.heardUnreliable[i])
    {
      assert NoteFine(s.saidUnreliable, r.sync, r.heardUnreliable[i]);
    }
  }

  lemma DeliverNotes(p: Endpoint, sn: nat, payload: Payload)
    requires p.sync.Some?
    ensures SameNotes(p, Deliver(p, sn, payload))
  {
    hide React, Added;
    ReactFrame(p.(wantsReliable := false));
  }

  lemma {:induction false} ReplayNotes(p: Endpoint, low: nat)
    requires p.sync.Some?
    ensures SameNotes(p, ReplayFrom(p, low))
    decreases |p.pending|
  {
    hide Deliver, ReplayFrom;
    ReplayStep(p, low);
    var sn := Plus32(p.sync.value.reliable, 1);
    if !(sn < low || sn !in p.pending || !p.pending[sn].IsComplete() || !p.wantsReliable) {
      var p1 := Deliver(p, sn, p.pending[sn].data);
      DeliverNotes(p, sn, p.pending[sn].data);
      DeliverChanges(p, sn, p.pending[sn].data);
      Smaller(p1.pending, sn);
      ReplayNotes(p1.(pending := p1.pending - {sn}), sn + 1);
    }
  }

  lemma HandleReliableNotes(p: Endpoint, f: Fragment)
    requires Fitting(p, f)
    ensures SameNotes(p, HandleReliable(p, f))
  {
    hide Deliver, ReplayFrom, Admits, Added, FromFragment, Updated;
    if p.sync.Some? && Admits(p.received, f.sn) {
      if f.sn == Plus32(p.sync.value.reliable, 1) && f.IsComplete() {
        if p.wantsReliable {
          DeliverNotes(p, f.sn, f.payload);
          DeliverChanges(p, f.sn, f.payload);
          ReplayNotes(Deliver(p, f.sn, f.payload), 0);
        }
      } else if f.sn in p.pending {
        ReplayNotes(p.(pending := p.pending[f.sn := Updated(p.pending[f.sn], f.start, f.payload)]), 0);
      }
    }
  }

  lemma DeliverUnreliableNoting(p: Endpoint, sn: nat, payload: Payload, q: Endpoint)
    requires Noting(q, p) && p.sync.Some? && p.sync.value.unreliable < sn
    requires 1 <= sn <= |q.saidUnreliable| && q.saidUnreliable[sn - 1] == payload
    ensures Noting(q, DeliverUnreliable(p, sn, payload))
  {
    hide React, Faithful;
    ReactFrame(p.(wantsUnreliable := false));
    var p' := DeliverUnreliable(p, sn, payload);
    assert p'.heardUnreliable == p.heardUnreliable + [Note(sn, payload)];
    forall i | 0 <= i < |p'.heardUnreliable|
      ensures NoteFine(q.saidUnreliable, p'.sync, p'.heardUnreliable[i])
      ensures i < |p.heardUnreliable| ==> p'.heardUnreliable[i].sn < sn
    {
      if i < |p.heardUnreliable| {
        assert NoteFine(q.saidUnreliable, p.sync, p.heardUnreliable[i]);
      }
    }
  }

  lemma PendingNoting(p: Endpoint, m: Incoming, q: Endpoint)
    requires Noting(q, p) && 1 <= m.sn <= |q.saidUnreliable| && Faithful(m, q.saidUnreliable[m.sn - 1])
    ensures Noting(q, p.(pendingUnreliable := Some(m)))
  {
    hide Faithful, NoteFine;
  }

  lemma HandleUnreliableNoting(p: Endpoint, f: Fragment, q: Endpoint)
    requires Noting(q, p) && FewUnreliable(q) && f.kind.Unreliable? && FragmentFine(q, f)
    requires FittingUnreliable(p, f)
    ensures Noting(q, HandleUnreliable(p, f))
  {
    hide DeliverUnreliable, Separated, NoteFine;
    if p.wantsUnreliable && p.sync.Some? && p.sync.value.unreliable < f.sn {
      PieceIndex(q.saidUnreliable, f);
      var data := q.saidUnreliable[f.sn - 1];
      if f.IsComplete() {
        assert f.payload == data;
        DeliverUnreliableNoting(p, f.sn, f.payload, q);
      } else if p.pendingUnreliable.None? || p.pendingUnreliable.value.sn < f.sn {
        FromFragmentFaithful(f, data);
        PendingNoting(p, FromFragment(f), q);
      } else if p.pendingUnreliable.value.sn == f.sn {
        var m := Updated(p.pendingUnreliable.value, f.start, f.payload);
        UpdatedFaithful(p.pendingUnreliable.value, f, data);
        CompleteMeansWhole(m, data);
        if m.IsComplete() {
          DeliverUnreliableNoting(p, f.sn, m.data, q);
        } else {
          PendingNoting(p, m, q);
        }
      }
    }
  }

  lemma {:induction false} HandleAllNoting(p: Endpoint, fs: seq<Fragment>, q: Endpoint)
    requires Noting(q, p) && FewUnreliable(q) && forall i :: 0 <= i < |fs| ==> FragmentFine(q, fs[i])
    ensures Noting(q, HandleAll(p, fs))
    decreases |fs|
  {
    hide Noting, HandleReliable, HandleUnreliable, Fitting, FittingUnreliable, Added;
    if fs != [] {
      HandleAllNoting(p, fs[..|fs| - 1], q);
      var p1, f := HandleAll(p, fs[..|fs| - 1]), fs[|fs| - 1];
      match f.kind
      case Sync => NotingFrame(q, p1, HandleSync(p1, f.sn));
      case Reliable =>
        if Fitting(p1, f) {
          HandleReliableNotes(p1, f);
          NotingFrame(q, p1, HandleReliable(p1, f));
        }
      case Unreliable =>
        if FittingUnreliable(p1, f) {
          HandleUnreliableNoting(p1, f, q);
        }
      case KeepAlive =>
      case Close =>
    }
  }

  // ----- runs

  /** p moved as a sender, and told the other end nothing new about itself as a receiver. */
  lemma SentDirection(p: Endpoint, p': Endpoint, q: Endpoint)
    requires Direction(p, q) && Grows(p, p') && SendingFine(p') && (Few(p') ==> Owed(p', q))
    ensures Direction(p', q)
  {
    hide SendingFine, Owed, Hearing, Noting;
    if Few(p') {
      HearingMore(p, p', q);
    }
    if FewUnreliable(p') {
      NotingMore(p, p', q);
    }
  }

  /** What the directions become when p turns into p' as a sender, given what holds for either count. */
  lemma SenderDirection(p: Endpoint, p': Endpoint, q: Endpoint)
    requires Direction(p, q) && Grows(p, p')
    requires Sender(p', q, Few(p))
    ensures Direction(p', q)
  {
    hide SendingFine, Owed, Hearing, Noting;
    SentDirection(p, p', q);
  }

  lemma ReceiverDirection(p: Endpoint, p': Endpoint, q: Endpoint)
    requires Direction(q, p)
    requires Few(q) ==> Hearing(q, p') && Done(p) <= Done(p')
    requires FewUnreliable(q) ==> Noting(q, p')
    ensures Direction(q, p')
  {
    hide SendingFine, Owed, Hearing, Noting;
    if Few(q) {
      OwedAdvances(q, p, p');
    }
  }

  lemma ActBoth(p: Endpoint, q: Endpoint, deed: Deed)
    requires Direction(p, q) && Direction(q, p)
    ensures Direction(Perform(p, deed), q) && Direction(q, Perform(p, deed))
  {
    hide SendingFine, Owed, Hearing, Noting, Perform;
    var p' := Perform(p, deed);
    PerformSender(p, deed, q, Few(p));
    SenderDirection(p, p', q);
    if Few(q) {
      PerformHearing(p, deed, q);
    }
    if FewUnreliable(q) {
      PerformNotes(p, deed);
      NotingFrame(q, p, p');
    }
    ReceiverDirection(p, p', q);
  }

  lemma PerformNotes(p: Endpoint, deed: Deed)
    ensures SameNotes(p, Perform(p, deed))
  {
    hide SendPass;
  }

  lemma KeepAliveBoth(p: Endpoint, q: Endpoint)
    requires Direction(p, q) && Direction(q, p)
    ensures Direction(KeepAlive(p), q) && Direction(q, KeepAlive(p))
  {
    hide SendingFine, Owed, Hearing, Noting;
    var p' := KeepAlive(p);
    KeepAliveSender(p, q, Few(p));
    SenderDirection(p, p', q);
    if Few(q) {
      HearingFrame(q, p, p');
    }
    if FewUnreliable(q) {
      NotingFrame(q, p, p');
    }
    ReceiverDirection(p, p', q);
  }

  /** A window that came from q is one that q may have sent. */
  lemma OpenedSender(p: Endpoint, q: Endpoint, d: Datagram, reactions: seq<seq<Deed>>, owed: bool)
    requires Sender(p, q, owed) && d in q.sent && (owed ==> WindowsFine(q))
    ensures Sender(Opened(p, d, reactions), q, owed)
  {
    hide Has, EntryFine, WireFine, NumberOf, WindowFine;
    var p' := Opened(p, d, reactions);
    forall i | 0 <= i < |p.queue|
      ensures EntryFine(p', p'.queue[i])
    {
      EntryMore(p, p', p.queue[i]);
    }
    WireMore(p, p');
    assert forall i: nat :: i < |p.said| && Queued(p, i) ==> Queued(p', i);
  }

  lemma ArriveBoth(p: Endpoint, q: Endpoint, d: Datagram, reactions: seq<seq<Deed>>)
    requires Direction(p, q) && Direction(q, p) && d in q.sent
    ensures Direction(Receive(p, d, reactions), q) && Direction(q, Receive(p, d, reactions))
  {
    hide QueueFine, FragmentFine, PendingFine, HeardFine, WindowFine, Kept, Noting, HandleAll;
    var p1, p' := Opened(p, d, reactions), Receive(p, d, reactions);
    OpenedSender(p, q, d, reactions, Few(p));
    HandleAllSender(p1, d.fragments, q, Few(p));
    SenderDirection(p, p', q);
    assert PacketFine(q, d);
    if Few(q) {
      HearingFrame(q, p, p1);
      HandleAllHearing(p1, d.fragments, q);
    }
    if FewUnreliable(q) {
      NotingFrame(q, p, p1);
      HandleAllNoting(p1, d.fragments, q);
    }
    ReceiverDirection(p, p', q);
  }

  lemma NextKeeps(w: World, e: Event)
    requires Inv(w)
    ensures Inv(Next(w, e))
  {
    hide Direction, Perform, Receive;
    var p, q := End(w, e.side), End(w, Other(e.side));
    match e.step {
      case Act(deed) => ActBoth(p, q, deed);
      case KeepAliveAlarm => KeepAliveBoth(p, q);
      case Arrive(d, reactions) =>
        if d in q.sent {
          ArriveBoth(p, q, d, reactions);
        }
    }
  }

  lemma StartInv()
    ensures Inv(START)
  {
    assert CONNECTED.queue[0] in CONNECTED.queue;
    NumberSmall(0);
  }

  lemma {:induction false} RunInv(events: seq<Event>)
    ensures Inv(Run(events))
    decreases |events|
  {
    hide Next, Inv;
    if events == [] {
      StartInv();
    } else {
      RunInv(events[..|events| - 1]);
      NextKeeps(Run(events[..|events| - 1]), events[|events| - 1]);
    }
  }

  lemma RunDirection(events: seq<Event>, s: Side)
    ensures Direction(End(Run(events), s), End(Run(events), Other(s)))
  {
    hide Direction, Run;
    RunInv(events);
  }

  /** A step takes back nothing. */
  lemma RunGrows(events: seq<Event>, e: Event, s: Side)
    ensures Grows(End(Run(events), s), End(Run(events + [e]), s))
  {
    hide Run, SendingFine, Perform, HandleAll;
    RunNext(events, e);
    RunDirection(events, s);
    var p, q := End(Run(events), s), End(Run(events), Other(s));
    if e.side == s {
      match e.step {
        case Act(deed) => PerformSender(p, deed, q, false);
        case KeepAliveAlarm =>
        case Arrive(d, reactions) =>
          if d in q.sent {
            OpenedSender(p, q, d, reactions, false);
            HandleAllSender(Opened(p, d, reactions), d.fragments, q, false);
          }
      }
    }
  }

  // ----- the guarantees

  /** Reliable messages: whatever the network does, what a side has heard is a prefix of what the other side has
      said, in the same order and without gaps or repetitions, as long as no two messages have the same number.
      WrapAround.PrefixIff shows that this is the exact condition. */
  lemma HeardIsPrefixOfSaid(events: seq<Event>, s: Side)
    requires |End(Run(events), s).said| < WORD
    ensures End(Run(events), Other(s)).heard <= End(Run(events), s).said
  {
    hide Run, SendingFine, Owed, Noting, PendingFine, WindowsFine;
    RunDirection(events, s);
  }

  /** A reliable message is still queued or already heard; so whatever left the queue was heard. */
  lemma UnheardIsQueued(events: seq<Event>, s: Side, i: nat)
    requires |End(Run(events), s).said| < WORD && i < |End(Run(events), s).said|
    ensures Has(End(Run(events), s).queue, Identity(true, Reliable, i + 1, End(Run(events), s).said[i]))
            || i < |End(Run(events), Other(s)).heard|
  {
    hide Run, Has, SendingFine, WindowFine, WindowsFine, PendingFine, Noting;
    RunDirection(events, s);
    NumberSmall(i);
    var p, q := End(Run(events), s), End(Run(events), Other(s));
    if Done(q) <= i {
      assert Queued(p, i);
    }
  }

  /** Acknowledgements are true: what a side takes as acknowledged was heard by the other side. */
  lemma AcknowledgedIsHeard(events: seq<Event>, s: Side, i: nat)
    requires |End(Run(events), s).said| < WORD && i < |End(Run(events), s).said|
    requires IsIn(End(Run(events), s).peerHas, i + 1)
    ensures i < |End(Run(events), Other(s)).heard|
  {
    hide Run, SendingFine, Kept, WindowFine, WindowsFine, PendingFine, Noting, IsIn;
    RunDirection(events, s);
    WindowTruth(End(Run(events), Other(s)), End(Run(events), s).peerHas, i + 1);
  }

  /** xs consists of elements of ys, at positions that increase. */
  ghost predicate Subsequence(xs: seq<Payload>, ys: seq<Payload>) {
    exists at: seq<nat> :: Embeds(at, xs, ys)
  }

  ghost predicate Embeds(at: seq<nat>, xs: seq<Payload>, ys: seq<Payload>) {
    && |at| == |xs|
    && (forall i :: 0 <= i < |at| ==> at[i] < |ys| && ys[at[i]] == xs[i])
    && forall i, j :: 0 <= i < j < |at| ==> at[i] < at[j]
  }

  function PayloadsOf(notes: seq<Note>): seq<Payload> {
    seq(|notes|, i requires 0 <= i < |notes| => notes[i].payload)
  }

  /** Unreliable messages may be lost, but those that are heard come complete, in the order they were sent, and
      each at most once, until a number is used again. WrapAround.OrderIff shows that this is the exact condition. */
  lemma UnreliableNeverReordered(events: seq<Event>, s: Side)
    requires |End(Run(events), s).saidUnreliable| <= WORD
    ensures Subsequence(PayloadsOf(End(Run(events), Other(s)).heardUnreliable), End(Run(events), s).saidUnreliable)
  {
    hide Run, SendingFine, Owed, Hearing, Faithful;
    RunDirection(events, s);
    var notes, said := End(Run(events), Other(s)).heardUnreliable, End(Run(events), s).saidUnreliable;
    var sync := End(Run(events), Other(s)).sync;
    assert forall i :: 0 <= i < |notes| ==> NoteFine(said, sync, notes[i]);
    var at: seq<nat> := seq(|notes|, i requires 0 <= i < |notes| => notes[i].sn - 1);
    assert Embeds(at, PayloadsOf(notes), said);
  }
}
