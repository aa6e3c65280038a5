/** How the layers fit: bytes carry the packets of ReliableTransport, and a pair of sockets is a lossless FIFO link
    for messages, which is what the hubs of StaticRuns are joined by (see Stack). */
module Links {
  import opened Basics
  import opened AckSets
  import opened Fragments
  import opened TransmitQueues
  import opened Codec
  import opened Packets
  import opened Congestion
  import opened Sockets
  import opened ReliableTransport
  import opened TransportProgress
  import opened Messages

  // ----- bytes carry packets

  /** What the socket takes from a packet it has read. */
  function DatagramOf(p: Packet): Datagram {
    Datagram(match p.ack case NoAckPart => None case AckPart(_, window) => Some(window), p.fragments)
  }

  /** The packet that `encode_packet` assembles for a socket with these acknowledgements to send. */
  ghost function PacketFrom(p: Endpoint, room: nat, now: int, threshold: int, acks: set<nat>, nextSeq: nat,
                            diff: int): Packet
    requires AllValid(p.queue)
  {
    Packet(now, diff, PartOf(acks, p.received), nextSeq, PassOf(p.queue, room, p.peerHas, now, threshold).fragments)
  }

  /** Whatever bytes were written for the packet, if they fit the receive buffer, what the peer reads of them is what
      the transport's step put on the wire. Congestion.EncodePacket says when they fit. */
  lemma BytesCarryPackets(p: Endpoint, room: nat, now: int, threshold: int, acks: set<nat>, nextSeq: nat, diff: int,
                          bytes: Codec.Bytes, before: Codec.Bytes)
    requires AllValid(p.queue) && Representable(p.queue, acks, p.received, nextSeq, now, diff) && room <= MSS
    requires Encodes(bytes, PacketFrom(p, room, now, threshold, acks, nextSeq, diff)) && |bytes| <= MSS == |before|
    ensures ReadPacket(InBuffer(bytes, before)).1
    ensures DatagramOf(ReadPacket(InBuffer(bytes, before)).0) in Transmit(p, room, now, threshold, acks != {}).sent
  {
    hide Representable, Encodes, ReadPacket, PassOver;
    var rest := before[|bytes|..];
    EncodedPacketIsRead(p.queue, acks, p.received, nextSeq, now, diff, room, p.peerHas, threshold, bytes, rest);
  }

  /** A packet sent at such a pace fits the receive buffer. */
  lemma PacedPacketFits(p: Endpoint, pace: Pace, now: int, nextSeq: nat, diff: int, bytes: Codec.Bytes)
    requires AllValid(p.queue) && pace.room <= SegmentRoom({})
    requires var packet := PacketFrom(p, pace.room, now, now - pace.delay, {}, nextSeq, diff);
             packet.fragments != [] && Encodes(bytes, packet)
    ensures |bytes| <= MSS
  {
    hide PassOver, BigEndian, HeadBytes, FragmentsBytes, EncodedSize;
    var packet := PacketFrom(p, pace.room, now, now - pace.delay, {}, nextSeq, diff);
    HeadSize(packet);
    NoAcksSize(packet);
    PassFillsRoom(p.queue, [], [], pace.room, Occasion(p.peerHas, now, now - pace.delay));
    NothingEncoded();
    FragmentsBytesSize(packet.fragments);
  }

  lemma NoAcksSize(p: Packet)
    requires p.ack.NoAckPart?
    ensures |AckBytes(p.ack)| == 1
  {
  }

  /** In every run the numbers of what is queued fit their width, so this applies to it. */
  lemma QueuedNumbersFit(events: seq<Event>, s: Side)
    ensures var q := End(Run(events), s).queue;
            AllValid(q) && forall i :: 0 <= i < |q| ==> q[i].message.sn < WORD
  {
    hide Run, Owed, Hearing, Noting, WireFine;
    RunDirection(events, s);
    var p := End(Run(events), s);
    QueueIsValid(p);
    forall i | 0 <= i < |p.queue|
      ensures p.queue[i].message.sn < WORD
    {
      assert EntryFine(p, p.queue[i]);
    }
  }

  // ----- a pair of sockets is a link

  /** The hub's messages as the payloads they are encoded into; the encoding is a parameter. */
  ghost function Encoded(ms: seq<Message>, enc: Message -> Payload): seq<Payload> {
    seq(|ms|, i requires 0 <= i < |ms| => enc(ms[i]))
  }

  ghost function Decoded(ps: seq<Payload>, dec: Payload -> Message): seq<Message> {
    seq(|ps|, i requires 0 <= i < |ps| => dec(ps[i]))
  }

  /** The sockets carry a link: what was passed to the one at s is the link's queue, and what was handed out by the
      other is what was taken from it. */
  ghost predicate Carries(w: World, s: Side, queue: seq<Message>, taken: nat, enc: Message -> Payload) {
    && End(w, s).said == Encoded(queue, enc)
    && taken <= |queue| && End(w, Other(s)).heard == Encoded(queue[..taken], enc)
  }

  /** Whoever can read the encoding gets the messages of the link, in order, each once. */
  lemma LinkDecodes(w: World, s: Side, queue: seq<Message>, taken: nat, enc: Message -> Payload,
                    dec: Payload -> Message)
    requires Carries(w, s, queue, taken, enc) && forall m :: dec(enc(m)) == m
    ensures Decoded(End(w, Other(s)).heard, dec) == queue[..taken]
  {
  }

  lemma EncodedPrefix(ms: seq<Message>, enc: Message -> Payload, n: nat)
    requires n <= |ms|
    ensures Encoded(ms[..n], enc) == Encoded(ms, enc)[..n]
  {
  }

  /** The payloads are passed to the socket at s, one after another. */
  ghost function Sayings(s: Side, payloads: seq<Payload>): seq<Event> {
    seq(|payloads|, i requires 0 <= i < |payloads| => Event(s, Act(SayReliable(payloads[i]))))
  }

  lemma {:induction false} SaysAll(events: seq<Event>, s: Side, payloads: seq<Payload>)
    requires forall i :: 0 <= i < |payloads| ==> |payloads[i]| < SIZE_LIMIT
    ensures var w, w' := Run(events), Run(events + Sayings(s, payloads));
            && End(w', s).said == End(w, s).said + payloads && End(w', s).heard == End(w, s).heard
            && End(w', Other(s)) == End(w, Other(s))
    decreases |payloads|
  {
    hide Run;
    if payloads == [] {
      assert events + Sayings(s, payloads) == events;
    } else {
      var init, last := payloads[..|payloads| - 1], payloads[|payloads| - 1];
      SaysAll(events, s, init);
      var e := Event(s, Act(SayReliable(last)));
      assert events + Sayings(s, payloads) == events + Sayings(s, init) + [e];
      RunNext(events + Sayings(s, init), e);
      assert payloads == init + [last];
    }
  }

  /** The hub hands messages to the socket: they go on the link, and the other direction is as it was. */
  lemma LinkGrows(events: seq<Event>, s: Side, queue: seq<Message>, taken: nat, enc: Message -> Payload,
                  ms: seq<Message>)
    requires Carries(Run(events), s, queue, taken, enc) && forall m <- ms :: |enc(m)| < SIZE_LIMIT
    ensures Carries(Run(events + Sayings(s, Encoded(ms, enc))), s, queue + ms, taken, enc)
  {
    hide Run, Sayings;
    SaysAll(events, s, Encoded(ms, enc));
    assert (queue + ms)[..taken] == queue[..taken];
    assert Encoded(queue + ms, enc) == Encoded(queue, enc) + Encoded(ms, enc);
  }

  /** Every other step of the sockets, whatever it is, takes some number of messages, the next ones, from the link. */
  lemma LinkAdvances(events: seq<Event>, e: Event, s: Side, queue: seq<Message>, taken: nat, enc: Message -> Payload)
    returns (n: nat)
    requires Carries(Run(events), s, queue, taken, enc) && |queue| < WORD
    requires End(Run(events + [e]), s).said == End(Run(events), s).said
    ensures taken <= n && Carries(Run(events + [e]), s, queue, n, enc)
  {
    hide Run, Grows;
    RunGrows(events, e, Other(s));
    HeardIsPrefixOfSaid(events + [e], s);
    GrownLength(End(Run(events), Other(s)), End(Run(events + [e]), Other(s)));
    n := |End(Run(events + [e]), Other(s)).heard|;
    EncodedPrefix(queue, enc, n);
  }

  lemma GrownLength(p: Endpoint, p': Endpoint)
    requires Grows(p, p')
    ensures |p.heard| <= |p'.heard|
  {
  }

  /** What is on the link can be taken from it, one message at a time, by packets alone. */
  lemma LinkTakesOne(events: seq<Event>, s: Side, pace: Pace, queue: seq<Message>, taken: nat,
                     enc: Message -> Payload) returns (more: seq<Event>)
    requires Carries(Run(events), s, queue, taken, enc) && taken < |queue| <= LAST_IN_ORDER && pace.Moves()
    ensures OnlyTransport(more, pace) && Undisturbed(Run(events), Run(events + more), s)
    ensures Carries(Run(events + more), s, queue, taken + 1, enc)
  {
    hide Run, OnlyTransport;
    more := OneIsHeard(events, s, pace);
    HeardIsPrefixOfSaid(events + more, s);
    EncodedPrefix(queue, enc, taken + 1);
  }

  /** Or all at once. */
  lemma LinkDelivers(events: seq<Event>, s: Side, pace: Pace, queue: seq<Message>, taken: nat,
                     enc: Message -> Payload) returns (more: seq<Event>)
    requires Carries(Run(events), s, queue, taken, enc) && |queue| <= LAST_IN_ORDER && pace.Moves()
    ensures OnlyTransport(more, pace) && Carries(Run(events + more), s, queue, |queue|, enc)
  {
    hide Run, OnlyTransport;
    more := EverythingIsHeard(events, s, pace);
    assert queue[..|queue|] == queue;
  }
}
