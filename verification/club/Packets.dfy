/** The layout of packets and fragments, and reading them back (include/club/transport/packet.h,
    quality_of_service.h, in_message_part.h, message_type.h). */
module Packets {
  import opened AckSets
  import opened Fragments
  import opened Codec

  /** The packet acknowledgements and the message window that go with them, or none of both. */
  datatype AckPart = NoAckPart | AckPart(acks: seq<nat>, window: AckState)

  datatype Packet = Packet(time: int, diff: int, ack: AckPart, seqNr: nat, fragments: seq<Fragment>)

  // ----- layout

  function KindCode(k: Kind): nat {
    match k
    case Sync => 0
    case KeepAlive => 1
    case Unreliable => 2
    case Reliable => 3
    case Close => 4
  }

  function FragmentBytes(f: Fragment): (b: Bytes)
    ensures |b| == HEADER_SIZE + |f.payload|
  {
    BigEndian(KindCode(f.kind), 1) + (BigEndian(f.sn, 4) + (BigEndian(f.size, 2) + (BigEndian(f.start, 2)
    + (BigEndian(|f.payload|, 2) + f.payload))))
  }

  function FragmentsBytes(fs: seq<Fragment>): Bytes {
    if fs == [] then [] else FragmentBytes(fs[0]) + FragmentsBytes(fs[1..])
  }

  function NumbersBytes(ns: seq<nat>): (b: Bytes)
    ensures |b| == 4 * |ns|
  {
    if ns == [] then [] else BigEndian(ns[0], 4) + NumbersBytes(ns[1..])
  }

  /** Only the highest number and the mask of a window travel. */
  function WindowBytes(a: AckState): (b: Bytes)
    ensures |b| == 8
  {
    BigEndian(a.highest, 4) + BigEndian(Mask(a.bits, 32), 4)
  }

  function AckBytes(a: AckPart): Bytes {
    match a
    case NoAckPart => BigEndian(0, 1)
    case AckPart(acks, window) => BigEndian(1, 1) + (BigEndian(|acks|, 2) + (NumbersBytes(acks) + WindowBytes(window)))
  }

  function HeadBytes(p: Packet): Bytes {
    BigEndian(Unsigned64(p.time), 8)
    + (BigEndian(Unsigned64(p.diff), 8) + (AckBytes(p.ack) + BigEndian(|p.fragments|, 2)))
  }

  /** The sequence number of the packet and the fragments. A packet without fragments has no sequence number, but
      may have unused bytes where it would be. */
  ghost predicate Encodes(bytes: Bytes, p: Packet) {
    if p.fragments == [] then HeadBytes(p) <= bytes
    else bytes == HeadBytes(p) + (BigEndian(p.seqNr, 4) + FragmentsBytes(p.fragments))
  }

  // ----- reading

  datatype Result<T> = Ok(value: T, rest: Reader) | Bad

  function KindOf(code: nat): Result<Kind> {
    if code == 0 then Ok(Sync, Reader([], false))
    else if code == 1 then Ok(KeepAlive, Reader([], false))
    else if code == 2 then Ok(Unreliable, Reader([], false))
    else if code == 3 then Ok(Reliable, Reader([], false))
    else if code == 4 then Ok(Close, Reader([], false))
    else Bad
  }

  /** What follows the kind of a fragment. An error before it or in it sticks. */
  function ReadBody(r: Reader, kind: Kind): (res: (Fragment, Reader))
    ensures r.error ==> res.1.error
  {
    var (sn, r1) := r.Get(4);
    var (size, r2) := r1.Get(2);
    var (start, r3) := r2.Get(2);
    var (chunk, r4) := r3.Get(2);
    var (payload, r5) := r4.Raw(chunk);
    (Fragment(kind, sn, size, start, payload), r5)
  }

  function ReadFragment(r: Reader): Result<Fragment> {
    var (code, r1) := r.Get(1);
    match KindOf(code)
    case Bad => Bad
    case Ok(kind, _) =>
      var (f, r2) := ReadBody(r1, kind);
      if r2.error then Bad else Ok(f, r2)
  }

  /** The fragments up to the first malformed one, which leaves an error. */
  function ReadFragments(r: Reader, count: nat): (seq<Fragment>, Reader)
    decreases count
  {
    if count == 0 then ([], r)
    else
      match ReadFragment(r)
      case Bad => ([], Reader([], true))
      case Ok(f, r1) =>
        var (fs, r2) := ReadFragments(r1, count - 1);
        ([f] + fs, r2)
  }

  function ReadNumbers(r: Reader, count: nat): (seq<nat>, Reader)
    decreases count
  {
    if count == 0 then ([], r)
    else
      var (n, r1) := r.Get(4);
      var (ns, r2) := ReadNumbers(r1, count - 1);
      ([n] + ns, r2)
  }

  /** A window that was read has no lowest number. */
  function ReadWindow(r: Reader): (AckState, Reader) {
    var (highest, r1) := r.Get(4);
    var (mask, r2) := r1.Get(4);
    (AckState(highest, 0, BitsOf(mask, 32)), r2)
  }

  function ReadAcks(r: Reader): (AckPart, Reader) {
    var (flag, r1) := r.Get(1);
    if flag == 0 || r1.error then (NoAckPart, r1)
    else
      var (count, r2) := r1.Get(2);
      var (acks, r3) := ReadNumbers(r2, count);
      var (window, r4) := ReadWindow(r3);
      (AckPart(acks, window), r4)
  }

  /** Everything before the fragments, and how many of them follow. */
  function ReadHead(bytes: Bytes): (Packet, nat, Reader) {
    var (time, r1) := Reader(bytes, false).Get(8);
    var (diff, r2) := r1.Get(8);
    var (ack, r3) := ReadAcks(r2);
    var (count, r4) := r3.Get(2);
    var (seqNr, r5) := if count == 0 then (0, r4) else r4.Get(4);
    (Packet(Signed64(time), Signed64(diff), ack, seqNr, []), count, r5)
  }

  /** What is read of a packet, and whether all of it was well formed. */
  function ReadPacket(bytes: Bytes): (Packet, bool) {
    var (head, count, r) := ReadHead(bytes);
    if r.error then (head, false)
    else
      var (fs, r') := ReadFragments(r, count);
      (head.(fragments := fs), !r'.error)
  }

  /** Reading `left` more numbers after ns is reading `count` from the start. */
  ghost predicate RestOfNumbers(now: Reader, left: nat, ns: seq<nat>, start: Reader, count: nat) {
    ReadNumbers(start, count) == (ns + ReadNumbers(now, left).0, ReadNumbers(now, left).1)
  }

  lemma NumbersStep(now: Reader, left: nat, ns: seq<nat>, start: Reader, count: nat)
    requires left > 0 && RestOfNumbers(now, left, ns, start, count)
    ensures var (n, r) := now.Get(4); RestOfNumbers(r, left - 1, ns + [n], start, count)
  {
    var (n, r) := now.Get(4);
    assert ns + ([n] + ReadNumbers(r, left - 1).0) == ns + [n] + ReadNumbers(r, left - 1).0;
  }

  /** Reading `left` more fragments after fs is reading `count` from the start. */
  ghost predicate RestOfFragments(now: Reader, left: nat, fs: seq<Fragment>, start: Reader, count: nat) {
    ReadFragments(start, count) == (fs + ReadFragments(now, left).0, ReadFragments(now, left).1)
  }

  lemma FragmentsStep(now: Reader, left: nat, fs: seq<Fragment>, start: Reader, count: nat)
    requires left > 0 && RestOfFragments(now, left, fs, start, count)
    ensures match ReadFragment(now)
            case Bad => ReadFragments(start, count) == (fs, Reader([], true))
            case Ok(f, r) => RestOfFragments(r, left - 1, fs + [f], start, count)
  {
    hide ReadFragment;
    match ReadFragment(now)
    case Bad => assert fs + [] == fs;
    case Ok(f, r) => assert fs + ([f] + ReadFragments(r, left - 1).0) == fs + [f] + ReadFragments(r, left - 1).0;
  }

  lemma FragmentsBegin(r: Reader, count: nat)
    ensures RestOfFragments(r, count, [], r, count)
  {
    assert [] + ReadFragments(r, count).0 == ReadFragments(r, count).0;
  }

  lemma FragmentsEnd(now: Reader, fs: seq<Fragment>, start: Reader, count: nat)
    requires RestOfFragments(now, 0, fs, start, count)
    ensures ReadFragments(start, count) == (fs, now)
  {
    assert fs + [] == fs;
  }

  class PacketDecoder {
    const decoder: Decoder
    var nextMessage: nat
    var count: nat

    constructor (bytes: Bytes)
      ensures decoder.Valid() && fresh(decoder) && decoder.View() == Reader(bytes, false)
      ensures decoder.bytes == bytes && nextMessage == 0
    {
      decoder := new Decoder(bytes);
      nextMessage, count := 0, 0;
    }

    method DecodeAcks() returns (ack: AckPart)
      requires decoder.Valid()
      modifies decoder
      ensures decoder.Valid() && (ack, decoder.View()) == ReadAcks(old(decoder.View()))
    {
      hide Value, BitsOf;
      var flag := decoder.GetUint(1);
      if flag == 0 || decoder.wasError {
        return NoAckPart;
      }
      var n := decoder.GetUint(2);
      var acks := [];
      var i := 0;
      ghost var r2 := decoder.View();
      assert [] + ReadNumbers(r2, n).0 == ReadNumbers(r2, n).0;
      while i < n
        invariant i <= n && decoder.Valid()
        invariant RestOfNumbers(decoder.View(), n - i, acks, r2, n)
      {
        NumbersStep(decoder.View(), n - i, acks, r2, n);
        var sn := decoder.GetUint(4);
        acks := acks + [sn];
        i := i + 1;
      }
      assert ReadNumbers(r2, n) == (acks, decoder.View()) by { assert acks + [] == acks; }
      var highest := decoder.GetUint(4);
      var mask := decoder.GetUint(4);
      ack := AckPart(acks, AckState(highest, 0, BitsOf(mask, 32)));
    }

    method DecodeHeader() returns (head: Packet)
      requires decoder.Valid() && decoder.View() == Reader(decoder.bytes, false)
      modifies this, decoder
      ensures decoder.Valid() && (head, count, decoder.View()) == ReadHead(decoder.bytes) &&
              nextMessage == old(nextMessage)
    {
      hide Value, ReadAcks, Reader.Get, Signed64;
      var time := decoder.GetUint(8);
      var diff := decoder.GetUint(8);
      var ack := DecodeAcks();
      count := decoder.GetUint(2);
      var seqNr := 0;
      if count != 0 {
        seqNr := decoder.GetUint(4);
      }
      head := Packet(Signed64(time), Signed64(diff), ack, seqNr, []);
    }

    /** The next fragment; a malformed one leaves the decoder in error. */
    method DecodeMessage() returns (f: Fragment)
      requires decoder.Valid() && nextMessage != count
      modifies this, decoder
      ensures decoder.Valid() && nextMessage == old(nextMessage) + 1 && count == old(count)
      ensures decoder.wasError <==> ReadFragment(old(decoder.View())).Bad?
      ensures !decoder.wasError ==> ReadFragment(old(decoder.View())) == Ok(f, decoder.View())
    {
      hide Value, ReadBody;
      nextMessage := nextMessage + 1;
      var code := decoder.GetUint(1);
      var kind := Sync;
      match KindOf(code) {
        case Ok(k, _) => kind := k;
        case Bad => decoder.SetError();
      }
      f := DecodeBody(kind);
    }

    /** Fragments until they are used up or one is malformed. */
    method DecodeMessages() returns (ok: bool, fs: seq<Fragment>)
      requires decoder.Valid() && !decoder.wasError && nextMessage == 0
      modifies this, decoder
      ensures decoder.Valid() && fs == ReadFragments(old(decoder.View()), old(count)).0
      ensures ok == !ReadFragments(old(decoder.View()), old(count)).1.error
    {
      hide ReadFragment, ReadFragments, RestOfFragments;
      ghost var r := decoder.View();
      fs := [];
      FragmentsBegin(r, count);
      while nextMessage != count
        invariant decoder.Valid() && !decoder.wasError && nextMessage <= count == old(count)
        invariant RestOfFragments(decoder.View(), count - nextMessage, fs, r, count)
        decreases count - nextMessage
      {
        FragmentsStep(decoder.View(), count - nextMessage, fs, r, count);
        var f := DecodeMessage();
        if decoder.wasError {
          return false, fs;
        }
        fs := fs + [f];
      }
      FragmentsEnd(decoder.View(), fs, r, count);
      ok := true;
    }

    method DecodeBody(kind: Kind) returns (f: Fragment)
      requires decoder.Valid()
      modifies decoder
      ensures decoder.Valid() && (f, decoder.View()) == ReadBody(old(decoder.View()), kind)
    {
      hide Value;
      var sn := decoder.GetUint(4);
      var size := decoder.GetUint(2);
      var start := decoder.GetUint(2);
      var chunk := decoder.GetUint(2);
      var payload := decoder.GetRaw(chunk);
      f := Fragment(kind, sn, size, start, payload);
    }
  }

  /** The receive handler's reading of a packet: the header, then the fragments. */
  method DecodePacket(bytes: Bytes) returns (ok: bool, packet: Packet)
    ensures (packet, ok) == ReadPacket(bytes)
  {
    hide ReadHead, ReadFragments;
    var d := new PacketDecoder(bytes);
    packet := d.DecodeHeader();
    if d.decoder.wasError {
      return false, packet;
    }
    var fs;
    ok, fs := d.DecodeMessages();
    packet := packet.(fragments := fs);
  }

  // ----- the round trip

  ghost predicate FragmentSized(f: Fragment) {
    f.sn < 0x1_0000_0000 && f.size < SIZE_LIMIT && f.start < SIZE_LIMIT && |f.payload| < SIZE_LIMIT
  }

  ghost predicate AckSized(a: AckPart) {
    a.AckPart? ==>
      |a.acks| < 0x1_0000 && a.window.highest < 0x1_0000_0000
      && (forall i :: 0 <= i < |a.acks| ==> a.acks[i] < 0x1_0000_0000)
      && (forall b <- a.window.bits :: b < 32)
  }

  /** Every field fits the width it travels in. */
  ghost predicate Sized(p: Packet) {
    && -(WORD64 / 2) <= p.time < WORD64 / 2 && -(WORD64 / 2) <= p.diff < WORD64 / 2
    && AckSized(p.ack) && p.seqNr < 0x1_0000_0000 && |p.fragments| < 0x1_0000
    && forall i :: 0 <= i < |p.fragments| ==> FragmentSized(p.fragments[i])
  }

  /** What the reader can know of the packet. */
  ghost function Received(p: Packet): Packet {
    p.(ack := match p.ack case NoAckPart => NoAckPart case AckPart(acks, window) => AckPart(acks, window.(lowest := 0)),
       seqNr := if p.fragments == [] then 0 else p.seqNr)
  }

  lemma FragmentRoundTrip(f: Fragment, rest: Bytes)
    requires FragmentSized(f)
    ensures ReadFragment(Reader(FragmentBytes(f) + rest, false)) == Ok(f, Reader(rest, false))
  {
    hide BigEndian, Value, Pow256;
    Pow256Eight();
    var t5 := f.payload + rest;
    var t4 := BigEndian(|f.payload|, 2) + t5;
    var t3 := BigEndian(f.start, 2) + t4;
    var t2 := BigEndian(f.size, 2) + t3;
    var t1 := BigEndian(f.sn, 4) + t2;
    assert FragmentBytes(f) + rest == BigEndian(KindCode(f.kind), 1) + t1;
    GetBack(KindCode(f.kind), 1, t1);
    GetBack(f.sn, 4, t2);
    GetBack(f.size, 2, t3);
    GetBack(f.start, 2, t4);
    GetBack(|f.payload|, 2, t5);
    RawBack(f.payload, rest);
  }

  lemma {:induction false} FragmentsRoundTrip(fs: seq<Fragment>, rest: Bytes)
    requires forall i :: 0 <= i < |fs| ==> FragmentSized(fs[i])
    ensures ReadFragments(Reader(FragmentsBytes(fs) + rest, false), |fs|) == (fs, Reader(rest, false))
    decreases |fs|
  {
    hide FragmentBytes, ReadFragment;
    if fs == [] {
      assert FragmentsBytes(fs) + rest == rest;
    } else {
      var tail := FragmentsBytes(fs[1..]) + rest;
      assert FragmentsBytes(fs) + rest == FragmentBytes(fs[0]) + tail;
      FragmentRoundTrip(fs[0], tail);
      FragmentsRoundTrip(fs[1..], rest);
      assert [fs[0]] + fs[1..] == fs;
    }
  }

  lemma {:induction false} NumbersRoundTrip(ns: seq<nat>, rest: Bytes)
    requires forall i :: 0 <= i < |ns| ==> ns[i] < 0x1_0000_0000
    ensures ReadNumbers(Reader(NumbersBytes(ns) + rest, false), |ns|) == (ns, Reader(rest, false))
    decreases |ns|
  {
    hide BigEndian, Value, Pow256;
    if ns == [] {
      assert NumbersBytes(ns) + rest == rest;
    } else {
      var tail := NumbersBytes(ns[1..]) + rest;
      assert NumbersBytes(ns) + rest == BigEndian(ns[0], 4) + tail;
      Pow256Eight();
      GetBack(ns[0], 4, tail);
      NumbersRoundTrip(ns[1..], rest);
      assert [ns[0]] + ns[1..] == ns;
    }
  }

  lemma WindowRoundTrip(a: AckState, rest: Bytes)
    requires a.highest < 0x1_0000_0000 && forall b <- a.bits :: b < 32
    ensures ReadWindow(Reader(WindowBytes(a) + rest, false)) == (a.(lowest := 0), Reader(rest, false))
  {
    hide BigEndian, Value, Pow256, Mask, BitsOf, Pow2;
    Pow256Eight();
    Pow2Word();
    MaskRoundTrip(a.bits, 32);
    var t := BigEndian(Mask(a.bits, 32), 4) + rest;
    assert WindowBytes(a) + rest == BigEndian(a.highest, 4) + t;
    GetBack(a.highest, 4, t);
    GetBack(Mask(a.bits, 32), 4, rest);
    assert (set b <- a.bits | b < 32) == a.bits;
  }

  lemma AckRoundTrip(a: AckPart, rest: Bytes)
    requires AckSized(a)
    ensures ReadAcks(Reader(AckBytes(a) + rest, false)) ==
            (if a.NoAckPart? then a else a.(window := a.window.(lowest := 0)), Reader(rest, false))
  {
    hide BigEndian, Value, Pow256, WindowBytes, ReadWindow, NumbersBytes, ReadNumbers;
    Pow256Eight();
    if a.NoAckPart? {
      GetBack(0, 1, rest);
    } else {
      var t3 := WindowBytes(a.window) + rest;
      var t2 := NumbersBytes(a.acks) + t3;
      var t1 := BigEndian(|a.acks|, 2) + t2;
      assert AckBytes(a) + rest == BigEndian(1, 1) + t1;
      GetBack(1, 1, t1);
      GetBack(|a.acks|, 2, t2);
      NumbersRoundTrip(a.acks, t3);
      WindowRoundTrip(a.window, rest);
    }
  }

  /** Whatever follows the packet in the receive buffer, reading an encoded packet gives back its times,
      acknowledgements, window, sequence number and fragments. */
  lemma PacketRoundTrip(bytes: Bytes, p: Packet, trailing: Bytes)
    requires Encodes(bytes, p) && Sized(p)
    ensures ReadPacket(bytes + trailing) == (Received(p), true)
  {
    hide BigEndian, Value, Pow256, AckBytes, ReadAcks, FragmentsBytes, ReadFragments, Unsigned64, Signed64;
    Pow256Eight();
    var count := |p.fragments|;
    var tail := (bytes + trailing)[|HeadBytes(p)|..];
    assert bytes + trailing == HeadBytes(p) + tail;
    var t3 := BigEndian(count, 2) + tail;
    var t2 := AckBytes(p.ack) + t3;
    var t1 := BigEndian(Unsigned64(p.diff), 8) + t2;
    assert bytes + trailing == BigEndian(Unsigned64(p.time), 8) + t1;
    Unsigned64Bound(p.time);
    Unsigned64Bound(p.diff);
    GetBack(Unsigned64(p.time), 8, t1);
    GetBack(Unsigned64(p.diff), 8, t2);
    AckRoundTrip(p.ack, t3);
    GetBack(count, 2, tail);
    Signed64RoundTrip(p.time);
    Signed64RoundTrip(p.diff);
    if p.fragments == [] {
      NoFragments(Reader(tail, false));
    } else {
      var t := FragmentsBytes(p.fragments) + trailing;
      assert tail == BigEndian(p.seqNr, 4) + t;
      GetBack(p.seqNr, 4, t);
      FragmentsRoundTrip(p.fragments, trailing);
    }
  }

  lemma Unsigned64Bound(x: int)
    ensures Unsigned64(x) < WORD64
  {
  }

  lemma NoFragments(r: Reader)
    ensures ReadFragments(r, 0) == ([], r)
  {
  }

  // ----- packets that do not fit the receive buffer

  /** What the receive buffer holds after a packet has arrived: the packet, cut off where the buffer ends, and behind
      it whatever was there before. */
  function InBuffer(bytes: Bytes, before: Bytes): (b: Bytes)
    ensures |b| == |before|
  {
    if |bytes| <= |before| then bytes + before[|bytes|..] else bytes[..|before|]
  }

  lemma {:induction false} NumbersNeed(r: Reader, count: nat)
    ensures var r' := ReadNumbers(r, count).1;
            && (r'.error <==> r.error || |r.rest| < 4 * count)
            && (!r'.error ==> |r'.rest| == |r.rest| - 4 * count)
    decreases count
  {
    hide Value;
    if count > 0 {
      NumbersNeed(r.Get(4).1, count - 1);
    }
  }

  /** Acknowledgements that were cut off are not read. */
  lemma AcksCut(a: AckPart, b: Bytes)
    requires AckSized(a) && b < AckBytes(a)
    ensures ReadAcks(Reader(b, false)).1.error
  {
    hide BigEndian, Value, Pow256, NumbersBytes, ReadNumbers, WindowBytes;
    Pow256Eight();
    if a.AckPart? && |b| >= 1 {
      var t1 := b[1..];
      assert b == BigEndian(1, 1) + t1;
      GetBack(1, 1, t1);
      var count := Reader(t1, false).Get(2).0;
      NumbersNeed(Reader(t1, false).Get(2).1, count);
      if |t1| >= 2 {
        var t2 := t1[2..];
        assert AckBytes(a)[1..3] == BigEndian(|a.acks|, 2);
        assert t1[..2] == b[1..3] == AckBytes(a)[..|b|][1..3];
        assert t1 == BigEndian(|a.acks|, 2) + t2;
        GetBack(|a.acks|, 2, t2);
      }
    }
  }

  /** A packet that was cut off before its fragments is refused. */
  lemma CutHeadIsRefused(p: Packet, b: Bytes)
    requires AckSized(p.ack) && b < HeadBytes(p)
    ensures !ReadPacket(b).1
  {
    hide BigEndian, Value, Pow256, AckBytes, ReadAcks, Unsigned64, Signed64, ReadFragments;
    var r2 := Reader(b, false).Get(8).1.Get(8).1;
    var acks := AckBytes(p.ack);
    if |b| < 16 {
      AcksOfError(r2);
    } else {
      var t := b[16..];
      assert r2 == Reader(t, false) by { assert b[8..][8..] == t; }
      assert HeadBytes(p)[16..] == acks + BigEndian(|p.fragments|, 2);
      assert t == HeadBytes(p)[..|b|][16..] == (acks + BigEndian(|p.fragments|, 2))[..|b| - 16];
      if |t| < |acks| {
        assert t == acks[..|t|];
        AcksCut(p.ack, t);
      } else {
        assert t == acks + t[|acks|..];
        AckRoundTrip(p.ack, t[|acks|..]);
      }
    }
  }

  lemma AcksOfError(r: Reader)
    requires r.error
    ensures ReadAcks(r).1.error
  {
  }
}
