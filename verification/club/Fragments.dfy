/** Cutting a message into fragments and putting it together again
    (include/club/transport/out_message.h, pending_message.h, in_message_part.h). */
module Fragments {
  import opened Basics
  import opened PartInfos

  type Byte = x: int | 0 <= x < 256

  type Payload = seq<Byte>

  datatype Kind = Sync | KeepAlive | Unreliable | Reliable | Close

  /** What one fragment's header and payload say; the chunk size is the payload's length. */
  datatype Fragment = Fragment(kind: Kind, sn: nat, size: nat, start: nat, payload: Payload) {
    predicate IsComplete() {
      start == 0 && size == |payload|
    }
  }

  /** All of a message. */
  function Whole(kind: Kind, sn: nat, data: Payload): Fragment {
    Fragment(kind, sn, |data|, 0, data)
  }

  const HEADER_SIZE: nat := 11

  /** Original and fragment sizes travel as uint16_t. */
  const SIZE_LIMIT: nat := 0x1_0000

  // ----- sending

  datatype Outgoing = Outgoing(reliable: bool, kind: Kind, sn: nat, data: Payload, sent: nat) {
    ghost predicate Valid() {
      sent <= |data| < SIZE_LIMIT
    }

    predicate FullySent() {
      sent == |data|
    }

    /** Where the next fragment starts: a message that was sent to its end starts over. */
    function Resume(): nat {
      if FullySent() then 0 else sent
    }

    /** How much payload fits when `room` bytes are left in the packet. */
    function Chunk(room: nat): nat
      requires Valid() && room >= HEADER_SIZE
    {
      Min(|data| - Resume(), room - HEADER_SIZE)
    }

    function Next(room: nat): Fragment
      requires Valid() && room >= HEADER_SIZE
    {
      Fragment(kind, sn, |data|, Resume(), data[Resume()..Resume() + Chunk(room)])
    }

    function After(room: nat): (o: Outgoing)
      requires Valid() && room >= HEADER_SIZE
      ensures o.Valid()
    {
      this.(sent := Resume() + Chunk(room))
    }
  }

  class OutMessage {
    const reliable: bool
    const kind: Kind
    const sn: nat
    const data: Payload
    var sent: nat

    ghost function View(): Outgoing
      reads this
    {
      Outgoing(reliable, kind, sn, data, sent)
    }

    constructor (reliable: bool, kind: Kind, sn: nat, payload: Payload)
      requires |payload| < SIZE_LIMIT
      ensures View() == Outgoing(reliable, kind, sn, payload, 0) && View().Valid()
    {
      this.reliable, this.kind, this.sn, this.data, this.sent := reliable, kind, sn, payload, 0;
    }

    /** Encodes the next fragment into `room` bytes; without room for the header there is only an error. */
    method Encode(room: nat) returns (f: Fragment, ok: bool)
      requires View().Valid()
      modifies this
      ensures View().Valid() && ok == (room >= HEADER_SIZE)
      ensures ok ==> f == old(View()).Next(room) && View() == old(View()).After(room)
      ensures !ok ==> View() == old(View()).(sent := old(View()).Resume())
    {
      if sent == |data| {
        sent := 0;
      }
      ok := room >= HEADER_SIZE;
      if ok {
        var chunk := Min(|data| - sent, room - HEADER_SIZE);
        f := Fragment(kind, sn, |data|, sent, data[sent..sent + chunk]);
        sent := sent + chunk;
      } else {
        f := Fragment(kind, sn, |data|, sent, []);
      }
    }
  }

  /** The fragment is a piece of the data. */
  ghost predicate PieceOf(f: Fragment, data: Payload) {
    && f.size == |data|
    && f.start + |f.payload| <= |data|
    && f.payload == data[f.start..f.start + |f.payload|]
  }

  ghost predicate Spans(f: Fragment, x: nat) {
    f.start <= x < f.start + |f.payload|
  }

  ghost predicate SpannedBy(fs: seq<Fragment>, x: nat) {
    exists f <- fs :: Spans(f, x)
  }

  ghost predicate RoomsOk(rooms: seq<nat>) {
    forall i :: 0 <= i < |rooms| ==> rooms[i] >= HEADER_SIZE
  }

  /** The fragments a message turns into when it is given these rooms one after another, over any number of passes. */
  ghost function Emitted(o: Outgoing, rooms: seq<nat>): seq<Fragment>
    requires o.Valid() && RoomsOk(rooms)
    decreases |rooms|
  {
    if rooms == [] then [] else [o.Next(rooms[0])] + Emitted(o.After(rooms[0]), rooms[1..])
  }

  ghost function Ending(o: Outgoing, rooms: seq<nat>): (e: Outgoing)
    requires o.Valid() && RoomsOk(rooms)
    ensures e.Valid()
    decreases |rooms|
  {
    if rooms == [] then o else Ending(o.After(rooms[0]), rooms[1..])
  }

  lemma {:induction false} EmittedArePieces(o: Outgoing, rooms: seq<nat>)
    requires o.Valid() && RoomsOk(rooms)
    ensures forall f <- Emitted(o, rooms) :: PieceOf(f, o.data) && f.sn == o.sn && f.kind == o.kind
    ensures Ending(o, rooms) == o.(sent := Ending(o, rooms).sent)
    decreases |rooms|
  {
    if rooms != [] {
      EmittedArePieces(o.After(rooms[0]), rooms[1..]);
    }
  }

  /** Sending leaves no hole: everything before the point reached has been emitted. */
  lemma {:induction false} EmittedSpan(o: Outgoing, before: seq<Fragment>, rooms: seq<nat>)
    requires o.Valid() && RoomsOk(rooms)
    requires forall x :: 0 <= x < o.sent ==> SpannedBy(before, x)
    ensures forall x :: 0 <= x < Ending(o, rooms).sent ==> SpannedBy(before + Emitted(o, rooms), x)
    decreases |rooms|
  {
    if rooms == [] {
      assert before + Emitted(o, rooms) == before;
    } else {
      var f := o.Next(rooms[0]);
      var now := before + [f];
      forall x | 0 <= x < o.After(rooms[0]).sent
        ensures SpannedBy(now, x)
      {
        if Spans(f, x) {
          assert f in now;
        } else {
          assert SpannedBy(before, x);
          var g :| g in before && Spans(g, x);
          assert g in now;
        }
      }
      EmittedSpan(o.After(rooms[0]), now, rooms[1..]);
      assert before + Emitted(o, rooms) == now + Emitted(o.After(rooms[0]), rooms[1..]);
    }
  }

  // ----- receiving

  datatype Incoming = Incoming(kind: Kind, sn: nat, data: Payload, parts: Parts) {
    predicate IsComplete() {
      parts != [] && parts[0] == Part(0, |data|)
    }
  }

  /** The data with bytes written at position start. */
  function Overwrite(data: Payload, start: nat, bytes: Payload): (r: Payload)
    requires start + |bytes| <= |data|
    ensures |r| == |data|
  {
    data[..start] + bytes + data[start + |bytes|..]
  }

  lemma OverwriteNext(data: Payload, start: nat, bytes: Payload, i: nat)
    requires start + |bytes| <= |data| && i < |bytes|
    ensures Overwrite(data, start, bytes[..i])[start + i := bytes[i]] == Overwrite(data, start, bytes[..i + 1])
  {
  }

  lemma OverwriteEnds(data: Payload, start: nat, bytes: Payload)
    requires start + |bytes| <= |data|
    ensures Overwrite(data, start, []) == data
    ensures Overwrite(data, start, bytes)[..start + |bytes|] == data[..start] + bytes
  {
  }

  function Updated(p: Incoming, start: nat, bytes: Payload): Incoming
    requires start + |bytes| <= |p.data|
  {
    p.(data := Overwrite(p.data, start, bytes), parts := Join(p.parts, start, start + |bytes|))
  }

  function Zeros(n: nat): (z: Payload)
    ensures |z| == n
  {
    seq(n, _ => 0)
  }

  /** A pending message made from its first fragment. */
  function FromFragment(f: Fragment): Incoming
    requires f.start + |f.payload| <= f.size
  {
    Updated(Incoming(f.kind, f.sn, Zeros(f.size), []), f.start, f.payload)
  }

  class PendingMessage {
    const kind: Kind
    const sn: nat
    const data: array<Byte>
    const partInfo: PartInfo

    ghost predicate Valid()
      reads partInfo
    {
      Separated(partInfo.info)
    }

    ghost function View(): Incoming
      reads data, partInfo
    {
      Incoming(kind, sn, data[..], partInfo.info)
    }

    constructor (f: Fragment)
      requires f.start + |f.payload| <= f.size
      ensures Valid() && fresh(data) && fresh(partInfo)
      ensures View() == FromFragment(f)
    {
      kind, sn := f.kind, f.sn;
      data := new Byte[f.size](_ => 0);
      partInfo := new PartInfo();
      new;
      assert data[..] == Zeros(f.size);
      UpdatePayload(f.start, f.payload);
    }

    /** Copies the bytes into place and records their range. */
    method UpdatePayload(start: nat, bytes: Payload)
      requires Valid() && start + |bytes| <= data.Length
      modifies data, partInfo
      ensures Valid() && View() == Updated(old(View()), start, bytes)
    {
      hide Overwrite, Join, Covers;
      var i := 0;
      OverwriteEnds(data[..], start, bytes);
      assert bytes[..0] == [];
      while i < |bytes|
        invariant i <= |bytes|
        invariant data[..] == Overwrite(old(data[..]), start, bytes[..i])
        invariant partInfo.info == old(partInfo.info)
      {
        OverwriteNext(old(data[..]), start, bytes, i);
        ghost var before := data[..];
        data[start + i] := bytes[i];
        assert data[..] == before[start + i := bytes[i]];
        i := i + 1;
      }
      assert bytes[..i] == bytes;
      partInfo.AddPart(start, start + |bytes|);
    }

    method IsComplete() returns (complete: bool)
      ensures complete == View().IsComplete()
    {
      complete := |partInfo.info| > 0 && partInfo.info[0].begin == 0 && partInfo.info[0].end == data.Length;
    }
  }

  /** What is marked as arrived lies inside and carries the bytes of `data`. */
  ghost predicate Faithful(p: Incoming, data: Payload) {
    && Separated(p.parts) && |p.data| == |data|
    && (forall x: nat :: Covers(p.parts, x) ==> x < |data|)
    && (forall x: nat :: Covers(p.parts, x) && x < |data| ==> p.data[x] == data[x])
  }

  lemma UpdatedFaithful(p: Incoming, f: Fragment, data: Payload)
    requires Faithful(p, data) && PieceOf(f, data)
    ensures Faithful(Updated(p, f.start, f.payload), data)
    ensures forall x: nat :: Covers(Updated(p, f.start, f.payload).parts, x) <==> Covers(p.parts, x) || Spans(f, x)
  {
    JoinCorrect(p.parts, f.start, f.start + |f.payload|);
    var q := Updated(p, f.start, f.payload);
    forall x: nat | Covers(q.parts, x)
      ensures x < |data| && q.data[x] == data[x]
    {
    }
  }

  lemma FromFragmentFaithful(f: Fragment, data: Payload)
    requires PieceOf(f, data)
    ensures Faithful(FromFragment(f), data)
    ensures forall x: nat :: Covers(FromFragment(f).parts, x) <==> Spans(f, x)
  {
    UpdatedFaithful(Incoming(f.kind, f.sn, Zeros(f.size), []), f, data);
  }

  /** A pending message is complete exactly when everything of a non-empty payload has arrived, and then it is
      the payload. */
  lemma CompleteMeansWhole(p: Incoming, data: Payload)
    requires Faithful(p, data)
    ensures p.IsComplete() <==> data != [] && forall x: nat :: x < |data| ==> Covers(p.parts, x)
    ensures p.IsComplete() ==> p.data == data
  {
    if p.IsComplete() {
      forall x: nat | x < |data|
        ensures Covers(p.parts, x)
      {
        assert p.parts[0].begin <= x < p.parts[0].end;
      }
      assert data != [];
    }
    if data != [] && forall x: nat :: x < |data| ==> Covers(p.parts, x) {
      WholeCover(p.parts, |data|);
    }
  }

  lemma WholeCover(parts: Parts, n: nat)
    requires Separated(parts) && n > 0
    requires forall x: nat :: Covers(parts, x) <==> x < n
    ensures parts == [Part(0, n)]
  {
    assert [Part(0, n)][0] == Part(0, n);
    forall x: nat
      ensures Covers([Part(0, n)], x) <==> x < n
    {
    }
    Canonical(parts, [Part(0, n)]);
  }

  ghost predicate Fit(fs: seq<Fragment>, size: nat) {
    forall i :: 0 <= i < |fs| ==> fs[i].size == size && fs[i].start + |fs[i].payload| <= size
  }

  ghost predicate Pieces(fs: seq<Fragment>, data: Payload)
    ensures Pieces(fs, data) ==> Fit(fs, |data|)
  {
    forall i :: 0 <= i < |fs| ==> PieceOf(fs[i], data)
  }

  ghost function Reassembled(fs: seq<Fragment>, size: nat): (p: Incoming)
    requires fs != [] && Fit(fs, size)
    ensures |p.data| == size
    decreases |fs|
  {
    if |fs| == 1 then FromFragment(fs[0])
    else
      var last := fs[|fs| - 1];
      Updated(Reassembled(fs[..|fs| - 1], size), last.start, last.payload)
  }

  lemma {:induction false} ReassembledFaithful(fs: seq<Fragment>, data: Payload)
    requires fs != [] && Pieces(fs, data)
    ensures Faithful(Reassembled(fs, |data|), data)
    ensures forall x: nat :: Covers(Reassembled(fs, |data|).parts, x) <==> SpannedBy(fs, x)
    decreases |fs|
  {
    var last := fs[|fs| - 1];
    assert last in fs;
    if |fs| == 1 {
      FromFragmentFaithful(last, data);
      assert fs == [last];
    } else {
      var init := fs[..|fs| - 1];
      assert fs == init + [last];
      ReassembledFaithful(init, data);
      UpdatedFaithful(Reassembled(init, |data|), last, data);
      assert forall x: nat :: SpannedBy(fs, x) <==> SpannedBy(init, x) || Spans(last, x);
    }
  }

  /** Fragments of one message that arrive in any order, repeated and overlapping in any way, complete it exactly
      when together they span a non-empty payload, and then give the payload back. */
  lemma AnyArrivalReassembles(fs: seq<Fragment>, data: Payload)
    requires fs != [] && Pieces(fs, data)
    ensures var p := Reassembled(fs, |data|);
            && (p.IsComplete() <==> data != [] && forall x: nat :: x < |data| ==> SpannedBy(fs, x))
            && (p.IsComplete() ==> p.data == data)
  {
    ReassembledFaithful(fs, data);
    CompleteMeansWhole(Reassembled(fs, |data|), data);
  }

  /** From sender to receiver: however the message was cut, once it was sent to its end, fragments that include
      all emitted ones give it back, in whatever order they arrive. */
  lemma SentIsReassembled(o: Outgoing, rooms: seq<nat>, arrived: seq<Fragment>)
    requires o.Valid() && o.sent == 0 && o.data != [] && RoomsOk(rooms)
    requires Ending(o, rooms).FullySent()
    requires forall f <- Emitted(o, rooms) :: f in arrived
    requires forall f <- arrived :: f in Emitted(o, rooms)
    ensures arrived != [] && Pieces(arrived, o.data)
    ensures Reassembled(arrived, |o.data|).IsComplete() && Reassembled(arrived, |o.data|).data == o.data
  {
    EmittedArePieces(o, rooms);
    EmittedSpan(o, [], rooms);
    assert [] + Emitted(o, rooms) == Emitted(o, rooms);
    forall x: nat | x < |o.data|
      ensures SpannedBy(arrived, x)
    {
      assert SpannedBy(Emitted(o, rooms), x);
    }
    assert SpannedBy(arrived, 0);
    AnyArrivalReassembles(arrived, o.data);
  }
}
