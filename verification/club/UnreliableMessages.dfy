/** Unreliable messages that arrive: they are put together and heard, once, as soon as all of their bytes are there
    (include/club/socket.h). */
module UnreliableMessages {
  import opened Basics
  import opened PartInfos
  import opened Fragments
  import opened Sockets
  import opened ReliableTransport
  import opened TransportProgress

  /** A handler is there, and nothing with number n or above was used or begun. */
  ghost predicate Awaits(q: Endpoint, n: nat) {
    && q.wantsUnreliable && q.sync.Some? && q.sync.value.unreliable < n
    && (q.pendingUnreliable.Some? ==> q.pendingUnreliable.value.sn < n)
  }

  ghost predicate PiecesUnder(fs: seq<Fragment>, n: nat, data: Payload) {
    forall i :: 0 <= i < |fs| ==> fs[i].kind.Unreliable? && fs[i].sn == n && PieceOf(fs[i], data)
  }

  /** Together the fragments hold every byte. */
  ghost predicate SpanAll(fs: seq<Fragment>, data: Payload) {
    fs != [] && forall x: nat :: x < |data| ==> SpannedBy(fs, x)
  }

  /** The message is being put together: what is there is what the fragments so far brought. */
  ghost predicate Assembling(q: Endpoint, r: Endpoint, fs: seq<Fragment>, n: nat, data: Payload) {
    && r.wantsUnreliable && r.sync.Some? && r.sync.value.unreliable < n && r.heardUnreliable == q.heardUnreliable
    && (fs == [] ==> r == q)
    && (fs != [] ==>
          && r.pendingUnreliable.Some? && r.pendingUnreliable.value.sn == n
          && Faithful(r.pendingUnreliable.value, data)
          && forall x: nat :: Covers(r.pendingUnreliable.value.parts, x) <==> SpannedBy(fs, x))
  }

  /** The message was heard, and its number is used. */
  ghost predicate HeardOnce(q: Endpoint, r: Endpoint, n: nat, data: Payload) {
    && r.sync.Some? && n <= r.sync.value.unreliable
    && r.heardUnreliable == q.heardUnreliable + [Note(n, data)]
  }

  lemma SpannedByMore(fs: seq<Fragment>, f: Fragment)
    ensures forall x: nat :: SpannedBy(fs + [f], x) <==> SpannedBy(fs, x) || Spans(f, x)
  {
    var all := fs + [f];
    assert forall g :: g in all <==> g in fs || g == f;
  }

  lemma DeliversOnce(q: Endpoint, r: Endpoint, n: nat, data: Payload)
    requires r.sync.Some? && r.heardUnreliable == q.heardUnreliable
    ensures HeardOnce(q, DeliverUnreliable(r, n, data), n, data)
  {
    hide React;
    ReactFrame(r.(wantsUnreliable := false));
  }

  lemma FirstPiece(q: Endpoint, f: Fragment, n: nat, data: Payload)
    requires Awaits(q, n) && f.kind.Unreliable? && f.sn == n && PieceOf(f, data)
    ensures FittingUnreliable(q, f)
    ensures f.IsComplete() ==> HeardOnce(q, HandleUnreliable(q, f), n, data)
    ensures !f.IsComplete() ==> Assembling(q, HandleUnreliable(q, f), [f], n, data) && !SpanAll([f], data)
  {
    hide React, FromFragment, DeliverUnreliable, Faithful, HeardOnce;
    if f.IsComplete() {
      assert f.payload == data;
      DeliversOnce(q, q, n, data);
    } else {
      FromFragmentFaithful(f, data);
      assert FromFragment(f).sn == n by { FromFragmentNumber(f); }
      assert [] + [f] == [f];
      SpannedByMore([], f);
      var x := PartLacks(f, data);
      assert !SpannedBy([f], x);
    }
  }

  lemma FromFragmentNumber(f: Fragment)
    requires f.start + |f.payload| <= f.size
    ensures FromFragment(f).sn == f.sn
  {
  }

  lemma NextPiece(q: Endpoint, r: Endpoint, fs: seq<Fragment>, f: Fragment, n: nat, data: Payload)
    requires fs != [] && Assembling(q, r, fs, n, data) && f.kind.Unreliable? && f.sn == n && PieceOf(f, data)
    ensures FittingUnreliable(r, f)
    ensures if SpanAll(fs + [f], data) then HeardOnce(q, HandleUnreliable(r, f), n, data)
            else Assembling(q, HandleUnreliable(r, f), fs + [f], n, data)
  {
    hide React, Updated, DeliverUnreliable, HeardOnce, Separated, Covers;
    SpannedByMore(fs, f);
    if f.IsComplete() {
      assert f.payload == data;
      DeliversOnce(q, r, n, data);
      assert SpanAll(fs + [f], data);
    } else {
      var p := r.pendingUnreliable.value;
      UpdatedFaithful(p, f, data);
      var m := Updated(p, f.start, f.payload);
      CompleteMeansWhole(m, data);
      assert data != [];
      assert m.IsComplete() <==> SpanAll(fs + [f], data);
      assert m.sn == n by { UpdatedNumber(p, f); }
      if m.IsComplete() {
        DeliversOnce(q, r, n, data);
      }
    }
  }

  lemma UpdatedNumber(p: Incoming, f: Fragment)
    requires f.start + |f.payload| <= |p.data|
    ensures Updated(p, f.start, f.payload).sn == p.sn
  {
  }

  lemma AfterHeard(q: Endpoint, r: Endpoint, f: Fragment, n: nat, data: Payload)
    requires HeardOnce(q, r, n, data) && f.kind.Unreliable? && f.sn == n
    ensures FittingUnreliable(r, f) ==> HandleUnreliable(r, f) == r
  {
  }

  lemma SpanStays(fs: seq<Fragment>, f: Fragment, data: Payload)
    requires SpanAll(fs, data)
    ensures SpanAll(fs + [f], data)
  {
    SpannedByMore(fs, f);
  }

  lemma {:induction false} PiecesGather(q: Endpoint, fs: seq<Fragment>, n: nat, data: Payload)
    requires Awaits(q, n) && PiecesUnder(fs, n, data)
    ensures if SpanAll(fs, data) then HeardOnce(q, HandleAll(q, fs), n, data)
            else Assembling(q, HandleAll(q, fs), fs, n, data)
    decreases |fs|
  {
    hide HandleUnreliable, FittingUnreliable, Assembling, HeardOnce, SpanAll, PieceOf;
    if fs == [] {
      NothingYet(q, n, data);
    } else {
      var init, f := fs[..|fs| - 1], fs[|fs| - 1];
      var r := HandleAll(q, init);
      PiecesGather(q, init, n, data);
      assert fs == init + [f];
      if SpanAll(init, data) {
        SpanStays(init, f, data);
        AfterHeard(q, r, f, n, data);
      } else if init == [] {
        assert r == q;
        FirstPiece(q, f, n, data);
        assert fs == [f];
        CompleteSpans(f, data);
      } else {
        NextPiece(q, r, init, f, n, data);
      }
    }
  }

  lemma NothingYet(q: Endpoint, n: nat, data: Payload)
    requires Awaits(q, n)
    ensures !SpanAll([], data) && Assembling(q, q, [], n, data)
  {
  }

  lemma CompleteSpans(f: Fragment, data: Payload)
    requires PieceOf(f, data)
    ensures f.IsComplete() ==> SpanAll([f], data)
  {
    assert f in [f];
  }

  /** Pieces of one unreliable message, in any order and repeated and overlapping in any way, and whatever the handler
      does: what is heard grows by exactly that message, once, if and only if together they hold all of its bytes. */
  lemma PiecesAreHeard(q: Endpoint, fs: seq<Fragment>, n: nat, data: Payload)
    requires Awaits(q, n) && PiecesUnder(fs, n, data)
    ensures HandleAll(q, fs).heardUnreliable ==
            q.heardUnreliable + if SpanAll(fs, data) then [Note(n, data)] else []
  {
    hide HandleAll, PiecesUnder, SpanAll, SpannedBy;
    PiecesGather(q, fs, n, data);
  }

  /** From sender to receiver: however the message was cut, once it was sent to its end it is heard when fragments
      that include all the emitted ones have arrived, in whatever order. */
  lemma SentIsHeard(q: Endpoint, o: Outgoing, rooms: seq<nat>, arrived: seq<Fragment>)
    requires Awaits(q, o.sn) && o.Valid() && o.kind.Unreliable? && o.sent == 0 && RoomsOk(rooms) && rooms != []
    requires Ending(o, rooms).FullySent()
    requires forall f <- Emitted(o, rooms) :: f in arrived
    requires forall f <- arrived :: f in Emitted(o, rooms)
    ensures HandleAll(q, arrived).heardUnreliable == q.heardUnreliable + [Note(o.sn, o.data)]
  {
    hide HandleAll, Awaits;
    EmittedArePieces(o, rooms);
    EmittedSpan(o, [], rooms);
    assert [] + Emitted(o, rooms) == Emitted(o, rooms);
    assert Emitted(o, rooms)[0] in arrived;
    forall x: nat | x < |o.data|
      ensures SpannedBy(arrived, x)
    {
      assert SpannedBy(Emitted(o, rooms), x);
    }
    forall i | 0 <= i < |arrived|
      ensures arrived[i].kind.Unreliable? && arrived[i].sn == o.sn && PieceOf(arrived[i], o.data)
    {
      assert arrived[i] in arrived;
    }
    PiecesAreHeard(q, arrived, o.sn, o.data);
  }
}
