/** Nothing that was said reliably is ever lost: every run can be continued, by sending and receiving alone, until
    the peer has heard it all. The packets may have as little room as one header and one byte. */
module TransportProgress {
  import opened Basics
  import opened AckSets
  import opened PartInfos
  import opened Fragments
  import opened TransmitQueues
  import opened Sockets
  import opened ReliableTransport

  /** How a side sends: so many bytes for fragments in each packet, and so long before a message is sent again. */
  datatype Pace = Pace(room: nat, delay: nat) {
    /** Each packet has room for a byte of payload, and time passes between them. */
    predicate Moves() {
      room > HEADER_SIZE && delay > 0
    }

    function Packet(now: int): Deed {
      StartSending(room, now, now - delay, false)
    }
  }

  // ----- how far a packet gets

  function Latest(es: seq<Entry>): int {
    if es == [] then 0 else Max(if es[0].lastSent.At? then es[0].lastSent.time else 0, Latest(es[1..]))
  }

  /** No entry was sent after that time. */
  ghost predicate SentBy(es: seq<Entry>, time: int) {
    forall i :: 0 <= i < |es| ==> es[i].lastSent.At? ==> es[i].lastSent.time <= time
  }

  lemma {:induction false} LatestIsLast(es: seq<Entry>)
    ensures SentBy(es, Latest(es))
    decreases |es|
  {
    if es != [] {
      LatestIsLast(es[1..]);
      assert forall i :: 0 < i < |es| ==> es[i] == es[1..][i - 1];
    }
  }

  lemma {:induction false} PassSentBy(todo: seq<Entry>, kept: seq<Entry>, fs: seq<Fragment>, room: nat, o: Occasion)
    requires AllValid(todo) && SentBy(todo, o.now) && SentBy(kept, o.now)
    ensures SentBy(PassOver(todo, kept, fs, room, o).queue, o.now)
    decreases |todo|
  {
    hide IsIn;
    if todo != [] {
      var e, rest := todo[0], todo[1..];
      match Judge(e, room, o)
      case Acked =>
        PassSentBy(rest, kept, fs, room, o);
      case Recent =>
        PassSentBy(rest, kept + [e], fs, room, o);
      case NoRoom =>
      case Send =>
        var e', f, r := SentOnce(e, room, o.now), e.message.Next(room), RoomAfter(e, room);
        PassSentBy(rest, if e'.message.reliable then kept + [e'] else kept, fs + [f], r, o);
    }
  }

  /** What is left to send of an entry until its end. */
  function Left(e: Entry): nat {
    1 + if e.message.Resume() < |e.message.data| then |e.message.data| - e.message.Resume() else 0
  }

  /** What is left to send until the end of the entry at index i. */
  function Ahead(es: seq<Entry>, i: nat): nat
    requires i < |es|
    decreases i
  {
    Left(es[0]) + if i == 0 then 0 else Ahead(es[1..], i - 1)
  }

  lemma {:induction false} AheadPrefix(a: seq<Entry>, b: seq<Entry>, i: nat)
    requires i < |a|
    ensures Ahead(a + b, i) == Ahead(a, i)
    decreases i
  {
    assert (a + b)[0] == a[0];
    if i > 0 {
      assert (a + b)[1..] == a[1..] + b;
      AheadPrefix(a[1..], b, i - 1);
    }
  }

  function Piece(m: Outgoing, from: nat, to: nat): Fragment
    requires from <= to <= |m.data|
  {
    Fragment(m.kind, m.sn, |m.data|, from, m.data[from..to])
  }

  /** The rest of e went out as one fragment. */
  ghost predicate Ended(e: Entry, e': Entry, fs: seq<Fragment>)
    requires e.message.Valid()
  {
    e'.message.FullySent() && Piece(e.message, e.message.Resume(), |e.message.data|) in fs
  }

  /** No fragment of e went out, or one that did not get to its end. */
  ghost predicate Underway(e: Entry, e': Entry, fs: seq<Fragment>)
    requires e.message.Valid()
  {
    || e' == e
    || (e.message.Resume() < e'.message.sent < |e.message.data| &&
        Piece(e.message, e.message.Resume(), e'.message.sent) in fs)
  }

  /** What was passed stays in the queue. */
  lemma {:induction false} PassedStays(todo: seq<Entry>, kept: seq<Entry>, fs: seq<Fragment>, room: nat, o: Occasion,
                                       k: nat) returns (j: nat)
    requires AllValid(todo) && k < |kept|
    ensures var queue := PassOver(todo, kept, fs, room, o).queue;
            j < |queue| && queue[j] == kept[k]
    decreases |todo|
  {
    hide IsIn, PassOver;
    if todo == [] {
      PassEnd(kept, fs, room, o);
      j := k;
    } else {
      var e, rest := todo[0], todo[1..];
      PassStep(todo, kept, fs, room, o);
      match Judge(e, room, o)
      case Acked =>
        j := PassedStays(rest, kept, fs, room, o, k);
      case Recent =>
        j := PassedStays(rest, kept + [e], fs, room, o, k);
      case NoRoom =>
        j := |todo| + k;
      case Send =>
        var e', f, r := SentOnce(e, room, o.now), e.message.Next(room), RoomAfter(e, room);
        if e'.message.FullySent() {
          j := PassedStays(rest, if e'.message.reliable then kept + [e'] else kept, fs + [f], r, o, k);
        } else {
          j := |todo| + k;
        }
    }
  }

  /** What one fragment makes of an entry. */
  lemma SendsPiece(e: Entry, room: nat, now: int)
    requires e.message.Valid() && room >= HEADER_SIZE + Min(1, |e.message.data|)
    ensures var e', f := SentOnce(e, room, now), e.message.Next(room);
            && (e'.message.FullySent() ==> Ended(e, e', [f]))
            && (!e'.message.FullySent() ==> Underway(e, e', [f]) && Left(e') < Left(e))
  {
  }

  /** A pass gets to the end of the entry at index i or comes closer to it. The entry is then at index j. */
  lemma {:induction false} PassComesCloser(todo: seq<Entry>, kept: seq<Entry>, fs: seq<Fragment>, room: nat,
                                           o: Occasion, i: nat) returns (j: nat)
    requires AllValid(todo) && SentBy(todo, o.threshold) && i < |todo|
    requires todo[i].message.reliable && !IsIn(o.acked, todo[i].message.sn)
    ensures var e, out := todo[i], PassOver(todo, kept, fs, room, o);
            && j < |out.queue| && IdentityOf(out.queue[j]) == IdentityOf(e)
            && (|| Ended(e, out.queue[j], out.fragments)
                || (&& Underway(e, out.queue[j], out.fragments) && Ahead(out.queue, j) <= Ahead(todo, i)
                    && (room > HEADER_SIZE ==> Ahead(out.queue, j) < Ahead(todo, i))))
    decreases |todo|
  {
    hide IsIn, PassOver;
    var e, rest := todo[0], todo[1..];
    PassStep(todo, kept, fs, room, o);
    match Judge(e, room, o)
    case Acked =>
      j := PassComesCloser(rest, kept, fs, room, o, i - 1);
    case NoRoom =>
      AheadPrefix(todo, kept, i);
      j := i;
    case Send =>
      var e', f, r := SentOnce(e, room, o.now), e.message.Next(room), RoomAfter(e, room);
      SendsPiece(e, room, o.now);
      if !e'.message.FullySent() {
        AheadPrefix([e'] + rest, kept, i);
        assert ([e'] + rest)[1..] == rest;
        j := i;
      } else {
        var kept' := if e'.message.reliable then kept + [e'] else kept;
        if i == 0 {
          PassSendsPieces(rest, kept', fs + [f], r, o);
          assert f == (fs + [f])[|fs|];
          j := PassedStays(rest, kept', fs + [f], r, o, |kept|);
        } else {
          j := PassComesCloser(rest, kept', fs + [f], r, o, i - 1);
        }
      }
  }

  // ----- hearing it

  /** A handler is there, and handlers that are called do nothing. */
  ghost predicate Listening(q: Endpoint) {
    q.wantsReliable && q.reactions == []
  }

  lemma {:induction false} HandleAllSplit(p: Endpoint, a: seq<Fragment>, b: seq<Fragment>)
    ensures HandleAll(p, a + b) == HandleAll(HandleAll(p, a), b)
    decreases |b|
  {
    hide Handle, Fitting, FittingUnreliable;
    if b == [] {
      assert a + b == a;
    } else {
      assert (a + b)[..|a + b| - 1] == a + b[..|b| - 1];
      HandleAllSplit(p, a, b[..|b| - 1]);
    }
  }

  lemma QuietReact(p: Endpoint)
    requires p.reactions == []
    ensures React(p) == p
  {
  }

  /** Whatever is handled, something reliable is delivered or the handler stays. */
  lemma HandleListens(q: Endpoint, f: Fragment, p: Endpoint)
    requires Listening(q) && Hearing(p, q) && Few(p) && FragmentFine(p, f)
    requires f.kind.Reliable? ==> Fitting(q, f)
    requires f.kind.Unreliable? ==> FittingUnreliable(q, f)
    ensures Done(q) < Done(Handle(q, f)) || Listening(Handle(q, f))
  {
    hide Hearing, Deliver, ReplayFrom, Added, Admits, FromFragment, Updated, PieceNumbered, React;
    match f.kind
    case Reliable => HandleReliableListens(q, f, p);
    case Unreliable =>
      if q.wantsUnreliable && q.sync.Some? && q.sync.value.unreliable < f.sn {
        QuietReact(q.(wantsUnreliable := false));
      }
    case Sync =>
    case KeepAlive =>
    case Close =>
  }

  lemma HandleReliableListens(q: Endpoint, f: Fragment, p: Endpoint)
    requires Listening(q) && Hearing(p, q) && Few(p) && f.kind.Reliable? && FragmentFine(p, f) && Fitting(q, f)
    ensures Done(q) < Done(HandleReliable(q, f)) || Listening(HandleReliable(q, f))
  {
    hide Hearing, Deliver, ReplayFrom, Added, Admits, FromFragment, Updated, Separated;
    PieceIndex(p.said, f);
    HearingPending(p, q);
    if q.sync.Some? && Admits(q.received, f.sn) {
      if f.sn == Plus32(q.sync.value.reliable, 1) && f.IsComplete() {
        assert f.payload == p.said[f.sn - 1] && f.sn == Done(q) + 1;
        DeliverHearing(q, f.payload, p);
        DeliverChanges(q, f.sn, f.payload);
        ReplayHearing(Deliver(q, f.sn, f.payload), 0, p);
      } else if f.sn in q.pending {
        UpdatedFaithful(q.pending[f.sn], f, p.said[f.sn - 1]);
        var q1 := q.(pending := q.pending[f.sn := Updated(q.pending[f.sn], f.start, f.payload)]);
        PendingHearing(q, q1.pending, p);
        ReplayListens(q1, p);
      }
    }
  }

  /** The next message has arrived in full. */
  ghost predicate NextComplete(q: Endpoint) {
    Done(q) + 1 in q.pending && q.pending[Done(q) + 1].IsComplete()
  }

  lemma ReplayListens(q: Endpoint, p: Endpoint)
    requires Listening(q) && Hearing(p, q) && Few(p) && q.sync.Some?
    ensures Done(q) < Done(ReplayFrom(q, 0)) || (ReplayFrom(q, 0) == q && !NextComplete(q))
  {
    hide Hearing, Deliver, ReplayFrom, Faithful;
    ReplayStep(q, 0);
    HearingPending(p, q);
    var sn := Plus32(q.sync.value.reliable, 1);
    if !(sn !in q.pending || !q.pending[sn].IsComplete()) {
      assert sn == Done(q) + 1;
      CompleteMeansWhole(q.pending[sn], p.said[sn - 1]);
      var q1 := Deliver(q, sn, q.pending[sn].data);
      DeliverHearing(q, q.pending[sn].data, p);
      DeliverChanges(q, sn, q.pending[sn].data);
      HearingPending(p, q1);
      PendingHearing(q1, q1.pending - {sn}, p);
      ReplayHearing(q1.(pending := q1.pending - {sn}), sn + 1, p);
    }
  }

  lemma {:induction false} HandleAllListens(q: Endpoint, fs: seq<Fragment>, p: Endpoint)
    requires Listening(q) && Hearing(p, q) && Few(p) && forall i :: 0 <= i < |fs| ==> FragmentFine(p, fs[i])
    ensures Done(q) < Done(HandleAll(q, fs)) || Listening(HandleAll(q, fs))
    decreases |fs|
  {
    hide Hearing, Handle, Fitting, FittingUnreliable, FragmentFine;
    if fs != [] {
      var q1, f := HandleAll(q, fs[..|fs| - 1]), fs[|fs| - 1];
      HandleAllListens(q, fs[..|fs| - 1], p);
      HandleAllHearing(q, fs[..|fs| - 1], p);
      assert fs == fs[..|fs| - 1] + [f];
      HandleAllSplit(q, fs[..|fs| - 1], [f]);
      HandleAllHearing(q1, [f], p);
      var fits := (f.kind.Reliable? ==> Fitting(q1, f)) && (f.kind.Unreliable? ==> FittingUnreliable(q1, f));
      if Done(q) == Done(q1) && fits {
        HandleListens(q1, f, p);
      }
    }
  }

  // ----- one message for each handler

  /** How many messages will have been heard when no handler is there any more. */
  function Promised(q: Endpoint): nat {
    |q.heard| + if q.wantsReliable then 1 else 0
  }

  /** Handlers that do nothing say nothing and are gone after one message. */
  ghost predicate Passive(q: Endpoint, q': Endpoint) {
    q'.reactions == [] && q'.said == q.said && Promised(q') <= Promised(q)
  }

  lemma ReplayPassive(q: Endpoint)
    requires q.reactions == [] && q.sync.Some?
    ensures Passive(q, ReplayFrom(q, 0))
  {
    hide ReplayFrom, Added, React;
    ReplayStep(q, 0);
    var sn := Plus32(q.sync.value.reliable, 1);
    if sn in q.pending && q.pending[sn].IsComplete() && q.wantsReliable {
      QuietReact(q.(wantsReliable := false));
      var q1 := Deliver(q, sn, q.pending[sn].data);
      ReplayStep(q1.(pending := q1.pending - {sn}), sn + 1);
    }
  }

  lemma ReliablePassive(q: Endpoint, f: Fragment)
    requires q.reactions == [] && Fitting(q, f)
    ensures Passive(q, HandleReliable(q, f))
  {
    hide ReplayFrom, Added, Admits, FromFragment, Updated, React;
    if q.sync.Some? && Admits(q.received, f.sn) {
      if f.sn == Plus32(q.sync.value.reliable, 1) && f.IsComplete() {
        QuietReact(q.(wantsReliable := false));
        ReplayPassive(Deliver(q, f.sn, f.payload));
      } else if f.sn in q.pending {
        ReplayPassive(q.(pending := q.pending[f.sn := Updated(q.pending[f.sn], f.start, f.payload)]));
      }
    }
  }

  lemma HandlePassive(q: Endpoint, f: Fragment)
    requires q.reactions == [] && (f.kind.Reliable? ==> Fitting(q, f))
    requires f.kind.Unreliable? ==> FittingUnreliable(q, f)
    ensures Passive(q, Handle(q, f))
  {
    hide HandleReliable, React, FromFragment, Updated, Added;
    if f.kind.Reliable? {
      ReliablePassive(q, f);
    } else if f.kind.Unreliable? {
      QuietReact(q.(wantsUnreliable := false));
    }
  }

  lemma {:induction false} AllPassive(q: Endpoint, fs: seq<Fragment>)
    requires q.reactions == []
    ensures Passive(q, HandleAll(q, fs))
    decreases |fs|
  {
    hide Handle, Fitting, FittingUnreliable;
    if fs != [] {
      var q1, f := HandleAll(q, fs[..|fs| - 1]), fs[|fs| - 1];
      AllPassive(q, fs[..|fs| - 1]);
      if (f.kind.Reliable? ==> Fitting(q1, f)) && (f.kind.Unreliable? ==> FittingUnreliable(q1, f)) {
        HandlePassive(q1, f);
      }
    }
  }

  // ----- nothing complete is left waiting

  /** The replay goes on until the next message is not complete or no handler is there. */
  lemma {:induction false} ReplayDrains(q: Endpoint, low: nat)
    requires q.sync.Some? && low <= q.sync.value.reliable + 1
    ensures var r := ReplayFrom(q, low);
            r.sync.Some? && (r.wantsReliable && Done(r) + 1 < WORD ==> !NextComplete(r))
    decreases |q.pending|
  {
    hide Deliver, ReplayFrom;
    ReplayStep(q, low);
    var sn := Plus32(q.sync.value.reliable, 1);
    if !(sn < low || sn !in q.pending || !q.pending[sn].IsComplete() || !q.wantsReliable) {
      var q1 := Deliver(q, sn, q.pending[sn].data);
      DeliverChanges(q, sn, q.pending[sn].data);
      Smaller(q1.pending, sn);
      ReplayDrains(q1.(pending := q1.pending - {sn}), sn + 1);
    }
  }

  /** After a fragment is delivered or added to what is there, whatever the handlers did, no complete next message
      waits while a handler is there. */
  lemma HandledDrains(q: Endpoint, f: Fragment)
    requires Fitting(q, f) && q.sync.Some? && Admits(q.received, f.sn)
    requires f.sn in q.pending || (f.sn == Plus32(q.sync.value.reliable, 1) && f.IsComplete() && q.wantsReliable)
    requires f.IsComplete() && f.sn == Plus32(q.sync.value.reliable, 1) ==> q.wantsReliable
    ensures var r := HandleReliable(q, f);
            r.wantsReliable && Done(r) + 1 < WORD ==> !NextComplete(r)
  {
    hide Deliver, ReplayFrom, Updated, Admits;
    if f.sn == Plus32(q.sync.value.reliable, 1) && f.IsComplete() {
      DeliverChanges(q, f.sn, f.payload);
      ReplayDrains(Deliver(q, f.sn, f.payload), 0);
    } else {
      ReplayDrains(q.(pending := q.pending[f.sn := Updated(q.pending[f.sn], f.start, f.payload)]), 0);
    }
  }

  /** The first fragment of a message ahead of its turn, or of one that is not complete, is kept; nothing else
      changes. */
  lemma FirstIsKept(q: Endpoint, f: Fragment, data: Payload)
    requires q.sync.Some? && Admits(q.received, f.sn) && f.sn !in q.pending && PieceOf(f, data)
    requires f.sn != Plus32(q.sync.value.reliable, 1) || !f.IsComplete()
    ensures Fitting(q, f)
    ensures var r := HandleReliable(q, f);
            && r == q.(pending := r.pending) && r.pending.Keys == q.pending.Keys + {f.sn}
            && (forall sn <- q.pending.Keys :: r.pending[sn] == q.pending[sn])
            && Faithful(r.pending[f.sn], data)
            && forall x: nat :: Covers(r.pending[f.sn].parts, x) <==> Spans(f, x)
  {
    hide Admits, FromFragment, Faithful, Covers;
    FromFragmentFaithful(f, data);
  }

  // ----- gathering a message

  ghost predicate IsFor(f: Fragment, n: nat) {
    f.kind.Reliable? && f.sn == n + 1
  }

  /** Byte x of the message after the first n is there. */
  ghost predicate Got(q: Endpoint, n: nat, x: nat) {
    n + 1 in q.pending && Covers(q.pending[n + 1].parts, x)
  }

  /** Some byte of it is still missing. */
  ghost predicate Lacks(q: Endpoint, n: nat, data: Payload) {
    exists x: nat :: x < |data| && !Got(q, n, x)
  }

  /** A piece that is not all of the message leaves something out. */
  lemma PartLacks(f: Fragment, data: Payload) returns (x: nat)
    requires PieceOf(f, data) && !f.IsComplete()
    ensures x < |data| && !Spans(f, x)
  {
    x := if f.start > 0 then 0 else |f.payload|;
  }

  /** A first fragment that is not complete. */
  lemma FirstGathers(q: Endpoint, f: Fragment, p: Endpoint, n: nat)
    requires Hearing(p, q) && Done(q) == n < |p.said| && IsFor(f, n) && PieceOf(f, p.said[n]) && !f.IsComplete()
    ensures var q' := q.(pending := q.pending[f.sn := FromFragment(f)]);
            Lacks(q', n, p.said[n]) && forall x: nat :: Got(q', n, x) <==> Spans(f, x)
  {
    hide Hearing, FromFragment, Covers;
    FromFragmentFaithful(f, p.said[n]);
    var x := PartLacks(f, p.said[n]);
    assert !Got(q.(pending := q.pending[f.sn := FromFragment(f)]), n, x);
  }

  /** One more fragment, without what the replay then does. */
  lemma NextGathers(q: Endpoint, f: Fragment, p: Endpoint, n: nat)
    requires Hearing(p, q) && Done(q) == n < |p.said| && IsFor(f, n) && PieceOf(f, p.said[n]) && !f.IsComplete()
    requires f.sn in q.pending && Fitting(q, f)
    ensures var q' := q.(pending := q.pending[f.sn := Updated(q.pending[f.sn], f.start, f.payload)]);
            && (forall x: nat :: Got(q', n, x) <==> Got(q, n, x) || Spans(f, x))
            && (!NextComplete(q') ==> Lacks(q', n, p.said[n]))
  {
    hide Hearing, Covers, Updated;
    HearingPending(p, q);
    UpdatedFaithful(q.pending[f.sn], f, p.said[n]);
    var m := Updated(q.pending[f.sn], f.start, f.payload);
    CompleteMeansWhole(m, p.said[n]);
    var q' := q.(pending := q.pending[f.sn := m]);
    if !NextComplete(q') {
      var x: nat :| x < |p.said[n]| && !Covers(m.parts, x);
      assert !Got(q', n, x);
    }
  }

  /** Handling a fragment brings the receiver on, or adds the fragment's bytes to those that are there. */
  lemma ReliableGathers(q: Endpoint, f: Fragment, p: Endpoint, n: nat)
    requires Listening(q) && Hearing(p, q) && Few(p) && Done(q) == n < |p.said| && n < LAST_IN_ORDER
    requires f.kind.Reliable? && FragmentFine(p, f) && Fitting(q, f)
    ensures var q' := HandleReliable(q, f);
            || n < Done(q')
            || (&& (forall x: nat :: Got(q', n, x) <==> Got(q, n, x) || (IsFor(f, n) && Spans(f, x)))
                && (IsFor(f, n) ==> Lacks(q', n, p.said[n])))
  {
    hide Hearing, Deliver, ReplayFrom, Added, Admits, FromFragment, Updated, Separated, Lacks, Covers;
    PieceIndex(p.said, f);
    HearingPending(p, q);
    if IsFor(f, n) {
      AdmitsNext(p, q);
      if f.IsComplete() {
        DeliverHearing(q, f.payload, p);
        DeliverChanges(q, f.sn, f.payload);
        ReplayHearing(Deliver(q, f.sn, f.payload), 0, p);
      } else if f.sn !in q.pending {
        FirstGathers(q, f, p, n);
      } else {
        UpdateReplays(q, f, p);
        NextGathers(q, f, p, n);
      }
    } else if Admits(q.received, f.sn) && f.sn in q.pending {
      UpdateReplays(q, f, p);
    }
  }

  lemma AdmitsNext(p: Endpoint, q: Endpoint)
    requires Hearing(p, q) && 0 <= Done(q) < LAST_IN_ORDER
    ensures Admits(q.received, Done(q) + 1)
  {
    hide PendingFine, WindowsFine, Admits;
    InOrderNext(Done(q));
  }

  lemma UpdateReplays(q: Endpoint, f: Fragment, p: Endpoint)
    requires Listening(q) && Hearing(p, q) && Few(p) && q.sync.Some? && f.sn in q.pending && Fitting(q, f)
    requires 1 <= f.sn <= |p.said| && PieceOf(f, p.said[f.sn - 1])
    ensures var q' := q.(pending := q.pending[f.sn := Updated(q.pending[f.sn], f.start, f.payload)]);
            Done(q) < Done(Replay(q')) || (Replay(q') == q' && !NextComplete(q'))
  {
    hide Hearing, ReplayFrom, Updated, Separated, NextComplete;
    HearingPending(p, q);
    UpdatedFaithful(q.pending[f.sn], f, p.said[f.sn - 1]);
    var q' := q.(pending := q.pending[f.sn := Updated(q.pending[f.sn], f.start, f.payload)]);
    PendingHearing(q, q'.pending, p);
    ReplayListens(q', p);
  }

  lemma HandleGathers(q: Endpoint, f: Fragment, p: Endpoint, n: nat)
    requires Listening(q) && Hearing(p, q) && Few(p) && Done(q) == n < |p.said| && n < LAST_IN_ORDER
    requires FragmentFine(p, f) && (f.kind.Reliable? ==> Fitting(q, f))
    requires f.kind.Unreliable? ==> FittingUnreliable(q, f)
    ensures var q' := Handle(q, f);
            || n < Done(q')
            || (&& (forall x: nat :: Got(q', n, x) <==> Got(q, n, x) || (IsFor(f, n) && Spans(f, x)))
                && (IsFor(f, n) ==> Lacks(q', n, p.said[n])))
  {
    hide Hearing, HandleReliable, React, FromFragment, Updated, Covers, Lacks;
    if f.kind.Reliable? {
      ReliableGathers(q, f, p, n);
    } else if f.kind.Unreliable? {
      QuietReact(q.(wantsUnreliable := false));
    }
  }

  ghost predicate SpannedFor(fs: seq<Fragment>, n: nat, x: nat) {
    exists f <- fs :: IsFor(f, n) && Spans(f, x)
  }

  ghost predicate AnyFor(fs: seq<Fragment>, n: nat) {
    exists f <- fs :: IsFor(f, n)
  }

  lemma ForLast(fs: seq<Fragment>, f: Fragment, n: nat)
    ensures AnyFor(fs + [f], n) <==> AnyFor(fs, n) || IsFor(f, n)
    ensures forall x: nat :: SpannedFor(fs + [f], n, x) <==> SpannedFor(fs, n, x) || (IsFor(f, n) && Spans(f, x))
  {
    var all := fs + [f];
    assert forall g :: g in all <==> g in fs || g == f;
  }

  /** Handling fragments brings the receiver on, or adds all their bytes to those that are there. */
  lemma {:induction false} AllGather(q: Endpoint, fs: seq<Fragment>, p: Endpoint, n: nat)
    requires Listening(q) && Hearing(p, q) && Few(p) && Done(q) == n < |p.said| && n < LAST_IN_ORDER
    requires forall i :: 0 <= i < |fs| ==> FragmentFine(p, fs[i])
    ensures var q' := HandleAll(q, fs);
            || n < Done(q')
            || (&& (forall x: nat :: Got(q', n, x) <==> Got(q, n, x) || SpannedFor(fs, n, x))
                && (AnyFor(fs, n) ==> Lacks(q', n, p.said[n])))
    decreases |fs|
  {
    hide Hearing, Handle, HandleReliable, Fitting, FittingUnreliable, FragmentFine, Listening, Got, IsFor, SpannedFor,
      AnyFor, Lacks;
    if fs == [] {
      NoneFor(n);
    } else {
      var init, f := fs[..|fs| - 1], fs[|fs| - 1];
      var q1 := HandleAll(q, init);
      assert fs == init + [f];
      ForLast(init, f, n);
      AllGather(q, init, p, n);
      HandleAllListens(q, init, p);
      HandleAllHearing(q, init, p);
      HandleAllHearing(q, fs, p);
      HandleAllSplit(q, init, [f]);
      HandleAllHearing(q1, [f], p);
      if Done(q1) == n {
        if f.kind.Reliable? {
          HandleReliableHearing(q1, f, p);
        }
        if f.kind.Unreliable? && !FittingUnreliable(q1, f) {
          UnreliableIsForNone(f, n);
        } else {
          HandleGathers(q1, f, p, n);
          if Done(HandleAll(q, fs)) == n && !IsFor(f, n) {
            LacksSame(HandleAll(q, fs), q1, n, p.said[n], f);
          }
        }
      }
    }
  }

  lemma NoneFor(n: nat)
    ensures !AnyFor([], n) && forall x: nat :: !SpannedFor([], n, x)
  {
  }

  lemma UnreliableIsForNone(f: Fragment, n: nat)
    requires f.kind.Unreliable?
    ensures !IsFor(f, n)
  {
  }

  lemma LacksSame(q': Endpoint, q: Endpoint, n: nat, data: Payload, f: Fragment)
    requires (forall x: nat :: Got(q', n, x) <==> Got(q, n, x) || (IsFor(f, n) && Spans(f, x))) && !IsFor(f, n)
    ensures Lacks(q, n, data) ==> Lacks(q', n, data)
  {
    hide Got;
  }

  lemma SplitAt(fs: seq<Fragment>, f: Fragment) returns (a: seq<Fragment>, b: seq<Fragment>)
    requires f in fs
    ensures fs == a + [f] + b
  {
    var i :| 0 <= i < |fs| && fs[i] == f;
    a, b := fs[..i], fs[i + 1..];
  }

  lemma {:induction false} HandleOne(q: Endpoint, f: Fragment)
    requires f.kind.Reliable? ==> Fitting(q, f)
    requires f.kind.Unreliable? ==> FittingUnreliable(q, f)
    ensures HandleAll(q, [f]) == Handle(q, f)
  {
    hide Handle;
    assert [f][..0] == [];
    assert HandleAll(q, []) == q;
  }

  lemma PartsFine(fs: seq<Fragment>, a: seq<Fragment>, f: Fragment, b: seq<Fragment>, p: Endpoint)
    requires fs == a + [f] + b && forall i :: 0 <= i < |fs| ==> FragmentFine(p, fs[i])
    ensures FragmentFine(p, f)
    ensures forall i :: 0 <= i < |a| ==> FragmentFine(p, a[i])
    ensures forall i :: 0 <= i < |b| ==> FragmentFine(p, b[i])
  {
    hide FragmentFine;
    assert fs[|a|] == f;
    assert forall i :: 0 <= i < |a| ==> a[i] == fs[i];
    assert forall i :: 0 <= i < |b| ==> b[i] == fs[|a| + 1 + i];
  }

  lemma SyncIsHeard(q: Endpoint, fs: seq<Fragment>, p: Endpoint)
    requires Hearing(p, q) && Few(p) && Whole(Sync, 0, []) in fs
    requires forall i :: 0 <= i < |fs| ==> FragmentFine(p, fs[i])
    ensures 0 <= Done(HandleAll(q, fs))
  {
    hide Hearing, HandleAll, FragmentFine, Added;
    var f := Whole(Sync, 0, []);
    var a, b := SplitAt(fs, f);
    HandleAllSplit(q, a + [f], b);
    HandleAllSplit(q, a, [f]);
    PartsFine(fs, a, f, b, p);
    var q1 := HandleAll(q, a);
    HandleAllHearing(q, a, p);
    HandleSyncHearing(q1, p);
    HandleOne(q1, f);
    assert 0 <= Done(HandleSync(q1, 0)) by { SyncedNow(q1); }
    HandleAllHearing(HandleAll(q1, [f]), b, p);
  }

  lemma SyncedNow(q: Endpoint)
    ensures 0 <= Done(HandleSync(q, 0))
  {
  }

  // ----- a packet and what it does

  /** What the receiver that has used number n needs next. */
  function Target(said: seq<Payload>, n: int): Identity
    requires -1 <= n < |said|
  {
    if n < 0 then SYNC else Identity(true, Reliable, n + 1, said[n])
  }

  ghost predicate Gathered(q: Endpoint, n: int, low: nat, high: nat) {
    n >= 0 ==> forall x: nat :: low <= x < high ==> Got(q, n, x)
  }

  lemma GatheredFrame(q: Endpoint, q': Endpoint, n: int, low: nat, high: nat)
    requires Gathered(q, n, low, high) && q'.pending == q.pending
    ensures Gathered(q', n, low, high)
  {
    hide Covers;
    if n >= 0 {
      forall x: nat | low <= x < high
        ensures Got(q', n, x)
      {
        assert Got(q, n, x);
      }
    }
  }

  /** It is queued, and not taken as acknowledged. */
  lemma TargetIsQueued(p: Endpoint, q: Endpoint) returns (i: nat)
    requires Direction(p, q) && Few(p) && Done(q) < |p.said|
    ensures i < |p.queue| && IdentityOf(p.queue[i]) == Target(p.said, Done(q))
  {
    hide SendingFine, Hearing, Noting, WindowFine;
    var id := Target(p.said, Done(q));
    if Done(q) >= 0 {
      assert Queued(p, Done(q));
      NumberSmall(Done(q));
    }
    assert Has(p.queue, id);
    var e :| e in p.queue && IdentityOf(e) == id;
    i :| 0 <= i < |p.queue| && p.queue[i] == e;
  }

  lemma TargetIsUnacked(p: Endpoint, q: Endpoint)
    requires Direction(p, q) && Few(p) && Done(q) < |p.said|
    ensures !IsIn(p.peerHas, Target(p.said, Done(q)).sn)
  {
    hide SendingFine, Hearing, Noting, Kept, IsIn, WindowFine;
    var sn := Target(p.said, Done(q)).sn;
    if IsIn(p.peerHas, sn) {
      WindowTruth(q, p.peerHas, sn);
    }
  }

  /** A packet with the rest of what the receiver needs. If it has the beginning, that brings it on. */
  lemma EndArrives(q: Endpoint, fs: seq<Fragment>, p: Endpoint, e: Entry, e': Entry, n: int)
    requires Listening(q) && Hearing(p, q) && Done(q) == n < |p.said| <= LAST_IN_ORDER
    requires forall i :: 0 <= i < |fs| ==> FragmentFine(p, fs[i])
    requires e.message.Valid() && IdentityOf(e) == Target(p.said, n) && Ended(e, e', fs)
    requires Gathered(q, n, 0, e.message.Resume())
    ensures n < Done(HandleAll(q, fs))
  {
    hide Hearing, HandleAll, FragmentFine, Got, Listening;
    var f := Piece(e.message, e.message.Resume(), |e.message.data|);
    if n < 0 {
      SyncIsHeard(q, fs, p);
    } else {
      AllGather(q, fs, p, n);
      assert IsFor(f, n) && AnyFor(fs, n);
      forall x: nat | x < |p.said[n]|
        ensures Got(q, n, x) || SpannedFor(fs, n, x)
      {
        if e.message.Resume() <= x {
          assert IsFor(f, n) && Spans(f, x);
        }
      }
    }
  }

  /** A packet that gets on with it. */
  lemma MoreArrives(q: Endpoint, fs: seq<Fragment>, p: Endpoint, e: Entry, e': Entry, n: int, low: nat)
    requires Listening(q) && Hearing(p, q) && Done(q) == n < |p.said| <= LAST_IN_ORDER
    requires forall i :: 0 <= i < |fs| ==> FragmentFine(p, fs[i])
    requires e.message.Valid() && IdentityOf(e) == Target(p.said, n) == IdentityOf(e') && Underway(e, e', fs)
    requires low <= e.message.Resume() && Gathered(q, n, low, e.message.Resume())
    ensures || n < Done(HandleAll(q, fs))
            || (low <= e'.message.Resume() && Gathered(HandleAll(q, fs), n, low, e'.message.Resume()))
  {
    hide Hearing, HandleAll, FragmentFine, Got, Listening;
    if n >= 0 {
      AllGather(q, fs, p, n);
      if e' != e {
        var f := Piece(e.message, e.message.Resume(), e'.message.sent);
        forall x: nat | low <= x < e'.message.Resume()
          ensures Got(q, n, x) || SpannedFor(fs, n, x)
        {
          if e.message.Resume() <= x {
            assert IsFor(f, n) && Spans(f, x);
          }
        }
      }
    }
  }

  // ----- runs

  /** A packet is sent at that pace or arrives while handlers do nothing, or somebody asks for a message. */
  predicate IsTransport(e: Event, pace: Pace) {
    || e.step == Act(ListenReliable)
    || (e.step.Act? && e.step.deed.StartSending? && e.step.deed == pace.Packet(e.step.deed.now))
    || (e.step.Arrive? && e.step.reactions == [])
  }

  ghost predicate OnlyTransport(events: seq<Event>, pace: Pace) {
    forall e <- events :: IsTransport(e, pace)
  }

  ghost function PassAt(p: Endpoint, pace: Pace, now: int): Outcome
    requires AllValid(p.queue)
  {
    SendPass(p.queue, pace.room, Occasion(p.peerHas, now, now - pace.delay))
  }

  lemma RunQueueValid(events: seq<Event>, s: Side)
    ensures AllValid(End(Run(events), s).queue)
  {
    hide Run, Owed, Hearing, Noting, QueueFine, WireFine;
    RunDirection(events, s);
    QueueIsValid(End(Run(events), s));
  }

  /** One packet is sent and arrives. */
  lemma OnePacket(events: seq<Event>, s: Side, pace: Pace, now: int) returns (more: seq<Event>)
    ensures OnlyTransport(more, pace) && AllValid(End(Run(events), s).queue)
    ensures var p, q, out := End(Run(events), s), End(Run(events), Other(s)), PassAt(End(Run(events), s), pace, now);
            && End(Run(events + more), s) ==
               p.(queue := out.queue, sent := p.sent + {Datagram(None, out.fragments)})
            && End(Run(events + more), Other(s)) == HandleAll(q.(reactions := []), out.fragments)
  {
    hide Run, HandleAll, SendPass;
    RunQueueValid(events, s);
    var p := End(Run(events), s);
    var out := PassAt(p, pace, now);
    var d := Datagram(None, out.fragments);
    var e0, e1 := Event(s, Act(pace.Packet(now))), Event(Other(s), Arrive(d, []));
    RunNext(events, e0);
    RunNext(events + [e0], e1);
    more := [e0, e1];
    assert events + more == events + [e0] + [e1];
    assert Other(Other(s)) == s;
  }

  /** The receiver when the packet arrives, and what is in the packet. */
  lemma PacketIsFine(events: seq<Event>, more: seq<Event>, s: Side, d: Datagram)
    requires Few(End(Run(events), s)) && d in End(Run(events + more), s).sent
    requires End(Run(events + more), s).said == End(Run(events), s).said
    requires End(Run(events + more), s).saidUnreliable == End(Run(events), s).saidUnreliable
    ensures var p, q := End(Run(events), s), End(Run(events), Other(s));
            && Hearing(p, q.(reactions := [])) && Done(q.(reactions := [])) == Done(q)
            && forall i :: 0 <= i < |d.fragments| ==> FragmentFine(p, d.fragments[i])
  {
    hide Run, QueueFine, Owed, Noting, PieceNumbered, Hearing;
    var p, q := End(Run(events), s), End(Run(events), Other(s));
    RunDirection(events, s);
    RunDirection(events + more, s);
    HearingFrame(p, q, q.(reactions := []));
    assert PacketFine(End(Run(events + more), s), d);
  }

  /** The receiver asks for message n and has the bytes from `low` to the point that the sender, whose entry i it
      is, has reached. */
  ghost predicate Aiming(w: World, s: Side, n: int, i: nat, low: nat) {
    var p, q := End(w, s), End(w, Other(s));
    && Done(q) == n < |p.said| <= LAST_IN_ORDER && q.wantsReliable
    && -1 <= n && i < |p.queue| && IdentityOf(p.queue[i]) == Target(p.said, n)
    && low <= p.queue[i].message.Resume() && Gathered(q, n, low, p.queue[i].message.Resume())
  }

  /** The receiver has used a higher number, or it is the same again, from the start of the message. */
  ghost predicate AtEnd(w: World, s: Side, n: int, j: nat, low: nat) {
    n < Done(End(w, Other(s))) || (low > 0 && Aiming(w, s, n, j, 0))
  }

  /** Nothing more is said on either side, and s hears nothing. */
  ghost predicate Undisturbed(w: World, w': World, s: Side) {
    && End(w', s).said == End(w, s).said && End(w', s).heard == End(w, s).heard
    && End(w', Other(s)).said == End(w, Other(s)).said
  }

  /** And its peer hears no more than was promised. */
  ghost predicate Steady(w: World, w': World, s: Side) {
    Undisturbed(w, w', s) && Promised(End(w', Other(s))) <= Promised(End(w, Other(s)))
  }

  lemma PacketComesCloser(events: seq<Event>, s: Side, pace: Pace, now: int, n: int, i: nat, low: nat)
    returns (more: seq<Event>, j: nat)
    requires pace.Moves() && Aiming(Run(events), s, n, i, low)
    requires SentBy(End(Run(events), s).queue, now - pace.delay)
    ensures OnlyTransport(more, pace) && Steady(Run(events), Run(events + more), s)
    ensures SentBy(End(Run(events + more), s).queue, now)
    ensures || AtEnd(Run(events + more), s, n, j, low)
            || (&& Aiming(Run(events + more), s, n, j, low)
                && Ahead(End(Run(events + more), s).queue, j) < Ahead(End(Run(events), s).queue, i))
  {
    hide Run, HandleAll, PassOver, Hearing, FragmentFine, Got, Direction, IsIn, OnlyTransport;
    var p, q := End(Run(events), s), End(Run(events), Other(s));
    RunDirection(events, s);
    more := OnePacket(events, s, pace, now);
    var o := Occasion(p.peerHas, now, now - pace.delay);
    var out := PassAt(p, pace, now);
    PassSentBy(p.queue, [], [], pace.room, o);
    TargetIsUnacked(p, q);
    j := PassComesCloser(p.queue, [], [], pace.room, o, i);
    PacketIsFine(events, more, s, Datagram(None, out.fragments));
    var q0, e, e' := q.(reactions := []), p.queue[i], out.queue[j];
    GatheredFrame(q, q0, n, low, e.message.Resume());
    AllPassive(q0, out.fragments);
    HandleAllListens(q0, out.fragments, p);
    HandleAllHearing(q0, out.fragments, p);
    if Ended(e, e', out.fragments) {
      if low == 0 {
        EndArrives(q0, out.fragments, p, e, e', n);
      }
    } else {
      MoreArrives(q0, out.fragments, p, e, e', n, low);
    }
  }

  /** Packets until the end of the entry is reached. */
  lemma {:induction false} ToTheEnd(events: seq<Event>, s: Side, pace: Pace, now: int, n: int, i: nat, low: nat)
    returns (more: seq<Event>, j: nat, later: int)
    requires pace.Moves() && Aiming(Run(events), s, n, i, low)
    requires SentBy(End(Run(events), s).queue, now - pace.delay)
    ensures OnlyTransport(more, pace) && Steady(Run(events), Run(events + more), s)
    ensures SentBy(End(Run(events + more), s).queue, later - pace.delay)
    ensures AtEnd(Run(events + more), s, n, j, low)
    decreases Ahead(End(Run(events), s).queue, i)
  {
    hide Run, OnlyTransport, Aiming, SentBy;
    var first;
    first, j := PacketComesCloser(events, s, pace, now, n, i, low);
    if AtEnd(Run(events + first), s, n, j, low) {
      more, later := first, now + pace.delay;
    } else {
      var rest;
      AimingIsIn(Run(events + first), s, n, j, low);
      rest, j, later := ToTheEnd(events + first, s, pace, now + pace.delay, n, j, low);
      more := first + rest;
      assert events + more == events + first + rest;
      BothTransport(first, rest, pace);
    }
  }

  lemma AimingIsIn(w: World, s: Side, n: int, i: nat, low: nat)
    requires Aiming(w, s, n, i, low)
    ensures i < |End(w, s).queue|
  {
  }

  /** The peer asks for a message, which it may have in part. */
  lemma Ask(events: seq<Event>, s: Side, pace: Pace) returns (more: seq<Event>, i: nat)
    requires |End(Run(events), s).said| <= LAST_IN_ORDER
    requires Done(End(Run(events), Other(s))) < |End(Run(events), s).said|
    ensures OnlyTransport(more, pace) && End(Run(events + more), s) == End(Run(events), s)
    ensures End(Run(events + more), Other(s)) == End(Run(events), Other(s)).(wantsReliable := true)
    ensures i < |End(Run(events), s).queue|
    ensures Aiming(Run(events + more), s, Done(End(Run(events), Other(s))), i,
                   End(Run(events), s).queue[i].message.Resume())
  {
    hide Run, Direction, Got;
    RunDirection(events, s);
    i := TargetIsQueued(End(Run(events), s), End(Run(events), Other(s)));
    more := [Event(Other(s), Act(ListenReliable))];
    RunNext(events, more[0]);
    assert Other(Other(s)) == s;
  }

  lemma HeardSoFar(events: seq<Event>, s: Side)
    requires Few(End(Run(events), s))
    ensures var p, q := End(Run(events), s), End(Run(events), Other(s));
            Done(q) <= |p.said| && q.heard == p.said[..Max(Done(q), 0)]
  {
    hide Run, SendingFine, Owed, PendingFine, WindowsFine, Noting;
    RunDirection(events, s);
  }

  /** Two times to the end of what the peer needs bring it on: it gets in step with the sender, or hears at least
      one message more, and not two. The first time may begin in the middle. */
  lemma RoundAdvances(events: seq<Event>, s: Side, pace: Pace) returns (more: seq<Event>)
    requires pace.Moves() && |End(Run(events), s).said| <= LAST_IN_ORDER
    requires Done(End(Run(events), Other(s))) < |End(Run(events), s).said|
    ensures OnlyTransport(more, pace) && Undisturbed(Run(events), Run(events + more), s)
    ensures Done(End(Run(events), Other(s))) < Done(End(Run(events + more), Other(s)))
    ensures |End(Run(events + more), Other(s)).heard| <= |End(Run(events), Other(s)).heard| + 1
  {
    hide Run, OnlyTransport, Aiming, SentBy;
    var p, n := End(Run(events), s), Done(End(Run(events), Other(s)));
    var asked, i := Ask(events, s, pace);
    var low := p.queue[i].message.Resume();
    LatestIsLast(p.queue);
    var first, j, now := ToTheEnd(events + asked, s, pace, Latest(p.queue) + pace.delay, n, i, low);
    more := asked + first;
    assert events + more == events + asked + first;
    BothTransport(asked, first, pace);
    if Done(End(Run(events + more), Other(s))) <= n {
      var second, k, later := ToTheEnd(events + more, s, pace, now, n, j, 0);
      assert events + (more + second) == events + more + second;
      BothTransport(more, second, pace);
      more := more + second;
    }
  }

  /** As long as the window can count the messages, every run has a continuation, by sending and receiving alone,
      after which the peer has heard exactly one message more. */
  lemma OneIsHeard(events: seq<Event>, s: Side, pace: Pace) returns (more: seq<Event>)
    requires pace.Moves() && |End(Run(events), s).said| <= LAST_IN_ORDER
    requires |End(Run(events), Other(s)).heard| < |End(Run(events), s).said|
    ensures OnlyTransport(more, pace) && Undisturbed(Run(events), Run(events + more), s)
    ensures |End(Run(events + more), Other(s)).heard| == |End(Run(events), Other(s)).heard| + 1
  {
    hide Run, OnlyTransport;
    HeardSoFar(events, s);
    more := RoundAdvances(events, s, pace);
    HeardSoFar(events + more, s);
    if |End(Run(events + more), Other(s)).heard| <= |End(Run(events), Other(s)).heard| {
      var rest := RoundAdvances(events + more, s, pace);
      HeardSoFar(events + more + rest, s);
      assert events + (more + rest) == events + more + rest;
      BothTransport(more, rest, pace);
      more := more + rest;
    }
  }

  /** Nothing is lost: as long as the window can count the messages, every run has a continuation, by sending and
      receiving alone, after which the peer has heard all that was said, and nothing more was said. However little
      room the packets have, it is enough if it takes a byte. */
  lemma {:induction false} EverythingIsHeard(events: seq<Event>, s: Side, pace: Pace) returns (more: seq<Event>)
    requires pace.Moves() && |End(Run(events), s).said| <= LAST_IN_ORDER
    ensures OnlyTransport(more, pace)
    ensures End(Run(events + more), s).said == End(Run(events), s).said
    ensures End(Run(events + more), Other(s)).heard == End(Run(events), s).said
    decreases |End(Run(events), s).said| - Done(End(Run(events), Other(s)))
  {
    hide Run, OnlyTransport;
    var p, q := End(Run(events), s), End(Run(events), Other(s));
    HeardSoFar(events, s);
    if Done(q) == |p.said| {
      more := [];
      assert events + more == events && OnlyTransport([], pace) by { NoTransport(pace); }
      assert p.said[..|p.said|] == p.said;
    } else {
      var first := RoundAdvances(events, s, pace);
      HeardSoFar(events + first, s);
      var rest := EverythingIsHeard(events + first, s, pace);
      more := first + rest;
      assert events + more == events + first + rest;
      BothTransport(first, rest, pace);
    }
  }

  lemma NoTransport(pace: Pace)
    ensures OnlyTransport([], pace)
  {
  }

  lemma BothTransport(a: seq<Event>, b: seq<Event>, pace: Pace)
    requires OnlyTransport(a, pace) && OnlyTransport(b, pace)
    ensures OnlyTransport(a + b, pace)
  {
  }
}
