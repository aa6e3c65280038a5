/** The sender's queue of messages (include/club/transport/transmit_queue.h). Times are integers, and a sending
    pass is given the current time and the time after which a message counts as recently sent. */
module TransmitQueues {
  import opened Basics
  import opened AckSets
  import opened PartInfos
  import opened Fragments
  import opened CyclicQueues

  datatype SendTime = Never | At(time: int)

  datatype Entry = Entry(lastSent: SendTime, message: Outgoing)

  /** What is fixed about a queued message. */
  datatype Identity = Identity(reliable: bool, kind: Kind, sn: nat, data: Payload)

  function IdentityOf(e: Entry): Identity {
    Identity(e.message.reliable, e.message.kind, e.message.sn, e.message.data)
  }

  ghost predicate AllValid(es: seq<Entry>) {
    forall i :: 0 <= i < |es| ==> es[i].message.Valid()
  }

  /** The sum of the payload sizes. */
  function TotalBytes(es: seq<Entry>): nat {
    if es == [] then 0 else TotalBytes(es[..|es| - 1]) + |es[|es| - 1].message.data|
  }

  lemma {:induction false} TotalBytesSplit(a: seq<Entry>, b: seq<Entry>)
    ensures TotalBytes(a + b) == TotalBytes(a) + TotalBytes(b)
    decreases |b|
  {
    if b == [] {
      assert a + b == a;
    } else {
      var n := |b| - 1;
      assert (a + b)[..|a + b| - 1] == a + b[..n];
      TotalBytesSplit(a, b[..n]);
    }
  }

  /** What one pass is given. */
  datatype Occasion = Occasion(acked: AckState, now: int, threshold: int)

  datatype Verdict = Acked | Recent | NoRoom | Send

  function Judge(e: Entry, room: nat, o: Occasion): (v: Verdict)
    ensures v.Send? ==> room >= HEADER_SIZE
  {
    if e.message.reliable && IsIn(o.acked, e.message.sn) then Acked
    else if e.lastSent.At? && e.lastSent.time > o.threshold then Recent
    else if HEADER_SIZE + Min(1, |e.message.data|) > room then NoRoom
    else Send
  }

  /** The entry after a fragment of it went out. */
  function SentOnce(e: Entry, room: nat, now: int): (r: Entry)
    requires e.message.Valid() && room >= HEADER_SIZE
    ensures IdentityOf(r) == IdentityOf(e) && r.message.Valid()
  {
    var m := e.message.After(room);
    Entry(if m.FullySent() then At(now) else e.lastSent, m)
  }

  function RoomAfter(e: Entry, room: nat): nat
    requires e.message.Valid() && room >= HEADER_SIZE
  {
    room - HEADER_SIZE - e.message.Chunk(room)
  }

  datatype Outcome = Outcome(queue: seq<Entry>, fragments: seq<Fragment>, room: nat)

  /** One sending pass over the entries `todo`, when those in `kept` have been passed. */
  function PassOver(todo: seq<Entry>, kept: seq<Entry>, fragments: seq<Fragment>, room: nat, o: Occasion): Outcome
    requires AllValid(todo)
    decreases |todo|
  {
    if todo == [] then Outcome(kept, fragments, room)
    else
      var e, rest := todo[0], todo[1..];
      match Judge(e, room, o)
      case Acked => PassOver(rest, kept, fragments, room, o)
      case Recent => PassOver(rest, kept + [e], fragments, room, o)
      case NoRoom => Outcome(todo + kept, fragments, room)
      case Send =>
        var e', fs, r := SentOnce(e, room, o.now), fragments + [e.message.Next(room)], RoomAfter(e, room);
        if !e'.message.FullySent() then Outcome([e'] + rest + kept, fs, r)
        else if e'.message.reliable then PassOver(rest, kept + [e'], fs, r, o)
        else PassOver(rest, kept, fs, r, o)
  }

  function SendPass(queue: seq<Entry>, room: nat, o: Occasion): Outcome
    requires AllValid(queue)
  {
    PassOver(queue, [], [], room, o)
  }

  /** What the pass makes of the first entry. */
  lemma PassStep(todo: seq<Entry>, kept: seq<Entry>, fs: seq<Fragment>, room: nat, o: Occasion)
    requires AllValid(todo) && todo != []
    ensures var out := PassOver(todo, kept, fs, room, o);
            var e, rest := todo[0], todo[1..];
            match Judge(e, room, o)
            case Acked => out == PassOver(rest, kept, fs, room, o)
            case Recent => out == PassOver(rest, kept + [e], fs, room, o)
            case NoRoom => out == Outcome(todo + kept, fs, room)
            case Send =>
              var e', fs', r := SentOnce(e, room, o.now), fs + [e.message.Next(room)], RoomAfter(e, room);
              out == if !e'.message.FullySent() then Outcome([e'] + rest + kept, fs', r)
                     else PassOver(rest, if e'.message.reliable then kept + [e'] else kept, fs', r, o)
  {
  }

  lemma PassEnd(kept: seq<Entry>, fs: seq<Fragment>, room: nat, o: Occasion)
    ensures PassOver([], kept, fs, room, o) == Outcome(kept, fs, room)
  {
  }

  class TransmitQueue {
    var bytesIn: nat
    const queue: CyclicQueue<Entry>

    /** The byte count is always the sum of the queued payload sizes. */
    ghost predicate Valid()
      reads this, queue
    {
      AllValid(queue.messages) && bytesIn == TotalBytes(queue.messages)
    }

    constructor ()
      ensures Valid() && queue.messages == [] && fresh(queue)
    {
      bytesIn := 0;
      queue := new CyclicQueue();
    }

    method Insert(m: Outgoing)
      requires Valid() && m.Valid()
      modifies this, queue
      ensures Valid() && queue.messages == old(queue.messages) + [Entry(Never, m)]
    {
      bytesIn := bytesIn + |m.data|;
      queue.Insert(Entry(Never, m));
    }

    /** Entries that are acknowledged, and unreliable ones that were sent to their end, leave the queue. */
    method EncodePayload(room0: nat, o: Occasion) returns (fragments: seq<Fragment>, room: nat)
      requires Valid()
      modifies this, queue
      ensures Valid()
      ensures Outcome(queue.messages, fragments, room) == SendPass(old(queue.messages), room0, o)
    {
      hide IsIn, PassOver, TotalBytes, Judge, SentOnce, RoomAfter;
      fragments, room := [], room0;
      var cycle := new Cycle(queue);
      assert TotalBytes(cycle.kept) == 0 by { NothingQueued(); }
      var done := cycle.AtEnd();
      while !done
        invariant cycle.queue == queue && cycle.Valid() && fresh(cycle) && done == (cycle.todo == [])
        invariant AllValid(cycle.todo) && AllValid(cycle.kept)
        invariant bytesIn == TotalBytes(cycle.todo) + TotalBytes(cycle.kept)
        invariant PassOver(cycle.todo, cycle.kept, fragments, room, o) == SendPass(old(queue.messages), room0, o)
        decreases |cycle.todo|
      {
        var e := cycle.Get();
        ghost var rest, kept := cycle.todo[1..], cycle.kept;
        PassStep(cycle.todo, kept, fragments, room, o);
        BytesOfFirst(cycle.todo);
        var verdict := Judge(e, room, o);
        if verdict.Acked? {
          bytesIn := bytesIn - |e.message.data|;
          cycle.Erase();
        } else if verdict.Recent? {
          BytesOfLast(kept, e);
          cycle.Advance();
        } else if verdict.NoRoom? {
          TotalBytesSplit(cycle.todo, kept);
          return;
        } else {
          var sent := SentOnce(e, room, o.now);
          fragments, room := fragments + [e.message.Next(room)], RoomAfter(e, room);
          cycle.Set(sent);
          BytesOfFirst(cycle.todo);
          if !sent.message.FullySent() {
            TotalBytesSplit(cycle.todo, kept);
            return;
          }
          if sent.message.reliable {
            BytesOfLast(kept, sent);
            cycle.Advance();
          } else {
            bytesIn := bytesIn - |sent.message.data|;
            cycle.Erase();
          }
        }
        done := cycle.AtEnd();
      }
      PassEnd(cycle.kept, fragments, room, o);
      TotalBytesSplit(cycle.todo, cycle.kept);
      assert cycle.todo + cycle.kept == cycle.kept;
    }
  }

  lemma NothingQueued()
    ensures TotalBytes([]) == 0
  {
  }

  lemma BytesOfFirst(es: seq<Entry>)
    requires es != []
    ensures TotalBytes(es) == |es[0].message.data| + TotalBytes(es[1..])
  {
    assert es == [es[0]] + es[1..];
    TotalBytesSplit([es[0]], es[1..]);
  }

  lemma BytesOfLast(es: seq<Entry>, e: Entry)
    ensures TotalBytes(es + [e]) == TotalBytes(es) + |e.message.data|
  {
    TotalBytesSplit(es, [e]);
  }

  // ----- what a pass means

  ghost predicate Has(es: seq<Entry>, id: Identity) {
    exists e <- es :: IdentityOf(e) == id
  }

  lemma HasSplit(a: seq<Entry>, b: seq<Entry>, id: Identity)
    ensures Has(a + b, id) <==> Has(a, id) || Has(b, id)
  {
    if Has(a, id) {
      var e :| e in a && IdentityOf(e) == id;
      assert e in a + b;
    }
    if Has(b, id) {
      var e :| e in b && IdentityOf(e) == id;
      assert e in a + b;
    }
  }

  lemma HasOne(e: Entry, id: Identity)
    ensures Has([e], id) <==> IdentityOf(e) == id
  {
    assert e in [e];
  }

  lemma HasCons(todo: seq<Entry>, id: Identity)
    requires todo != []
    ensures Has(todo, id) <==> IdentityOf(todo[0]) == id || Has(todo[1..], id)
  {
    assert todo == [todo[0]] + todo[1..];
    HasSplit([todo[0]], todo[1..], id);
    HasOne(todo[0], id);
  }

  /** A reliable message leaves the queue only when it is acknowledged, and nothing appears in it. */
  lemma {:induction false} PassKeepsUnacked(todo: seq<Entry>, kept: seq<Entry>, fs: seq<Fragment>, room: nat,
                                            o: Occasion, id: Identity)
    requires AllValid(todo)
    ensures var out := PassOver(todo, kept, fs, room, o);
            && (Has(out.queue, id) ==> Has(todo, id) || Has(kept, id))
            && (Has(kept, id) ==> Has(out.queue, id))
            && (Has(todo, id) && id.reliable && !IsIn(o.acked, id.sn) ==> Has(out.queue, id))
    decreases |todo|
  {
    hide IsIn, Has;
    if todo != [] {
      var e, rest := todo[0], todo[1..];
      HasCons(todo, id);
      match Judge(e, room, o)
      case Acked =>
        PassKeepsUnacked(rest, kept, fs, room, o, id);
      case Recent =>
        HasSplit(kept, [e], id);
        HasOne(e, id);
        PassKeepsUnacked(rest, kept + [e], fs, room, o, id);
      case NoRoom =>
        HasSplit(todo, kept, id);
      case Send =>
        var e', fs', r := SentOnce(e, room, o.now), fs + [e.message.Next(room)], RoomAfter(e, room);
        HasOne(e', id);
        HasSplit(kept, [e'], id);
        HasSplit([e'], rest, id);
        HasSplit([e'] + rest, kept, id);
        PassKeepsUnacked(rest, kept + [e'], fs', r, o, id);
        PassKeepsUnacked(rest, kept, fs', r, o, id);
    }
    else {
      assert !Has(todo, id) by { HasNothing(id); }
    }
  }

  lemma HasNothing(id: Identity)
    ensures !Has([], id)
  {
  }

  lemma {:induction false} PassKeepsValid(todo: seq<Entry>, kept: seq<Entry>, fs: seq<Fragment>, room: nat, o: Occasion)
    requires AllValid(todo) && AllValid(kept)
    ensures AllValid(PassOver(todo, kept, fs, room, o).queue)
    decreases |todo|
  {
    hide IsIn;
    if todo != [] {
      var e, rest := todo[0], todo[1..];
      match Judge(e, room, o)
      case Acked =>
        PassKeepsValid(rest, kept, fs, room, o);
      case Recent =>
        PassKeepsValid(rest, kept + [e], fs, room, o);
      case NoRoom =>
      case Send =>
        var e', f, r := SentOnce(e, room, o.now), e.message.Next(room), RoomAfter(e, room);
        PassKeepsValid(rest, if e'.message.reliable then kept + [e'] else kept, fs + [f], r, o);
    }
  }

  /** The fragment is cut from the message. */
  ghost predicate CutFrom(f: Fragment, e: Entry) {
    f.kind == e.message.kind && f.sn == e.message.sn && PieceOf(f, e.message.data)
  }

  ghost predicate CutFromSome(f: Fragment, es: seq<Entry>) {
    exists e <- es :: CutFrom(f, e)
  }

  lemma CutFromRest(f: Fragment, es: seq<Entry>)
    requires es != [] && CutFromSome(f, es[1..])
    ensures CutFromSome(f, es)
  {
    var e :| e in es[1..] && CutFrom(f, e);
    assert e in es;
  }

  /** Every fragment that goes out is cut from a queued message that is not acknowledged. */
  lemma {:induction false} PassSendsPieces(todo: seq<Entry>, kept: seq<Entry>, fs: seq<Fragment>, room: nat,
                                           o: Occasion)
    requires AllValid(todo)
    ensures var out := PassOver(todo, kept, fs, room, o);
            && fs <= out.fragments
            && forall i :: |fs| <= i < |out.fragments| ==> CutFromSome(out.fragments[i], todo)
    decreases |todo|
  {
    hide IsIn, CutFromSome;
    if todo != [] {
      var e, rest := todo[0], todo[1..];
      var verdict := Judge(e, room, o);
      var next := if verdict.Send? then SentOnce(e, room, o.now) else e;
      var f := if verdict.Send? then [e.message.Next(room)] else [];
      var r := if verdict.Send? then RoomAfter(e, room) else room;
      var keeps := verdict.Recent? || (verdict.Send? && next.message.reliable);
      if verdict.Send? {
        assert CutFromSome(f[0], todo) by { CutFromFirst(f[0], todo); }
      }
      if !verdict.NoRoom? && (verdict.Send? ==> next.message.FullySent()) {
        var kept' := if keeps then kept + [next] else kept;
        PassSendsPieces(rest, kept', fs + f, r, o);
        var out := PassOver(rest, kept', fs + f, r, o);
        assert fs + [] == fs;
        forall i | |fs + f| <= i < |out.fragments|
          ensures CutFromSome(out.fragments[i], todo)
        {
          CutFromRest(out.fragments[i], todo);
        }
      }
    }
  }

  lemma CutFromFirst(f: Fragment, es: seq<Entry>)
    requires es != [] && CutFrom(f, es[0])
    ensures CutFromSome(f, es)
  {
  }

  /** Neither acknowledged nor recently sent. */
  ghost predicate IsDue(e: Entry, o: Occasion) {
    && !(e.message.reliable && IsIn(o.acked, e.message.sn))
    && (e.lastSent.At? ==> e.lastSent.time <= o.threshold)
  }

  ghost predicate CutFromDue(f: Fragment, es: seq<Entry>, o: Occasion) {
    exists e <- es :: CutFrom(f, e) && IsDue(e, o)
  }

  lemma CutFromDueRest(f: Fragment, es: seq<Entry>, o: Occasion)
    requires es != [] && CutFromDue(f, es[1..], o)
    ensures CutFromDue(f, es, o)
  {
    var e :| e in es[1..] && CutFrom(f, e) && IsDue(e, o);
    assert e in es;
  }

  /** Nothing that is acknowledged or was recently sent goes out. */
  lemma {:induction false} PassSendsDue(todo: seq<Entry>, kept: seq<Entry>, fs: seq<Fragment>, room: nat, o: Occasion)
    requires AllValid(todo)
    ensures var out := PassOver(todo, kept, fs, room, o);
            && fs <= out.fragments
            && forall i :: |fs| <= i < |out.fragments| ==> CutFromDue(out.fragments[i], todo, o)
    decreases |todo|
  {
    hide IsIn, CutFromDue, PassOver;
    if todo == [] {
      PassEnd(kept, fs, room, o);
    } else {
      var e, rest := todo[0], todo[1..];
      PassStep(todo, kept, fs, room, o);
      match Judge(e, room, o)
      case Acked =>
        PassSendsDue(rest, kept, fs, room, o);
        DueRest(PassOver(todo, kept, fs, room, o).fragments, |fs|, todo, o);
      case Recent =>
        PassSendsDue(rest, kept + [e], fs, room, o);
        DueRest(PassOver(todo, kept, fs, room, o).fragments, |fs|, todo, o);
      case NoRoom =>
      case Send =>
        var e', f, r := SentOnce(e, room, o.now), e.message.Next(room), RoomAfter(e, room);
        assert CutFromDue(f, todo, o) by { CutFromDueFirst(f, todo, o); }
        if e'.message.FullySent() {
          var kept' := if e'.message.reliable then kept + [e'] else kept;
          PassSendsDue(rest, kept', fs + [f], r, o);
          DueRest(PassOver(todo, kept, fs, room, o).fragments, |fs + [f]|, todo, o);
        }
    }
  }

  lemma DueRest(fs: seq<Fragment>, n: nat, es: seq<Entry>, o: Occasion)
    requires es != [] && forall i :: n <= i < |fs| ==> CutFromDue(fs[i], es[1..], o)
    ensures forall i :: n <= i < |fs| ==> CutFromDue(fs[i], es, o)
  {
    hide CutFromDue;
    forall i | n <= i < |fs|
      ensures CutFromDue(fs[i], es, o)
    {
      CutFromDueRest(fs[i], es, o);
    }
  }

  lemma CutFromDueFirst(f: Fragment, es: seq<Entry>, o: Occasion)
    requires es != [] && CutFrom(f, es[0]) && IsDue(es[0], o)
    ensures CutFromDue(f, es, o)
  {
  }

  /** The entry e after a pass: as it was, or with more of it sent, and stamped if that was the end. An unreliable one
      does not stay for that. */
  ghost predicate SentOn(e: Entry, e': Entry, now: int) {
    || e' == e
    || (&& IdentityOf(e') == IdentityOf(e) && e'.lastSent == (if e'.message.FullySent() then At(now) else e.lastSent)
        && (e'.message.FullySent() ==> e'.message.reliable))
  }

  ghost predicate FromSome(e': Entry, es: seq<Entry>, now: int) {
    exists e <- es :: SentOn(e, e', now)
  }

  /** What a pass leaves in the queue carries the time at which its end went out, and keeps it until then. */
  lemma {:induction false} PassStamps(todo: seq<Entry>, kept: seq<Entry>, fs: seq<Fragment>, room: nat, o: Occasion)
    requires AllValid(todo)
    ensures forall e' <- PassOver(todo, kept, fs, room, o).queue :: e' in kept || FromSome(e', todo, o.now)
    decreases |todo|
  {
    hide IsIn, PassOver, FromSome;
    if todo == [] {
      PassEnd(kept, fs, room, o);
    } else {
      var e, rest := todo[0], todo[1..];
      PassStep(todo, kept, fs, room, o);
      FromRest(todo, o.now);
      match Judge(e, room, o)
      case Acked =>
        PassStamps(rest, kept, fs, room, o);
      case Recent =>
        assert FromSome(e, todo, o.now) by { FromFirst(todo, e, o.now); }
        PassStamps(rest, kept + [e], fs, room, o);
      case NoRoom =>
        forall e' <- todo
          ensures FromSome(e', todo, o.now)
        {
          FromSelf(todo, e', o.now);
        }
      case Send =>
        var e', f, r := SentOnce(e, room, o.now), e.message.Next(room), RoomAfter(e, room);
        if e'.message.FullySent() ==> e'.message.reliable {
          FromFirst(todo, e', o.now);
        }
        if e'.message.FullySent() {
          PassStamps(rest, if e'.message.reliable then kept + [e'] else kept, fs + [f], r, o);
        } else {
          forall g <- rest
            ensures FromSome(g, todo, o.now)
          {
            FromSelf(todo, g, o.now);
          }
        }
    }
  }

  lemma FromSelf(es: seq<Entry>, e: Entry, now: int)
    requires e in es
    ensures FromSome(e, es, now)
  {
    assert SentOn(e, e, now);
  }

  lemma FromFirst(es: seq<Entry>, e': Entry, now: int)
    requires es != [] && SentOn(es[0], e', now)
    ensures FromSome(e', es, now)
  {
  }

  lemma FromRest(es: seq<Entry>, now: int)
    requires es != []
    ensures forall e' :: FromSome(e', es[1..], now) ==> FromSome(e', es, now)
  {
    forall e' | FromSome(e', es[1..], now)
      ensures FromSome(e', es, now)
    {
      var e :| e in es[1..] && SentOn(e, e', now);
      assert e in es;
    }
  }

  function EncodedSize(fs: seq<Fragment>): nat {
    if fs == [] then 0 else EncodedSize(fs[..|fs| - 1]) + HEADER_SIZE + |fs[|fs| - 1].payload|
  }

  /** The fragments fill the packet exactly as far as they say. */
  lemma {:induction false} PassFillsRoom(todo: seq<Entry>, kept: seq<Entry>, fs: seq<Fragment>, room: nat, o: Occasion)
    requires AllValid(todo)
    ensures var out := PassOver(todo, kept, fs, room, o);
            out.room + EncodedSize(out.fragments) == room + EncodedSize(fs)
    decreases |todo|
  {
    hide IsIn;
    if todo != [] {
      var e, rest := todo[0], todo[1..];
      match Judge(e, room, o)
      case Acked =>
        PassFillsRoom(rest, kept, fs, room, o);
      case Recent =>
        PassFillsRoom(rest, kept + [e], fs, room, o);
      case NoRoom =>
      case Send =>
        var e', f, r := SentOnce(e, room, o.now), e.message.Next(room), RoomAfter(e, room);
        assert (fs + [f])[..|fs + [f]| - 1] == fs;
        if e'.message.FullySent() {
          PassFillsRoom(rest, if e'.message.reliable then kept + [e'] else kept, fs + [f], r, o);
        }
    }
  }

  /** Without room for a header nothing is sent. */
  lemma {:induction false} PassWithoutRoom(todo: seq<Entry>, kept: seq<Entry>, room: nat, o: Occasion)
    requires AllValid(todo) && room < HEADER_SIZE
    ensures PassOver(todo, kept, [], room, o).fragments == []
    decreases |todo|
  {
    hide IsIn;
    if todo != [] {
      match Judge(todo[0], room, o)
      case Acked =>
        PassWithoutRoom(todo[1..], kept, room, o);
      case Recent =>
        PassWithoutRoom(todo[1..], kept + [todo[0]], room, o);
      case _ =>
    }
  }
}
