/** The whole stack: hubs with static membership whose links are connections of two sockets over a network that
    loses, repeats and reorders packets. Every step of the sockets is matched by moves of the hubs, and every move of
    the hubs can be made by packets; so what is broadcast can always still be delivered everywhere. */
module Stack {
  import opened Basics
  import opened AckSets
  import opened Fragments
  import opened Sockets
  import opened ReliableTransport
  import opened TransportProgress
  import opened Links
  import opened MessageIds
  import opened Messages
  import Hubs
  import HubGrowth
  import HubOrder
  import opened Flooding
  import StaticOrder
  import SR = StaticRuns
  import StaticProgress
  import Quiescence

  type Key = (Uuid, Uuid)

  /** The connection that a link is a direction of: its left end is the hub with the smaller id. */
  function KeyOf(l: Key): Key {
    if l.0 < l.1 then l else (l.1, l.0)
  }

  function SideOf(l: Key): Side {
    if l.0 < l.1 then Left else Right
  }

  /** What has happened on each connection. */
  type Connections = map<Key, seq<Event>>

  ghost predicate CarriesLink(s: Flood, l: Key, events: seq<Event>, enc: Message -> Payload) {
    Carries(Run(events), SideOf(l), Queue(s, l.0, l.1), Taken(s, l.0, l.1), enc)
  }

  /** Every link of the network is carried by its connection. */
  ghost predicate Carried(net: Net, s: Flood, conns: Connections, enc: Message -> Payload) {
    forall l <- net.links :: KeyOf(l) in conns && CarriesLink(s, l, conns[KeyOf(l)], enc)
  }

  /** The window can count the messages of each link, and each fits the 16-bit size. */
  ghost predicate Fits(net: Net, s: Flood, enc: Message -> Payload) {
    forall l <- net.links ::
      && |Queue(s, l.0, l.1)| <= LAST_IN_ORDER
      && forall m <- Queue(s, l.0, l.1) :: |enc(m)| < SIZE_LIMIT
  }

  /** A hub hands over a message, or packets are sent and arrive. */
  ghost predicate IsPlain(e: Event, pace: Pace) {
    IsTransport(e, pace) || (e.step.Act? && e.step.deed.SayReliable?)
  }

  ghost predicate ContinuesOne(before: seq<Event>, after: seq<Event>, pace: Pace) {
    before <= after && forall i :: |before| <= i < |after| ==> IsPlain(after[i], pace)
  }

  ghost predicate Continues(conns: Connections, conns': Connections, pace: Pace) {
    conns'.Keys == conns.Keys && forall k <- conns.Keys :: ContinuesOne(conns[k], conns'[k], pace)
  }

  lemma ContinuesOn(a: Connections, b: Connections, c: Connections, pace: Pace)
    requires Continues(a, b, pace) && Continues(b, c, pace)
    ensures Continues(a, c, pace)
  {
    hide IsPlain;
    forall k <- a.Keys
      ensures ContinuesOne(a[k], c[k], pace)
    {
      assert ContinuesOne(a[k], b[k], pace) && ContinuesOne(b[k], c[k], pace);
      forall i | |a[k]| <= i < |c[k]|
        ensures IsPlain(c[k][i], pace)
      {
        if i < |b[k]| {
          assert c[k][i] == b[k][i];
        }
      }
    }
  }

  // ----- taking a message

  /** Both directions of the connection after packets that let v take one message from u. */
  lemma TakenOnLink(s: Flood, u: Uuid, v: Uuid, l: Key, events: seq<Event>, more: seq<Event>, enc: Message -> Payload)
    requires u != v && KeyOf(l) == KeyOf((u, v)) && l.0 != l.1 && CarriesLink(s, l, events, enc)
    requires Undisturbed(Run(events), Run(events + more), SideOf((u, v)))
    requires Carries(Run(events + more), SideOf((u, v)), Queue(s, u, v), Taken(s, u, v) + 1, enc)
    ensures CarriesLink(Advance(s, u, v), l, events + more, enc)
  {
    hide Run, Queue, Encoded;
    assert Queue(Advance(s, u, v), l.0, l.1) == Queue(s, l.0, l.1) by { AdvanceKeepsQueues(s, u, v, l); }
    if l != (u, v) {
      assert l == (v, u) && SideOf(l) == Other(SideOf((u, v))) && Other(SideOf(l)) == SideOf((u, v));
    }
  }

  lemma AdvanceKeepsQueues(s: Flood, u: Uuid, v: Uuid, l: Key)
    ensures Queue(Advance(s, u, v), l.0, l.1) == Queue(s, l.0, l.1)
  {
  }

  lemma TakeOne(net: Net, s: Flood, conns: Connections, u: Uuid, v: Uuid, pace: Pace, enc: Message -> Payload)
    returns (conns': Connections)
    requires WellConnected(net) && Carried(net, s, conns, enc) && CanTake(net, s, u, v)
    requires |Queue(s, u, v)| <= LAST_IN_ORDER && pace.Moves()
    ensures Carried(net, Advance(s, u, v), conns', enc) && Continues(conns, conns', pace)
  {
    hide Run, Queue, Carries, OnlyTransport, IsTransport;
    var k := KeyOf((u, v));
    assert (u, v) in net.links && CarriesLink(s, (u, v), conns[k], enc);
    var more := LinkTakesOne(conns[k], SideOf((u, v)), pace, Queue(s, u, v), Taken(s, u, v), enc);
    conns' := conns[k := conns[k] + more];
    forall l <- net.links
      ensures KeyOf(l) in conns' && CarriesLink(Advance(s, u, v), l, conns'[KeyOf(l)], enc)
    {
      assert (l.0, l.1) == l;
      if KeyOf(l) == k {
        TakenOnLink(s, u, v, l, conns[k], more, enc);
      } else {
        AdvanceKeepsQueues(s, u, v, l);
      }
    }
    assert ContinuesOne(conns[k], conns'[k], pace) by { TransportContinues(conns[k], more, pace); }
  }

  lemma TransportContinues(events: seq<Event>, more: seq<Event>, pace: Pace)
    requires OnlyTransport(more, pace)
    ensures ContinuesOne(events, events + more, pace)
  {
    hide IsTransport;
    forall i | |events| <= i < |events + more|
      ensures IsPlain((events + more)[i], pace)
    {
      assert (events + more)[i] == more[i - |events|];
    }
  }

  // ----- handing messages over

  /** From s to s' only hub v has handed over more messages. */
  ghost predicate OnlySends(s: Flood, s': Flood, v: Uuid) {
    && (forall x, w :: Taken(s', x, w) == Taken(s, x, w))
    && (forall x, w :: x != v ==> Queue(s', x, w) == Queue(s, x, w))
    && (forall w :: Queue(s, v, w) <= Queue(s', v, w))
  }

  ghost function NewOn(s: Flood, s': Flood, v: Uuid, w: Uuid): seq<Message> {
    var n := |Queue(s, v, w)|;
    if n <= |Queue(s', v, w)| then Queue(s', v, w)[n..] else []
  }

  /** What v says on the connection k. */
  ghost function Handed(s: Flood, s': Flood, v: Uuid, k: Key, enc: Message -> Payload): seq<Event> {
    if k.0 == v then Sayings(Left, Encoded(NewOn(s, s', v, k.1), enc))
    else if k.1 == v then Sayings(Right, Encoded(NewOn(s, s', v, k.0), enc))
    else []
  }

  lemma HandedOnLink(net: Net, s: Flood, s': Flood, v: Uuid, l: Key, events: seq<Event>, enc: Message -> Payload)
    requires OnlySends(s, s', v) && l.0 != l.1 && CarriesLink(s, l, events, enc)
    requires v == l.0 ==> forall m <- NewOn(s, s', v, l.1) :: |enc(m)| < SIZE_LIMIT
    requires v == l.1 ==> forall m <- NewOn(s, s', v, l.0) :: |enc(m)| < SIZE_LIMIT
    ensures CarriesLink(s', l, events + Handed(s, s', v, KeyOf(l), enc), enc)
  {
    hide Run, Queue, Taken, Sayings;
    var k := KeyOf(l);
    if l.0 == v {
      var ms := NewOn(s, s', v, l.1);
      assert Queue(s, v, l.1) + ms == Queue(s', v, l.1);
      LinkGrows(events, SideOf(l), Queue(s, v, l.1), Taken(s, v, l.1), enc, ms);
      assert Handed(s, s', v, k, enc) == Sayings(SideOf(l), Encoded(ms, enc));
    } else if l.1 == v {
      var ms := NewOn(s, s', v, l.0);
      assert Handed(s, s', v, k, enc) == Sayings(Other(SideOf(l)), Encoded(ms, enc));
      SaysAll(events, Other(SideOf(l)), Encoded(ms, enc));
      assert Other(Other(SideOf(l))) == SideOf(l);
    } else {
      assert events + Handed(s, s', v, k, enc) == events;
    }
  }

  ghost function HandOver(s: Flood, s': Flood, v: Uuid, conns: Connections, enc: Message -> Payload): Connections {
    map k <- conns.Keys :: conns[k] + Handed(s, s', v, k, enc)
  }

  lemma HandsOver(net: Net, s: Flood, s': Flood, v: Uuid, conns: Connections, enc: Message -> Payload, pace: Pace)
    requires WellConnected(net) && Carried(net, s, conns, enc) && OnlySends(s, s', v) && Fits(net, s', enc)
    ensures Carried(net, s', HandOver(s, s', v, conns, enc), enc)
    ensures Continues(conns, HandOver(s, s', v, conns, enc), pace)
  {
    hide Queue, Taken, CarriesLink, Handed, IsTransport;
    var conns' := HandOver(s, s', v, conns, enc);
    forall l <- net.links
      ensures KeyOf(l) in conns' && CarriesLink(s', l, conns'[KeyOf(l)], enc)
    {
      assert (l.0, l.1) in net.links;
      assert CarriesLink(s, l, conns[KeyOf(l)], enc);
      NewOnesFit(net, s, s', v, l, enc);
      HandedOnLink(net, s, s', v, l, conns[KeyOf(l)], enc);
    }
    forall k <- conns.Keys
      ensures ContinuesOne(conns[k], conns'[k], pace)
    {
      HandedIsPlain(s, s', v, k, enc, pace, conns[k]);
    }
  }

  lemma NewOnesFit(net: Net, s: Flood, s': Flood, v: Uuid, l: Key, enc: Message -> Payload)
    requires WellConnected(net) && l in net.links && Fits(net, s', enc)
    ensures v == l.0 ==> forall m <- NewOn(s, s', v, l.1) :: |enc(m)| < SIZE_LIMIT
    ensures v == l.1 ==> forall m <- NewOn(s, s', v, l.0) :: |enc(m)| < SIZE_LIMIT
  {
    hide Queue;
    assert (l.0, l.1) in net.links && (l.1, l.0) in net.links;
    assert forall m <- Queue(s', l.0, l.1) :: |enc(m)| < SIZE_LIMIT;
    assert forall m <- Queue(s', l.1, l.0) :: |enc(m)| < SIZE_LIMIT;
  }

  lemma HandedIsPlain(s: Flood, s': Flood, v: Uuid, k: Key, enc: Message -> Payload, pace: Pace, events: seq<Event>)
    ensures ContinuesOne(events, events + Handed(s, s', v, k, enc), pace)
  {
    hide Queue, IsTransport;
  }

  // ----- moves of the hubs

  ghost predicate Members(net: Net, sys: SR.System) {
    sys.hubs.Keys == net.members
  }

  lemma NextMembers(net: Net, sys: SR.System, move: SR.Move)
    requires Members(net, sys)
    ensures Members(net, SR.Next(net, sys, move))
  {
    hide Hubs.Do;
  }

  /** A handler of hub v hands messages over, and nobody else does. */
  lemma HandlerSends(s: Flood, v: Uuid, h: Hubs.HubState, step: Hubs.Step, script: seq<seq<Bytes>>)
    requires v in s.flows && s.flows[v] == StaticOrder.Wire(h)
    ensures OnlySends(s, StaticOrder.Upd(s, v, Hubs.Do(h, step, script)), v)
  {
    hide Hubs.Do;
    HubGrowth.DoGrows(h, step, script);
    var h' := Hubs.Do(h, step, script);
    assert HubGrowth.SendsMore(h, h');
  }

  /** The flood between taking a message and handling it. */
  ghost function Halfway(net: Net, sys: SR.System, move: SR.Move): Flood {
    var s := SR.Project(sys);
    if move.act.Deliver? && CanTake(net, s, move.act.u, move.act.v) then Advance(s, move.act.u, move.act.v) else s
  }

  ghost function MoverOf(move: SR.Move): Uuid {
    match move.act
    case Utter(v, _) => v
    case Check(v) => v
    case Deliver(_, v) => v
  }

  /** The handler that runs. */
  ghost function HandlerOf(net: Net, sys: SR.System, move: SR.Move): Hubs.Step {
    match move.act
    case Utter(_, data) => Hubs.Speak(data)
    case Check(_) => Hubs.Poll
    case Deliver(u, v) =>
      if CanTake(net, SR.Project(sys), u, v) then Hubs.Hear(Front(SR.Project(sys), u, v)) else Hubs.Poll
  }

  lemma MoveIsUpdate(net: Net, sys: SR.System, move: SR.Move)
    requires SR.Mover(net, sys, move).Some?
    ensures var v := MoverOf(move);
            && v in sys.hubs
            && SR.Project(SR.Next(net, sys, move)) ==
               StaticOrder.Upd(Halfway(net, sys, move), v,
                               Hubs.Do(sys.hubs[v], HandlerOf(net, sys, move), move.script))
  {
    hide Hubs.Do;
    SR.TakerIsHub(net, sys, move);
    var v := MoverOf(move);
    SR.ProjectPut(sys, v, Hubs.Do(sys.hubs[v], HandlerOf(net, sys, move), move.script));
  }

  lemma MoveSends(net: Net, sys: SR.System, move: SR.Move)
    ensures OnlySends(Halfway(net, sys, move), SR.Project(SR.Next(net, sys, move)), MoverOf(move))
  {
    hide Hubs.Do, OnlySends;
    var s, v := Halfway(net, sys, move), MoverOf(move);
    if SR.Mover(net, sys, move).None? {
      SameSends(s, v);
    } else {
      MoveIsUpdate(net, sys, move);
      HandlerSends(s, v, sys.hubs[v], HandlerOf(net, sys, move), move.script);
    }
  }

  lemma SameSends(s: Flood, v: Uuid)
    ensures OnlySends(s, s, v)
  {
  }

  /** Queues only grow, so what fits later fits now. */
  lemma FitsBefore(net: Net, sys: SR.System, move: SR.Move, enc: Message -> Payload)
    requires Fits(net, SR.Project(SR.Next(net, sys, move)), enc)
    ensures Fits(net, SR.Project(sys), enc)
  {
    hide Queue, SR.Next, Taken;
    MoveSends(net, sys, move);
    var s, s' := SR.Project(sys), SR.Project(SR.Next(net, sys, move));
    forall l <- net.links
      ensures Queue(s, l.0, l.1) <= Queue(s', l.0, l.1)
    {
      HalfwayQueues(net, sys, move, l);
      if l.0 != MoverOf(move) {
        assert Queue(s', l.0, l.1) == Queue(Halfway(net, sys, move), l.0, l.1);
      }
    }
  }

  lemma HalfwayQueues(net: Net, sys: SR.System, move: SR.Move, l: Key)
    ensures Queue(Halfway(net, sys, move), l.0, l.1) == Queue(SR.Project(sys), l.0, l.1)
  {
    hide Queue;
    if move.act.Deliver? {
      AdvanceKeepsQueues(SR.Project(sys), move.act.u, move.act.v, l);
    }
  }

  /** Whatever a hub does next, the sockets can do it: the message it takes is heard, and what it sends is said. */
  lemma CarryMove(net: Net, sys: SR.System, move: SR.Move, conns: Connections, pace: Pace, enc: Message -> Payload)
    returns (conns': Connections)
    requires WellConnected(net) && Carried(net, SR.Project(sys), conns, enc) && pace.Moves()
    requires Fits(net, SR.Project(SR.Next(net, sys, move)), enc)
    ensures Carried(net, SR.Project(SR.Next(net, sys, move)), conns', enc) && Continues(conns, conns', pace)
  {
    hide SR.Next, Carried, Continues, OnlySends, Queue;
    FitsBefore(net, sys, move, enc);
    MoveSends(net, sys, move);
    var s, half, s' := SR.Project(sys), Halfway(net, sys, move), SR.Project(SR.Next(net, sys, move));
    if move.act.Deliver? && CanTake(net, s, move.act.u, move.act.v) {
      var mid := TakeOne(net, s, conns, move.act.u, move.act.v, pace, enc);
      HandsOver(net, half, s', MoverOf(move), mid, enc, pace);
      conns' := HandOver(half, s', MoverOf(move), mid, enc);
      ContinuesOn(conns, mid, conns', pace);
    } else {
      HandsOver(net, half, s', MoverOf(move), conns, enc, pace);
      conns' := HandOver(half, s', MoverOf(move), conns, enc);
    }
  }

  lemma {:induction false} CarryOn(net: Net, start: SR.System, moves: seq<SR.Move>, more: seq<SR.Move>,
                                   conns: Connections, pace: Pace, enc: Message -> Payload)
    returns (conns': Connections)
    requires WellConnected(net) && pace.Moves()
    requires Carried(net, SR.Project(SR.RunFrom(net, start, moves)), conns, enc)
    requires Fits(net, SR.Project(SR.RunFrom(net, start, moves + more)), enc)
    ensures Carried(net, SR.Project(SR.RunFrom(net, start, moves + more)), conns', enc)
    ensures Continues(conns, conns', pace)
    decreases |more|
  {
    hide SR.RunFrom, SR.Next, Carried, Continues, Fits, SR.Project;
    if more == [] {
      assert moves + more == moves;
      conns' := conns;
      assert Continues(conns, conns, pace) by { ContinuesNot(conns, pace); }
    } else {
      var init, move := more[..|more| - 1], more[|more| - 1];
      assert moves + more == moves + init + [move];
      StaticProgress.RunAppend(net, start, moves + init, move);
      FitsBefore(net, SR.RunFrom(net, start, moves + init), move, enc);
      var mid := CarryOn(net, start, moves, init, conns, pace, enc);
      conns' := CarryMove(net, SR.RunFrom(net, start, moves + init), move, mid, pace, enc);
      ContinuesOn(conns, mid, conns', pace);
    }
  }

  lemma ContinuesNot(conns: Connections, pace: Pace)
    ensures Continues(conns, conns, pace)
  {
  }

  // ----- steps of the sockets

  /** Hub v handles the next n messages from u. */
  ghost function Takes(u: Uuid, v: Uuid, n: nat, scripts: nat -> seq<seq<Bytes>>): seq<SR.Move> {
    seq(n, i requires 0 <= i < n => SR.Move(SR.Deliver(u, v), scripts(i)))
  }

  /** The flood with n more messages taken from u by v. */
  function Jump(s: Flood, u: Uuid, v: Uuid, n: nat): Flood {
    s.(taken := s.taken[(u, v) := Taken(s, u, v) + n])
  }

  lemma {:induction false} TakesSends(net: Net, sys: SR.System, u: Uuid, v: Uuid, n: nat,
                                      scripts: nat -> seq<seq<Bytes>>)
    requires Members(net, sys) && u in net.members && v in net.members && (u, v) in net.links && u != v
    requires Taken(SR.Project(sys), u, v) + n <= |Queue(SR.Project(sys), u, v)|
    ensures var sys' := SR.RunFrom(net, sys, Takes(u, v, n, scripts));
            Members(net, sys') && OnlySends(Jump(SR.Project(sys), u, v, n), SR.Project(sys'), v)
    decreases n
  {
    hide SR.Next, Queue, Taken, OnlySends, Jump, SR.RunFrom;
    if n == 0 {
      assert SR.RunFrom(net, sys, Takes(u, v, n, scripts)) == sys by { NoRun(net, sys); }
      JumpNowhere(SR.Project(sys), u, v);
    } else {
      TakesSends(net, sys, u, v, n - 1, scripts);
      var move := SR.Move(SR.Deliver(u, v), scripts(n - 1));
      var mid := SR.RunFrom(net, sys, Takes(u, v, n - 1, scripts));
      assert Takes(u, v, n, scripts) == Takes(u, v, n - 1, scripts) + [move];
      StaticProgress.RunAppend(net, sys, Takes(u, v, n - 1, scripts), move);
      NextMembers(net, mid, move);
      MoveSends(net, mid, move);
      JumpsOn(net, SR.Project(sys), SR.Project(mid), SR.Project(SR.Next(net, mid, move)), u, v, n);
    }
  }

  lemma NoRun(net: Net, sys: SR.System)
    ensures SR.RunFrom(net, sys, []) == sys
  {
  }

  lemma JumpNowhere(s: Flood, u: Uuid, v: Uuid)
    ensures OnlySends(Jump(s, u, v, 0), s, v)
  {
  }

  lemma JumpsOn(net: Net, s: Flood, mid: Flood, s': Flood, u: Uuid, v: Uuid, n: nat)
    requires n > 0 && u != v && u in mid.flows && v in mid.flows && (u, v) in net.links
    requires Taken(s, u, v) + n <= |Queue(s, u, v)|
    requires OnlySends(Jump(s, u, v, n - 1), mid, v)
    requires OnlySends(if CanTake(net, mid, u, v) then Advance(mid, u, v) else mid, s', v)
    ensures OnlySends(Jump(s, u, v, n), s', v)
  {
    assert Queue(Jump(s, u, v, n - 1), u, v) == Queue(s, u, v);
    assert Queue(mid, u, v) == Queue(s, u, v) && Taken(mid, u, v) == Taken(s, u, v) + n - 1;
    var half := Advance(mid, u, v);
    forall x, w
      ensures Taken(s', x, w) == Taken(Jump(s, u, v, n), x, w)
      ensures x != v ==> Queue(s', x, w) == Queue(Jump(s, u, v, n), x, w)
      ensures Queue(Jump(s, u, v, n), v, w) <= Queue(s', v, w)
    {
      assert Taken(s', x, w) == Taken(half, x, w);
      assert Taken(mid, x, w) == Taken(Jump(s, u, v, n - 1), x, w);
      assert Queue(half, x, w) == Queue(mid, x, w) && Queue(half, v, w) == Queue(mid, v, w);
      assert Queue(Jump(s, u, v, n), x, w) == Queue(Jump(s, u, v, n - 1), x, w) == Queue(s, x, w);
      assert Queue(Jump(s, u, v, n), v, w) == Queue(Jump(s, u, v, n - 1), v, w) <= Queue(mid, v, w);
    }
  }

  /** An event at v's end of its connection with u, by which nothing is said. */
  lemma EventOnLink(s: Flood, u: Uuid, v: Uuid, l: Key, events: seq<Event>, e: Event, n: nat, enc: Message -> Payload)
    requires u != v && KeyOf(l) == KeyOf((u, v)) && l.0 != l.1 && CarriesLink(s, l, events, enc)
    requires e.side == SideOf((v, u)) && End(Run(events + [e]), e.side).said == End(Run(events), e.side).said
    requires Carries(Run(events + [e]), SideOf((u, v)), Queue(s, u, v), Taken(s, u, v) + n, enc)
    ensures CarriesLink(Jump(s, u, v, n), l, events + [e], enc)
  {
    hide Run, Encoded, Perform, Receive;
    assert Queue(Jump(s, u, v, n), l.0, l.1) == Queue(s, l.0, l.1);
    RunNext(events, e);
    if l != (u, v) {
      assert l == (v, u) && SideOf(l) == e.side;
    }
  }

  /** Whatever happens at a socket, short of being given more to say, is matched by moves of the hub that uses it:
      what the socket handed out is what the hub handles, and what the hub then sends is said on its connections. */
  lemma SocketStep(net: Net, sys: SR.System, conns: Connections, u: Uuid, v: Uuid, e: Event, pace: Pace,
                   enc: Message -> Payload, scripts: nat -> seq<seq<Bytes>>) returns (n: nat, conns': Connections)
    requires WellConnected(net) && Members(net, sys) && Carried(net, SR.Project(sys), conns, enc)
    requires (u, v) in net.links && e.side == SideOf((v, u)) && |Queue(SR.Project(sys), u, v)| < WORD
    requires var events := conns[KeyOf((u, v))];
             End(Run(events + [e]), e.side).said == End(Run(events), e.side).said
    ensures Continues(conns[KeyOf((u, v)) := conns[KeyOf((u, v))] + [e]], conns', pace)
    ensures var s' := SR.Project(SR.RunFrom(net, sys, Takes(u, v, n, scripts)));
            Fits(net, s', enc) ==> Carried(net, s', conns', enc)
  {
    hide Run, Queue, Carries, SR.RunFrom, Takes, OnlySends, IsTransport, Fits;
    var s, k := SR.Project(sys), KeyOf((u, v));
    var events := conns[k];
    assert u != v && CarriesLink(s, (u, v), events, enc);
    n := NextTaken(events, e, SideOf((u, v)), Queue(s, u, v), Taken(s, u, v), enc);
    var mid := conns[k := events + [e]];
    forall l <- net.links
      ensures KeyOf(l) in mid && CarriesLink(Jump(s, u, v, n), l, mid[KeyOf(l)], enc)
    {
      assert (l.0, l.1) in net.links && CarriesLink(s, l, conns[KeyOf(l)], enc);
      if KeyOf(l) == k {
        EventOnLink(s, u, v, l, events, e, n, enc);
      } else {
        JumpKeeps(s, u, v, n, l);
      }
    }
    TakesSends(net, sys, u, v, n, scripts);
    var s' := SR.Project(SR.RunFrom(net, sys, Takes(u, v, n, scripts)));
    if Fits(net, s', enc) {
      conns' := HandOver(Jump(s, u, v, n), s', v, mid, enc);
      HandsOver(net, Jump(s, u, v, n), s', v, mid, enc, pace);
    } else {
      conns' := mid;
      ContinuesNot(mid, pace);
    }
  }

  lemma JumpKeeps(s: Flood, u: Uuid, v: Uuid, n: nat, l: Key)
    requires l != (u, v)
    ensures Queue(Jump(s, u, v, n), l.0, l.1) == Queue(s, l.0, l.1)
    ensures Taken(Jump(s, u, v, n), l.0, l.1) == Taken(s, l.0, l.1)
  {
  }

  /** How many messages the event takes from the link. */
  lemma NextTaken(events: seq<Event>, e: Event, s: Side, queue: seq<Message>, taken: nat, enc: Message -> Payload)
    returns (n: nat)
    requires Carries(Run(events), s, queue, taken, enc) && |queue| < WORD && e.side == Other(s)
    ensures Carries(Run(events + [e]), s, queue, taken + n, enc) && taken + n <= |queue|
  {
    hide Run, Encoded, Perform, Receive;
    RunNext(events, e);
    var after := LinkAdvances(events, e, s, queue, taken, enc);
    n := after - taken;
  }

  // ----- the stack

  ghost function NewConnections(net: Net): Connections {
    map l <- net.links | l.0 < l.1 :: []
  }

  lemma StartIsCarried(net: Net, start: SR.System, enc: Message -> Payload)
    requires SR.Start(net, start)
    ensures Carried(net, SR.Project(start), NewConnections(net), enc)
  {
    hide SR.StartHub, CarriesLink, SR.Project;
    forall l <- net.links
      ensures KeyOf(l) in NewConnections(net) && CarriesLink(SR.Project(start), l, [], enc)
    {
      assert (l.0, l.1) in net.links && (l.1, l.0) in net.links;
      StartIsEmpty(net, start, l);
      EmptyIsCarried(SR.Project(start), l, enc);
    }
  }

  lemma StartIsEmpty(net: Net, start: SR.System, l: Key)
    requires SR.Start(net, start) && l.0 in net.members
    ensures Queue(SR.Project(start), l.0, l.1) == [] && Taken(SR.Project(start), l.0, l.1) == 0
  {
    hide HubOrder.Sound, HubOrder.MembershipOk, StaticOrder.StaticHub, WellConnected;
    assert SR.StartHub(net, l.0, start.hubs[l.0]);
  }

  lemma EmptyIsCarried(s: Flood, l: Key, enc: Message -> Payload)
    requires Queue(s, l.0, l.1) == [] && Taken(s, l.0, l.1) == 0
    ensures CarriesLink(s, l, [], enc)
  {
    hide Queue, Taken;
    assert Run([]) == START;
  }

  /** Every run of hubs joined by lossless FIFO links can be made by hubs joined by sockets, as long as the sockets
      can count and encode what is sent, at any pace of sending. */
  lemma EveryRunIsCarried(net: Net, start: SR.System, moves: seq<SR.Move>, pace: Pace, enc: Message -> Payload)
    returns (conns: Connections)
    requires SR.Start(net, start) && pace.Moves() && Fits(net, SR.Project(SR.RunFrom(net, start, moves)), enc)
    ensures Continues(NewConnections(net), conns, pace)
    ensures Carried(net, SR.Project(SR.RunFrom(net, start, moves)), conns, enc)
  {
    hide SR.StartHub, Carried, Continues, Fits, SR.Project, NewConnections, SR.Next;
    StartIsCarried(net, start, enc);
    assert [] + moves == moves;
    conns := CarryOn(net, start, [], moves, NewConnections(net), pace, enc);
  }

  /** And nothing is ever lost in the whole stack: from every carried state of every run, packets that are sent and
      arrive, and hubs that handle what they hear, are enough to deliver at each member exactly what anyone broadcast
      in the run, unless a clock overflows or the sockets run out of numbers. */
  lemma NothingIsLostInTheStack(net: Net, start: SR.System, moves: seq<SR.Move>, conns: Connections, pace: Pace,
                                enc: Message -> Payload) returns (more: seq<SR.Move>, conns': Connections)
    requires SR.Start(net, start) && pace.Moves() && !SR.Overflowed(SR.RunFrom(net, start, moves))
    requires Carried(net, SR.Project(SR.RunFrom(net, start, moves)), conns, enc)
    ensures Quiescence.OnlyDeliveries(more)
    ensures || SR.Overflowed(SR.RunFrom(net, start, moves + more))
            || !Fits(net, SR.Project(SR.RunFrom(net, start, moves + more)), enc)
            || (&& Continues(conns, conns', pace)
                && Carried(net, SR.Project(SR.RunFrom(net, start, moves + more)), conns', enc)
                && forall v <- net.members ::
                     Quiescence.DeliveredExactly(
                       SR.RunFrom(net, start, moves + more + [StaticProgress.Settle(v)]), v,
                       SR.Project(SR.RunFrom(net, start, moves))))
  {
    hide SR.StartHub, Carried, Continues, Fits, SR.Project, SR.Next, SR.RunFrom, SR.Overflowed,
      Quiescence.DeliveredExactly, Quiescence.OnlyDeliveries;
    more := Quiescence.NothingIsLost(net, start, moves);
    conns' := conns;
    if Fits(net, SR.Project(SR.RunFrom(net, start, moves + more)), enc) {
      conns' := CarryOn(net, start, moves, more, conns, pace, enc);
    }
  }
}
