/** Flooding over lossless FIFO links (on_recv and broadcast of src/club/hub.cpp, without the log).

    Every member forwards the first copy of a message to each linked member that the copy has not visited.
    A link is the sequence of everything its sender handed to the socket, and how many of them arrived. */
module Flooding {
  import opened MessageIds
  import opened Messages
  import opened Graphs

  datatype Net = Net(members: set<Uuid>, links: set<(Uuid, Uuid)>)

  function LinksOf(net: Net, u: Uuid): set<Uuid> {
    set v <- net.members | (u, v) in net.links
  }

  ghost function LinkGraph(net: Net): Graph {
    Graph(net.members, map u <- net.members :: LinksOf(net, u))
  }

  /** A connected, symmetric link graph. */
  ghost predicate WellConnected(net: Net) {
    && (forall u, v :: (u, v) in net.links ==> u in net.members && v in net.members && u != v && (v, u) in net.links)
    && (forall u <- net.members, v <- net.members :: Reaches(LinkGraph(net), u, v))
  }

  /** A set of members closed under the links is empty or everybody. */
  lemma ClosedIsEverybody(net: Net, s: set<Uuid>, u: Uuid)
    requires WellConnected(net) && u in s && u in net.members
    requires forall x <- s :: x in net.members ==> LinksOf(net, x) <= s
    ensures net.members <= s
  {
    forall v <- net.members
      ensures v in s
    {
      ClosedHoldsReachable(LinkGraph(net), s, u, v);
    }
  }

  /** One member's part: its clock, what it constructed, first receipts, and what it sent on each link. */
  datatype Flow = Flow(clock: nat, posted: seq<Message>, received: seq<Message>, sent: map<Uuid, seq<Message>>)

  datatype Flood = Flood(flows: map<Uuid, Flow>, taken: map<(Uuid, Uuid), nat>)

  const SILENT := Flow(0, [], [], map[])

  function FlowOf(s: Flood, u: Uuid): Flow {
    if u in s.flows then s.flows[u] else SILENT
  }

  function Posted(s: Flood, u: Uuid): seq<Message> {
    FlowOf(s, u).posted
  }

  function Received(s: Flood, u: Uuid): seq<Message> {
    FlowOf(s, u).received
  }

  /** Everything u ever sent on its link to v. */
  function Queue(s: Flood, u: Uuid, v: Uuid): seq<Message> {
    QueueTo(FlowOf(s, u).sent, v)
  }

  function Taken(s: Flood, u: Uuid, v: Uuid): nat {
    if (u, v) in s.taken then s.taken[(u, v)] else 0
  }

  /** The ids u constructed or received. */
  function Has(s: Flood, u: Uuid): set<MessageId> {
    IdsOf(Posted(s, u)) + IdsOf(Received(s, u))
  }

  // ----- steps

  ghost predicate CanPost(s: Flood, u: Uuid, m: Message) {
    u in s.flows && m.op == u && m.visited == {u} && FlowOf(s, u).clock < m.ts
  }

  function PostedFlow(net: Net, f: Flow, u: Uuid, m: Message): Flow {
    Flow(m.ts, f.posted + [m], f.received, Enqueue(f.sent, LinksOf(net, u), m))
  }

  function PostStep(net: Net, s: Flood, u: Uuid, m: Message): Flood {
    s.(flows := s.flows[u := PostedFlow(net, FlowOf(s, u), u, m)])
  }

  ghost predicate CanTake(net: Net, s: Flood, u: Uuid, v: Uuid) {
    u in s.flows && v in s.flows && (u, v) in net.links && Taken(s, u, v) < |Queue(s, u, v)|
  }

  function Front(s: Flood, u: Uuid, v: Uuid): Message
    requires Taken(s, u, v) < |Queue(s, u, v)|
  {
    Queue(s, u, v)[Taken(s, u, v)]
  }

  function Advance(s: Flood, u: Uuid, v: Uuid): Flood {
    s.(taken := s.taken[(u, v) := Taken(s, u, v) + 1])
  }

  function Stamped(m: Message, v: Uuid): Message {
    m.(visited := m.visited + {v})
  }

  function AcceptedFlow(net: Net, f: Flow, v: Uuid, m: Message): Flow {
    Flow(if f.clock < m.ts then m.ts else f.clock, f.posted, f.received + [m],
         Enqueue(f.sent, LinksOf(net, v) - (m.visited + {v}), Stamped(m, v)))
  }

  function AcceptStep(net: Net, s: Flood, u: Uuid, v: Uuid): Flood
    requires Taken(s, u, v) < |Queue(s, u, v)|
  {
    Advance(s.(flows := s.flows[v := AcceptedFlow(net, FlowOf(s, v), v, Front(s, u, v))]), u, v)
  }

  // ----- invariant

  ghost predicate PostedFine(u: Uuid, clock: nat, posted: seq<Message>) {
    && (forall m <- posted :: m.op == u && m.visited == {u} && m.ts <= clock)
    && (forall i, j :: 0 <= i < j < |posted| ==> posted[i].ts < posted[j].ts)
  }

  ghost predicate Genuine(s: Flood, m: Message) {
    m.Original() in Posted(s, m.op)
  }

  /** A copy under way from u to v: it never visited v, and everyone it visited has the message. */
  ghost predicate CopyFine(s: Flood, u: Uuid, v: Uuid, m: Message) {
    && Genuine(s, m)
    && u in m.visited && m.op in m.visited && v !in m.visited
    && forall w <- m.visited :: m.Id() in Has(s, w)
  }

  ghost predicate CopiesFine(s: Flood, u: Uuid, v: Uuid) {
    forall m <- Queue(s, u, v) :: CopyFine(s, u, v, m)
  }

  /** Whatever u has, v has or is about to get from u. */
  ghost predicate Covered(s: Flood, u: Uuid, v: Uuid) {
    Has(s, u) <= Has(s, v) + IdsOf(Queue(s, u, v))
  }

  /** p is an earlier message of m's poster. */
  ghost predicate Earlier(s: Flood, p: Message, m: Message) {
    p in Posted(s, m.op) && p.ts < m.ts
  }

  /** On a link, earlier messages of the same poster are ahead, unless they arrived some other way. */
  ghost predicate Ordered(s: Flood, u: Uuid, v: Uuid) {
    forall i, p :: 0 <= i < |Queue(s, u, v)| && Earlier(s, p, Queue(s, u, v)[i]) ==>
      p.Id() in Has(s, v) + IdsOf(Queue(s, u, v)[..i])
  }

  ghost predicate Arrived(s: Flood, u: Uuid, v: Uuid) {
    && Taken(s, u, v) <= |Queue(s, u, v)|
    && IdsOf(Queue(s, u, v)[..Taken(s, u, v)]) <= Has(s, v)
  }

  /** First receipts are genuine, never the member's own, and complete per poster. */
  ghost predicate ReceiptsFine(s: Flood, v: Uuid) {
    && (forall m <- Received(s, v) :: Genuine(s, m) && m.op != v)
    && (forall m, p :: m in Received(s, v) && Earlier(s, p, m) ==> p.Id() in IdsOf(Received(s, v)))
  }

  /** First receipts of one poster's messages come in increasing timestamp order. */
  ghost predicate ReceiptsOrdered(received: seq<Message>) {
    forall i, j :: 0 <= i < j < |received| && received[i].op == received[j].op ==> received[i].ts < received[j].ts
  }

  ghost predicate FloodInv(net: Net, s: Flood) {
    && s.flows.Keys == net.members
    && (forall u <- net.members :: PostedFine(u, FlowOf(s, u).clock, Posted(s, u)))
    && (forall l <- net.links :: CopiesFine(s, l.0, l.1))
    && (forall l <- net.links :: Covered(s, l.0, l.1))
    && (forall l <- net.links :: Ordered(s, l.0, l.1))
    && (forall l <- net.links :: Arrived(s, l.0, l.1))
    && (forall v <- net.members :: ReceiptsFine(s, v))
    && (forall v <- net.members :: ReceiptsOrdered(Received(s, v)))
  }

  // ----- posting keeps the invariant

  lemma PostFacts(net: Net, s: Flood, u: Uuid, m: Message, a: Uuid, b: Uuid)
    requires CanPost(s, u, m)
    ensures var s' := PostStep(net, s, u, m);
            && Posted(s', a) == Posted(s, a) + (if a == u then [m] else [])
            && Received(s', a) == Received(s, a)
            && Has(s', a) == Has(s, a) + (if a == u then {m.Id()} else {})
            && Queue(s', a, b) == Queue(s, a, b) + (if a == u && b in LinksOf(net, u) then [m] else [])
            && Taken(s', a, b) == Taken(s, a, b)
  {
    IdsOfAppend(Posted(s, u), m);
  }

  /** A message constructed now is later than everything its poster constructed before. */
  lemma NothingEarlierIsNew(net: Net, s: Flood, u: Uuid, m: Message, p: Message, c: Message)
    requires CanPost(s, u, m) && PostedFine(u, FlowOf(s, u).clock, Posted(s, u)) && Genuine(s, c)
    requires Earlier(PostStep(net, s, u, m), p, c)
    ensures Earlier(s, p, c)
  {
    PostFacts(net, s, u, m, c.op, c.op);
    assert c.op == u ==> c.Original().ts <= FlowOf(s, u).clock;
  }

  lemma PostCopies(net: Net, s: Flood, u: Uuid, m: Message, a: Uuid, b: Uuid)
    requires CanPost(s, u, m) && CopiesFine(s, a, b) && a != b
    ensures CopiesFine(PostStep(net, s, u, m), a, b)
  {
    var s' := PostStep(net, s, u, m);
    PostFacts(net, s, u, m, a, b);
    forall c <- Queue(s', a, b)
      ensures CopyFine(s', a, b, c)
    {
      PostFacts(net, s, u, m, c.op, c.op);
      if c in Queue(s, a, b) {
        assert CopyFine(s, a, b, c);
        forall w <- c.visited ensures c.Id() in Has(s', w) { PostFacts(net, s, u, m, w, w); }
      } else {
        assert m.Original() == m;
      }
    }
  }

  lemma PostCovered(net: Net, s: Flood, u: Uuid, m: Message, a: Uuid, b: Uuid)
    requires CanPost(s, u, m) && Covered(s, a, b) && (a, b) in net.links && b in net.members
    ensures Covered(PostStep(net, s, u, m), a, b)
  {
    PostFacts(net, s, u, m, a, b);
    PostFacts(net, s, u, m, b, b);
    IdsOfAppend(Queue(s, a, b), m);
  }

  lemma PostOrdered(net: Net, s: Flood, u: Uuid, m: Message, a: Uuid, b: Uuid)
    requires CanPost(s, u, m) && PostedFine(u, FlowOf(s, u).clock, Posted(s, u))
    requires Ordered(s, a, b) && CopiesFine(s, a, b) && Covered(s, a, b)
    ensures Ordered(PostStep(net, s, u, m), a, b)
  {
    var s' := PostStep(net, s, u, m);
    PostFacts(net, s, u, m, a, b);
    PostFacts(net, s, u, m, b, b);
    forall i, p | 0 <= i < |Queue(s', a, b)| && Earlier(s', p, Queue(s', a, b)[i])
      ensures p.Id() in Has(s', b) + IdsOf(Queue(s', a, b)[..i])
    {
      var c := Queue(s', a, b)[i];
      assert Queue(s', a, b)[..i] == Queue(s, a, b)[..i];
      if i < |Queue(s, a, b)| {
        assert CopyFine(s, a, b, c);
        NothingEarlierIsNew(net, s, u, m, p, c);
      } else {
        assert Queue(s, a, b)[..i] == Queue(s, a, b);
        assert p in Posted(s, u) && p.Id() in Has(s, a);
      }
    }
  }

  lemma PostArrived(net: Net, s: Flood, u: Uuid, m: Message, a: Uuid, b: Uuid)
    requires CanPost(s, u, m) && Arrived(s, a, b)
    ensures Arrived(PostStep(net, s, u, m), a, b)
  {
    PostFacts(net, s, u, m, a, b);
    PostFacts(net, s, u, m, b, b);
    var s' := PostStep(net, s, u, m);
    assert Queue(s', a, b)[..Taken(s, a, b)] == Queue(s, a, b)[..Taken(s, a, b)];
  }

  lemma PostReceipts(net: Net, s: Flood, u: Uuid, m: Message, v: Uuid)
    requires CanPost(s, u, m) && PostedFine(u, FlowOf(s, u).clock, Posted(s, u)) && ReceiptsFine(s, v)
    ensures ReceiptsFine(PostStep(net, s, u, m), v)
  {
    var s' := PostStep(net, s, u, m);
    PostFacts(net, s, u, m, v, v);
    forall c <- Received(s, v)
      ensures Genuine(s', c)
    {
      PostFacts(net, s, u, m, c.op, c.op);
    }
    forall c, p | c in Received(s', v) && Earlier(s', p, c)
      ensures p.Id() in IdsOf(Received(s', v))
    {
      NothingEarlierIsNew(net, s, u, m, p, c);
    }
  }

  lemma PostPosted(net: Net, s: Flood, u: Uuid, m: Message, w: Uuid)
    requires CanPost(s, u, m) && PostedFine(w, FlowOf(s, w).clock, Posted(s, w))
    ensures var s' := PostStep(net, s, u, m); PostedFine(w, FlowOf(s', w).clock, Posted(s', w))
  {
    PostFacts(net, s, u, m, w, w);
    if w == u {
      var posted := Posted(s, u);
      assert forall i :: 0 <= i < |posted| ==> posted[i] in posted && posted[i].ts < m.ts;
    }
  }

  lemma PostLink(net: Net, s: Flood, u: Uuid, m: Message, a: Uuid, b: Uuid)
    requires WellConnected(net) && FloodInv(net, s) && CanPost(s, u, m) && (a, b) in net.links
    ensures var s' := PostStep(net, s, u, m);
            CopiesFine(s', a, b) && Covered(s', a, b) && Ordered(s', a, b) && Arrived(s', a, b)
  {
    hide PostedFine, CopiesFine, Covered, Ordered, Arrived, ReceiptsFine, ReceiptsOrdered, PostStep;
    assert CopiesFine(s, (a, b).0, (a, b).1);
    PostCopies(net, s, u, m, a, b);
    PostCovered(net, s, u, m, a, b);
    PostOrdered(net, s, u, m, a, b);
    PostArrived(net, s, u, m, a, b);
  }

  lemma PostMember(net: Net, s: Flood, u: Uuid, m: Message, w: Uuid)
    requires FloodInv(net, s) && CanPost(s, u, m) && w in net.members
    ensures var s' := PostStep(net, s, u, m);
            && PostedFine(w, FlowOf(s', w).clock, Posted(s', w))
            && ReceiptsFine(s', w) && ReceiptsOrdered(Received(s', w))
  {
    hide PostedFine, CopiesFine, Covered, Ordered, Arrived, ReceiptsFine, ReceiptsOrdered, PostStep;
    PostPosted(net, s, u, m, w);
    PostReceipts(net, s, u, m, w);
    PostFacts(net, s, u, m, w, w);
  }

  lemma PostKeepsFlood(net: Net, s: Flood, u: Uuid, m: Message)
    requires WellConnected(net) && FloodInv(net, s) && CanPost(s, u, m)
    ensures FloodInv(net, PostStep(net, s, u, m))
  {
    hide PostedFine, CopiesFine, Covered, Ordered, Arrived, ReceiptsFine, ReceiptsOrdered, WellConnected;
    var s' := PostStep(net, s, u, m);
    assert s'.flows.Keys == net.members;
    forall l <- net.links
      ensures CopiesFine(s', l.0, l.1) && Covered(s', l.0, l.1) && Ordered(s', l.0, l.1) && Arrived(s', l.0, l.1)
    {
      PostLink(net, s, u, m, l.0, l.1);
    }
    forall w <- net.members
      ensures PostedFine(w, FlowOf(s', w).clock, Posted(s', w))
      ensures ReceiptsFine(s', w) && ReceiptsOrdered(Received(s', w))
    {
      PostMember(net, s, u, m, w);
    }
  }

  // ----- taking a message from a link keeps the invariant

  lemma AcceptReceived(net: Net, s: Flood, u: Uuid, v: Uuid, a: Uuid)
    requires CanTake(net, s, u, v)
    ensures var s' := AcceptStep(net, s, u, v);
            var m := Front(s, u, v);
            && Posted(s', a) == Posted(s, a)
            && Received(s', a) == Received(s, a) + (if a == v then [m] else [])
            && Has(s', a) == Has(s, a) + (if a == v then {m.Id()} else {})
  {
    hide Enqueue, IdsOf;
    IdsOfAppend(Received(s, v), Front(s, u, v));
  }

  lemma AcceptFacts(net: Net, s: Flood, u: Uuid, v: Uuid, a: Uuid, b: Uuid)
    requires CanTake(net, s, u, v)
    ensures var s' := AcceptStep(net, s, u, v);
            var m := Front(s, u, v);
            && Posted(s', a) == Posted(s, a)
            && Received(s', a) == Received(s, a) + (if a == v then [m] else [])
            && Has(s', a) == Has(s, a) + (if a == v then {m.Id()} else {})
            && Queue(s', a, b) == Queue(s, a, b) +
                                  (if a == v && b in LinksOf(net, v) - (m.visited + {v}) then [Stamped(m, v)] else [])
            && Taken(s', a, b) == Taken(s, a, b) + (if a == u && b == v then 1 else 0)
  {
    hide Enqueue, Has;
    AcceptReceived(net, s, u, v, a);
  }

  lemma FrontIsCopy(net: Net, s: Flood, u: Uuid, v: Uuid)
    requires CanTake(net, s, u, v) && CopiesFine(s, u, v)
    ensures CopyFine(s, u, v, Front(s, u, v)) && Front(s, u, v).op != v
  {
    assert Front(s, u, v) in Queue(s, u, v);
  }

  lemma AcceptCopies(net: Net, s: Flood, u: Uuid, v: Uuid, a: Uuid, b: Uuid)
    requires CanTake(net, s, u, v) && CopiesFine(s, u, v) && CopiesFine(s, a, b)
    ensures CopiesFine(AcceptStep(net, s, u, v), a, b)
  {
    var s' := AcceptStep(net, s, u, v);
    var m := Front(s, u, v);
    AcceptFacts(net, s, u, v, a, b);
    FrontIsCopy(net, s, u, v);
    forall c <- Queue(s', a, b)
      ensures CopyFine(s', a, b, c)
    {
      AcceptFacts(net, s, u, v, c.op, c.op);
      if c in Queue(s, a, b) {
        assert CopyFine(s, a, b, c);
      } else {
        assert c == Stamped(m, v) && c.Original() == m.Original();
      }
      forall w <- c.visited ensures c.Id() in Has(s', w) { AcceptFacts(net, s, u, v, w, w); }
    }
  }

  lemma AcceptCovered(net: Net, s: Flood, u: Uuid, v: Uuid, a: Uuid, b: Uuid)
    requires CanTake(net, s, u, v) && CopiesFine(s, u, v)
    requires Covered(s, a, b) && (a, b) in net.links && b in net.members
    ensures Covered(AcceptStep(net, s, u, v), a, b)
  {
    AcceptFacts(net, s, u, v, a, b);
    AcceptFacts(net, s, u, v, b, b);
    FrontIsCopy(net, s, u, v);
    IdsOfAppend(Queue(s, a, b), Stamped(Front(s, u, v), v));
  }

  /** First receipts stay complete: what is ahead of the front of the link has arrived. */
  lemma FrontIsNext(net: Net, s: Flood, u: Uuid, v: Uuid, p: Message)
    requires CanTake(net, s, u, v) && Ordered(s, u, v) && Arrived(s, u, v) && CopiesFine(s, u, v)
    requires PostedFine(v, FlowOf(s, v).clock, Posted(s, v))
    requires PostedFine(Front(s, u, v).op, FlowOf(s, Front(s, u, v).op).clock, Posted(s, Front(s, u, v).op))
    requires Earlier(s, p, Front(s, u, v))
    ensures p.Id() in Has(s, v) && p.Id() in IdsOf(Received(s, v))
  {
    FrontIsCopy(net, s, u, v);
    assert p.Id() in Has(s, v) + IdsOf(Queue(s, u, v)[..Taken(s, u, v)]);
    assert forall x <- Posted(s, v) :: x.op == v;
  }

  lemma AcceptOrdered(net: Net, s: Flood, u: Uuid, v: Uuid, a: Uuid, b: Uuid)
    requires CanTake(net, s, u, v)
    requires Ordered(s, a, b) && Covered(s, a, b)
    requires forall p :: Earlier(s, p, Front(s, u, v)) ==> p.Id() in Has(s, v)
    ensures Ordered(AcceptStep(net, s, u, v), a, b)
  {
    var s' := AcceptStep(net, s, u, v);
    AcceptFacts(net, s, u, v, a, b);
    AcceptFacts(net, s, u, v, b, b);
    forall i, p | 0 <= i < |Queue(s', a, b)| && Earlier(s', p, Queue(s', a, b)[i])
      ensures p.Id() in Has(s', b) + IdsOf(Queue(s', a, b)[..i])
    {
      var c := Queue(s', a, b)[i];
      AcceptFacts(net, s, u, v, c.op, c.op);
      assert Queue(s', a, b)[..i] == Queue(s, a, b)[..i];
      assert Earlier(s, p, c);
      if i == |Queue(s, a, b)| {
        assert Earlier(s, p, Front(s, u, v));
        assert Queue(s, a, b)[..i] == Queue(s, a, b);
      }
    }
  }

  lemma AcceptArrived(net: Net, s: Flood, u: Uuid, v: Uuid, a: Uuid, b: Uuid)
    requires CanTake(net, s, u, v) && Arrived(s, a, b)
    ensures Arrived(AcceptStep(net, s, u, v), a, b)
  {
    hide AcceptStep, Has, Queue, Taken;
    AcceptFacts(net, s, u, v, a, b);
    AcceptFacts(net, s, u, v, b, b);
    var s' := AcceptStep(net, s, u, v);
    var n := Taken(s, a, b);
    assert Queue(s', a, b)[..n] == Queue(s, a, b)[..n];
    if a == u && b == v {
      assert Queue(s', a, b)[..n + 1] == Queue(s, a, b)[..n] + [Front(s, u, v)];
      IdsOfAppend(Queue(s, a, b)[..n], Front(s, u, v));
    }
  }

  lemma AcceptReceipts(net: Net, s: Flood, u: Uuid, v: Uuid, w: Uuid)
    requires CanTake(net, s, u, v) && CopiesFine(s, u, v) && ReceiptsFine(s, w)
    requires forall p :: Earlier(s, p, Front(s, u, v)) ==> p.Id() in IdsOf(Received(s, v))
    ensures ReceiptsFine(AcceptStep(net, s, u, v), w)
  {
    var s' := AcceptStep(net, s, u, v);
    AcceptFacts(net, s, u, v, w, w);
    FrontIsCopy(net, s, u, v);
    IdsOfAppend(Received(s, v), Front(s, u, v));
    forall c <- Received(s', w)
      ensures Genuine(s', c) && c.op != w
    {
      AcceptFacts(net, s, u, v, c.op, c.op);
    }
    forall c, p | c in Received(s', w) && Earlier(s', p, c)
      ensures p.Id() in IdsOf(Received(s', w))
    {
      AcceptFacts(net, s, u, v, c.op, c.op);
      assert Earlier(s, p, c);
    }
  }

  lemma AcceptReceiptsOrdered(net: Net, s: Flood, u: Uuid, v: Uuid)
    requires CanTake(net, s, u, v) && CopiesFine(s, u, v) && ReceiptsFine(s, v) && ReceiptsOrdered(Received(s, v))
    requires Front(s, u, v).Id() !in Has(s, v)
    ensures ReceiptsOrdered(Received(s, v) + [Front(s, u, v)])
  {
    var m := Front(s, u, v);
    FrontIsCopy(net, s, u, v);
    forall c <- Received(s, v)
      ensures c.op == m.op ==> c.ts < m.ts
    {
      assert c.Id() in IdsOf(Received(s, v));
      if c.op == m.op && m.ts < c.ts {
        assert Earlier(s, m.Original(), c);
      }
    }
  }

  /** What the poster of the front sent before it is here. */
  lemma FrontIsDue(net: Net, s: Flood, u: Uuid, v: Uuid)
    requires WellConnected(net) && FloodInv(net, s) && CanTake(net, s, u, v)
    ensures CopiesFine(s, u, v)
    ensures forall p :: Earlier(s, p, Front(s, u, v)) ==> p.Id() in Has(s, v) && p.Id() in IdsOf(Received(s, v))
  {
    hide CopiesFine, Covered, Ordered, Arrived, ReceiptsFine, Has, PostedFine, ReceiptsOrdered, Earlier;
    assert (u, v) in net.links;
    FrontPoster(net, s, u, v);
    forall p | Earlier(s, p, Front(s, u, v))
      ensures p.Id() in Has(s, v) && p.Id() in IdsOf(Received(s, v))
    {
      FrontIsNext(net, s, u, v, p);
    }
  }

  lemma AcceptLink(net: Net, s: Flood, u: Uuid, v: Uuid, a: Uuid, b: Uuid)
    requires WellConnected(net) && FloodInv(net, s) && CanTake(net, s, u, v) && (a, b) in net.links
    ensures var s' := AcceptStep(net, s, u, v);
            CopiesFine(s', a, b) && Covered(s', a, b) && Ordered(s', a, b) && Arrived(s', a, b)
  {
    hide CopiesFine, Covered, Ordered, Arrived, ReceiptsFine, Has, PostedFine, ReceiptsOrdered, Earlier, AcceptStep;
    FrontIsDue(net, s, u, v);
    assert CopiesFine(s, (a, b).0, (a, b).1);
    AcceptCopies(net, s, u, v, a, b);
    AcceptCovered(net, s, u, v, a, b);
    AcceptOrdered(net, s, u, v, a, b);
    AcceptArrived(net, s, u, v, a, b);
  }

  lemma AcceptMember(net: Net, s: Flood, u: Uuid, v: Uuid, w: Uuid)
    requires WellConnected(net) && FloodInv(net, s) && CanTake(net, s, u, v) && w in net.members
    requires Front(s, u, v).Id() !in Has(s, v)
    ensures var s' := AcceptStep(net, s, u, v);
            && PostedFine(w, FlowOf(s', w).clock, Posted(s', w))
            && ReceiptsFine(s', w) && ReceiptsOrdered(Received(s', w))
  {
    hide CopiesFine, Covered, Ordered, Arrived, ReceiptsFine, Has, PostedFine, ReceiptsOrdered, Earlier, AcceptStep;
    FrontIsDue(net, s, u, v);
    AcceptPosted(net, s, u, v, w);
    AcceptReceipts(net, s, u, v, w);
    AcceptFacts(net, s, u, v, w, w);
    if w == v {
      AcceptReceiptsOrdered(net, s, u, v);
    } else {
      assert Received(s, w) + [] == Received(s, w);
    }
  }

  lemma AcceptKeepsFlood(net: Net, s: Flood, u: Uuid, v: Uuid)
    requires WellConnected(net) && FloodInv(net, s) && CanTake(net, s, u, v)
    requires Front(s, u, v).Id() !in Has(s, v)
    ensures FloodInv(net, AcceptStep(net, s, u, v))
  {
    hide CopiesFine, Covered, Ordered, Arrived, ReceiptsFine, Has, PostedFine, ReceiptsOrdered, WellConnected;
    var s' := AcceptStep(net, s, u, v);
    assert s'.flows.Keys == net.members;
    forall l <- net.links
      ensures CopiesFine(s', l.0, l.1) && Covered(s', l.0, l.1) && Ordered(s', l.0, l.1) && Arrived(s', l.0, l.1)
    {
      AcceptLink(net, s, u, v, l.0, l.1);
    }
    forall w <- net.members
      ensures PostedFine(w, FlowOf(s', w).clock, Posted(s', w))
      ensures ReceiptsFine(s', w) && ReceiptsOrdered(Received(s', w))
    {
      AcceptMember(net, s, u, v, w);
    }
  }

  lemma AcceptPosted(net: Net, s: Flood, u: Uuid, v: Uuid, w: Uuid)
    requires CanTake(net, s, u, v) && PostedFine(w, FlowOf(s, w).clock, Posted(s, w))
    ensures var s' := AcceptStep(net, s, u, v); PostedFine(w, FlowOf(s', w).clock, Posted(s', w))
  {
  }

  lemma FrontPoster(net: Net, s: Flood, u: Uuid, v: Uuid)
    requires WellConnected(net) && FloodInv(net, s) && CanTake(net, s, u, v)
    ensures Front(s, u, v).op in net.members
  {
    assert (u, v) in net.links && CopiesFine(s, u, v);
    FrontIsCopy(net, s, u, v);
  }

  /** Dropping a copy of something v already has. */
  lemma SkipKeepsFlood(net: Net, s: Flood, u: Uuid, v: Uuid)
    requires FloodInv(net, s) && CanTake(net, s, u, v)
    requires Front(s, u, v).Id() in Has(s, v)
    ensures FloodInv(net, Advance(s, u, v))
  {
    hide CopiesFine, Covered, Ordered, Arrived, ReceiptsFine, Has, PostedFine, ReceiptsOrdered;
    var s' := Advance(s, u, v);
    forall l <- net.links
      ensures CopiesFine(s', l.0, l.1) && Covered(s', l.0, l.1) && Ordered(s', l.0, l.1) && Arrived(s', l.0, l.1)
    {
      SkipLink(s, u, v, l.0, l.1);
      SkipArrived(s, u, v, l.0, l.1);
    }
    forall w <- net.members
      ensures ReceiptsFine(s', w)
    {
      SkipReceipts(s, u, v, w);
    }
  }

  lemma SkipReceipts(s: Flood, u: Uuid, v: Uuid, w: Uuid)
    requires ReceiptsFine(s, w)
    ensures ReceiptsFine(Advance(s, u, v), w)
  {
    var s' := Advance(s, u, v);
    assert forall p, m :: Earlier(s', p, m) <==> Earlier(s, p, m);
  }

  lemma SkipLink(s: Flood, u: Uuid, v: Uuid, a: Uuid, b: Uuid)
    requires CopiesFine(s, a, b) && Covered(s, a, b) && Ordered(s, a, b)
    ensures var s' := Advance(s, u, v);
            CopiesFine(s', a, b) && Covered(s', a, b) && Ordered(s', a, b)
  {
    var s' := Advance(s, u, v);
    forall m <- Queue(s', a, b) ensures CopyFine(s', a, b, m) { assert CopyFine(s, a, b, m); }
    forall i, p | 0 <= i < |Queue(s', a, b)| && Earlier(s', p, Queue(s', a, b)[i])
      ensures p.Id() in Has(s', b) + IdsOf(Queue(s', a, b)[..i])
    {
      assert Earlier(s, p, Queue(s, a, b)[i]);
    }
  }

  lemma SkipArrived(s: Flood, u: Uuid, v: Uuid, a: Uuid, b: Uuid)
    requires Arrived(s, a, b) && Taken(s, u, v) < |Queue(s, u, v)| && Front(s, u, v).Id() in Has(s, v)
    ensures Arrived(Advance(s, u, v), a, b)
  {
    if a == u && b == v {
      var n := Taken(s, a, b);
      assert Queue(s, a, b)[..n + 1] == Queue(s, a, b)[..n] + [Front(s, u, v)];
      IdsOfAppend(Queue(s, a, b)[..n], Front(s, u, v));
    }
  }
}
