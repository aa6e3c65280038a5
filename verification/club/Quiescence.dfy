/** A static network comes to rest: with callbacks that broadcast nothing more, deliveries run out, in whatever
    order they are made. Together with StaticProgress: from every state of every run, everything that was
    broadcast can still be delivered everywhere. */
module Quiescence {
  import opened Basics
  import opened MessageIds
  import opened Messages
  import opened Logs
  import opened Seen
  import opened Hubs
  import opened HubOrder
  import opened Flooding
  import opened StaticOrder
  import opened StaticRuns
  import opened StaticProgress

  // ----- what is still to be done

  /** The messages on the links that have not arrived, by link and position. */
  ghost function UnderWay(net: Net, s: Flood): set<((Uuid, Uuid), nat)> {
    set l <- net.links, i: nat | Taken(s, l.0, l.1) <= i < |Queue(s, l.0, l.1)| :: (l, i)
  }

  ghost function DataIds(net: Net, s: Flood): set<MessageId> {
    set q <- net.members, m <- Posted(s, q) | m.body.UserData? :: m.Id()
  }

  ghost function AckIds(net: Net, s: Flood): set<MessageId> {
    set q <- net.members, m <- Posted(s, q) | m.body.Ack? :: m.Id()
  }

  /** Who still lacks which of the messages. */
  ghost function Lacking(net: Net, s: Flood, ids: set<MessageId>): set<(Uuid, MessageId)> {
    set v <- net.members, x <- ids | x !in Has(s, v) :: (v, x)
  }

  /** A first receipt sends at most one copy per member and, of user data, one acknowledgement, which everybody
      then lacks. */
  ghost function Debt(net: Net, s: Flood): nat {
    Sum(|net.members|, |UnderWay(net, s)|, |Lacking(net, s, AckIds(net, s))|, |Lacking(net, s, DataIds(net, s))|)
  }

  ghost function Sum(n: nat, copies: nat, acks: nat, data: nat): nat {
    copies + n * acks + (2 * n + n * n) * data
  }

  lemma CopyPays(n: nat, copies: nat, acks: nat, data: nat, copies': nat)
    requires copies' < copies
    ensures Sum(n, copies', acks, data) < Sum(n, copies, acks, data)
  {
  }

  lemma AckPays(n: nat, copies: nat, acks: nat, data: nat, copies': nat, acks': nat, data': nat)
    requires copies' + 1 <= copies + n && acks' + 1 <= acks && data' <= data
    ensures Sum(n, copies', acks', data') < Sum(n, copies, acks, data)
  {
    Scaled(n, acks' + 1, acks);
    Scaled(2 * n + n * n, data', data);
    assert n * (acks' + 1) == n * acks' + n;
  }

  lemma DataPays(n: nat, copies: nat, acks: nat, data: nat, copies': nat, acks': nat, data': nat)
    requires copies' + 1 <= copies + 2 * n && acks' <= acks + n && data' + 1 <= data
    ensures Sum(n, copies', acks', data') < Sum(n, copies, acks, data)
  {
    var w := 2 * n + n * n;
    Scaled(n, acks', acks + n);
    Scaled(w, data' + 1, data);
    assert n * (acks + n) == n * acks + n * n;
    assert w * (data' + 1) == w * data' + w;
  }

  lemma Scaled(n: nat, a: nat, b: nat)
    requires a <= b
    ensures n * a <= n * b
  {
  }

  // ----- sizes of sets

  lemma {:induction false} SubsetSize<T>(a: set<T>, b: set<T>)
    requires a <= b
    ensures |a| <= |b|
  {
    if a != {} {
      var x :| x in a;
      SubsetSize(a - {x}, b - {x});
    }
  }

  lemma Replaced<T>(now: set<T>, was: set<T>, gone: T, extra: set<T>, n: nat)
    requires gone in was && now <= (was - {gone}) + extra && |extra| <= n
    ensures |now| + 1 <= |was| + n
  {
    SubsetSize(now, (was - {gone}) + extra);
  }

  lemma Enlarged<T>(now: set<T>, was: set<T>, extra: set<T>, n: nat)
    requires now <= was + extra && |extra| <= n
    ensures |now| <= |was| + n
  {
    SubsetSize(now, was + extra);
  }

  lemma Shrunk<T>(now: set<T>, was: set<T>, gone: T)
    requires gone in was && now <= was - {gone}
    ensures |now| + 1 <= |was|
  {
    SubsetSize(now, was - {gone});
  }

  // ----- what steps do to it

  /** The next positions on the links from v. */
  ghost function Ends(s: Flood, v: Uuid, ws: set<Uuid>): set<((Uuid, Uuid), nat)> {
    set w <- ws :: ((v, w), |Queue(s, v, w)|)
  }

  lemma {:induction false} EndsSize(s: Flood, v: Uuid, ws: set<Uuid>)
    ensures |Ends(s, v, ws)| <= |ws|
  {
    if ws != {} {
      var w :| w in ws;
      EndsSize(s, v, ws - {w});
      assert Ends(s, v, ws) == Ends(s, v, ws - {w}) + {((v, w), |Queue(s, v, w)|)};
    }
  }

  /** All the given members with the message. */
  ghost function Each(ws: set<Uuid>, x: MessageId): set<(Uuid, MessageId)> {
    set w <- ws :: (w, x)
  }

  lemma {:induction false} EachSize(ws: set<Uuid>, x: MessageId)
    ensures |Each(ws, x)| <= |ws|
  {
    if ws != {} {
      var w :| w in ws;
      EachSize(ws - {w}, x);
      assert Each(ws, x) == Each(ws - {w}, x) + {(w, x)};
    }
  }

  lemma FrontUnderWay(net: Net, s: Flood, u: Uuid, v: Uuid)
    requires CanTake(net, s, u, v)
    ensures ((u, v), Taken(s, u, v)) in UnderWay(net, s)
  {
    assert (u, v) in net.links;
  }

  lemma PostUnderWay(net: Net, s: Flood, v: Uuid, m: Message)
    requires CanPost(s, v, m)
    ensures UnderWay(net, PostStep(net, s, v, m)) <= UnderWay(net, s) + Ends(s, v, net.members)
  {
    var s' := PostStep(net, s, v, m);
    forall l, i | (l, i) in UnderWay(net, s')
      ensures (l, i) in UnderWay(net, s) + Ends(s, v, net.members)
    {
      PostFacts(net, s, v, m, l.0, l.1);
    }
  }

  lemma AcceptUnderWay(net: Net, s: Flood, u: Uuid, v: Uuid)
    requires CanTake(net, s, u, v)
    ensures UnderWay(net, AcceptStep(net, s, u, v)) <=
            (UnderWay(net, s) - {((u, v), Taken(s, u, v))}) + Ends(s, v, net.members)
  {
    var s' := AcceptStep(net, s, u, v);
    forall l, i | (l, i) in UnderWay(net, s')
      ensures (l, i) in (UnderWay(net, s) - {((u, v), Taken(s, u, v))}) + Ends(s, v, net.members)
    {
      AcceptFacts(net, s, u, v, l.0, l.1);
    }
  }

  lemma SkipUnderWay(net: Net, s: Flood, u: Uuid, v: Uuid)
    requires CanTake(net, s, u, v)
    ensures UnderWay(net, Advance(s, u, v)) <= UnderWay(net, s) - {((u, v), Taken(s, u, v))}
  {
  }

  lemma AcceptLacking(net: Net, s: Flood, u: Uuid, v: Uuid, ids: set<MessageId>)
    requires CanTake(net, s, u, v)
    ensures Lacking(net, AcceptStep(net, s, u, v), ids) <= Lacking(net, s, ids) - {(v, Front(s, u, v).Id())}
  {
    var s' := AcceptStep(net, s, u, v);
    forall w, x | (w, x) in Lacking(net, s', ids)
      ensures (w, x) in Lacking(net, s, ids) - {(v, Front(s, u, v).Id())}
    {
      AcceptFacts(net, s, u, v, w, w);
    }
  }

  lemma AcceptIds(net: Net, s: Flood, u: Uuid, v: Uuid)
    requires CanTake(net, s, u, v)
    ensures AckIds(net, AcceptStep(net, s, u, v)) == AckIds(net, s)
    ensures DataIds(net, AcceptStep(net, s, u, v)) == DataIds(net, s)
  {
    var s' := AcceptStep(net, s, u, v);
    forall q
      ensures Posted(s', q) == Posted(s, q)
    {
      AcceptFacts(net, s, u, v, q, q);
    }
  }

  lemma PostIds(net: Net, s: Flood, v: Uuid, m: Message)
    requires CanPost(s, v, m) && m.body.Ack?
    ensures AckIds(net, PostStep(net, s, v, m)) <= AckIds(net, s) + {m.Id()}
    ensures DataIds(net, PostStep(net, s, v, m)) == DataIds(net, s)
  {
    var s' := PostStep(net, s, v, m);
    forall q
      ensures Posted(s', q) == Posted(s, q) + if q == v then [m] else []
    {
      PostFacts(net, s, v, m, q, q);
    }
  }

  lemma PostLacking(net: Net, s: Flood, v: Uuid, m: Message)
    requires CanPost(s, v, m) && m.body.Ack?
    ensures var s' := PostStep(net, s, v, m);
            && Lacking(net, s', DataIds(net, s')) <= Lacking(net, s, DataIds(net, s))
            && Lacking(net, s', AckIds(net, s')) <= Lacking(net, s, AckIds(net, s)) + Each(net.members, m.Id())
  {
    var s' := PostStep(net, s, v, m);
    PostIds(net, s, v, m);
    forall w
      ensures Has(s, w) <= Has(s', w)
    {
      PostFacts(net, s, v, m, w, w);
    }
  }

  // ----- every delivery pays off some of it

  /** The front of a link that v does not have is among what v lacks. */
  lemma FrontIsLacking(net: Net, s: Flood, v: Uuid, m: Message)
    requires NetFine(net, s) && Genuine(s, m) && v in net.members && m.Id() !in Has(s, v)
    ensures m.body.Ack? ==> (v, m.Id()) in Lacking(net, s, AckIds(net, s))
    ensures m.body.UserData? ==> (v, m.Id()) in Lacking(net, s, DataIds(net, s))
  {
    hide Has, NetFine;
    CopyShape(net, s, v, m);
    assert m.Original() in Posted(s, m.op) && m.Original().Id() == m.Id();
  }

  lemma SkipPays(net: Net, s: Flood, u: Uuid, v: Uuid)
    requires CanTake(net, s, u, v)
    ensures Debt(net, Advance(s, u, v)) < Debt(net, s)
  {
    hide UnderWay, Sum;
    var s' := Advance(s, u, v);
    FrontUnderWay(net, s, u, v);
    SkipUnderWay(net, s, u, v);
    Shrunk(UnderWay(net, s'), UnderWay(net, s), ((u, v), Taken(s, u, v)));
    assert forall q :: Posted(s', q) == Posted(s, q) && Has(s', q) == Has(s, q);
    assert AckIds(net, s') == AckIds(net, s) && DataIds(net, s') == DataIds(net, s);
    assert Lacking(net, s', AckIds(net, s)) == Lacking(net, s, AckIds(net, s));
    assert Lacking(net, s', DataIds(net, s)) == Lacking(net, s, DataIds(net, s));
    CopyPays(|net.members|, |UnderWay(net, s)|, |Lacking(net, s, AckIds(net, s))|, |Lacking(net, s, DataIds(net, s))|,
             |UnderWay(net, s')|);
  }

  /** Sizes after an acknowledgement was accepted. */
  lemma AcceptedAckPays(net: Net, s: Flood, u: Uuid, v: Uuid)
    requires NetFine(net, s) && CanTake(net, s, u, v) && v in net.members
    requires Front(s, u, v).Id() !in Has(s, v) && Front(s, u, v).body.Ack?
    ensures Debt(net, AcceptStep(net, s, u, v)) < Debt(net, s)
  {
    hide UnderWay, Sum, Lacking, AckIds, DataIds, Ends, NetFine, Has, AcceptStep, Genuine, CopyFine;
    var s', m := AcceptStep(net, s, u, v), Front(s, u, v);
    var acks, data := AckIds(net, s), DataIds(net, s);
    NetLinkCopies(net, s, u, v);
    FrontIsLacking(net, s, v, m);
    AcceptedSizes(net, s, u, v);
    AcceptIds(net, s, u, v);
    AcceptLacking(net, s, u, v, acks);
    AcceptLacking(net, s, u, v, data);
    Shrunk(Lacking(net, s', acks), Lacking(net, s, acks), (v, m.Id()));
    SubsetSize(Lacking(net, s', data), Lacking(net, s, data));
    AckPays(|net.members|, |UnderWay(net, s)|, |Lacking(net, s, acks)|, |Lacking(net, s, data)|,
            |UnderWay(net, s')|, |Lacking(net, s', acks)|, |Lacking(net, s', data)|);
  }

  lemma AcceptedSizes(net: Net, s: Flood, u: Uuid, v: Uuid)
    requires CanTake(net, s, u, v)
    ensures |UnderWay(net, AcceptStep(net, s, u, v))| + 1 <= |UnderWay(net, s)| + |net.members|
  {
    hide UnderWay, Ends, AcceptStep;
    FrontUnderWay(net, s, u, v);
    AcceptUnderWay(net, s, u, v);
    EndsSize(s, v, net.members);
    var now := UnderWay(net, AcceptStep(net, s, u, v));
    Replaced(now, UnderWay(net, s), ((u, v), Taken(s, u, v)), Ends(s, v, net.members), |net.members|);
  }

  lemma PostedSizes(net: Net, s: Flood, v: Uuid, a: Message)
    requires CanPost(s, v, a) && a.body.Ack?
    ensures var s' := PostStep(net, s, v, a);
            && |UnderWay(net, s')| <= |UnderWay(net, s)| + |net.members|
            && |Lacking(net, s', AckIds(net, s'))| <= |Lacking(net, s, AckIds(net, s))| + |net.members|
            && |Lacking(net, s', DataIds(net, s'))| <= |Lacking(net, s, DataIds(net, s))|
  {
    hide UnderWay, Ends, Each, PostStep, Lacking, AckIds, DataIds, CanPost;
    var s' := PostStep(net, s, v, a);
    PostUnderWay(net, s, v, a);
    EndsSize(s, v, net.members);
    Enlarged(UnderWay(net, s'), UnderWay(net, s), Ends(s, v, net.members), |net.members|);
    PostLacking(net, s, v, a);
    EachSize(net.members, a.Id());
    Enlarged(Lacking(net, s', AckIds(net, s')), Lacking(net, s, AckIds(net, s)), Each(net.members, a.Id()),
             |net.members|);
    SubsetSize(Lacking(net, s', DataIds(net, s')), Lacking(net, s, DataIds(net, s)));
  }

  /** Sizes after user data was accepted and acknowledged. */
  lemma AcceptedDataPays(net: Net, s: Flood, u: Uuid, v: Uuid, a: Message)
    requires NetFine(net, s) && CanTake(net, s, u, v) && v in net.members
    requires Front(s, u, v).Id() !in Has(s, v) && Front(s, u, v).body.UserData?
    requires a.body.Ack? && CanPost(AcceptStep(net, s, u, v), v, a)
    ensures Debt(net, PostStep(net, AcceptStep(net, s, u, v), v, a)) < Debt(net, s)
  {
    hide UnderWay, Sum, Lacking, AckIds, DataIds, Ends, NetFine, Has, AcceptStep, PostStep, Genuine, CopyFine,
         CanPost;
    var s1, m := AcceptStep(net, s, u, v), Front(s, u, v);
    var s' := PostStep(net, s1, v, a);
    var acks, data := AckIds(net, s), DataIds(net, s);
    NetLinkCopies(net, s, u, v);
    FrontIsLacking(net, s, v, m);
    AcceptedSizes(net, s, u, v);
    AcceptIds(net, s, u, v);
    AcceptLacking(net, s, u, v, acks);
    AcceptLacking(net, s, u, v, data);
    Shrunk(Lacking(net, s1, data), Lacking(net, s, data), (v, m.Id()));
    SubsetSize(Lacking(net, s1, acks), Lacking(net, s, acks));
    PostedSizes(net, s1, v, a);
    DataPays(|net.members|, |UnderWay(net, s)|, |Lacking(net, s, acks)|, |Lacking(net, s, data)|,
             |UnderWay(net, s')|, |Lacking(net, s', AckIds(net, s'))|, |Lacking(net, s', DataIds(net, s'))|);
  }

  // ----- silent handlers

  /** No user data is in s' that was not in s. */
  ghost predicate NothingSaid(s: Flood, s': Flood) {
    forall q, p :: p in Posted(s', q) && p.body.UserData? ==> p in Posted(s, q)
  }

  lemma AcceptSaysNothing(net: Net, s: Flood, u: Uuid, v: Uuid)
    requires CanTake(net, s, u, v)
    ensures NothingSaid(s, AcceptStep(net, s, u, v))
  {
    forall q
      ensures Posted(AcceptStep(net, s, u, v), q) == Posted(s, q)
    {
      AcceptFacts(net, s, u, v, q, q);
    }
  }

  lemma AckSaysNothing(net: Net, s0: Flood, s: Flood, v: Uuid, a: Message)
    requires NothingSaid(s0, s) && CanPost(s, v, a) && a.body.Ack?
    ensures NothingSaid(s0, PostStep(net, s, v, a))
  {
    forall q
      ensures Posted(PostStep(net, s, v, a), q) == Posted(s, q) + if q == v then [a] else []
    {
      PostFacts(net, s, v, a, q, q);
    }
  }

  lemma SilentReport(h: HubState, e: Event)
    requires h.script == [] && (e.Inserted? || e.Removed?)
    ensures Wire(Report(h, e)) == Wire(h) && Report(h, e).script == []
  {
    hide Work;
  }

  lemma SilentEntry(h: HubState, k: MessageId)
    requires k in h.log.entries && !h.log.entries[k].message.body.Ack? && h.script == []
    ensures Wire(CommitEntry(h, k)) == Wire(h) && CommitEntry(h, k).script == []
  {
    hide Report, Work, SeenEverythingUpTo, AcksToGraph, Consume;
    var e := h.log.entries[k];
    var d := Departed(h, k);
    if e.message.body.Fuse? && e.AckedByQuorum() {
      var added := Inserted(e.quorum - LatestConfig(d));
      SilentReport(Installed(d, e), added);
      SilentReport(Report(Installed(d, e), added), Event.Removed(LatestConfig(d) - e.quorum));
    }
  }

  /** A commit loop whose callbacks broadcast nothing sends nothing. */
  lemma {:induction false} SilentLoop(h: HubState, cursor: Option<MessageId>, lastFuse: Option<MessageId>,
                                      live: set<Uuid>)
    requires h.script == []
    ensures Wire(Loop(h, cursor, lastFuse, live)) == Wire(h)
    decreases Work(h)
  {
    hide CommitEntry, Work, Blocked, Consume;
    if cursor.Some? && cursor.value in h.log.entries && !h.log.entries[cursor.value].message.body.Ack? {
      var k := cursor.value;
      var next := MessageIds.Next(h.log.entries.Keys, k);
      match Judge(h, k, lastFuse, live) {
        case Stop =>
        case Discard =>
          SilentLoop(TakeOut(h, k), next, lastFuse, live);
        case Commit =>
          SilentEntry(h, k);
          SilentLoop(CommitEntry(h, k), next, if lastFuse == Some(k) then None else lastFuse, live);
      }
    }
  }

  lemma SilentCommitLoop(h: HubState)
    requires h.script == []
    ensures Wire(CommitWhatWasSeenByEveryone(h)) == Wire(h)
  {
    hide Loop, LastCommittableFuse, LiveNodes;
    SilentLoop(h, First(h.log.entries.Keys), LastCommittableFuse(h.log), LiveNodes(h));
  }

  lemma SilentProcess(h: HubState, m: Message)
    requires h.script == [] && !m.body.Fuse?
    ensures Process(h, m).script == []
    ensures Wire(Process(h, m)) == if m.body.Ack? then Wire(h) else Wire(Post(h, AckMessage(h, m.Id())))
  {
    hide ApplyAck, AddLogEntry, ProcessFuse, PredecessorTime, LatestConfigId, Post, Neighbors, AckMessage;
  }

  /** A delivery pays off some of the debt and broadcasts nothing. */
  lemma HearPays(net: Net, s: Flood, u: Uuid, v: Uuid, h: HubState)
    requires FineAt(net, s, v, h, {}) && CanTake(net, s, u, v) && h.script == []
    requires !OnRecv(h, Front(s, u, v)).wrapped
    ensures var s' := Upd(Advance(s, u, v), v, OnRecv(h, Front(s, u, v)));
            Debt(net, s') < Debt(net, s) && NothingSaid(s, s')
  {
    hide FineAt, NetFine, Genuine, Accept, Process, CommitWhatWasSeenByEveryone, IsIn, Has, CopyFine, Debt;
    var m := Front(s, u, v);
    var s0 := Advance(s, u, v);
    FineNet(net, s, v, h, {});
    NetLinkCopies(net, s, u, v);
    SeenIsExact(net, s, v, h, m);
    FineMember(net, s, v, h, {});
    if IsIn(h.seen, m.Id()) {
      SkipFine(net, s, u, v, h);
      FlowHere(net, s, v, h);
      assert Upd(s0, v, h) == s0 by { SameFlow(net, s, v, h, u); }
      SkipPays(net, s, u, v);
    } else {
      CopyShape(net, s, v, m);
      AcceptFine(net, s, u, v, h);
      ReceivedNow(net, s, u, v, h);
      AcceptPays(net, s, u, v, h);
      var h1 := Accept(h, m);
      assert h1.script == [] by { AcceptScript(h, m); }
      SilentProcess(h1, m);
      SilentCommitLoop(Process(h1, m));
    }
  }

  lemma AcceptScript(h: HubState, m: Message)
    ensures Accept(h, m).script == h.script
  {
  }

  lemma SameFlow(net: Net, s: Flood, v: Uuid, h: HubState, u: Uuid)
    requires FineAt(net, s, v, h, {})
    ensures Upd(Advance(s, u, v), v, h) == Advance(s, u, v)
  {
    hide Advance;
    FineUpd(net, s, v, h, {});
    assert Upd(Advance(s, u, v), v, h).flows == Advance(s, u, v).flows by { AdvanceFlows(s, u, v); }
  }

  lemma AdvanceFlows(s: Flood, u: Uuid, v: Uuid)
    ensures Advance(s, u, v).flows == s.flows
  {
  }

  lemma AcceptPays(net: Net, s: Flood, u: Uuid, v: Uuid, h: HubState)
    requires FineAt(net, s, v, h, {}) && CanTake(net, s, u, v) && Front(s, u, v).Id() !in Has(s, v)
    requires FineAt(net, AcceptStep(net, s, u, v), v, Accept(h, Front(s, u, v)), Outstanding(Front(s, u, v)))
    requires !Process(Accept(h, Front(s, u, v)), Front(s, u, v)).wrapped
    ensures var m := Front(s, u, v);
            var h1 := Accept(h, m);
            var wire := if m.body.Ack? then h1 else Post(h1, AckMessage(h1, m.Id()));
            && Debt(net, Upd(Advance(s, u, v), v, wire)) < Debt(net, s)
            && NothingSaid(s, Upd(Advance(s, u, v), v, wire))
  {
    hide FineAt, NetFine, Genuine, Process, Has, CopyFine, Debt, AcceptStep, PostStep, NothingSaid, Post,
         PredecessorTime, Constructed, Knowing, LatestConfig, LatestConfigId, EntriesFine, Keyed, AckMessage;
    var m := Front(s, u, v);
    var h1, s1 := Accept(h, m), AcceptStep(net, s, u, v);
    FineNet(net, s, v, h, {});
    FineMember(net, s, v, h, {});
    NetLinkCopies(net, s, u, v);
    CopyShape(net, s, v, m);
    AcceptFine(net, s, u, v, h);
    AcceptSaysNothing(net, s, u, v);
    if m.body.Ack? {
      AcceptedAckPays(net, s, u, v);
    } else {
      var a := AckMessage(h1, m.Id());
      AckPosted(net, s1, v, h1, m);
      UpdUpd(Advance(s, u, v), v, h1, Post(h1, a));
      AcceptedDataPays(net, s, u, v, a);
      AckSaysNothing(net, s, s1, v, a);
    }
  }

  lemma AckPosted(net: Net, s: Flood, v: Uuid, h: HubState, m: Message)
    requires FineAt(net, s, v, h, Outstanding(m)) && m.body.UserData? && m.ts <= h.clock && !Process(h, m).wrapped
    ensures var a := AckMessage(h, m.Id());
            a.body.Ack? && CanPost(s, v, a) && Upd(s, v, Post(h, a)) == PostStep(net, s, v, a)
  {
    hide FineAt, ApplyAck, InsertEntry, PredecessorTime, LatestConfig, LatestConfigId, Post, PostedShape, Knowing,
         EntriesFine, Keyed;
    var a := AckMessage(h, m.Id());
    FineKnows(net, s, v, h, Outstanding(m));
    MemberFlow(net, s, v, h, Outstanding(m));
    AckShape(net, v, h, m.Id());
    PostFine(net, s, v, h, a, Outstanding(m));
    NotWrapped(net, s, v, h, Outstanding(m));
  }

  // ----- runs

  /** The next message of a link is delivered, and the callbacks this makes broadcast nothing. */
  function Deliver(u: Uuid, v: Uuid): Move {
    Move(Act.Deliver(u, v), [])
  }

  ghost predicate OnlyDeliveries(moves: seq<Move>) {
    forall m <- moves :: m.act.Deliver? && m.script == []
  }

  /** Whatever is delivered next, less remains to be done than before. */
  lemma DeliveryPays(net: Net, sys: System, u: Uuid, v: Uuid)
    requires SysInv(net, sys) && CanTake(net, Project(sys), u, v)
    requires !Overflowed(StaticRuns.Next(net, sys, Deliver(u, v)))
    ensures var s, s' := Project(sys), Project(StaticRuns.Next(net, sys, Deliver(u, v)));
            Debt(net, s') < Debt(net, s) && NothingSaid(s, s')
  {
    hide FineAt, AllDelivered, OnRecv, Debt, NothingSaid;
    var s, sys' := Project(sys), StaticRuns.Next(net, sys, Deliver(u, v));
    var h := sys.hubs[v].(script := []);
    assert FineAt(net, s, v, sys.hubs[v], {});
    ScriptFine(net, s, v, sys.hubs[v], {}, []);
    assert !sys'.hubs[v].wrapped;
    HearPays(net, s, u, v, h);
    ProjectPut(sys, v, sys'.hubs[v]);
    assert Project(sys') == Upd(Advance(s, u, v), v, sys'.hubs[v]);
  }

  lemma SomethingUnderWay(net: Net, sys: System) returns (u: Uuid, v: Uuid)
    requires SysInv(net, sys) && net.members != {} && !Drained(net, Project(sys))
    ensures CanTake(net, Project(sys), u, v)
  {
    hide AllDelivered, Fine, Shapes, PostedFine, CopiesFine, Covered, Ordered, ReceiptsFine, ReceiptsOrdered;
    var s := Project(sys);
    SomeMember(net, sys);
    var l :| l in net.links && Taken(s, l.0, l.1) != |Queue(s, l.0, l.1)|;
    assert Arrived(s, l.0, l.1);
    LinkMembers(net, l);
    u, v := l.0, l.1;
    assert l == (u, v);
  }

  ghost predicate AtRest(net: Net, start: System, moves: seq<Move>) {
    Overflowed(RunFrom(net, start, moves)) || Drained(net, Project(RunFrom(net, start, moves)))
  }

  ghost predicate Silence(net: Net, start: System, moves: seq<Move>, more: seq<Move>) {
    NothingSaid(Project(RunFrom(net, start, moves)), Project(RunFrom(net, start, moves + more)))
  }

  /** Every run can be continued by deliveries alone until nothing is under way, unless a clock overflows. */
  lemma {:induction false} ComesToRest(net: Net, start: System, moves: seq<Move>) returns (more: seq<Move>)
    requires Start(net, start) && !Overflowed(RunFrom(net, start, moves))
    ensures OnlyDeliveries(more) && AtRest(net, start, moves + more)
    ensures !Overflowed(RunFrom(net, start, moves + more)) ==> Silence(net, start, moves, more)
    decreases Debt(net, Project(RunFrom(net, start, moves)))
  {
    hide Start, SysInv, Drained, RunFrom, Debt, StaticRuns.Next;
    var sys := RunFrom(net, start, moves);
    more := [];
    assert moves + more == moves;
    if !Drained(net, Project(sys)) {
      RunKeeps(net, start, moves);
      HasMembers(net, start, Project(sys));
      var u, v := SomethingUnderWay(net, sys);
      var next := moves + [Deliver(u, v)];
      RunAppend(net, start, moves, Deliver(u, v));
      more := [Deliver(u, v)];
      if !Overflowed(RunFrom(net, start, next)) {
        DeliveryPays(net, sys, u, v);
        var rest := ComesToRest(net, start, next);
        more := [Deliver(u, v)] + rest;
        assert next + rest == moves + more;
      }
    }
  }

  lemma HasMembers(net: Net, start: System, s: Flood)
    requires Start(net, start) && !Drained(net, s)
    ensures net.members != {}
  {
    hide StartHub, IsIn;
    var l :| l in net.links && Taken(s, l.0, l.1) != |Queue(s, l.0, l.1)|;
    LinkMembers(net, l);
  }

  lemma SaidBefore(s: Flood, s': Flood, k: MessageId, data: Bytes)
    requires NothingSaid(s, s') && Says(s', k, data)
    ensures Says(s, k, data)
  {
    var p :| p in Posted(s', k.op) && p.Id() == k && p.body.UserData? && p.body.data == data;
    assert p in Posted(s, k.op);
  }

  /** What v delivered is exactly what was said in s. */
  ghost predicate DeliveredExactly(sys: System, v: Uuid, s: Flood) {
    v in sys.hubs && forall k, data :: (k, data) in StaticRuns.Deliveries(sys.hubs[v].events) <==> Says(s, k, data)
  }

  /** Nothing is ever lost: every run has a continuation by deliveries alone after which, unless a clock
      overflowed, each member that runs its commit loop has delivered exactly what anyone broadcast in the run. */
  lemma NothingIsLost(net: Net, start: System, moves: seq<Move>) returns (more: seq<Move>)
    requires Start(net, start) && !Overflowed(RunFrom(net, start, moves))
    ensures OnlyDeliveries(more)
    ensures Overflowed(RunFrom(net, start, moves + more)) ||
            forall v <- net.members ::
              DeliveredExactly(RunFrom(net, start, moves + more + [Settle(v)]), v, Project(RunFrom(net, start, moves)))
  {
    hide Start, Drained, RunFrom, DeliveredExactly, NothingSaid, Extends;
    more := ComesToRest(net, start, moves);
    if !Overflowed(RunFrom(net, start, moves + more)) {
      RunExtends(net, start, moves, more);
      forall v <- net.members
        ensures DeliveredExactly(RunFrom(net, start, moves + more + [Settle(v)]), v,
                                 Project(RunFrom(net, start, moves)))
      {
        EverythingIsDelivered(net, start, moves + more, v);
        SameWords(RunFrom(net, start, moves + more + [Settle(v)]), v, Project(RunFrom(net, start, moves)),
                  Project(RunFrom(net, start, moves + more)));
      }
    }
  }

  lemma SameWords(sys: System, v: Uuid, s: Flood, s': Flood)
    requires v in sys.hubs
    requires forall k, data :: (k, data) in StaticRuns.Deliveries(sys.hubs[v].events) <==> Says(s', k, data)
    requires Extends(s, s') && NothingSaid(s, s')
    ensures DeliveredExactly(sys, v, s)
  {
    hide Says, Extends, NothingSaid, StaticRuns.Deliveries;
    forall k, data
      ensures Says(s, k, data) <==> Says(s', k, data)
    {
      if Says(s, k, data) {
        SaysStable(s, s', k, data);
      }
      if Says(s', k, data) {
        SaidBefore(s, s', k, data);
      }
    }
  }
}
