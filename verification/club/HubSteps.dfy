/** What single steps of a hub do, in every state and every run: which predecessor a message reports, whom a hub
    answers, and what losing a peer means. */
module HubSteps {
  import opened Basics
  import opened MessageIds
  import opened Messages
  import opened Logs
  import opened Seen
  import opened Hubs
  import opened HubGrowth
  import opened HubOrder

  // ----- predecessors

  /** In every run each message that the hub constructed reports as predecessor the id that stood immediately before
      the acknowledged one in the hub's log at that time, or the default id if none did. */
  lemma {:induction false} RunReports(id: Uuid, turns: seq<Turn>)
    ensures Reports(Run(id, turns))
    decreases |turns|
  {
    hide Do, Reports;
    if turns == [] {
      assert Reports(NewHub(id)) by { NewReports(id); }
    } else {
      var init, last := turns[..|turns| - 1], turns[|turns| - 1];
      RunReports(id, init);
      var h := Run(id, init);
      DoGrows(h, last.step, last.script);
      SameReports(h, Prepared(h, last.step));
    }
  }

  lemma NewReports(id: Uuid)
    ensures Reports(NewHub(id))
  {
  }

  // ----- losing a peer

  lemma LostIsApart(h: HubState, peer: Uuid)
    ensures Connected(Prepared(h, Lose(peer))) == Connected(h) - {peer}
  {
  }

  /** The fuse that a hub posts when it loses a peer does not count the peer among its neighbours, and nothing more
      is sent to the peer, whatever is committed then and whatever the callbacks broadcast. */
  lemma LosesPeer(h: HubState, peer: Uuid, script: seq<seq<Bytes>>)
    ensures var h' := Do(h, Lose(peer), script);
            && |h.posted| < |h'.posted|
            && var m := h'.posted[|h.posted|];
            && m.body.Fuse? && m.body.with == peer && m.op == h.id
            && m.body.ack.neighbors == Connected(h) - {peer} + {h.id}
            && peer !in Connected(h') && QueueTo(h'.sent, peer) == QueueTo(h.sent, peer)
  {
    hide CommitWhatWasSeenByEveryone, Connected, InsertEntry, Broadcast, Reports, PredecessorTime, LatestConfigId;
    LostIsApart(h, peer);
    DoGrows(h, Lose(peer), script);
    var lost := Prepared(h, Lose(peer)).(script := script);
    assert Connected(lost) == Connected(Prepared(h, Lose(peer))) by { ScriptIsApart(h, peer, script); }
    var posted := PostAckable(lost, Join(peer));
    assert posted.posted == h.posted + [AckableMessage(lost, Join(peer))];
    CommitGrows(posted);
    assert Do(h, Lose(peer), script) == CommitWhatWasSeenByEveryone(posted);
  }

  lemma ScriptIsApart(h: HubState, peer: Uuid, script: seq<seq<Bytes>>)
    ensures Connected(Prepared(h, Lose(peer)).(script := script)) == Connected(Prepared(h, Lose(peer)))
  {
  }

  // ----- answering

  /** The first message the step constructed acknowledges id. */
  ghost predicate Answers(h: HubState, h': HubState, id: MessageId) {
    && |h.posted| < |h'.posted|
    && h'.posted[|h.posted|].body.Ack? && h'.posted[|h.posted|].body.ack.acked == id
  }

  lemma AckAnswers(h: HubState, id: MessageId)
    ensures PostAck(h, id).posted == h.posted + [AckMessage(h, id)]
  {
    hide ApplyAck, Broadcast;
  }

  lemma AcceptPosts(h: HubState, m: Message)
    ensures Accept(h, m).posted == h.posted && Accept(h, m).log == h.log
  {
    hide Broadcast, Insert;
  }

  /** A hub acknowledges all user data of others when it first hears it. */
  lemma DataIsAnswered(h: HubState, m: Message, script: seq<seq<Bytes>>)
    requires m.body.UserData? && m.op != h.id && !IsIn(h.seen, m.Id())
    ensures Answers(h, Do(h, Hear(m), script), m.Id())
  {
    hide CommitWhatWasSeenByEveryone, Accept, PostAck, InsertEntry, AckMessage, Reports;
    var h0 := h.(script := script);
    AcceptPosts(h0, m);
    var a := Accept(h0, m);
    AckAnswers(a, m.Id());
    assert AckMessage(a, m.Id()).body.Ack? && AckMessage(a, m.Id()).body.ack.acked == m.Id() by { AckIs(a, m.Id()); }
    var h1 := Process(a, m);
    assert h1.posted == h.posted + [AckMessage(a, m.Id())];
    CommitGrows(h1);
  }

  lemma AckIs(h: HubState, id: MessageId)
    ensures AckMessage(h, id).body.Ack? && AckMessage(h, id).body.ack.acked == id
  {
  }

  ghost predicate AnyGreaterFuse(l: LogState, id: MessageId) {
    exists k <- l.entries.Keys :: l.entries[k].message.body.Fuse? && id.Lt(k)
  }

  lemma InsertKeepsFuses(l: LogState, m: Message)
    requires m.body.Fuse? && !m.Id().Le(l.lastCommitted)
    ensures forall k <- l.entries.Keys ::
              InsertEntry(l, m).entries[k].message.body.Fuse? <==> l.entries[k].message.body.Fuse?
  {
  }

  lemma GreatestFuseIff(h: HubState, m: Message)
    requires m.body.Fuse?
    ensures var fuses := FuseIds(AddLogEntry(h, m).log);
            (fuses == {} || MaxOf(fuses).Le(m.Id())) <==> !AnyGreaterFuse(h.log, m.Id())
  {
    hide InsertEntry;
    var l := AddLogEntry(h, m).log;
    var fuses := FuseIds(l);
    if !m.Id().Le(h.log.lastCommitted) {
      InsertKeepsFuses(h.log, m);
    }
    if AnyGreaterFuse(h.log, m.Id()) {
      var k :| k in h.log.entries && h.log.entries[k].message.body.Fuse? && m.Id().Lt(k);
      assert k in fuses;
    } else if fuses != {} {
      var k := MaxOf(fuses);
      assert k in h.log.entries || k == m.Id();
    }
  }

  /** A hub that first hears a fuse acknowledges it if and only if its log holds no greater one. */
  lemma FuseIsAnsweredIff(h: HubState, m: Message, script: seq<seq<Bytes>>)
    requires m.body.Fuse? && m.op != h.id && !IsIn(h.seen, m.Id())
    ensures Answers(h, Do(h, Hear(m), script), m.Id()) <==> !AnyGreaterFuse(h.log, m.Id())
  {
    hide CommitWhatWasSeenByEveryone, Accept, PostAck, InsertEntry, AckMessage, Reports, FuseIds, AnyGreaterFuse;
    var h0 := h.(script := script);
    AcceptPosts(h0, m);
    var a := Accept(h0, m);
    GreatestFuseIff(a, m);
    var l := AddLogEntry(a, m);
    AckAnswers(l, m.Id());
    AckIs(l, m.Id());
    if !AnyGreaterFuse(h.log, m.Id()) {
      CommitGrows(PostAck(l, m.Id()));
    }
    CommitGrows(Process(a, m));
  }
}
