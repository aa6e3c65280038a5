/** What the commit loop achieves: a fuse acknowledged by its quorum is installed, with everything before it, as soon
    as those of the quorum acknowledged what is before it. The others no longer count, and that is how a hub goes on
    after a peer has failed. */
module FuseCommits {
  import opened Basics
  import opened MessageIds
  import opened Messages
  import opened Logs
  import opened Seen
  import opened Hubs
  import opened HubOrder

  /** The greatest fuse that everybody of its quorum acknowledged. */
  ghost predicate GreatestAcked(l: LogState, k: MessageId) {
    && k in l.entries && l.entries[k].message.body.Fuse? && l.entries[k].quorum <= l.entries[k].acks.Keys
    && forall x <- l.entries.Keys ::
         l.entries[x].message.body.Fuse? && l.entries[x].quorum <= l.entries[x].acks.Keys ==> x.Le(k)
  }

  ghost predicate NoneAcked(l: LogState) {
    forall x <- l.entries.Keys :: l.entries[x].message.body.Fuse? ==> !(l.entries[x].quorum <= l.entries[x].acks.Keys)
  }

  /** Everyone of its quorum who is in q acknowledged the entry. */
  ghost predicate AckedWithin(e: LogEntry, q: set<Uuid>) {
    forall u <- e.quorum :: u in q ==> u in e.acks
  }

  /** Whatever was reported to stand before the entry x is consumed or in the log before x. */
  ghost predicate Unblocked(l: LogState, x: MessageId)
    requires x in l.entries
  {
    forall p <- l.entries[x].predecessors :: p.Le(l.lastCommitted) || (p in l.entries && p.Lt(x))
  }

  /** Up to k user data is acknowledged within q, and what is to be committed is not blocked. */
  ghost predicate Ready(l: LogState, k: MessageId, q: set<Uuid>) {
    forall x <- l.entries.Keys :: x.Le(k) ==>
        && (l.entries[x].message.body.UserData? ==> AckedWithin(l.entries[x], q))
        && (AckedWithin(l.entries[x], q) ==> Unblocked(l, x))
  }

  /** Who left the configuration c is forgotten. */
  ghost predicate Gone(c: set<Uuid>, h: HubState) {
    forall x <- c :: x !in LatestConfig(h) ==> x !in h.nodes && x !in h.seen
  }

  // ----- what stays as it is

  /** The entries of l are in l', as they were. */
  ghost predicate Keeps(l: LogState, l': LogState) {
    && l'.lastCommitted == l.lastCommitted
    && forall y <- l.entries.Keys :: y in l'.entries && l'.entries[y] == l.entries[y]
  }

  lemma InsertOnTop(l: LogState, m: Message)
    requires m.Id() !in l.entries && m.body.ack.acked == m.Id() && forall y <- l.entries.Keys :: y.Lt(m.Id())
    ensures Keeps(l, InsertEntry(l, m))
  {
    assert Above(l.entries.Keys, m.Id()) == {};
  }

  lemma PostKeepsEntries(h: HubState, r: Request)
    requires Sound(h) && !PostAckable(h, r).wrapped
    ensures Keeps(h.log, PostAckable(h, r).log)
  {
    hide InsertEntry, Valid, ConsumedOk, DeliveredOk, PostedOk, ConfigsOk, Broadcast, PredecessorTime;
    InsertOnTop(h.log, AckableMessage(h, r));
  }

  lemma {:induction false} PostAllKeepsEntries(h: HubState, payloads: seq<Bytes>)
    requires Sound(h) && !PostAll(h, payloads).wrapped
    ensures Keeps(h.log, PostAll(h, payloads).log)
    decreases |payloads|
  {
    hide Sound, PostAckable;
    if payloads != [] {
      var h1 := PostAckable(h, Say(payloads[0]));
      PostAckableKeeps(h, Say(payloads[0]));
      PostKeepsEntries(h, Say(payloads[0]));
      PostAllKeepsEntries(h1, payloads[1..]);
    }
  }

  lemma CallbackKeepsEntries(h: HubState, e: Event)
    requires Sound(h) && EventOk(h, e) && !Callback(h, e).wrapped
    ensures Keeps(h.log, Callback(h, e).log)
  {
    hide Valid, StampsOk, ConsumedOk, DeliveredOk, PostedOk, ConfigsOk, PostAll, EventOk, Work;
    EventKeeps(h, e);
    if h.script != [] {
      PostAllKeepsEntries(h.(events := h.events + [e], script := h.script[1..]), h.script[0]);
    }
  }

  lemma ReportKeepsEntries(h: HubState, e: Event)
    requires Sound(h) && (e.Inserted? || e.Removed?) && !Report(h, e).wrapped
    ensures Keeps(h.log, Report(h, e).log)
  {
    hide Sound, Callback, Work;
    if e.ids != {} {
      CallbackKeepsEntries(h, e);
    }
  }

  lemma CommitFuseKeepsEntries(h: HubState, e: LogEntry)
    requires Sound(h) && MembershipOk(h) && !h.wrapped && Fresh(h, e) && !CommitFuse(h, e).wrapped
    ensures Keeps(h.log, CommitFuse(h, e).log)
  {
    hide Sound, Fresh, Membership, Report, Work;
    if e.AckedByQuorum() {
      var i := Installed(h, e);
      var added, removed := Inserted(e.quorum - LatestConfig(h)), Removed(LatestConfig(h) - e.quorum);
      InstalledKeeps(h, e);
      ReportKeeps(i, added);
      ReportKeepsEntries(i, added);
      ReportKeepsEntries(Report(i, added), removed);
    }
  }

  /** The log without the entry x. */
  function Without(l: LogState, x: MessageId): LogState {
    l.(entries := l.entries - {x}, lastCommitted := x)
  }

  lemma KeepsMeans(l: LogState, l': LogState, m: LogState)
    requires Keeps(l, l') && m.entries == l.entries && m.lastCommitted == l.lastCommitted
    ensures Keeps(m, l')
  {
  }

  lemma CommitKeepsEntries(h: HubState, x: MessageId)
    requires Sound(h) && MembershipOk(h) && IsMin(h.log.entries.Keys, x) && !h.log.entries[x].message.body.Ack?
    requires !CommitEntry(h, x).wrapped
    ensures Keeps(Without(h.log, x), CommitEntry(h, x).log)
  {
    hide Chained, AllClosed, PendingOk, PostedOk, ConsumedOk, DeliveredIds, CommitFuse, Callback, Membership, Work,
         Keeps;
    var e, d := h.log.entries[x], Departed(h, x);
    DepartedKeeps(h, x);
    if e.message.body.Fuse? {
      DepartedFuse(h, x);
      CommitFuseKeepsEntries(d, e);
    } else if e.message.op in d.nodes {
      CallbackKeepsEntries(d, Delivered(e.message.Id(), e.message.body.data));
    } else {
      KeepsNothing(d.log);
    }
    KeepsMeans(d.log, CommitEntry(h, x).log, Without(h.log, x));
  }

  lemma KeepsNothing(l: LogState)
    ensures Keeps(l, l)
  {
  }

  // ----- configurations and what is consumed

  /** Callbacks touch none of these. */
  ghost predicate SameView(h: HubState, h': HubState) {
    h'.configs == h.configs && h'.nodes == h.nodes && h'.seen == h.seen && h'.consumed == h.consumed
  }

  lemma ReportConfig(h: HubState, e: Event)
    requires e.Inserted? || e.Removed?
    ensures SameView(h, Report(h, e))
  {
    hide Callback, Work;
  }

  lemma CommitFuseConfig(h: HubState, e: LogEntry)
    ensures SameView(if e.AckedByQuorum() then Installed(h, e) else h, CommitFuse(h, e))
  {
    hide Report, Installed, LatestConfig, Work;
    if e.AckedByQuorum() {
      var i := Installed(h, e);
      var added, removed := Inserted(e.quorum - LatestConfig(h)), Removed(LatestConfig(h) - e.quorum);
      ReportConfig(i, added);
      ReportConfig(Report(i, added), removed);
    }
  }

  lemma CommitDataConfig(h: HubState, m: Message)
    requires m.body.UserData?
    ensures SameView(h, CommitUserData(h, m))
  {
    hide Callback, Work;
  }

  lemma CommitEntryConfig(h: HubState, x: MessageId)
    requires x in h.log.entries && !h.log.entries[x].message.body.Ack?
    ensures var e, d, h' := h.log.entries[x], Departed(h, x), CommitEntry(h, x);
            SameView(if e.message.body.Fuse? && e.AckedByQuorum() then Installed(d, e) else d, h')
  {
    hide CommitFuse, CommitUserData, Installed, Departed, Work;
    var e := h.log.entries[x];
    if e.message.body.Fuse? {
      CommitFuseConfig(Departed(h, x), e);
    } else {
      CommitDataConfig(Departed(h, x), e.message);
    }
  }

  lemma DepartedConfig(h: HubState, x: MessageId)
    requires x in h.log.entries
    ensures var d := Departed(h, x);
            && d.configs == h.configs && d.nodes == h.nodes && d.seen.Keys == h.seen.Keys
            && d.consumed == h.consumed + [x]
  {
    hide Work;
  }

  lemma CommitEntryConsumes(h: HubState, x: MessageId)
    requires x in h.log.entries && !h.log.entries[x].message.body.Ack?
    ensures CommitEntry(h, x).consumed == h.consumed + [x]
  {
    hide CommitEntry, Departed, Work, AcksToGraph, LatestConfig;
    CommitEntryConfig(h, x);
    DepartedConfig(h, x);
  }

  lemma SameConfig(h: HubState, h': HubState)
    requires h'.configs == h.configs
    ensures LatestConfig(h') == LatestConfig(h)
  {
  }

  lemma {:induction false} LoopAppends(h: HubState, cursor: Option<MessageId>, lastFuse: Option<MessageId>,
                                       live: set<Uuid>)
    ensures h.consumed <= Loop(h, cursor, lastFuse, live).consumed
    decreases Work(h)
  {
    hide Work, CommitEntry, Judge, Next;
    if cursor.Some? && cursor.value in h.log.entries && !h.log.entries[cursor.value].message.body.Ack? {
      var k := cursor.value;
      var next := Next(h.log.entries.Keys, k);
      match Judge(h, k, lastFuse, live)
      case Stop =>
      case Discard =>
        LoopAppends(TakeOut(h, k), next, lastFuse, live);
      case Commit =>
        CommitEntryConsumes(h, k);
        LoopAppends(CommitEntry(h, k), next, if lastFuse == Some(k) then None else lastFuse, live);
    }
  }

  /** Without a fuse to commit the loop commits user data only, and the configuration stays. */
  lemma {:induction false} LoopKeepsConfig(h: HubState, cursor: Option<MessageId>, live: set<Uuid>)
    ensures var h' := Loop(h, cursor, None, live);
            h'.configs == h.configs && h'.nodes == h.nodes && h'.seen.Keys == h.seen.Keys
    decreases Work(h)
  {
    hide Work, CommitEntry, Departed, Next, Blocked;
    if cursor.Some? && cursor.value in h.log.entries && !h.log.entries[cursor.value].message.body.Ack? {
      var k := cursor.value;
      if Judge(h, k, None, live).Commit? {
        CommitEntryConfig(h, k);
        DepartedConfig(h, k);
        LoopKeepsConfig(CommitEntry(h, k), Next(h.log.entries.Keys, k), live);
      }
    }
  }

  // ----- up to the fuse

  /** Nothing up to the entry k stands in the way. */
  ghost predicate Going(h: HubState, k: MessageId, q: set<Uuid>) {
    Sound(h) && MembershipOk(h) && !h.wrapped && k in h.log.entries && Ready(h.log, k, q)
  }

  ghost predicate Heading(h: HubState, k: MessageId, q: set<Uuid>) {
    && Going(h, k, q) && h.log.entries[k].message.body.Fuse? && h.log.entries[k].AckedByQuorum()
    && h.log.entries[k].quorum == q
  }

  lemma NotBlocked(h: HubState, x: MessageId)
    requires Sound(h) && IsMin(h.log.entries.Keys, x) && Unblocked(h.log, x)
    ensures !Blocked(h, h.log.entries[x])
  {
    hide Sound, Blocked;
    GuardMeaning(h, x);
  }

  /** The front entry does not hold the loop up. */
  lemma GoesOn(h: HubState, x: MessageId, k: MessageId, q: set<Uuid>)
    requires Heading(h, k, q) && IsMin(h.log.entries.Keys, x) && !h.log.entries[x].message.body.Ack?
    ensures !Judge(h, x, Some(k), q).Stop? && (x == k ==> Judge(h, x, Some(k), q).Commit?)
  {
    hide Sound, MembershipOk, Blocked, Unblocked;
    assert x.Le(k);
    var e := h.log.entries[x];
    assert e.AckedByAlive(q) <==> AckedWithin(e, q);
    assert x == k ==> AckedWithin(e, q);
    if AckedWithin(e, q) {
      NotBlocked(h, x);
    }
  }

  lemma ReadyAfter(l: LogState, x: MessageId, l': LogState, k: MessageId, q: set<Uuid>)
    requires Ready(l, k, q) && IsMin(l.entries.Keys, x) && x.Lt(k) && l.lastCommitted.Lt(x)
    requires Keeps(Without(l, x), l') && forall y <- l'.entries.Keys :: y.Le(k) ==> y in l.entries && y != x
    ensures Ready(l', k, q)
  {
    hide AckedWithin;
    forall y <- l'.entries.Keys | y.Le(k)
      ensures l'.entries[y] == l.entries[y] && (Unblocked(l, y) ==> Unblocked(l', y))
    {
      assert y in Without(l, x).entries;
      if Unblocked(l, y) {
        forall p <- l'.entries[y].predecessors
          ensures p.Le(l'.lastCommitted) || (p in l'.entries && p.Lt(y))
        {
          if !p.Le(l.lastCommitted) && p != x {
            assert p in Without(l, x).entries;
          }
        }
      }
    }
  }

  /** After the front entry is gone, the rest is as it was. */
  lemma GoingAfter(h: HubState, x: MessageId, h1: HubState, k: MessageId, q: set<Uuid>)
    requires Going(h, k, q) && IsMin(h.log.entries.Keys, x) && x != k
    requires Keeps(Without(h.log, x), h1.log) && Sound(h1) && MembershipOk(h1) && !h1.wrapped
    requires Grown(h.clock, Without(h.log, x).(lastFuseCommit := h1.log.lastFuseCommit), h1.log)
    ensures Going(h1, k, q) && h1.log.entries[k] == h.log.entries[k]
  {
    hide PostedOk, ConsumedOk, DeliveredOk, ConfigsOk, Chained, AllClosed, PendingOk, Membership, Unblocked,
         AckedWithin, Ready;
    assert k in Without(h.log, x).entries;
    ReadyAfter(h.log, x, h1.log, k, q);
  }

  lemma GoneAfter(c: set<Uuid>, h: HubState, x: MessageId)
    requires Sound(h) && Gone(c, h) && IsMin(h.log.entries.Keys, x) && !h.log.entries[x].message.body.Ack?
    ensures Gone(c, CommitEntry(h, x))
  {
    hide Sound, CommitEntry, Departed, Work, AcksToGraph, LatestConfig;
    var e, d, h' := h.log.entries[x], Departed(h, x), CommitEntry(h, x);
    CommitEntryConfig(h, x);
    DepartedConfig(h, x);
    SameConfig(h, d);
    if e.message.body.Fuse? && e.AckedByQuorum() {
      DepartedKeeps(h, x);
      DepartedFuse(h, x);
      InstalledKeeps(d, e);
      SameConfig(Installed(d, e), h');
    } else {
      SameConfig(d, h');
    }
  }

  /** What committing the fuse k brings. */
  ghost predicate Achieved(h: HubState, h': HubState, k: MessageId, q: set<Uuid>, c: set<Uuid>) {
    && (forall y <- h.log.entries.Keys :: y.Le(k) ==> y in h'.consumed)
    && LatestConfig(h') == q && Gone(c, h')
  }

  lemma FuseInstalled(h: HubState, k: MessageId, q: set<Uuid>, next: Option<MessageId>, c: set<Uuid>)
    requires Heading(h, k, q) && IsMin(h.log.entries.Keys, k) && Gone(c, h)
    ensures Achieved(h, Loop(CommitEntry(h, k), next, None, q), k, q, c)
  {
    hide Sound, CommitEntry, Departed, Loop, Work, AcksToGraph, Ready, LatestConfig, MembershipOk;
    var e, d, h1 := h.log.entries[k], Departed(h, k), CommitEntry(h, k);
    CommitEntryConfig(h, k);
    CommitEntryConsumes(h, k);
    DepartedKeeps(h, k);
    DepartedFuse(h, k);
    InstalledKeeps(d, e);
    SameConfig(Installed(d, e), h1);
    GoneAfter(c, h, k);
    var h' := Loop(h1, next, None, q);
    LoopAppends(h1, next, None, q);
    LoopKeepsConfig(h1, next, q);
    SameConfig(h1, h');
    assert h1.consumed[|h.consumed|] == k && k in h1.consumed;
  }

  lemma {:induction false} LoopReaches(h: HubState, cursor: Option<MessageId>, k: MessageId, q: set<Uuid>,
                                       c: set<Uuid>)
    requires Heading(h, k, q) && cursor.Some? && IsMin(h.log.entries.Keys, cursor.value) && Gone(c, h)
    ensures var h' := Loop(h, cursor, Some(k), q);
            h'.wrapped || Achieved(h, h', k, q, c)
    decreases Work(h)
  {
    hide Sound, MembershipOk, Ready, Work, CommitEntry, Judge, Gone, LatestConfig, Next, TakeOut;
    var x, h' := cursor.value, Loop(h, cursor, Some(k), q);
    NotAnAck(h, x);
    GoesOn(h, x, k, q);
    var next := Next(h.log.entries.Keys, x);
    if x == k {
      FuseInstalled(h, k, q, next, c);
    } else {
      assert next.Some? by { SomeAbove(h.log.entries.Keys, x, k); }
      var h1 := if Judge(h, x, Some(k), q).Commit? then CommitEntry(h, x) else TakeOut(h, x);
      if !h1.wrapped {
        OneGone(h, x, h1, k, q, c);
        LoopReaches(h1, next, k, q, c);
        LoopAppends(h1, next, Some(k), q);
        StepAchieves(h, x, h1, h', k, q, c);
      }
    }
  }

  lemma NotAnAck(h: HubState, x: MessageId)
    requires Sound(h) && x in h.log.entries
    ensures !h.log.entries[x].message.body.Ack?
  {
    hide PostedOk, ConsumedOk, DeliveredOk, ConfigsOk, Chained, AllClosed, PendingOk;
  }

  lemma SomeAbove(s: set<MessageId>, x: MessageId, k: MessageId)
    requires IsMin(s, x) && k in s && x != k
    ensures Next(s, x).Some?
  {
  }

  lemma TakeOutIs(h: HubState, x: MessageId)
    ensures var t := TakeOut(h, x);
            && t.log == Without(h.log, x) && t.consumed == h.consumed + [x] && t.configs == h.configs
            && t.nodes == h.nodes && t.seen == h.seen && t.wrapped == h.wrapped && t.clock == h.clock
            && t.events == h.events && t.id == h.id && t.routing == h.routing
  {
    hide Work;
  }

  /** One entry before the fuse is consumed. */
  lemma OneGone(h: HubState, x: MessageId, h1: HubState, k: MessageId, q: set<Uuid>, c: set<Uuid>)
    requires Going(h, k, q) && IsMin(h.log.entries.Keys, x) && x != k && x.Le(k) && Gone(c, h) && !h1.wrapped
    requires h1 == TakeOut(h, x) || (!h.log.entries[x].message.body.Ack? && h1 == CommitEntry(h, x))
    ensures Going(h1, k, q) && h1.log.entries[k] == h.log.entries[k] && Gone(c, h1)
    ensures AtFront(h1, Next(h.log.entries.Keys, x))
    ensures x in h1.consumed && forall y <- h.log.entries.Keys :: y != x ==> y in h1.log.entries
  {
    hide Sound, MembershipOk, Ready, Work, CommitEntry, Gone, LatestConfig, TakeOut, Next, Membership;
    if h1 == TakeOut(h, x) {
      TakeOutIs(h, x);
      TakeOutKeeps(h, x);
      SameMembership(h, h1);
      SameConfig(h, h1);
      SameGone(c, h, h1);
      KeepsNothing(h1.log);
      GrownNot(h.clock, h1.log);
    } else {
      CommitEntryKeeps(h, x);
      CommitKeepsEntries(h, x);
      CommitEntryConsumes(h, x);
      GoneAfter(c, h, x);
      DepartedGrown(h, x, h1);
    }
    GoingAfter(h, x, h1, k, q);
    FrontAfter(h, x, h1);
    assert h1.consumed[|h.consumed|] == x;
    assert forall y <- h.log.entries.Keys :: y != x ==> y in Without(h.log, x).entries;
  }

  lemma GrownNot(clock: nat, l: LogState)
    ensures Grown(clock, l.(lastFuseCommit := l.lastFuseCommit), l)
  {
  }

  lemma SameMembership(h: HubState, h': HubState)
    requires MembershipOk(h) && h'.events == h.events && h'.configs == h.configs && h'.routing == h.routing
    requires h'.id == h.id
    ensures MembershipOk(h')
  {
    hide Membership;
  }

  lemma SameGone(c: set<Uuid>, h: HubState, h': HubState)
    requires Gone(c, h) && h'.nodes == h.nodes && h'.seen == h.seen && h'.configs == h.configs
    ensures Gone(c, h')
  {
    hide LatestConfig;
    SameConfig(h, h');
  }

  lemma DepartedGrown(h: HubState, x: MessageId, h1: HubState)
    requires x in h.log.entries && Grown(h.clock, Departed(h, x).log, h1.log)
    ensures Grown(h.clock, Without(h.log, x).(lastFuseCommit := h1.log.lastFuseCommit), h1.log)
  {
    hide Work;
  }

  lemma FrontAfter(h: HubState, x: MessageId, h1: HubState)
    requires Sound(h) && IsMin(h.log.entries.Keys, x)
    requires Grown(h.clock, Without(h.log, x).(lastFuseCommit := h1.log.lastFuseCommit), h1.log)
    ensures AtFront(h1, Next(h.log.entries.Keys, x))
  {
    hide PostedOk, ConsumedOk, DeliveredOk, ConfigsOk, Valid, Next;
    NextIsFront(h, x, h1);
  }

  lemma StepAchieves(h: HubState, x: MessageId, h1: HubState, h': HubState, k: MessageId, q: set<Uuid>, c: set<Uuid>)
    requires h'.wrapped || Achieved(h1, h', k, q, c)
    requires x in h1.consumed && (forall y <- h.log.entries.Keys :: y != x ==> y in h1.log.entries)
    requires h1.consumed <= h'.consumed
    ensures h'.wrapped || Achieved(h, h', k, q, c)
  {
    hide Gone, LatestConfig;
  }

  // ----- user data alone

  /** Up to the entry x there is only user data. */
  ghost predicate OnlyDataUpTo(l: LogState, x: MessageId) {
    forall y <- l.entries.Keys :: y.Le(x) ==> l.entries[y].message.body.UserData?
  }

  lemma DataGoesOn(h: HubState, x: MessageId, k: MessageId, q: set<Uuid>)
    requires Going(h, k, q) && OnlyDataUpTo(h.log, k) && IsMin(h.log.entries.Keys, x)
    ensures Judge(h, x, None, q).Commit?
  {
    hide Sound, MembershipOk, Blocked, Unblocked;
    assert x.Le(k);
    NotBlocked(h, x);
    assert h.log.entries[x].AckedByAlive(q);
  }

  lemma {:induction false} LoopReachesData(h: HubState, cursor: Option<MessageId>, k: MessageId, q: set<Uuid>)
    requires Going(h, k, q) && OnlyDataUpTo(h.log, k) && cursor.Some? && IsMin(h.log.entries.Keys, cursor.value)
    ensures var h' := Loop(h, cursor, None, q);
            h'.wrapped || forall y <- h.log.entries.Keys :: y.Le(k) ==> y in h'.consumed
    decreases Work(h)
  {
    hide Sound, MembershipOk, Ready, Work, CommitEntry, Judge, Gone, LatestConfig, Next;
    var x, h' := cursor.value, Loop(h, cursor, None, q);
    NotAnAck(h, x);
    DataGoesOn(h, x, k, q);
    var next, h1 := Next(h.log.entries.Keys, x), CommitEntry(h, x);
    CommitEntryConsumes(h, x);
    LoopAppends(h1, next, None, q);
    assert h1.consumed[|h.consumed|] == x && x in h1.consumed;
    if x != k && !h1.wrapped {
      assert next.Some? by { SomeAbove(h.log.entries.Keys, x, k); }
      assert Gone({}, h) by { NobodyGone(h); }
      OneGone(h, x, h1, k, q, {});
      DataAfter(h, x, h1, k);
      LoopReachesData(h1, next, k, q);
    }
  }

  lemma NobodyGone(h: HubState)
    ensures Gone({}, h)
  {
  }

  lemma DataAfter(h: HubState, x: MessageId, h1: HubState, k: MessageId)
    requires Sound(h) && MembershipOk(h) && IsMin(h.log.entries.Keys, x) && !h.log.entries[x].message.body.Ack?
    requires h1 == CommitEntry(h, x) && !h1.wrapped && OnlyDataUpTo(h.log, k) && k in h.log.entries
    ensures OnlyDataUpTo(h1.log, k)
  {
    hide PostedOk, ConsumedOk, DeliveredOk, ConfigsOk, Chained, AllClosed, PendingOk, Membership, CommitEntry, Work;
    CommitKeepsEntries(h, x);
    CommitEntryKeeps(h, x);
    DepartedGrown(h, x, h1);
    forall y <- h1.log.entries.Keys | y.Le(k)
      ensures y in Without(h.log, x).entries && h1.log.entries[y] == h.log.entries[y]
    {
      assert k.ts <= h.clock;
    }
  }

  // ----- what holds the loop up

  /** User data that somebody alive did not acknowledge, or a fuse above the one to commit. */
  ghost predicate Halts(e: LogEntry, x: MessageId, lastFuse: Option<MessageId>, live: set<Uuid>) {
    || (e.message.body.UserData? && !AckedWithin(e, live))
    || (e.message.body.Fuse? && (lastFuse.None? || lastFuse.value.Lt(x)))
  }

  lemma HaltsMeans(h: HubState, x: MessageId, lastFuse: Option<MessageId>, live: set<Uuid>)
    requires x in h.log.entries && Halts(h.log.entries[x], x, lastFuse, live)
    ensures Judge(h, x, lastFuse, live).Stop?
  {
    hide Blocked;
    assert h.log.entries[x].AckedByAlive(live) <==> AckedWithin(h.log.entries[x], live);
  }

  lemma {:induction false} LoopStays(h: HubState, cursor: Option<MessageId>, lastFuse: Option<MessageId>,
                                     live: set<Uuid>, x: MessageId)
    requires Sound(h) && MembershipOk(h) && !h.wrapped && AtFront(h, cursor)
    requires x in h.log.entries && Halts(h.log.entries[x], x, lastFuse, live)
    ensures var h' := Loop(h, cursor, lastFuse, live);
            h'.wrapped || forall y <- h.log.entries.Keys :: x.Le(y) ==> y in h'.log.entries
    decreases Work(h)
  {
    hide Sound, MembershipOk, Work, CommitEntry, Judge, Next, TakeOut, AckedWithin;
    if cursor.Some? && !h.log.entries[cursor.value].message.body.Ack? {
      var z := cursor.value;
      var next := Next(h.log.entries.Keys, z);
      if z == x {
        HaltsMeans(h, x, lastFuse, live);
      } else if !Judge(h, z, lastFuse, live).Stop? {
        var h1 := if Judge(h, z, lastFuse, live).Commit? then CommitEntry(h, z) else TakeOut(h, z);
        if !h1.wrapped {
          OthersStay(h, z, h1);
          var later := if Judge(h, z, lastFuse, live).Commit? && lastFuse == Some(z) then None else lastFuse;
          LoopStays(h1, next, later, live, x);
        }
      }
    }
  }

  lemma OthersStay(h: HubState, x: MessageId, h1: HubState)
    requires Sound(h) && MembershipOk(h) && !h.wrapped && IsMin(h.log.entries.Keys, x) && !h1.wrapped
    requires h1 == TakeOut(h, x) || (!h.log.entries[x].message.body.Ack? && h1 == CommitEntry(h, x))
    ensures Sound(h1) && MembershipOk(h1) && AtFront(h1, Next(h.log.entries.Keys, x))
    ensures forall y <- h.log.entries.Keys :: y != x ==> y in h1.log.entries && h1.log.entries[y] == h.log.entries[y]
  {
    hide Sound, MembershipOk, Work, CommitEntry, TakeOut, Next, Membership;
    if h1 == TakeOut(h, x) {
      TakeOutIs(h, x);
      TakeOutKeeps(h, x);
      SameMembership(h, h1);
      KeepsNothing(h1.log);
      GrownNot(h.clock, h1.log);
    } else {
      CommitEntryKeeps(h, x);
      CommitKeepsEntries(h, x);
      DepartedGrown(h, x, h1);
    }
    FrontAfter(h, x, h1);
    assert forall y <- h.log.entries.Keys :: y != x ==> y in Without(h.log, x).entries;
  }

  /** What was committed up to k counts as seen: late copies of anything up to its time, by posters that are still
      known, are dropped. */
  lemma CommittedIsSeen(h: HubState, k: MessageId, x: MessageId)
    requires k in h.log.entries && !h.log.entries[k].message.body.Ack? && x.op in h.seen && x.ts <= k.ts
    ensures var h' := CommitEntry(h, k);
            x.op in h'.seen ==> IsIn(h'.seen, x)
  {
    hide CommitEntry, Work, AcksToGraph, LatestConfig, SeenEverythingUpTo, IsIn;
    CommitEntryConfig(h, k);
    CompactionDenotes(h.seen, k, x);
    var d, e := Departed(h, k), h.log.entries[k];
    if e.message.body.Fuse? && e.AckedByQuorum() {
      var removed := LatestConfig(d) - e.quorum;
      if x.op !in removed {
        StillSeen(d.seen, removed, x);
      }
    }
  }

  lemma StillSeen(s: SeenState, removed: set<Uuid>, x: MessageId)
    requires IsIn(s, x) && x.op !in removed
    ensures IsIn(ForgetAll(s, removed), x)
  {
  }

  // ----- what reports hold back

  /** Somebody reported an id between x and whatever stands before x here, and this hub knows x's configuration. */
  ghost predicate HeldBack(h: HubState, x: MessageId)
    requires x in h.log.entries
  {
    && h.log.entries[x].message.body.UserData? && h.log.entries[x].message.configId in h.configs
    && exists p <- h.log.entries[x].predecessors ::
         h.log.lastCommitted.Lt(p) && forall y <- h.log.entries.Keys :: y.Lt(x) ==> y.Lt(p)
  }

  lemma HeldBackStops(h: HubState, x: MessageId, lastFuse: Option<MessageId>, live: set<Uuid>)
    requires Sound(h) && IsMin(h.log.entries.Keys, x) && HeldBack(h, x)
    ensures Judge(h, x, lastFuse, live).Stop?
  {
    hide Sound, Blocked;
    GuardMeaning(h, x);
  }

  lemma HeldBackAfter(h: HubState, z: MessageId, h1: HubState, x: MessageId)
    requires Sound(h) && IsMin(h.log.entries.Keys, z) && z.Lt(x) && x in h.log.entries && HeldBack(h, x)
    requires Keeps(Without(h.log, z), h1.log) && h.configs.Keys <= h1.configs.Keys
    requires Grown(h.clock, Without(h.log, z).(lastFuseCommit := h1.log.lastFuseCommit), h1.log)
    ensures x in h1.log.entries && HeldBack(h1, x)
  {
    hide PostedOk, ConsumedOk, DeliveredOk, ConfigsOk, Chained, AllClosed, PendingOk, AllRecorded;
    assert x in Without(h.log, z).entries;
    var p :| p in h.log.entries[x].predecessors && h.log.lastCommitted.Lt(p) &&
             forall y <- h.log.entries.Keys :: y.Lt(x) ==> y.Lt(p);
    forall y <- h1.log.entries.Keys | y.Lt(x)
      ensures y.Lt(p)
    {
      assert y in h.log.entries;
    }
    assert p in h1.log.entries[x].predecessors && h1.log.lastCommitted.Lt(p);
  }

  lemma ConfigsGrow(h: HubState, z: MessageId)
    requires z in h.log.entries && !h.log.entries[z].message.body.Ack?
    ensures h.configs.Keys <= CommitEntry(h, z).configs.Keys
  {
    hide CommitEntry, Departed, Work, AcksToGraph, LatestConfig;
    CommitEntryConfig(h, z);
    DepartedConfig(h, z);
  }

  lemma {:induction false} LoopHolds(h: HubState, cursor: Option<MessageId>, lastFuse: Option<MessageId>,
                                     live: set<Uuid>, x: MessageId)
    requires Sound(h) && MembershipOk(h) && !h.wrapped && AtFront(h, cursor) && x in h.log.entries && HeldBack(h, x)
    ensures var h' := Loop(h, cursor, lastFuse, live);
            h'.wrapped || x in h'.log.entries
    decreases Work(h)
  {
    hide Sound, MembershipOk, Work, CommitEntry, Judge, Next, TakeOut, HeldBack, Grown, Keeps;
    if cursor.Some? && !h.log.entries[cursor.value].message.body.Ack? {
      var z := cursor.value;
      var next := Next(h.log.entries.Keys, z);
      if z == x {
        HeldBackStops(h, x, lastFuse, live);
      } else if !Judge(h, z, lastFuse, live).Stop? {
        var commit := Judge(h, z, lastFuse, live).Commit?;
        var h1 := if commit then CommitEntry(h, z) else TakeOut(h, z);
        if !h1.wrapped {
          OthersStay(h, z, h1);
          if commit {
            CommitKeepsEntries(h, z);
            CommitEntryKeeps(h, z);
            DepartedGrown(h, z, h1);
            ConfigsGrow(h, z);
          } else {
            TakeOutIs(h, z);
            KeepsNothing(h1.log);
            GrownNot(h.clock, h1.log);
          }
          HeldBackAfter(h, z, h1, x);
          LoopHolds(h1, next, if commit && lastFuse == Some(z) then None else lastFuse, live, x);
        }
      }
    }
  }

  /** User data stays in the log while anybody who acknowledged it reported an id before it that this hub has neither
      consumed nor in its log, and the hub knows the configuration it was sent in. */
  lemma ReportHoldsBack(h: HubState, x: MessageId, q: Uuid)
    requires Sound(h) && MembershipOk(h) && !h.wrapped && x in h.log.entries && q in h.log.entries[x].acks
    requires h.log.entries[x].message.body.UserData? && h.log.entries[x].message.configId in h.configs
    requires var p := h.log.entries[x].acks[q].prev;
             h.log.lastCommitted.Lt(p) && forall y <- h.log.entries.Keys :: y.Lt(x) ==> y.Lt(p)
    ensures var h' := CommitWhatWasSeenByEveryone(h);
            h'.wrapped || x in h'.log.entries
  {
    hide Keyed, Chained, AllClosed, PendingOk, PostedOk, ConsumedOk, DeliveredOk, ConfigsOk, MembershipOk, Loop,
         LastCommittableFuse, LiveNodes;
    assert h.log.entries[x].acks[q].prev in h.log.entries[x].predecessors;
    LoopHolds(h, First(h.log.entries.Keys), LastCommittableFuse(h.log), LiveNodes(h), x);
  }

  // ----- the laws

  /** Whom the loop takes as alive: the quorum of the greatest fuse that it acknowledged. */
  lemma AliveIsQuorum(h: HubState, k: MessageId)
    requires GreatestAcked(h.log, k)
    ensures LastCommittableFuse(h.log) == Some(k) && LiveNodes(h) == h.log.entries[k].quorum
  {
    hide LatestConfig;
    assert k in CommittableFuses(h.log);
    assert IsMax(CommittableFuses(h.log), k);
  }

  lemma AliveIsConfig(h: HubState)
    requires NoneAcked(h.log)
    ensures LastCommittableFuse(h.log) == None && LiveNodes(h) == LatestConfig(h)
  {
    hide LatestConfig;
    assert CommittableFuses(h.log) == {};
  }

  /** What those of the quorum have not acknowledged stays in the log, with everything behind it. */
  lemma UnackedStays(h: HubState, k: MessageId, x: MessageId)
    requires Sound(h) && MembershipOk(h) && !h.wrapped && GreatestAcked(h.log, k) && x in h.log.entries
    requires var e := h.log.entries[x];
             || (e.message.body.UserData? && !AckedWithin(e, h.log.entries[k].quorum))
             || (e.message.body.Fuse? && k.Lt(x))
    ensures var h' := CommitWhatWasSeenByEveryone(h);
            h'.wrapped || forall y <- h.log.entries.Keys :: x.Le(y) ==> y in h'.log.entries
  {
    hide Sound, MembershipOk, Loop, LastCommittableFuse, LiveNodes, AckedWithin;
    AliveIsQuorum(h, k);
    LoopStays(h, First(h.log.entries.Keys), Some(k), h.log.entries[k].quorum, x);
  }

  /** The greatest fuse that everybody of its quorum q acknowledged is committed if and only if all user data before
      it is acknowledged by everyone of its quorum who is in q; nobody else is waited for. Then everything before the
      fuse is gone from the log, q is the configuration, and who is no longer in it is forgotten. */
  lemma FuseIsCommittedIff(h: HubState, k: MessageId)
    requires Sound(h) && MembershipOk(h) && !h.wrapped && GreatestAcked(h.log, k)
    requires forall x <- h.log.entries.Keys :: x.Le(k) && AckedWithin(h.log.entries[x], h.log.entries[k].quorum) ==>
               Unblocked(h.log, x)
    ensures var h', q := CommitWhatWasSeenByEveryone(h), h.log.entries[k].quorum;
            var acked := forall x <- h.log.entries.Keys ::
                           x.Lt(k) && h.log.entries[x].message.body.UserData? ==> AckedWithin(h.log.entries[x], q);
            || h'.wrapped
            || (&& (k in h'.consumed <==> acked)
                && (acked ==> Achieved(h, h', k, q, LatestConfig(h))))
  {
    hide Sound, MembershipOk, Loop, LastCommittableFuse, LiveNodes, Unblocked, AckedWithin, LatestConfig, Achieved;
    var h', q := CommitWhatWasSeenByEveryone(h), h.log.entries[k].quorum;
    AliveIsQuorum(h, k);
    if forall x <- h.log.entries.Keys ::
         x.Lt(k) && h.log.entries[x].message.body.UserData? ==> AckedWithin(h.log.entries[x], q) {
      assert Going(h, k, q);
      NotGoneYet(h);
      LoopReaches(h, First(h.log.entries.Keys), k, q, LatestConfig(h));
      assert h'.wrapped || k in h'.consumed by {
        if !h'.wrapped {
          AchievedMeans(h, h', k, q, LatestConfig(h));
        }
      }
    } else {
      var x :| x in h.log.entries && x.Lt(k) && h.log.entries[x].message.body.UserData? &&
               !AckedWithin(h.log.entries[x], q);
      UnackedStays(h, k, x);
      if !h'.wrapped {
        CommitKeeps(h);
        LoggedIsNotConsumed(h', k);
      }
    }
  }

  lemma NotGoneYet(h: HubState)
    ensures Gone(LatestConfig(h), h)
  {
  }

  lemma AchievedMeans(h: HubState, h': HubState, k: MessageId, q: set<Uuid>, c: set<Uuid>)
    requires Achieved(h, h', k, q, c) && k in h.log.entries
    ensures k in h'.consumed
  {
  }

  lemma LoggedIsNotConsumed(h: HubState, k: MessageId)
    requires Sound(h) && k in h.log.entries
    ensures k !in h.consumed
  {
    hide PostedOk, DeliveredOk, ConfigsOk, Chained, AllClosed, PendingOk;
  }

  /** Without such a fuse the members of the latest configuration count. A fuse waits, with everything behind it. */
  lemma WithoutFuseStays(h: HubState, x: MessageId)
    requires Sound(h) && MembershipOk(h) && !h.wrapped && NoneAcked(h.log) && x in h.log.entries
    requires var e := h.log.entries[x];
             e.message.body.Fuse? || (e.message.body.UserData? && !AckedWithin(e, LatestConfig(h)))
    ensures var h' := CommitWhatWasSeenByEveryone(h);
            h'.wrapped || forall y <- h.log.entries.Keys :: x.Le(y) ==> y in h'.log.entries
  {
    hide Sound, MembershipOk, Loop, LastCommittableFuse, LiveNodes, AckedWithin, LatestConfig;
    AliveIsConfig(h);
    LoopStays(h, First(h.log.entries.Keys), None, LatestConfig(h), x);
  }

  /** And user data before any fuse that they acknowledged is committed. */
  lemma WithoutFuseCommits(h: HubState, x: MessageId)
    requires Sound(h) && MembershipOk(h) && !h.wrapped && NoneAcked(h.log) && x in h.log.entries
    requires OnlyDataUpTo(h.log, x) && Ready(h.log, x, LatestConfig(h))
    ensures var h' := CommitWhatWasSeenByEveryone(h);
            h'.wrapped || forall y <- h.log.entries.Keys :: y.Le(x) ==> y in h'.consumed
  {
    hide Sound, MembershipOk, Loop, LastCommittableFuse, LiveNodes, LatestConfig, Ready;
    AliveIsConfig(h);
    LoopReachesData(h, First(h.log.entries.Keys), x, LatestConfig(h));
  }
}
