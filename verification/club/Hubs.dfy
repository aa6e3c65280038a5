/** The hub: Lamport clock, flooding, acknowledgements and the commit loop (src/club/hub.cpp).

    A HubState holds the fields of the source's hub together with a record of what it did: the messages it
    constructed (`posted`) and the ids its log held each time (`basis`), the first receipts (`received`), what it
    handed to each peer's socket (`sent`), the ids it took out of the log (`consumed`), every id that entered the
    log (`entered`), messages rejected because they arrived too late (`late`) and the user callbacks it made
    (`events`).

    `script` says what the user's callbacks broadcast: each callback takes the first element and broadcasts
    its payloads. `wrapped` records that the 32-bit clock has overflowed. */
module Hubs {
  import opened Basics
  import opened MessageIds
  import opened Messages
  import opened Graphs
  import opened Logs
  import opened Seen

  datatype Event =
    | Inserted(ids: set<Uuid>)
    | Removed(ids: set<Uuid>)
    | Delivered(id: MessageId, data: Bytes)
    | Fused(with: Uuid)

  /** What a hub constructs with an acknowledgement of its own. */
  datatype Request = Say(data: Bytes) | Join(with: Uuid)

  datatype HubState = HubState(
    id: Uuid,
    clock: nat,
    wrapped: bool,
    log: LogState,
    seen: SeenState,
    configs: map<MessageId, set<Uuid>>,
    nodes: map<Uuid, bool>,
    routing: Graph,
    script: seq<seq<Bytes>>,
    posted: seq<Message>,
    basis: seq<set<MessageId>>,
    received: seq<Message>,
    sent: map<Uuid, seq<Message>>,
    consumed: seq<MessageId>,
    entered: set<MessageId>,
    late: seq<MessageId>,
    events: seq<Event>)

  function NewHub(id: Uuid): HubState {
    HubState(id, 0, false, EMPTY_LOG, map[], map[MessageId(0, id) := {id}], map[id := false],
             Graph({id}, map[]), [], [], [], [], map[], [], {}, [], [])
  }

  // ----- constructing and flooding messages

  /** `_configs.rbegin()->first`. */
  function LatestConfigId(h: HubState): MessageId {
    if h.configs == map[] then NO_MESSAGE else MaxOf(h.configs.Keys)
  }

  /** `_configs.rbegin()->second`. */
  function LatestConfig(h: HubState): set<Uuid> {
    if LatestConfigId(h) in h.configs then h.configs[LatestConfigId(h)] else {}
  }

  function Connected(h: HubState): set<Uuid> {
    set v <- h.nodes.Keys | h.nodes[v] && v != h.id
  }

  function Neighbors(h: HubState): set<Uuid> {
    Connected(h) + {h.id}
  }

  /** `++_time_stamp`, on 32 bits. */
  function Tick(h: HubState): HubState {
    h.(clock := (h.clock + 1) % TIMESTAMP_LIMIT, wrapped := h.wrapped || h.clock + 1 >= TIMESTAMP_LIMIT)
  }

  function Broadcast(h: HubState, m: Message): (r: HubState)
    ensures r == h.(sent := r.sent)
  {
    h.(sent := Enqueue(h.sent, Connected(h) - m.visited, m))
  }

  function Post(h: HubState, m: Message): (r: HubState)
    ensures r == Tick(h).(sent := r.sent, posted := h.posted + [m], basis := h.basis + [h.log.entries.Keys])
  {
    Broadcast(Tick(h).(posted := h.posted + [m], basis := h.basis + [h.log.entries.Keys]), m)
  }

  function AckableMessage(h: HubState, r: Request): (m: Message)
    ensures !m.body.Ack? && m.visited == {m.op} && m.op == h.id && m.ts == Tick(h).clock
  {
    var id := MessageId(Tick(h).clock, h.id);
    var ack := AckData(id, PredecessorTime(h.log, id), Neighbors(h));
    var body := match r case Say(d) => UserData(ack, d) case Join(w) => Fuse(ack, w);
    Message(h.id, id.ts, LatestConfigId(h), {h.id}, body)
  }

  function AckMessage(h: HubState, acked: MessageId): Message {
    Message(h.id, Tick(h).clock, LatestConfigId(h), {h.id},
            Ack(AckData(acked, PredecessorTime(h.log, acked), Neighbors(h))))
  }

  /** Late messages other than fuses are rejected; the log ignores late fuses. */
  function AddLogEntry(h: HubState, m: Message): (r: HubState)
    ensures r == h.(log := r.log, entered := r.entered, late := r.late)
  {
    if m.Id().Le(h.log.lastCommitted) then
      if m.body.Fuse? then h else h.(late := h.late + [m.Id()])
    else
      h.(log := InsertEntry(h.log, m), entered := h.entered + {m.Id()})
  }

  /** `total_order_broadcast` up to the commit it schedules, and the first half of `fuse`. */
  function PostAckable(h: HubState, r: Request): (h': HubState)
    ensures h' == Tick(h).(sent := h'.sent, posted := h'.posted, basis := h'.basis, log := h'.log,
                           entered := h'.entered, late := h'.late)
    ensures |h'.log.entries.Keys| <= |h.log.entries.Keys| + 1
  {
    var m := AckableMessage(h, r);
    AddLogEntry(Post(h, m), m)
  }

  /** Constructing an acknowledgement also applies it to the hub's own log. */
  function PostAck(h: HubState, acked: MessageId): (r: HubState)
    ensures r == Tick(h).(sent := r.sent, posted := r.posted, basis := r.basis, log := r.log)
  {
    var m := AckMessage(h, acked);
    var p := Post(h, m);
    p.(log := ApplyAck(p.log, p.id, m.body.ack))
  }

  // ----- user callbacks

  function PostAll(h: HubState, payloads: seq<Bytes>): (h': HubState)
    ensures h' == h.(clock := h'.clock, wrapped := h'.wrapped, sent := h'.sent, posted := h'.posted,
                     basis := h'.basis, log := h'.log, entered := h'.entered, late := h'.late)
    ensures h.wrapped ==> h'.wrapped
    ensures |h'.log.entries.Keys| <= |h.log.entries.Keys| + |payloads|
    decreases |payloads|
  {
    if payloads == [] then h else PostAll(PostAckable(h, Say(payloads[0])), payloads[1..])
  }

  function Total(script: seq<seq<Bytes>>): nat {
    if script == [] then 0 else |script[0]| + Total(script[1..])
  }

  /** What is left for the commit loop: entries, and broadcasts the callbacks will still make. */
  function Work(h: HubState): nat {
    |h.log.entries.Keys| + Total(h.script)
  }

  function Callback(h: HubState, e: Event): (h': HubState)
    ensures Work(h') <= Work(h)
    ensures h' == h.(clock := h'.clock, wrapped := h'.wrapped, sent := h'.sent, posted := h'.posted,
                     basis := h'.basis, log := h'.log, entered := h'.entered, late := h'.late,
                     script := h'.script, events := h.events + [e])
    ensures h.wrapped ==> h'.wrapped
  {
    var h1 := h.(events := h.events + [e]);
    if h.script == [] then h1 else PostAll(h1.(script := h.script[1..]), h.script[0])
  }

  // ----- the commit loop

  /** The graph whose edges are the neighbour lists of the acknowledgements. */
  function AcksToGraph(acks: map<Uuid, AckData>): Graph {
    Graph(acks.Keys + (set q <- acks.Keys, n <- acks[q].neighbors :: n),
          map q <- acks.Keys | acks[q].neighbors != {} :: acks[q].neighbors)
  }

  function ForgetAll(s: SeenState, ops: set<Uuid>): SeenState {
    s - ops
  }

  /** Installing a configuration forgets the nodes that left. */
  function Installed(h: HubState, e: LogEntry): HubState {
    var removed := LatestConfig(h) - e.quorum;
    var id := e.message.Id();
    h.(routing := AcksToGraph(e.acks),
       configs := if id in h.configs then h.configs else h.configs[id := e.quorum],
       seen := ForgetAll(h.seen, removed),
       nodes := h.nodes - removed)
  }

  /** A callback that is skipped when there is nothing to report. */
  function Report(h: HubState, e: Event): (h': HubState)
    requires e.Inserted? || e.Removed?
    ensures Work(h') <= Work(h)
    ensures h'.id == h.id && (h.wrapped ==> h'.wrapped)
  {
    if e.ids == {} then h else Callback(h, e)
  }

  /** The two callbacks report the difference to the previous configuration. */
  function CommitFuse(h: HubState, e: LogEntry): (h': HubState)
    ensures Work(h') <= Work(h)
    ensures h'.id == h.id && (h.wrapped ==> h'.wrapped)
  {
    if !e.AckedByQuorum() then h
    else
      var added := e.quorum - LatestConfig(h);
      var removed := LatestConfig(h) - e.quorum;
      Report(Report(Installed(h, e), Inserted(added)), Removed(removed))
  }

  function CommitUserData(h: HubState, m: Message): (h': HubState)
    requires m.body.UserData?
    ensures Work(h') <= Work(h)
    ensures h'.id == h.id && (h.wrapped ==> h'.wrapped)
  {
    if m.op in h.nodes then Callback(h, Delivered(m.Id(), m.body.data)) else h
  }

  function TakeOut(h: HubState, k: MessageId): (h': HubState)
    ensures k in h.log.entries ==> Work(h') < Work(h)
  {
    assert (h.log.entries - {k}).Keys == h.log.entries.Keys - {k};
    h.(log := Consume(h.log, k), consumed := h.consumed + [k])
  }

  /** A committed entry leaves the log before its callbacks run. */
  function Departed(h: HubState, k: MessageId): (h': HubState)
    requires k in h.log.entries
    ensures Work(h') < Work(h)
  {
    var out := TakeOut(h, k);
    out.(seen := SeenEverythingUpTo(h.seen, k),
         log := out.log.(lastFuseCommit := if h.log.entries[k].message.body.Fuse? then k else h.log.lastFuseCommit))
  }

  function CommitEntry(h: HubState, k: MessageId): (h': HubState)
    requires k in h.log.entries && !h.log.entries[k].message.body.Ack?
    ensures Work(h') < Work(h)
    ensures h'.id == h.id && (h.wrapped ==> h'.wrapped)
  {
    var e := h.log.entries[k];
    if e.message.body.Fuse? then CommitFuse(Departed(h, k), e) else CommitUserData(Departed(h, k), e.message)
  }

  /** The predecessor the guard of the commit loop settles on, scanning from the highest. */
  function GuardingPredecessor(h: HubState, e: LogEntry): Option<MessageId> {
    if e.predecessors == {} then None
    else if e.message.configId in h.configs then Some(MaxOf(e.predecessors))
    else if h.log.lastCommitted in e.predecessors then Some(h.log.lastCommitted)
    else None
  }

  predicate Blocked(h: HubState, e: LogEntry) {
    var i := GuardingPredecessor(h, e);
    i.Some? && i.value != h.log.lastCommitted && h.log.lastFuseCommit.Lt(i.value)
  }

  datatype Verdict = Stop | Discard | Commit

  function Judge(h: HubState, k: MessageId, lastFuse: Option<MessageId>, live: set<Uuid>): Verdict
    requires k in h.log.entries
  {
    var e := h.log.entries[k];
    if e.message.body.Fuse? && lastFuse.None? then Stop
    else if e.message.body.Fuse? && k.Lt(lastFuse.value) && !e.AckedByAlive(live) then Discard
    else if e.message.body.Fuse? && lastFuse.value.Lt(k) then Stop
    else if !e.message.body.Fuse? && !e.AckedByAlive(live) then Stop
    else if Blocked(h, e) then Stop
    else Commit
  }

  function Loop(h: HubState, cursor: Option<MessageId>, lastFuse: Option<MessageId>, live: set<Uuid>): (h': HubState)
    ensures h'.id == h.id && (h.wrapped ==> h'.wrapped)
    decreases Work(h)
  {
    if cursor.None? || cursor.value !in h.log.entries || h.log.entries[cursor.value].message.body.Ack? then h
    else
      var k := cursor.value;
      var next := Next(h.log.entries.Keys, k);
      match Judge(h, k, lastFuse, live)
      case Stop => h
      case Discard => Loop(TakeOut(h, k), next, lastFuse, live)
      case Commit => Loop(CommitEntry(h, k), next, if lastFuse == Some(k) then None else lastFuse, live)
  }

  function CommittableFuses(l: LogState): set<MessageId> {
    set k <- FuseIds(l) | l.entries[k].AckedByQuorum()
  }

  function LastCommittableFuse(l: LogState): (r: Option<MessageId>)
    ensures r.Some? ==> r.value in CommittableFuses(l)
  {
    if CommittableFuses(l) == {} then None else Some(MaxOf(CommittableFuses(l)))
  }

  function LiveNodes(h: HubState): set<Uuid> {
    match LastCommittableFuse(h.log)
    case Some(k) => h.log.entries[k].quorum
    case None => LatestConfig(h)
  }

  function CommitWhatWasSeenByEveryone(h: HubState): (h': HubState)
    ensures h'.id == h.id && (h.wrapped ==> h'.wrapped)
  {
    Loop(h, First(h.log.entries.Keys), LastCommittableFuse(h.log), LiveNodes(h))
  }

  // ----- receiving

  function ProcessFuse(h: HubState, m: Message): (h': HubState)
    ensures h'.id == h.id && (h.wrapped ==> h'.wrapped)
  {
    var h1 := AddLogEntry(h, m);
    var fuses := FuseIds(h1.log);
    if fuses == {} || MaxOf(fuses).Le(m.Id()) then
      CommitWhatWasSeenByEveryone(PostAck(h1, m.Id()))
    else h1
  }

  function Process(h: HubState, m: Message): (h': HubState)
    ensures h'.id == h.id && (h.wrapped ==> h'.wrapped)
  {
    match m.body
    case Ack(ack) => h.(log := ApplyAck(h.log, m.op, ack))
    case Fuse(_, _) => ProcessFuse(h, m)
    case UserData(_, _) => AddLogEntry(PostAck(h, m.Id()), m)
  }

  /** First receipt: remembered, the clock catches up, unknown posters get a node. */
  function Note(h: HubState, m: Message): HubState {
    h.(seen := Insert(h.seen, m.Id()),
       clock := if h.clock < m.ts then m.ts else h.clock,
       nodes := if m.op in h.nodes then h.nodes else h.nodes[m.op := false])
  }

  /** First receipt of someone else's message, forwarded to every connected peer it has not visited. */
  function Accept(h: HubState, m: Message): (h': HubState)
    ensures h'.id == h.id && h'.wrapped == h.wrapped && h'.log == h.log
  {
    var n := Note(h, m);
    Broadcast(n.(received := n.received + [m]), m.(visited := m.visited + {h.id}))
  }

  function OnRecv(h: HubState, m: Message): (h': HubState)
    ensures h'.id == h.id && (h.wrapped ==> h'.wrapped)
  {
    if IsIn(h.seen, m.Id()) then h
    else if m.op == h.id then Note(h, m)
    else CommitWhatWasSeenByEveryone(Process(Accept(h, m), m))
  }

  // ----- steps of one hub

  datatype Step =
    | Speak(data: Bytes)
    | Poll
    | Hear(message: Message)
    | Meet(peer: Uuid)
    | Lose(peer: Uuid)

  /** One atomic handler of the hub, with the broadcasts its callbacks make. */
  function Do(h0: HubState, step: Step, script: seq<seq<Bytes>>): (h': HubState)
    ensures h'.id == h0.id && (h0.wrapped ==> h'.wrapped)
  {
    var h := h0.(script := script);
    match step
    case Speak(data) => PostAckable(h, Say(data))
    case Poll => CommitWhatWasSeenByEveryone(h)
    case Hear(m) => OnRecv(h, m)
    case Meet(peer) =>
      if peer == h.id then h
      else
        var joined := PostAckable(h.(nodes := h.nodes[peer := true]), Join(peer));
        CommitWhatWasSeenByEveryone(Callback(joined, Fused(peer)))
    case Lose(peer) =>
      var lost := h.(nodes := if peer in h.nodes then h.nodes[peer := false] else h.nodes);
      CommitWhatWasSeenByEveryone(PostAckable(lost, Join(peer)))
  }
}
