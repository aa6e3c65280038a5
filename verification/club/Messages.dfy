/** Wire messages of the hub and the graph that acknowledgements describe
    (src/club/message.h, include/club/graph.h). */
module Messages {
  import opened MessageIds

  type Bytes = seq<nat>

  /** One acknowledgement: which message, what stood before it in the acker's log, and the acker's connected peers. */
  datatype AckData = AckData(acked: MessageId, prev: MessageId, neighbors: set<Uuid>)

  datatype Body =
    | Fuse(ack: AckData, with: Uuid)
    | UserData(ack: AckData, data: Bytes)
    | Ack(ack: AckData)

  /** Header and body; `visited` differs between the copies of one message. */
  datatype Message = Message(op: Uuid, ts: nat, configId: MessageId, visited: set<Uuid>, body: Body) {
    function Id(): MessageId {
      MessageId(ts, op)
    }

    /** The message as its poster constructed it. */
    function Original(): Message {
      this.(visited := {op})
    }
  }

  function IdsOf(ms: seq<Message>): set<MessageId> {
    set m <- ms :: m.Id()
  }

  lemma IdsOfAppend(ms: seq<Message>, m: Message)
    ensures IdsOf(ms + [m]) == IdsOf(ms) + {m.Id()}
  {
    forall x | x in IdsOf(ms) + {m.Id()}
      ensures x in IdsOf(ms + [m])
    {
      if x in IdsOf(ms) {
        var y :| y in ms && y.Id() == x;
        assert y in ms + [m];
      } else {
        assert m in ms + [m];
      }
    }
  }

  /** What was handed to the socket of v, in order. */
  function QueueTo(sent: map<Uuid, seq<Message>>, v: Uuid): seq<Message> {
    if v in sent then sent[v] else []
  }

  function Enqueue(sent: map<Uuid, seq<Message>>, targets: set<Uuid>, m: Message): (r: map<Uuid, seq<Message>>)
    ensures forall v :: QueueTo(r, v) == QueueTo(sent, v) + if v in targets then [m] else []
  {
    map v <- sent.Keys + targets :: QueueTo(sent, v) + if v in targets then [m] else []
  }

  lemma EnqueueNothing(sent: map<Uuid, seq<Message>>, m: Message)
    ensures Enqueue(sent, {}, m) == sent
  {
    assert Enqueue(sent, {}, m).Keys == sent.Keys;
    forall v <- sent.Keys
      ensures Enqueue(sent, {}, m)[v] == sent[v]
    {
      assert QueueTo(Enqueue(sent, {}, m), v) == QueueTo(sent, v) + [];
    }
  }
}
