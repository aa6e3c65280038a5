/** Which messages were already received (src/club/seen_messages.h). */
module Seen {
  import opened Basics
  import opened MessageIds

  /** Received timestamps of one poster; everything up to `bottom` counts as received. */
  datatype TimeStamps = TimeStamps(stamps: set<nat>, bottom: Option<nat>)

  type SeenState = map<Uuid, TimeStamps>

  predicate UnderBottom(t: TimeStamps, ts: nat) {
    t.bottom.Some? && ts <= t.bottom.value
  }

  predicate IsIn(s: SeenState, id: MessageId) {
    id.op in s && (UnderBottom(s[id.op], id.ts) || id.ts in s[id.op].stamps)
  }

  function Insert(s: SeenState, id: MessageId): SeenState {
    var t := if id.op in s then s[id.op] else TimeStamps({}, None);
    s[id.op := if UnderBottom(t, id.ts) then t else t.(stamps := t.stamps + {id.ts})]
  }

  function Raise(t: TimeStamps, ts: nat): TimeStamps {
    if UnderBottom(t, ts) then t
    else TimeStamps((set x <- t.stamps | ts < x), Some(ts))
  }

  function SeenEverythingUpTo(s: SeenState, id: MessageId): SeenState {
    map op <- s.Keys :: Raise(s[op], id.ts)
  }

  function Forget(s: SeenState, op: Uuid): SeenState {
    s - {op}
  }

  /** Insertion adds exactly one id to the set the structure denotes. */
  lemma InsertDenotes(s: SeenState, id: MessageId, x: MessageId)
    ensures IsIn(Insert(s, id), x) <==> IsIn(s, x) || x == id
  {
  }

  /** Compaction adds exactly the ids of known posters up to the timestamp, whoever posted the committed message. */
  lemma CompactionDenotes(s: SeenState, id: MessageId, x: MessageId)
    ensures IsIn(SeenEverythingUpTo(s, id), x) <==> IsIn(s, x) || (x.op in s && x.ts <= id.ts)
  {
  }

  lemma ForgetDenotes(s: SeenState, op: Uuid, x: MessageId)
    ensures IsIn(Forget(s, op), x) <==> IsIn(s, x) && x.op != op
  {
  }

  class SeenMessages {
    var messages: SeenState

    constructor ()
      ensures messages == map[]
    {
      messages := map[];
    }

    method Add(id: MessageId)
      modifies this
      ensures messages == Insert(old(messages), id)
    {
      var t := if id.op in messages then messages[id.op] else TimeStamps({}, None);
      if t.bottom.Some? && id.ts <= t.bottom.value {
        messages := messages[id.op := t];
        return;
      }
      messages := messages[id.op := t.(stamps := t.stamps + {id.ts})];
    }

    method Has(id: MessageId) returns (b: bool)
      ensures b == IsIn(messages, id)
    {
      if id.op !in messages {
        return false;
      }
      var t := messages[id.op];
      if t.bottom.Some? && id.ts <= t.bottom.value {
        return true;
      }
      b := id.ts in t.stamps;
    }

    /** Raises every known poster's bottom to the timestamp and drops what falls below it. */
    method Compact(id: MessageId)
      modifies this
      ensures messages == SeenEverythingUpTo(old(messages), id)
    {
      var rest := messages.Keys;
      while rest != {}
        invariant rest <= messages.Keys == old(messages).Keys
        invariant forall op <- messages.Keys ::
                    messages[op] == if op in rest then old(messages)[op] else Raise(old(messages)[op], id.ts)
        decreases rest
      {
        var op :| op in rest;
        var t := messages[op];
        if !(t.bottom.Some? && id.ts <= t.bottom.value) {
          messages := messages[op := TimeStamps((set x <- t.stamps | id.ts < x), Some(id.ts))];
        }
        rest := rest - {op};
      }
    }

    method ForgetUser(op: Uuid)
      modifies this
      ensures messages == Forget(old(messages), op)
    {
      messages := messages - {op};
    }
  }
}
