/** Message identifiers and their total order (src/club/message_id.h). */
module MessageIds {
  import opened Basics

  /** A 128-bit uuid, compared as the big-endian number its bytes spell; the nil uuid is 0. */
  type Uuid = nat

  const NIL: Uuid := 0

  /** TimeStamp is a uint32_t. */
  const TIMESTAMP_LIMIT: nat := 0x1_0000_0000

  /** Lexicographic pair (timestamp, original poster). */
  datatype MessageId = MessageId(ts: nat, op: Uuid) {
    predicate Lt(other: MessageId) {
      ts < other.ts || (ts == other.ts && op < other.op)
    }

    predicate Le(other: MessageId) {
      this == other || Lt(other)
    }
  }

  /** What the default constructor of MessageId builds. */
  const NO_MESSAGE := MessageId(0, NIL)

  ghost predicate IsMin(s: set<MessageId>, k: MessageId) {
    k in s && forall x <- s :: k.Le(x)
  }

  ghost predicate IsMax(s: set<MessageId>, k: MessageId) {
    k in s && forall x <- s :: x.Le(k)
  }

  lemma {:induction false} MinExists(s: set<MessageId>)
    requires s != {}
    ensures exists k :: IsMin(s, k)
  {
    var x :| x in s;
    if s == {x} {
      assert IsMin(s, x);
    } else {
      var rest := s - {x};
      MinExists(rest);
      var k :| IsMin(rest, k);
      assert s == rest + {x};
      assert IsMin(s, if x.Lt(k) then x else k);
    }
  }

  lemma {:induction false} MaxExists(s: set<MessageId>)
    requires s != {}
    ensures exists k :: IsMax(s, k)
  {
    var x :| x in s;
    if s == {x} {
      assert IsMax(s, x);
    } else {
      var rest := s - {x};
      MaxExists(rest);
      var k :| IsMax(rest, k);
      assert s == rest + {x};
      assert IsMax(s, if k.Lt(x) then x else k);
    }
  }

  /** `*begin()` of an ordered container. */
  function MinOf(s: set<MessageId>): (k: MessageId)
    requires s != {}
    ensures IsMin(s, k)
  {
    MinExists(s);
    var k :| k in s && forall x <- s :: k.Le(x);
    k
  }

  /** `*rbegin()` of an ordered container. */
  function MaxOf(s: set<MessageId>): (k: MessageId)
    requires s != {}
    ensures IsMax(s, k)
  {
    MaxExists(s);
    var k :| k in s && forall x <- s :: x.Le(k);
    k
  }

  function Above(s: set<MessageId>, k: MessageId): set<MessageId> {
    set x <- s | k.Lt(x)
  }

  function Below(s: set<MessageId>, k: MessageId): set<MessageId> {
    set x <- s | x.Lt(k)
  }

  /** p is the key just before k in an ordered container or, if there is none before k, the default id. */
  ghost predicate StandsBefore(s: set<MessageId>, k: MessageId, p: MessageId) {
    if exists x <- s :: x.Lt(k) then p in s && p.Lt(k) && forall x <- s :: x.Lt(k) ==> x.Le(p) else p == NO_MESSAGE
  }

  /** The key an iterator at the front stands on, or None for `end()`. */
  function First(s: set<MessageId>): (r: Option<MessageId>)
    ensures r.None? <==> s == {}
    ensures r.Some? ==> IsMin(s, r.value)
  {
    if s == {} then None else Some(MinOf(s))
  }

  /** The key after `k` in an ordered container, or None for `end()`. */
  function Next(s: set<MessageId>, k: MessageId): (r: Option<MessageId>)
    ensures r.None? ==> forall x <- s :: x.Le(k)
    ensures r.Some? ==> IsMin(Above(s, k), r.value)
  {
    assert forall x <- s :: x in Above(s, k) || x.Le(k);
    First(Above(s, k))
  }

  /** Strictly increasing sequence of ids. */
  ghost predicate Increasing(s: seq<MessageId>) {
    forall i, j :: 0 <= i < j < |s| ==> s[i].Lt(s[j])
  }

  /** a stands before b somewhere in s. */
  ghost predicate Before(s: seq<MessageId>, a: MessageId, b: MessageId) {
    exists i, j :: 0 <= i < j < |s| && s[i] == a && s[j] == b
  }

  /** In an increasing sequence the order of two members is the order of their ids. */
  lemma BeforeIffLt(s: seq<MessageId>, a: MessageId, b: MessageId)
    requires Increasing(s) && a in s && b in s
    ensures Before(s, a, b) <==> a.Lt(b)
  {
    var i :| 0 <= i < |s| && s[i] == a;
    var j :| 0 <= j < |s| && s[j] == b;
  }

  /** An increasing sequence that holds exactly the members of another one up to a bound is a prefix of it. */
  lemma {:induction false} BoundedSubsequenceIsPrefix(s: seq<MessageId>, t: seq<MessageId>, bound: MessageId)
    requires Increasing(s) && Increasing(t)
    requires forall x :: x in s <==> x in t && x.Le(bound)
    ensures s <= t
  {
    if s != [] {
      assert s[0] in t;
      var j :| 0 <= j < |t| && t[j] == s[0];
      assert t[0].Le(bound) && t[0] in s;
      assert s[0] == t[0];
      forall x
        ensures x in s[1..] <==> x in t[1..] && x.Le(bound)
      {
        assert x in s <==> x == s[0] || x in s[1..];
        assert x in t <==> x == t[0] || x in t[1..];
        assert s[0] !in s[1..] && t[0] !in t[1..];
      }
      BoundedSubsequenceIsPrefix(s[1..], t[1..], bound);
      assert s == [s[0]] + s[1..] && t == [t[0]] + t[1..];
    }
  }
}
