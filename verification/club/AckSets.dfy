/** The 32-message acknowledgement window (include/club/transport/ack_set.h).

    Sequence numbers are uint32_t, and so is the arithmetic on them. The 32-bit mask is given as the set of its
    one bits: bit i stands for the number `highest - i`. */
module AckSets {

  const WORD: nat := 0x1_0000_0000

  function Plus32(a: nat, b: nat): nat { (a + b) % WORD }

  function Minus32(a: nat, b: nat): nat { (a - b) % WORD }

  datatype AckState = AckState(highest: nat, lowest: nat, bits: set<nat>)

  const NO_ACKS := AckState(0, 0, {})

  ghost predicate Word(a: AckState) {
    a.highest < WORD && a.lowest < WORD && forall b <- a.bits :: b < 32
  }

  predicate IsIn(a: AckState, sn: nat) {
    && a.bits != {}
    && sn <= a.highest
    && (sn < Minus32(a.highest, 31) || sn < a.lowest || a.highest - sn in a.bits)
  }

  /** Shifting by `shift` pushes no gap out of the window. */
  predicate MayShift(a: AckState, shift: nat) {
    forall i :: 31 - shift < i <= 31 ==> i in a.bits || a.highest <= Plus32(a.lowest, i)
  }

  predicate Admits(a: AckState, sn: nat) {
    a.bits == {} || sn <= a.highest || (sn <= Plus32(a.highest, 31) && MayShift(a, sn - a.highest))
  }

  function Added(a: AckState, sn: nat): AckState {
    if a.bits == {} then AckState(sn, sn, {0})
    else if sn == a.highest || !Admits(a, sn) then a
    else if sn < a.highest then
      if sn < Minus32(a.highest, 31) then a else a.(bits := a.bits + {a.highest - sn})
    else
      a.(highest := sn, bits := (set b <- a.bits | b + (sn - a.highest) < 32 :: b + (sn - a.highest)) + {0})
  }

  class AckSet {
    var highest: nat
    var lowest: nat
    var bits: set<nat>

    ghost function View(): AckState
      reads this
    {
      AckState(highest, lowest, bits)
    }

    constructor ()
      ensures View() == NO_ACKS
    {
      highest, lowest, bits := 0, 0, {};
    }

    /** The loop both `can_add` and `try_add` run before moving the window. */
    method CheckShift(shift: nat) returns (ok: bool)
      requires 1 <= shift <= 31
      ensures ok == MayShift(View(), shift)
    {
      var i := 31;
      while i > 31 - shift
        invariant 31 - shift <= i <= 31
        invariant forall j :: i < j <= 31 ==> j in bits || highest <= Plus32(lowest, j)
      {
        if !(i in bits || highest <= Plus32(lowest, i)) {
          return false;
        }
        i := i - 1;
      }
      return true;
    }

    method CanAdd(sn: nat) returns (ok: bool)
      requires Word(View()) && sn < WORD
      ensures ok == Admits(View(), sn)
    {
      if bits == {} || sn <= highest {
        return true;
      }
      if sn > Plus32(highest, 31) {
        return false;
      }
      ok := CheckShift(sn - highest);
    }

    /** `try_add` succeeds exactly when `can_add` says so. */
    method TryAdd(sn: nat) returns (ok: bool)
      requires Word(View()) && sn < WORD
      modifies this
      ensures ok == Admits(old(View()), sn)
      ensures View() == Added(old(View()), sn) && Word(View())
    {
      if bits == {} {
        highest, lowest, bits := sn, sn, {0};
        return true;
      }
      if sn == highest {
        return true;
      }
      if sn < highest {
        if !(sn < Minus32(highest, 31)) {
          bits := bits + {highest - sn};
        }
        return true;
      }
      if sn > Plus32(highest, 31) {
        return false;
      }
      var shift := sn - highest;
      ok := CheckShift(shift);
      if ok {
        bits := (set b <- bits | b + shift < 32 :: b + shift) + {0};
        highest := sn;
      }
    }
  }

  // ----- the set the window stands for

  /** The window records, without loss, the numbers `accepted` since `first`. */
  ghost predicate Records(a: AckState, first: nat, accepted: set<nat>) {
    && a.bits != {} && a.lowest == first <= a.highest && Word(a)
    && first in accepted && a.highest in accepted
    && (forall n <- accepted :: first <= n <= a.highest)
    && (forall n :: first <= n && n + 31 < a.highest ==> n in accepted)
    && (forall n :: first <= n <= a.highest && a.highest <= n + 31 ==> (n in accepted <==> a.highest - n in a.bits))
  }

  ghost predicate NoGap(first: nat, last: nat, accepted: set<nat>) {
    forall n :: first <= n <= last ==> n in accepted
  }

  /** `is_in` gives exactly the accepted numbers and those before the first. */
  ghost predicate Exact(a: AckState, first: nat, accepted: set<nat>) {
    forall n: nat :: IsIn(a, n) <==> n < first || n in accepted
  }

  /** The unsigned subtraction in `is_in` makes it exact if and only if the window has passed 31 or there is no
      gap so far. */
  lemma ExactIff(a: AckState, first: nat, accepted: set<nat>)
    requires Records(a, first, accepted)
    ensures Exact(a, first, accepted) <==> a.highest >= 31 || NoGap(first, a.highest, accepted)
  {
    if a.highest < 31 {
      assert Minus32(a.highest, 31) == a.highest - 31 + WORD;
      if Exact(a, first, accepted) {
        forall n | first <= n <= a.highest
          ensures n in accepted
        {
          assert IsIn(a, n);
        }
      }
    } else {
      assert Minus32(a.highest, 31) == a.highest - 31;
      forall n: nat
        ensures IsIn(a, n) <==> n < first || n in accepted
      {
      }
    }
  }

  /** The number is one that `try_add` acknowledges without recording it. */
  ghost predicate Lost(a: AckState, sn: nat, accepted: set<nat>) {
    a.highest < 31 && a.lowest < sn < a.highest && sn !in accepted
  }

  ghost function Accepting(a: AckState, sn: nat, accepted: set<nat>): set<nat> {
    if Admits(a, sn) && a.lowest <= sn then accepted + {sn} else accepted
  }

  /** One `try_add` keeps the record lossless if and only if the number does not fall behind a window that has
      not reached 31 yet. In particular it always does when the first number is at least 31. */
  lemma AddedRecords(a: AckState, first: nat, accepted: set<nat>, sn: nat)
    requires Records(a, first, accepted) && sn < WORD
    ensures Records(Added(a, sn), first, Accepting(a, sn, accepted)) <==> !Lost(a, sn, accepted)
  {
    var r := Added(a, sn);
    var acc := Accepting(a, sn, accepted);
    if sn < a.highest {
      if a.highest < 31 {
        assert Minus32(a.highest, 31) == a.highest - 31 + WORD;
        assert r == a;
      } else {
        assert Minus32(a.highest, 31) == a.highest - 31;
        BelowRecords(a, first, accepted, sn);
      }
    } else if sn > a.highest && Admits(a, sn) {
      assert Plus32(a.highest, 31) >= sn;
      AboveRecords(a, first, accepted, sn);
    }
  }

  lemma BelowRecords(a: AckState, first: nat, accepted: set<nat>, sn: nat)
    requires Records(a, first, accepted) && sn < a.highest && a.highest >= 31
    ensures Records(Added(a, sn), first, Accepting(a, sn, accepted))
  {
  }

  lemma AboveRecords(a: AckState, first: nat, accepted: set<nat>, sn: nat)
    requires Records(a, first, accepted) && a.highest < sn < WORD && Admits(a, sn)
    ensures Records(Added(a, sn), first, accepted + {sn})
  {
    var r := Added(a, sn);
    var shift := sn - a.highest;
    assert shift <= 31;
    forall n | first <= n && n + 31 < sn
      ensures n in accepted
    {
      if a.highest <= n + 31 {
        var i := a.highest - n;
        if i >= 0 {
          assert 31 - shift < i <= 31;
          assert i in a.bits || a.highest <= Plus32(a.lowest, i);
        }
      }
    }
    forall n | first <= n <= sn && sn <= n + 31
      ensures n in accepted + {sn} <==> sn - n in r.bits
    {
      if n < sn && sn - n in r.bits {
        assert sn - n - shift in a.bits;
      }
      if n in accepted {
        assert a.highest - n in a.bits;
      }
    }
  }

  /** The window after trying to add all the numbers, and the numbers it accepted. */
  ghost function AddAll(a: AckState, sns: seq<nat>): AckState {
    if sns == [] then a else Added(AddAll(a, sns[..|sns| - 1]), sns[|sns| - 1])
  }

  ghost function AcceptedOf(a: AckState, accepted: set<nat>, sns: seq<nat>): set<nat> {
    if sns == [] then accepted
    else
      var init := sns[..|sns| - 1];
      Accepting(AddAll(a, init), sns[|sns| - 1], AcceptedOf(a, accepted, init))
  }

  lemma {:induction false} AnyOrderRecords(first: nat, sns: seq<nat>)
    requires 31 <= first < WORD && forall n <- sns :: n < WORD
    ensures var a := AckState(first, first, {0});
            Records(AddAll(a, sns), first, AcceptedOf(a, {first}, sns))
    decreases |sns|
  {
    var a := AckState(first, first, {0});
    if sns != [] {
      var init, n := sns[..|sns| - 1], sns[|sns| - 1];
      assert n in sns && forall x <- init :: x in sns;
      AnyOrderRecords(first, init);
      AddedRecords(AddAll(a, init), first, AcceptedOf(a, {first}, init), n);
    }
  }

  /** With a first number of at least 31, whatever is added in whatever order, 32 bits answer membership in the
      unbounded set exactly. */
  lemma AnyOrderExact(first: nat, sns: seq<nat>)
    requires 31 <= first < WORD && forall n <- sns :: n < WORD
    ensures var a := Added(NO_ACKS, first);
            Exact(AddAll(a, sns), first, AcceptedOf(a, {first}, sns))
  {
    AnyOrderRecords(first, sns);
    ExactIff(AddAll(Added(NO_ACKS, first), sns), first, AcceptedOf(Added(NO_ACKS, first), {first}, sns));
  }

  // ----- how the socket uses it: 0, 1, 2, ... in order

  predicate Reaches(b: nat, n: nat) { b <= n }

  /** What the window looks like after 0 to n. */
  ghost function UpTo(n: nat): AckState {
    AckState(n, 0, set b | 0 <= b < 32 && Reaches(b, n))
  }

  lemma InOrderStart()
    ensures Added(NO_ACKS, 0) == UpTo(0) && Admits(NO_ACKS, 0)
  {
  }

  /** The highest number the window gets to in order: beyond it `highest + 31` wraps around. */
  const LAST_IN_ORDER: nat := WORD - 31

  /** The next number is accepted if and only if the window has not got to its last number. */
  lemma InOrderNext(n: nat)
    requires n <= LAST_IN_ORDER
    ensures Admits(UpTo(n), n + 1) <==> n < LAST_IN_ORDER
    ensures Added(UpTo(n), n + 1) == if n < LAST_IN_ORDER then UpTo(n + 1) else UpTo(n)
  {
    var a := UpTo(n);
    assert 0 in a.bits;
    if n < LAST_IN_ORDER {
      assert MayShift(a, 1) by { assert 31 in a.bits || n <= 30; }
      var moved, next := Added(a, n + 1), UpTo(n + 1);
      forall b <- next.bits
        ensures b in moved.bits
      {
        if b > 0 {
          assert b - 1 in a.bits;
        }
      }
      assert moved.bits == next.bits;
    }
  }

  /** Then it refuses everything above. */
  lemma InOrderFull(sn: nat)
    requires LAST_IN_ORDER < sn < WORD
    ensures !Admits(UpTo(LAST_IN_ORDER), sn) && Added(UpTo(LAST_IN_ORDER), sn) == UpTo(LAST_IN_ORDER)
  {
    assert 0 in UpTo(LAST_IN_ORDER).bits;
  }

  /** Before, it accepts up to 31 numbers ahead. */
  lemma InOrderAhead(n: nat, sn: nat)
    requires n < LAST_IN_ORDER && sn <= n + 31
    ensures Admits(UpTo(n), sn)
  {
    if sn > n {
      forall i | 31 - (sn - n) < i <= 31
        ensures i in UpTo(n).bits || n <= Plus32(0, i)
      {
        if i <= n {
          assert Reaches(i, n);
        }
      }
    }
  }

  /** After 0 to n, exactly these are in, also in the copy sent to the peer, which has no lowest number. */
  lemma InOrderIsIn(n: nat, sn: nat)
    requires n < WORD
    ensures IsIn(UpTo(n), sn) <==> sn <= n
  {
    assert 0 in UpTo(n).bits;
    if n < 31 {
      assert Minus32(n, 31) == n - 31 + WORD;
    } else {
      assert Minus32(n, 31) == n - 31;
    }
  }

  /** Without order, `is_in` claims a number that was never added. */
  lemma SmallNumbersAreInexact()
    ensures var a := Added(Added(NO_ACKS, 0), 2);
            Records(a, 0, {0, 2}) && IsIn(a, 1)
  {
    var a := Added(Added(NO_ACKS, 0), 2);
    InOrderStart();
    assert MayShift(UpTo(0), 2);
    assert a.bits == {0, 2} by { assert 0 in UpTo(0).bits; }
    assert Minus32(2, 31) == 2 - 31 + WORD;
  }
}
