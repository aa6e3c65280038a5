/** Packet bookkeeping, the congestion window and the assembly of packets
    (include/club/transport/quality_of_service.h, packet.h).

    Packets in flight are kept in the order of their sequence numbers, which is the order of the source's map.
    Window arithmetic is over the reals, truncated where the source converts to an integer. */
module Congestion {
  import opened Basics
  import opened NatSets
  import opened AckSets
  import opened PartInfos
  import opened Fragments
  import opened CyclicQueues
  import opened TransmitQueues
  import opened Codec
  import opened Packets

  const MSS: int := 1452
  const MIN_WINDOW: int := 2 * MSS

  /** With more acknowledgements a packet does not fit a segment, nor the receive buffer, which is as long. */
  const MOST_ACKS: int := 355

  /** `invalid_ts`. */
  const NO_TIME: int := 0x7FFF_FFFF_FFFF_FFFF

  datatype Flight = Flight(seqNr: nat, size: nat)

  datatype LastAck = NoneYet | Last(seqNr: nat)

  function FlightBytes(fs: seq<Flight>): nat {
    if fs == [] then 0 else FlightBytes(fs[..|fs| - 1]) + fs[|fs| - 1].size
  }

  lemma {:induction false} FlightBytesSplit(a: seq<Flight>, b: seq<Flight>)
    ensures FlightBytes(a + b) == FlightBytes(a) + FlightBytes(b)
    decreases |b|
  {
    if b == [] {
      assert a + b == a;
    } else {
      assert (a + b)[..|a + b| - 1] == a + b[..|b| - 1];
      FlightBytesSplit(a, b[..|b| - 1]);
    }
  }

  ghost predicate Ascending(fs: seq<Flight>) {
    forall i, j :: 0 <= i < j < |fs| ==> fs[i].seqNr < fs[j].seqNr
  }

  /** `_in_flight[seq_nr] = ...`: a number that wrapped around to one still in flight takes its place. */
  function PutFlight(fs: seq<Flight>, f: Flight): seq<Flight> {
    if fs == [] || f.seqNr < fs[0].seqNr then [f] + fs
    else if fs[0].seqNr == f.seqNr then [f] + fs[1..]
    else [fs[0]] + PutFlight(fs[1..], f)
  }

  lemma {:induction false} PutFlightNumbers(fs: seq<Flight>, f: Flight, i: nat)
    requires i < |PutFlight(fs, f)|
    ensures PutFlight(fs, f)[i] == f || PutFlight(fs, f)[i] in fs
    decreases |fs|
  {
    if fs != [] && fs[0].seqNr < f.seqNr && i > 0 {
      PutFlightNumbers(fs[1..], f, i - 1);
    }
  }

  lemma {:induction false} PutFlightAscends(fs: seq<Flight>, f: Flight)
    requires Ascending(fs)
    ensures Ascending(PutFlight(fs, f))
    decreases |fs|
  {
    if fs != [] && fs[0].seqNr < f.seqNr {
      PutFlightAscends(fs[1..], f);
      var rest := PutFlight(fs[1..], f);
      forall j | 0 <= j < |rest|
        ensures fs[0].seqNr < rest[j].seqNr
      {
        PutFlightNumbers(fs[1..], f, j);
      }
    }
  }

  /** At most the new packet's bytes come to those in flight. */
  lemma {:induction false} PutFlightBytes(fs: seq<Flight>, f: Flight)
    ensures FlightBytes(PutFlight(fs, f)) <= FlightBytes(fs) + f.size
    decreases |fs|
  {
    OneFlight(f);
    if fs == [] || f.seqNr < fs[0].seqNr {
      FlightBytesSplit([f], fs);
    } else {
      OneFlight(fs[0]);
      FlightBytesSplit([fs[0]], fs[1..]);
      assert [fs[0]] + fs[1..] == fs;
      if fs[0].seqNr == f.seqNr {
        FlightBytesSplit([f], fs[1..]);
      } else {
        PutFlightBytes(fs[1..], f);
        FlightBytesSplit([fs[0]], PutFlight(fs[1..], f));
      }
    }
  }

  // ----- the window

  function Trunc(r: real): int {
    if r >= 0.0 then r.Floor else -((-r).Floor)
  }

  function MinReal(a: real, b: real): real { if a < b then a else b }

  /** The window after a packet that carries a delay sample. */
  function TimedWindow(cwnd: int, newlyAcked: nat, flightSize: nat, delay: int): int
    requires cwnd > 0
  {
    var offTarget := (0.01 - delay as real / 1_000_000.0) / 0.01;
    var windowFactor := (newlyAcked * MSS) as real / cwnd as real;
    Max(Trunc(MinReal(cwnd as real + offTarget * windowFactor, (flightSize + MSS) as real)), MIN_WINDOW)
  }

  /** Section 2.4.2 of RFC 6817: after an update the window is at least two segments and, beyond those, at most
      one segment above what was in flight. */
  lemma TimedWindowBounds(cwnd: int, newlyAcked: nat, flightSize: nat, delay: int)
    requires cwnd > 0
    ensures MIN_WINDOW <= TimedWindow(cwnd, newlyAcked, flightSize, delay) <= Max(MIN_WINDOW, flightSize + MSS)
  {
    var offTarget := (0.01 - delay as real / 1_000_000.0) / 0.01;
    var windowFactor := (newlyAcked * MSS) as real / cwnd as real;
    TruncBelow(MinReal(cwnd as real + offTarget * windowFactor, (flightSize + MSS) as real), flightSize + MSS);
  }

  /** Section 2.4.2 of RFC 6817: below the target delay of 10 ms the window does not shrink, above it the window does
      not grow, but for its bounds. */
  lemma TimedWindowDirection(cwnd: int, newlyAcked: nat, flightSize: nat, delay: int)
    requires cwnd > 0
    ensures delay <= 10_000 ==> TimedWindow(cwnd, newlyAcked, flightSize, delay) >= Min(cwnd, flightSize + MSS)
    ensures delay >= 10_000 ==> TimedWindow(cwnd, newlyAcked, flightSize, delay) <= Max(cwnd, MIN_WINDOW)
  {
    var offTarget := (0.01 - delay as real / 1_000_000.0) / 0.01;
    var windowFactor := (newlyAcked * MSS) as real / cwnd as real;
    QuotientPositive((newlyAcked * MSS) as real, cwnd as real);
    if delay <= 10_000 {
      assert delay as real / 1_000_000.0 <= 0.01;
      QuotientPositive(0.01 - delay as real / 1_000_000.0, 0.01);
      ProductSign(offTarget, windowFactor);
    }
    if delay >= 10_000 {
      assert delay as real / 1_000_000.0 >= 0.01;
      QuotientPositive(delay as real / 1_000_000.0 - 0.01, 0.01);
      assert offTarget == -((delay as real / 1_000_000.0 - 0.01) / 0.01);
      ProductSign(-offTarget, windowFactor);
      assert -offTarget * windowFactor == -(offTarget * windowFactor);
    }
  }

  lemma QuotientPositive(a: real, b: real)
    requires a >= 0.0 && b > 0.0
    ensures a / b >= 0.0
  {
  }

  lemma ProductSign(a: real, b: real)
    requires a >= 0.0 && b >= 0.0
    ensures a * b >= 0.0
  {
  }

  lemma TruncBelow(r: real, n: nat)
    requires r <= n as real
    ensures Trunc(r) <= n
  {
  }

  function LossWindow(cwnd: int): int {
    Min(cwnd, Max(cwnd / 2, MIN_WINDOW))
  }

  // ----- acknowledged packets

  datatype AckScan = AckScan(inFlight: seq<Flight>, last: LastAck, newlyAcked: nat, loss: bool)

  /** `erase(begin(), upper_bound(sn))`. */
  function DropUpTo(fs: seq<Flight>, sn: nat): seq<Flight> {
    if fs == [] || fs[0].seqNr > sn then fs else DropUpTo(fs[1..], sn)
  }

  function TakeAck(s: AckScan, sn: nat): AckScan {
    if exists i :: 0 <= i < |s.inFlight| && s.inFlight[i].seqNr == sn then
      var i := IndexOf(s.inFlight, sn);
      s.(last := Last(sn), newlyAcked := s.newlyAcked + s.inFlight[i].size,
         inFlight := s.inFlight[..i] + s.inFlight[i + 1..])
    else s.(last := Last(sn))
  }

  function IndexOf(fs: seq<Flight>, sn: nat): (i: nat)
    requires exists i :: 0 <= i < |fs| && fs[i].seqNr == sn
    ensures i < |fs| && fs[i].seqNr == sn
  {
    if fs[0].seqNr == sn then 0 else 1 + IndexOf(fs[1..], sn)
  }

  /** One packet acknowledgement: out of order ones drop everything up to them, late ones do nothing else. */
  function OneAck(s: AckScan, sn: nat): AckScan {
    if s.last.NoneYet? || sn == Plus32(s.last.seqNr, 1) then TakeAck(s, sn)
    else if sn < Plus32(s.last.seqNr, 1) then s.(inFlight := DropUpTo(s.inFlight, sn))
    else TakeAck(s.(inFlight := DropUpTo(s.inFlight, sn), loss := true), sn)
  }

  function ScanAcks(s: AckScan, acks: seq<nat>): AckScan {
    if acks == [] then s else OneAck(ScanAcks(s, acks[..|acks| - 1]), acks[|acks| - 1])
  }

  lemma {:induction false} DropUpToSuffix(fs: seq<Flight>, sn: nat)
    ensures exists n :: 0 <= n <= |fs| && DropUpTo(fs, sn) == fs[n..]
    decreases |fs|
  {
    if fs == [] || fs[0].seqNr > sn {
      assert DropUpTo(fs, sn) == fs[0..];
    } else {
      DropUpToSuffix(fs[1..], sn);
      var n :| 0 <= n <= |fs[1..]| && DropUpTo(fs[1..], sn) == fs[1..][n..];
      assert fs[1..][n..] == fs[n + 1..];
    }
  }

  lemma {:induction false} DropUpToBytes(fs: seq<Flight>, sn: nat)
    ensures FlightBytes(DropUpTo(fs, sn)) <= FlightBytes(fs)
    ensures Ascending(fs) ==> Ascending(DropUpTo(fs, sn))
    ensures forall f <- DropUpTo(fs, sn) :: f in fs
  {
    hide FlightBytes, DropUpTo;
    DropUpToSuffix(fs, sn);
    var n :| 0 <= n <= |fs| && DropUpTo(fs, sn) == fs[n..];
    FlightBytesSplit(fs[..n], fs[n..]);
    assert fs == fs[..n] + fs[n..];
  }

  lemma {:induction false} TakeAckBytes(s: AckScan, sn: nat)
    ensures var t := TakeAck(s, sn);
            && t.newlyAcked + FlightBytes(t.inFlight) == s.newlyAcked + FlightBytes(s.inFlight)
            && (Ascending(s.inFlight) ==> Ascending(t.inFlight))
            && forall f <- t.inFlight :: f in s.inFlight
  {
    hide FlightBytes, IndexOf;
    if exists i :: 0 <= i < |s.inFlight| && s.inFlight[i].seqNr == sn {
      var fs := s.inFlight;
      var i := IndexOf(fs, sn);
      assert fs == fs[..i] + ([fs[i]] + fs[i + 1..]);
      FlightBytesSplit(fs[..i], [fs[i]] + fs[i + 1..]);
      FlightBytesSplit([fs[i]], fs[i + 1..]);
      FlightBytesSplit(fs[..i], fs[i + 1..]);
      OneFlight(fs[i]);
    }
  }

  lemma OneFlight(f: Flight)
    ensures FlightBytes([f]) == f.size
  {
    assert [f][..0] == [];
  }

  /** Bytes counted as acknowledged were in flight, and acknowledgements never add to what is in flight. */
  lemma {:induction false} ScanConserves(s: AckScan, acks: seq<nat>)
    ensures var t := ScanAcks(s, acks);
            && s.newlyAcked <= t.newlyAcked
            && t.newlyAcked + FlightBytes(t.inFlight) <= s.newlyAcked + FlightBytes(s.inFlight)
            && (Ascending(s.inFlight) ==> Ascending(t.inFlight))
            && forall f <- t.inFlight :: f in s.inFlight
    decreases |acks|
  {
    if acks != [] {
      ScanConserves(s, acks[..|acks| - 1]);
      var t := ScanAcks(s, acks[..|acks| - 1]);
      var sn := acks[|acks| - 1];
      DropUpToBytes(t.inFlight, sn);
      TakeAckBytes(t, sn);
      TakeAckBytes(t.(inFlight := DropUpTo(t.inFlight, sn), loss := true), sn);
    }
  }

  // ----- what acknowledgements mean, packet by packet

  /** The number up to which packets are acknowledged: numbers that fall behind do not change it. */
  function LastAfter(last: LastAck, acks: seq<nat>): LastAck {
    if acks == [] then last
    else
      var before, sn := LastAfter(last, acks[..|acks| - 1]), acks[|acks| - 1];
      if before.Last? && sn < Plus32(before.seqNr, 1) then before else Last(sn)
  }

  /** The acknowledgement at index i is the next one, or the first of all. */
  predicate InOrder(last: LastAck, acks: seq<nat>, i: nat)
    requires i < |acks|
  {
    var before := LastAfter(last, acks[..i]);
    before.NoneYet? || acks[i] == Plus32(before.seqNr, 1)
  }

  /** It leaves a gap behind the last one. */
  predicate LeavesGap(last: LastAck, acks: seq<nat>, i: nat)
    requires i < |acks|
  {
    var before := LastAfter(last, acks[..i]);
    before.Last? && Plus32(before.seqNr, 1) < acks[i]
  }

  ghost predicate AnyGap(last: LastAck, acks: seq<nat>) {
    exists i: nat :: i < |acks| && LeavesGap(last, acks, i)
  }

  /** It concerns the packet with this number: in order just that packet, out of order all up to it. */
  predicate Concerns(last: LastAck, acks: seq<nat>, i: nat, seqNr: nat)
    requires i < |acks|
  {
    if InOrder(last, acks, i) then acks[i] == seqNr else seqNr <= acks[i]
  }

  ghost predicate StaysOut(last: LastAck, acks: seq<nat>, seqNr: nat) {
    forall i: nat :: i < |acks| ==> !Concerns(last, acks, i, seqNr)
  }

  /** The packet counts as newly acknowledged: its number came in order before it was given up. */
  ghost predicate Counted(last: LastAck, acks: seq<nat>, seqNr: nat)
    decreases |acks|
  {
    && acks != []
    && var init, i := acks[..|acks| - 1], |acks| - 1;
    Counted(last, init, seqNr) || (StaysOut(last, init, seqNr) && InOrder(last, acks, i) && acks[i] == seqNr)
  }

  ghost function CountedBytes(last: LastAck, acks: seq<nat>, fs: seq<Flight>): nat {
    if fs == [] then 0
    else
      var f := fs[|fs| - 1];
      CountedBytes(last, acks, fs[..|fs| - 1]) + if Counted(last, acks, f.seqNr) then f.size else 0
  }

  lemma ConcernsPrefix(last: LastAck, acks: seq<nat>, i: nat, seqNr: nat)
    requires i < |acks| - 1
    ensures var init := acks[..|acks| - 1];
            && (Concerns(last, init, i, seqNr) <==> Concerns(last, acks, i, seqNr))
            && (LeavesGap(last, init, i) <==> LeavesGap(last, acks, i))
  {
    assert acks[..|acks| - 1][..i] == acks[..i];
  }

  lemma StaysOutNext(last: LastAck, acks: seq<nat>, seqNr: nat)
    requires acks != []
    ensures StaysOut(last, acks, seqNr) <==>
            StaysOut(last, acks[..|acks| - 1], seqNr) && !Concerns(last, acks, |acks| - 1, seqNr)
  {
    hide Concerns, LeavesGap;
    var init := acks[..|acks| - 1];
    forall i: nat | i < |init|
      ensures Concerns(last, init, i, seqNr) <==> Concerns(last, acks, i, seqNr)
    {
      ConcernsPrefix(last, acks, i, seqNr);
    }
  }

  lemma AnyGapNext(last: LastAck, acks: seq<nat>)
    requires acks != []
    ensures AnyGap(last, acks) <==> AnyGap(last, acks[..|acks| - 1]) || LeavesGap(last, acks, |acks| - 1)
  {
    hide Concerns, LeavesGap;
    var init := acks[..|acks| - 1];
    forall i: nat | i < |init|
      ensures LeavesGap(last, init, i) <==> LeavesGap(last, acks, i)
    {
      ConcernsPrefix(last, acks, i, 0);
    }
  }

  lemma {:induction false} DropUpToKeeps(fs: seq<Flight>, sn: nat, f: Flight)
    requires Ascending(fs) && f in fs
    ensures f in DropUpTo(fs, sn) <==> sn < f.seqNr
    decreases |fs|
  {
    if fs[0].seqNr > sn {
      var i :| 0 <= i < |fs| && fs[i] == f;
    } else {
      DropUpToBytes(fs[1..], sn);
      if f in fs[1..] {
        DropUpToKeeps(fs[1..], sn, f);
      } else {
        assert f == fs[0];
        assert forall g <- fs[1..] :: g != f;
      }
    }
  }

  lemma TakeAckKeeps(s: AckScan, sn: nat, f: Flight)
    requires Ascending(s.inFlight) && f in s.inFlight
    ensures f in TakeAck(s, sn).inFlight <==> f.seqNr != sn
  {
    var fs := s.inFlight;
    var j :| 0 <= j < |fs| && fs[j] == f;
    if exists i :: 0 <= i < |fs| && fs[i].seqNr == sn {
      var i := IndexOf(fs, sn);
      if f.seqNr == sn {
        assert i == j;
        assert forall g <- fs[..i] + fs[i + 1..] :: g.seqNr != sn;
      } else if j < i {
        assert fs[..i][j] == f;
      } else {
        assert fs[i + 1..][j - i - 1] == f;
      }
    }
  }

  /** What one more acknowledgement does to a packet in flight. */
  lemma OneAckKeeps(s: AckScan, last: LastAck, acks: seq<nat>, f: Flight)
    requires acks != [] && Ascending(s.inFlight) && f in s.inFlight && s.last == LastAfter(last, acks[..|acks| - 1])
    ensures f in OneAck(s, acks[|acks| - 1]).inFlight <==> !Concerns(last, acks, |acks| - 1, f.seqNr)
  {
    hide DropUpTo, IndexOf;
    var sn := acks[|acks| - 1];
    DropUpToKeeps(s.inFlight, sn, f);
    DropUpToBytes(s.inFlight, sn);
    if InOrder(last, acks, |acks| - 1) {
      TakeAckKeeps(s, sn, f);
    } else if Plus32(s.last.seqNr, 1) < sn {
      var dropped := s.(inFlight := DropUpTo(s.inFlight, sn), loss := true);
      if f in dropped.inFlight {
        TakeAckKeeps(dropped, sn, f);
      } else {
        TakeAckBytes(dropped, sn);
      }
    }
  }

  /** The scan, packet by packet: which stay in flight, and whether a loss is detected. */
  lemma {:induction false} ScanMeans(fs: seq<Flight>, last: LastAck, acks: seq<nat>)
    requires Ascending(fs)
    ensures var t := ScanAcks(AckScan(fs, last, 0, false), acks);
            && t.last == LastAfter(last, acks) && (t.loss <==> AnyGap(last, acks))
            && (forall f <- fs :: f in t.inFlight <==> StaysOut(last, acks, f.seqNr))
    decreases |acks|
  {
    hide FlightBytes, OneAck, StaysOut, AnyGap, Concerns, LeavesGap;
    var s := AckScan(fs, last, 0, false);
    if acks == [] {
      NothingConcerns(last, fs);
    } else {
      var init := acks[..|acks| - 1];
      var t, t' := ScanAcks(s, init), ScanAcks(s, acks);
      ScanMeans(fs, last, init);
      ScanConserves(s, init);
      ScanConserves(s, acks);
      AnyGapNext(last, acks);
      OneAckState(t, last, acks);
      forall f <- fs
        ensures f in t'.inFlight <==> StaysOut(last, acks, f.seqNr)
      {
        StaysOutNext(last, acks, f.seqNr);
        if f in t.inFlight {
          OneAckKeeps(t, last, acks, f);
        } else {
          OneAckShrinks(t, acks[|acks| - 1]);
        }
      }
    }
  }

  lemma NothingConcerns(last: LastAck, fs: seq<Flight>)
    ensures !AnyGap(last, []) && forall f <- fs :: StaysOut(last, [], f.seqNr)
  {
  }

  lemma OneAckState(s: AckScan, last: LastAck, acks: seq<nat>)
    requires acks != [] && s.last == LastAfter(last, acks[..|acks| - 1])
    ensures var t := OneAck(s, acks[|acks| - 1]);
            t.last == LastAfter(last, acks) && (t.loss <==> s.loss || LeavesGap(last, acks, |acks| - 1))
  {
    hide DropUpTo, IndexOf;
  }

  lemma OneAckShrinks(s: AckScan, sn: nat)
    ensures forall f <- OneAck(s, sn).inFlight :: f in s.inFlight
  {
    hide FlightBytes, DropUpTo, TakeAck;
    DropUpToBytes(s.inFlight, sn);
    TakeAckBytes(s, sn);
    TakeAckBytes(s.(inFlight := DropUpTo(s.inFlight, sn), loss := true), sn);
  }

  /** A packet whose number is acknowledged does not stay out; one above all of them does. */
  lemma StaysOutBounds(last: LastAck, acks: seq<nat>, seqNr: nat)
    ensures seqNr in acks ==> !StaysOut(last, acks, seqNr)
    ensures (forall a <- acks :: a < seqNr) ==> StaysOut(last, acks, seqNr)
  {
    hide LastAfter;
    if seqNr in acks {
      var i: nat :| i < |acks| && acks[i] == seqNr;
      assert Concerns(last, acks, i, seqNr);
    }
    if forall a <- acks :: a < seqNr {
      forall i: nat | i < |acks|
        ensures !Concerns(last, acks, i, seqNr)
      {
        assert acks[i] in acks;
      }
    }
  }

  /** The number at index i exceeds by more than one both the last acknowledged one and the one before it. */
  predicate GapBefore(last: LastAck, acks: seq<nat>, i: nat)
    requires i < |acks|
  {
    && (i > 0 || last.Last?)
    && (last.Last? ==> acks[i] > last.seqNr + 1) && (i > 0 ==> acks[i] > acks[i - 1] + 1)
  }

  /** For ascending numbers a loss is a gap among them or behind the last acknowledged one. */
  lemma GapMeans(last: LastAck, acks: seq<nat>)
    requires forall i, j :: 0 <= i < j < |acks| ==> acks[i] < acks[j]
    requires (last.Last? ==> last.seqNr < WORD - 1) && forall i :: 0 <= i < |acks| ==> acks[i] < WORD - 1
    ensures AnyGap(last, acks) <==> exists i: nat :: i < |acks| && GapBefore(last, acks, i)
  {
    forall i: nat | i < |acks|
      ensures LeavesGap(last, acks, i) <==> GapBefore(last, acks, i)
    {
      LastOfAscending(last, acks, i);
    }
  }

  lemma {:induction false} LastOfAscending(last: LastAck, acks: seq<nat>, i: nat)
    requires i <= |acks| && forall i, j :: 0 <= i < j < |acks| ==> acks[i] < acks[j]
    requires (last.Last? ==> last.seqNr < WORD - 1) && forall i :: 0 <= i < |acks| ==> acks[i] < WORD - 1
    ensures LastAfter(last, acks[..i]) ==
            if i == 0 then last
            else Last(if last.Last? then Max(last.seqNr, acks[i - 1]) else acks[i - 1])
    decreases i
  {
    hide Plus32, LastAfter;
    LastStep(last, acks, i);
    if i > 0 {
      LastOfAscending(last, acks, i - 1);
      var before := LastAfter(last, acks[..i - 1]);
      if before.Last? {
        NextNumber(before.seqNr);
      }
    }
  }

  lemma NextNumber(n: nat)
    requires n < WORD - 1
    ensures Plus32(n, 1) == n + 1
  {
  }

  lemma LastStep(last: LastAck, acks: seq<nat>, i: nat)
    requires i <= |acks|
    ensures LastAfter(last, acks[..i]) ==
            if i == 0 then last
            else
              var before, sn := LastAfter(last, acks[..i - 1]), acks[i - 1];
              if before.Last? && sn < Plus32(before.seqNr, 1) then before else Last(sn)
  {
    if i > 0 {
      assert acks[..i][..i - 1] == acks[..i - 1];
    }
  }

  // ----- the bytes newly acknowledged

  lemma {:induction false} CountedStep(last: LastAck, acks: seq<nat>, fs: seq<Flight>)
    requires acks != [] && Ascending(fs)
    ensures var init, sn := acks[..|acks| - 1], acks[|acks| - 1];
            CountedBytes(last, acks, fs) == CountedBytes(last, init, fs) +
              (if InOrder(last, acks, |acks| - 1) then SizeOut(last, init, fs, sn) else 0)
    decreases |fs|
  {
    hide InOrder, StaysOut;
    if fs != [] {
      var f, rest := fs[|fs| - 1], fs[..|fs| - 1];
      var init, sn := acks[..|acks| - 1], acks[|acks| - 1];
      CountedStep(last, acks, rest);
      CountedIsIn(last, init, f.seqNr);
      if f.seqNr == sn {
        NoneOut(last, init, rest, sn);
      }
    }
  }

  /** The size of the packet sn, if it is still out. */
  ghost function SizeOut(last: LastAck, acks: seq<nat>, fs: seq<Flight>, sn: nat): nat {
    if fs == [] then 0
    else
      var f := fs[|fs| - 1];
      SizeOut(last, acks, fs[..|fs| - 1], sn) + if f.seqNr == sn && StaysOut(last, acks, sn) then f.size else 0
  }

  lemma {:induction false} NoneOut(last: LastAck, acks: seq<nat>, fs: seq<Flight>, sn: nat)
    requires forall f <- fs :: f.seqNr != sn
    ensures SizeOut(last, acks, fs, sn) == 0
    decreases |fs|
  {
    if fs != [] {
      NoneOut(last, acks, fs[..|fs| - 1], sn);
    }
  }

  lemma {:induction false} CountedIsIn(last: LastAck, acks: seq<nat>, seqNr: nat)
    ensures Counted(last, acks, seqNr) ==> !StaysOut(last, acks, seqNr)
    decreases |acks|
  {
    hide StaysOut, LastAfter;
    if acks != [] {
      CountedIsIn(last, acks[..|acks| - 1], seqNr);
      StaysOutNext(last, acks, seqNr);
    }
  }

  lemma {:induction false} SizeOutIs(last: LastAck, acks: seq<nat>, fs: seq<Flight>, f: Flight)
    requires Ascending(fs) && f in fs
    ensures SizeOut(last, acks, fs, f.seqNr) == if StaysOut(last, acks, f.seqNr) then f.size else 0
    decreases |fs|
  {
    hide StaysOut;
    var g, rest := fs[|fs| - 1], fs[..|fs| - 1];
    if g.seqNr == f.seqNr {
      assert g == f;
      NoneOut(last, acks, rest, f.seqNr);
    } else {
      assert f in rest;
      SizeOutIs(last, acks, rest, f);
    }
  }

  lemma {:induction false} NothingCounted(last: LastAck, fs: seq<Flight>)
    ensures CountedBytes(last, [], fs) == 0
    decreases |fs|
  {
    if fs != [] {
      NothingCounted(last, fs[..|fs| - 1]);
    }
  }

  lemma OneAckCounts(s: AckScan, fs: seq<Flight>, last: LastAck, acks: seq<nat>)
    requires acks != [] && Ascending(fs) && Ascending(s.inFlight) && s.last == LastAfter(last, acks[..|acks| - 1])
    requires forall f <- s.inFlight :: f in fs
    requires forall f <- fs :: f in s.inFlight <==> StaysOut(last, acks[..|acks| - 1], f.seqNr)
    ensures OneAck(s, acks[|acks| - 1]).newlyAcked ==
            s.newlyAcked +
            if InOrder(last, acks, |acks| - 1) then SizeOut(last, acks[..|acks| - 1], fs, acks[|acks| - 1]) else 0
  {
    hide DropUpTo, IndexOf, StaysOut, LastAfter;
    var init, sn := acks[..|acks| - 1], acks[|acks| - 1];
    if InOrder(last, acks, |acks| - 1) {
      if exists i :: 0 <= i < |s.inFlight| && s.inFlight[i].seqNr == sn {
        var f := s.inFlight[IndexOf(s.inFlight, sn)];
        assert f in s.inFlight;
        SizeOutIs(last, init, fs, f);
      } else if f :| f in fs && f.seqNr == sn {
        SizeOutIs(last, init, fs, f);
      } else {
        NoneOut(last, init, fs, sn);
      }
    } else if Plus32(s.last.seqNr, 1) < sn {
      DropUpToBytes(s.inFlight, sn);
      forall g <- DropUpTo(s.inFlight, sn)
        ensures g.seqNr != sn
      {
        DropUpToKeeps(s.inFlight, sn, g);
      }
    }
  }

  /** The bytes counted as newly acknowledged are those of the packets whose numbers came in order. */
  lemma {:induction false} ScanCounts(fs: seq<Flight>, last: LastAck, acks: seq<nat>)
    requires Ascending(fs)
    ensures ScanAcks(AckScan(fs, last, 0, false), acks).newlyAcked == CountedBytes(last, acks, fs)
    decreases |acks|
  {
    hide FlightBytes, OneAck, StaysOut, CountedBytes, InOrder, SizeOut;
    var s := AckScan(fs, last, 0, false);
    if acks == [] {
      NothingCounted(last, fs);
    } else {
      var init := acks[..|acks| - 1];
      ScanCounts(fs, last, init);
      ScanMeans(fs, last, init);
      ScanConserves(s, init);
      CountedStep(last, acks, fs);
      OneAckCounts(ScanAcks(s, init), fs, last, acks);
    }
  }

  // ----- the acknowledgements to send, in increasing order

  /** The acknowledgement part of the next packet. */
  function PartOf(acks: set<nat>, window: AckState): AckPart {
    if acks == {} then NoAckPart else AckPart(Sorted(acks), window)
  }

  function TimeDifference(now: int, lastRecv: int): int {
    if lastRecv != NO_TIME then now - lastRecv else NO_TIME
  }

  function HeaderSize(acks: set<nat>): nat {
    17 + if acks == {} then 0 else 10 + 4 * |acks|
  }

  lemma NumbersOf(s: set<nat>)
    ensures s == {} ==> NumbersBytes(Sorted(s)) == []
    ensures s != {} ==>
              NumbersBytes(Sorted(s)) == BigEndian(Least(s), 4) + NumbersBytes(Sorted(s - {Least(s)}))
  {
    hide BigEndian;
    if s != {} {
      assert Sorted(s)[1..] == Sorted(s - {Least(s)});
    }
  }

  function TimesBytes(now: int, diff: int): (b: Bytes)
    ensures |b| == 16
  {
    BigEndian(Unsigned64(now), 8) + BigEndian(Unsigned64(diff), 8)
  }

  class QualityOfService {
    var cwnd: int
    var inFlight: seq<Flight>
    var nextSeq: nat
    var acks: set<nat>
    var lastReceivedAck: LastAck
    var newlyAcked: nat
    var baseDelay: int
    var lastRecvTime: int
    var receivedByPeer: AckState

    ghost predicate Valid()
      reads this
    {
      cwnd >= MIN_WINDOW && Ascending(inFlight) && nextSeq < WORD && forall a <- acks :: a < WORD
    }

    constructor ()
      ensures Valid() && inFlight == [] && acks == {} && receivedByPeer == NO_ACKS
    {
      cwnd, inFlight, nextSeq, acks := MIN_WINDOW, [], 0, {};
      lastReceivedAck, newlyAcked, baseDelay, lastRecvTime := NoneYet, 0, NO_TIME, NO_TIME;
      receivedByPeer := NO_ACKS;
    }

    method BytesInFlight() returns (n: nat)
      ensures n == FlightBytes(inFlight)
    {
      n := 0;
      var i := 0;
      while i < |inFlight|
        invariant i <= |inFlight| && n == FlightBytes(inFlight[..i])
      {
        assert inFlight[..i + 1][..i] == inFlight[..i];
        n := n + inFlight[i].size;
        i := i + 1;
      }
      assert inFlight[..i] == inFlight;
    }

    /** What the window leaves for the next packet, at most one segment. */
    method NextPacketMaxSize() returns (n: nat)
      ensures n <= MSS && (n > 0 ==> FlightBytes(inFlight) + n <= cwnd)
      ensures n == 0 ==> cwnd <= FlightBytes(inFlight)
      ensures n == MSS || cwnd <= FlightBytes(inFlight) + n
      ensures inFlight == [] && cwnd >= MIN_WINDOW ==> n == MSS
    {
      var flight := BytesInFlight();
      if cwnd - flight <= 0 {
        return 0;
      }
      n := Min(MSS, cwnd - flight);
    }

    /** Packets in flight are given up; the window is free again. */
    method ClearInFlightInfo()
      requires Valid()
      modifies this`inFlight
      ensures Valid() && inFlight == []
    {
      inFlight := [];
    }

    /** Writes the times and, if there are any, drains the acknowledgements. */
    method EncodeHeader(e: Encoder, window: AckState, now: int) returns (hasAcks: bool)
      requires e.Valid() && !e.wasError && e.begin + HeaderSize(acks) <= e.buf.Length
      modifies this`acks, e, e.buf
      ensures e.Valid() && !e.wasError && hasAcks == (old(acks) != {}) && acks == {}
      ensures e.begin == old(e.begin) + HeaderSize(old(acks))
      ensures e.buf[..e.begin] == old(e.buf[..e.begin]) + TimesBytes(now, TimeDifference(now, lastRecvTime))
                                  + AckBytes(PartOf(old(acks), window))
    {
      hide BigEndian, Sorted, Unsigned64, Overwrite, NumbersBytes, WindowBytes;
      e.PutUint(Unsigned64(now), 8);
      e.PutUint(Unsigned64(TimeDifference(now, lastRecvTime)), 8);
      hasAcks := acks != {};
      ghost var before := e.buf[..e.begin];
      assert before == old(e.buf[..e.begin]) + TimesBytes(now, TimeDifference(now, lastRecvTime));
      if !hasAcks {
        e.PutUint(0, 1);
      } else {
        e.PutUint(1, 1);
        EncodeAcks(e);
        e.PutRaw(WindowBytes(window));
        assert e.buf[..e.begin] == before + (BigEndian(1, 1) + (BigEndian(|old(acks)|, 2)
                                   + (NumbersBytes(Sorted(old(acks))) + WindowBytes(window))));
      }
    }

    method EncodeAcks(e: Encoder)
      requires e.Valid() && !e.wasError && e.begin + 2 + 4 * |acks| <= e.buf.Length
      modifies this`acks, e, e.buf
      ensures e.Valid() && !e.wasError && acks == {} && e.begin == old(e.begin) + 2 + 4 * |old(acks)|
      ensures e.buf[..e.begin] == old(e.buf[..e.begin]) + (BigEndian(|old(acks)|, 2) + NumbersBytes(Sorted(old(acks))))
    {
      hide BigEndian, Sorted, NumbersBytes, Overwrite, Least;
      e.PutUint(|acks|, 2);
      ghost var before := e.buf[..e.begin];
      while acks != {}
        invariant e.Valid() && !e.wasError && e.begin + 4 * |acks| == old(e.begin) + 2 + 4 * |old(acks)|
        invariant e.buf[..e.begin] + NumbersBytes(Sorted(acks)) == before + NumbersBytes(Sorted(old(acks)))
        decreases |acks|
      {
        var sn := Least(acks);
        NumbersOf(acks);
        ghost var done := e.buf[..e.begin];
        e.PutUint(sn, 4);
        acks := acks - {sn};
        assert done + (BigEndian(sn, 4) + NumbersBytes(Sorted(acks))) == e.buf[..e.begin] + NumbersBytes(Sorted(acks));
      }
      NumbersOf({});
      assert e.buf[..e.begin] + [] == e.buf[..e.begin];
    }

    method EncodePayloadHeader(e: Encoder, packetSize: nat)
      requires Valid() && e.Valid()
      modifies this`inFlight, this`nextSeq, e, e.buf
      ensures Valid() && e.Valid() && nextSeq == Plus32(old(nextSeq), 1)
      ensures inFlight == PutFlight(old(inFlight), Flight(old(nextSeq), packetSize))
      ensures old(e.Fits(4)) ==> e.buf[..] == Overwrite(old(e.buf[..]), old(e.begin), BigEndian(old(nextSeq), 4))
    {
      PutFlightAscends(inFlight, Flight(nextSeq, packetSize));
      inFlight := PutFlight(inFlight, Flight(nextSeq, packetSize));
      e.PutUint(nextSeq, 4);
      nextSeq := Plus32(nextSeq, 1);
    }

    method DecodePayloadHeader(seqNr: nat)
      requires Valid() && seqNr < WORD
      modifies this`acks
      ensures Valid() && acks == old(acks) + {seqNr}
    {
      acks := acks + {seqNr};
    }

    method DecodeAcks(ack: AckPart)
      requires Valid()
      modifies this`inFlight, this`lastReceivedAck, this`newlyAcked, this`cwnd, this`receivedByPeer
      ensures Valid() && FlightBytes(inFlight) <= FlightBytes(old(inFlight)) && cwnd <= old(cwnd)
      ensures ack.NoAckPart? ==> newlyAcked == old(newlyAcked) && inFlight == old(inFlight) && cwnd == old(cwnd)
      ensures ack.AckPart? ==>
                var scan := ScanAcks(AckScan(old(inFlight), old(lastReceivedAck), 0, false), ack.acks);
                && inFlight == scan.inFlight && lastReceivedAck == scan.last && newlyAcked == scan.newlyAcked
                && cwnd == (if scan.loss then LossWindow(old(cwnd)) else old(cwnd))
                && receivedByPeer == ack.window
      ensures ack.NoAckPart? ==> receivedByPeer == old(receivedByPeer) && lastReceivedAck == old(lastReceivedAck)
    {
      hide FlightBytes, ScanAcks, OneAck;
      if ack.NoAckPart? {
        return;
      }
      ghost var start := AckScan(inFlight, lastReceivedAck, 0, false);
      ScanConserves(start, ack.acks);
      ScanNothing(start);
      newlyAcked := 0;
      var loss := false;
      var i := 0;
      assert ack.acks[..0] == [];
      while i < |ack.acks|
        invariant i <= |ack.acks|
        invariant AckScan(inFlight, lastReceivedAck, newlyAcked, loss) == ScanAcks(start, ack.acks[..i])
        invariant cwnd == old(cwnd)
      {
        ScanNext(start, ack.acks, i);
        var s := OneAck(AckScan(inFlight, lastReceivedAck, newlyAcked, loss), ack.acks[i]);
        inFlight, lastReceivedAck, newlyAcked, loss := s.inFlight, s.last, s.newlyAcked, s.loss;
        i := i + 1;
      }
      assert ack.acks[..i] == ack.acks;
      if loss {
        cwnd := LossWindow(cwnd);
      }
      receivedByPeer := ack.window;
    }

    /** What the acknowledgements of a packet do: which packets stay in flight, how many bytes count as newly
        acknowledged, and whether a gap lowers the window. */
    ghost predicate AcksTaken(ack: AckPart, inFlight0: seq<Flight>, last0: LastAck, newlyAcked0: nat,
                              window0: AckState)
      reads this
    {
      match ack
      case NoAckPart =>
        && inFlight == inFlight0 && lastReceivedAck == last0 && newlyAcked == newlyAcked0
        && receivedByPeer == window0
      case AckPart(acks, window) =>
        && receivedByPeer == window && lastReceivedAck == LastAfter(last0, acks)
        && (forall f <- inFlight :: f in inFlight0 && f.seqNr !in acks)
        && (forall f <- inFlight0 :: f in inFlight <==> StaysOut(last0, acks, f.seqNr))
        && (forall f <- inFlight0 :: (forall a <- acks :: a < f.seqNr) ==> f in inFlight)
        && newlyAcked == CountedBytes(last0, acks, inFlight0)
    }

    /** The window after the acknowledgements: a gap halves it, down to two segments. */
    static ghost function AfterLoss(ack: AckPart, last0: LastAck, cwnd0: int): int {
      if ack.AckPart? && AnyGap(last0, ack.acks) then Min(cwnd0, Max(cwnd0 / 2, MIN_WINDOW)) else cwnd0
    }

    /** The window never falls below two segments, and a delay sample leaves it at most one segment above what
        was in flight when the packet came. */
    method DecodeHeader(time: int, diff: int, ack: AckPart)
      requires Valid()
      modifies this
      ensures Valid() && FlightBytes(inFlight) <= FlightBytes(old(inFlight))
      ensures diff == NO_TIME ==> cwnd <= old(cwnd)
      ensures diff != NO_TIME ==> MIN_WINDOW <= cwnd <= Max(MIN_WINDOW, FlightBytes(old(inFlight)) + MSS)
      ensures nextSeq == old(nextSeq) && acks == old(acks) && lastRecvTime == time
      ensures AcksTaken(ack, old(inFlight), old(lastReceivedAck), old(newlyAcked), old(receivedByPeer))
      ensures baseDelay == if diff == NO_TIME then old(baseDelay) else Min(diff, old(baseDelay))
      ensures var after := AfterLoss(ack, old(lastReceivedAck), old(cwnd));
              cwnd == if diff == NO_TIME then after
                      else TimedWindow(after, newlyAcked, FlightBytes(old(inFlight)), diff - baseDelay)
    {
      hide FlightBytes, TimedWindow, ScanAcks, StaysOut, CountedBytes, AnyGap;
      lastRecvTime := time;
      var flightSize := BytesInFlight();
      ghost var flight0, last0 := inFlight, lastReceivedAck;
      DecodeAcks(ack);
      if ack.AckPart? {
        ScanMeans(flight0, last0, ack.acks);
        ScanCounts(flight0, last0, ack.acks);
        ScanConserves(AckScan(flight0, last0, 0, false), ack.acks);
        forall f <- flight0
          ensures f.seqNr in ack.acks ==> !StaysOut(last0, ack.acks, f.seqNr)
          ensures (forall a <- ack.acks :: a < f.seqNr) ==> StaysOut(last0, ack.acks, f.seqNr)
        {
          StaysOutBounds(last0, ack.acks, f.seqNr);
        }
      }
      if diff == NO_TIME {
        return;
      }
      if diff < baseDelay {
        baseDelay := diff;
      }
      TimedWindowBounds(cwnd, newlyAcked, flightSize, diff - baseDelay);
      cwnd := TimedWindow(cwnd, newlyAcked, flightSize, diff - baseDelay);
    }
  }

  lemma ScanNothing(s: AckScan)
    ensures ScanAcks(s, []) == s
  {
  }

  lemma ScanNext(s: AckScan, acks: seq<nat>, i: nat)
    requires i < |acks|
    ensures ScanAcks(s, acks[..i + 1]) == OneAck(ScanAcks(s, acks[..i]), acks[i])
  {
    assert acks[..i + 1][..i] == acks[..i];
  }

  // ----- assembling a packet

  lemma {:induction false} FragmentsBytesAppend(fs: seq<Fragment>, f: Fragment)
    ensures FragmentsBytes(fs + [f]) == FragmentsBytes(fs) + FragmentBytes(f)
    decreases |fs|
  {
    hide FragmentBytes;
    if fs == [] {
      assert fs + [f] == [f];
    } else {
      assert (fs + [f])[1..] == fs[1..] + [f];
      FragmentsBytesAppend(fs[1..], f);
    }
  }

  /** Fragments take the room the sending pass counted for them. */
  lemma {:induction false} FragmentsBytesSize(fs: seq<Fragment>)
    ensures |FragmentsBytes(fs)| == EncodedSize(fs) && EncodedSize(fs) >= HEADER_SIZE * |fs|
    decreases |fs|
  {
    hide FragmentBytes;
    if fs != [] {
      var n := |fs| - 1;
      assert fs == fs[..n] + [fs[n]];
      FragmentsBytesAppend(fs[..n], fs[n]);
      FragmentsBytesSize(fs[..n]);
    }
  }

  method PutFragments(e: Encoder, fs: seq<Fragment>)
    requires e.Valid() && !e.wasError && e.begin + EncodedSize(fs) <= e.buf.Length
    modifies e, e.buf
    ensures e.Valid() && !e.wasError && e.begin == old(e.begin) + EncodedSize(fs)
    ensures e.buf[..e.begin] == old(e.buf[..e.begin]) + FragmentsBytes(fs)
  {
    hide FragmentBytes, FragmentsBytes, EncodedSize, Overwrite;
    FragmentsBytesSize(fs);
    FragmentsBytesSize([]);
    var i := 0;
    assert fs[..0] == [];
    NothingEncoded();
    while i < |fs|
      invariant i <= |fs| && e.Valid() && !e.wasError
      invariant e.begin == old(e.begin) + EncodedSize(fs[..i])
      invariant e.buf[..e.begin] == old(e.buf[..e.begin]) + FragmentsBytes(fs[..i])
    {
      EncodedPrefix(fs, i);
      e.PutRaw(FragmentBytes(fs[i]));
      i := i + 1;
    }
    assert fs[..i] == fs;
  }

  lemma EncodedPrefix(fs: seq<Fragment>, i: nat)
    requires i < |fs|
    ensures FragmentsBytes(fs[..i + 1]) == FragmentsBytes(fs[..i]) + FragmentBytes(fs[i])
    ensures EncodedSize(fs[..i + 1]) == EncodedSize(fs[..i]) + |FragmentBytes(fs[i])|
    ensures EncodedSize(fs[..i + 1]) <= EncodedSize(fs)
  {
    assert fs[..i + 1] == fs[..i] + [fs[i]];
    assert fs[..i + 1][..i] == fs[..i];
    FragmentsBytesAppend(fs[..i], fs[i]);
    EncodedMonotone(fs, i + 1);
  }

  lemma {:induction false} EncodedMonotone(fs: seq<Fragment>, i: nat)
    requires i <= |fs|
    ensures EncodedSize(fs[..i]) <= EncodedSize(fs)
    decreases |fs| - i
  {
    if i < |fs| {
      assert fs[..i + 1][..i] == fs[..i];
      EncodedMonotone(fs, i + 1);
    } else {
      assert fs[..i] == fs;
    }
  }

  /** Filling in the count and the sequence number, which were skipped. */
  lemma FillIn(b: Bytes, head: Bytes, count: Bytes, seqNr: Bytes, tail: Bytes, written: nat)
    requires |count| == 2 && |seqNr| == 4 && written == |head| + 6 + |tail| <= |b|
    requires b[..|head|] == head && b[|head| + 6..written] == tail
    ensures Overwrite(Overwrite(b, |head|, count), |head| + 2, seqNr)[..written] == head + (count + (seqNr + tail))
  {
  }

  lemma FillCount(b: Bytes, head: Bytes, count: Bytes, written: nat)
    requires |count| == 2 && |head| + 2 <= written <= |b| && b[..|head|] == head
    ensures head + count <= Overwrite(b, |head|, count)[..written]
  {
  }

  /** Every number fits the type it has in the source, and there are at most 65535 acknowledgements. */
  ghost predicate Representable(q: seq<Entry>, acks: set<nat>, window: AckState, nextSeq: nat, now: int, diff: int) {
    && (forall i :: 0 <= i < |q| ==> q[i].message.sn < WORD)
    && |acks| < 0x1_0000 && (forall a <- acks :: a < WORD) && Word(window) && nextSeq < WORD
    && -(WORD64 / 2) <= now < WORD64 / 2 && -(WORD64 / 2) <= diff < WORD64 / 2
  }

  lemma PacketSized(q: seq<Entry>, acks: set<nat>, window: AckState, nextSeq: nat, now: int, diff: int, room: nat,
                    o: Occasion)
    requires AllValid(q) && Representable(q, acks, window, nextSeq, now, diff) && room <= 0x1_0000
    ensures Sized(Packet(now, diff, PartOf(acks, window), nextSeq, SendPass(q, room, o).fragments))
  {
    hide IsIn, PassOver, EncodedSize, Sorted;
    var fs := SendPass(q, room, o).fragments;
    PassSendsPieces(q, [], [], room, o);
    PassFillsRoom(q, [], [], room, o);
    FragmentsBytesSize(fs);
    FragmentsBytesSize([]);
    assert EncodedSize([]) == 0 by { NothingEncoded(); }
    forall i | 0 <= i < |fs|
      ensures FragmentSized(fs[i])
    {
      assert CutFromSome(fs[i], q);
      var e :| e in q && CutFrom(fs[i], e);
      assert e.message.Valid();
    }
  }

  lemma NothingEncoded()
    ensures EncodedSize([]) == 0
  {
  }

  lemma HeadIs(p: Packet)
    ensures HeadBytes(p) == TimesBytes(p.time, p.diff) + AckBytes(p.ack) + BigEndian(|p.fragments|, 2)
  {
  }

  /** Writes the header and skips the place of the count and, if it fits, of the sequence number. */
  method BeginPacket(qos: QualityOfService, window: AckState, now: int, size: nat) returns (e: Encoder, hasAcks: bool)
    requires size >= HeaderSize(qos.acks) + 2
    modifies qos`acks
    ensures fresh(e) && fresh(e.buf) && e.Valid() && e.buf.Length == size && qos.acks == {} &&
            hasAcks == (old(qos.acks) != {})
    ensures e.wasError <==> size < HeaderSize(old(qos.acks)) + 6
    ensures e.begin == HeaderSize(old(qos.acks)) + if e.wasError then 2 else 6
    ensures e.buf[..HeaderSize(old(qos.acks))] ==
            TimesBytes(now, TimeDifference(now, qos.lastRecvTime)) + AckBytes(PartOf(old(qos.acks), window))
  {
    hide AckBytes, TimesBytes, Sorted;
    var buf := new Byte[size](_ => 0);
    e := new Encoder(buf, 0);
    assert buf[..0] == [];
    hasAcks := qos.EncodeHeader(e, window, now);
    e.Skip(2);
    e.Skip(4);
  }

  /** Fills in the count and, for a packet with fragments, takes the next sequence number. */
  method FinishPacket(qos: QualityOfService, buf: array<Byte>, countAt: nat, written: nat, ghost packet: Packet,
                      count: nat)
    requires qos.Valid() && count == |packet.fragments| && packet.seqNr == qos.nextSeq
    requires countAt + 2 <= written <= buf.Length
    requires buf[..countAt] == TimesBytes(packet.time, packet.diff) + AckBytes(packet.ack)
    requires count > 0 ==> countAt + 6 <= written && buf[countAt + 6..written] == FragmentsBytes(packet.fragments)
    modifies qos`inFlight, qos`nextSeq, buf
    ensures qos.Valid() && Encodes(buf[..written], packet)
    ensures qos.inFlight ==
            if count == 0 then old(qos.inFlight) else PutFlight(old(qos.inFlight), Flight(packet.seqNr, written))
  {
    hide AckBytes, TimesBytes, BigEndian, FragmentsBytes, Overwrite, HeadBytes;
    HeadIs(packet);
    ghost var b := buf[..];
    ghost var head := TimesBytes(packet.time, packet.diff) + AckBytes(packet.ack);
    assert b[..countAt] == head;
    var counter := new Encoder(buf, countAt);
    counter.PutUint(count, 2);
    if count == 0 {
      FillCount(b, head, BigEndian(count, 2), written);
      assert buf[..written] == buf[..][..written];
    } else {
      assert b[countAt + 6..written] == FragmentsBytes(packet.fragments);
      var header := new Encoder(buf, countAt + 2);
      qos.EncodePayloadHeader(header, written);
      FillIn(b, head, BigEndian(count, 2), BigEndian(packet.seqNr, 4), FragmentsBytes(packet.fragments), written);
      assert buf[..written] == buf[..][..written];
      assert head + (BigEndian(count, 2) + (BigEndian(packet.seqNr, 4) + FragmentsBytes(packet.fragments)))
          == HeadBytes(packet) + (BigEndian(packet.seqNr, 4) + FragmentsBytes(packet.fragments));
    }
  }

  /** The pass that fills a packet, when the packet has `room` for fragments. */
  ghost function PassOf(queue: seq<Entry>, room: nat, acked: AckState, now: int, threshold: int): Outcome
    requires AllValid(queue)
  {
    SendPass(queue, room, Occasion(acked, now, threshold))
  }

  /** Runs the sending pass and writes its fragments; without room there are none. */
  method PutPayload(tq: TransmitQueue, e: Encoder, acked: AckState, now: int, threshold: int)
    returns (fragments: seq<Fragment>, ghost room: nat)
    requires tq.Valid() && e.Valid() && tq.queue as object != e && tq as object != e
    modifies tq, tq.queue, e, e.buf
    ensures tq.Valid() && e.Valid()
    ensures room == old(e.RemainingSize())
    ensures Outcome(tq.queue.messages, fragments, PassOf(old(tq.queue.messages), room, acked, now, threshold).room) ==
            PassOf(old(tq.queue.messages), room, acked, now, threshold)
    ensures fragments == [] ==> e.begin == old(e.begin) && e.buf[..] == old(e.buf[..])
    ensures fragments != [] ==> room >= HEADER_SIZE && !old(e.wasError)
    ensures fragments != [] ==> e.begin <= e.buf.Length
    ensures fragments != [] ==> e.buf[..e.begin] == old(e.buf[..e.begin]) + FragmentsBytes(fragments)
  {
    hide FragmentsBytes, PassOver, EncodedSize, TotalBytes, IsIn, Overwrite, FragmentBytes;
    room := e.RemainingSize();
    ghost var o := Occasion(acked, now, threshold);
    ghost var queue0 := tq.queue.messages;
    var roomLeft;
    fragments, roomLeft := tq.EncodePayload(e.RemainingSize(), Occasion(acked, now, threshold));
    PassFillsRoom(queue0, [], [], room, o);
    NothingEncoded();
    if room < HEADER_SIZE {
      PassWithoutRoom(queue0, [], room, o);
    }
    if fragments != [] {
      PutFragments(e, fragments);
    }
  }

  /** With the smallest packet there is no room for a fragment, so a packet with fragments is within the window. */
  lemma RoomMeansWindow(acks: set<nat>, size: nat, most: nat)
    requires size == Max(29 + 4 * |acks|, most) && size >= HeaderSize(acks) + 6 + HEADER_SIZE
    ensures size == most
  {
  }

  /** The room for fragments in a whole segment. */
  function SegmentRoom(acks: set<nat>): int {
    MSS - HeaderSize(acks) - 6
  }

  /** `encode_packet`. What is written is one packet; its acknowledgements are drained; its fragments are what a
      sending pass over the queue gives. Bytes in flight never rise above the window; if they are above it
      already, they do not rise, because too little window leaves no room for a fragment. With nothing in flight
      there is a whole segment. */
  method EncodePacket(qos: QualityOfService, tq: TransmitQueue, window: AckState, now: int, threshold: int)
    returns (buf: array<Byte>, written: nat, sent: bool, ghost packet: Packet, ghost room: nat)
    requires qos.Valid() && tq.Valid() && qos as object != tq && qos as object != tq.queue
    modifies qos, tq, tq.queue
    ensures qos.Valid() && tq.Valid() && fresh(buf) && qos.cwnd == old(qos.cwnd) && qos.acks == {}
    ensures FlightBytes(qos.inFlight) <= Max(FlightBytes(old(qos.inFlight)), qos.cwnd)
    ensures var pass := PassOf(old(tq.queue.messages), room, old(qos.receivedByPeer), now, threshold);
            && tq.queue.messages == pass.queue
            && packet == Packet(now, TimeDifference(now, old(qos.lastRecvTime)), PartOf(old(qos.acks), window),
                                old(qos.nextSeq), pass.fragments)
    ensures packet.diff == if old(qos.lastRecvTime) == NO_TIME then NO_TIME else now - old(qos.lastRecvTime)
    ensures sent <==> packet.fragments != [] || old(qos.acks) != {}
    ensures written <= buf.Length && room <= MSS && Encodes(buf[..written], packet)
    ensures written <= MSS <==> |old(qos.acks)| <= MOST_ACKS
    ensures old(qos.inFlight) == [] && SegmentRoom(old(qos.acks)) >= 0 ==> room == SegmentRoom(old(qos.acks))
  {
    hide FlightBytes, AckBytes, FragmentsBytes, PassOver, Sorted, TotalBytes, IsIn, TimesBytes, Encodes;
    var most := qos.NextPacketMaxSize();
    var size := Max(2 + 4 * |qos.acks| + 16 + 3 + 8, most);
    var countAt := 17 + if qos.acks == {} then 0 else 10 + 4 * |qos.acks|;
    ghost var acks0, flight0 := qos.acks, qos.inFlight;
    var e, hasAcks := BeginPacket(qos, window, now, size);
    buf := e.buf;
    ghost var head := buf[..countAt];
    ghost var before := buf[..e.begin];
    assert before[..countAt] == head;
    var fragments;
    fragments, room := PutPayload(tq, e, qos.receivedByPeer, now, threshold);
    written := e.begin;
    packet := Packet(now, TimeDifference(now, qos.lastRecvTime), PartOf(acks0, window), qos.nextSeq, fragments);
    if fragments != [] {
      RoomMeansWindow(acks0, size, most);
      PutFlightBytes(flight0, Flight(qos.nextSeq, written));
      assert buf[..written][..countAt] == head;
      assert buf[countAt + 6..written] == FragmentsBytes(fragments);
    }
    FinishPacket(qos, buf, countAt, written, packet, |fragments|);
    sent := |fragments| > 0 || hasAcks;
  }

  /** What `encode_packet` wrote, the peer reads back from its receive buffer. */
  lemma EncodedPacketIsRead(queue: seq<Entry>, acks: set<nat>, window: AckState, nextSeq: nat, now: int, diff: int,
                            room: nat, acked: AckState, threshold: int, bytes: Bytes, trailing: Bytes)
    requires AllValid(queue) && Representable(queue, acks, window, nextSeq, now, diff) && room <= 0x1_0000
    requires var pass := PassOf(queue, room, acked, now, threshold);
             Encodes(bytes, Packet(now, diff, PartOf(acks, window), nextSeq, pass.fragments))
    ensures var pass := PassOf(queue, room, acked, now, threshold);
            var p := Packet(now, diff, PartOf(acks, window), nextSeq, pass.fragments);
            ReadPacket(bytes + trailing) == (Received(p), true)
  {
    hide Encodes, Sized, Representable, PassOver, ReadPacket, PartOf;
    PacketSized(queue, acks, window, nextSeq, now, diff, room, Occasion(acked, now, threshold));
    var pass := PassOf(queue, room, acked, now, threshold);
    PacketRoundTrip(bytes, Packet(now, diff, PartOf(acks, window), nextSeq, pass.fragments), trailing);
  }

  lemma HeadSize(p: Packet)
    ensures |HeadBytes(p)| == 18 + |AckBytes(p.ack)|
    ensures p.ack.AckPart? ==> |AckBytes(p.ack)| == 11 + 4 * |p.ack.acks|
  {
    hide BigEndian, NumbersBytes, WindowBytes;
  }

  /** With more acknowledgements than fit a segment the end of the packet's head is cut off, and it is refused. */
  lemma LargePacketIsRefused(acks: set<nat>, window: AckState, bytes: Bytes, before: Bytes, p: Packet)
    requires MOST_ACKS < |acks| < 0x1_0000 && (forall a <- acks :: a < WORD) && Word(window)
    requires p.ack == PartOf(acks, window) && Encodes(bytes, p) && |before| == MSS
    ensures !ReadPacket(InBuffer(bytes, before)).1
  {
    hide BigEndian, Sorted, HeadBytes, ReadPacket, AckBytes;
    HeadSize(p);
    assert HeadBytes(p) <= bytes;
    var b := InBuffer(bytes, before);
    assert b == HeadBytes(p)[..MSS];
    CutHeadIsRefused(p, b);
  }

  /** `start_sending` at one end and `on_receive` at the other, whose receive buffer is one segment long and still
      holds what came before: the packet that was assembled is read, unless it has too many acknowledgements. */
  method SendAndRead(qos: QualityOfService, tq: TransmitQueue, window: AckState, now: int, threshold: int,
                     before: Bytes)
    returns (ok: bool, read: Packet, ghost packet: Packet)
    requires qos.Valid() && tq.Valid() && qos as object != tq && qos as object != tq.queue && |before| == MSS
    requires Representable(tq.queue.messages, qos.acks, window, qos.nextSeq, now, TimeDifference(now, qos.lastRecvTime))
    modifies qos, tq, tq.queue
    ensures qos.Valid() && tq.Valid()
    ensures ok <==> |old(qos.acks)| <= MOST_ACKS
    ensures ok ==> read == Received(packet)
    ensures packet.ack == PartOf(old(qos.acks), window) && packet.seqNr == old(qos.nextSeq) && packet.time == now
    ensures exists room: nat :: room <= MSS &&
              var pass := PassOf(old(tq.queue.messages), room, old(qos.receivedByPeer), now, threshold);
              packet.fragments == pass.fragments && tq.queue.messages == pass.queue
  {
    hide Encodes, ReadPacket, PassOver, PartOf;
    ghost var queue, acks, next := tq.queue.messages, qos.acks, qos.nextSeq;
    ghost var diff, acked := TimeDifference(now, qos.lastRecvTime), qos.receivedByPeer;
    var buf, written, sent;
    ghost var room;
    buf, written, sent, packet, room := EncodePacket(qos, tq, window, now, threshold);
    var bytes := buf[..written];
    if written <= MSS {
      EncodedPacketIsRead(queue, acks, window, next, now, diff, room, acked, threshold, bytes, before[written..]);
    } else {
      LargePacketIsRefused(acks, window, bytes, before, packet);
    }
    ok, read := DecodePacket(InBuffer(bytes, before));
  }

  /** `on_send_keepalive_alarm`. However much was in flight, and lost, the next packet is a whole segment; if nothing
      was queued, a keep-alive message goes out. */
  method OnSendKeepaliveAlarm(qos: QualityOfService, tq: TransmitQueue, window: AckState, now: int, threshold: int)
    returns (sent: bool, ghost packet: Packet, ghost room: nat)
    requires qos.Valid() && tq.Valid() && qos as object != tq && qos as object != tq.queue
    modifies qos, tq, tq.queue
    ensures qos.Valid() && tq.Valid() && room <= MSS
    ensures var alive := Entry(Never, Outgoing(false, KeepAlive, 0, [], 0));
            var queue := if old(tq.queue.messages) == [] then [alive] else old(tq.queue.messages);
            var pass := PassOf(queue, room, old(qos.receivedByPeer), now, threshold);
            packet.fragments == pass.fragments && tq.queue.messages == pass.queue
    ensures old(tq.queue.messages) != [] && SegmentRoom(old(qos.acks)) >= 0 ==> room == SegmentRoom(old(qos.acks))
    ensures sent <==> packet.fragments != [] || old(qos.acks) != {}
  {
    hide PassOver, PartOf, Encodes;
    if tq.queue.messages == [] {
      tq.Insert(Outgoing(false, KeepAlive, 0, [], 0));
    } else {
      qos.ClearInFlightInfo();
    }
    var buf, written;
    buf, written, sent, packet, room := EncodePacket(qos, tq, window, now, threshold);
  }
}
