/** Which bytes of a fragmented message have arrived (include/club/transport/part_info.h).

    The source's ordered map from interval begin to interval end is the sequence of its pairs in key order, and
    an iterator is an index into it. */
module PartInfos {
  import opened Basics

  datatype Part = Part(begin: nat, end: nat)

  type Parts = seq<Part>

  /** Non-empty intervals in increasing order that do not even touch. */
  ghost predicate Separated(p: Parts) {
    && (forall i :: 0 <= i < |p| ==> p[i].begin < p[i].end)
    && (forall i, j :: 0 <= i < j < |p| ==> p[i].end < p[j].begin)
  }

  ghost predicate Covers(p: Parts, x: nat) {
    exists i :: 0 <= i < |p| && p[i].begin <= x < p[i].end
  }

  /** p covers exactly what q covers and [start, end). */
  ghost predicate CoversAlso(p: Parts, q: Parts, start: nat, end: nat) {
    forall x: nat :: Covers(p, x) <==> Covers(q, x) || start <= x < end
  }

  /** The interval map with [start, end) added, defined interval by interval. */
  function Join(p: Parts, start: nat, end: nat): Parts {
    if end <= start then p
    else if p == [] then [Part(start, end)]
    else if end < p[0].begin then [Part(start, end)] + p
    else if p[0].end < start then [p[0]] + Join(p[1..], start, end)
    else Join(p[1..], Min(start, p[0].begin), Max(end, p[0].end))
  }

  lemma CoversCons(h: Part, t: Parts, x: nat)
    ensures Covers([h] + t, x) <==> h.begin <= x < h.end || Covers(t, x)
  {
    if h.begin <= x < h.end {
      assert ([h] + t)[0] == h;
    }
    if Covers(t, x) {
      var i :| 0 <= i < |t| && t[i].begin <= x < t[i].end;
      assert ([h] + t)[i + 1] == t[i];
    }
  }

  lemma SeparatedCons(h: Part, t: Parts)
    requires Separated(t) && h.begin < h.end && (t != [] ==> h.end < t[0].begin)
    ensures Separated([h] + t)
  {
  }

  lemma PartCovers(t: Parts, start: nat, end: nat)
    ensures CoversAlso([Part(start, end)] + t, t, start, end)
  {
    hide Covers;
    forall x: nat { CoversCons(Part(start, end), t, x); }
  }

  lemma ConsCovers(h: Part, t: Parts, r: Parts, start: nat, end: nat)
    requires CoversAlso(r, t, start, end)
    ensures CoversAlso([h] + r, [h] + t, start, end)
  {
    hide Covers;
    forall x: nat { CoversCons(h, r, x); }
    forall x: nat { CoversCons(h, t, x); }
  }

  lemma TouchCovers(h: Part, t: Parts, r: Parts, start: nat, end: nat)
    requires start < end && h.begin < h.end && h.begin <= end && start <= h.end
    requires CoversAlso(r, t, Min(start, h.begin), Max(end, h.end))
    ensures CoversAlso(r, [h] + t, start, end)
  {
    hide Covers;
    forall x: nat { CoversCons(h, t, x); }
  }

  /** Adding a range adds exactly its positions and keeps the intervals apart. */
  lemma {:induction false} JoinCorrect(p: Parts, start: nat, end: nat)
    requires Separated(p)
    ensures Separated(Join(p, start, end)) && CoversAlso(Join(p, start, end), p, start, end)
    ensures var r := Join(p, start, end); r != [] ==> r[0].begin >= start || (p != [] && r[0].begin >= p[0].begin)
    decreases |p|
  {
    if start < end {
      hide CoversAlso;
      if p == [] || end < p[0].begin {
        assert [Part(start, end)] == [Part(start, end)] + [];
        SeparatedCons(Part(start, end), p);
        PartCovers(p, start, end);
      } else {
        var h, t := p[0], p[1..];
        assert p == [h] + t;
        if h.end < start {
          JoinCorrect(t, start, end);
          SeparatedCons(h, Join(t, start, end));
          ConsCovers(h, t, Join(t, start, end), start, end);
        } else {
          var low, high := Min(start, h.begin), Max(end, h.end);
          JoinCorrect(t, low, high);
          TouchCovers(h, t, Join(t, low, high), start, end);
        }
      }
    }
  }

  /** Separated intervals are a canonical form: what they cover determines them. */
  lemma {:induction false} Canonical(p: Parts, q: Parts)
    requires Separated(p) && Separated(q) && forall x: nat :: Covers(p, x) <==> Covers(q, x)
    ensures p == q
    decreases |p|
  {
    if p == [] {
      if q != [] {
        assert Covers(q, q[0].begin);
      }
    } else {
      assert Covers(p, p[0].begin);
      assert q != [];
      HeadFromCover(p, q);
      HeadFromCover(q, p);
      assert p[0] == q[0];
      assert p == [p[0]] + p[1..] && q == [q[0]] + q[1..];
      forall x: nat
        ensures Covers(p[1..], x) <==> Covers(q[1..], x)
      {
        CoversCons(p[0], p[1..], x);
        CoversCons(q[0], q[1..], x);
      }
      Canonical(p[1..], q[1..]);
    }
  }

  lemma HeadFromCover(p: Parts, q: Parts)
    requires p != [] && q != [] && Separated(p) && Separated(q) && forall x: nat :: Covers(p, x) <==> Covers(q, x)
    ensures q[0].begin <= p[0].begin && (q[0].begin == p[0].begin ==> q[0].end <= p[0].end)
  {
    assert Covers(p, p[0].begin);
    EndIsFree(p);
    assert !(q[0].begin <= p[0].end < q[0].end);
  }

  lemma EndIsFree(p: Parts)
    requires p != [] && Separated(p)
    ensures !Covers(p, p[0].end)
  {
  }

  ghost function JoinAll(ranges: seq<(nat, nat)>): Parts {
    if ranges == [] then [] else Join(JoinAll(ranges[..|ranges| - 1]), ranges[|ranges| - 1].0, ranges[|ranges| - 1].1)
  }

  ghost predicate InSome(ranges: seq<(nat, nat)>, x: nat) {
    exists r <- ranges :: r.0 <= x < r.1
  }

  lemma {:induction false} JoinAllCorrect(ranges: seq<(nat, nat)>)
    ensures Separated(JoinAll(ranges)) && forall x: nat :: Covers(JoinAll(ranges), x) <==> InSome(ranges, x)
    decreases |ranges|
  {
    if ranges != [] {
      var init, r := ranges[..|ranges| - 1], ranges[|ranges| - 1];
      JoinAllCorrect(init);
      JoinCorrect(JoinAll(init), r.0, r.1);
      assert ranges == init + [r];
      assert forall x: nat :: InSome(ranges, x) <==> InSome(init, x) || r.0 <= x < r.1;
    }
  }

  /** The map after any sequence of additions is determined by the union of the added ranges. */
  lemma UnionDeterminesMap(rs: seq<(nat, nat)>, ss: seq<(nat, nat)>)
    requires forall x: nat :: InSome(rs, x) <==> InSome(ss, x)
    ensures JoinAll(rs) == JoinAll(ss)
  {
    JoinAllCorrect(rs);
    JoinAllCorrect(ss);
    Canonical(JoinAll(rs), JoinAll(ss));
  }

  // ----- the class

  /** Separated but for interval i, which may run into its successors. */
  ghost predicate Ragged(p: Parts, i: nat) {
    && i < |p|
    && (forall j :: 0 <= j < |p| ==> p[j].begin < p[j].end)
    && (forall j, k :: 0 <= j < k < |p| && j != i ==> p[j].end < p[k].begin)
    && (forall k :: i < k < |p| ==> p[i].begin < p[k].begin)
  }

  /** Merging interval i with its successor, which it reaches. */
  lemma MergeCovers(p: Parts, i: nat)
    requires Ragged(p, i) && i + 1 < |p| && p[i + 1].begin <= p[i].end
    ensures var q := p[..i] + [Part(p[i].begin, Max(p[i].end, p[i + 1].end))] + p[i + 2..];
            Ragged(q, i) && forall x: nat :: Covers(q, x) <==> Covers(p, x)
  {
    var m := Part(p[i].begin, Max(p[i].end, p[i + 1].end));
    var q := p[..i] + [m] + p[i + 2..];
    assert q[i] == m;
    assert forall j :: 0 <= j < i ==> q[j] == p[j];
    assert forall j :: i < j < |q| ==> q[j] == p[j + 1];
    forall x: nat
      ensures Covers(q, x) <==> Covers(p, x)
    {
      MergeCovered(p, q, i, m, x);
    }
  }

  lemma MergeCovered(p: Parts, q: Parts, i: nat, m: Part, x: nat)
    requires i + 1 < |p| && |q| == |p| - 1 && m.begin == p[i].begin && m.end == Max(p[i].end, p[i + 1].end)
    requires p[i].begin <= p[i + 1].begin <= p[i].end
    requires q[i] == m && (forall j :: 0 <= j < i ==> q[j] == p[j]) && forall j :: i < j < |q| ==> q[j] == p[j + 1]
    ensures Covers(q, x) <==> Covers(p, x)
  {
    if Covers(p, x) {
      var j :| 0 <= j < |p| && p[j].begin <= x < p[j].end;
      var k := if j <= i then j else j - 1;
      assert q[k].begin <= x < q[k].end;
    }
    if Covers(q, x) {
      var j :| 0 <= j < |q| && q[j].begin <= x < q[j].end;
      var k := if j < i then j else if j > i then j + 1 else if x < p[i].end then i else i + 1;
      assert p[k].begin <= x < p[k].end;
    }
  }

  /** Replacing interval i by a longer one that also takes in [start, end). */
  lemma ReplaceCovers(p: Parts, i: nat, part: Part, start: nat, end: nat)
    requires Separated(p) && i < |p| && start < end
    requires p[i].begin <= end && start <= p[i].end
    requires part == Part(Min(start, p[i].begin), Max(end, p[i].end))
    requires forall j :: 0 <= j < i ==> p[j].end < start
    ensures CoversAlso(p[i := part], p, start, end) && Ragged(p[i := part], i)
  {
    var q := p[i := part];
    forall x: nat
      ensures Covers(q, x) <==> Covers(p, x) || start <= x < end
    {
      ReplaceCovered(p, q, i, start, end, x);
    }
  }

  lemma ReplaceCovered(p: Parts, q: Parts, i: nat, start: nat, end: nat, x: nat)
    requires i < |p| && |q| == |p| && start < end && p[i].begin <= end && start <= p[i].end
    requires q[i] == Part(Min(start, p[i].begin), Max(end, p[i].end)) && p[i].begin < p[i].end
    requires forall j :: 0 <= j < |p| && j != i ==> q[j] == p[j]
    ensures Covers(q, x) <==> Covers(p, x) || start <= x < end
  {
    if Covers(p, x) {
      var j :| 0 <= j < |p| && p[j].begin <= x < p[j].end;
      assert q[j].begin <= x < q[j].end;
    }
    if start <= x < end {
      assert q[i].begin <= x < q[i].end;
    }
    if Covers(q, x) {
      var j :| 0 <= j < |q| && q[j].begin <= x < q[j].end;
      assert j != i ==> p[j].begin <= x < p[j].end;
    }
  }

  lemma InsertSeparated(p: Parts, i: nat, start: nat, end: nat)
    requires i <= |p| && Separated(p) && start < end
    requires forall j :: 0 <= j < i ==> p[j].end < start
    requires forall j :: i <= j < |p| ==> end < p[j].begin
    ensures Separated(p[..i] + [Part(start, end)] + p[i..])
  {
  }

  lemma InsertCovers(p: Parts, i: nat, start: nat, end: nat)
    requires i <= |p| && Separated(p) && start < end
    requires forall j :: 0 <= j < i ==> p[j].end < start
    requires forall j :: i <= j < |p| ==> end < p[j].begin
    ensures Separated(p[..i] + [Part(start, end)] + p[i..])
    ensures CoversAlso(p[..i] + [Part(start, end)] + p[i..], p, start, end)
  {
    hide Separated;
    InsertSeparated(p, i, start, end);
    var q := p[..i] + [Part(start, end)] + p[i..];
    assert q[i] == Part(start, end);
    assert forall j :: 0 <= j < i ==> q[j] == p[j];
    assert forall j :: i <= j < |p| ==> p[j] == q[j + 1];
    forall x: nat
      ensures Covers(q, x) <==> Covers(p, x) || start <= x < end
    {
      InsertCovered(p, q, i, Part(start, end), x);
    }
  }

  lemma InsertCovered(p: Parts, q: Parts, i: nat, m: Part, x: nat)
    requires i <= |p| && |q| == |p| + 1 && q[i] == m
    requires (forall j :: 0 <= j < i ==> q[j] == p[j]) && forall j :: i <= j < |p| ==> p[j] == q[j + 1]
    ensures Covers(q, x) <==> Covers(p, x) || m.begin <= x < m.end
  {
    if Covers(q, x) {
      var j :| 0 <= j < |q| && q[j].begin <= x < q[j].end;
      assert j > i ==> p[j - 1] == q[j];
    }
    if Covers(p, x) {
      var j :| 0 <= j < |p| && p[j].begin <= x < p[j].end;
      var k := if j < i then j else j + 1;
      assert q[k].begin <= x < q[k].end;
    }
  }

  class PartInfo {
    var info: Parts

    constructor ()
      ensures info == []
    {
      info := [];
    }

    /** Position of the first interval that begins at or after start. */
    method LowerBound(start: nat) returns (i: nat)
      ensures i <= |info|
      ensures forall j :: 0 <= j < i ==> info[j].begin < start
      ensures i < |info| ==> info[i].begin >= start
    {
      i := 0;
      while i < |info| && info[i].begin < start
        invariant i <= |info|
        invariant forall j :: 0 <= j < i ==> info[j].begin < start
      {
        i := i + 1;
      }
    }

    /** The range is merged with every interval it overlaps or touches. */
    method AddPart(start: nat, end: nat)
      requires Separated(info)
      modifies this
      ensures Separated(info) && info == Join(old(info), start, end)
    {
      JoinCorrect(info, start, end);
      AddRange(start, end);
      Canonical(info, Join(old(info), start, end));
    }

    method AddRange(start: nat, end: nat)
      requires Separated(info)
      modifies this
      ensures Separated(info) && CoversAlso(info, old(info), start, end)
    {
      hide Covers;
      if end <= start {
        return;
      }
      if |info| == 0 {
        InsertCovers(info, 0, start, end);
        info := [Part(start, end)];
        assert info == old(info)[..0] + info + old(info)[0..];
        return;
      }
      var i := FindTouching(start, end);
      if i == |info| {
        var lower := LowerBound(start);
        InsertCovers(info, lower, start, end);
        info := info[..lower] + [Part(start, end)] + info[lower..];
      } else {
        var b, e := info[i].begin, info[i].end;
        ReplaceCovers(info, i, Part(Min(start, b), Max(end, e)), start, end);
        info := info[i := Part(if b <= start then b else start, Max(end, e))];
        Sanitize(i);
      }
    }

    /** The first interval that overlaps or touches [start, end), searched from just before the lower bound. */
    method FindTouching(start: nat, end: nat) returns (i: nat)
      requires Separated(info) && info != [] && start < end
      ensures i <= |info|
      ensures i < |info| ==> info[i].begin <= end && start <= info[i].end
      ensures i < |info| ==> forall j :: 0 <= j < i ==> info[j].end < start
      ensures i == |info| ==> forall j :: 0 <= j < |info| ==> info[j].end < start || end < info[j].begin
    {
      var lower := LowerBound(start);
      i := if lower == |info| then |info| - 1 else if lower != 0 then lower - 1 else 0;
      assert forall j :: 0 <= j < i ==> info[j].end < info[i].begin;
      while i != |info|
        invariant i <= |info|
        invariant forall j :: 0 <= j < i ==> info[j].end < start || end < info[j].begin
        decreases |info| - i
      {
        var b, e := info[i].begin, info[i].end;
        assert forall j :: 0 <= j < i ==> info[j].begin < info[j].end < b;
        if b <= start && start <= e {
          return;
        }
        if start <= b && b <= end {
          return;
        }
        i := i + 1;
      }
    }

    /** Interval i swallows the successors it reaches. */
    method Sanitize(i: nat)
      requires Ragged(info, i)
      modifies this
      ensures Separated(info) && forall x: nat :: Covers(info, x) <==> Covers(old(info), x)
    {
      while i + 1 < |info| && !(info[i].end < info[i + 1].begin)
        invariant Ragged(info, i)
        invariant forall x: nat :: Covers(info, x) <==> Covers(old(info), x)
        decreases |info|
      {
        MergeCovers(info, i);
        info := info[..i] + [Part(info[i].begin, Max(info[i].end, info[i + 1].end))] + info[i + 2..];
      }
    }
  }
}
