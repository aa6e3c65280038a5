/** Bounded writer and reader with a sticky error (include/binary/encoder.h, decoder.h). Numbers are big-endian. */
module Codec {
  import opened Fragments

  type Bytes = seq<Byte>

  function Pow256(n: nat): (p: nat)
    ensures p >= 1
  {
    if n == 0 then 1 else 256 * Pow256(n - 1)
  }

  /** The n low bytes of x, highest first. */
  function BigEndian(x: nat, n: nat): (b: Bytes)
    ensures |b| == n
  {
    if n == 0 then [] else BigEndian(x / 256, n - 1) + [x % 256]
  }

  function Value(b: Bytes): nat {
    if b == [] then 0 else 256 * Value(b[..|b| - 1]) + b[|b| - 1]
  }

  /** A number that fits its width is read back; a larger one is truncated to the width. */
  lemma {:induction false} ValueOfBigEndian(x: nat, n: nat)
    requires x < Pow256(n)
    ensures Value(BigEndian(x, n)) == x
  {
    if n > 0 {
      var b := BigEndian(x, n);
      assert b[..n - 1] == BigEndian(x / 256, n - 1);
      ValueOfBigEndian(x / 256, n - 1);
    }
  }

  // ----- signed 64-bit numbers

  const WORD64: nat := 0x1_0000_0000_0000_0000

  function Unsigned64(x: int): nat { x % WORD64 }

  function Signed64(x: nat): int { if x < WORD64 / 2 then x else x - WORD64 }

  lemma Signed64RoundTrip(x: int)
    requires -(WORD64 / 2) <= x < WORD64 / 2
    ensures Signed64(Unsigned64(x)) == x
  {
    if x < 0 {
      assert x % WORD64 == x + WORD64;
    }
  }

  lemma Pow256Eight()
    ensures Pow256(8) == WORD64 && Pow256(4) == 0x1_0000_0000 && Pow256(2) == 0x1_0000 && Pow256(1) == 256
  {
    assert Pow256(1) == 256 * Pow256(0);
    assert Pow256(2) == 256 * Pow256(1);
    assert Pow256(3) == 256 * Pow256(2);
    assert Pow256(4) == 256 * Pow256(3);
    assert Pow256(5) == 256 * Pow256(4);
    assert Pow256(6) == 256 * Pow256(5);
    assert Pow256(7) == 256 * Pow256(6);
    assert Pow256(8) == 256 * Pow256(7);
  }

  // ----- bit masks

  function Pow2(n: nat): (p: nat)
    ensures p >= 1
  {
    if n == 0 then 1 else 2 * Pow2(n - 1)
  }

  /** The number whose one bits below k are the given ones. */
  function Mask(bits: set<nat>, k: nat): nat {
    if k == 0 then 0 else Mask(bits, k - 1) + if k - 1 in bits then Pow2(k - 1) else 0
  }

  function BitsOf(n: nat, k: nat): set<nat> {
    if k == 0 then {}
    else if n >= Pow2(k - 1) then BitsOf(n - Pow2(k - 1), k - 1) + {k - 1}
    else BitsOf(n, k - 1)
  }

  lemma {:induction false} MaskRoundTrip(bits: set<nat>, k: nat)
    ensures Mask(bits, k) < Pow2(k)
    ensures BitsOf(Mask(bits, k), k) == set b <- bits | b < k
  {
    if k > 0 {
      MaskRoundTrip(bits, k - 1);
    }
  }

  lemma Pow2Word()
    ensures Pow2(32) == 0x1_0000_0000
  {
    assert Pow2(8) == 256;
    assert Pow2(16) == 256 * Pow2(8);
    assert Pow2(24) == 256 * Pow2(16);
    assert Pow2(32) == 256 * Pow2(24);
  }

  // ----- writing

  class Encoder {
    const buf: array<Byte>
    var begin: nat
    var wasError: bool

    ghost predicate Valid()
      reads this
    {
      begin <= buf.Length
    }

    constructor (buf: array<Byte>, begin: nat)
      requires begin <= buf.Length
      ensures Valid() && this.buf == buf && this.begin == begin && !wasError
    {
      this.buf, this.begin, this.wasError := buf, begin, false;
    }

    function Fits(n: nat): bool
      reads this
    {
      !wasError && begin + n <= buf.Length
    }

    function RemainingSize(): (n: int)
      reads this
    {
      if wasError then 0 else buf.Length - begin
    }

    method Skip(n: nat)
      requires Valid()
      modifies this
      ensures Valid() && wasError == !old(Fits(n))
      ensures begin == old(begin) + if old(Fits(n)) then n else 0
    {
      if wasError {
        return;
      }
      if begin + n > buf.Length {
        wasError := true;
        return;
      }
      begin := begin + n;
    }

    /** Writes all of the bytes or, when they do not fit, nothing ever again. */
    method PutRaw(bytes: Bytes)
      requires Valid()
      modifies this, buf
      ensures Valid() && wasError == !old(Fits(|bytes|))
      ensures old(Fits(|bytes|)) ==> begin == old(begin) + |bytes|
      ensures old(Fits(|bytes|)) ==> buf[..] == Overwrite(old(buf[..]), old(begin), bytes)
      ensures old(Fits(|bytes|)) ==> buf[..begin] == old(buf[..begin]) + bytes
      ensures !old(Fits(|bytes|)) ==> begin == old(begin) && buf[..] == old(buf[..])
    {
      hide Overwrite;
      if begin + |bytes| > buf.Length {
        wasError := true;
      }
      if wasError {
        return;
      }
      var i := 0;
      OverwriteEnds(buf[..], begin, bytes);
      assert bytes[..0] == [];
      while i < |bytes|
        invariant i <= |bytes| && begin == old(begin) + i && begin + |bytes| - i <= buf.Length && !wasError
        invariant buf[..] == Overwrite(old(buf[..]), old(begin), bytes[..i])
      {
        OverwriteNext(old(buf[..]), old(begin), bytes, i);
        ghost var before := buf[..];
        buf[begin] := bytes[i];
        assert buf[..] == before[begin := bytes[i]];
        begin, i := begin + 1, i + 1;
      }
      assert bytes[..i] == bytes;
      assert buf[..begin] == buf[..][..begin];
    }

    /** The fixed-width puts. */
    method PutUint(x: nat, width: nat)
      requires Valid()
      modifies this, buf
      ensures Valid() && wasError == !old(Fits(width))
      ensures old(Fits(width)) ==> begin == old(begin) + width
      ensures old(Fits(width)) ==> buf[..] == Overwrite(old(buf[..]), old(begin), BigEndian(x, width))
      ensures old(Fits(width)) ==> buf[..begin] == old(buf[..begin]) + BigEndian(x, width)
      ensures !old(Fits(width)) ==> begin == old(begin) && buf[..] == old(buf[..])
    {
      PutRaw(BigEndian(x, width));
    }
  }

  // ----- reading

  /** The bytes not read yet, and the sticky error. */
  datatype Reader = Reader(rest: Bytes, error: bool) {
    function Get(width: nat): (nat, Reader) {
      if error || |rest| < width then (0, Reader(rest, true))
      else (Value(rest[..width]), Reader(rest[width..], false))
    }

    function Raw(n: nat): (Bytes, Reader) {
      if error || |rest| < n then ([], Reader(rest, true)) else (rest[..n], Reader(rest[n..], false))
    }
  }

  /** What was put at the front is got back, and reading goes on behind it. */
  lemma GetBack(x: nat, width: nat, rest: Bytes)
    requires x < Pow256(width)
    ensures Reader(BigEndian(x, width) + rest, false).Get(width) == (x, Reader(rest, false))
  {
    var b := BigEndian(x, width);
    assert (b + rest)[..width] == b && (b + rest)[width..] == rest;
    ValueOfBigEndian(x, width);
  }

  lemma RawBack(bytes: Bytes, rest: Bytes)
    ensures Reader(bytes + rest, false).Raw(|bytes|) == (bytes, Reader(rest, false))
  {
    assert (bytes + rest)[..|bytes|] == bytes && (bytes + rest)[|bytes|..] == rest;
  }

  class Decoder {
    const bytes: Bytes
    var begin: nat
    var wasError: bool

    ghost predicate Valid()
      reads this
    {
      begin <= |bytes|
    }

    ghost function View(): Reader
      requires Valid()
      reads this
    {
      Reader(bytes[begin..], wasError)
    }

    constructor (bytes: Bytes)
      ensures Valid() && View() == Reader(bytes, false) && this.bytes == bytes
    {
      this.bytes, begin, wasError := bytes, 0, false;
    }

    method SetError()
      requires Valid()
      modifies this
      ensures Valid() && View() == Reader(old(View()).rest, true)
    {
      wasError := true;
    }

    method GetUint(width: nat) returns (x: nat)
      requires Valid()
      modifies this
      ensures Valid() && (x, View()) == old(View()).Get(width)
    {
      if |bytes| - begin < width {
        wasError := true;
      }
      if wasError {
        return 0;
      }
      x := 0;
      var i := 0;
      while i < width
        invariant i <= width && begin + width <= |bytes|
        invariant x == Value(bytes[begin..begin + i])
      {
        assert bytes[begin..begin + i + 1][..i] == bytes[begin..begin + i];
        x := 256 * x + bytes[begin + i];
        i := i + 1;
      }
      assert bytes[begin..][..width] == bytes[begin..begin + width];
      begin := begin + width;
    }

    method GetRaw(n: nat) returns (b: Bytes)
      requires Valid()
      modifies this
      ensures Valid() && (b, View()) == old(View()).Raw(n)
    {
      if |bytes| - begin < n {
        wasError := true;
      }
      if wasError {
        return [];
      }
      b := bytes[begin..begin + n];
      assert bytes[begin..][..n] == b && bytes[begin..][n..] == bytes[begin + n..];
      begin := begin + n;
    }
  }
}
