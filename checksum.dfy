/**
 * The U3 packet checksums.
 *
 * Every extended packet carries three check bytes in its 6-byte header:
 * byte 0 is an 8-bit checksum of header bytes 1..5, and bytes 4 and 5 are the
 * low and high bytes of a 16-bit sum of bytes 6..n-1. A "normal" packet only
 * has byte 0, an 8-bit checksum of bytes 1..n-1.
 *
 * The functions give the value each checksum must have; the methods are the
 * source's loops over a buffer and are proved to compute those values.
 */
module Checksum {
  import opened Bytes

  /**
   * The two-step fold of the 8-bit checksums: add the quotient of a division by
   * 256 back onto the remainder, twice. The result is the 8-bit end-around-carry
   * (ones'-complement) residue of `a`: 0 for 0, otherwise the value in 1..255
   * congruent to `a` modulo 255.
   */
  function Fold8(a: uint16): (r: byte)
    ensures r == if a == 0 then 0 else 1 + (a - 1) % 255
  {
    var bb := a / 256;
    var a1 := (a - 256 * bb) + bb;
    var bb1 := a1 / 256;
    FoldResidue(a, bb, a1);
    (a1 - 256 * bb1) + bb1
  }

  /** The first fold step preserves the residue modulo 255, and bounds the value by 510. */
  lemma FoldResidue(a: uint16, bb: int, a1: int)
    requires bb == a / 256 && a1 == (a - 256 * bb) + bb
    ensures a1 <= 510 && (a == 0 <==> a1 == 0)
    ensures a > 0 ==> (a - 1) % 255 == (a1 - 1) % 255
  {
    assert a - 1 == 255 * bb + (a1 - 1);
  }

  /** extendedChecksum16: the 16-bit sum of bytes [6, n), truncated to 16 bits; 0 when n <= 6. */
  function Checksum16(s: seq<byte>, n: int): uint16
    requires n <= 6 || n <= |s|
  {
    if n <= 6 then 0 else Sum(s[6..n]) % 0x1_0000
  }

  /** extendedChecksum8: the folded sum of header bytes 1..5. */
  function Checksum8(s: seq<byte>): byte
    requires |s| >= 6
  {
    SumBound(s[1..6]);
    Fold8(Sum(s[1..6]))
  }

  /** normalChecksum8: the folded sum of bytes [1, n), accumulated in 16 bits. */
  function NormalChecksum8Of(s: seq<byte>, n: int): byte
    requires n <= 1 || n <= |s|
  {
    if n <= 1 then Fold8(0) else Fold8(Sum(s[1..n]) % 0x1_0000)
  }

  /** The three header checks every response must pass before its payload is trusted. */
  predicate ChecksumsValid(s: seq<byte>, n: int)
  {
    |s| >= 6 && (n <= 6 || n <= |s|) &&
    s[5] == Checksum16(s, n) / 256 &&
    s[4] == Checksum16(s, n) % 256 &&
    s[0] == Checksum8(s)
  }

  /**
   * The buffer after extendedChecksum: bytes 4 and 5 get the 16-bit sum, then
   * byte 0 the 8-bit checksum of the header that now includes them. Every other
   * byte is kept, and the result passes all three checks.
   */
  function Seal(s: seq<byte>, n: int): (r: seq<byte>)
    requires |s| >= 6 && (n <= 6 || n <= |s|)
    ensures |r| == |s|
    ensures forall i :: 0 <= i < |s| && i != 0 && i != 4 && i != 5 ==> r[i] == s[i]
    ensures ChecksumsValid(r, n)
  {
    var c := Checksum16(s, n);
    var t := s[4 := c % 256][5 := c / 256];
    assert n > 6 ==> t[6..n] == s[6..n];
    var r := t[0 := Checksum8(t)];
    assert r[1..6] == t[1..6];
    assert n > 6 ==> r[6..n] == s[6..n];
    r
  }

  /** Sealing never reads the old contents of bytes 0, 4 and 5. */
  lemma SealIgnoresCheckBytes(s: seq<byte>, t: seq<byte>, n: int)
    requires |s| == |t| >= 6 && (n <= 6 || n <= |s|)
    requires forall i :: 0 <= i < |s| && i != 0 && i != 4 && i != 5 ==> s[i] == t[i]
    ensures Seal(s, n) == Seal(t, n)
  {
    if n > 6 {
      assert s[6..n] == t[6..n];
    }
    var c := Checksum16(s, n);
    var s1 := s[4 := c % 256][5 := c / 256];
    var t1 := t[4 := c % 256][5 := c / 256];
    assert s1[1..6] == t1[1..6];
  }

  /** extendedChecksum16 (u3TempNew.c and u3IR.c): the accumulation loop over bytes 6..n-1. */
  method ExtendedChecksum16(b: array<byte>, n: int) returns (a: uint16)
    requires n <= 6 || n <= b.Length
    ensures a == Checksum16(b[..], n)
  {
    var acc: int := 0;
    if n > 6 {
      var i := 6;
      while i < n
        invariant 6 <= i <= n
        invariant acc == Sum(b[6..i])
      {
        assert b[6..i + 1] == b[6..i] + [b[i]];
        SumSnoc(b[6..i], b[i]);
        acc := acc + b[i];
        i := i + 1;
      }
      assert b[..][6..n] == b[6..n];
    }
    a := acc % 0x1_0000;
  }

  /** extendedChecksum8 (u3TempNew.c and u3IR.c): sums bytes 1..5, then folds twice. */
  method ExtendedChecksum8(b: array<byte>) returns (r: byte)
    requires b.Length >= 6
    ensures r == Checksum8(b[..])
  {
    var a: int := 0;
    var i := 1;
    while i < 6
      invariant 1 <= i <= 6
      invariant a == Sum(b[1..i])
    {
      assert b[1..i + 1] == b[1..i] + [b[i]];
      SumSnoc(b[1..i], b[i]);
      a := a + b[i];
      i := i + 1;
    }
    assert b[..][1..6] == b[1..6];
    SumBound(b[1..6]);
    var bb := a / 256;
    a := (a - 256 * bb) + bb;
    bb := a / 256;
    r := (a - 256 * bb) + bb;
  }

  /** normalChecksum8: like extendedChecksum8 over bytes [1, n), in a wrapping 16-bit accumulator. */
  method NormalChecksum8(b: array<byte>, n: int) returns (r: byte)
    requires n <= 1 || n <= b.Length
    ensures r == NormalChecksum8Of(b[..], n)
  {
    var a: uint16 := 0;
    if n > 1 {
      var i := 1;
      while i < n
        invariant 1 <= i <= n
        invariant a == Sum(b[1..i]) % 0x1_0000
      {
        assert b[1..i + 1] == b[1..i] + [b[i]];
        SumSnoc(b[1..i], b[i]);
        WrapAdd(Sum(b[1..i]), b[i]);
        a := (a + b[i]) % 0x1_0000;
        i := i + 1;
      }
      assert b[..][1..n] == b[1..n];
    }
    var bb := a / 256;
    var a1 := (a - 256 * bb) + bb;
    FoldResidue(a, bb, a1);
    bb := a1 / 256;
    r := (a1 - 256 * bb) + bb;
  }

  /** Adding to a 16-bit wrapped sum wraps like adding to the whole sum. */
  lemma WrapAdd(total: int, x: int)
    ensures (total % 0x1_0000 + x) % 0x1_0000 == (total + x) % 0x1_0000
  {
    var q := total / 0x1_0000;
    assert total + x == (total % 0x1_0000 + x) + 0x1_0000 * q;
  }

  /** extendedChecksum (u3TempNew.c and u3IR.c): writes bytes 4, 5 and then 0 in place. */
  method ExtendedChecksum(b: array<byte>, n: int)
    requires b.Length >= 6 && (n <= 6 || n <= b.Length)
    modifies b
    ensures b[..] == Seal(old(b[..]), n)
    ensures ChecksumsValid(b[..], n)
    ensures forall i :: 0 <= i < b.Length && i != 0 && i != 4 && i != 5 ==> b[i] == old(b[i])
  {
    ghost var s: seq<byte> := b[..];
    var a := ExtendedChecksum16(b, n);
    b[4] := a % 256;
    b[5] := (a / 256) % 256;
    ghost var t: seq<byte> := b[..];
    ghost var lo: byte, hi: byte := a % 256, a / 256;
    assert t == s[4 := lo][5 := hi];
    var c := ExtendedChecksum8(b);
    b[0] := c;
    assert b[..] == t[0 := c];
  }

  /** normalChecksum: writes the normal 8-bit checksum into byte 0. */
  method NormalChecksum(b: array<byte>, n: int)
    requires b.Length >= 1 && (n <= 1 || n <= b.Length)
    modifies b
    ensures b[..] == old(b[..])[0 := NormalChecksum8Of(old(b[..]), n)]
  {
    var c := NormalChecksum8(b, n);
    b[0] := c;
  }

  /** Byte 0 and the bytes from 6 on never influence the 8-bit header checksum. */
  lemma Checksum8OnlyReadsHeader(s: seq<byte>, i: nat, v: byte)
    requires |s| >= 6 && i < |s| && (i == 0 || i >= 6)
    ensures Checksum8(s[i := v]) == Checksum8(s)
  {
    assert s[i := v][1..6] == s[1..6];
  }

  /** Bytes before 6 and from n on never influence the 16-bit checksum. */
  lemma Checksum16OnlyReadsBody(s: seq<byte>, n: int, i: nat, v: byte)
    requires (n <= 6 || n <= |s|) && i < |s| && (i < 6 || i >= n)
    ensures Checksum16(s[i := v], n) == Checksum16(s, n)
  {
    if n > 6 {
      assert s[i := v][6..n] == s[6..n];
    }
  }

  /** Frames up to 263 bytes have a 16-bit sum that does not wrap. */
  lemma Checksum16IsExactSum(s: seq<byte>, n: int)
    requires 6 < n <= |s| && n <= 6 + 257
    ensures Checksum16(s, n) == Sum(s[6..n])
  {
    SumBound(s[6..n]);
  }

  /**
   * Any change of a single byte in bytes 0..n-1 of a sealed packet makes one of the
   * three checks fail, except a change between 0x00 and 0xFF in header bytes 1..3,
   * which the end-around-carry checksum cannot see (a single-bit flip changes a byte
   * by a power of two below 255, so every single-bit flip is caught).
   */
  lemma {:induction false} SingleByteCorruptionDetected(s: seq<byte>, n: int, i: nat, v: byte)
    requires ChecksumsValid(s, n)
    requires i < |s| && (i < 6 || i < n) && v != s[i]
    requires 1 <= i < 4 ==> v - s[i] != 255 && s[i] - v != 255
    ensures !ChecksumsValid(s[i := v], n)
  {
    if i == 0 {
      Checksum8OnlyReadsHeader(s, i, v);
    } else if i < 6 {
      Checksum16OnlyReadsBody(s, n, i, v);
      if i < 4 {
        HeaderCorruptionChangesChecksum8(s, i, v);
      }
    } else {
      Checksum8OnlyReadsHeader(s, i, v);
      BodyCorruptionChangesChecksum16(s, n, i, v);
    }
  }

  /** A change of header byte 1, 2 or 3 by anything but 255 changes the 8-bit checksum. */
  lemma HeaderCorruptionChangesChecksum8(s: seq<byte>, i: nat, v: byte)
    requires |s| >= 6 && 1 <= i < 4 && v != s[i]
    requires v - s[i] != 255 && s[i] - v != 255
    ensures Checksum8(s[i := v]) != Checksum8(s)
  {
    var t := s[i := v];
    assert t[1..6] == s[1..6][i - 1 := v];
    SumUpdate(s[1..6], i - 1, v);
    SumBound(s[1..6]);
    SumBound(t[1..6]);
    ResidueDiffers(Sum(s[1..6]), Sum(t[1..6]));
  }

  /** A change of a byte in the checked body changes one of the two bytes of the 16-bit checksum. */
  lemma BodyCorruptionChangesChecksum16(s: seq<byte>, n: int, i: nat, v: byte)
    requires 6 <= i < n <= |s| && v != s[i]
    ensures var a, b := Checksum16(s[i := v], n), Checksum16(s, n);
      a / 256 != b / 256 || a % 256 != b % 256
  {
    var t := s[i := v];
    assert t[6..n] == s[6..n][i - 6 := v];
    SumUpdate(s[6..n], i - 6, v);
    var a, b := Checksum16(t, n), Checksum16(s, n);
    assert a != b;
    assert a == 256 * (a / 256) + a % 256 && b == 256 * (b / 256) + b % 256;
  }

  /** Two sums that differ by a non-zero amount smaller than 255 fold differently. */
  lemma ResidueDiffers(a: uint16, b: uint16)
    requires a != b && a - b != 255 && b - a != 255 && -255 < a - b < 255
    ensures Fold8(a) != Fold8(b)
  {
    if a > 0 && b > 0 {
      assert (a - 1) % 255 != (b - 1) % 255;
    }
  }

  /**
   * The blind spot: exchanging 0x00 for 0xFF in header byte 1, 2 or 3 keeps the
   * 8-bit checksum whenever the header sum stays non-zero.
   */
  lemma {:induction false} ComplementByteUndetected(s: seq<byte>, i: nat)
    requires |s| >= 6 && 1 <= i < 4 && s[i] == 0 && Sum(s[1..6]) > 0
    ensures Checksum8(s[i := 255]) == Checksum8(s)
  {
    var t := s[i := 255];
    assert t[1..6] == s[1..6][i - 1 := 255];
    SumUpdate(s[1..6], i - 1, 255);
    SumBound(s[1..6]);
    SumBound(t[1..6]);
    var a := Sum(s[1..6]);
    assert (a + 255 - 1) % 255 == (a - 1) % 255;
  }
}
