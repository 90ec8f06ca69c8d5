/** Fixed-width unsigned integers of the C source, and byte-sequence arithmetic. */
module Bytes {

  /** C's uint8. */
  type byte = x: int | 0 <= x < 0x100

  /** C's uint16. */
  type uint16 = x: int | 0 <= x < 0x1_0000

  /** C's uint32. */
  type uint32 = x: int | 0 <= x < 0x1_0000_0000

  /** Sum of the bytes of `s`, as an unbounded integer (elements are added left to right). */
  function Sum(s: seq<byte>): nat
  {
    if s == [] then 0 else Sum(s[..|s| - 1]) + s[|s| - 1]
  }

  /** 2^k. */
  function Pow2(k: nat): (r: nat)
    ensures r >= 1
  {
    if k == 0 then 1 else 2 * Pow2(k - 1)
  }

  /** The unsigned value of four bytes read little-endian (least significant byte first). */
  function LittleEndian32(s: seq<byte>): (r: uint32)
    requires |s| == 4
  {
    s[0] as int + 0x100 * (s[1] as int) + 0x1_0000 * (s[2] as int) + 0x100_0000 * (s[3] as int)
  }

  /** The bytes of a 32-bit value, least significant first. */
  function LittleEndianBytes32(v: uint32): (s: seq<byte>)
  {
    [v % 0x100, (v / 0x100) % 0x100, (v / 0x1_0000) % 0x100, v / 0x100_0000]
  }

  /** Appending one more byte adds it to the sum: the step of every accumulation loop. */
  lemma SumSnoc(s: seq<byte>, x: byte)
    ensures Sum(s + [x]) == Sum(s) + x
  {
    assert (s + [x])[..|s|] == s;
  }

  /** A sum of bytes never exceeds 255 per byte. */
  lemma {:induction false} SumBound(s: seq<byte>)
    ensures Sum(s) <= 255 * |s|
  {
    if s != [] {
      SumBound(s[..|s| - 1]);
    }
  }

  /** Replacing one byte changes the sum by exactly the difference of the two bytes. */
  lemma {:induction false} SumUpdate(s: seq<byte>, i: nat, v: byte)
    requires i < |s|
    ensures Sum(s[i := v]) == Sum(s) - s[i] + v
  {
    var t := s[i := v];
    var k := |s| - 1;
    if i == k {
      assert t[..k] == s[..k];
    } else {
      assert t[..k] == s[..k][i := v];
      SumUpdate(s[..k], i, v);
    }
  }

  /** Reading four bytes little-endian inverts `LittleEndianBytes32`. */
  lemma LittleEndianRoundTrip(v: uint32)
    ensures LittleEndian32(LittleEndianBytes32(v)) == v
  {
    var r1, r2 := v / 0x100, v / 0x1_0000;
    assert v == v % 0x100 + 0x100 * r1;
    assert r1 / 0x100 == r2;
    assert r1 == r1 % 0x100 + 0x100 * r2;
    assert r2 / 0x100 == v / 0x100_0000;
    assert r2 == r2 % 0x100 + 0x100 * (v / 0x100_0000);
    assert r1 % 0x100 == (v / 0x100) % 0x100;
  }

  /** Reading four bytes little-endian and writing them back gives the same bytes. */
  lemma LittleEndianBytesRoundTrip(s: seq<byte>)
    requires |s| == 4
    ensures LittleEndianBytes32(LittleEndian32(s)) == s
  {
    var v := LittleEndian32(s);
    var r1 := s[1] as int + 0x100 * (s[2] as int) + 0x1_0000 * (s[3] as int);
    var r2 := s[2] as int + 0x100 * (s[3] as int);
    assert v == s[0] + 0x100 * r1;
    assert v / 0x100 == r1 && v % 0x100 == s[0];
    assert r1 == s[1] + 0x100 * r2;
    assert v / 0x1_0000 == r1 / 0x100 == r2;
    assert r2 / 0x100 == s[3];
    assert v / 0x100_0000 == r2 / 0x100;
  }
}
