/**
 * C's bitwise `&` and `|` on bytes and the source's `pow(2, k)` masks, defined
 * bit by bit on integers, with the facts about single bits the mask updates rely on.
 */
module Bits {
  import opened Bytes

  /** Bit k of n, bit 0 being the least significant. */
  predicate BitAt(n: nat, k: nat)
  {
    if k == 0 then n % 2 == 1 else BitAt(n / 2, k - 1)
  }

  /** The low `width` bits of a & b. */
  function BitwiseAnd(a: nat, b: nat, width: nat): (r: nat)
    ensures r < Pow2(width)
  {
    if width == 0 then 0
    else (if a % 2 == 1 && b % 2 == 1 then 1 else 0) + 2 * BitwiseAnd(a / 2, b / 2, width - 1)
  }

  /** The low `width` bits of a | b. */
  function BitwiseOr(a: nat, b: nat, width: nat): (r: nat)
    ensures r < Pow2(width)
  {
    if width == 0 then 0
    else (if a % 2 == 1 || b % 2 == 1 then 1 else 0) + 2 * BitwiseOr(a / 2, b / 2, width - 1)
  }

  /** C's `&` on two uint8 values. */
  function And(a: byte, b: byte): byte
  {
    BitwiseAnd(a, b, 8)
  }

  /** C's `|` on two uint8 values. */
  function Or(a: byte, b: byte): byte
  {
    BitwiseOr(a, b, 8)
  }

  /** pow(2, k) for a bit position within a byte. */
  function Bit(k: nat): (r: byte)
    requires k < 8
    ensures r == Pow2(k)
  {
    Pow2Monotone(k, 7);
    Pow2(k)
  }

  /** Pow2 grows with its exponent. */
  lemma {:induction false} Pow2Monotone(j: nat, k: nat)
    requires j <= k
    ensures Pow2(j) <= Pow2(k)
  {
    if j < k {
      Pow2Monotone(j, k - 1);
    }
  }

  /** A bit of a & b is set exactly when it is set in both. */
  lemma {:induction false} AndBit(a: nat, b: nat, width: nat, k: nat)
    requires k < width
    ensures BitAt(BitwiseAnd(a, b, width), k) == (BitAt(a, k) && BitAt(b, k))
  {
    if k > 0 {
      AndBit(a / 2, b / 2, width - 1, k - 1);
    }
  }

  /** A bit of a | b is set exactly when it is set in either. */
  lemma {:induction false} OrBit(a: nat, b: nat, width: nat, k: nat)
    requires k < width
    ensures BitAt(BitwiseOr(a, b, width), k) == (BitAt(a, k) || BitAt(b, k))
  {
    if k > 0 {
      OrBit(a / 2, b / 2, width - 1, k - 1);
    }
  }

  /** pow(2, k) has bit k set and no other. */
  lemma {:induction false} PowerBit(k: nat, j: nat)
    ensures BitAt(Pow2(k), j) == (j == k)
  {
    if j == 0 {
      if k > 0 {
        assert Pow2(k) == 2 * Pow2(k - 1);
      }
    } else if k == 0 {
      ZeroBits(j - 1);
    } else {
      assert Pow2(k) / 2 == Pow2(k - 1);
      PowerBit(k - 1, j - 1);
    }
  }

  /** 0 has no bit set. */
  lemma {:induction false} ZeroBits(j: nat)
    ensures !BitAt(0, j)
  {
    if j > 0 {
      ZeroBits(j - 1);
    }
  }

  /** 2^w - 1 has every bit below w set. */
  lemma {:induction false} AllOnesBits(w: nat, j: nat)
    requires j < w
    ensures BitAt(Pow2(w) - 1, j)
  {
    if j > 0 {
      assert (Pow2(w) - 1) / 2 == Pow2(w - 1) - 1;
      AllOnesBits(w - 1, j - 1);
    }
  }

  /** Subtracting pow(2, k) from a number with bit k set clears that bit and keeps every other. */
  lemma {:induction false} SubtractSetBit(x: nat, k: nat, j: nat)
    requires BitAt(x, k)
    ensures x >= Pow2(k)
    ensures BitAt(x - Pow2(k), j) == (j != k && BitAt(x, j))
  {
    if k == 0 {
      if j > 0 {
        assert (x - 1) / 2 == x / 2;
      }
    } else {
      SubtractSetBit(x / 2, k - 1, if j == 0 then 0 else j - 1);
      assert x - Pow2(k) == 2 * (x / 2 - Pow2(k - 1)) + x % 2;
      if j > 0 {
        SubtractSetBit(x / 2, k - 1, j - 1);
      }
    }
  }

  /** Every bit of 255 is set. */
  lemma AllOnesByte(j: nat)
    requires j < 8
    ensures BitAt(255, j)
  {
    AllOnesBits(8, j);
  }

  /** 255 - pow(2, k): every bit of the byte set except bit k. */
  lemma AllButBit(k: nat, j: nat)
    requires k < 8 && j < 8
    ensures BitAt(255 - Bit(k), j) == (j != k)
  {
    AllOnesByte(k);
    AllOnesByte(j);
    SubtractSetBit(255, k, j);
  }
}
