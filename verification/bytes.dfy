/** Byte values and the bit operations the producers use, on Python's
    non-negative integers. */
module Bytes {

  /** An element of a CAN payload: Python ints kept in 0..255. */
  newtype byte = x: int | 0 <= x < 256

  /** `a << k`. */
  function Shl(a: nat, k: nat): (r: nat)
    ensures a == 0 ==> r == 0
  {
    if k == 0 then a else 2 * Shl(a, k - 1)
  }

  /** Python's `a | b` on non-negative ints: the lowest bits combine, the
      rest is the OR of the halves. */
  function BitOr(a: nat, b: nat): nat
    decreases a + b
  {
    if a == 0 then b
    else if b == 0 then a
    else 2 * BitOr(a / 2, b / 2) + (if a % 2 == 1 || b % 2 == 1 then 1 else 0)
  }

  /** The lowest bits of the operands combine on their own. */
  lemma BitOrStep(a: nat, b: nat, l: nat, m: nat)
    requires l < 2 && m < 2
    ensures BitOr(2 * a + l, 2 * b + m) == 2 * BitOr(a, b) + (if l == 1 || m == 1 then 1 else 0)
  {
    var x, y := 2 * a + l, 2 * b + m;
    assert x / 2 == a && x % 2 == l && y / 2 == b && y % 2 == m;
  }

  /** `|` is commutative. */
  lemma {:induction false} BitOrCommutes(a: nat, b: nat)
    ensures BitOr(a, b) == BitOr(b, a)
    decreases a + b
  {
    if a != 0 && b != 0 {
      BitOrCommutes(a / 2, b / 2);
    }
  }

  /** OR-ing values shifted past the low `k` bits leaves those bits of the
      first operand alone. */
  lemma {:induction false} BitOrShift(a: nat, b: nat, l: nat, k: nat)
    requires l < Shl(1, k)
    ensures BitOr(Shl(a, k) + l, Shl(b, k)) == Shl(BitOr(a, b), k) + l
  {
    if k > 0 {
      BitOrShift(a, b, l / 2, k - 1);
      BitOrStep(Shl(a, k - 1) + l / 2, Shl(b, k - 1), l % 2, 0);
    }
  }

  /** A value below `2^k` OR-ed with `2^k - 1` gives `2^k - 1`. */
  lemma {:induction false} BitOrFill(h: nat, k: nat)
    requires h < Shl(1, k)
    ensures BitOr(h, Shl(1, k) - 1) == Shl(1, k) - 1
  {
    if k > 0 {
      BitOrFill(h / 2, k - 1);
      BitOrStep(h / 2, Shl(1, k - 1) - 1, h % 2, 1);
    }
  }

  /** The OR of two values below `2^k` is below `2^k`. */
  lemma {:induction false} BitOrBelow(a: nat, b: nat, k: nat)
    requires a < Shl(1, k) && b < Shl(1, k)
    ensures BitOr(a, b) < Shl(1, k)
  {
    if k > 0 && a != 0 && b != 0 {
      BitOrBelow(a / 2, b / 2, k - 1);
    }
  }

  /** `2^4` and `2^8`. */
  lemma SmallPowers(h: nat)
    ensures Shl(1, 4) == 16 && Shl(1, 8) == 256 && Shl(h, 4) == 16 * h
  {
    assert Shl(h, 1) == 2 * h && Shl(h, 2) == 4 * h && Shl(h, 3) == 8 * h;
    assert Shl(1, 5) == 32 && Shl(1, 6) == 64 && Shl(1, 7) == 128;
  }

  /** Python's `a | b` on two byte values. */
  function Or(a: byte, b: byte): (r: byte)
    ensures r as int == BitOr(a as nat, b as nat)
  {
    SmallPowers(0);
    BitOrBelow(a as nat, b as nat, 8);
    BitOr(a as nat, b as nat) as byte
  }

  /** `x | 0xF0` keeps the low nibble of `x` and sets the high one. */
  lemma OrHighNibble(x: byte)
    ensures Or(x, 0xF0) as int == 0xF0 + x as int % 16
  {
    var h := x as nat / 16;
    SmallPowers(h);
    SmallPowers(15);
    BitOrShift(h, 15, x as nat % 16, 4);
    BitOrFill(h, 4);
  }

  /** OR-ing a low nibble into a value whose low nibble is clear adds it. */
  lemma OrLowNibble(x: byte, lo: byte)
    requires x as int % 16 == 0 && lo < 16
    ensures Or(x, lo) as int == x as int + lo as int
  {
    var h := x as nat / 16;
    SmallPowers(h);
    BitOrShift(0, h, lo as nat, 4);
    BitOrCommutes(x as nat, lo as nat);
  }

  /** OR-ing the bit `2^k` into a smaller value adds it. */
  lemma OrHigherBit(x: byte, k: nat)
    requires x as int < Shl(1, k) < 256
    ensures Or(x, Shl(1, k) as byte) as int == x as int + Shl(1, k)
  {
    BitOrShift(0, 1, x as nat, k);
  }

  /** Adding one after reducing mod 256 is adding one before. */
  lemma ModIncrement(x: int)
    ensures (x % 256 + 1) % 256 == (x + 1) % 256
  {
  }

  /** Reducing mod 65536 before an addition does not change the sum mod
      65536. */
  lemma WrapAdd16(c: int, b: int)
    ensures (c % 0x1_0000 + b) % 0x1_0000 == (c + b) % 0x1_0000
  {
    var k := c / 0x1_0000;
    assert c % 0x1_0000 + b == (c + b) - 0x1_0000 * k;
  }

  /** `x & 0xFF` and `(x >> 8) & 0xFF` are the two low bytes of `x`,
      little-endian. */
  lemma LittleEndian16(x: int)
    ensures x % 256 + 256 * ((x / 256) % 256) == x % 65536
  {
    var q, r := x / 256, x % 256;
    var hi, lo := q / 256, q % 256;
    assert x == 65536 * hi + (256 * lo + r);
    assert 0 <= 256 * lo + r < 65536;
  }

  /** Python's `max(lo, min(v, hi))`. */
  function Clamp(v: int, lo: int, hi: int): (r: int)
    requires lo <= hi
    ensures lo <= r <= hi
    ensures lo <= v <= hi ==> r == v
    ensures v < lo ==> r == lo
    ensures v > hi ==> r == hi
  {
    if v < lo then lo else if v > hi then hi else v
  }
}
