/**
 * Fixed-width machine words of the CHIP-8 interpreter and the bit-level
 * operations its fetch and dispatch use: unsigned 8- and 16-bit values,
 * bitwise OR, and the split of an opcode into four 4-bit nibbles.
 *
 * Words are integers constrained to their range, so wrap-around is written
 * out explicitly wherever the interpreter relies on it.
 */
module Bits {

  newtype u8 = x: int | 0 <= x < 0x100
  newtype u16 = x: int | 0 <= x < 0x1_0000

  /** One hexadecimal digit of an opcode. */
  type Nibble = x: int | 0 <= x < 0x10

  function Pow2(n: nat): (p: nat)
    ensures p >= 1
  {
    if n == 0 then 1 else 2 * Pow2(n - 1)
  }

  /** Bit k (bit 0 is the least significant) of x is set. */
  predicate Bit(x: nat, k: nat)
  {
    if k == 0 then x % 2 == 1 else Bit(x / 2, k - 1)
  }

  /**
   * Bitwise OR of the low n bits of a and b, computed one bit at a time
   * from the least significant end.
   */
  function OrN(a: nat, b: nat, n: nat): (r: nat)
    ensures r < Pow2(n)
  {
    if n == 0 then 0
    else 2 * OrN(a / 2, b / 2, n - 1) + (if a % 2 == 1 || b % 2 == 1 then 1 else 0)
  }

  /** Bit k of a byte is set. */
  predicate Bit8(x: u8, k: nat)
  {
    Bit(x as nat, k)
  }

  /** Bit k of a 16-bit word is set. */
  predicate Bit16(x: u16, k: nat)
  {
    Bit(x as nat, k)
  }

  /** The `|` operator on two bytes (`u8 | u8` in the interpreter). */
  function Or8(a: u8, b: u8): (r: u8)
    ensures forall k: nat :: Bit8(r, k) <==> k < 8 && (Bit8(a, k) || Bit8(b, k))
  {
    Pow2Widths();
    var r := OrN(a as nat, b as nat, 8);
    forall k: nat ensures Bit(r, k) <==> k < 8 && (Bit(a as nat, k) || Bit(b as nat, k)) {
      OrBit(a as nat, b as nat, 8, k);
    }
    r as u8
  }

  /** The `|` operator on two 16-bit words. */
  function Or16(a: u16, b: u16): (r: u16)
    ensures forall k: nat :: Bit16(r, k) <==> k < 16 && (Bit16(a, k) || Bit16(b, k))
  {
    Pow2Widths();
    var r := OrN(a as nat, b as nat, 16);
    forall k: nat ensures Bit(r, k) <==> k < 16 && (Bit(a as nat, k) || Bit(b as nat, k)) {
      OrBit(a as nat, b as nat, 16, k);
    }
    r as u16
  }

  lemma Pow2Widths()
    ensures Pow2(8) == 0x100 && Pow2(16) == 0x1_0000
  {
    assert Pow2(4) == 16 by {
      assert Pow2(2) == 4;
    }
    assert Pow2(8) == 0x100 by {
      assert Pow2(6) == 64;
    }
    assert Pow2(12) == 0x1000 by {
      assert Pow2(10) == 0x400;
    }
    assert Pow2(16) == 0x1_0000 by {
      assert Pow2(14) == 0x4000;
    }
  }

  lemma {:induction false} ZeroBit(k: nat)
    ensures !Bit(0, k)
  {
    if k > 0 {
      ZeroBit(k - 1);
    }
  }

  /** Each bit of OrN is the disjunction of the operands' bits; above n it is clear. */
  lemma {:induction false} OrBit(a: nat, b: nat, n: nat, k: nat)
    ensures Bit(OrN(a, b, n), k) <==> k < n && (Bit(a, k) || Bit(b, k))
  {
    if n == 0 {
      ZeroBit(k);
    } else if k > 0 {
      assert OrN(a, b, n) / 2 == OrN(a / 2, b / 2, n - 1);
      OrBit(a / 2, b / 2, n - 1, k - 1);
    }
  }

  /** OR with zero keeps the value when it fits in n bits. */
  lemma {:induction false} OrZero(a: nat, n: nat)
    requires a < Pow2(n)
    ensures OrN(a, 0, n) == a
  {
    if n > 0 {
      assert a / 2 < Pow2(n - 1);
      OrZero(a / 2, n - 1);
    }
  }

  /**
   * OR of a value shifted left by k bits with a value of fewer than k bits
   * is their sum: the operands occupy disjoint bits.
   */
  lemma {:induction false} OrDisjoint(a: nat, b: nat, k: nat, n: nat)
    requires b < Pow2(k)
    requires a * Pow2(k) + b < Pow2(n)
    ensures OrN(a * Pow2(k), b, n) == a * Pow2(k) + b
  {
    if n == 0 {
    } else if k == 0 {
      assert b == 0;
      OrZero(a, n);
    } else {
      var hi := a * Pow2(k - 1);
      assert a * Pow2(k) == 2 * hi;
      assert (a * Pow2(k)) / 2 == hi && (a * Pow2(k)) % 2 == 0;
      assert hi + b / 2 < Pow2(n - 1);
      OrDisjoint(a, b / 2, k - 1, n - 1);
    }
  }

  /** `(hi << 8) | lo` of two bytes is the big-endian 16-bit word they form. */
  lemma JoinBytes(hi: u8, lo: u8)
    ensures Or16(hi as u16 * 0x100, lo as u16) as int == hi as int * 0x100 + lo as int
  {
    Pow2Widths();
    OrDisjoint(hi as nat, lo as nat, 8, 16);
  }

  /**
   * The four nibbles of an opcode, most significant first. These are the
   * interpreter's `(op & 0xF000) >> 12`, `(op & 0x0F00) >> 8`,
   * `(op & 0x00F0) >> 4` and `op & 0x000F`: masking a run of low bits and
   * shifting right are remainder and quotient by a power of two.
   */
  function Nibbles(op: u16): (d: (Nibble, Nibble, Nibble, Nibble))
    ensures op as int == d.0 * 0x1000 + d.1 * 0x100 + d.2 * 0x10 + d.3
  {
    (op as int / 0x1000, (op as int / 0x100) % 0x10, (op as int / 0x10) % 0x10, op as int % 0x10)
  }

  /** The low 12 bits of an opcode (`op & 0xFFF`, the NNN operand). */
  function Nnn(op: u16): (a: u16)
    ensures a as int == Nibbles(op).1 * 0x100 + Nibbles(op).2 * 0x10 + Nibbles(op).3
  {
    op % 0x1000
  }

  /** The low byte of an opcode (`(op & 0xFF) as u8`, the NN operand). */
  function Nn(op: u16): (b: u8)
    ensures b as int == Nibbles(op).2 * 0x10 + Nibbles(op).3
  {
    (op % 0x100) as u8
  }
}
