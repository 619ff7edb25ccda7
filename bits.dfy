/** Machine words of the CHIP-8 interpreter and the byte-wise bit operations
    its register-to-register instructions use.

    Words are bounded integers rather than bit-vectors: the interpreter does
    arithmetic on them (`+=`, `-=`, `/`, `%`) as often as it masks them, and a
    mask-and-shift over a non-negative word is the same as a division and a
    remainder by a power of two. The three bitwise operators on bytes are
    computed on `bv8`, exactly as the source's `|`, `&` and `^` on `u8`. */
module Bits {

  /** Rust's `u8` and `u16`. */
  type u8 = x: int | 0 <= x < 0x100
  type u16 = x: int | 0 <= x < 0x1_0000

  /** A 4-bit field of an instruction word: a register index or an opcode selector. */
  type Nibble = x: int | 0 <= x < 0x10

  /** A 12-bit address field (`nnn`). */
  type Addr = x: int | 0 <= x < 0x1000

  const U8_MAX: int := 0xFF
  const U16_MAX: int := 0xFFFF

  /** `a | b` on `u8`. */
  function Or8(a: u8, b: u8): u8 {
    ((a as bv8) | (b as bv8)) as int
  }

  /** `a & b` on `u8`. */
  function And8(a: u8, b: u8): u8 {
    ((a as bv8) & (b as bv8)) as int
  }

  /** `a ^ b` on `u8`. */
  function Xor8(a: u8, b: u8): u8 {
    ((a as bv8) ^ (b as bv8)) as int
  }

  /** Division with a remainder has one answer: the quotient and remainder of
      `q * m + r` are `q` and `r` whenever `0 <= r < m`. */
  lemma DivMod(w: int, m: int, q: int, r: int)
    requires m > 0 && 0 <= r < m && w == q * m + r
    ensures w / m == q && w % m == r
  {
    var q', r' := w / m, w % m;
    assert w == q' * m + r';
    assert (q - q') * m == r' - r;
    if q > q' {
      MulAtLeast(q - q', m);
    } else if q < q' {
      MulAtLeast(q' - q, m);
    }
  }

  lemma MulAtLeast(k: int, m: int)
    requires k >= 1 && m > 0
    ensures k * m >= m
  {
  }

  /** Masking with 0x01 keeps the least significant bit: the parity of the byte. */
  lemma LowBitIsParity(a: u8)
    ensures And8(a, 0x01) == a % 2
  {
  }
}
