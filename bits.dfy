/**
 * Bit-field helpers of the RV32I core: the instruction field extractors,
 * `get_bits`, `sign_extend`, and the two's-complement readings the executor
 * relies on (signed view of a word, arithmetic right shift, the C casts
 * `(s8)` and `(s16)`). Words are `bv32`, so every addition, subtraction and
 * shift wraps modulo 2^32 exactly as `u32` arithmetic does in C.
 */
module Bits {

  /** Bit `i` of `x` is set. */
  predicate Bit(x: bv32, i: bv32)
    requires i < 32
  {
    (x >> i) & 1 == 1
  }

  /** The value a C `(s32)` cast gives to the bit pattern `x`. */
  function Signed(x: bv32): int
  {
    if x < 0x8000_0000 then x as int else x as int - 0x1_0000_0000
  }

  // ---------------------------------------------------------------------
  // Field extractors (OPCODE, RD, FUNCT3, RS1, RS2, FUNCT7)

  function Opcode(i: bv32): (r: bv32)
    ensures r < 0x80
  {
    i & 0x7F
  }

  function Rd(i: bv32): (r: bv32)
    ensures r < 32
  {
    (i >> 7) & 0x1F
  }

  function Funct3(i: bv32): (r: bv32)
    ensures r < 8
  {
    (i >> 12) & 0x7
  }

  function Rs1(i: bv32): (r: bv32)
    ensures r < 32
  {
    (i >> 15) & 0x1F
  }

  function Rs2(i: bv32): (r: bv32)
    ensures r < 32
  {
    (i >> 20) & 0x1F
  }

  function Funct7(i: bv32): (r: bv32)
    ensures r < 0x80
  {
    (i >> 25) & 0x7F
  }

  /** The six fields tile the word: putting them back in place rebuilds it. */
  lemma FieldsReassemble(i: bv32)
    ensures Opcode(i) | (Rd(i) << 7) | (Funct3(i) << 12) | (Rs1(i) << 15) | (Rs2(i) << 20) | (Funct7(i) << 25) == i
  {
  }

  /**
   * Bits [hi:lo] of `x`, moved down to bit 0. The C shift `1u << (hi-lo+1)`
   * is undefined for a 32-bit wide field, which is never requested.
   */
  function GetBits(x: bv32, hi: bv32, lo: bv32): (r: bv32)
    requires lo <= hi < 32 && hi - lo < 31
    ensures r < 1 << (hi - lo + 1)
  {
    (x >> lo) & ((1 << (hi - lo + 1)) - 1)
  }

  // ---------------------------------------------------------------------
  // sign_extend

  /**
   * Sign extension from `bits` bits by the xor-and-subtract trick: flipping
   * bit bits-1 and subtracting it again leaves a clear top bit alone and
   * turns a set one into a borrow through all higher bits.
   */
  function SignExtend(val: bv32, bits: bv32): bv32
    requires 1 <= bits <= 32
  {
    var m: bv32 := 1 << (bits - 1);
    (val ^ m) - m
  }

  // The decoder extends from 12, 13 and 21 bits. For each width, one lemma
  // per sign of the top bit, then one lemma that puts the two cases together.

  lemma SignExtend12Positive(v: bv32)
    requires v < 0x800
    ensures SignExtend(v, 12) == v
  {
  }

  lemma SignExtend12Negative(v: bv32)
    requires 0x800 <= v < 0x1000
    ensures SignExtend(v, 12) == v - 0x1000
  {
  }

  lemma FillAbove12(v: bv32)
    requires 0x800 <= v < 0x1000
    ensures v - 0x1000 == v | 0xFFFF_F000 && v - 0x1000 >= 0xFFFF_F800
  {
  }

  lemma SignExtend13Positive(v: bv32)
    requires v < 0x1000
    ensures SignExtend(v, 13) == v
  {
  }

  lemma SignExtend13Negative(v: bv32)
    requires 0x1000 <= v < 0x2000
    ensures SignExtend(v, 13) == v - 0x2000
  {
  }

  lemma FillAbove13(v: bv32)
    requires 0x1000 <= v < 0x2000
    ensures v - 0x2000 == v | 0xFFFF_E000 && v - 0x2000 >= 0xFFFF_F000
  {
  }

  lemma SignExtend21Positive(v: bv32)
    requires v < 0x10_0000
    ensures SignExtend(v, 21) == v
  {
  }

  lemma SignExtend21Negative(v: bv32)
    requires 0x10_0000 <= v < 0x20_0000
    ensures SignExtend(v, 21) == v - 0x20_0000
  {
  }

  lemma FillAbove21(v: bv32)
    requires 0x10_0000 <= v < 0x20_0000
    ensures v - 0x20_0000 == v | 0xFFE0_0000 && v - 0x20_0000 >= 0xFFF0_0000
  {
  }

  lemma SignedRange12(r: bv32)
    requires r < 0x800 || 0xFFFF_F800 <= r
    ensures -0x800 <= Signed(r) < 0x800
  {
  }

  lemma SignedRange13(r: bv32)
    requires r < 0x1000 || 0xFFFF_F000 <= r
    ensures -0x1000 <= Signed(r) < 0x1000
  {
  }

  lemma SignedRange21(r: bv32)
    requires r < 0x10_0000 || 0xFFF0_0000 <= r
    ensures -0x10_0000 <= Signed(r) < 0x10_0000
  {
  }

  /**
   * `sign_extend(v, 12)` of a 12-bit value: `v` when bit 11 is clear,
   * otherwise `v - 2^12` modulo 2^32, which is `v` with bits 12..31 set;
   * read as `s32` it lies in [-2^11, 2^11).
   */
  lemma SignExtend12(v: bv32)
    requires v < 0x1000
    ensures SignExtend(v, 12) == (if v < 0x800 then v else v - 0x1000)
    ensures SignExtend(v, 12) == (if v < 0x800 then v else v | 0xFFFF_F000)
    ensures -0x800 <= Signed(SignExtend(v, 12)) < 0x800
  {
    if v < 0x800 {
      SignExtend12Positive(v);
    } else {
      SignExtend12Negative(v);
      FillAbove12(v);
    }
    SignedRange12(SignExtend(v, 12));
  }

  /** As SignExtend12, for the 13-bit branch offsets. */
  lemma SignExtend13(v: bv32)
    requires v < 0x2000
    ensures SignExtend(v, 13) == (if v < 0x1000 then v else v - 0x2000)
    ensures SignExtend(v, 13) == (if v < 0x1000 then v else v | 0xFFFF_E000)
    ensures -0x1000 <= Signed(SignExtend(v, 13)) < 0x1000
  {
    if v < 0x1000 {
      SignExtend13Positive(v);
    } else {
      SignExtend13Negative(v);
      FillAbove13(v);
    }
    SignedRange13(SignExtend(v, 13));
  }

  /** As SignExtend12, for the 21-bit jump offsets. */
  lemma SignExtend21(v: bv32)
    requires v < 0x20_0000
    ensures SignExtend(v, 21) == (if v < 0x10_0000 then v else v - 0x20_0000)
    ensures SignExtend(v, 21) == (if v < 0x10_0000 then v else v | 0xFFE0_0000)
    ensures -0x10_0000 <= Signed(SignExtend(v, 21)) < 0x10_0000
  {
    if v < 0x10_0000 {
      SignExtend21Positive(v);
    } else {
      SignExtend21Negative(v);
      FillAbove21(v);
    }
    SignedRange21(SignExtend(v, 21));
  }

  /** `sign_extend(0, b)` is 0 and `sign_extend(2^b - 1, b)` is -1 (all ones). */
  lemma SignExtendExtremes(bits: bv32)
    requires 1 <= bits < 32
    ensures SignExtend(0, bits) == 0
    ensures SignExtend((1 << bits) - 1, bits) == 0xFFFF_FFFF
  {
  }

  // ---------------------------------------------------------------------
  // Arithmetic right shift and narrowing casts

  /**
   * `(s32)x >> sh`: an arithmetic right shift. A negative value is shifted
   * as the complement of the logical shift of its complement, which fills
   * with ones.
   */
  function ShiftRightArith(x: bv32, sh: bv32): bv32
    requires sh < 32
  {
    if x & 0x8000_0000 == 0 then x >> sh else !((!x) >> sh)
  }

  lemma ShiftRightArithNonNegative(a: bv32, sh: bv32)
    requires sh < 32 && a & 0x8000_0000 == 0
    ensures ShiftRightArith(a, sh) == a >> sh
  {
  }

  lemma ShiftRightArithNegative(a: bv32, sh: bv32)
    requires sh < 32 && a & 0x8000_0000 != 0
    ensures ShiftRightArith(a, sh) == !((!a) >> sh)
  {
  }

  lemma LogicalShiftLowBits(a: bv32, sh: bv32)
    requires sh < 32
    ensures (a >> sh) & (0xFFFF_FFFF >> sh) == a >> sh
  {
  }

  lemma LogicalShiftHighBits(a: bv32, sh: bv32)
    requires sh < 32
    ensures (a >> sh) & !(0xFFFF_FFFF >> sh) == 0
  {
  }

  lemma ComplementShiftLowBits(a: bv32, sh: bv32)
    requires sh < 32
    ensures !((!a) >> sh) & (0xFFFF_FFFF >> sh) == a >> sh
  {
  }

  lemma ComplementShiftHighBits(a: bv32, sh: bv32)
    requires sh < 32
    ensures !((!a) >> sh) | (0xFFFF_FFFF >> sh) == 0xFFFF_FFFF
  {
  }

  /**
   * Below its top `sh` bits, `(s32)a >> sh` is the logical shift `a >> sh`.
   */
  lemma ShiftRightArithLowBits(a: bv32, sh: bv32)
    requires sh < 32
    ensures ShiftRightArith(a, sh) & (0xFFFF_FFFF >> sh) == a >> sh
  {
    if a & 0x8000_0000 == 0 {
      ShiftRightArithNonNegative(a, sh);
      LogicalShiftLowBits(a, sh);
    } else {
      ShiftRightArithNegative(a, sh);
      ComplementShiftLowBits(a, sh);
    }
  }

  /**
   * The top `sh` bits of `(s32)a >> sh` are copies of bit 31 of `a`: all
   * clear for a non-negative `a`, all set for a negative one.
   */
  lemma ShiftRightArithHighBitsClear(a: bv32, sh: bv32)
    requires sh < 32 && !Bit(a, 31)
    ensures ShiftRightArith(a, sh) & !(0xFFFF_FFFF >> sh) == 0
  {
    SignBit(a);
    ShiftRightArithNonNegative(a, sh);
    LogicalShiftHighBits(a, sh);
  }

  lemma ShiftRightArithHighBitsSet(a: bv32, sh: bv32)
    requires sh < 32 && Bit(a, 31)
    ensures ShiftRightArith(a, sh) | (0xFFFF_FFFF >> sh) == 0xFFFF_FFFF
  {
    SignBit(a);
    ShiftRightArithNegative(a, sh);
    ComplementShiftHighBits(a, sh);
  }

  lemma SignBit(a: bv32)
    ensures Bit(a, 31) == (a & 0x8000_0000 != 0)
  {
  }

  /** `(s32)(s8)b`: the byte read as a signed value and widened to 32 bits. */
  function SignExtendByte(b: bv8): bv32
  {
    if b < 0x80 then b as bv32 else b as bv32 | 0xFFFF_FF00
  }

  /** `(s32)(s16)h`: the half-word read as a signed value and widened to 32 bits. */
  function SignExtendHalf(h: bv16): bv32
  {
    if h < 0x8000 then h as bv32 else h as bv32 | 0xFFFF_0000
  }

  /** The C narrowing cast `(s8)` agrees with `sign_extend` at width 8. */
  lemma SignExtendByteIsSignExtend(b: bv8)
    ensures SignExtendByte(b) == SignExtend(b as bv32, 8)
  {
    if b < 0x80 {
      assert SignExtendByte(b) == b as bv32;
    } else {
      assert SignExtendByte(b) == b as bv32 | 0xFFFF_FF00;
    }
  }

  /** The C narrowing cast `(s16)` agrees with `sign_extend` at width 16. */
  lemma SignExtendHalfIsSignExtend(h: bv16)
    ensures SignExtendHalf(h) == SignExtend(h as bv32, 16)
  {
    if h < 0x8000 {
      assert SignExtendHalf(h) == h as bv32;
    } else {
      assert SignExtendHalf(h) == h as bv32 | 0xFFFF_0000;
    }
  }
}
