/**
 * The decoder `instr_decode` (src/instr.c): a raw 32-bit word becomes an
 * `Instruction` record with its six fixed fields and an immediate built
 * according to the opcode's format. Decoding is total: every word decodes.
 */
module Decoder {
  import opened Bits

  /** A register number, 0..31, used to index the register file. */
  type RegIndex = r: int | 0 <= r < 32

  /**
   * The decoded instruction (include/common.h `Instruction`). `imm` is the
   * bit pattern of the C `s32` field; `Signed(imm)` is its value.
   */
  datatype Instruction = Instruction(
    opcode: bv32,
    rd: RegIndex,
    funct3: bv32,
    rs1: RegIndex,
    rs2: RegIndex,
    funct7: bv32,
    imm: bv32)

  // ---------------------------------------------------------------------
  // Immediates, one per format

  /** I-type: bits 31..20, sign-extended from 12 bits. */
  function ImmI(raw: bv32): bv32
  {
    SignExtend(GetBits(raw, 31, 20), 12)
  }

  /** The shift amount of SLLI/SRLI/SRAI: bits 24..20, not sign-extended. */
  function ImmShift(raw: bv32): bv32
  {
    GetBits(raw, 24, 20)
  }

  /** S-type: bits 31..25 above bits 11..7, sign-extended from 12 bits. */
  function ImmS(raw: bv32): bv32
  {
    SignExtend((GetBits(raw, 31, 25) << 5) | GetBits(raw, 11, 7), 12)
  }

  /** B-type: imm[12|10:5] in bits 31..25, imm[4:1|11] in bits 11..7. */
  function ImmB(raw: bv32): bv32
  {
    SignExtend((GetBits(raw, 31, 31) << 12) | (GetBits(raw, 7, 7) << 11)
      | (GetBits(raw, 30, 25) << 5) | (GetBits(raw, 11, 8) << 1), 13)
  }

  /** U-type: bits 31..12 in place, the low 12 bits zero. */
  function ImmU(raw: bv32): bv32
  {
    raw & 0xFFFF_F000
  }

  /** J-type: imm[20|10:1|11|19:12] in bits 31..12. */
  function ImmJ(raw: bv32): bv32
  {
    SignExtend((GetBits(raw, 31, 31) << 20) | (GetBits(raw, 19, 12) << 12)
      | (GetBits(raw, 20, 20) << 11) | (GetBits(raw, 30, 21) << 1), 21)
  }

  /**
   * The immediate `instr_decode` stores for a word with this opcode and
   * funct3: the format follows the opcode; R-type (0x33), FENCE (0x0F) and
   * every opcode the switch does not name get 0.
   */
  function Immediate(raw: bv32, opcode: bv32, funct3: bv32): bv32
  {
    if opcode == 0x13 then
      (if funct3 == 1 || funct3 == 5 then ImmShift(raw) else ImmI(raw))
    else if opcode == 0x03 || opcode == 0x67 || opcode == 0x73 then ImmI(raw)
    else if opcode == 0x23 then ImmS(raw)
    else if opcode == 0x63 then ImmB(raw)
    else if opcode == 0x37 || opcode == 0x17 then ImmU(raw)
    else if opcode == 0x6F then ImmJ(raw)
    else 0
  }

  /**
   * `instr_decode`: the fixed fields are the bit slices the instr.h field
   * macros read, whatever the opcode.
   */
  function Decode(raw: bv32): (ins: Instruction)
    ensures ins.opcode == Opcode(raw) && ins.rd == Rd(raw) as int && ins.funct3 == Funct3(raw)
    ensures ins.rs1 == Rs1(raw) as int && ins.rs2 == Rs2(raw) as int && ins.funct7 == Funct7(raw)
    ensures ins.imm == Immediate(raw, Opcode(raw), Funct3(raw))
  {
    var opcode := GetBits(raw, 6, 0);
    var rd := GetBits(raw, 11, 7) as int;
    var funct3 := GetBits(raw, 14, 12);
    var rs1 := GetBits(raw, 19, 15) as int;
    var rs2 := GetBits(raw, 24, 20) as int;
    var funct7 := GetBits(raw, 31, 25);
    Instruction(opcode, rd, funct3, rs1, rs2, funct7, Immediate(raw, opcode, funct3))
  }

  // ---------------------------------------------------------------------
  // Each immediate against a direct reading of the word's bits: the sign
  // bit of the word (bit 31) fills the high bits, the other immediate bits
  // are moved straight from where the format puts them.

  /** The words whose top bit is set: every format takes its sign from bit 31. */
  predicate Negative(raw: bv32)
  {
    raw & 0x8000_0000 != 0
  }

  /** Bits 10..0 of the I-type immediate are bits 30..20 of the word. */
  function LowI(raw: bv32): bv32
  {
    (raw >> 20) & 0x7FF
  }

  /** imm[10:5] from bits 30..25 and imm[4:0] from bits 11..7. */
  function LowS(raw: bv32): bv32
  {
    ((raw >> 20) & 0x7E0) | ((raw >> 7) & 0x1F)
  }

  /** imm[11] from bit 7, imm[10:5] from bits 30..25, imm[4:1] from bits 11..8; imm[0] = 0. */
  function LowB(raw: bv32): bv32
  {
    ((raw << 4) & 0x800) | ((raw >> 20) & 0x7E0) | ((raw >> 7) & 0x1E)
  }

  /** imm[19:12] in place, imm[11] from bit 20, imm[10:1] from bits 30..21; imm[0] = 0. */
  function LowJ(raw: bv32): bv32
  {
    (raw & 0xF_F000) | ((raw >> 9) & 0x800) | ((raw >> 20) & 0x7FE)
  }

  lemma ImmINonNegative(raw: bv32)
    requires !Negative(raw)
    ensures ImmI(raw) == LowI(raw)
  {
  }

  lemma ImmINegative(raw: bv32)
    requires Negative(raw)
    ensures ImmI(raw) == 0xFFFF_F800 | LowI(raw)
  {
  }

  lemma ImmSNonNegative(raw: bv32)
    requires !Negative(raw)
    ensures ImmS(raw) == LowS(raw)
  {
  }

  lemma ImmSNegative(raw: bv32)
    requires Negative(raw)
    ensures ImmS(raw) == 0xFFFF_F800 | LowS(raw)
  {
  }

  lemma ImmBNonNegative(raw: bv32)
    requires !Negative(raw)
    ensures ImmB(raw) == LowB(raw)
  {
  }

  lemma ImmBNegative(raw: bv32)
    requires Negative(raw)
    ensures ImmB(raw) == 0xFFFF_F000 | LowB(raw)
  {
  }

  lemma ImmJNonNegative(raw: bv32)
    requires !Negative(raw)
    ensures ImmJ(raw) == LowJ(raw)
  {
  }

  lemma ImmJNegative(raw: bv32)
    requires Negative(raw)
    ensures ImmJ(raw) == 0xFFF0_0000 | LowJ(raw)
  {
  }

  /** I-type: bits 30..20 of the word, with bit 31 copied into bits 31..11. */
  lemma ImmIBits(raw: bv32)
    ensures ImmI(raw) == (if Negative(raw) then 0xFFFF_F800 else 0) | LowI(raw)
  {
    if Negative(raw) {
      ImmINegative(raw);
    } else {
      ImmINonNegative(raw);
    }
  }

  /** S-type: as I-type, but bits 4..0 come from bits 11..7 of the word. */
  lemma ImmSBits(raw: bv32)
    ensures ImmS(raw) == (if Negative(raw) then 0xFFFF_F800 else 0) | LowS(raw)
  {
    if Negative(raw) {
      ImmSNegative(raw);
    } else {
      ImmSNonNegative(raw);
    }
  }

  /** B-type: bit 31 of the word copied into bits 31..12, the rest scattered as LowB. */
  lemma ImmBBits(raw: bv32)
    ensures ImmB(raw) == (if Negative(raw) then 0xFFFF_F000 else 0) | LowB(raw)
  {
    if Negative(raw) {
      ImmBNegative(raw);
    } else {
      ImmBNonNegative(raw);
    }
  }

  /** J-type: bit 31 of the word copied into bits 31..20, the rest scattered as LowJ. */
  lemma ImmJBits(raw: bv32)
    ensures ImmJ(raw) == (if Negative(raw) then 0xFFF0_0000 else 0) | LowJ(raw)
  {
    if Negative(raw) {
      ImmJNegative(raw);
    } else {
      ImmJNonNegative(raw);
    }
  }

  // ---------------------------------------------------------------------
  // Consequences per format

  /** The shift amount of an immediate shift is the rs2 field, below 32. */
  lemma ImmShiftIsRs2(raw: bv32)
    ensures ImmShift(raw) == Rs2(raw)
  {
  }

  lemma ImmIShiftNonNegative(raw: bv32)
    requires !Negative(raw)
    ensures ImmI(raw) == ShiftRightArith(raw, 20)
  {
  }

  lemma ImmIShiftNegative(raw: bv32)
    requires Negative(raw)
    ensures ImmI(raw) == ShiftRightArith(raw, 20)
  {
  }

  /** The I-type immediate is the word shifted arithmetically right by 20. */
  lemma ImmIIsShiftRightArith(raw: bv32)
    ensures ImmI(raw) == ShiftRightArith(raw, 20)
  {
    if Negative(raw) {
      ImmIShiftNegative(raw);
    } else {
      ImmIShiftNonNegative(raw);
    }
  }

  /** I-type and S-type immediates are signed 12-bit values. */
  lemma ImmIRange(raw: bv32)
    ensures -0x800 <= Signed(ImmI(raw)) < 0x800
  {
    ImmIBits(raw);
    SignedRange12(ImmI(raw));
  }

  lemma ImmSRange(raw: bv32)
    ensures -0x800 <= Signed(ImmS(raw)) < 0x800
  {
    ImmSBits(raw);
    SignedRange12(ImmS(raw));
  }

  /** Branch offsets are even signed 13-bit values. */
  lemma ImmBEven(raw: bv32)
    ensures ImmB(raw) & 1 == 0
  {
    ImmBBits(raw);
  }

  lemma ImmBRange(raw: bv32)
    ensures -0x1000 <= Signed(ImmB(raw)) < 0x1000
  {
    ImmBBits(raw);
    SignedRange13(ImmB(raw));
  }

  /** Jump offsets are even signed 21-bit values. */
  lemma ImmJEven(raw: bv32)
    ensures ImmJ(raw) & 1 == 0
  {
    ImmJBits(raw);
  }

  lemma ImmJRange(raw: bv32)
    ensures -0x10_0000 <= Signed(ImmJ(raw)) < 0x10_0000
  {
    ImmJBits(raw);
    SignedRange21(ImmJ(raw));
  }

  /** A U-type immediate keeps bits 31..12 of the word and clears the rest. */
  lemma ImmUBits(raw: bv32)
    ensures ImmU(raw) & 0xFFF == 0
    ensures ImmU(raw) >> 12 == raw >> 12
  {
  }
}

