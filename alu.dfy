/**
 * The arithmetic of `r_type_exec` and `i_type_exec` (src/instr.c:93-190):
 * which funct combinations write a register, how shift amounts are taken,
 * signed against unsigned comparison, and how the immediate forms relate
 * to the register forms. All of it is about `RTypeValue` and `ITypeValue`
 * of semantics.dfy, the values the handlers write to rd.
 */
module Alu {
  import opened Bits
  import opened Decoder
  import opened Semantics

  // ---------------------------------------------------------------------
  // Which encodings write

  /**
   * A register-register instruction writes rd exactly when funct3 is 0 or 5
   * with funct7 0x00 or 0x20, or funct3 is any other value: funct7 0x01
   * (the multiply/divide encodings) under funct3 0 or 5 writes nothing.
   */
  lemma RTypeWrites(funct3: bv32, funct7: bv32, a: bv32, b: bv32)
    requires funct3 < 8
    ensures RTypeValue(funct3, funct7, a, b).Some?
      <==> (funct3 != 0 && funct3 != 5) || funct7 == 0x00 || funct7 == 0x20
  {
    if funct3 == 0 {
    } else if funct3 == 5 {
    } else {
    }
  }

  /** Of the immediate forms only SRLI/SRAI look at funct7, and only 0x00 and 0x20 write. */
  lemma ITypeWrites(funct3: bv32, funct7: bv32, a: bv32, imm: bv32)
    requires funct3 < 8
    ensures ITypeValue(funct3, funct7, a, imm).Some? <==> funct3 != 5 || funct7 == 0x00 || funct7 == 0x20
  {
  }

  /**
   * Outside funct3 0 and 5 the register form ignores funct7: the DIV
   * encoding (funct3 4, funct7 0x01) computes XOR, the MULH encodings
   * compute SLL, SLT and SLTU, and so on.
   */
  lemma RTypeIgnoresFunct7(funct3: bv32, funct7: bv32, a: bv32, b: bv32)
    requires funct3 != 0 && funct3 != 5
    ensures RTypeValue(funct3, funct7, a, b) == RTypeValue(funct3, 0x00, a, b)
  {
  }

  /** MUL x3, x1, x2 with 5 and 10 writes nothing; DIV with 100 and 10 writes 100 ^ 10 = 110. */
  lemma MulDivEncodings()
    ensures Decode(0x0220_81B3).funct3 == 0 && Decode(0x0220_81B3).funct7 == 0x01
    ensures RTypeValue(0, 0x01, 5, 10) == None
    ensures Decode(0x0220_C1B3).funct3 == 4 && Decode(0x0220_C1B3).funct7 == 0x01
    ensures RTypeValue(4, 0x01, 100, 10) == Some(110)
  {
  }

  /**
   * The immediate forms compute what the register forms compute with the
   * immediate as second operand; funct3 0 is ADD whatever funct7 says,
   * since there is no SUBI.
   */
  lemma ITypeIsRTypeWithImmediate(funct3: bv32, funct7: bv32, a: bv32, imm: bv32)
    ensures funct3 != 0 ==> ITypeValue(funct3, funct7, a, imm) == RTypeValue(funct3, funct7, a, imm)
    ensures ITypeValue(0, funct7, a, imm) == RTypeValue(0, 0x00, a, imm)
  {
  }

  // ---------------------------------------------------------------------
  // Addition and subtraction

  /**
   * ADD, SUB and ADDI wrap modulo 2^32: 0xFFFFFFFF + 1 is 0, 5 - 10 is
   * 0xFFFFFFFB, and 0x7FFFFFFF + 1 overflows into the sign bit without
   * any trap.
   */
  lemma WrapExamples()
    ensures RTypeValue(0, 0x00, 0xFFFF_FFFF, 1) == Some(0)
    ensures RTypeValue(0, 0x20, 5, 10) == Some(0xFFFF_FFFB)
    ensures ITypeValue(0, 0x00, 0x7FFF_FFFF, 1) == Some(0x8000_0000)
    ensures ITypeValue(0, 0x00, 5, 0xFFFF_FFFF) == Some(4)
  {
  }

  // ---------------------------------------------------------------------
  // Shifts

  /** Only the low five bits of rs2, or of the immediate, count as shift amount. */
  lemma ShiftAmountLowFiveBits(funct3: bv32, funct7: bv32, a: bv32, b: bv32)
    requires funct3 == 1 || funct3 == 5
    ensures RTypeValue(funct3, funct7, a, b) == RTypeValue(funct3, funct7, a, b & 0x1F)
    ensures ITypeValue(funct3, funct7, a, b) == ITypeValue(funct3, funct7, a, b & 0x1F)
  {
  }

  /** The shift results of test.cpp: SLLI, SRLI, SRAI of 0x0800000F by 4, and SRL, SRA of 0x8000000F by 4. */
  lemma ShiftExamples()
    ensures ITypeValue(1, 0x00, 0x0800_000F, 4) == Some(0x8000_00F0)
    ensures ITypeValue(5, 0x00, 0x0800_000F, 4) == Some(0x0080_0000)
    ensures ITypeValue(5, 0x20, 0x0800_000F, 4) == Some(0x0080_0000)
    ensures RTypeValue(5, 0x00, 0x8000_000F, 4) == Some(0x0800_0000)
    ensures RTypeValue(5, 0x20, 0x8000_000F, 4) == Some(0xF800_0000)
  {
  }

  /** SRAI x4, x1, 4 decodes with funct7 0x20 and shift amount 4 in the immediate. */
  lemma SraiDecodes()
    ensures var ins := Decode(0x4040_D213);
      ins.opcode == 0x13 && ins.funct3 == 5 && ins.funct7 == 0x20 && ins.imm == 4 && ins.rd == 4 && ins.rs1 == 1
  {
  }

  // ---------------------------------------------------------------------
  // Comparisons

  /**
   * SLT reads both operands as signed, SLTU as unsigned: 0x0800000F is not
   * below 0x8000000F as signed values but is as unsigned ones, and -1 is
   * below 1 only as a signed value.
   */
  lemma CompareExamples()
    ensures RTypeValue(2, 0x00, 0x0800_000F, 0x8000_000F) == Some(0)
    ensures RTypeValue(3, 0x00, 0x0800_000F, 0x8000_000F) == Some(1)
    ensures RTypeValue(2, 0x00, 0xFFFF_FFFF, 1) == Some(1)
    ensures RTypeValue(3, 0x00, 0xFFFF_FFFF, 1) == Some(0)
    ensures ITypeValue(2, 0x00, 0xFFFF_FFFF, 0) == Some(1)
  {
  }

  /**
   * SLTIU compares against the sign-extended immediate as an unsigned
   * word: with 1 it tests for zero (SEQZ), with -1 it holds for every
   * word but 0xFFFFFFFF. XORI with -1 is bitwise NOT, ADDI with 0 a move.
   */
  lemma ImmediateIdioms(funct7: bv32, a: bv32)
    ensures ITypeValue(3, funct7, a, 1) == Some(Flag(a == 0))
    ensures ITypeValue(3, funct7, a, 0xFFFF_FFFF) == Some(Flag(a != 0xFFFF_FFFF))
    ensures ITypeValue(4, funct7, a, 0xFFFF_FFFF) == Some(!a)
    ensures ITypeValue(0, funct7, a, 0) == Some(a)
  {
  }
}
