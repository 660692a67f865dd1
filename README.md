# RV32I emulator core in Dafny

This project models the core of a small RV32I emulator written in C. The
model covers:

- the instruction-field macros and `sign_extend` of `include/instr.h`;
- the little-endian byte memory of `src/memory.c`;
- the decoder and the instruction handlers of `src/instr.c`;
- the machine life cycle of `src/cpu.c`: `cpu_create`, `cpu_reset`,
  `cpu_step` and `cpu_run`.

It then proves properties of that model.

Words are `bv32`. Bytes are `bv8`. Memory is a sequence of bytes. Because
every sum, difference and shift is computed on 32-bit bit-vectors, the C
code's modulo-2^32 behaviour is the behaviour of the model. A signed C
comparison (`(s32)a < (s32)b`) is modelled by `Bits.Signed`, which reads a
word as a two's-complement integer.

Modules, one per file:

| file | module | what it holds |
|---|---|---|
| bits.dfy | `Bits` | field extraction (`get_bits`, the `OPCODE`…`FUNCT7` macros), `sign_extend`, the arithmetic right shift and the `(s32)(s8)` / `(s32)(s16)` casts |
| memory.dfy | `Memory` | `mem_load8/16/32` as functions on byte sequences; `mem_store8/16/32` as methods on a byte array, specified by the pure `Write` |
| decode.dfy | `Decoder` | `instr_decode`: the decoded `Instruction` record and the immediate of each format |
| encode.dfy | `Encode` | an independent reference encoder per format, which the decoder is checked against: every decode-of-encode round trip is proved |
| semantics.dfy | `Semantics` | the machine `State`; each `*_exec` handler as a function on states; `instr_exec`, `cpu_step`, the `cpu_run` loop, `cpu_create` and `cpu_reset` |
| machine.dfy | `Machine` | `struct cpu` as a class `Cpu` with array fields; each handler, `cpu_step`, `cpu_run` and `cpu_reset` as a method, proved to refine the corresponding function in `Semantics` |
| instructions.dfy | `Instructions` | what each class of instruction changes and leaves alone |
| alu.dfy | `Alu` | which ALU encodings write a register, and the arithmetic of shifts, comparisons and immediates |
| steps.dfy | `Steps` | one step against the ISA's notion of the next pc (`IsaNextPc`), halting, the register snapshot, programs, and `cpu_reset` |

Two points about the code as it stands:

- The repository's tests expect MUL and DIV to work: test/test.cpp:408-432
  expects `mul x3, x1, x2` to give 50 and `div x3, x1, x2` to give 10.
  `r_type_exec` has no case for funct7 `0x01`. The model follows the code:
  - under funct3 0 and 5 such an instruction writes nothing;
  - under every other funct3 it computes the base instruction that shares
    its funct3 (DIV computes XOR).

  `Alu.MulDivEncodings` states this on the encodings of those tests.
- An ECALL or EBREAK leaves the pc on the instruction. The comment at
  src/instr.c:314-315 says how: `system_exec` subtracts 4, and `cpu_step`
  then adds 4 back. `Steps.StepPcSystem` proves the net effect.

Memory accesses that fall outside the allocated buffer are out of scope.
The C code does not check them: each such access is undefined behaviour
there. The model turns them into preconditions. Loads with funct3 3, 6
or 7 and stores with funct3 3 to 7 fall through the handler's `switch`
and touch no memory, so they are allowed whatever address they compute
(`Instructions.ZeroWidthAccess`). The preconditions are:

- `InBounds` and `AccessOk` for a single instruction;
- `CanStep` for a step, which also covers the fetch;
- `SafeFor` for a run.

## Model

| member | source | states |
|---|---|---|
| Bits.Opcode | include/instr.h:8 | the opcode field lies below 0x80 |
| Bits.Rd | include/instr.h:9 | the rd field names one of 32 registers |
| Bits.Funct3 | include/instr.h:10 | funct3 lies below 8 |
| Bits.Rs1 | include/instr.h:11 | the rs1 field names one of 32 registers |
| Bits.Rs2 | include/instr.h:12 | the rs2 field names one of 32 registers |
| Bits.Funct7 | include/instr.h:13 | funct7 lies below 0x80 |
| Bits.FieldsReassemble | include/instr.h:8-13 | the six fields tile the word: shifting them back into place and or-ing them rebuilds it |
| Bits.GetBits | src/instr.c:8-11 | the extracted field fits in hi-lo+1 bits; the precondition excludes only a full 32-bit field, whose mask shift is undefined in C |
| Bits.SignExtend | include/instr.h:16-20 | `sign_extend`: `(val ^ m) - m` with m the top bit of the field, on 32-bit words; its meaning at widths 12, 13 and 21 is the next three rows |
| Bits.SignExtend12 | include/instr.h:16-20 | for a 12-bit value, `sign_extend(v, 12)` is v when bit 11 is clear and v − 2^12 otherwise, i.e. v with bits 12..31 set; as a signed word it lies in [−2^11, 2^11) |
| Bits.SignExtend13 | include/instr.h:16-20 | the same at width 13 (branch offsets), with range [−2^12, 2^12) |
| Bits.SignExtend21 | include/instr.h:16-20 | the same at width 21 (jump offsets), with range [−2^20, 2^20) |
| Bits.SignExtendExtremes | include/instr.h:16-20 | at every width below 32, zero extends to 0 and the all-ones field extends to all ones (−1) |
| Bits.ShiftRightArith | src/instr.c:132 | `(s32)x >> sh` for SRA and SRAI: the logical shift, with the vacated high bits filled with ones when bit 31 is set; the next three rows prove what it does to each bit |
| Bits.ShiftRightArithLowBits | src/instr.c:124-134 | in the bit positions a logical shift keeps, SRA agrees with SRL |
| Bits.ShiftRightArithHighBitsClear | src/instr.c:124-134 | SRA of a non-negative word leaves the vacated high bits clear |
| Bits.ShiftRightArithHighBitsSet | src/instr.c:124-134 | SRA of a negative word fills the vacated high bits with ones |
| Bits.SignBit | src/instr.c:132 | the sign test on bit 31 is the test `x & 0x80000000 != 0` that the shift uses |
| Bits.SignExtendByte | src/instr.c:273-275 | the `(s32)(s8)` cast of LB: the byte with bit 7 copied into bits 8..31 |
| Bits.SignExtendHalf | src/instr.c:276-278 | the `(s32)(s16)` cast of LH: the half-word with bit 15 copied into bits 16..31 |
| Bits.SignExtendByteIsSignExtend | src/instr.c:273-275 | the LB cast `(s32)(s8)` is `sign_extend` at width 8 |
| Bits.SignExtendHalfIsSignExtend | src/instr.c:276-278 | the LH cast `(s32)(s16)` is `sign_extend` at width 16 |
| Memory.Load8 | src/memory.c:20-23 | `mem_load8`: the byte at addr |
| Memory.Load16 | src/memory.c:25-28 | `mem_load16`: the bytes at addr and addr+1 as a little-endian half-word (next rows) |
| Memory.Load32 | src/memory.c:30-34 | `mem_load32`: the bytes at addr..addr+3 as a little-endian word (next rows) |
| Memory.Load16Bytes | src/memory.c:25-28 | a half-word load takes its low byte from addr and its high byte from addr+1 |
| Memory.Load32Bytes | src/memory.c:30-34 | a word load takes bytes addr..addr+3, least significant first |
| Memory.LoadComposition | src/memory.c:20-34 | load16 is two load8s, and load32 is two load16s, low half first |
| Memory.Write | src/memory.c:36-53 | writing a run of bytes keeps the length, puts each byte at its offset from addr, and changes no other byte |
| Memory.Store8 | src/memory.c:36-39 | the array afterwards is `Write` of its old contents with the single byte |
| Memory.Store16 | src/memory.c:41-45 | the array afterwards is `Write` of its old contents with the two little-endian bytes of the value |
| Memory.Store32 | src/memory.c:47-53 | the array afterwards is `Write` of its old contents with the four little-endian bytes of the value |
| Memory.Store8Load8 | src/memory.c:20-39 | a byte load at the address of a byte store returns the stored byte |
| Memory.Store16Load16 | src/memory.c:25-45 | a half-word load after a half-word store at the same address returns the stored value |
| Memory.Store32Load32 | src/memory.c:30-53 | a word load after a word store at the same address returns the stored value |
| Memory.StoreDeadBeef | src/memory.c:47-53 | storing 0xDEADBEEF lays down the bytes EF BE AD DE |
| Decoder.ImmI | src/instr.c:36 | the I immediate: `sign_extend` of bits 31..20 at width 12 (its bits: `Decoder.ImmIBits`) |
| Decoder.ImmShift | src/instr.c:32 | the shift-immediate: bits 24..20, not sign-extended |
| Decoder.ImmS | src/instr.c:45-50 | the S immediate: bits 31..25 and 11..7 joined and sign-extended at width 12 |
| Decoder.ImmB | src/instr.c:52-61 | the B offset: bits 31, 7, 30..25 and 11..8 placed at 12, 11, 10..5 and 4..1, sign-extended at width 13 |
| Decoder.ImmU | src/instr.c:63-67 | the U immediate: the word with its low 12 bits cleared |
| Decoder.ImmJ | src/instr.c:69-78 | the J offset: bits 31, 19..12, 20 and 30..21 placed at 20, 19..12, 11 and 10..1, sign-extended at width 21 |
| Decoder.Immediate | src/instr.c:23-88 | the opcode switch of `instr_decode`: OP-IMM takes the shift form under funct3 1 and 5 and ImmI otherwise; loads, JALR and SYSTEM ImmI; stores ImmS; branches ImmB; LUI/AUIPC ImmU; JAL ImmJ; R-type and every other opcode 0 |
| Decoder.Decode | src/instr.c:14-89 | opcode, rd, funct3, rs1, rs2 and funct7 are the macro fields of the raw word for every opcode; the immediate is chosen by opcode (and by funct3 for the shift-immediates) |
| Decoder.ImmIBits | src/instr.c:34-43 | the I immediate is bits 30..20 of the word with bit 31 copied into bits 11..31 |
| Decoder.ImmShiftIsRs2 | src/instr.c:31-33 | the shift immediate is the 5-bit rs2 field, not sign-extended |
| Decoder.ImmIIsShiftRightArith | src/instr.c:36 | the I immediate is the word shifted right arithmetically by 20 |
| Decoder.ImmIRange | src/instr.c:36 | the I immediate lies in [−2048, 2048) as a signed word |
| Decoder.ImmSBits | src/instr.c:45-50 | the S immediate is bits 30..25 and 11..7, with bit 31 copied into bits 11..31 |
| Decoder.ImmSRange | src/instr.c:45-50 | the S immediate lies in [−2048, 2048) |
| Decoder.ImmBBits | src/instr.c:52-61 | the B offset gathers bits 7, 30..25 and 11..8 into offset bits 11, 10..5 and 4..1, with bit 31 copied into bits 12..31 |
| Decoder.ImmBEven | src/instr.c:52-61 | the B offset is even |
| Decoder.ImmBRange | src/instr.c:52-61 | the B offset lies in [−4096, 4096) |
| Decoder.ImmUBits | src/instr.c:63-67 | the U immediate has its low 12 bits clear and its upper 20 bits from the word |
| Decoder.ImmJBits | src/instr.c:69-78 | the J offset gathers bits 19..12, 20 and 30..21 into offset bits 19..12, 11 and 10..1, with bit 31 copied into bits 20..31 |
| Decoder.ImmJEven | src/instr.c:69-78 | the J offset is even |
| Decoder.ImmJRange | src/instr.c:69-78 | the J offset lies in [−2^20, 2^20) |
| Encode.DecodeEncodeR | src/instr.c:84-88 | decoding an R-type word built from any register fields, funct3 and funct7 gives those fields back with immediate 0 |
| Encode.DecodeEncodeI | src/instr.c:34-43 | for loads, JALR, SYSTEM and the non-shift OP-IMM, decoding an I-type word gives back the fields and any 12-bit signed immediate |
| Encode.DecodeEncodeShift | src/instr.c:31-33 | for SLLI/SRLI/SRAI, decoding gives back the shift amount (below 32) as the immediate and funct7 unchanged |
| Encode.DecodeEncodeS | src/instr.c:45-50 | decoding an S-type word gives back the registers, funct3 and any 12-bit signed offset |
| Encode.DecodeEncodeB | src/instr.c:52-61 | decoding a B-type word gives back the registers, funct3 and any even 13-bit signed offset |
| Encode.DecodeEncodeU | src/instr.c:63-67 | decoding a LUI/AUIPC word gives back rd and any immediate whose low 12 bits are clear |
| Encode.DecodeEncodeJ | src/instr.c:69-78 | decoding a JAL word gives back rd and any even 21-bit signed offset |
| Semantics.RTypeValue | src/instr.c:93-144 | the value `r_type_exec` writes, or none: ADD/SUB by funct7 under funct3 0, SLL, SLT on the signed reading, SLTU, XOR, SRL/SRA by funct7 under funct3 5, OR, AND; shifts by the low five bits of rs2 (which encodings write: `Alu.RTypeWrites`) |
| Semantics.ITypeValue | src/instr.c:146-190 | the value `i_type_exec` writes, or none: the same operations with the immediate as second operand, funct7 looked at only for SRLI/SRAI (`Alu.ITypeWrites`) |
| Semantics.BranchTaken | src/instr.c:192-223 | the branch conditions: BEQ, BNE, BLT/BGE on the signed reading, BLTU/BGEU unsigned, funct3 2 and 3 never (`Instructions.BranchConditionsComplement`) |
| Semantics.UTypeValue | src/instr.c:225-235 | LUI writes the immediate, AUIPC pc + immediate |
| Semantics.LoadValue | src/instr.c:267-289 | the value `load_exec` writes; it writes nothing exactly when funct3 is 3, 6 or 7, the funct3 values its switch does not handle |
| Semantics.RType | src/instr.c:93-144 | `r_type_exec` changes no register but rd, and keeps the pc, memory, run state, snapshot and reservation words |
| Semantics.IType | src/instr.c:146-190 | `i_type_exec` changes no register but rd and nothing else |
| Semantics.BType | src/instr.c:192-223 | `b_type_exec` changes no register (only the pc) |
| Semantics.UType | src/instr.c:225-235 | `u_type_exec` changes no register but rd and nothing else |
| Semantics.JType | src/instr.c:237-245 | `j_type_exec` changes no register but rd (only the pc besides) |
| Semantics.Jalr | src/instr.c:291-306 | `jalr_exec` changes no register but rd (only the pc besides) |
| Semantics.Load | src/instr.c:267-289 | `load_exec` changes no register but rd and nothing else; funct3 3, 6 and 7 read nothing and are defined at any address |
| Semantics.LoadFrom | src/instr.c:270-288 | a load that reads, with its bytes inside memory, changes no register but rd and nothing else |
| Semantics.Store | src/instr.c:247-265 | `store_exec` changes no register (only memory); funct3 3 to 7 write nothing and are defined at any address |
| Semantics.StoreTo | src/instr.c:255-263 | a store that writes, with its bytes inside memory, changes no register, not the pc and not the run state |
| Semantics.System | src/instr.c:308-327 | `system_exec` changes no register (only the pc and run state) |
| Semantics.Dispatch | src/instr.c:336-373 | whatever the opcode, the handler leaves every register but rd as it was and keeps the snapshot, the reservation words and the memory size |
| Semantics.StoreData | src/instr.c:255-264 | SB stores one byte, SH two, SW four, and funct3 3..7 store none |
| Semantics.Execute | src/instr.c:330-377 | `instr_exec`: `Dispatch` of the decoded word, then x0 set to 0 (`Instructions.ExecuteZeroesX0`) |
| Semantics.Fetch | src/cpu.c:59 | the fetch: the little-endian word at pc |
| Semantics.Step | src/cpu.c:53-66 | `cpu_step`: snapshot, fetch, execute, pc + 4, whatever the run state (`Steps.StepPc` and the rows after it) |
| Semantics.RunFor | src/cpu.c:68-73 | `cpu_run` bounded by `n`: step while Running, at most n times |
| Semantics.Initial | src/cpu.c:9-28 | `cpu_create`: pc, registers, snapshot and reservation words zero, Running, over the given memory |
| Semantics.Reset | src/cpu.c:38-51 | `cpu_reset`: the initial state over memory whose first MEM_SIZE bytes are cleared (`Steps.ResetState`) |
| Semantics.RunForHalted | src/cpu.c:68-73 | the run loop leaves a halted machine alone: any number of further iterations returns it unchanged |
| Machine.Cpu.constructor | src/cpu.c:9-28 | `cpu_create` zeroes the pc, the registers, the snapshot and the reservation words, sets Running, and allocates `mem_size` bytes of memory |
| Machine.Cpu.Reset | src/cpu.c:38-51 | `cpu_reset` yields `Semantics.Reset` of the old state: every field back to its initial value and the first MEM_SIZE memory bytes cleared |
| Machine.Cpu.RTypeExec | src/instr.c:93-144 | the in-place handler leaves the machine in state `RType` of the state before |
| Machine.Cpu.ITypeExec | src/instr.c:146-190 | the in-place handler leaves the machine in state `IType` of the state before |
| Machine.Cpu.BTypeExec | src/instr.c:192-223 | the in-place handler leaves the machine in state `BType` of the state before |
| Machine.Cpu.UTypeExec | src/instr.c:225-235 | the in-place handler leaves the machine in state `UType` of the state before |
| Machine.Cpu.JTypeExec | src/instr.c:237-245 | the in-place handler leaves the machine in state `JType` of the state before |
| Machine.Cpu.StoreExec | src/instr.c:247-265 | the in-place handler, which calls the store methods, leaves the machine in state `Store` of the state before; funct3 3 to 7 are accepted at any address and store nothing |
| Machine.Cpu.LoadExec | src/instr.c:267-289 | the in-place handler leaves the machine in state `Load` of the state before; funct3 3, 6 and 7 are accepted at any address and load nothing |
| Machine.Cpu.JalrExec | src/instr.c:291-306 | the in-place handler leaves the machine in state `Jalr` of the state before; the target is read before rd is written |
| Machine.Cpu.SystemExec | src/instr.c:308-327 | the in-place handler yields `System` of the state before and reports ECALL, EBREAK or an unknown immediate |
| Machine.Cpu.DispatchExec | src/instr.c:336-373 | the opcode switch yields `Dispatch` of the state before and reports an unknown opcode |
| Machine.Cpu.InstrExec | src/instr.c:330-377 | decode, dispatch and the x0 reset yield `Execute` of the state before |
| Machine.Cpu.SaveRegisters | src/cpu.c:56 | the snapshot becomes a copy of the registers and nothing else changes |
| Machine.Cpu.Step | src/cpu.c:53-66 | snapshot, fetch, execute and pc += 4 yield `Semantics.Step` of the state before |
| Machine.Cpu.Run | src/cpu.c:68-73 | the loop runs at most `fuel` steps and stops early only on Halted; the final state is `RunFor` of the initial state |
| Instructions.NextPcRedirect | src/cpu.c:65 | the step's pc += 4 undoes exactly the handlers' `target - 4` |
| Instructions.DispatchWritesOnlyRd | src/instr.c:336-373 | every register other than rd keeps its value through any instruction |
| Instructions.DispatchMemoryOnlyByStores | src/instr.c:336-373 | every opcode other than STORE leaves memory unchanged |
| Instructions.DispatchPcOnlyByControl | src/instr.c:336-373 | every opcode other than branches, JAL, JALR and SYSTEM leaves the pc where it is (before the step's +4) |
| Instructions.DispatchRunState | src/instr.c:308-327 | the run state becomes Halted exactly for SYSTEM with immediate 0 or 1 and is unchanged otherwise, so nothing resumes a halted machine |
| Instructions.DispatchNoEffect | src/instr.c:363-373 | FENCE, unknown opcodes (the atomics among them) and SYSTEM with any other immediate change nothing at all |
| Instructions.ExecuteZeroesX0 | src/instr.c:375-376 | after any instruction x0 reads 0, even when the handler wrote it |
| Instructions.BranchEffect | src/instr.c:192-223 | a branch changes no register, no memory and not the run state; taken, it leaves pc + imm − 4, otherwise the pc |
| Instructions.BranchFunct3TwoThreeNeverTaken | src/instr.c:198-217 | funct3 2 and 3 are no branch condition and are never taken |
| Instructions.BranchConditionsComplement | src/instr.c:199-216 | BNE is the negation of BEQ, BGE of BLT and BGEU of BLTU |
| Instructions.JalEffect | src/instr.c:237-245 | JAL keeps memory and the run state, leaves the pc at pc + imm − 4, and links pc + 4 into rd unless rd is x0 |
| Instructions.JalrEffect | src/instr.c:291-306 | JALR keeps memory and the run state; after the step's +4 the pc is (rs1 + imm) with bit 0 cleared, rs1 read before rd is written; pc + 4 is linked into rd unless rd is x0 |
| Instructions.JalrTargetBits | src/instr.c:297 | the JALR target clears bit 0 and keeps every other bit of rs1 + imm |
| Instructions.UpperImmediateEffect | src/instr.c:225-235 | LUI writes the immediate and AUIPC pc + immediate to rd; the pc, memory and run state stay |
| Instructions.SystemHalts | src/instr.c:310-322 | ECALL and EBREAK halt, keep registers and memory, and pull the pc back by 4 |
| Instructions.LoadEffect | src/instr.c:267-289 | LB and LH sign-extend the byte or half-word at rs1 + imm, LBU and LHU zero-extend it, LW takes the word; the other funct3 values change nothing |
| Instructions.StoreKeepsRegisters | src/instr.c:247-265 | a store changes no register, not the pc, not the run state and not the memory size |
| Instructions.ZeroWidthAccess | src/instr.c:255-288 | loads with funct3 3, 6, 7 and stores with funct3 3 to 7 are executable whatever rs1 holds, and change nothing |
| Instructions.StoreFrame | src/instr.c:247-265 | a store changes no byte outside [rs1 + imm, rs1 + imm + width), and none at all for funct3 3..7 |
| Instructions.StoreWrites | src/instr.c:247-265 | the memory after SB, SH or SW is `Write` of the `StoreData` bytes at rs1 + imm: those bytes in place, every other byte unchanged; funct3 3 to 7 change nothing |
| Instructions.StoreDataBytes | src/instr.c:255-264 | the stored bytes are those of rs2 in little-endian order: one for SB, two for SH, four for SW |
| Alu.RTypeWrites | src/instr.c:93-144 | a register-register instruction writes rd exactly when funct3 is not 0 or 5, or funct7 is 0x00 or 0x20 |
| Alu.ITypeWrites | src/instr.c:146-190 | an immediate instruction writes rd exactly when funct3 is not 5, or funct7 is 0x00 or 0x20 |
| Alu.RTypeIgnoresFunct7 | src/instr.c:108-142 | outside funct3 0 and 5 the value does not depend on funct7 |
| Alu.MulDivEncodings | src/instr.c:98-128 | MUL x3, x1, x2 decodes with funct7 0x01 and writes nothing; DIV decodes to funct3 4 and computes XOR (100 ^ 10 = 110) |
| Alu.ITypeIsRTypeWithImmediate | src/instr.c:146-190 | each immediate form computes its register form with the immediate as second operand; funct3 0 is always ADD (no SUBI) |
| Alu.WrapExamples | src/instr.c:99-106 | ADD, SUB and ADDI wrap modulo 2^32 without trapping |
| Alu.ShiftAmountLowFiveBits | src/instr.c:108-176 | only the low five bits of rs2 or of the immediate count as the shift amount |
| Alu.ShiftExamples | src/instr.c:124-134 | the SLLI, SRLI, SRAI, SRL and SRA results of the repository's tests, the logical shifts filling with zeros and SRA with the sign |
| Alu.SraiDecodes | src/instr.c:28-33 | SRAI x4, x1, 4 decodes with funct7 0x20 and shift amount 4 |
| Alu.CompareExamples | src/instr.c:112-120 | SLT compares as signed and SLTU as unsigned: 0x0800000F < 0x8000000F only unsigned, −1 < 1 only signed |
| Alu.ImmediateIdioms | src/instr.c:152-188 | SLTIU with 1 tests for zero, SLTIU with −1 holds for every word but 0xFFFFFFFF, XORI with −1 is NOT, ADDI with 0 is a move |
| Steps.StepPc | src/cpu.c:53-66 | after a step the pc is the ISA's next pc (`IsaNextPc`): the target of a taken branch, JAL and JALR; the instruction itself for ECALL/EBREAK; pc + 4 otherwise |
| Steps.StepPcSequential | src/cpu.c:65 | a non-control instruction advances the pc by 4 |
| Steps.StepPcBranch | src/instr.c:192-223 | a branch step lands on pc + imm when taken and pc + 4 otherwise |
| Steps.StepPcJal | src/instr.c:237-245 | a JAL step lands on pc + imm |
| Steps.StepPcJalr | src/instr.c:291-306 | a JALR step lands on (rs1 + imm) with bit 0 cleared |
| Steps.StepPcSystem | src/instr.c:308-327 | an ECALL or EBREAK step leaves the pc on the instruction; other SYSTEM immediates advance it by 4 |
| Steps.StepRunState | src/cpu.c:53-66 | a step halts exactly on ECALL/EBREAK and otherwise keeps the run state |
| Steps.StepSnapshot | src/cpu.c:56 | after a step the snapshot holds the registers from before it, and x0 is 0 |
| Steps.StepWritesOnlyRd | src/cpu.c:53-66 | a step changes no register except rd (and x0, which it zeroes) |
| Steps.Program | test/test.cpp:22-27 | `load_program`: the words stored little-endian from address 0, four bytes each |
| Steps.JalExample | test/test.cpp:145-168 | on the test's three words, JAL x1, 8 links 4 into x1 and jumps to 8, and the next step runs the ADDI there: x2 = 5, still Running |
| Steps.NoWidthLoadExample | src/instr.c:267-289 | a load with funct3 3 whose address lies far outside memory steps: only the pc and the snapshot change |
| Steps.EcallExample | src/instr.c:311-317 | ECALL at address 0 halts with the pc left at 0 |
| Steps.AddProgram | test/test.cpp:50-61 | ADDI, ADDI, ADD run for three steps leave x3 = 15 and the pc at 12 |
| Steps.ResetState | src/cpu.c:38-51 | after reset every register and snapshot entry, the pc and the reservation words are 0; the machine is Running; the first MEM_SIZE bytes are 0 and later bytes are kept |
| Steps.ResetIdempotent | src/cpu.c:38-51 | resetting twice is the same as resetting once |

## Left out

- The terminal UI, the command-line driver and the disassembler are not part of this model.
- `output_buffer` and `output_buffer_pos` are not modelled. No instruction of the core reads or writes them; create and reset only clear them.
- The `printf` messages of `system_exec` and of the unknown-opcode case are left out. `Report` stands for which message is printed, not its text.
- `cpu_create` does not model the failure and `exit(1)` on a failed `malloc`.
- `memory_create` is not part of this model. The constructor leaves the memory contents unconstrained.
- `cpu_destroy` is left out: Dafny has no explicit deallocation.
- The `NULL` check in `cpu_reset` is not modelled, because a Dafny object reference is never null here.
- Machine.Cpu.constructor: requires `mem_size >= MEM_SIZE`. `cpu_reset` clears MEM_SIZE bytes unconditionally, so a smaller buffer would be overrun.
- Semantics.Reset: requires at least MEM_SIZE bytes of memory, for the same reason.
- Out-of-range memory accesses are undefined behaviour in the C code and are excluded by preconditions (`InBounds`, `AccessOk`, `CanStep`, `SafeFor`). Accesses of width 0 (load funct3 3, 6, 7; store funct3 3 to 7) are not excluded. Misaligned accesses within bounds are modelled. The 32-bit wrap of `addr + 1` inside `mem_load16`/`mem_load32` only matters past the end of memory, so it is not modelled.
- Machine.Cpu.Run: the C loop is unbounded. The method runs at most `fuel` steps, and reports how many ran so that a caller can tell whether it halted.
- The atomics opcode (0x2F) and the reservation words are only carried through. The core has no handler for them: they are zeroed at create and reset, and unknown opcodes change nothing.
- The M extension is absent from the code. The model follows the code, so the multiply and divide expectations of the repository's tests do not hold of it (`Alu.MulDivEncodings`).
- Alu.CompareExamples: the signed and unsigned comparisons are shown on concrete operands only. The model defines SLT and BLT through the integer reading `Signed`, but no all-inputs lemma relates that order to a bit-level formula.
- Alu.WrapExamples: wrap-around of ADD and SUB is shown on concrete operands only. For all inputs it follows from the 32-bit types themselves.
- Multi-step composition of `RunFor` is not proved beyond single steps, the halted fixpoint (`Semantics.RunForHalted`) and the concrete three-step program.
