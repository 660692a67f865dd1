/**
 * `struct cpu` and the code that updates it in place (src/cpu.c and the
 * execution half of src/instr.c). Every method is proved to leave the
 * abstract state `Abs()` equal to the corresponding function of
 * semantics.dfy applied to the state it started from.
 */
module Machine {
  import opened Bits
  import opened Memory
  import opened Decoder
  import opened Semantics

  class Cpu {
    var registers: array<bv32>
    var prevRegisters: array<bv32>
    var pc: bv32
    var reservationSet: bv32
    var reservationAddress: bv32
    var memory: array<bv8>
    var state: RunState

    ghost predicate Valid()
      reads this
    {
      registers.Length == NREGS && prevRegisters.Length == NREGS && registers != prevRegisters
      && memory.Length >= MEM_SIZE
    }

    ghost function Abs(): State
      reads this, registers, prevRegisters, memory
    {
      State(registers[..], prevRegisters[..], pc, state, memory[..], reservationSet, reservationAddress)
    }

    /** `cpu_create`: the memory contents are whatever the allocator returns. */
    constructor (memSize: bv32)
      requires memSize as int >= MEM_SIZE
      ensures Valid() && fresh(registers) && fresh(prevRegisters) && fresh(memory)
      ensures memory.Length == memSize as int
      ensures Abs() == Initial(memory[..])
    {
      pc := 0;
      registers := new bv32[NREGS](_ => 0);
      prevRegisters := new bv32[NREGS](_ => 0);
      memory := new bv8[memSize as int];
      state := Running;
      reservationSet := 0;
      reservationAddress := 0;
    }

    /** `cpu_reset`. */
    method Reset()
      requires Valid()
      modifies this`pc, this`state, this`reservationSet, this`reservationAddress, registers, prevRegisters, memory
      ensures Valid()
      ensures Abs() == Semantics.Reset(old(Abs()))
    {
      pc := 0;
      forall i | 0 <= i < NREGS {
        registers[i] := 0;
      }
      forall i | 0 <= i < NREGS {
        prevRegisters[i] := 0;
      }
      forall i | 0 <= i < MEM_SIZE {
        memory[i] := 0;
      }
      state := Running;
      reservationSet := 0;
      reservationAddress := 0;
    }

    // -------------------------------------------------------------------
    // The handlers of src/instr.c

    /** `r_type_exec`: the value is computed from the two source registers and written to rd. */
    method RTypeExec(ins: Instruction)
      requires Valid()
      modifies registers
      ensures Valid()
      ensures Abs() == RType(old(Abs()), ins)
    {
      var v := RTypeValue(ins.funct3, ins.funct7, registers[ins.rs1], registers[ins.rs2]);
      if v.Some? {
        registers[ins.rd] := v.value;
      }
    }

    /** `i_type_exec`. */
    method ITypeExec(ins: Instruction)
      requires Valid()
      modifies registers
      ensures Valid()
      ensures Abs() == IType(old(Abs()), ins)
    {
      var v := ITypeValue(ins.funct3, ins.funct7, registers[ins.rs1], ins.imm);
      if v.Some? {
        registers[ins.rd] := v.value;
      }
    }

    /** `b_type_exec`. */
    method BTypeExec(ins: Instruction)
      requires Valid()
      modifies this`pc
      ensures Valid()
      ensures Abs() == BType(old(Abs()), ins)
    {
      if BranchTaken(ins.funct3, registers[ins.rs1], registers[ins.rs2]) {
        pc := Redirect(PcRelative(pc, ins.imm));
      }
    }

    /** `u_type_exec`. */
    method UTypeExec(ins: Instruction)
      requires Valid()
      modifies registers
      ensures Valid()
      ensures Abs() == UType(old(Abs()), ins)
    {
      var v := UTypeValue(ins.opcode, pc, ins.imm);
      if v.Some? {
        registers[ins.rd] := v.value;
      }
    }

    /** `j_type_exec`. */
    method JTypeExec(ins: Instruction)
      requires Valid()
      modifies registers, this`pc
      ensures Valid()
      ensures Abs() == JType(old(Abs()), ins)
    {
      if ins.rd != 0 {
        registers[ins.rd] := NextPc(pc);
      }
      pc := Redirect(PcRelative(pc, ins.imm));
    }

    /** `store_exec`: one, two or four bytes of rs2 are written at rs1 + imm. */
    method StoreExec(ins: Instruction)
      requires Valid() && InBounds(registers[..], memory[..], ins, StoreWidth(ins.funct3))
      modifies memory
      ensures Valid()
      ensures Abs() == Store(old(Abs()), ins)
    {
      ghost var s := Abs();
      var addr := EffectiveAddress(registers[ins.rs1], ins.imm);
      var val := registers[ins.rs2];
      ghost var data := StoreData(ins.funct3, val);
      if ins.funct3 == 0x0 {
        Store8(memory, addr as int, Byte0(val));
        assert memory[..] == Write(s.mem, addr as int, data);
      } else if ins.funct3 == 0x1 {
        Store16(memory, addr as int, Low16(val));
        assert memory[..] == Write(s.mem, addr as int, data);
      } else if ins.funct3 == 0x2 {
        Store32(memory, addr as int, val);
        assert memory[..] == Write(s.mem, addr as int, data);
      }
      assert Abs() == s.(mem := memory[..]);
    }

    /** `load_exec`. */
    method LoadExec(ins: Instruction)
      requires Valid() && InBounds(registers[..], memory[..], ins, LoadWidth(ins.funct3))
      modifies registers
      ensures Valid()
      ensures Abs() == Load(old(Abs()), ins)
    {
      ghost var s := Abs();
      var addr := EffectiveAddress(registers[ins.rs1], ins.imm);
      var v := LoadValue(ins.funct3, memory[..], addr as int);
      assert Load(s, ins) == SetReg(s, ins.rd, v);
      if v.Some? {
        registers[ins.rd] := v.value;
      }
      assert Abs() == SetReg(s, ins.rd, v);
    }

    /** `jalr_exec`: the target is taken from rs1 before rd is written. */
    method JalrExec(ins: Instruction)
      requires Valid()
      modifies registers, this`pc
      ensures Valid()
      ensures Abs() == Jalr(old(Abs()), ins)
    {
      var returnAddr := NextPc(pc);
      var targetAddr := JalrTarget(registers[ins.rs1], ins.imm);
      pc := Redirect(targetAddr);
      if ins.rd != 0 {
        registers[ins.rd] := returnAddr;
      }
    }

    /** `system_exec`: ECALL and EBREAK halt; the report stands for the message printed. */
    method SystemExec(ins: Instruction) returns (report: Report)
      requires Valid()
      modifies this`pc, this`state
      ensures Valid()
      ensures Abs() == System(old(Abs()), ins)
      ensures report == (if ins.imm == 0 then EcallHalt else if ins.imm == 1 then EbreakHalt else UnknownSystem(ins.imm))
    {
      if ins.imm == 0 {
        report := EcallHalt;
        state := Halted;
        pc := Redirect(pc);
      } else if ins.imm == 1 {
        report := EbreakHalt;
        state := Halted;
        pc := Redirect(pc);
      } else {
        report := UnknownSystem(ins.imm);
      }
    }

    /** The `switch` of `instr_exec`: the handler for the opcode; FENCE and unknown opcodes do nothing. */
    method DispatchExec(ins: Instruction) returns (report: Report)
      requires Valid() && AccessOk(registers[..], memory[..], ins)
      modifies this`pc, this`state, registers, memory
      ensures Valid()
      ensures Abs() == Dispatch(old(Abs()), ins)
      ensures report == ReportFor(ins)
    {
      report := Silent;
      if ins.opcode == 0x33 {
        RTypeExec(ins);
      } else if ins.opcode == 0x13 {
        ITypeExec(ins);
      } else if ins.opcode == 0x37 || ins.opcode == 0x17 {
        UTypeExec(ins);
      } else if ins.opcode == 0x6F {
        JTypeExec(ins);
      } else if ins.opcode == 0x67 {
        JalrExec(ins);
      } else if ins.opcode == 0x63 {
        BTypeExec(ins);
      } else if ins.opcode == 0x03 {
        LoadExec(ins);
      } else if ins.opcode == 0x23 {
        StoreExec(ins);
      } else if ins.opcode == 0x0F {
        // FENCE: nothing to order in a single flat memory.
      } else if ins.opcode == 0x73 {
        report := SystemExec(ins);
      } else {
        report := UnknownOpcode(ins.opcode);
      }
    }

    /** `instr_exec`: decode, run the handler, then force x0 back to 0. */
    method InstrExec(raw: bv32) returns (report: Report)
      requires Valid() && AccessOk(registers[..], memory[..], Decode(raw))
      modifies this`pc, this`state, registers, memory
      ensures Valid()
      ensures Abs() == Execute(old(Abs()), raw)
      ensures report == ReportFor(Decode(raw))
    {
      var ins := Decode(raw);
      report := DispatchExec(ins);
      registers[0] := 0;
    }

    // -------------------------------------------------------------------
    // cpu_step and cpu_run

    /** The `memcpy` at the start of `cpu_step`: the snapshot becomes a copy of the registers. */
    method SaveRegisters()
      requires Valid()
      modifies prevRegisters
      ensures Valid()
      ensures Abs() == old(Abs()).(prev := old(Abs()).regs)
    {
      forall i | 0 <= i < NREGS {
        prevRegisters[i] := registers[i];
      }
    }

    /** `cpu_step`: it runs whatever the run state is. */
    method Step()
      requires Valid() && CanStep(Abs())
      modifies this`pc, this`state, registers, prevRegisters, memory
      ensures Valid()
      ensures Abs() == Semantics.Step(old(Abs()))
    {
      ghost var s := Abs();
      SaveRegisters();
      var raw := Load32(memory[..], pc as int);
      assert raw == Fetch(s);
      var _ := InstrExec(raw);
      ghost var t := Execute(s.(prev := s.regs), raw);
      assert Abs() == t;
      pc := NextPc(pc);
      assert Abs() == t.(pc := NextPc(t.pc));
    }

    /**
     * `cpu_run`: step while Running. The C loop has no bound; here at most
     * `fuel` iterations run, and `steps` says how many did.
     */
    method Run(fuel: nat) returns (steps: nat)
      requires Valid() && SafeFor(Abs(), fuel)
      modifies this`pc, this`state, registers, prevRegisters, memory
      ensures Valid()
      ensures steps <= fuel && (steps < fuel ==> state == Halted)
      ensures Abs() == RunFor(old(Abs()), fuel)
    {
      ghost var s0 := Abs();
      ghost var rest := fuel;
      steps := 0;
      while state == Running && steps < fuel
        invariant Valid()
        invariant steps + rest == fuel && SafeFor(Abs(), rest)
        invariant RunFor(Abs(), rest) == RunFor(s0, fuel)
      {
        Step();
        steps := steps + 1;
        rest := rest - 1;
      }
    }
  }
}
