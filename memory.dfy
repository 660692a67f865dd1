/**
 * The flat little-endian byte memory of the core (src/memory.c).
 *
 * Loads are pure functions of the byte contents, read here as a
 * `seq<bv8>`; stores are methods that overwrite bytes of an `array<bv8>`
 * in place. The C accessors check no bounds and no alignment: an address
 * past the end is undefined behaviour there, and a precondition here.
 */
module Memory {

  /** Bytes cleared by `cpu_reset` (include/cpu.h MEM_SIZE). */
  const MEM_SIZE: nat := 65536

  // ---------------------------------------------------------------------
  // Loads

  function Load8(mem: seq<bv8>, addr: nat): bv8
    requires addr < |mem|
  {
    mem[addr]
  }

  /** Two bytes, the lower address holding the low-order byte. */
  function Load16(mem: seq<bv8>, addr: nat): bv16
    requires addr + 2 <= |mem|
  {
    (mem[addr] as bv16) | ((mem[addr + 1] as bv16) << 8)
  }

  /** Four bytes, the lower address holding the low-order byte. */
  function Load32(mem: seq<bv8>, addr: nat): bv32
    requires addr + 4 <= |mem|
  {
    (mem[addr] as bv32) | ((mem[addr + 1] as bv32) << 8)
      | ((mem[addr + 2] as bv32) << 16) | ((mem[addr + 3] as bv32) << 24)
  }

  /** Each byte of a loaded half-word is the byte at its offset: the lowest address is the low-order byte. */
  lemma Load16Bytes(mem: seq<bv8>, addr: nat)
    requires addr + 2 <= |mem|
    ensures (Load16(mem, addr) & 0xFF) as bv8 == mem[addr]
    ensures (Load16(mem, addr) >> 8) as bv8 == mem[addr + 1]
  {
  }

  /** Each byte of a loaded word is the byte at its offset: the lowest address is the low-order byte. */
  lemma Load32Bytes(mem: seq<bv8>, addr: nat)
    requires addr + 4 <= |mem|
    ensures (Load32(mem, addr) & 0xFF) as bv8 == mem[addr]
    ensures ((Load32(mem, addr) >> 8) & 0xFF) as bv8 == mem[addr + 1]
    ensures ((Load32(mem, addr) >> 16) & 0xFF) as bv8 == mem[addr + 2]
    ensures (Load32(mem, addr) >> 24) as bv8 == mem[addr + 3]
  {
  }

  /** A half-word load is two byte loads, a word load two half-word loads. */
  lemma LoadComposition(mem: seq<bv8>, addr: nat)
    requires addr + 4 <= |mem|
    ensures Load16(mem, addr) == (Load8(mem, addr) as bv16) | ((Load8(mem, addr + 1) as bv16) << 8)
    ensures Load32(mem, addr) == (Load16(mem, addr) as bv32) | ((Load16(mem, addr + 2) as bv32) << 16)
  {
  }

  // ---------------------------------------------------------------------
  // Stores, specified on byte sequences

  /** The low-order byte of `v`: the C truncation `(u8)`. */
  function Byte0(v: bv32): bv8
  {
    (v & 0xFF) as bv8
  }

  /** The low-order half-word of `v`: the C truncation `(u16)`. */
  function Low16(v: bv32): bv16
  {
    (v & 0xFFFF) as bv16
  }

  /** The bytes a store of width 1, 2 or 4 writes, lowest address first. */
  function Bytes8(v: bv8): (b: seq<bv8>)
    ensures |b| == 1
  {
    [v]
  }

  function Bytes16(v: bv16): (b: seq<bv8>)
    ensures |b| == 2
  {
    [(v & 0xFF) as bv8, ((v >> 8) & 0xFF) as bv8]
  }

  function Bytes32(v: bv32): (b: seq<bv8>)
    ensures |b| == 4
  {
    [(v & 0xFF) as bv8, ((v >> 8) & 0xFF) as bv8, ((v >> 16) & 0xFF) as bv8, ((v >> 24) & 0xFF) as bv8]
  }

  /**
   * `mem` with `bytes` written from `addr` on: the same length, the new
   * bytes in place and every other byte as before.
   */
  function Write(mem: seq<bv8>, addr: nat, bytes: seq<bv8>): (r: seq<bv8>)
    requires addr + |bytes| <= |mem|
    ensures |r| == |mem|
    ensures forall k :: 0 <= k < |bytes| ==> r[addr + k] == bytes[k]
    ensures forall j :: 0 <= j < |mem| && !(addr <= j < addr + |bytes|) ==> r[j] == mem[j]
  {
    mem[..addr] + bytes + mem[addr + |bytes|..]
  }

  // ---------------------------------------------------------------------
  // Stores, in place

  method Store8(mem: array<bv8>, addr: nat, val: bv8)
    requires addr + 1 <= mem.Length
    modifies mem
    ensures mem[..] == Write(old(mem[..]), addr, Bytes8(val))
  {
    mem[addr] := val;
  }

  method Store16(mem: array<bv8>, addr: nat, val: bv16)
    requires addr + 2 <= mem.Length
    modifies mem
    ensures mem[..] == Write(old(mem[..]), addr, Bytes16(val))
  {
    mem[addr] := (val & 0xFF) as bv8;
    mem[addr + 1] := ((val >> 8) & 0xFF) as bv8;
  }

  method Store32(mem: array<bv8>, addr: nat, val: bv32)
    requires addr + 4 <= mem.Length
    modifies mem
    ensures mem[..] == Write(old(mem[..]), addr, Bytes32(val))
  {
    mem[addr] := (val & 0xFF) as bv8;
    mem[addr + 1] := ((val >> 8) & 0xFF) as bv8;
    mem[addr + 2] := ((val >> 16) & 0xFF) as bv8;
    mem[addr + 3] := ((val >> 24) & 0xFF) as bv8;
  }

  // ---------------------------------------------------------------------
  // Properties

  /** A load of the width just stored, at the same address, returns the value. */
  lemma Store8Load8(mem: seq<bv8>, addr: nat, v: bv8)
    requires addr + 1 <= |mem|
    ensures Load8(Write(mem, addr, Bytes8(v)), addr) == v
  {
  }

  lemma Store16Load16(mem: seq<bv8>, addr: nat, v: bv16)
    requires addr + 2 <= |mem|
    ensures Load16(Write(mem, addr, Bytes16(v)), addr) == v
  {
    var m := Write(mem, addr, Bytes16(v));
    assert m[addr] == (v & 0xFF) as bv8 && m[addr + 1] == ((v >> 8) & 0xFF) as bv8;
    Bytes16Reassemble(v);
  }

  lemma Store32Load32(mem: seq<bv8>, addr: nat, v: bv32)
    requires addr + 4 <= |mem|
    ensures Load32(Write(mem, addr, Bytes32(v)), addr) == v
  {
    var m := Write(mem, addr, Bytes32(v));
    var b := Bytes32(v);
    assert m[addr] == b[0] && m[addr + 1] == b[1] && m[addr + 2] == b[2] && m[addr + 3] == b[3];
    Bytes32Reassemble(v);
  }

  lemma Bytes16Reassemble(v: bv16)
    ensures ((v & 0xFF) as bv8 as bv16) | ((((v >> 8) & 0xFF) as bv8 as bv16) << 8) == v
  {
  }

  lemma Bytes32Reassemble(v: bv32)
    ensures var b := Bytes32(v);
      (b[0] as bv32) | ((b[1] as bv32) << 8) | ((b[2] as bv32) << 16) | ((b[3] as bv32) << 24) == v
  {
  }

  /** Storing 0xDEADBEEF lays out EF, BE, AD, DE from the lowest address up. */
  lemma StoreDeadBeef(mem: seq<bv8>, addr: nat)
    requires addr + 4 <= |mem|
    ensures var m := Write(mem, addr, Bytes32(0xDEAD_BEEF));
      m[addr] == 0xEF && m[addr + 1] == 0xBE && m[addr + 2] == 0xAD && m[addr + 3] == 0xDE
  {
  }
}
