/** The SAP-1 register file and its 16-byte RAM, with the bulk operations
    around them: reset, the built-in sample program, and the truncating
    program load and save.

    The emulator keeps the CPU and the RAM in two process-wide variables;
    here they are one immutable `State` value that every operation takes and
    returns. */
module Machine {
  import opened Bits
  import opened Isa

  /** The number of RAM cells, which is also the longest program. */
  const PROG: nat := 16

  /** The RAM: exactly `PROG` byte cells, addressed by a 4-bit register. */
  type Ram = s: seq<Byte> | |s| == PROG witness InitializeRam()

  /** The flags register: carry and zero, one bit each. */
  datatype Flags = Flags(cf: Bit, zf: Bit)

  /** The instruction register, split into opcode and operand nibbles. */
  datatype InsReg = InsReg(ins: Nibble, opr: Nibble)

  /** The register file. `m` is the memory-address register, `p` the program
      counter, `a` the accumulator, `b` the second ALU operand, `o` the
      output register and `bus` the 9-bit internal bus. */
  datatype Cpu = Cpu(
    m: Nibble,
    p: Nibble,
    a: Byte,
    b: Byte,
    o: Byte,
    ir: InsReg,
    flags: Flags,
    bus: Bus9)

  datatype State = State(cpu: Cpu, ram: Ram)

  /** Every register, both flags and the bus set to zero. */
  function InitializeCpu(): (c: Cpu)
    ensures c.m == 0 && c.p == 0
    ensures c.a == 0 && c.b == 0 && c.o == 0
    ensures c.ir.ins == 0 && c.ir.opr == 0
    ensures c.flags.cf == 0 && c.flags.zf == 0
    ensures c.bus == 0
  {
    Cpu(m := 0, p := 0, a := 0, b := 0, o := 0,
        ir := InsReg(0, 0), flags := Flags(0, 0), bus := 0)
  }

  /** All sixteen cells set to zero. */
  function InitializeRam(): (r: seq<Byte>)
    ensures |r| == PROG
    ensures forall i :: 0 <= i < PROG ==> r[i] == 0
  {
    seq(PROG, _ => 0)
  }

  /** The machine as the emulator starts it: zeroed CPU and zeroed RAM. */
  function Reset(): State {
    State(InitializeCpu(), InitializeRam())
  }

  /** The built-in program: repeatedly adds RAM[0xE] to RAM[0xF], shows the
      running total and halts once the total wraps round to zero. It writes
      every cell, so the previous RAM contents do not matter. */
  function SampleProgram(): (r: Ram)
    ensures forall i :: 0 <= i < 7 ==>
              && FromCode(HighNibble(r[i])) == [LDA, ADD, STA, OUT, JZ, JMP, HLT][i]
              && Mask4(r[i]) == [0xF, 0xE, 0xF, 0x0, 0x6, 0x0, 0x0][i]
    ensures forall i :: 7 <= i < 14 ==> r[i] == 0
    ensures r[0xE] == 0x01 && r[0xF] == 0xFE
  {
    [ Asm(LDA.Code(), 0xF),
      Asm(ADD.Code(), 0xE),
      Asm(STA.Code(), 0xF),
      Asm(OUT.Code(), 0x0),
      Asm(JZ.Code(), 0x6),
      Asm(JMP.Code(), 0x0),
      Asm(HLT.Code(), 0x0),
      0x00, 0x00, 0x00, 0x00, 0x00, 0x00, 0x00,
      0x01,
      0xFE ]
  }

  /** The number of cells a load or save of `length` bytes copies: `length`
      clipped to `PROG`, that is the smaller of the two. A negative length stays negative, and then the copy
      loop does not run at all. */
  function CopyCount(length: int): (n: int)
    ensures n <= PROG && n <= length
    ensures n == length || n == PROG
  {
    if length < PROG then length else PROG
  }

  /** The copy loop shared by load and save: for `i` from `i` up to `max`,
      `dst[i] := src[i]`, written as tail recursion. */
  function CopyFrom(dst: seq<Byte>, src: seq<Byte>, i: nat, max: int): (r: seq<Byte>)
    requires max <= |dst| && max <= |src|
    ensures |r| == |dst|
    ensures forall j :: 0 <= j < |dst| ==> r[j] == (if i <= j < max then src[j] else dst[j])
    decreases max - i
  {
    if i >= max then dst else CopyFrom(dst[i := src[i]], src, i + 1, max)
  }

  /** Copies the first `length` bytes of `program` into RAM, at most `PROG`
      of them; the caller supplies at least that many bytes. Cells beyond
      the copied prefix keep their old contents. */
  function LoadProgram(ram: Ram, program: seq<Byte>, length: int): (r: Ram)
    requires CopyCount(length) <= |program|
    ensures forall i :: 0 <= i < PROG ==> r[i] == (if i < length then program[i] else ram[i])
  {
    CopyFrom(ram, program, 0, CopyCount(length))
  }

  /** Copies the first `length` RAM cells, at most `PROG` of them, into the
      caller's buffer `program` and returns the updated buffer. Entries of the
      buffer beyond the copied prefix are left as they were. */
  function SaveProgram(ram: Ram, program: seq<Byte>, length: int): (r: seq<Byte>)
    requires CopyCount(length) <= |program|
    ensures |r| == |program|
    ensures forall i :: 0 <= i < |program| ==>
              r[i] == (if i < length && i < PROG then ram[i] else program[i])
  {
    CopyFrom(program, ram, 0, CopyCount(length))
  }

  /** Saving a freshly loaded program gives back the program: the first
      `min(length, PROG)` bytes of the buffer equal those of the source. */
  lemma SaveAfterLoad(ram: Ram, program: seq<Byte>, buffer: seq<Byte>, length: int)
    requires CopyCount(length) <= |program|
    requires CopyCount(length) <= |buffer|
    ensures var n := if length < 0 then 0 else CopyCount(length);
            SaveProgram(LoadProgram(ram, program, length), buffer, length)[..n] == program[..n]
  {
  }

  /** Loading back what was just saved leaves RAM unchanged. */
  lemma LoadAfterSave(ram: Ram, buffer: seq<Byte>, length: int)
    requires CopyCount(length) <= |buffer|
    ensures LoadProgram(ram, SaveProgram(ram, buffer, length), length) == ram
  {
    var back := LoadProgram(ram, SaveProgram(ram, buffer, length), length);
    assert forall i :: 0 <= i < PROG ==> back[i] == ram[i];
  }

  /** Loading a program longer than the RAM copies exactly its first `PROG`
      bytes and ignores the rest. */
  lemma LoadTruncates(ram: Ram, program: seq<Byte>)
    requires |program| >= PROG
    ensures LoadProgram(ram, program, |program|) == program[..PROG]
  {
    var loaded := LoadProgram(ram, program, |program|);
    assert forall i :: 0 <= i < PROG ==> loaded[i] == program[i];
  }
}
