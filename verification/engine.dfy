/** The fetch-decode-execute engine: one call of `Step` is one full
    instruction cycle.

    Each operation body is written as the sequence of register transfers the
    emulator performs, one function per transfer, so that the 9-bit bus and
    every truncation are kept. The contracts then state what the instruction
    means at the level of the architecture. The pacing waits between
    transfers have no effect on the state and are not modelled. */
module Engine {
  import opened Bits
  import opened Isa
  import opened Machine

  /** The value a cycle returns to the host. */
  datatype Status = Continue | Halted | InvalidOpcode {
    /** The integer the emulator returns for this status. */
    function Code(): int {
      match this
      case Continue => 0
      case Halted => 1
      case InvalidOpcode => -1
    }
  }

  datatype StepResult = StepResult(status: Status, next: State)

  // ---- Register transfers ------------------------------------------------

  /** BUS := P */
  function BusFromP(s: State): State {
    s.(cpu := s.cpu.(bus := ToBus(s.cpu.p)))
  }

  /** M := BUS, truncated to the 4-bit field */
  function MFromBus(s: State): State {
    s.(cpu := s.cpu.(m := ToNibble(s.cpu.bus)))
  }

  /** BUS := RAM[M] */
  function BusFromRam(s: State): State {
    s.(cpu := s.cpu.(bus := ToBus(s.ram[s.cpu.m])))
  }

  /** INS := BUS >> 4; OPR := BUS & 0xF */
  function IrFromBus(s: State): State {
    s.(cpu := s.cpu.(ir := InsReg(ToNibble(s.cpu.bus / 16), Mask4(s.cpu.bus))))
  }

  /** P++ on the 4-bit field */
  function IncrementP(s: State): State {
    s.(cpu := s.cpu.(p := ToNibble(s.cpu.p + 1)))
  }

  /** BUS := (INS << 4) | OPR */
  function BusFromIr(s: State): State {
    s.(cpu := s.cpu.(bus := ToBus(Asm(s.cpu.ir.ins, s.cpu.ir.opr))))
  }

  /** M := BUS & 0xF */
  function MFromBusLow(s: State): State {
    s.(cpu := s.cpu.(m := Mask4(s.cpu.bus)))
  }

  /** P := BUS & 0xF */
  function PFromBusLow(s: State): State {
    s.(cpu := s.cpu.(p := Mask4(s.cpu.bus)))
  }

  /** A := BUS & 0xFF */
  function AFromBus(s: State): State {
    s.(cpu := s.cpu.(a := Mask8(s.cpu.bus)))
  }

  /** B := BUS & 0xFF */
  function BFromBus(s: State): State {
    s.(cpu := s.cpu.(b := Mask8(s.cpu.bus)))
  }

  /** O := BUS & 0xFF */
  function OFromBus(s: State): State {
    s.(cpu := s.cpu.(o := Mask8(s.cpu.bus)))
  }

  /** BUS := A */
  function BusFromA(s: State): State {
    s.(cpu := s.cpu.(bus := ToBus(s.cpu.a)))
  }

  /** RAM[M] := BUS & 0xFF */
  function RamFromBus(s: State): State {
    s.(ram := s.ram[s.cpu.m := Mask8(s.cpu.bus)])
  }

  /** BUS := A + B, stored into the 9-bit field */
  function BusFromSum(s: State): State {
    s.(cpu := s.cpu.(bus := ToBus(s.cpu.a + s.cpu.b)))
  }

  /** BUS := A - B, stored into the 9-bit field (a negative difference wraps) */
  function BusFromDifference(s: State): State {
    s.(cpu := s.cpu.(bus := ToBus(s.cpu.a - s.cpu.b)))
  }

  /** CF := BUS >> 8; ZF := (A == 0) */
  function FlagsFromBus(s: State): State {
    s.(cpu := s.cpu.(flags := Flags(ToBit(s.cpu.bus / 256), if s.cpu.a == 0 then 1 else 0)))
  }

  /** CF := 0 */
  function ClearCarry(s: State): State {
    s.(cpu := s.cpu.(flags := s.cpu.flags.(cf := 0)))
  }

  /** ZF := 0 */
  function ClearZero(s: State): State {
    s.(cpu := s.cpu.(flags := s.cpu.flags.(zf := 0)))
  }

  // ---- Fetch ---------------------------------------------------------------

  /** The byte the next fetch reads. */
  function NextByte(s: State): Byte {
    s.ram[s.cpu.p]
  }

  /** The opcode the next fetch decodes. */
  function NextOpcode(s: State): Opcode {
    FromCode(HighNibble(NextByte(s)))
  }

  /** The operand the next fetch decodes. */
  function NextOperand(s: State): Nibble {
    Mask4(NextByte(s))
  }

  /** Fetch: the address register takes the program counter, the byte at
      that address is split into the instruction register, and the program
      counter advances, wrapping from 15 to 0. Nothing else changes. */
  function Fetch(s: State): (r: State)
    ensures r.cpu.m == s.cpu.p
    ensures r.cpu.bus == NextByte(s)
    ensures Asm(r.cpu.ir.ins, r.cpu.ir.opr) == NextByte(s)
    ensures r.cpu.p == if s.cpu.p == 15 then 0 else s.cpu.p + 1
    ensures r.cpu.a == s.cpu.a && r.cpu.b == s.cpu.b && r.cpu.o == s.cpu.o
    ensures r.cpu.flags == s.cpu.flags && r.ram == s.ram
  {
    var s1 := BusFromP(s);
    var s2 := MFromBus(s1);
    var s3 := BusFromRam(s2);
    var s4 := IrFromBus(s3);
    IncrementP(s4)
  }

  // ---- Operations ----------------------------------------------------------
  // Each takes the state after fetch and reads its operand from the
  // instruction register.

  /** NOP: no state change. */
  function ExNop(s: State): (r: StepResult)
    ensures r.status == Continue && r.next == s
  {
    StepResult(Continue, s)
  }

  /** LDA addr: A := RAM[addr]. */
  function ExLda(s: State): (r: StepResult)
    ensures r.status == Continue
    ensures var addr := s.cpu.ir.opr;
            r.next.cpu == s.cpu.(m := addr, a := s.ram[addr], bus := s.ram[addr])
    ensures r.next.ram == s.ram
  {
    AsmSplit(s.cpu.ir.ins, s.cpu.ir.opr);
    AsmFitsBus(s.cpu.ir.ins, s.cpu.ir.opr);
    var s1 := BusFromIr(s);
    var s2 := MFromBusLow(s1);
    var s3 := BusFromRam(s2);
    var s4 := AFromBus(s3);
    StepResult(Continue, s4)
  }

  /** ADD addr: B := RAM[addr]; A := (A + B) mod 256; CF is set iff the
      true sum does not fit in 8 bits; ZF is set iff the new A is 0. */
  function ExAdd(s: State): (r: StepResult)
    ensures r.status == Continue
    ensures var addr := s.cpu.ir.opr;
            var sum := s.cpu.a + s.ram[addr];
            && r.next.cpu.m == addr
            && r.next.cpu.b == s.ram[addr]
            && r.next.cpu.a == sum % 256
            && r.next.cpu.bus == sum
            && (r.next.cpu.flags.cf == 1 <==> sum > 255)
    ensures r.next.cpu.flags.zf == 1 <==> r.next.cpu.a == 0
    ensures r.next.cpu.p == s.cpu.p && r.next.cpu.o == s.cpu.o && r.next.cpu.ir == s.cpu.ir
    ensures r.next.ram == s.ram
  {
    AsmSplit(s.cpu.ir.ins, s.cpu.ir.opr);
    AsmFitsBus(s.cpu.ir.ins, s.cpu.ir.opr);
    var s1 := BusFromIr(s);
    var s2 := MFromBusLow(s1);
    var s3 := BusFromRam(s2);
    var s4 := BFromBus(s3);
    assert s4.cpu.b == s.ram[s.cpu.ir.opr];
    SumOnBus(s4.cpu.a, s4.cpu.b);
    var s5 := BusFromSum(s4);
    var s6 := AFromBus(s5);
    var s7 := FlagsFromBus(s6);
    StepResult(Continue, s7)
  }

  /** SUB addr: B := RAM[addr]; A := (A - B) mod 256; the difference is kept
      modulo 512 on the bus, so CF, its bit 8, is set iff A < B (a borrow);
      ZF is set iff the new A is 0. */
  function ExSub(s: State): (r: StepResult)
    ensures r.status == Continue
    ensures var addr := s.cpu.ir.opr;
            var diff := s.cpu.a - s.ram[addr];
            && r.next.cpu.m == addr
            && r.next.cpu.b == s.ram[addr]
            && r.next.cpu.a == diff % 256
            && r.next.cpu.bus == diff % 512
            && (r.next.cpu.flags.cf == 1 <==> s.cpu.a < s.ram[addr])
    ensures r.next.cpu.flags.zf == 1 <==> r.next.cpu.a == 0
    ensures r.next.cpu.p == s.cpu.p && r.next.cpu.o == s.cpu.o && r.next.cpu.ir == s.cpu.ir
    ensures r.next.ram == s.ram
  {
    AsmSplit(s.cpu.ir.ins, s.cpu.ir.opr);
    AsmFitsBus(s.cpu.ir.ins, s.cpu.ir.opr);
    var s1 := BusFromIr(s);
    var s2 := MFromBusLow(s1);
    var s3 := BusFromRam(s2);
    var s4 := BFromBus(s3);
    assert s4.cpu.b == s.ram[s.cpu.ir.opr];
    DifferenceOnBus(s4.cpu.a, s4.cpu.b);
    var s5 := BusFromDifference(s4);
    var s6 := AFromBus(s5);
    var s7 := FlagsFromBus(s6);
    StepResult(Continue, s7)
  }

  /** STA addr: RAM[addr] := A. Every other cell, and A, B, O, P and the
      flags, are unchanged. */
  function ExSta(s: State): (r: StepResult)
    ensures r.status == Continue
    ensures var addr := s.cpu.ir.opr;
            && r.next.ram[addr] == s.cpu.a
            && (forall i :: 0 <= i < PROG && i != addr ==> r.next.ram[i] == s.ram[i])
            && r.next.cpu == s.cpu.(m := addr, bus := s.cpu.a)
  {
    AsmSplit(s.cpu.ir.ins, s.cpu.ir.opr);
    AsmFitsBus(s.cpu.ir.ins, s.cpu.ir.opr);
    var s1 := BusFromIr(s);
    var s2 := MFromBusLow(s1);
    var s3 := BusFromA(s2);
    var s4 := RamFromBus(s3);
    StepResult(Continue, s4)
  }

  /** LDI: A := the whole instruction byte rebuilt from the instruction
      register, so the loaded value is 0x50 plus the operand rather than
      the operand alone. Only ever run on an `LDI` instruction. */
  function ExLdi(s: State): (r: StepResult)
    requires s.cpu.ir.ins == LDI.Code()
    ensures r.status == Continue
    ensures r.next.cpu.a == 0x50 + s.cpu.ir.opr
    ensures r.next.cpu.a != s.cpu.ir.opr
    ensures r.next.cpu == s.cpu.(a := r.next.cpu.a, bus := r.next.cpu.a)
    ensures r.next.ram == s.ram
  {
    AsmSplit(s.cpu.ir.ins, s.cpu.ir.opr);
    AsmFitsBus(s.cpu.ir.ins, s.cpu.ir.opr);
    var s1 := BusFromIr(s);
    var s2 := AFromBus(s1);
    StepResult(Continue, s2)
  }

  /** JMP addr: P := addr, unconditionally; the bus keeps the rebuilt
      instruction byte. */
  function ExJmp(s: State): (r: StepResult)
    ensures r.status == Continue
    ensures r.next.cpu == s.cpu.(p := s.cpu.ir.opr, bus := Asm(s.cpu.ir.ins, s.cpu.ir.opr))
    ensures r.next.ram == s.ram
  {
    AsmSplit(s.cpu.ir.ins, s.cpu.ir.opr);
    AsmFitsBus(s.cpu.ir.ins, s.cpu.ir.opr);
    var s1 := BusFromIr(s);
    var s2 := PFromBusLow(s1);
    StepResult(Continue, s2)
  }

  /** JC addr: taken iff CF is 1; when taken, P := addr and CF is cleared.
      When taken the bus holds the rebuilt instruction byte; when not taken,
      nothing changes. ZF is never touched. */
  function ExJc(s: State): (r: StepResult)
    ensures r.status == Continue
    ensures s.cpu.flags.cf == 1 ==>
              && r.next.cpu.p == s.cpu.ir.opr
              && r.next.cpu.flags == s.cpu.flags.(cf := 0)
              && r.next.cpu.bus == Asm(s.cpu.ir.ins, s.cpu.ir.opr)
    ensures s.cpu.flags.cf == 0 ==> r.next == s
    ensures r.next.cpu == s.cpu.(p := r.next.cpu.p, flags := r.next.cpu.flags, bus := r.next.cpu.bus)
    ensures r.next.cpu.flags.zf == s.cpu.flags.zf && r.next.ram == s.ram
  {
    if s.cpu.flags.cf != 0 then
      AsmSplit(s.cpu.ir.ins, s.cpu.ir.opr);
      AsmFitsBus(s.cpu.ir.ins, s.cpu.ir.opr);
      var s1 := BusFromIr(s);
      var s2 := PFromBusLow(s1);
      StepResult(Continue, ClearCarry(s2))
    else
      StepResult(Continue, s)
  }

  /** JZ addr: taken iff ZF is 1; when taken, P := addr and ZF is cleared.
      When taken the bus holds the rebuilt instruction byte; when not taken,
      nothing changes. CF is never touched. */
  function ExJz(s: State): (r: StepResult)
    ensures r.status == Continue
    ensures s.cpu.flags.zf == 1 ==>
              && r.next.cpu.p == s.cpu.ir.opr
              && r.next.cpu.flags == s.cpu.flags.(zf := 0)
              && r.next.cpu.bus == Asm(s.cpu.ir.ins, s.cpu.ir.opr)
    ensures s.cpu.flags.zf == 0 ==> r.next == s
    ensures r.next.cpu == s.cpu.(p := r.next.cpu.p, flags := r.next.cpu.flags, bus := r.next.cpu.bus)
    ensures r.next.cpu.flags.cf == s.cpu.flags.cf && r.next.ram == s.ram
  {
    if s.cpu.flags.zf != 0 then
      AsmSplit(s.cpu.ir.ins, s.cpu.ir.opr);
      AsmFitsBus(s.cpu.ir.ins, s.cpu.ir.opr);
      var s1 := BusFromIr(s);
      var s2 := PFromBusLow(s1);
      StepResult(Continue, ClearZero(s2))
    else
      StepResult(Continue, s)
  }

  /** OUT: O := A. */
  function ExOut(s: State): (r: StepResult)
    ensures r.status == Continue
    ensures r.next.cpu == s.cpu.(o := s.cpu.a, bus := s.cpu.a)
    ensures r.next.ram == s.ram
  {
    var s1 := BusFromA(s);
    var s2 := OFromBus(s1);
    StepResult(Continue, s2)
  }

  /** HLT: report the end of the program; no state change. */
  function ExHlt(s: State): (r: StepResult)
    ensures r.status == Halted && r.next == s
  {
    StepResult(Halted, s)
  }

  // ---- One instruction cycle -----------------------------------------------

  /** One call of the engine: fetch, then run the operation the opcode
      selects. The status is Halted exactly for `HLT` (a byte of 0xF0 or
      more), InvalidOpcode exactly for the five reserved opcodes (bytes 0x90
      to 0xDF) and Continue otherwise. A halt or a reserved opcode leaves
      the state as fetch left it. */
  function Step(s: State): (r: StepResult)
    ensures r.status == Halted <==> NextByte(s) >= 0xF0
    ensures r.status == InvalidOpcode <==> 0x90 <= NextByte(s) < 0xE0
    ensures r.status.Code() == (if NextByte(s) >= 0xF0 then 1
                                else if 0x90 <= NextByte(s) < 0xE0 then -1
                                else 0)
    ensures r.status != Continue ==> r.next == Fetch(s)
  {
    var f := Fetch(s);
    match FromCode(f.cpu.ir.ins)
    case NOP => ExNop(f)
    case LDA => ExLda(f)
    case ADD => ExAdd(f)
    case SUB => ExSub(f)
    case STA => ExSta(f)
    case LDI => ExLdi(f)
    case JMP => ExJmp(f)
    case JC => ExJc(f)
    case JZ => ExJz(f)
    case OUT => ExOut(f)
    case HLT => ExHlt(f)
    case NI0 | NI1 | NI2 | NI3 | NI4 => StepResult(InvalidOpcode, f)
  }

  // ---- Properties of one cycle ---------------------------------------------

  /** Fetch decodes an assembled instruction into exactly the opcode and
      operand it was assembled from. */
  lemma FetchDecodes(s: State, i: Nibble, o: Nibble)
    requires NextByte(s) == Asm(i, o)
    ensures Fetch(s).cpu.ir == InsReg(i, o)
    ensures NextOpcode(s) == FromCode(i) && NextOperand(s) == o
  {
    AsmSplit(i, o);
  }

  /** The address after `p`: the 4-bit program counter counts 0..15 and
      wraps round to 0. */
  function NextAddress(p: Nibble): Nibble {
    if p == 15 then 0 else p + 1
  }

  /** Fetch changes exactly four fields: M takes the old P, P moves to the
      next address, the instruction register holds the byte at P split into
      nibbles, and the bus holds that byte. */
  lemma FetchExactly(s: State)
    ensures Fetch(s) ==
      State(s.cpu.(m := s.cpu.p, p := NextAddress(s.cpu.p),
                   ir := InsReg(HighNibble(NextByte(s)), NextOperand(s)),
                   bus := NextByte(s)),
            s.ram)
  {
    var b := NextByte(s);
    AsmSplit(HighNibble(b), Mask4(b));
    AsmJoin(b);
    var f := Fetch(s);
    assert f.cpu.ir == InsReg(HighNibble(b), Mask4(b));
    CpuFields(f.cpu, s.cpu.(m := s.cpu.p, p := NextAddress(s.cpu.p),
                            ir := InsReg(HighNibble(b), Mask4(b)), bus := b));
  }

  /** Two register files that agree on every field are equal. */
  lemma CpuFields(c: Cpu, d: Cpu)
    requires c.m == d.m && c.p == d.p && c.a == d.a && c.b == d.b && c.o == d.o
    requires c.ir == d.ir && c.flags == d.flags && c.bus == d.bus
    ensures c == d
  {
  }

  /** NOP changes nothing beyond what fetch did. */
  lemma StepNop(s: State)
    requires NextOpcode(s) == NOP
    ensures Step(s) == StepResult(Continue, Fetch(s))
  {
    AsmSplit(HighNibble(NextByte(s)), NextOperand(s));
    AsmJoin(NextByte(s));
  }

  /** A reserved opcode stops the machine with A, B, O, both flags and the
      RAM exactly as they were before the cycle. */
  lemma InvalidOpcodeKeepsState(s: State)
    requires !NextOpcode(s).Implemented()
    ensures Step(s).status == InvalidOpcode
    ensures var t := Step(s).next;
            && t.cpu.a == s.cpu.a && t.cpu.b == s.cpu.b && t.cpu.o == s.cpu.o
            && t.cpu.flags == s.cpu.flags && t.ram == s.ram
  {
  }

  /** A jump is taken when the opcode is JMP, or JC with CF set, or JZ with
      ZF set. */
  predicate JumpTaken(s: State) {
    match NextOpcode(s)
    case JMP => true
    case JC => s.cpu.flags.cf == 1
    case JZ => s.cpu.flags.zf == 1
    case _ => false
  }

  /** The program counter after a cycle: the operand when a jump is taken,
      otherwise the next address, with 15 wrapping round to 0. */
  lemma StepProgramCounter(s: State)
    ensures JumpTaken(s) ==> Step(s).next.cpu.p == NextOperand(s)
    ensures !JumpTaken(s) ==> Step(s).next.cpu.p == (s.cpu.p + 1) % 16
  {
    AsmSplit(HighNibble(NextByte(s)), NextOperand(s));
    AsmJoin(NextByte(s));
  }

  /** Only ADD, SUB and a taken JC or JZ change the flags; a taken
      conditional jump leaves its own flag at 0. */
  lemma StepFlags(s: State)
    ensures NextOpcode(s) !in {ADD, SUB, JC, JZ} ==> Step(s).next.cpu.flags == s.cpu.flags
    ensures JumpTaken(s) && NextOpcode(s) == JC ==>
              Step(s).next.cpu.flags == Flags(0, s.cpu.flags.zf)
    ensures JumpTaken(s) && NextOpcode(s) == JZ ==>
              Step(s).next.cpu.flags == Flags(s.cpu.flags.cf, 0)
    ensures !JumpTaken(s) && NextOpcode(s) in {JC, JZ} ==> Step(s).next.cpu.flags == s.cpu.flags
  {
    AsmSplit(HighNibble(NextByte(s)), NextOperand(s));
    AsmJoin(NextByte(s));
  }

  /** Only STA writes memory, and it writes A into the operand's cell. */
  lemma StepMemory(s: State)
    ensures NextOpcode(s) != STA ==> Step(s).next.ram == s.ram
    ensures NextOpcode(s) == STA ==> Step(s).next.ram == s.ram[NextOperand(s) := s.cpu.a]
  {
    AsmSplit(HighNibble(NextByte(s)), NextOperand(s));
    AsmJoin(NextByte(s));
  }

  /** Only OUT changes the output register, and it copies A there. */
  lemma StepOutput(s: State)
    ensures NextOpcode(s) != OUT ==> Step(s).next.cpu.o == s.cpu.o
    ensures NextOpcode(s) == OUT ==> Step(s).next.cpu.o == s.cpu.a
  {
  }

  /** The accumulator after a cycle, for every opcode: LDI loads the full
      instruction byte 0x50 + operand. */
  lemma StepAccumulator(s: State)
    ensures var t := Step(s).next; var addr := NextOperand(s);
            match NextOpcode(s)
            case LDA => t.cpu.a == s.ram[addr]
            case ADD => t.cpu.a == (s.cpu.a + s.ram[addr]) % 256
            case SUB => t.cpu.a == (s.cpu.a - s.ram[addr]) % 256
            case LDI => t.cpu.a == 0x50 + addr
            case _ => t.cpu.a == s.cpu.a
  {
    AsmSplit(HighNibble(NextByte(s)), NextOperand(s));
    AsmJoin(NextByte(s));
  }

  /** Only ADD and SUB change B, and they load it with the operand's cell. */
  lemma StepOperandRegister(s: State)
    ensures NextOpcode(s) in {ADD, SUB} ==> Step(s).next.cpu.b == s.ram[NextOperand(s)]
    ensures NextOpcode(s) !in {ADD, SUB} ==> Step(s).next.cpu.b == s.cpu.b
  {
    AsmSplit(HighNibble(NextByte(s)), NextOperand(s));
    AsmJoin(NextByte(s));
  }

  /** The address register after a cycle: the operand for the four
      instructions that address memory, otherwise the address fetch read. */
  lemma StepAddressRegister(s: State)
    ensures NextOpcode(s) in {LDA, ADD, SUB, STA} ==> Step(s).next.cpu.m == NextOperand(s)
    ensures NextOpcode(s) !in {LDA, ADD, SUB, STA} ==> Step(s).next.cpu.m == s.cpu.p
  {
    AsmSplit(HighNibble(NextByte(s)), NextOperand(s));
    AsmJoin(NextByte(s));
  }
}
