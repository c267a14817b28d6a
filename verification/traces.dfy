/** Whole runs of the engine: the host calls `Step` again and again on the
    state the previous call left behind. */
module Traces {
  import opened Bits
  import opened Isa
  import opened Machine
  import opened Engine

  /** The state after `n` calls of the engine, whatever their statuses. */
  function After(s: State, n: nat): State {
    if n == 0 then s else Step(After(s, n - 1)).next
  }

  /** The result of the `k`-th call (counting from 1). */
  function Call(s: State, k: nat): StepResult
    requires k >= 1
  {
    Step(After(s, k - 1))
  }

  /** Chaining calls: if the machine reaches `before` after `k - 1` calls
      and one step from `before` gives `r`, then `r` is the `k`-th call. */
  lemma CallAfter(s0: State, k: nat, before: State, r: StepResult)
    requires k >= 1 && After(s0, k - 1) == before && Step(before) == r
    ensures Call(s0, k) == r && After(s0, k) == r.next
  {
  }

  // ---- The built-in program ------------------------------------------------

  /** A machine ready to run the built-in program: its CPU is freshly
      initialized and its RAM holds the sample program. */
  predicate SampleStart(s: State) {
    s.cpu == InitializeCpu() && s.ram == SampleProgram()
  }

  /** The sample program's bytes, as the assembler macro encodes them. */
  lemma SampleProgramBytes()
    ensures SampleProgram() ==
      [0x1F, 0x2E, 0x4F, 0xE0, 0x86, 0x60, 0xF0, 0, 0, 0, 0, 0, 0, 0, 0x01, 0xFE]
  {
  }

  /** The state after `k` calls of the built-in program, for `k` up to 12,
      worked out by hand from the emulator's register transfers: cell 0xF
      holds the running total, and the loop runs twice. */
  function SampleState(k: nat): State
    requires k <= 12
  {
    var p := SampleProgram();
    match k
    case 0 => State(Cpu(0, 0, 0, 0, 0, InsReg(0, 0), Flags(0, 0), 0), p)
    case 1 => State(Cpu(15, 1, 0xFE, 0, 0, InsReg(1, 15), Flags(0, 0), 0xFE), p)
    case 2 => State(Cpu(14, 2, 0xFF, 1, 0, InsReg(2, 14), Flags(0, 0), 0xFF), p)
    case 3 => State(Cpu(15, 3, 0xFF, 1, 0, InsReg(4, 15), Flags(0, 0), 0xFF), p[15 := 0xFF])
    case 4 => State(Cpu(3, 4, 0xFF, 1, 0xFF, InsReg(14, 0), Flags(0, 0), 0xFF), p[15 := 0xFF])
    case 5 => State(Cpu(4, 5, 0xFF, 1, 0xFF, InsReg(8, 6), Flags(0, 0), 0x86), p[15 := 0xFF])
    case 6 => State(Cpu(5, 0, 0xFF, 1, 0xFF, InsReg(6, 0), Flags(0, 0), 0x60), p[15 := 0xFF])
    case 7 => State(Cpu(15, 1, 0xFF, 1, 0xFF, InsReg(1, 15), Flags(0, 0), 0xFF), p[15 := 0xFF])
    case 8 => State(Cpu(14, 2, 0, 1, 0xFF, InsReg(2, 14), Flags(1, 1), 0x100), p[15 := 0xFF])
    case 9 => State(Cpu(15, 3, 0, 1, 0xFF, InsReg(4, 15), Flags(1, 1), 0), p[15 := 0])
    case 10 => State(Cpu(3, 4, 0, 1, 0, InsReg(14, 0), Flags(1, 1), 0), p[15 := 0])
    case 11 => State(Cpu(4, 6, 0, 1, 0, InsReg(8, 6), Flags(1, 0), 0x86), p[15 := 0])
    case _ => State(Cpu(6, 7, 0, 1, 0, InsReg(15, 0), Flags(1, 0), 0xF0), p[15 := 0])
  }

  /** Each of the first eleven calls continues and moves the machine from one
      row of the hand-worked table to the next. */
  lemma SampleStep(k: nat)
    requires k < 11
    ensures Step(SampleState(k)) == StepResult(Continue, SampleState(k + 1))
  {
    if k < 3 {
      SampleFirstPassUpdate(k);
    } else if k < 6 {
      SampleFirstPassBranch(k);
    } else if k < 9 {
      SampleSecondPassUpdate(k);
    } else {
      SampleSecondPassBranch(k);
    }
  }

  /** Calls 1 to 3: load the total, add the increment, store the total. */
  lemma SampleFirstPassUpdate(k: nat)
    requires k < 3
    ensures Step(SampleState(k)) == StepResult(Continue, SampleState(k + 1))
  {
    SampleProgramBytes();
    var s := SampleState(k);
    match k
    case 0 => FetchDecodes(s, LDA.Code(), 0xF);
    case 1 => FetchDecodes(s, ADD.Code(), 0xE);
    case 2 => FetchDecodes(s, STA.Code(), 0xF);
  }

  /** Calls 4 to 6: show the total, JZ not taken, JMP back to 0. */
  lemma SampleFirstPassBranch(k: nat)
    requires 3 <= k < 6
    ensures Step(SampleState(k)) == StepResult(Continue, SampleState(k + 1))
  {
    SampleProgramBytes();
    var s := SampleState(k);
    match k
    case 3 => FetchDecodes(s, OUT.Code(), 0x0);
    case 4 => FetchDecodes(s, JZ.Code(), 0x6);
    case 5 => FetchDecodes(s, JMP.Code(), 0x0);
  }

  /** Calls 7 to 9: the second update, whose sum wraps to zero. */
  lemma SampleSecondPassUpdate(k: nat)
    requires 6 <= k < 9
    ensures Step(SampleState(k)) == StepResult(Continue, SampleState(k + 1))
  {
    SampleProgramBytes();
    var s := SampleState(k);
    match k
    case 6 => FetchDecodes(s, LDA.Code(), 0xF);
    case 7 => FetchDecodes(s, ADD.Code(), 0xE);
    case 8 => FetchDecodes(s, STA.Code(), 0xF);
  }

  /** Calls 10 and 11: show the zero total, then the JZ is taken. */
  lemma SampleSecondPassBranch(k: nat)
    requires 9 <= k < 11
    ensures Step(SampleState(k)) == StepResult(Continue, SampleState(k + 1))
  {
    SampleProgramBytes();
    var s := SampleState(k);
    match k
    case 9 => FetchDecodes(s, OUT.Code(), 0x0);
    case 10 => FetchDecodes(s, JZ.Code(), 0x6);
  }

  /** The twelfth call fetches the HLT at address 6 and halts. */
  lemma SampleHalts()
    ensures Step(SampleState(11)) == StepResult(Halted, SampleState(12))
  {
    SampleProgramBytes();
    FetchDecodes(SampleState(11), HLT.Code(), 0);
  }

  /** The machine follows the hand-worked table for its first twelve calls. */
  lemma {:induction false} SampleTraceFollowsTable(s0: State, k: nat)
    requires SampleStart(s0)
    requires k <= 12
    ensures After(s0, k) == SampleState(k)
    ensures k >= 1 ==> Call(s0, k) == StepResult(if k == 12 then Halted else Continue, SampleState(k))
  {
    if k > 0 {
      SampleTraceFollowsTable(s0, k - 1);
      var r := StepResult(if k == 12 then Halted else Continue, SampleState(k));
      if k == 12 {
        SampleHalts();
      } else {
        SampleStep(k - 1);
      }
      CallAfter(s0, k, SampleState(k - 1), r);
    }
  }

  /** The output register column of the table. */
  lemma SampleOutputAt(k: nat)
    requires 1 <= k <= 12
    ensures SampleState(k).cpu.o == (if k < 4 then 0x00 else if k < 10 then 0xFF else 0x00)
  {
  }

  /** The flags column of the table. */
  lemma SampleFlagsAt(k: nat)
    requires 1 <= k <= 12
    ensures SampleState(k).cpu.flags ==
              (if k < 8 then Flags(0, 0) else if k < 11 then Flags(1, 1) else Flags(1, 0))
  {
  }

  /** The accumulator column of the table. */
  lemma SampleAccumulatorAt(k: nat)
    requires 1 <= k <= 12
    ensures SampleState(k).cpu.a == (if k < 2 then 0xFE else if k < 8 then 0xFF else 0x00)
  {
  }

  /** The program counter column of the table. */
  lemma SampleCounterAt(k: nat)
    requires 1 <= k <= 12
    ensures SampleState(k).cpu.p == [1, 2, 3, 4, 5, 0, 1, 2, 3, 4, 6, 7][k - 1]
  {
  }

  /** Calls 1 to 11 of the built-in program return 0; call 12, the HLT,
      returns 1. */
  lemma SampleStatuses(s0: State)
    requires SampleStart(s0)
    ensures forall k :: 1 <= k <= 12 ==>
              Call(s0, k).status.Code() == (if k == 12 then 1 else 0)
  {
    forall k | 1 <= k <= 12
      ensures Call(s0, k).status.Code() == (if k == 12 then 1 else 0)
    {
      SampleTraceFollowsTable(s0, k);
    }
  }

  /** The output register shows 0xFF from the first OUT (call 4) and 0x00
      from the second (call 10). */
  lemma SampleOutputs(s0: State)
    requires SampleStart(s0)
    ensures forall k :: 1 <= k <= 12 ==>
              Call(s0, k).next.cpu.o == (if k < 4 then 0x00 else if k < 10 then 0xFF else 0x00)
  {
    forall k | 1 <= k <= 12
      ensures Call(s0, k).next.cpu.o == (if k < 4 then 0x00 else if k < 10 then 0xFF else 0x00)
    {
      SampleTraceFollowsTable(s0, k);
      SampleOutputAt(k);
    }
  }

  /** The second ADD (call 8) sets both flags, its sum 0xFF + 1 wrapping to 0;
      the JZ taken at call 11 clears ZF while CF stays set. */
  lemma SampleFlags(s0: State)
    requires SampleStart(s0)
    ensures forall k :: 1 <= k <= 12 ==>
              Call(s0, k).next.cpu.flags ==
                (if k < 8 then Flags(0, 0) else if k < 11 then Flags(1, 1) else Flags(1, 0))
  {
    forall k | 1 <= k <= 12
      ensures Call(s0, k).next.cpu.flags ==
                (if k < 8 then Flags(0, 0) else if k < 11 then Flags(1, 1) else Flags(1, 0))
    {
      SampleTraceFollowsTable(s0, k);
      SampleFlagsAt(k);
    }
  }

  /** The accumulator after each call: 0xFE once loaded, 0xFF after the
      first ADD, and 0 from the second ADD (call 8), whose sum wraps. */
  lemma SampleAccumulator(s0: State)
    requires SampleStart(s0)
    ensures forall k :: 1 <= k <= 12 ==>
              Call(s0, k).next.cpu.a == (if k < 2 then 0xFE else if k < 8 then 0xFF else 0x00)
  {
    forall k | 1 <= k <= 12
      ensures Call(s0, k).next.cpu.a == (if k < 2 then 0xFE else if k < 8 then 0xFF else 0x00)
    {
      SampleTraceFollowsTable(s0, k);
      SampleAccumulatorAt(k);
    }
  }

  /** The program counter after each call: the JZ at call 5 is not taken, the
      JMP at call 6 goes back to 0, and the JZ at call 11 jumps to the HLT. */
  lemma SampleProgramCounter(s0: State)
    requires SampleStart(s0)
    ensures forall k :: 1 <= k <= 12 ==>
              Call(s0, k).next.cpu.p == [1, 2, 3, 4, 5, 0, 1, 2, 3, 4, 6, 7][k - 1]
  {
    forall k | 1 <= k <= 12
      ensures Call(s0, k).next.cpu.p == [1, 2, 3, 4, 5, 0, 1, 2, 3, 4, 6, 7][k - 1]
    {
      SampleTraceFollowsTable(s0, k);
      SampleCounterAt(k);
    }
  }

  // ---- A reset machine -----------------------------------------------------

  /** A reset machine that has only moved its program counter and
      address register. */
  function Idle(p: Nibble, m: Nibble): State {
    State(Cpu(m := m, p := p, a := 0, b := 0, o := 0,
              ir := InsReg(0, 0), flags := Flags(0, 0), bus := 0),
          InitializeRam())
  }

  /** With zeroed RAM every cycle, whatever the registers hold, fetches a
      NOP: it continues and changes nothing beyond the fetch itself. */
  lemma ZeroedRamRunsNop(s: State)
    requires s.ram == InitializeRam()
    ensures Step(s) == StepResult(Continue, Fetch(s))
  {
    assert NextByte(s) == 0;
    StepNop(s);
  }

  /** Every cell of zeroed memory decodes as NOP. */
  lemma IdleFetchesNop(p: Nibble, m: Nibble)
    ensures NextByte(Idle(p, m)) == 0
    ensures NextOpcode(Idle(p, m)) == NOP
  {
  }

  /** The reset register file with M and P moved, after a fetch of the zero
      byte, is again an idle register file. */
  lemma IdleRegisters(p: Nibble, m: Nibble)
    ensures Idle(p, m).cpu.(m := p, p := NextAddress(p), ir := InsReg(HighNibble(0), Mask4(0)), bus := 0)
            == Idle(NextAddress(p), p).cpu
  {
  }

  /** One cycle of a reset machine whose P and M have moved: it runs a NOP,
      the program counter moves on by one address (wrapping from 15 to 0)
      and the address register keeps the address just fetched. */
  lemma IdleStep(p: Nibble, m: Nibble)
    ensures Step(Idle(p, m)) == StepResult(Continue, Idle(NextAddress(p), p))
  {
    IdleFetchesNop(p, m);
    FetchExactly(Idle(p, m));
    IdleRegisters(p, m);
    ZeroedRamRunsNop(Idle(p, m));
  }

  /** From an idle machine one more call gives the next idle machine. */
  lemma IdleAdvances(s0: State, n: nat, p: Nibble, m: Nibble)
    requires n >= 1 && After(s0, n - 1) == Idle(p, m)
    ensures After(s0, n) == Idle(NextAddress(p), p)
    ensures Call(s0, n).status == Continue
  {
    IdleStep(p, m);
    CallAfter(s0, n, Idle(p, m), Step(Idle(p, m)));
  }

  /** The program counter after `n` idle cycles, counted the way the 4-bit
      register counts. */
  function Tick(n: nat): Nibble {
    if n == 0 then 0 else NextAddress(Tick(n - 1))
  }

  /** The address register after `n` idle cycles: the last address fetched. */
  function LastFetched(n: nat): Nibble {
    if n == 0 then 0 else Tick(n - 1)
  }

  /** Successor modulo 16, as the 4-bit program counter counts. */
  lemma CountWraps(n: nat)
    requires n >= 1
    ensures n % 16 == NextAddress((n - 1) % 16)
  {
    var q := (n - 1) / 16;
    assert n - 1 == 16 * q + (n - 1) % 16;
    if (n - 1) % 16 == 15 {
      assert n == 16 * (q + 1);
    } else {
      assert n == 16 * q + ((n - 1) % 16 + 1);
    }
  }

  /** Counting with the 4-bit register is counting modulo 16. */
  lemma {:induction false} TickIsModulo(n: nat)
    ensures Tick(n) == n % 16
  {
    if n > 0 {
      TickIsModulo(n - 1);
      CountWraps(n);
    }
  }

  /** Both idle counters in closed form: P after `n` cycles is `n` modulo
      16, and M is the previous count modulo 16. */
  lemma CountersAreModulo(n: nat)
    ensures Tick(n) == n % 16
    ensures LastFetched(n) == if n == 0 then 0 else (n - 1) % 16
  {
    TickIsModulo(n);
    if n > 0 {
      TickIsModulo(n - 1);
    }
  }

  /** The reset machine is the idle machine with P and M still at 0. */
  lemma ResetIsIdle()
    ensures Reset() == Idle(0, 0)
  {
  }

  /** After `n` calls from reset the machine is still idle, with P at
      `Tick(n)` and M at the last address fetched. */
  lemma {:induction false} ResetMachineTicks(s0: State, n: nat)
    requires s0 == Idle(0, 0)
    ensures After(s0, n) == Idle(Tick(n), LastFetched(n))
  {
    if n > 0 {
      ResetMachineTicks(s0, n - 1);
      IdleAdvances(s0, n, Tick(n - 1), LastFetched(n - 1));
    }
  }

  /** Zeroed memory is all NOP instructions, so a reset machine never stops:
      after `n` calls the program counter is `n` modulo 16, the address
      register holds the last address fetched, nothing else has changed,
      and the next call continues as well. */
  lemma ResetMachineIdles(s0: State, n: nat)
    requires s0 == Reset()
    ensures After(s0, n) == Idle(n % 16, if n == 0 then 0 else (n - 1) % 16)
    ensures Step(After(s0, n)).status == Continue
  {
    ResetIsIdle();
    ResetMachineTicks(s0, n);
    CountersAreModulo(n);
    IdleStep(Tick(n), LastFetched(n));
  }
}
