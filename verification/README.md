# SAP-1 emulator core in Dafny

A model of the SAP-1 ("Simple As Possible") virtual machine: an 8-bit
accumulator machine with a 4-bit program counter, a 4-bit memory-address
register, a 9-bit internal bus, two one-bit flags (carry `CF` and zero `ZF`)
and sixteen bytes of RAM. The emulator runs one instruction per call of
`ExecuteProgram` and reports 0 (keep going), 1 (`HLT` reached) or -1 (a
reserved opcode).

The model has one module per concern:

- `Bits` (`bits.dfy`): the register widths as subset types (`Byte`,
  `Nibble`, `Bit`, `Bus9`), the truncation each C bit-field assignment
  performs, the `ASM` macro, and the facts about the 9-bit bus that ADD and
  SUB rely on.
- `Isa` (`isa.dfy`): the sixteen opcodes, their numbering, and which five
  are reserved.
- `Machine` (`machine.dfy`): the register file, the 16-cell RAM, reset, the
  built-in sample program, and the truncating program load and save.
- `Snapshot` (`snapshot.dfy`): the VM-state snapshot (`GetVMState`).
- `Engine` (`engine.dfy`): fetch, the eleven operations and one full
  instruction cycle (`Step`, modelling `ExecuteProgram`), together with
  per-cycle properties about the program counter, flags, memory, output
  and accumulator.
- `Traces` (`traces.dfy`): repeated cycles, the run of the built-in
  program call by call, and the endless NOP loop of a reset machine.

The emulator keeps the CPU and RAM in two process-wide variables and
mutates them. Here a `State` is an immutable value and every operation
returns a new one; a cycle returns a `StepResult` holding its status and the
next state. Each operation body is written as the sequence of register
transfers the C code performs (bus loads, bit-field stores, masks), so every
truncation of the original appears in the model; the contracts then say what
the instruction means at the level of the architecture.

Two points worth knowing about the original:

- The comment above `ExecuteProgram` (src/sap1.c:197-202) speaks of four
  unimplemented instructions, but the enumeration (src/sap1.h:20-27) has
  five reserved opcodes, `NI0` to `NI4`, and the dispatch returns -1 for
  all five. The model follows the code: `Isa.ReservedCodes` proves exactly
  five codes (9 to 13) are reserved, and `Engine.Step` returns
  `InvalidOpcode` exactly for bytes 0x90 to 0xDF.
- `LDI` loads the whole instruction byte rebuilt from the instruction
  register, not the bare operand, so the loaded value is 0x50 plus the
  operand. The model keeps this behaviour (`Engine.ExLdi`), and proves the
  loaded value never equals the operand.

## Model

| member | source | states |
|---|---|---|
| `Bits.AsmIsShiftOr` | src/sap1.h:15 | shifting I left by 4 and or-ing in O, on 8-bit words, equals opcode times 16 plus operand whenever both are nibbles |
| `Bits.DecodeIsShiftAnd` | src/sap1.c:212-213 | `>> 4` and `& 0xF` on a byte give its high and low nibble |
| `Bits.AsmSplit` | src/sap1.h:15 | splitting an assembled byte gives back the opcode and operand it was built from |
| `Bits.AsmFitsBus` | src/sap1.c:291 | an assembled instruction byte is stored on the 9-bit bus unchanged |
| `Bits.AsmJoin` | src/sap1.c:211-213 | every byte is the assembly of its own two nibbles, so splitting at fetch loses nothing |
| `Bits.SumOnBus` | src/sap1.c:324-326 | the sum of two bytes fits the 9-bit bus, its low byte is the sum mod 256, and bit 8 is set exactly when the sum exceeds 255 |
| `Bits.DifferenceOnBus` | src/sap1.c:353-355 | a difference stored in the 9-bit bus has the difference mod 256 as its low byte, and bit 8 is set exactly when A < B |
| `Isa.FromCode` | src/sap1.h:23-27 | decoding a nibble gives the opcode with that number, and an implemented one exactly when the nibble is outside 9..13 |
| `Isa.CodeRoundTrip` | src/sap1.h:23-27 | decoding an opcode's number gives the opcode back, so the numbering is one-to-one |
| `Isa.ReservedCodes` | src/sap1.h:20-27 | exactly five codes, 9 to 13, are reserved opcodes |
| `Machine.InitializeCpu` | src/sap1.c:106-123 | a freshly initialized CPU holds zero in every register, both flags and the bus |
| `Machine.InitializeRam` | src/sap1.c:126-133 | a freshly initialized RAM has sixteen cells, all zero |
| `Machine.SampleProgram` | src/sap1.c:136-155 | cells 0 to 6 decode to LDA 0xF, ADD 0xE, STA 0xF, OUT, JZ 6, JMP 0, HLT; cells 7 to 13 are zero; cell 0xE holds 1 and cell 0xF holds 0xFE |
| `Machine.CopyCount` | src/sap1.c:166-171 | the number of bytes copied is the smaller of the requested length and 16 (negative when the length is) |
| `Machine.CopyFrom` | src/sap1.c:173-174 | the copy loop sets cells `i` up to `max` from the source and leaves every other cell alone |
| `Machine.LoadProgram` | src/sap1.c:161-175 | after a load, each RAM cell below the length holds the program byte and every other cell keeps its old value |
| `Machine.SaveProgram` | src/sap1.c:181-195 | after a save, each buffer entry below both the length and 16 holds the RAM cell and every other entry is left as it was |
| `Machine.SaveAfterLoad` | src/sap1.c:157-195 | saving a just-loaded program returns its first min(length, 16) bytes |
| `Machine.LoadAfterSave` | src/sap1.c:157-195 | loading back a just-saved buffer leaves RAM unchanged |
| `Machine.LoadTruncates` | src/sap1.c:157-175 | a program longer than RAM loads as exactly its first 16 bytes |
| `Snapshot.GetVmState` | src/sap1.c:54-91 | a snapshot exists exactly when both allocations succeed, and then holds the CPU record and all sixteen RAM cells |
| `Snapshot.SnapshotDeterminesState` | src/sap1.c:65-82 | two machine states with equal snapshots are equal: the snapshot copies everything |
| `Engine.Fetch` | src/sap1.c:206-214 | fetch sets M to P, loads the byte at P into the bus and instruction register, advances P with wrap from 15 to 0, and touches nothing else |
| `Engine.FetchDecodes` | src/sap1.c:211-213 | fetching an assembled byte decodes exactly its opcode and operand |
| `Engine.FetchExactly` | src/sap1.c:206-214 | fetch changes exactly M, P, the instruction register and the bus |
| `Engine.ExNop` | src/sap1.c:273-282 | NOP returns 0 and changes nothing |
| `Engine.ExLda` | src/sap1.c:286-303 | LDA loads RAM[operand] into A and sets M to the operand; nothing else changes but the bus |
| `Engine.ExAdd` | src/sap1.c:311-332 | ADD sets B to RAM[operand] and A to the sum mod 256, CF exactly when the sum exceeds 255 and ZF exactly when the new A is 0; P, O, IR and RAM unchanged |
| `Engine.ExSub` | src/sap1.c:340-361 | SUB sets A to the difference mod 256, CF exactly when A < B (a borrow) and ZF exactly when the new A is 0; P, O, IR and RAM unchanged |
| `Engine.ExSta` | src/sap1.c:365-382 | STA writes A into RAM[operand] and leaves every other cell alone |
| `Engine.ExLdi` | src/sap1.c:386-398 | LDI loads 0x50 plus the operand into A, which is never the operand itself; nothing else changes but the bus |
| `Engine.ExJmp` | src/sap1.c:403-415 | JMP sets P to the operand and leaves the rebuilt instruction byte on the bus; nothing else changes |
| `Engine.ExJc` | src/sap1.c:420-436 | JC jumps, clears CF and leaves the rebuilt instruction byte on the bus exactly when CF is set, otherwise the state is unchanged; ZF is never touched |
| `Engine.ExJz` | src/sap1.c:441-457 | JZ jumps, clears ZF and leaves the rebuilt instruction byte on the bus exactly when ZF is set, otherwise the state is unchanged; CF is never touched |
| `Engine.ExOut` | src/sap1.c:462-474 | OUT copies A into the output register and changes nothing else but the bus |
| `Engine.ExHlt` | src/sap1.c:479-488 | HLT reports a halt and changes nothing |
| `Engine.Step` | src/sap1.c:203-252 | one cycle returns 1 exactly for bytes 0xF0 and up, -1 exactly for bytes 0x90 to 0xDF, and 0 otherwise; a halt or a reserved opcode leaves the state as fetch left it |
| `Engine.StepNop` | src/sap1.c:218-219 | a NOP cycle is a fetch and nothing more |
| `Engine.InvalidOpcodeKeepsState` | src/sap1.c:248-251 | a reserved opcode returns -1 with A, B, O, both flags and RAM as they were |
| `Engine.StepProgramCounter` | src/sap1.c:214 | after a cycle P is the operand when a jump is taken and (P + 1) mod 16 otherwise |
| `Engine.StepFlags` | src/sap1.c:425-450 | only ADD, SUB and a taken JC or JZ change the flags, and a taken conditional jump clears its own flag only |
| `Engine.StepMemory` | src/sap1.c:375-376 | only STA writes RAM, and it writes A into the operand's cell |
| `Engine.StepOutput` | src/sap1.c:467-468 | only OUT changes the output register, and it copies A there |
| `Engine.StepOperandRegister` | src/sap1.c:319-320 | only ADD and SUB change B, and both load it with RAM[operand] (likewise at lines 348-349) |
| `Engine.StepAddressRegister` | src/sap1.c:291-292 | after a cycle M is the operand for LDA, ADD, SUB and STA (likewise at lines 315, 344, 371) and the address fetch read otherwise |
| `Engine.StepAccumulator` | src/sap1.c:296-392 | after a cycle A is RAM[operand] for LDA, the wrapped sum for ADD, the wrapped difference for SUB, 0x50 plus the operand for LDI, and unchanged otherwise |
| `Traces.SampleProgramBytes` | src/sap1.c:139-154 | the built-in program is the byte sequence 1F 2E 4F E0 86 60 F0, seven zeros, 01 FE |
| `Traces.SampleTraceFollowsTable` | src/sap1.c:136-155 | running the built-in program from a zeroed CPU passes through the given table of states for twelve calls, the last one halting |
| `Traces.SampleStatuses` | src/sap1.c:139-145 | calls 1 to 11 of the built-in program return 0 and call 12, the HLT, returns 1 |
| `Traces.SampleOutputs` | src/sap1.c:142 | the output register shows 0xFF from call 4 and 0x00 from call 10 |
| `Traces.SampleFlags` | src/sap1.c:140-143 | both flags are clear until call 8, whose sum wraps and sets both; the JZ at call 11 clears ZF and leaves CF set |
| `Traces.SampleAccumulator` | src/sap1.c:139-141 | A is 0xFE after call 1, 0xFF after call 2, and 0 from call 8 |
| `Traces.SampleProgramCounter` | src/sap1.c:143-145 | P after each call shows the untaken JZ at call 5, the jump back to 0 at call 6 and the taken JZ at call 11 |
| `Traces.ZeroedRamRunsNop` | src/sap1.c:273-282 | with zeroed RAM and any register contents, a cycle fetches a NOP, returns 0 and changes nothing beyond the fetch |
| `Traces.IdleStep` | src/sap1.c:218-219 | on a reset machine whose P and M have moved, a cycle runs a NOP: P moves on with wrap, M holds the address fetched, all else stays zero, the call returns 0 |
| `Traces.TickIsModulo` | src/sap1.c:214 | counting with the 4-bit program counter is counting modulo 16 |
| `Traces.ResetMachineIdles` | src/sap1.c:105-133 | after any number of calls from reset the machine has P at n mod 16, M at the last address fetched, everything else zero, and keeps returning 0 |

## Left out

- Pacing: `cpu_wait`, `SetClock`, the `CLK` variable and every `WAIT` call only delay the host and never change the state, so they are not modelled.
- Memory management: `CleanVM`, `free` and the `MEMCHECK` message on standard error are not modelled; `Snapshot.GetVmState` takes the outcome of its two allocations as two booleans, and either failure gives `None`.
- `GetCPU` returns the CPU record by value; in the model that is just `s.cpu`, so it has no member of its own.
- `src/main.c`, the host loop that calls the engine and prints the output register, is not part of this model; `Traces.After` stands for repeated calls.
- Machine.LoadProgram: demands at least min(length, 16) bytes in the caller's array, the bytes the C loop reads; the C code reads past a shorter array without a check, and that undefined behaviour is not modelled.
- Machine.SaveProgram: demands room for min(length, 16) bytes in the caller's buffer, for the same reason.
- The snapshot's RAM is `unsigned int` in C; the model widens each cell to a natural number and does not model the C integer width.
- The width invariant (every register within its field width) is carried by the subset types of `Bits` rather than by a separate predicate.
