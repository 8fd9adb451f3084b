# LS-8 CPU execution engine in Dafny

This project models the execution engine of the LS-8 teaching CPU, a small
byte-code interpreter built around one `CPU` object. The machine has 256
memory cells, eight registers (register 7 is the stack pointer, starting at
0xF4), a program counter `pc`, a flags register `FL` and a running flag `on`.
The `run` loop fetches the byte at `pc` and decodes it through two tables.
The ALU table holds `MUL` and `CMP`. The instruction table holds `NOP`,
`HALT`, `PUSH`, `POP`, `PRN`, `LDI`, `JMP`, `JEQ` and `JNE`. The loop then
runs the ALU on the next two bytes, or calls the handler, or stops on an
unknown byte.

The project has five files:

- `isa.dfy` (module `Isa`): register roles, the flag values, the two dispatch
  tables, `Decode`, the reverse opcode tables and the operand counts.
- `semantics.dfy` (module `Semantics`): the machine as a value `State`.
  It defines `ram_read`, `ram_write`, the byte-copy loop of `load`, the ALU,
  every handler, one fetch-decode-execute `Step`, and the run loop `Loop`/`Run`.
- `properties.dfy` (module `Properties`): lemmas about those functions. They
  cover the initial state, memory round trips, the CMP flags, the MUL effect,
  Python's `&` for the AND operation, the PUSH/POP round trip, the jumps,
  dispatch, and how the run loop ends.
- `scenarios.dfy` (module `Scenarios`): whole programs on a freshly loaded
  machine. They print 50 and 3, show unmasked multiplication, show JNE
  branching before any CMP, report an invalid opcode, and include a program
  that never stops.
- `cpu.dfy` (module `Cpu`): the `CPU` class. `ram` and `register` are arrays
  updated in place. `pc`, `fl`, `on` and `output` are fields. Every method is
  proved to take the object from state `Snapshot()` to exactly the state the
  matching `Semantics` function computes, and every method that changes the
  object keeps `Valid()`: 256 cells and 8 registers.

Registers and memory cells are unbounded integers, because the code never
masks to 8 bits. `PRN` appends the printed value to `output`.

## Model

| member | source | states |
|---|---|---|
| `Semantics.Initial` | cpu.py:8-17 | the constructed machine has 256 cells and 8 registers |
| `Properties.InitialState` | cpu.py:10-17 | after construction SP is 0xF4, registers 0-6 and all 256 cells are 0, pc and FL are 0 |
| `Cpu.CPU.constructor` | cpu.py:8-17 | the new object holds fresh arrays of 256 and 8 cells and exactly the initial state |
| `Cpu.CPU.RamRead` | cpu.py:36-38 | returns the value of the addressed cell and changes nothing |
| `Semantics.RamRead` | cpu.py:36-38 | no contract of its own; `Properties.ReadAfterWrite` and `Properties.WriteBackUnchanged` state what a read returns after a write, and `Cpu.CPU.RamRead` is proved to return it |
| `Cpu.CPU.RamWrite` | cpu.py:40-42 | the new state is the old one with the addressed cell replaced |
| `Semantics.RamWrite` | cpu.py:40-42 | a write keeps the memory at 256 cells |
| `Properties.ReadAfterWrite` | cpu.py:36-42 | reading the written address gives the written value, every other cell reads as before, and nothing but memory changes |
| `Properties.WriteBackUnchanged` | cpu.py:36-42 | writing back the value a cell already holds leaves the state unchanged |
| `Semantics.Load` | cpu.py:56-58 | loading keeps the memory at 256 cells |
| `Properties.LoadPlaces` | cpu.py:56-58 | after loading, address i holds program[i] for i below the program length, every other cell is unchanged, and nothing but memory changes |
| `Cpu.CPU.Load` | cpu.py:56-58 | the copy loop leaves exactly the state of `Semantics.Load`; its invariant says which prefix is written and which cells are untouched |
| `Semantics.Alu` | cpu.py:61-91 | every ALU operation keeps 256 cells and 8 registers |
| `Cpu.CPU.Alu` | cpu.py:61-91 | the in-place ALU leaves exactly the state of `Semantics.Alu` |
| `Properties.CmpFlags` | cpu.py:82-89 | CMP sets FL to exactly one of 4, 2 and 1, and FL is 4 iff reg_a < reg_b, 2 iff reg_a > reg_b, 1 iff they are equal; pc advances by 3 and nothing else changes |
| `Properties.MulEffect` | cpu.py:79-81 | MUL stores the unmasked product in reg_a, leaves every other register, FL and memory, and advances pc by 3 |
| `Properties.AluFrame` | cpu.py:64-89 | every operation advances pc past its opcode and operands and leaves memory, output and the running flag; every operation but CMP writes only reg_a and leaves FL |
| `Semantics.BitAnd` | cpu.py:67-69 | no contract of its own; `Properties.BitAndExamples` and `Properties.BitAndLowBits` check it against Python's `&`, and the three lemmas below state its algebra |
| `Properties.BitAndExamples` | cpu.py:67-69 | 12 & 10 is 8, -6 & 3 is 2 and -8 & -3 is -8: AND acts bit by bit in two's complement, unlike a minimum |
| `Properties.BitAndLowBits` | cpu.py:67-69 | for any sign of x and any k, x & (2^k - 1) is x mod 2^k, so AND with 0xFF yields the low byte |
| `Properties.BitAndBounds` | cpu.py:67-69 | the AND of two non-negative values is non-negative and at most either operand |
| `Properties.BitAndCommutes` | cpu.py:67-69 | AND is commutative for operands of any sign |
| `Properties.BitAndIdempotent` | cpu.py:67-69 | x AND x is x for any sign |
| `Isa.AluTable` | cpu.py:19-22 | no contract of its own; `Isa.DecodeAlu` and `Isa.OnlyMulAndCmpReachable` state which bytes it maps and to what |
| `Isa.InstructionTable` | cpu.py:24-34 | no contract of its own; `Isa.DecodeHandler` states which byte maps to each handler |
| `Isa.Decode` | cpu.py:118-123 | no contract of its own; `Isa.DecodeAlu`, `Isa.DecodeHandler`, `Isa.TablesDisjoint` and `Isa.UnknownOpcodes` state its result for every byte |
| `Isa.TablesDisjoint` | cpu.py:19-34 | no byte is a key of both tables, so checking the ALU table first (cpu.py:118-121) gives every handler opcode its handler |
| `Isa.DecodeAlu` | cpu.py:19-22 | a byte decodes to an ALU operation iff it is that operation's opcode (162 MUL, 167 CMP) |
| `Isa.OnlyMulAndCmpReachable` | cpu.py:19-22 | no byte decodes to ADD, AND, SUB, INC or DEC |
| `Isa.DecodeHandler` | cpu.py:24-34 | a byte decodes to a handler iff it is that handler's opcode |
| `Isa.UnknownOpcodes` | cpu.py:118-123 | a byte is unknown iff it is none of the eleven opcodes of the two tables |
| `Semantics.Execute` | cpu.py:121-122 | running any handler keeps 256 cells and 8 registers |
| `Properties.PcAdvance` | cpu.py:128-182 | HALT leaves pc, a taken jump loads the register named by the operand byte, every other handler advances pc by 1 plus its operand count |
| `Properties.HandlerFrame` | cpu.py:128-182 | no handler writes FL; only PUSH writes memory; only PUSH, POP and LDI write registers; only PRN prints; only HALT clears the running flag |
| `Semantics.Halt` | cpu.py:128-130 | HALT keeps the machine's sizes; `Properties.HaltStopsLoop`, `Properties.HandlerFrame` and `Properties.PcAdvance` state that it only clears the running flag |
| `Semantics.Prn` | cpu.py:132-136 | PRN keeps 256 cells and 8 registers; `Properties.PrnEffect` states its effect |
| `Semantics.Push` | cpu.py:138-144 | PUSH keeps 256 cells and 8 registers; `Properties.PushEffect` states its effect and `Properties.PushPopRoundTrip` its round trip with POP |
| `Properties.PushEffect` | cpu.py:138-144 | PUSH lowers SP by 1, stores the named register at the new SP (the lowered SP itself for `PUSH 7`), advances pc by 2 and changes nothing else |
| `Semantics.Pop` | cpu.py:146-152 | POP keeps 256 cells and 8 registers; `Properties.PopEffect` states its effect and `Properties.PushPopRoundTrip` its round trip with PUSH |
| `Properties.PopEffect` | cpu.py:146-152 | POP loads the cell at SP into the named register, then raises SP by 1 (so `POP 7` leaves SP at the popped value + 1), advances pc by 2 and leaves memory and everything else unchanged |
| `Semantics.Ldi` | cpu.py:154-157 | LDI keeps 256 cells and 8 registers; `Properties.LdiEffect` states its effect |
| `Semantics.Nop` | cpu.py:159-161 | NOP keeps the machine's sizes; `Properties.NopEffect` states that it only advances pc by 1 |
| `Semantics.Jmp` | cpu.py:163-166 | JMP keeps 256 cells and 8 registers; `Properties.JumpEffect` states its effect |
| `Semantics.Jeq` | cpu.py:168-174 | JEQ keeps 256 cells and 8 registers; `Properties.JumpEffect` states its effect |
| `Semantics.Jne` | cpu.py:176-182 | JNE keeps 256 cells and 8 registers; `Properties.JumpEffect` states its effect |
| `Cpu.CPU.Halt` | cpu.py:128-130 | HALT only clears the running flag |
| `Properties.PrnEffect` | cpu.py:132-136 | PRN appends the named register's value to the output, advances pc by 2 and changes nothing else |
| `Cpu.CPU.Prn` | cpu.py:132-136 | the new state is that of `Semantics.Prn` |
| `Cpu.CPU.Push` | cpu.py:138-144 | the new state is that of `Semantics.Push`: SP decremented first, the register stored at the new SP |
| `Cpu.CPU.Pop` | cpu.py:146-152 | the new state is that of `Semantics.Pop`: the cell at SP loaded into the register, then SP incremented |
| `Properties.PushPopRoundTrip` | cpu.py:138-152 | PUSH r1 then POP r2, neither being SP, puts the old r1 in r2, restores SP, keeps the pushed value in the stack cell and advances pc by 4; the whole post-state is stated, so every other register, FL, the output and the running flag are unchanged |
| `Properties.LdiEffect` | cpu.py:154-157 | LDI puts the literal at pc+2 into the register named at pc+1, leaves every other register and memory, and advances pc by 3 |
| `Cpu.CPU.Ldi` | cpu.py:154-157 | the new state is that of `Semantics.Ldi` |
| `Properties.NopEffect` | cpu.py:159-161 | NOP only advances pc by 1 |
| `Cpu.CPU.Nop` | cpu.py:159-161 | the new state is that of `Semantics.Nop` |
| `Properties.JumpEffect` | cpu.py:163-182 | JMP always, JEQ iff FL == 1, JNE iff FL != 1 set pc to the register named by the operand; otherwise pc advances by 2; nothing else changes |
| `Cpu.CPU.Jmp` | cpu.py:163-166 | the new state is that of `Semantics.Jmp` |
| `Cpu.CPU.Jeq` | cpu.py:168-174 | the new state is that of `Semantics.Jeq` |
| `Cpu.CPU.Jne` | cpu.py:176-182 | the new state is that of `Semantics.Jne` |
| `Properties.BranchesBeforeAnyCmp` | cpu.py:13 | with FL still 0 after construction, JNE branches and JEQ does not |
| `Cpu.CPU.HandlerReady` | cpu.py:132-182 | returns true iff every address and register index the handler reads or writes lies inside the arrays |
| `Cpu.CPU.Dispatch` | cpu.py:121-122 | calling the table's handler leaves exactly the state of `Semantics.Execute` |
| `Semantics.Step` | cpu.py:117-125 | a step keeps 256 cells and 8 registers; an invalid opcode or out-of-range access changes nothing; Halted means only the running flag was cleared; output only grows |
| `Properties.StepRunsAlu` | cpu.py:118-120 | an ALU opcode runs exactly its ALU operation on the register indices in the next two bytes |
| `Properties.StepRunsHandler` | cpu.py:121-122 | a handler opcode runs exactly its handler, reporting Halted for HALT and Running otherwise |
| `Properties.StepOutOfRange` | cpu.py:117-122 | an opcode whose operands are out of range stops the machine with no state change |
| `Cpu.CPU.Step` | cpu.py:117-125 | one in-place iteration returns the status, and leaves the state, that `Semantics.Step` computes |
| `Semantics.Loop` | cpu.py:116-125 | the loop ends with Halted iff the running flag is clear, keeps the machine's sizes, and output only grows |
| `Semantics.Run` | cpu.py:113-125 | a run keeps 256 cells and 8 registers |
| `Cpu.CPU.Run` | cpu.py:113-125 | the in-place `while on` loop ends in the state and status that `Semantics.Run` computes |
| `Properties.HaltStopsLoop` | cpu.py:128-130 | after HALT the loop stops with only the running flag cleared and pc unchanged |
| `Properties.InvalidOpcodeStopsLoop` | cpu.py:123-125 | an opcode in neither table ends the loop at once with that opcode and its address, and no state change |
| `Properties.LoopStep` | cpu.py:116-125 | with fuel left and the running flag set, the loop either continues from the step's new state or ends with the step's failed result |
| `Properties.LoopUnfold` | cpu.py:116-122 | a running step consumes one unit of fuel and the loop continues from the new state |
| `Properties.LoopFuelMonotone` | cpu.py:116-125 | a run that halted or failed has the same outcome with any larger fuel bound |
| `Properties.LoopCompose` | cpu.py:116-125 | running n steps and then m more equals running n + m steps |
| `Scenarios.MultiplyPrintsFifty` | cpu.py:113-182 | LDI r0,5; LDI r1,10; MUL r0,r1; PRN r0; HALT halts having printed exactly [50] |
| `Scenarios.StackPrintsThree` | cpu.py:138-152 | LDI r0,3; PUSH r0; LDI r0,0; POP r1; PRN r1; HALT halts having printed exactly [3] |
| `Scenarios.ProductIsNotMasked` | cpu.py:79-81 | 20 * 20 is printed as 400: results are not masked to a byte |
| `Scenarios.JneBranchesBeforeCmp` | cpu.py:176-180 | a JNE run before any CMP branches over a HALT, and the program prints [6] |
| `Scenarios.InvalidOpcodeIsReported` | cpu.py:123-125 | a program whose first byte is 255 stops with InvalidOpcode(255, 0) and the loaded state unchanged |
| `Scenarios.SpinNeverStops` | cpu.py:163-166 | LDI r0,0; JMP r0 is still running after any number of steps |

## Left out

- Reading the program file in `load` (cpu.py:47-55) is not modelled. This covers opening the path given on the command line, comment stripping and parsing binary literals. `Load` takes the resulting sequence of values.
- `trace` (cpu.py:93-111) only prints debug output.
- Console output: `PRN` appends the value to the `output` sequence instead of printing a decimal line. The invalid-instruction message becomes the status `InvalidOpcode(opcode, address)`.
- `sys.exit(1)` after the loop (cpu.py:126) terminates the process. The model's `Run` simply returns a status.
- Out-of-range indices. Python raises `IndexError` for an index past the end of `ram` or `register`, and it wraps negative indices (a `PUSH` with SP = 0 writes `ram[-1]`, the last cell). The model checks every address and register index before an instruction runs. If any is outside the arrays, `Step` returns `OutOfRange` and changes nothing. Python may have changed part of the state before raising (`PUSH` lowers SP before its write), or may have gone on with a wrapped index. Neither is captured.
- Semantics.Load and Cpu.CPU.Load require the program to fit in the 256 cells. For a longer program Python writes the first 256 values and then raises `IndexError`; that partial load is not modelled.
- The `"Unsupported ALU operation"` exception (cpu.py:91) cannot arise: the operation is the datatype `AluOp`, and all of its values are handled.
- Cpu.CPU.Run: the source's `while self.on` loop has no bound. The model allows at most `fuel` steps and reports `Running` if the fuel runs out first. `Scenarios.SpinNeverStops` shows that a program can loop for ever.
- The attribute `on` only exists once `run` starts. The constructor sets it to false, and `Run` sets it to true as the source does.
- The fields `SP`, `IS` and `IM` and the two dispatch dictionaries are never changed after construction. They are modelled as constants and functions in `Isa`, not as fields of the object.
- Where a conventional 8-bit LS-8 would behave differently, the model follows the code:
  - Register writes are not masked to 8 bits.
  - `PUSH` and `POP` check no stack bounds beyond the memory bounds above.
  - `JEQ` and `JNE` compare `FL` with 1 exactly rather than testing bit 0.
  - No `INC`/`DEC` opcode exists, although the ALU implements them with a two-byte length.
