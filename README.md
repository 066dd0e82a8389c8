# LS-8 CPU — a Dafny model of `cpu.py`

`cpu.py` is a small emulator for an 8-bit "LS-8" style machine. Its state is:

- eight general-purpose registers, with register 7 used as the stack pointer (SP);
- 256 memory cells;
- a program counter `pc`;
- an equal flag `fl`.

`load` reads a text program into memory, one binary literal per line. `alu` implements ADD, MUL, CMP and the three jumps. Thirteen `handle_*` methods implement the instructions, and `run` fetches `IR = ram[pc]` forever, dispatching through `branchtable`.

The project has five modules:

- **Machine** (`machine.dfy`) — the value semantics used as the specification.
  - A `State` holds the registers, memory, pc, flag, a `halted` bit and the printed output.
  - Python's list indexing is modelled exactly: index `i` of a list of length `n` is valid for `-n <= i < n`, and a negative index counts from the end.
  - There is one function per handler, plus `Alu`, the dispatch table, one iteration `Step` and a fuel-bounded `Run`.
  - A handler's result is `Ok(state)` or `Err(at, fault)`. `at` is the state at the moment Python raises, so a PUSH or CALL that fails after decrementing SP is modelled faithfully.
  - The invariant `Keeps` is proved for every handler except HLT: sizes are preserved, the flag is never cleared, output only grows, and the machine never halts.
- **Loader** (`loader.dfy`) — `load` as a function over the lines of the program text.
  - `Decode` is the loop, line by line. Its reference reading is `Values(Literals(lines))`: the base-2 value of each non-blank literal, in order.
  - Lemmas relate the two readings in both directions, and show that comments and blank lines are ignored.
  - An 8-bit encoder `Encode` is proved to round-trip through `Decode`.
  - `Boot` is a fresh CPU followed by `load`.
- **Cpu** (`cpu.dfy`) — the `CPU` class itself.
  - `reg` and `ram` are arrays updated in place, `pc` and `fl` are fields, and `branchtable` is a map from opcode to handler.
  - Each method's contract says that the state it leaves, together with the exception it reports, is exactly what the Machine function gives for the state before the call. `Load` states its effect through `Decode`.
- **Properties** (`properties.dfy`) — the effect of each instruction stated outright, plus:
  - the error conditions;
  - PUSH/POP and CALL/RET pairing;
  - the dispatch (known opcode, unknown opcode, fetch outside memory);
  - HLT being terminal;
  - splitting a run into two.
- **Programs** (`programs.dfy`) — two whole programs, taken from their text to their last instruction.
  - The multiply example prints 72.
  - A CALL/RET subroutine example prints 42 and leaves SP where it started.

## Where the model follows the code rather than the LS-8 description

- SP starts at 0, not at 0xF4 (`cpu.py:27`, where all registers are set to 0). The first PUSH therefore moves SP to -1 and writes `ram[255]` (`Properties.FirstPushWritesLastCell`).
- ADD and MUL do not wrap to 8 bits: registers and cells hold unbounded integers (`cpu.py:83`, `cpu.py:85`).
- CMP never clears the flag. It sets `fl` when the registers are equal and otherwise leaves it as it was (`cpu.py:87-89`). Once set, the flag stays set for the rest of a run.
- Addresses and register numbers out of range raise Python's IndexError, and negative ones in `[-n, 0)` index from the end. The model has no separate "out of bounds" halt.
- HLT's `sys.exit(0)` is modelled as a terminal `halted` state. Stepping a halted machine changes nothing.

## Model

| member | source | states |
|---|---|---|
| Machine.Init | cpu.py:25-30 | a fresh CPU has every register (SP included) and every memory cell 0, pc 0 and the flag clear |
| Machine.Slot | cpu.py:48 | Python list indexing: index i of a length-n list is valid exactly when -n <= i < n, and then selects cell (i + n) mod n |
| Machine.Index | cpu.py:46-50 | reading xs[i] returns a value exactly when i is a valid Python index, and then the cell it selects |
| Machine.RamRead | cpu.py:46-50 | ram_read succeeds exactly for -256 <= mar < 256 and returns the selected cell; otherwise it raises IndexError with nothing changed |
| Machine.RegRead | cpu.py:141 | reading a register succeeds exactly for an index in [-8, 8) and returns that register; otherwise IndexError |
| Machine.RamWrite | cpu.py:52-54 | ram_write succeeds exactly for a valid index and then changes that one cell alone; otherwise IndexError and no change |
| Machine.RegWrite | cpu.py:135 | writing a register succeeds exactly for a valid index and changes that register alone; otherwise IndexError |
| Machine.Alu | cpu.py:79-109 | alu keeps the sizes of reg and ram, never clears fl and never halts; it raises "Unsupported ALU operation" exactly for an op name other than ADD, MUL, CMP, JMP, JEQ, JNE |
| Machine.Hlt | cpu.py:166-167 | HLT halts the machine and changes nothing else |
| Machine.Ldi | cpu.py:131-136 | LDI keeps the sizes of reg and ram, never clears fl, only appends output, never halts and never raises KeyError; its exact effect is Properties.LdiEffect |
| Machine.Prn | cpu.py:138-142 | the same invariant for PRN; effect in Properties.PrnEffect |
| Machine.Mul | cpu.py:144-149 | the same invariant for MUL; effect in Properties.ArithmeticEffect |
| Machine.Add | cpu.py:151-156 | the same invariant for ADD; effect in Properties.ArithmeticEffect |
| Machine.Cmp | cpu.py:158-163 | the same invariant for CMP; effect in Properties.CmpEffect |
| Machine.Pop | cpu.py:169-176 | the same invariant for POP; effect in Properties.PopEffect |
| Machine.Push | cpu.py:178-185 | the same invariant for PUSH, including the state with SP decremented that a failing write leaves; effect in Properties.PushEffect |
| Machine.Call | cpu.py:187-197 | the same invariant for CALL, including the state with SP decremented (and maybe the return address stored) that a failing CALL leaves; effect in Properties.CallEffect |
| Machine.Ret | cpu.py:200-204 | the same invariant for RET; effect in Properties.RetEffect |
| Machine.Jmp | cpu.py:206-211 | the same invariant for JMP; effect in Properties.JumpEffect |
| Machine.Jeq | cpu.py:214-218 | the same invariant for JEQ; effect in Properties.JumpEffect |
| Machine.Jne | cpu.py:221-225 | the same invariant for JNE; effect in Properties.JumpEffect |
| Machine.Opcode | cpu.py:6-18 | each of the thirteen opcode constants is a byte |
| Machine.OpcodesDistinct | cpu.py:6-18 | the thirteen opcode constants are pairwise distinct, so the thirteen branchtable assignments give thirteen different keys |
| Machine.BranchTableInverse | cpu.py:31-44 | branchtable (the map BranchTable) has exactly the thirteen opcodes as keys, and each key maps to the handler with that opcode |
| Machine.Execute | cpu.py:31-44 | calling branchtable[IR]: HLT halts without another change; every other handler keeps sizes, never clears fl and never raises KeyError |
| Machine.Step | cpu.py:233-235 | one fetch-and-dispatch keeps the state well-formed, never clears fl, only appends output, and the machine is halted afterwards exactly when it was already halted or it just executed HLT |
| Machine.Run | cpu.py:228-235 | at most fuel iterations of run: output only grows, fl is never cleared, a halted machine stays put, and a run ending halted ended without an exception |
| Machine.Resume | cpu.py:233-235 | run continues after an iteration that returned, and stops with that state and the exception after one that raised |
| Loader.BeforeComment | cpu.py:64-65 | line.split("#")[0] is the longest prefix without '#', ended by the first '#' if there is one |
| Loader.TrimLeft | cpu.py:67 | the leading-whitespace half of strip() never lengthens the text; Loader.TrimLeftSpec characterises it |
| Loader.TrimRight | cpu.py:67 | the trailing-whitespace half of strip() never lengthens the text; Loader.TrimRightSpec characterises it |
| Loader.TrimLeftSpec | cpu.py:67 | lstrip removes exactly the leading whitespace run and leaves the rest, so the result starts with no whitespace |
| Loader.TrimRightSpec | cpu.py:67 | rstrip removes exactly the trailing whitespace run, so the result ends with no whitespace |
| Loader.StripSpec | cpu.py:67 | strip() (Loader.Strip) returns a contiguous slice of the line with only whitespace outside it, and starting and ending with no whitespace |
| Loader.BinaryValue | cpu.py:71 | int(num, 2) of an n-digit binary literal is below 2^n |
| Loader.ParseLine | cpu.py:64-71 | a line is blank exactly when its text before '#', stripped, is empty; a value only when that literal is all binary digits, with value below 2^length; invalid only when some character of the literal is not a binary digit, and then it carries that literal |
| Loader.Feed | cpu.py:63-73 | one iteration of load's loop appends at most one byte, never changes bytes already written, and after an exception nothing follows |
| Loader.Decode | cpu.py:59-73 | load writes at most 256 cells, all non-negative |
| Loader.DecodeReadsLiterals | cpu.py:59-73 | when every literal is binary and there are at most 256, memory receives exactly their base-2 values in order from address 0 |
| Loader.DecodeSucceeds | cpu.py:59-73 | load finishes without an exception exactly when every non-blank literal is binary and there are at most 256 of them |
| Loader.BlankLineIgnored | cpu.py:68-70 | a line that is empty after removing its comment and whitespace can be deleted anywhere without changing what is loaded |
| Loader.CommentIgnored | cpu.py:64-65 | a line with a '#' comment parses as its text before the '#' |
| Loader.DecodeErrorSticks | cpu.py:61-73 | once a line raises, the lines after it change nothing: the exception ends the loop |
| Loader.LoadBlank | cpu.py:68-70 | a blank line consumes no address |
| Loader.LoadInvalid | cpu.py:71 | a non-binary literal raises ValueError and the load ends with the bytes written so far |
| Loader.LoadFull | cpu.py:72 | a 257th value raises IndexError on the write and the load ends with the 256 bytes written |
| Loader.LoadValue | cpu.py:71-73 | a binary literal is written at the next address |
| Loader.BitsValue | cpu.py:71 | the w-digit binary rendering of any n < 2^w parses back to n |
| Loader.DecodeEncode | cpu.py:59-73 | encoding any sequence of at most 256 bytes as binary text lines and loading it gives back exactly those bytes, without an exception |
| Loader.Boot | cpu.py:25-73 | a fresh CPU after load holds the loaded bytes from address 0, zeros after them and the initial registers, pc and flag; it fails exactly when load raises, with the same exception |
| Cpu.CPU.constructor | cpu.py:25-44 | the object's registers, memory, pc and flag are the initial state, with the thirteen-entry branchtable |
| Cpu.CPU.RamRead | cpu.py:46-50 | ram_read on the array is Python indexing of its contents |
| Cpu.CPU.RamWrite | cpu.py:52-54 | writing the array has exactly the effect, or the IndexError, of Machine.RamWrite |
| Cpu.CPU.Load | cpu.py:56-73 | the loop writes exactly the bytes Decode gives to addresses 0, 1, ..., leaves the later cells as they were and reports Decode's exception |
| Cpu.CPU.Alu | cpu.py:79-109 | in-place alu has the effect and the exception of Machine.Alu |
| Cpu.CPU.HandleLdi | cpu.py:131-136 | the in-place handler leaves exactly the state, and raises exactly the exception, of Machine.Ldi |
| Cpu.CPU.HandlePrn | cpu.py:138-142 | as for LDI, against Machine.Prn; printing appends to the output |
| Cpu.CPU.HandleMul | cpu.py:144-149 | as for LDI, against Machine.Mul |
| Cpu.CPU.HandleAdd | cpu.py:151-156 | as for LDI, against Machine.Add |
| Cpu.CPU.HandleCmp | cpu.py:158-163 | as for LDI, against Machine.Cmp |
| Cpu.CPU.HandleHlt | cpu.py:166-167 | the object is halted and otherwise unchanged |
| Cpu.CPU.HandlePop | cpu.py:169-176 | as for LDI, against Machine.Pop |
| Cpu.CPU.HandlePush | cpu.py:178-185 | as for LDI, against Machine.Push, including the decremented SP left behind when the write raises |
| Cpu.CPU.HandleCall | cpu.py:187-197 | as for LDI, against Machine.Call: SP moves and the return address is stored before the operand is read |
| Cpu.CPU.HandleRet | cpu.py:200-204 | as for LDI, against Machine.Ret |
| Cpu.CPU.HandleJmp | cpu.py:206-211 | as for LDI, against Machine.Jmp |
| Cpu.CPU.HandleJeq | cpu.py:214-218 | as for LDI, against Machine.Jeq |
| Cpu.CPU.HandleJne | cpu.py:221-225 | as for LDI, against Machine.Jne |
| Cpu.CPU.Step | cpu.py:233-235 | fetch and dispatch on the object has exactly the effect and the exception of Machine.Step, including KeyError for an unknown opcode |
| Cpu.CPU.Run | cpu.py:228-235 | the while loop, bounded by fuel, ends in exactly the state and exception of Machine.Run |
| Properties.LdiEffect | cpu.py:131-136 | for every pc and register number Python's indexing accepts, negative ones included: LDI sets the register its first operand names to its second operand, advances pc by exactly 3 and changes nothing else |
| Properties.LdiFault | cpu.py:131-136 | LDI raises exactly when an operand address or the named register is out of range, and then nothing has changed |
| Properties.PrnEffect | cpu.py:138-142 | for every pc and register number Python's indexing accepts, negative ones included: PRN appends the named register to the output, advances pc by 2 and changes nothing else |
| Properties.ArithmeticEffect | cpu.py:144-156 | for every pc and register number Python's indexing accepts, negative ones included: ADD and MUL set reg[a] to reg[a]+reg[b] or reg[a]*reg[b] with no wrap-around, leave every other register (so reg[b] unless b == a) unchanged, and advance pc by 3 |
| Properties.CmpEffect | cpu.py:158-163 | for every pc and register number Python's indexing accepts, negative ones included: CMP makes fl true when the two registers are equal and otherwise leaves it unchanged; pc advances by 3 and nothing else changes |
| Properties.JumpEffect | cpu.py:206-225 | for every pc and register number Python's indexing accepts, negative ones included: JMP sets pc to reg[a]; JEQ does so when fl is set and otherwise skips to pc+2; JNE the opposite; none touches reg, ram or fl |
| Properties.UntakenJumpReadsNoRegister | cpu.py:94-104 | whenever the operand cell pc+1 is a valid index: JEQ with fl clear and JNE with fl set skip to pc+2 whatever register the operand names |
| Properties.OperandFaults | cpu.py:138-163 | PRN raises exactly when its operand cell is out of range or names no register; ADD, MUL and CMP exactly when either operand does; each raises before changing anything |
| Properties.JumpFaults | cpu.py:206-225 | JMP raises exactly when its operand names no register; JEQ and JNE exactly when the operand cell is out of range or, when they would jump, it names no register; none has changed anything when it raises |
| Properties.StackFaults | cpu.py:169-185 | POP raises exactly when its operand names no register or SP selects no cell, RET exactly when SP selects no cell, both with nothing changed; PUSH raises exactly when its operand names no register (nothing changed) or SP-1 selects no cell (IndexError with SP already decremented and nothing else changed) |
| Properties.CallFaults | cpu.py:187-197 | CALL decrements SP first; if SP-1 selects no cell it raises IndexError on the store with only SP changed; otherwise it raises exactly when its operand, read after the store, names no register, and then it has stored pc+2 in the selected cell and changed nothing else |
| Properties.PushEffect | cpu.py:178-185 | for every pc and register number Python's indexing accepts, negative ones included: PUSH decrements SP, stores the register read before the decrement in the cell SP-1 selects, and advances pc by 2 |
| Properties.PopEffect | cpu.py:169-176 | for every pc and register number Python's indexing accepts, negative ones included: POP copies the cell SP selects into the register, then increments SP (so a POP into SP increments the popped value), and advances pc by 2 |
| Properties.CallEffect | cpu.py:187-197 | for every pc and register number Python's indexing accepts, negative ones included: CALL decrements SP, stores pc+2 in the cell SP-1 selects and jumps to the value of the register named by the operand as read after that store, with reg read after SP has moved; this includes the store overwriting the operand cell |
| Properties.RetEffect | cpu.py:200-204 | RET sets pc to the top of the stack and increments SP |
| Properties.PushThenPop | cpu.py:169-185 | after PUSH r, a POP from any later state with the same SP and stack top, whose operand (negative ones included) names a register other than SP, yields the old reg[r], restores SP and advances pc by 2 |
| Properties.CallThenRet | cpu.py:187-204 | after CALL, a RET (same SP and stack top) returns to the CALL's address + 2 and restores SP |
| Properties.FirstPushWritesLastCell | cpu.py:178-184 | on a fresh CPU SP is 0, so the first PUSH sets SP to -1 and writes ram[255] |
| Properties.StepDispatch | cpu.py:234-235 | for every pc that selects a cell, negative ones included: when that cell holds an opcode, an iteration runs exactly that opcode's handler |
| Properties.UnknownOpcodeFaults | cpu.py:234-235 | for every pc that selects a cell: an iteration raises KeyError with nothing changed exactly when the cell is none of the thirteen opcodes |
| Properties.FetchOutsideMemory | cpu.py:234 | a pc that selects no cell, i.e. outside [-256, 256), raises IndexError on the fetch with nothing changed |
| Properties.HaltIsTerminal | cpu.py:166-167 | for every pc that selects a cell holding HLT: the iteration halts with nothing else changed, and any run from there ends in that halted state with no exception |
| Properties.JumpThroughSp | cpu.py:206-211 | with SP at -1 after a first PUSH, JMP R7 sets pc to -1, and the next iteration dispatches on ram[255] |
| Properties.RunSplit | cpu.py:231-235 | running m + n iterations is running m, then n more, unless the first m ended in an exception |
| Programs.BootHolds | cpu.py:56-73 | loading program text whose literals are a program yields a CPU holding the program from address 0, pc 0, zero registers and no output |
| Programs.MultiplyText | cpu.py:59-73 | the binary text of the multiply example loads as its twelve bytes |
| Programs.MultiplyPrints72 | cpu.py:228-235 | the example LDI R0,8; LDI R1,9; MUL R0,R1; PRN R0; HLT prints exactly [72] and halts without an exception |
| Programs.SubroutineText | cpu.py:59-73 | the binary text of the subroutine example loads as its bytes |
| Programs.SubroutinePrints42 | cpu.py:228-235 | the example calls a subroutine that sets R0 to 42 and returns, then prints exactly [42], halts without an exception and has SP back at 0 |

## Left out

- Opening the file, `sys.argv[1]` overriding the parameter, and the "File not found" / `sys.exit(2)` path (`cpu.py:60-62`, `cpu.py:74-76`): these are operating-system I/O, so the loader takes the lines of the text as a `seq<string>`.
- Python's full `int(num, 2)` grammar: only literals made of the digits 0 and 1 are accepted. A sign, a `0b` prefix, underscores or non-ASCII digits make the line an `InvalidLiteral` failure, standing in for ValueError.
- `strip()` is modelled over a fixed list of the code points Python treats as whitespace. The Unicode database behind that list is not modelled.
- The printing in PRN: it is modelled as appending the value to an output sequence `out`. The text written to standard output is not modelled.
- `trace` (`cpu.py:111-129`): a debugging aid that only prints.
- HLT's `sys.exit(0)`: modelled as a terminal `halted` state, not as ending the process.
- The unbounded `while running` loop in `run`: modelled as `Step` plus a fuel-bounded `Run`, because `running` is never cleared and the loop has no termination guarantee. A run that would go on forever is described only by its finite prefixes.
- The text of the exception messages: exceptions are the `Fault` values `RamIndexError`, `RegIndexError`, `UnknownOpcode`, `UnsupportedAluOperation` and `InvalidLiteral`.
- The jump handlers pass `None` as `alu`'s second register. The model passes 0, which none of the jumps ever reads.
- Python's dynamic typing: memory cells and registers hold integers. The case where a jump or RET sets pc to a non-integer cannot arise from `load`, which only writes integers.
