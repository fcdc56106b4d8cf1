# LS-8 CPU, modelled and verified in Dafny

This project models the `CPU` class of an LS-8 emulator (`cpu.py`). The LS-8
is an 8-bit teaching computer with 256 bytes of memory and eight registers.
Register 7 is the stack pointer. It also has three comparison flags, E, L and G.

The model has two layers.

* `Semantics` (semantics.dfy) is the machine as values. `Machine` holds the
  object's fields, and each of the twelve handlers is a function from machine to
  machine. `Next` is one iteration of the loop in `run`, and `Loop`/`Run` is that
  loop bounded by fuel. List accesses follow Python's rules: an index `i` of a
  list of length `n` is valid when `-n <= i < n`, and a negative index counts
  from the end. Any access that would raise `IndexError` or `KeyError` yields a
  `Fault` instead.
* `Ls8.Cpu` (ls8.dfy) is the object itself:
  * memory and registers are arrays updated in place;
  * `pc`, the flags, `running` and the printed output are fields;
  * there is one method per handler, plus `ram_read`, `ram_write`, `alu`,
    `load` and `run`.

  Each method is proved to agree with its value-level definition. On success
  the new state is the state that definition computes. On a fault, the
  list-access methods, the handlers and `Step` report the same fault and
  change nothing. `Run` reports the fault with the state left by the
  iterations before the faulting one. `Load` reports it with every cell
  stored before the faulting line kept, as `load` does.

The other modules hold the rest:

* `Isa` (isa.dfy) has the opcode bytes, the dispatch table, and how `run`
  decodes an instruction's size and its "sets PC" bit.
* `Bits` (bits.dfy) defines bitwise AND on naturals.
* `Loader` (loader.dfy) covers the line rule of `load`, including the syntax
  Python's `int(text, 2)` accepts.
* `Properties` (properties.dfy) states what each instruction and the run loop
  promise.
* `Wrappers` (wrappers.dfy) provides `Option` and `Result`.

Two things are worth knowing before reading the table.

* The size mask in the run loop is the decimal number `11000000`, not
  `0b11000000`. It still selects bits 7-6 of every byte; `SizeMaskIsTopTwoBits`
  proves this.
* `ret` does not read the return address (see "## Findings"). The dispatch
  table, the run loop and `Ls8.Cpu.Ret` keep `ret` as written. The intended
  RET is defined beside it (`Semantics.ExecRet`), and the CALL/RET round trip
  is proved for that one.

## Model

| member | source | states |
|---|---|---|
| Bits.BitAnd | cpu.py:196-197 | `a & b` on naturals is at most either operand |
| Bits.BitAndLowBits | cpu.py:196 | two masks that agree on the low `k` bits select the same bits of any number below 2^k |
| Bits.BitAndEvenMask | cpu.py:196-197 | ANDing with an even mask `2c` is twice ANDing the number halved with `c` |
| Bits.BitAndOne | cpu.py:197 | `a & 1` is the lowest bit of `a` |
| Isa.Dispatch | cpu.py:28-40 | the branch table finds a handler exactly for the registered opcodes, and the handler found is the one registered under that byte; for any other byte there is none (the KeyError) |
| Isa.DispatchOpcode | cpu.py:5-16 | the twelve opcodes are distinct: each handler is found under its own byte |
| Isa.SizeMaskIsTopTwoBits | cpu.py:196 | on every byte, the decimal mask 11000000 selects exactly what 0b11000000 selects |
| Isa.TopTwoBits | cpu.py:196 | masking a byte with 0b11000000 keeps bits 7-6 in place and clears the rest |
| Isa.SizeOf | cpu.py:196 | `((op & 11000000) >> 6) + 1`, the instruction size; stated by Isa.SizeDecode and Isa.OpcodeLayout |
| Isa.SizeDecode | cpu.py:196 | the decoded instruction size is bits 7-6 of the opcode plus one, between 1 and 4 |
| Isa.SetsPc | cpu.py:197-199 | `op & 0b00010000` compared with `0b00010000`, the "sets PC" test; stated by Isa.PcSetDecode and Isa.OpcodeLayout |
| Isa.PcSetDecode | cpu.py:197-199 | the "sets PC" test holds exactly when bit 4 of the opcode is set |
| Isa.OpcodeFields | cpu.py:5-16 | for each of the twelve opcodes, bits 7-6 give its operand count and bit 4 is set exactly for CALL, RET, JMP, JEQ and JNE |
| Isa.OpcodeLayout | cpu.py:5-16 | for each opcode, the size `run` decodes is its operand count plus one, and it sets PC itself exactly when it is CALL, RET, JMP, JEQ or JNE |
| Semantics.Slot | cpu.py:136 | a valid Python index designates a cell inside the list |
| Semantics.Fresh | cpu.py:23-44 | a new CPU has 256 memory cells and 8 registers |
| Semantics.ReadRam | cpu.py:135-136 | `ram_read` succeeds exactly on a valid Python index of memory |
| Semantics.ReadReg | cpu.py:50 | reading a register succeeds exactly on a valid Python index of the register list |
| Semantics.WriteRam | cpu.py:138-139 | `ram_write` succeeds exactly on a valid index, keeps memory's length and leaves the registers alone |
| Semantics.WriteReg | cpu.py:56 | a register store succeeds exactly on a valid index, keeps the register count and leaves memory alone |
| Semantics.MoveSp | cpu.py:71 | `reg[SP] += delta` (also cpu.py:80, 85, 93), a register read and write with Python's bounds; its effect is stated by PushEffect, PopEffect, CallEffect and RetAsWrittenLandsOnOpcode |
| Semantics.Alu | cpu.py:157-164 | `alu`: ADD and MUL update register A in place, any other name raises; stated by Properties.AluOps and Ls8.Cpu.Alu |
| Semantics.ExecPrn | cpu.py:46-50 | `prn`, reading its operand and then the register; stated by Properties.PrnEffect |
| Semantics.ExecLdi | cpu.py:52-56 | `ldi`, reading both operands before the store; stated by Properties.LdiEffect |
| Semantics.ExecHlt | cpu.py:58-60 | `hlt` clears `running`; stated by Properties.HaltStep and Properties.OnlyHaltStops |
| Semantics.ExecMul | cpu.py:62-66 | `mul` passes both operand bytes to `alu("MUL", …)`; stated by Properties.MulEffect |
| Semantics.ExecPush | cpu.py:68-73 | `push`: SP is moved first, then the register is read and stored at the new top; stated by Properties.PushEffect |
| Semantics.ExecPop | cpu.py:75-80 | `pop`: the top of the stack is stored in the register, then SP is moved; stated by Properties.PopEffect |
| Semantics.ExecCall | cpu.py:82-88 | `call`: SP is moved and pc+2 stored before the operand byte is read; stated by Properties.CallEffect |
| Semantics.ExecRetAsWritten | cpu.py:90-94 | `ret` as written and as dispatched: PC becomes `ram[pc]` and SP is incremented; stated by Properties.RetAsWrittenLandsOnOpcode and Properties.RetStep |
| Semantics.ExecRet | cpu.py:90-94 | the intended RET, which pops the return address; stated by Properties.RetEffect and Properties.CallRetRoundTrip |
| Semantics.ExecCmp | cpu.py:96-112 | `CMP`: the flags are cleared before the operands are read; stated by Properties.CmpEffect |
| Semantics.ExecJmp | cpu.py:114-118 | `JMP`; stated by Properties.JmpEffect |
| Semantics.ExecJeq | cpu.py:120-125 | `JEQ`; stated by Properties.ConditionalJumpEffect |
| Semantics.ExecJne | cpu.py:127-132 | `JNE`; stated by Properties.ConditionalJumpEffect |
| Semantics.Execute | cpu.py:28-40 | the branch table, with `ret` as written under RET; no handler changes the size of memory or of the register list |
| Semantics.Next | cpu.py:191-200 | one iteration of the run loop keeps the size of memory and of the register list |
| Semantics.Boot | cpu.py:186-189 | `run` starts from a machine of the same shape (SP := 244, running := True) |
| Semantics.Loop | cpu.py:191-200 | `while self.running:` repeating an iteration, for at most `fuel` turns; stated by Properties.LoopFuelMonotone and Properties.HaltingTurn |
| Semantics.Run | cpu.py:186-200 | `run`: Boot, then the loop over `Next`; stated by Properties.RunHaltsAfterHlt, Properties.RunFuelMonotone and Ls8.Cpu.Run |
| Properties.StepFetch | cpu.py:192-198 | an iteration faults unless PC and the two bytes after it are valid indexes and the opcode is registered; an unregistered opcode is reported as such |
| Properties.HandlerKeepsPc | cpu.py:46-112 | PRN, LDI, HLT, MUL, PUSH, POP and CMP leave PC alone |
| Properties.StepAdvance | cpu.py:196-200 | an iteration succeeds exactly when the handler does; PC then moves on by operand count plus one, except after CALL, RET, JMP, JEQ and JNE, where it stays where the handler put it |
| Properties.HaltStep | cpu.py:58-60 | HLT only clears `running`, and PC ends one byte past the HLT |
| Properties.HandlerKeepsRunning | cpu.py:46-132 | no handler but HLT touches `running` |
| Properties.OnlyHaltStops | cpu.py:58-60 | an iteration changes `running` only when it executes HLT, and then it moves PC one byte on and changes nothing else |
| Properties.StopStep | cpu.py:191-200 | an iteration that stops a running machine leaves it one byte past the HLT it executed |
| Properties.LoopFuelMonotone | cpu.py:191 | a loop that halts or faults within some fuel ends the same way with any larger fuel |
| Properties.HaltingTurn | cpu.py:191 | a loop that halts was stopped by a last turn, taken from a running machine, whose result is the final state |
| Properties.RunHaltsAfterHlt | cpu.py:186-200 | a run that halts ends stopped, one byte past a HLT instruction |
| Properties.RunFuelMonotone | cpu.py:186-200 | giving a run that halts or faults more fuel does not change its outcome |
| Properties.PrnEffect | cpu.py:46-50 | PRN succeeds exactly when its operand names a register; it appends that register's value to the output and changes nothing else |
| Properties.LdiEffect | cpu.py:52-56 | LDI succeeds exactly when its operand names a register; it sets that register to the literal byte, and no other register, cell, flag or PC changes |
| Properties.MulEffect | cpu.py:62-66 | MUL succeeds exactly when both operands name registers; it stores the unbounded product in register A and changes nothing else |
| Properties.AluOps | cpu.py:157-164 | the ALU accepts exactly ADD and MUL (any other name faults) and succeeds exactly on valid register indexes; it sets register A to the sum or product and changes nothing else |
| Properties.PushEffect | cpu.py:68-73 | PUSH succeeds exactly when the register and the decremented SP are valid indexes; SP is decremented, and the register's value, read after SP moves, is stored at the new top; nothing else changes |
| Properties.PopEffect | cpu.py:75-80 | POP succeeds exactly when SP and the register are valid indexes; the register gets the top of the stack, then SP is incremented; nothing else changes |
| Properties.PushStep | cpu.py:68-73 | PUSH, as run by the loop, has its handler's effect and then moves PC two bytes on |
| Properties.PopStep | cpu.py:75-80 | POP, as run by the loop, has its handler's effect and then moves PC two bytes on |
| Properties.PushPopRoundTrip | cpu.py:68-80 | PUSH of register a then POP into register b (neither of them SP) leaves in b the old value of a, with SP and every other register as before and PC four bytes on |
| Properties.CallEffect | cpu.py:82-88 | CALL succeeds exactly when the decremented SP is a valid address and the operand, read after the return address is stored, names a register; SP is decremented, pc+2 is stored at the new top and PC becomes the register's value |
| Properties.RetEffect | cpu.py:90-94 | the intended RET, which the dispatch table does not use, succeeds exactly when SP is a valid address; PC becomes the top of the stack and SP is incremented; nothing else changes |
| Properties.CallStep | cpu.py:82-88 | the loop leaves PC where CALL put it |
| Properties.RetStep | cpu.py:90-94 | an iteration that fetches RET runs `ret` as written and leaves PC where it put it, which is address 17 |
| Properties.CallRetRoundTrip | cpu.py:82-94 | with the intended RET, CALL followed by RET comes back to the byte after the CALL, with every register and flag as before; only the stored return address remains in memory |
| Properties.RetAsWrittenLandsOnOpcode | cpu.py:90-94 | `ret` as written sets PC to 17, the value of its own opcode byte, whatever is on the stack |
| Properties.CallRetAsWrittenMissesReturn | cpu.py:82-94 | on CALL at 0 into a lone RET at 10, two iterations of the run loop land on 17, while the intended RET would return to 2 |
| Properties.CmpEffect | cpu.py:96-112 | CMP succeeds exactly when both operands name registers; then exactly one flag is 1 (E iff equal, L iff less, G iff greater) and the others are 0; nothing but the flags changes |
| Properties.JmpEffect | cpu.py:114-118 | JMP succeeds exactly when its operand names a register; PC becomes that register's value and nothing else changes |
| Properties.ConditionalJumpEffect | cpu.py:120-132 | JEQ jumps exactly when E is 1 and JNE exactly when E is 0; otherwise PC moves two bytes on; only PC changes |
| Loader.IsSpace | cpu.py:148 | the `str.isspace` set that `strip()` removes; stated by Loader.TrimLeftSpaces, Loader.TrimRightSpaces and Loader.StripEmptyIffBlank |
| Loader.CodePart | cpu.py:147 | `split('#', 1)[0]` is the longest prefix of the line without `#` |
| Loader.CodePartAppend | cpu.py:147 | `split('#', 1)[0]` passes over any text without `#` and keeps it |
| Loader.TrimLeftSpaces | cpu.py:148 | the left half of `strip()` leaves a suffix of its input: every character removed is whitespace, and what is left does not start with whitespace |
| Loader.TrimRightSpaces | cpu.py:148 | the right half of `strip()` leaves a prefix of its input: every character removed is whitespace, and what is left does not end with whitespace |
| Loader.TrimLeft | cpu.py:148 | `lstrip()` with `str.isspace`; stated by Loader.TrimLeftSpaces |
| Loader.TrimRight | cpu.py:148 | `rstrip()` with `str.isspace`; stated by Loader.TrimRightSpaces |
| Loader.Strip | cpu.py:148 | `strip()`; stated by Loader.StripEmptyIffBlank, Loader.StripDigits and Loader.StripTrailingSpace |
| Loader.StripTrailingSpace | cpu.py:148 | `strip()` removes a trailing space from a token that has no whitespace at either end |
| Loader.StripEmptyIffBlank | cpu.py:148 | `strip()` gives '' exactly when the text is all whitespace |
| Loader.BinaryDigits | cpu.py:150 | writing a number in base 2 gives bits only, at least `width` of them, that spell the number |
| Loader.BitsAreDigitRun | cpu.py:150 | a non-empty string of bits is valid digit syntax for `int(_, 2)` |
| Loader.StripDigits | cpu.py:148-150 | text with no whitespace at either end is unchanged by `strip()` |
| Loader.ParseBase2 | cpu.py:150 | `int(num, 2)`: surrounding whitespace, an optional sign, an optional `0b` prefix, bits with single underscores; a U+001C..U+001F separator anywhere is rejected; stated by Loader.ParseBinary, Loader.ParseNegativeBinary, Loader.ParseSeesStripped and Loader.SeparatorLineRejected |
| Loader.ParseSeesStripped | cpu.py:150 | `int(_, 2)` gives the same result on two texts without U+001C..U+001F that strip to the same text |
| Loader.SeparatorLineRejected | cpu.py:148-150 | a line "\x1c1" passes the blank test, since `strip()` takes U+001C for whitespace, but `int(_, 2)` rejects it |
| Loader.ParseDigitRun | cpu.py:150 | a run of digits without sign, prefix or surrounding whitespace reads as the number it spells |
| Loader.ParseMinusDigitRun | cpu.py:150 | a minus sign followed by such a run reads as the negated number |
| Loader.ParseBinary | cpu.py:150 | `int(b, 2)` reads back any number written in base 2, whatever the zero padding |
| Loader.ParseNegativeBinary | cpu.py:150 | a minus sign followed by a number written in base 2 reads back as the negated number |
| Loader.ParseSpacedBinary | cpu.py:148-150 | a number written in base 2 and followed by a space strips to the number and reads back as it |
| Loader.ReadLiteral | cpu.py:147-150 | a line whose code part does not strip to '' is a literal holding what `int(_, 2)` makes of that code part |
| Loader.ReadBlank | cpu.py:147-149 | a line whose code part strips to '' is skipped |
| Loader.ReadLine | cpu.py:147-150 | one line of the file: blank after the comment is cut off, or a literal with its parse; stated by Loader.ReadLiteral, Loader.ReadBlank, Loader.BinaryLine and Loader.CommentAfterLiteral |
| Loader.ReadLines | cpu.py:146-150 | the file gives one classified line per text line |
| Loader.LoadFrom | cpu.py:145-151 | the load loop never changes the size of memory |
| Loader.LoadStoresLiterals | cpu.py:145-151 | load succeeds exactly when every literal parses and they fit between the start address and the end of memory; then their values fill consecutive cells from there, every other cell is kept, and the next address is one past the last |
| Loader.LoadAll | cpu.py:145-151 | lines whose literals all parse and fit in memory load in full from address 0: their values fill the first cells, the rest of memory is kept, and no fault is reported |
| Loader.LoadKeepsOtherCells | cpu.py:145-151 | load, even one that fails midway, writes nothing below its start address or from its final address on |
| Loader.Values | cpu.py:150 | the values `load` stores, in order, or none if a literal does not parse; stated by Loader.LoadStoresLiterals and Loader.ValuesOfLiterals |
| Loader.ValuesOfLiterals | cpu.py:150 | lines that are all parsed literals give exactly their values |
| Loader.BinaryText | cpu.py:146 | a program written one number per line has one line per number |
| Loader.BinaryTextValues | cpu.py:146-150 | every line of a program written in base 2 is a literal, and their values are the program |
| Loader.LoadBinaryProgram | cpu.py:141-151 | a program written in base 2, one number per line, loads without fault into addresses 0 onward, with the rest of memory kept |
| Loader.BinaryLine | cpu.py:147-150 | a number written in base 2 is a literal line holding that number |
| Loader.CodeBeforeComment | cpu.py:147 | the code part of a number, a space and a comment is the number and the space |
| Loader.CommentAfterLiteral | cpu.py:147-150 | a number written in base 2 followed by ` #` and any comment is a literal holding that number: the comment is dropped and the space is stripped |
| Loader.CommentOnlyLine | cpu.py:147-149 | a line that starts with `#` is skipped, whatever follows |
| Ls8.Cpu.constructor | cpu.py:23-44 | a new CPU has 256 zeroed memory cells, 8 zeroed registers, PC and flags 0 and nothing printed |
| Ls8.Cpu.RamRead | cpu.py:135-136 | `ram_read` returns the addressed cell, or the IndexError for an invalid address |
| Ls8.Cpu.RamWrite | cpu.py:138-139 | `ram_write` stores in place what `WriteRam` prescribes, or faults and changes nothing |
| Ls8.Cpu.RegRead | cpu.py:50 | a register read returns the indexed register, or the IndexError |
| Ls8.Cpu.RegWrite | cpu.py:56 | a register store updates the register array as `WriteReg` prescribes, or faults and changes nothing |
| Ls8.Cpu.Alu | cpu.py:157-164 | `alu` updates the registers in place as `Semantics.Alu` prescribes, or faults and changes nothing |
| Ls8.Cpu.Prn | cpu.py:46-50 | `prn` appends to the output as `ExecPrn` prescribes |
| Ls8.Cpu.Ldi | cpu.py:52-56 | `ldi` updates the registers as `ExecLdi` prescribes |
| Ls8.Cpu.Hlt | cpu.py:58-60 | `hlt` only clears `running` |
| Ls8.Cpu.Mul | cpu.py:62-66 | `mul` updates the registers as `ExecMul` prescribes |
| Ls8.Cpu.Push | cpu.py:68-73 | `push` updates SP and memory in place as `ExecPush` prescribes |
| Ls8.Cpu.Pop | cpu.py:75-80 | `pop` updates the registers in place as `ExecPop` prescribes |
| Ls8.Cpu.Call | cpu.py:82-88 | `call` updates SP, memory and PC as `ExecCall` prescribes, including an operand read from the cell the return address overwrote |
| Ls8.Cpu.Ret | cpu.py:90-94 | `ret` as written: PC becomes the byte at PC and SP is incremented, as `ExecRetAsWritten` prescribes, or it faults and changes nothing |
| Ls8.Cpu.Cmp | cpu.py:96-112 | `CMP` sets the flags as `ExecCmp` prescribes |
| Ls8.Cpu.Jmp | cpu.py:114-118 | `JMP` sets PC as `ExecJmp` prescribes |
| Ls8.Cpu.Jeq | cpu.py:120-125 | `JEQ` sets PC as `ExecJeq` prescribes |
| Ls8.Cpu.Jne | cpu.py:127-132 | `JNE` sets PC as `ExecJne` prescribes |
| Ls8.Cpu.Invoke | cpu.py:28-40 | calling the branch table's handler (RET as written) has the effect `Execute` gives that instruction |
| Ls8.Cpu.Step | cpu.py:192-200 | one loop iteration on the object (fetch, dispatch, handler, PC advance) does what `Next` prescribes |
| Ls8.Cpu.Run | cpu.py:186-200 | `run` sets SP and `running`, then loops; its outcome and final state are those of `Semantics.Run` |
| Ls8.Cpu.Load | cpu.py:141-151 | the load loop leaves in memory what `LoadFrom` computes over the file's lines, and reports its fault, if any |

## Left out

- `trace` (cpu.py:166-184) only prints. It also reads a `fl` attribute that the class never defines.
- File handling in `load`: opening `sys.argv[1]`, the "Not found" message and `sys.exit(2)`. `Ls8.Cpu.Load` takes the file's lines as a parameter.
- Printing: PRN appends to the `out` sequence instead of writing to standard output.
- Ls8.Cpu.Push, Ls8.Cpu.Pop, Ls8.Cpu.Call, Ls8.Cpu.Cmp, Ls8.Cpu.Step, Ls8.Cpu.Run, Semantics.Loop, Semantics.Run: the handlers check every index before they change anything, so on a fault the state is unchanged, and a faulted run carries the machine from before the faulting iteration. The Python code can leave a partial update behind: `push` decrements SP before `reg[r]` raises, and `CMP` clears the flags before reading the registers. The exception ends the program in either case.
- Semantics.Run, Ls8.Cpu.Run: the loop is bounded by `fuel` iterations, and `OutOfFuel` reports that the bound was reached. The source loops until HLT, possibly forever.
- Semantics.Next: the source decodes size and flag before it dispatches. The model decodes after dispatch. A decode cannot raise, so the results are the same.
- Loader.ParseBase2: `int(text, 2)` also accepts non-ASCII decimal digits (for example Arabic-Indic digits 0 and 1). Only ASCII `0`/`1` are modelled.
- Text-mode file reading translates `\r\n`. Lines arrive here already split, with whatever trailing whitespace they carry; `strip()` removes it.
- `running` does not exist on a new Python object until `run` or `hlt` sets it. The model starts with `running` false.
- `run` does not reset PC or the flags before it loops, and the model follows this: a second `run` continues from where the first left PC.
- Register and memory values are unbounded integers, as in Python. Neither `alu` nor the handlers mask results to 8 bits, so neither does the model.

## Findings

| source | as written | input that shows it | evidently intended | confidence | as-written member | corrected member |
|---|---|---|---|---|---|---|
| cpu.py:90-94 | `ret` sets PC to `ram[pc]`, the RET opcode byte itself (17), and never reads the stack | CALL at address 0 with register 1 = 10, and RET at address 10: `call` jumps to 10, then `ret` jumps to 17 instead of 2 | PC becomes the return address on top of the stack (`ram[reg[SP]]`), then SP is incremented | not executed | Semantics.ExecRetAsWritten, Properties.RetAsWrittenLandsOnOpcode, Properties.RetStep, Properties.CallRetAsWrittenMissesReturn, Ls8.Cpu.Ret | Semantics.ExecRet, Properties.RetEffect, Properties.CallRetRoundTrip |
