# CHIP-8 interpreter core

A Dafny model of the CHIP-8 interpreter in `chip8/src/lib.rs`: the `CPU`
struct with its RAM, screen, sixteen V registers, index register, call stack,
keys and two timers, and the operations that change them. These are
construction and reset; the 16-slot call stack (`push`, `pop`); one clock
cycle (`tick`, `fetch`); the timer countdown (`tick_timers`); and the opcode
dispatcher `execute`, with the opcodes this version implements: 0000, 00E0,
00EE, 1NNN, 2NNN, 3XNN, 4XNN, 5XY0, 6XNN, 7XNN and 8XY0 to 8XY5.

The project has three files:

- `bits.dfy` (module `Bits`) holds the machine words `u8` and `u16`, bitwise
  OR as a recursive function on integers, and the split of an opcode into
  nibbles. Lemmas state what OR means bit by bit, and that `(hi << 8) | lo`
  is the big-endian word `hi * 256 + lo`.
- `semantics.dfy` (module `Semantics`) holds every field of the interpreter
  as one `State` value, and each operation as a function from the old state
  to the new one. The lemmas say what each opcode does, what it leaves alone,
  when it faults, and how call and return fit together.
- `cpu.dfy` (module `Chip8`) holds the interpreter as a class `CPU`. Its
  fixed-size arrays are updated in place. Each method is proved to leave the
  object exactly in the state the matching `Semantics` function computes.
  When an operation faults, the method leaves the object as it was.

A Rust panic becomes a `Fault` value: `StackOverflow`, `StackUnderflow`,
`PcOverflow`, `PcOutOfRange` or `Unimplemented(op)`. `Execute` and `Tick`
return these faults. `Push`, `Pop` and `Fetch` are private helpers there, so
they take the condition as a precondition, and their callers check it first.

The model follows the code as written, including where it departs from the
usual CHIP-8 instruction set:

- `tick` fetches an opcode and drops it. It never calls `execute`, so one
  cycle only adds 2 to `pc` (`Semantics.Tick`).
- 8XY2 (AND) and 8XY3 (XOR) both compute OR (`Semantics.AndXorAreOr`).
- 8XY5 (subtract) adds, exactly like 8XY4 (`Semantics.SubtractAdds`,
  `Semantics.SubtractExample`).
- Every opcode outside the list above is unimplemented here. That includes
  8XY6, 8XY7, 8XYE, 9XY0 and everything from ANNN to FX65.

`Reset` ends in `Initial()` whatever state it starts from. It therefore
produces exactly what the constructor produces, and a second reset changes
nothing.

## Model

| member | source | states |
|---|---|---|
| `Bits.OrN` | chip8/src/lib.rs:267 | the bitwise OR of two n-bit values fits in n bits |
| `Bits.OrBit` | chip8/src/lib.rs:267 | bit k of the OR is set exactly when k is below the width and bit k is set in either operand |
| `Bits.OrDisjoint` | chip8/src/lib.rs:120 | OR of a value shifted left by k bits and a value below 2^k is their sum |
| `Bits.Or8` | chip8/src/lib.rs:267 | bit k of the OR of two bytes a and b is set exactly when k < 8 and bit k is set in a or in b |
| `Bits.Or16` | chip8/src/lib.rs:120 | bit k of the OR of two 16-bit words a and b is set exactly when k < 16 and bit k is set in a or in b; `JoinBytes` gives its value on a byte pair |
| `Bits.JoinBytes` | chip8/src/lib.rs:118-120 | the high byte shifted left by eight and ORed with the low byte is `hi * 256 + lo` |
| `Bits.Nibbles` | chip8/src/lib.rs:150-153 | the four nibbles are the opcode's hexadecimal digits, most significant first: they recompose to the opcode |
| `Bits.Nnn` | chip8/src/lib.rs:182 | NNN is the value of the last three nibbles |
| `Bits.Nn` | chip8/src/lib.rs:202 | NN is the value of the last two nibbles |
| `Semantics.Initial` | chip8/src/lib.rs:55-73 | pc is 0x200, ram[0..80) is the font set, the rest of RAM is zero, and every register, stack slot, pixel, key and timer is zero or false |
| `Semantics.Push` | chip8/src/lib.rs:95-98 | the value goes into slot sp, sp goes up by one, and no other slot or field changes |
| `Semantics.Pop` | chip8/src/lib.rs:100-103 | sp goes down by one and the value in the slot it then names is returned; nothing else changes |
| `Semantics.PushThenPop` | chip8/src/lib.rs:95-103 | a pop right after a push returns the pushed value and restores sp |
| `Semantics.PopThenPush` | chip8/src/lib.rs:95-103 | pushing the popped value back restores the state exactly |
| `Semantics.Fetch` | chip8/src/lib.rs:116-126 | the opcode is ram[pc] * 256 + ram[pc+1], pc goes up by two, and nothing else changes; only for pc + 1 inside RAM |
| `Semantics.Tick` | chip8/src/lib.rs:109-113 | a cycle faults exactly when pc + 1 is outside RAM; otherwise only pc moves, by two, and nothing is executed |
| `Semantics.TickTimers` | chip8/src/lib.rs:129-143 | each timer goes down by one unless it is zero; nothing else changes; the beep is raised exactly when the sound timer was 1 |
| `Semantics.TimersAfter` | chip8/src/lib.rs:129-143 | after n ticks each timer has gone down by n, stopping at zero, and nothing else has changed |
| `Semantics.Execute` | chip8/src/lib.rs:149-302 | no opcode changes RAM, keys, the index register or the timers, and every successful one keeps the array sizes and sp within the 16-slot stack |
| `Semantics.Skip` | chip8/src/lib.rs:203-205 | a taken skip adds 2 to pc and changes nothing else, or faults with `PcOverflow` exactly when pc + 2 would pass 0xFFFF |
| `Semantics.SetReg` | chip8/src/lib.rs:235-259 | the write to Vx leaves val in Vx and changes no other register or field |
| `Semantics.AddWithCarry` | chip8/src/lib.rs:274-298 | Vx gets (Vx + Vy) mod 256, then VF gets 1 on a carry out of eight bits and 0 otherwise; no other register or field changes |
| `Semantics.UnimplementedExactly` | chip8/src/lib.rs:155-301 | an opcode is reported unimplemented exactly when it is not 0000, 00E0, 00EE, 1NNN to 4XNN, 5XY0, 6XNN, 7XNN or 8XY0 to 8XY5 |
| `Semantics.Nop` | chip8/src/lib.rs:159 | 0000 leaves the state exactly as it was |
| `Semantics.Return` | chip8/src/lib.rs:172-175 | 00EE on a non-empty stack lowers sp by one and sets pc to the slot it then names; nothing else changes |
| `Semantics.Call` | chip8/src/lib.rs:190-194 | 2NNN with a free slot stores pc in slot sp, raises sp by one and sets pc to NNN; nothing else changes |
| `Semantics.ClearScreen` | chip8/src/lib.rs:164-166 | 00E0 turns every pixel off and changes nothing else |
| `Semantics.Jump` | chip8/src/lib.rs:181-184 | 1NNN sets pc to NNN and changes nothing else, the stack included |
| `Semantics.CallThenReturn` | chip8/src/lib.rs:172-194 | 2NNN at pc = p jumps to NNN; a following 00EE brings pc back to p and sp back to its old value |
| `Semantics.StackFaults` | chip8/src/lib.rs:172-194 | a call faults exactly when all 16 slots are in use, and a return exactly when the stack is empty |
| `Semantics.SkipFamily` | chip8/src/lib.rs:200-230 | 3XNN, 4XNN and 5XY0 add 2 to pc exactly when their comparison holds, leave it unchanged otherwise, fault only if the skip would pass 0xFFFF, and change no register |
| `Semantics.LoadImmediate` | chip8/src/lib.rs:235-239 | 6XNN puts NN in Vx and changes no other register or field |
| `Semantics.AddImmediate` | chip8/src/lib.rs:244-250 | 7XNN sets Vx to (Vx + NN) mod 256 and writes no flag: every other register, VF included, keeps its value |
| `Semantics.Move` | chip8/src/lib.rs:255-259 | 8XY0 copies Vy into Vx and changes nothing else |
| `Semantics.OrFamily` | chip8/src/lib.rs:264-268 | 8XY1, 8XY2 and 8XY3 set each bit of Vx to the OR of that bit of Vx and Vy, and change nothing else |
| `Semantics.AddRegisters` | chip8/src/lib.rs:274-298 | 8XY4 and 8XY5 set Vx to (Vx + Vy) mod 256 and then VF to 1 on a carry, else 0; VF is written last, so with x = F the flag remains; other registers keep their values |
| `Semantics.AndXorAreOr` | chip8/src/lib.rs:264-268 | 8XY2 and 8XY3 behave exactly like 8XY1 on every state |
| `Semantics.SubtractAdds` | chip8/src/lib.rs:289-298 | 8XY5 behaves exactly like 8XY4 on every state |
| `Semantics.SubtractExample` | chip8/src/lib.rs:289-298 | with V0 = 5 and V1 = 3, 8015 leaves 8 in V0 |
| `Chip8.CPU.constructor` | chip8/src/lib.rs:55-73 | a new interpreter holds exactly the state `Initial()`, in freshly allocated arrays |
| `Chip8.CPU.Reset` | chip8/src/lib.rs:76-89 | from any state, the object is left in exactly the state `Initial()` |
| `Chip8.CPU.Push` | chip8/src/lib.rs:95-98 | writes slot sp and increments sp, as `Semantics.Push` says |
| `Chip8.CPU.Pop` | chip8/src/lib.rs:100-103 | decrements sp and returns the slot it names, as `Semantics.Pop` says |
| `Chip8.CPU.Tick` | chip8/src/lib.rs:109-113 | updates the object as `Semantics.Tick` says, or reports the fault and changes nothing |
| `Chip8.CPU.Fetch` | chip8/src/lib.rs:116-126 | returns the opcode and advances pc as `Semantics.Fetch` says |
| `Chip8.CPU.TickTimers` | chip8/src/lib.rs:129-143 | counts the timers down and reports the beep as `Semantics.TickTimers` says |
| `Chip8.CPU.SkipNext` | chip8/src/lib.rs:203-205 | adds 2 to pc, or reports `PcOverflow` and changes nothing if that would pass 0xFFFF |
| `Chip8.CPU.Execute` | chip8/src/lib.rs:149-302 | updates the arrays and fields as `Semantics.Execute` says, or reports its fault and changes nothing |

## Left out

- desktop/src/main.rs is not part of this model. It is the SDL window, the command-line handling, ROM file reading and the endless event loop.
- The `println!` of the beep in `tick_timers` is not modelled as output. It is the boolean result of `TickTimers`.
- `load`, `keypress` and `get_display` are not defined in lib.rs, so they are not modelled. No operation changes `keys` apart from construction and reset.
- Sprite drawing, key waits, BCD, bulk load and store, 9XY0, ANNN, BNNN, CXNN, the EX and FX families, and 8XY6, 8XY7 and 8XYE do not exist in lib.rs. They are unimplemented opcodes here, as in the source.
- Panics (`unimplemented!`, stack index out of bounds, arithmetic overflow) become `Fault` results, and the state is left unchanged. The Rust program aborts instead.
- `Chip8.CPU.SkipNext`: follows the debug build, where `pc += 2` past 0xFFFF panics. The wrap-around of a release build is not modelled.
- `Semantics.Tick`: a pc of 4096 or more fails reading `ram[pc]` (lib.rs line 118), and pc = 4095 fails reading `ram[pc + 1]` (line 119). Both are the one fault `PcOutOfRange`.
- `Bits.Nibbles`: the masks and shifts (`(op & 0xF000) >> 12` and the rest) are written as quotient and remainder by powers of 16. The two agree on unsigned 16-bit values. This model does not prove that, because bit-vector reasoning is outside it.
- Stack underflow and overflow cannot be shown as the out-of-bounds index the source would produce. The model refuses them before any state changes.
