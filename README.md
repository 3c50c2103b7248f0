# CHIP-8 interpreter engine (chip8-rs) in Dafny

This project models the interpreter engine of chip8-rs, a CHIP-8 emulator written in Rust. Its
`Chip8` object holds the following state:

- 4096 bytes of memory;
- sixteen 8-bit registers `v`;
- the index register `i` and the program counter `pc`;
- a 64×32 pixel buffer `gfx`;
- the delay and sound timers;
- an unbounded return-address stack;
- sixteen keypad flags;
- the draw flag;
- a stored `Quirks` record.

It has three operations:

- the constructor, which zeroes everything, sets `pc` to 0x200 and copies the 80-byte font to 0x050;
- the program loader, which rejects a program too large to fit above 0x200 and otherwise copies it there;
- `emulate_cycle`, the only instruction cycle. It fetches a big-endian word and advances `pc` by 2.
  It then runs one of the six instruction forms the engine implements: clear screen `00E0`,
  return `00EE`, jump `1nnn`, call `2nnn`, load `6xkk` and add `7xkk`. Any other word does
  nothing. Last, it ticks both timers; the sound timer beeps as it goes from 1 to 0.

Files:

- `opcode.dfy` (module `Opcode`): Rust's `u8`/`u16` as integer ranges. It holds the big-endian
  `Combine`, the fields `Family`, `X`, `KK` and `NNN`, the instruction datatype `Instr` with
  `Decode` (the engine's dispatch) and its inverse `Encode`.
- `spec.dfy` (module `Chip8Spec`): the machine state as a value (`Machine`) and the three
  operations as functions on it: `Initial`, `Load`, and `Cycle` (built from `Fetch`, the advance of `pc`,
  `Execute` and `Tick`). The lemmas say what a cycle does for each instruction form, over two
  cycles (call then return, load then add zero) and for the timers over many cycles.
- `chip8.dfy` (module `Chip8`): the class `Chip8`, with the source's fixed-size buffers
  (memory, `v`, `gfx`, keypad) as arrays and the stack as a sequence field. Its methods update
  the fields in place. A proof ties each one to the function of `Chip8Spec` on the abstract state
  `Abs()`: the constructor builds `Initial(q)`, `LoadProgram` performs `Load`, and `EmulateCycle`
  performs `Cycle`, its timer tick `TickTimers` performs `Tick`. `EmulateCycle` dispatches on the word's family and low byte, as the source
  does. The spec side decodes to an `Instr` and executes that, so the method is proved against
  an independent definition.
- `loader_as_written.dfy` (module `LoaderAsWritten`): the loader as its text reads, with the copy
  loop that is never reached and that loop's body on its own (see Findings).

Notes on how the model reads the source:

- Some of the source is not valid Rust. `v` is declared `[u8, 16]`. `load_rom` and
  `emulate_cycle` stand after the `impl Chip8` block has closed (chip8-rs/src/chip8.rs:66).
  The model treats both functions as `Chip8` methods with a 16-byte register array.
  `load_rom` also gives no value for a program that passes the size check. The model reads
  that path as `Ok(())` with nothing copied (`LoaderAsWritten.LoadAsWritten`); the rest of the
  model uses the evident intent, `Chip8Spec.Load`.
- The source's bit masks are written as the arithmetic they perform on the word:
  - `op & 0xF000` selects the family `op / 0x1000`;
  - `(op & 0x0F00) >> 8` is `op / 0x100 % 0x10`;
  - `op & 0x00FF` is `op % 0x100`;
  - `op & 0x0FFF` is `op % 0x1000`.
  `Opcode.FieldsPartition` and `Opcode.CombineFields` prove that these fields take the word
  apart without loss.
- Inside family 0 the engine looks only at the low byte. So every word `0nE0` clears the screen,
  every word `0nEE` returns, and bits 11-8 are ignored. `Decode` does the same, and
  `Opcode.EncodeDecode` states exactly which bits are lost.
- A CHIP-8 reference describes many more instructions (skips, arithmetic with flags, the sprite
  draw, the `Fx..` family) and quirk-dependent behaviour. The code has none of them, so the model
  treats every such word as unknown: it does nothing but advance `pc` and tick the timers. The
  code decides here, not the reference.
- Two conditions make the Rust code panic, and both are preconditions of a cycle (`CanStep`):
  - the fetch indexes `memory[pc]` and `memory[pc + 1]`, so it needs `pc + 1 < 4096`;
  - `00EE` on an empty stack hits the `expect("Stack underflow on RET")`.
  Under `pc + 1 < 4096`, the `u16` sums `pc + 1` and `pc + 2` cannot overflow.
- The stack is a `Vec` with no depth limit. `Vec::with_capacity(16)` only reserves space, so the
  model has no overflow check.

## Model

| member | source | states |
|---|---|---|
| `Opcode.Combine` | chip8-rs/src/chip8.rs:88-89 | the fetched word has the byte at `pc` as its high half and the byte at `pc + 1` as its low half |
| `Opcode.Family` | chip8-rs/src/chip8.rs:93 | the family is the word's top nibble: the word lies in `[f * 0x1000, f * 0x1000 + 0x1000)` |
| `Opcode.X` | chip8-rs/src/chip8.rs:122 | x is bits 11-8: the low 12 bits of the word lie in `[x * 0x100, x * 0x100 + 0x100)`, and x is a register index below 16 |
| `Opcode.KK` | chip8-rs/src/chip8.rs:123 | kk is a byte that differs from the word by a multiple of 256 |
| `Opcode.NNN` | chip8-rs/src/chip8.rs:111 | nnn is below 0x1000 and differs from the word by a multiple of 0x1000 |
| `Opcode.FieldsPartition` | chip8-rs/src/chip8.rs:110-129 | family, x and kk rebuild the word; nnn is x followed by kk; the family is a nibble |
| `Opcode.CombineFields` | chip8-rs/src/chip8.rs:88-129 | the family and x come from the first fetched byte, kk is the second byte, nnn is the low nibble of the first byte followed by the second |
| `Opcode.Decode` | chip8-rs/src/chip8.rs:93-137 | a word is implemented exactly when its family is 1, 2, 6 or 7, or its family is 0 and its low byte is E0 or EE; every other word, including an unknown `0nnn` (chip8-rs/src/chip8.rs:104-106), decodes to `Unknown` carrying the word |
| `Opcode.DecodeEncode` | chip8-rs/src/chip8.rs:93-138 | decoding gives back every instruction a word can decode to |
| `Opcode.EncodeDecode` | chip8-rs/src/chip8.rs:93-138 | every word decodes to a canonical instruction whose encoding is the word, except that bits 11-8 of a `0nE0`/`0nEE` word are dropped |
| `Chip8Spec.BootMemory` | chip8-rs/src/chip8.rs:60-62 | memory after construction holds `FONTSET[a - 0x050]` at addresses 0x050..0x0A0 and 0 everywhere else |
| `Chip8Spec.Initial` | chip8-rs/src/chip8.rs:44-65 | the constructed state has `pc == 0x200`, `i == 0`, every register, pixel and timer zero, the stack empty, every key up, the draw flag clear, the given quirks, and the font exactly at 0x050..0x0A0 with zeros elsewhere |
| `Chip8Spec.Load` | chip8-rs/src/chip8.rs:73-84 | rejects with `ProgramTooLarge` exactly when `0x200 + len > 4096`; otherwise byte k lands at `0x200 + k`, every other address keeps its byte, and no other field changes |
| `Chip8Spec.LoadRejectsOversized` | chip8-rs/src/chip8.rs:73-77 | a 3600-byte program is rejected |
| `Chip8Spec.LoadFillsMemory` | chip8-rs/src/chip8.rs:73-84 | a 3584-byte program is accepted and its last byte lands at 0xFFF |
| `Chip8Spec.CanFetch` | chip8-rs/src/chip8.rs:88-89 | when both fetched indices are inside memory, `pc + 2` is at most 4096 and so cannot overflow a `u16` |
| `Chip8Spec.Fetch` | chip8-rs/src/chip8.rs:88-89 | the word at `pc` is `memory[pc] * 256 + memory[pc + 1]`, read back through its high and low halves |
| `Chip8Spec.CanStep` | chip8-rs/src/chip8.rs:88-101 | a cycle runs without a panic exactly when `pc + 1 < 4096` and, if the bytes at `pc` are `0n EE` (a return), the stack is not empty |
| `Chip8Spec.WrappingAdd` | chip8-rs/src/chip8.rs:130 | the sum is exact or 256 less, and it wraps exactly when the result is below the first operand |
| `Chip8Spec.Execute` | chip8-rs/src/chip8.rs:93-138 | an instruction body keeps every buffer at its fixed size and changes at most `pc`, `v`, `gfx`, the stack and the draw flag; the draw flag changes only for a clear (what each body does is stated by the lemmas below) |
| `Chip8Spec.Countdown` | chip8-rs/src/chip8.rs:140-148 | a timer never grows and drops by at most one per tick, and it stays unchanged exactly when it is zero |
| `Chip8Spec.Tick` | chip8-rs/src/chip8.rs:140-148 | the tick changes only the two timers, and each drops by one exactly when it is positive and otherwise not at all |
| `Chip8Spec.Beeps` | chip8-rs/src/chip8.rs:143-145 | the tick beeps exactly when the sound timer is positive and counts down to zero |
| `Chip8Spec.Cycle` | chip8-rs/src/chip8.rs:87-149 | whatever the word, a cycle leaves memory, `i`, the keypad and the quirks as they were, counts both timers down, and beeps exactly when the sound timer was 1 |
| `Chip8Spec.ClearScreenCycle` | chip8-rs/src/chip8.rs:95-98 | `00E0` zeroes all 2048 pixels and sets the draw flag; registers, `i`, memory, stack and keys are unchanged, `pc` grows by 2 and the timers tick |
| `Chip8Spec.JumpCycle` | chip8-rs/src/chip8.rs:110-113 | `1nnn` sets `pc` to nnn, so `pc <= 0xFFF` afterwards; only `pc` and the timers change |
| `Chip8Spec.CallCycle` | chip8-rs/src/chip8.rs:115-119 | `2nnn` pushes the already advanced `pc` and sets `pc` to nnn; nothing else but the timers changes |
| `Chip8Spec.ReturnCycle` | chip8-rs/src/chip8.rs:100-101 | `00EE` (on a non-empty stack) sets `pc` to the popped top and shrinks the stack by one; nothing else but the timers changes |
| `Chip8Spec.CallThenReturn` | chip8-rs/src/chip8.rs:100-119 | a call whose target holds a return comes back to the instruction after the call, with the stack, registers, `i`, pixels and memory as before the call |
| `Chip8Spec.RegisterCycle` | chip8-rs/src/chip8.rs:121-131 | a cycle changes at most `v[x]`: `6xkk` sets it to kk, `7xkk` to `(v[x] + kk) mod 256` with VF untouched when x is not F, and every other form leaves it; `i`, memory, keys and quirks never change |
| `Chip8Spec.LoadImmCycle` | chip8-rs/src/chip8.rs:121-125 | `6xkk` sets `v[x]` to kk, `pc` grows by 2, the timers tick and nothing else changes |
| `Chip8Spec.AddImmCycle` | chip8-rs/src/chip8.rs:127-131 | `7xkk` sets `v[x]` to `(v[x] + kk) mod 256`, `pc` grows by 2, the timers tick and nothing else changes (VF included, unless x is F) |
| `Chip8Spec.AdvanceCycle` | chip8-rs/src/chip8.rs:91 | every word other than a jump, a call or a return leaves `pc` 2 past where the cycle fetched it |
| `Chip8Spec.LoadThenAddZero` | chip8-rs/src/chip8.rs:121-131 | `6xkk` followed by `7x00` leaves kk in `v[x]` |
| `Chip8Spec.UnknownCycle` | chip8-rs/src/chip8.rs:135-137 | an unimplemented word, including an unknown `0nnn` (chip8-rs/src/chip8.rs:104-106), only advances `pc` by 2 and ticks the timers |
| `Chip8Spec.TimerCycle` | chip8-rs/src/chip8.rs:140-148 | each timer drops by one exactly when it is positive and never goes below zero; the cycle beeps exactly when the sound timer was 1 |
| `Chip8Spec.CountdownAfter` | chip8-rs/src/chip8.rs:140-142 | after n ticks a timer that started at t stands at `max(t - n, 0)` |
| `Chip8Spec.BeepsOnce` | chip8-rs/src/chip8.rs:143-148 | a sound timer started at t beeps exactly once in its first n ticks when `0 < t <= n`, and otherwise not at all |
| `Chip8.Chip8.constructor` | chip8-rs/src/chip8.rs:44-65 | the new object's state is `Initial(quirks)`, with fresh arrays of the source's sizes |
| `Chip8.Chip8.LoadProgram` | chip8-rs/src/chip8.rs:68-85 | fails with `ProgramTooLarge`, leaving memory untouched, exactly when `Load` rejects; otherwise the new state is `Load`'s; only memory may change |
| `Chip8.Chip8.EmulateCycle` | chip8-rs/src/chip8.rs:87-149 | the new state and the beep are exactly `Cycle` of the old state; memory and keypad are never written |
| `Chip8.Chip8.TickTimers` | chip8-rs/src/chip8.rs:140-148 | the new state is `Tick` of the old and the beep is `Beeps` of the old |
| `LoaderAsWritten.LoadAsWritten` | chip8-rs/src/chip8.rs:73-84 | the loader as its control flow stands rejects exactly the programs that do not fit, and succeeds on the others with the state unchanged |
| `LoaderAsWritten.AsWrittenLoadDropsProgram` | chip8-rs/src/chip8.rs:73-84 | for every program that fits whose first byte is not already at 0x200, both loaders succeed but leave different memories |
| `LoaderAsWritten.CopyLoopAsWritten` | chip8-rs/src/chip8.rs:79-81 | the loop as written leaves memory as it was except that address 0x201 holds the program's last byte |
| `LoaderAsWritten.AsWrittenLoopMisplacesProgram` | chip8-rs/src/chip8.rs:79-81 | for the program `[0xAA, 0xBB]` on a fresh machine, the loop as written leaves 0 at 0x200 where the intended loader puts 0xAA |
| `LoaderAsWritten.AsWrittenLoopDiffersFromLoad` | chip8-rs/src/chip8.rs:79-81 | for any program of at least two bytes whose first byte differs from the old byte at 0x200, or whose second byte differs from its last, the loop as written and the intended loader give different memories |

## Left out

- File I/O in `load_rom` (`File::open`, `read_to_end`, chip8-rs/src/chip8.rs:69-71): the loader takes the program bytes, and the I/O errors of opening and reading a file are not modelled.
- The `println!` diagnostics for unknown words and "BEEP!" (chip8-rs/src/chip8.rs:105, 136, 145): unknown words are no-ops, and the beep is the boolean `beep` that `EmulateCycle` returns.
- The two panics are preconditions, not results: `memory[pc + 1]` past the end of memory, and the `expect` on popping an empty stack. After a panic the process is gone, so there is no state to model.
- `Quirks` is stored (the field `quirls`) but never read, so the model stores it and nothing depends on it.
- The opcodes a CHIP-8 reference describes but this engine does not implement (3xkk–5xy0, 8xy*, 9xy0, Annn, Bnnn, Cxkk, Dxyn, Ex**, Fx**) and the high-resolution screen: they are not in the code, so they fall under the unknown-word case.
- chip8-rs/src/display.rs, the SDL2 window and renderer, is not part of this model.
- chip8-rs/src/main.rs is not part of this model. That covers the SDL event loop, the 60 Hz pacing with `Instant` and `sleep`, and the driver that clears `draw_flag` after drawing.

## Findings

| source | as written | input that shows it | evidently intended | confidence | as-written member | corrected member |
|---|---|---|---|---|---|---|
| chip8-rs/src/chip8.rs:73-84 | the copy loop sits after `return Err` inside the size check, so it is never reached and a program that fits is not copied at all | any program that fits whose first byte differs from the byte at 0x200, e.g. `[0xAA]` on a fresh machine: memory is unchanged | a program that fits is copied to 0x200 | high (from the text; not executed) | `LoaderAsWritten.AsWrittenLoadDropsProgram` | `Chip8Spec.Load` |
| chip8-rs/src/chip8.rs:79-81 | the copy loop's body stores every byte at the fixed address `0x200 + 1` | program `[0xAA, 0xBB]` on a fresh machine: 0x200 stays 0 and 0x201 gets 0xBB | byte k is stored at `0x200 + k` | high (from the text; not executed) | `LoaderAsWritten.AsWrittenLoopMisplacesProgram` | `Chip8Spec.Load` |
