# CHIP-8 interpreter core, modelled in Dafny

This project models the interpreter core of a small, unfinished CHIP-8 emulator
written in Rust (`src/cpu.rs`). That core has three parts:

- the `CPU` record: sixteen byte registers `V0`..`VF`, the index register
  `i_reg`, `sp`, `pc`, the delay and sound timers, a 16-slot stack and 4 KiB of
  memory;
- the pure bit-field extractors `nibbles`, `nnn`, `kk`, `xkk` and `xyz`;
- `step(opcode)`, which matches the four nibbles of a word against the CHIP-8
  opcode table and calls one handler. Each handler updates registers in place.

The model is in four modules.

- `Bits` (`bits.dfy`) holds the machine words: `u8`, `u16`, 4-bit `Nibble` and
  12-bit `Addr`, all as bounded integers. It also holds the byte-wise `|`, `&`
  and `^`, which are computed on `bv8`. The source masks and shifts
  non-negative words, and the model writes these as division and remainder by
  powers of two.
- `Decoder` (`decoder.dfy`) holds the extractors and `Decode`.
  - `Decode` is the arm selection of `step` as a function: it gives the arm a
    word reaches, or `None` for the final catch-all arm.
  - `Encode` is the canonical CHIP-8 encoding of each arm.
  - The two are tied by round-trip lemmas. The decoder's rejection set is
    characterised exactly.
- `Semantics` (`semantics.dfy`) gives the meaning of one step as a function
  from states to transitions. The `CPU` record (src/cpu.rs:1-11) is the
  datatype `CpuState`, whose `Valid` fixes the array lengths. A transition is an outcome (`Completed` or
  `Panicked(cause)`) and a successor state.
- `Interpreter` (`interpreter.dfy`) is the object the Rust code mutates.
  - `Cpu` is a class with a register `array` and mutable fields.
  - It has one method per handler, each with `modifies` limited to the fields
    that handler writes.
  - `Cpu.Model` is the abstraction function: it maps the object to the
    `CpuState` it stands for.
  - `Cpu.Step` dispatches on `Decode` and is proved equal to `Semantics.Step`
    on that abstract state.

### Behaviour as written, and where it departs from CHIP-8

- **No fetch and no advance.** `step` takes the opcode as an argument and never
  moves `pc` on by 2. Only the jumps and the skips change `pc`. On a
  conforming CHIP-8 machine, running 6005 then 7003 from 0x200 leaves `pc` at
  0x204. Here it stays at 0x200, and the model follows the code
  (`LoadThenAddFromDefault`).
- **Runs.** `Semantics.Run` models a caller that feeds `step` one word after
  another. A Rust panic unwinds out of that caller, so a run ends at the first
  panicking step. The caller itself is not part of `src/cpu.rs`; it is there
  so that properties of several steps can be stated.
- **5xyN.** The arm matches `(0x5, x, y, _)`, so every last nibble is accepted.
  `se_5xy0` skips when `V[x]` and `V[y]` **differ**; canonical CHIP-8 skips
  when they are equal. So `Decode` maps every 5xyN to `SeReg`, and
  `EncodeDecode` has that one exception.
- **8xy4.** `add_8xy4` **subtracts** `V[y]` from `V[x]`, like `sub_8xy5`. Both
  then reach `unimplemented!("borrow flag")`. The write made before the panic
  stays in the state.
- **8xy6 with x = F.** `shr_8xy6` writes the low bit to `VF` before it halves
  `V[x]`, so for x = F it halves the flag just written and `VF` ends as 0.
- **Failing arms.** Some arms reach `todo!` or `unimplemented!` and are
  modelled as `Panicked` outcomes that keep the state: 00E0, 00EE, 2nnn, 8xy7,
  8xyE, 9xy0 and Fx33. Fx33 computes its three decimal digits first (`Bcd`),
  but never stores them.
- **Empty handlers.** Cxkk, Dxyn, Ex9E, ExA1, Fx0A, Fx29, Fx55 and Fx65 have
  empty bodies and complete without changing anything.
- **Unmatched words.** Words that match no arm reach the catch-all `panic!` and
  give `Panicked(BadOpcode(opcode))`. Examples are 0nnn other than 00E0/00EE,
  8xy8..8xyD, 8xyF, 9xyN with N ≠ 0, and ExNN or FxNN outside the table.

### Overflow policy

Rust's `+=` and `-=` on `u8`/`u16` panic on overflow in a debug build. The
model takes that choice: an out-of-range `+=`/`-=` is a
`Panicked(ArithmeticOverflow)` outcome and the state stays as it was. This
applies to:

- the `pc += 2` of the three skips;
- `V[x] += kk` of 7xkk;
- `V[x] -= V[y]` of 8xy4/8xy5;
- `i_reg += V[x]` of Fx1E.

`jpv0_bnnn` cannot overflow (`V0 + nnn <= 0x10FE`).

## Model

| member | source | states |
|---|---|---|
| `Decoder.Nibbles` | src/cpu.rs:190-196 | the four parts are nibbles (each < 16) and `a*0x1000 + b*0x100 + c*0x10 + d` is the word |
| `Decoder.NibbleSplit` | src/cpu.rs:190-196 | the masked-and-shifted fields of a word are below 16 and reassemble the word |
| `Decoder.NibblesOfWord` | src/cpu.rs:190-196 | splitting a word built from four nibbles gives back exactly those nibbles (the split is injective) |
| `Decoder.Nnn` | src/cpu.rs:198-200 | `opcode & 0x0FFF` is below 0x1000 and equals the low three nibbles at their weights |
| `Decoder.Xkk` | src/cpu.rs:202-206 | `xkk` is the second nibble paired with `kk`, and `x*0x100 + kk == nnn` |
| `Decoder.Kk` | src/cpu.rs:208-210 | `opcode & 0x00FF` is a byte equal to the low two nibbles at their weights |
| `Decoder.Xyz` | src/cpu.rs:212-217 | `xyz` is the second, third and fourth nibble |
| `Decoder.Decode` | src/cpu.rs:30-67 | the arm a word reaches, if any, belongs to the word's first nibble |
| `Decoder.Dispatch` | src/cpu.rs:32-67 | the arm selected from four nibbles, if any, has the first of them as the first nibble of its canonical word |
| `Decoder.DecodeAlu` | src/cpu.rs:42-50 | 8xyN reaches an arm exactly for N from 0 to 7 and for E, and that arm's canonical word is 8xyN |
| `Decoder.DecodeMisc` | src/cpu.rs:58-66 | FxNN reaches an arm exactly for NN in 07, 0A, 15, 18, 1E, 29, 33, 55, 65, and that arm's canonical word is FxNN |
| `Decoder.DecodeEncode` | src/cpu.rs:33-66 | every arm's canonical word reaches that arm with the same operands |
| `Decoder.EncodeDecode` | src/cpu.rs:33-66 | a word that reaches an arm is the canonical word of what it decoded to, except that 5xyN drops its ignored last nibble |
| `Decoder.DecodeRejects` | src/cpu.rs:67 | the catch-all is reached exactly by the words in the table of unmatched patterns (0nnn other than 00E0/00EE, 8xy8-8xyD, 8xyF, 9xyN with N ≠ 0, ExNN and FxNN outside the table) |
| `Semantics.Default` | src/cpu.rs:13-26 | power-on state: every register, stack slot and memory byte is 0, `i_reg`, `sp` and both timers are 0, and `pc` is 0x200 |
| `Semantics.Bcd` | src/cpu.rs:178-183 | the hundreds, tens and ones digits are each below 10 and `h*100 + t*10 + o` is the byte |
| `Semantics.Execute` | src/cpu.rs:71-188 | every handler, completed or panicked, keeps the array lengths and leaves `sp`, the stack and memory as they were |
| `Semantics.Step` | src/cpu.rs:29-69 | every step, completed or panicked, keeps the array lengths and leaves `sp`, the stack and memory untouched |
| `Semantics.SkipIf` | src/cpu.rs:79-95 | a skip adds 2 to `pc` exactly when its condition holds, panics only when it holds with `pc > 0xFFFD`, and changes nothing but `pc` |
| `Semantics.SubtractThenPanic` | src/cpu.rs:121-129 | the shared body of `add_8xy4` and `sub_8xy5` always panics and changes at most `V[x]`; it reports the overflow, with nothing written, exactly when `V[x] < V[y]`, and otherwise leaves `V[x]` with `V[x] + V[y]` equal to the old `V[x]` |
| `Semantics.SkipIfEqualByte` | src/cpu.rs:79-83 | 3xkk skips exactly when `V[x] == kk` |
| `Semantics.SkipIfNotEqualByte` | src/cpu.rs:85-89 | 4xkk skips exactly when `V[x] != kk` |
| `Semantics.SkipIfRegistersDiffer` | src/cpu.rs:91-95 | 5xyN, for every N, skips exactly when `V[x] != V[y]` |
| `Semantics.RegisterLoads` | src/cpu.rs:97-119 | 6xkk and 8xy0-8xy3 complete and change only `V[x]`, to `kk`, `V[y]`, the bitwise OR of `V[x]` and `V[y]`, `V[x] & V[y]` and `V[x] ^ V[y]` |
| `Semantics.AddImmediate` | src/cpu.rs:101-103 | 7xkk stores `V[x] + kk` when it fits a byte, and otherwise panics with the state unchanged |
| `Semantics.SubtractsThenPanics` | src/cpu.rs:121-129 | 8xy4 and 8xy5 always panic: when `V[x] < V[y]` with the overflow and no write, otherwise with "borrow flag" after storing `V[x] - V[y]` |
| `Semantics.ShiftRight` | src/cpu.rs:131-136 | 8xy6 completes and changes only `V[x]` and `VF`: for x ≠ F, `VF` is the old `V[x] % 2` and `V[x]` the old `V[x] / 2`; for x = F, `VF` ends as 0 |
| `Semantics.Jumps` | src/cpu.rs:150-156 | Annn sets only `i_reg` to nnn; Bnnn sets only `pc`, to `V0 + nnn`, which is at most 0x10FE; 1nnn (lines 71-73) sets only `pc` to nnn |
| `Semantics.TimerAndIndexTransfers` | src/cpu.rs:164-176 | Fx07 copies the delay timer to `V[x]`, Fx15 and Fx18 copy `V[x]` to the delay and sound timers, and Fx1E adds `V[x]` to `i_reg` or panics past 0xFFFF; nothing else changes |
| `Semantics.EmptyHandlers` | src/cpu.rs:158-188 | Cxkk, Dxyn, Ex9E, ExA1, Fx0A, Fx29, Fx55 and Fx65 complete and leave the state as it was |
| `Semantics.BcdIsUnfinished` | src/cpu.rs:178-186 | Fx33 panics with `todo!("spec unclear")` and stores nothing |
| `Semantics.StepCompletes` | src/cpu.rs:29-69 | a step completes if and only if its word reaches an arm, that arm is not a `todo!`/`unimplemented!` one, and none of its `+=` overflows in the given state |
| `Semantics.StepRejects` | src/cpu.rs:67 | the step panics with `BadOpcode(opcode)` and an unchanged state if and only if no arm matches the word |
| `Semantics.PanicKeepsState` | src/cpu.rs:121-129 | every panicking step leaves the state as it was, except that 8xy4/8xy5 keep the write `V[x] := V[x] - V[y]` when it did not overflow |
| `Semantics.Run` | src/cpu.rs:29 | a caller of `step` (not in the source) stepping through a sequence of words, stopping at the first panic, keeps the array lengths and never changes `sp`, the stack or memory |
| `Semantics.RunAppend` | src/cpu.rs:29 | (about the caller of `step`) running `p + q` is running `p` and then, unless `p` panicked, running `q` from the state `p` left |
| `Semantics.RunCompletes` | src/cpu.rs:29 | (about the caller of `step`) a run completes if and only if each of its steps completes from the state the run had reached before it |
| `Semantics.LoadThenAddFromDefault` | src/cpu.rs:97-103 | from power-on, running 6005 then 7003 completes with V0 = 8, everything else at its power-on value, and `pc` still 0x200 |
| `Interpreter.Cpu.Default` | src/cpu.rs:13-26 | the new object is valid, its arrays are fresh, and it stands for `Semantics.Default()` |
| `Interpreter.Cpu.Model` | src/cpu.rs:1-11 | the abstraction function: the object's fields and array contents as a `CpuState`, which is well formed whenever the object is valid |
| `Interpreter.Cpu.Reg` | src/cpu.rs:219-221 | `reg(x)` is register x of the state the object stands for |
| `Interpreter.Cpu.SkipNext` | src/cpu.rs:81 | the checked `pc += 2` of the skips: `pc` grows by 2 when that fits `u16`, and otherwise reports the overflow with `pc` unchanged; nothing else changes |
| `Interpreter.Cpu.SubtractAssign` | src/cpu.rs:122 | the checked `v_reg[x] -= v_reg[y]`: stores the difference when `V[x] >= V[y]`, and otherwise reports the overflow with nothing written; only the register array changes |
| `Interpreter.Cpu.Jp1nnn` | src/cpu.rs:71-73 | `pc` becomes nnn; nothing else changes |
| `Interpreter.Cpu.Call2nnn` | src/cpu.rs:75-77 | reports `unimplemented!("call")` and changes nothing (the stack is not pushed) |
| `Interpreter.Cpu.Se3xkk` | src/cpu.rs:79-83 | `pc` grows by 2 exactly when `V[x] == kk`, or the `+=` panics near the top of `u16`; nothing else changes |
| `Interpreter.Cpu.Sne4xkk` | src/cpu.rs:85-89 | `pc` grows by 2 exactly when `V[x] != kk`, with the same overflow case; nothing else changes |
| `Interpreter.Cpu.Se5xy0` | src/cpu.rs:91-95 | `pc` grows by 2 exactly when `V[x] != V[y]`, with the same overflow case; nothing else changes |
| `Interpreter.Cpu.Ld6xkk` | src/cpu.rs:97-99 | the register array becomes the old one with `V[x] = kk` |
| `Interpreter.Cpu.Add7xkk` | src/cpu.rs:101-103 | `V[x]` becomes `V[x] + kk` when that fits a byte; otherwise an overflow panic with no write |
| `Interpreter.Cpu.Ld8xy0` | src/cpu.rs:105-107 | the register array becomes the old one with `V[x] = V[y]` |
| `Interpreter.Cpu.Or8xy1` | src/cpu.rs:109-111 | the register array becomes the old one with `V[x]` = the bitwise OR of `V[x]` and `V[y]` |
| `Interpreter.Cpu.And8xy2` | src/cpu.rs:113-115 | the register array becomes the old one with `V[x] = V[x] & V[y]` |
| `Interpreter.Cpu.Xor8xy3` | src/cpu.rs:117-119 | the register array becomes the old one with `V[x] = V[x] ^ V[y]` |
| `Interpreter.Cpu.Add8xy4` | src/cpu.rs:121-124 | stores `V[x] - V[y]` and reports "borrow flag", or reports the overflow with no write when `V[x] < V[y]` |
| `Interpreter.Cpu.Sub8xy5` | src/cpu.rs:126-129 | the same effect as `add_8xy4`, whose body it repeats |
| `Interpreter.Cpu.Shr8xy6` | src/cpu.rs:131-136 | only `V[x]` and `VF` change; for x ≠ F `VF` is the old low bit and `V[x]` the old half; for x = F `VF` ends as 0 |
| `Interpreter.Cpu.Subn8xy7` | src/cpu.rs:138-140 | reports `todo!("subn8xy7")` and changes nothing |
| `Interpreter.Cpu.Shl8xye` | src/cpu.rs:142-144 | reports `todo!()` and changes nothing |
| `Interpreter.Cpu.Sne9xy0` | src/cpu.rs:146-148 | reports `todo!()` and changes nothing |
| `Interpreter.Cpu.LdiAnnn` | src/cpu.rs:150-152 | `i_reg` becomes nnn; nothing else changes |
| `Interpreter.Cpu.Jpv0Bnnn` | src/cpu.rs:154-156 | `pc` becomes `V0 + nnn`, at most 0x10FE; nothing else changes |
| `Interpreter.Cpu.RndCxkk` | src/cpu.rs:158 | empty handler: nothing changes |
| `Interpreter.Cpu.DrwDxyn` | src/cpu.rs:160 | empty handler: nothing changes |
| `Interpreter.Cpu.SkpEx9e` | src/cpu.rs:162 | empty handler: nothing changes |
| `Interpreter.Cpu.SknpExa1` | src/cpu.rs:163 | empty handler: nothing changes |
| `Interpreter.Cpu.LdFx07` | src/cpu.rs:164-166 | the register array becomes the old one with `V[x]` = the delay timer |
| `Interpreter.Cpu.LdFx0a` | src/cpu.rs:167 | empty handler: nothing changes |
| `Interpreter.Cpu.LdFx15` | src/cpu.rs:168-170 | the delay timer becomes `V[x]`; nothing else changes |
| `Interpreter.Cpu.LdFx18` | src/cpu.rs:171-173 | the sound timer becomes `V[x]`; nothing else changes |
| `Interpreter.Cpu.AddFx1e` | src/cpu.rs:174-176 | `i_reg` becomes `i_reg + V[x]` when that fits `u16`; otherwise an overflow panic with no write |
| `Interpreter.Cpu.LdFx29` | src/cpu.rs:177 | empty handler: nothing changes |
| `Interpreter.Cpu.LdFx33` | src/cpu.rs:178-186 | computes the digits, then reports `todo!("spec unclear")` with nothing changed |
| `Interpreter.Cpu.LdFx55` | src/cpu.rs:187 | empty handler: nothing changes |
| `Interpreter.Cpu.LdFx65` | src/cpu.rs:188 | empty handler: nothing changes |
| `Interpreter.Cpu.Step` | src/cpu.rs:29-69 | the outcome and the new object state are exactly `Semantics.Step` of the old state, and the object stays valid |

Each handler method also states, as a second contract, that its outcome and
new state are the matching case of `Semantics.Execute`. That is what lets
`Cpu.Step` be proved against `Semantics.Step`.

## Left out

- `src/display.rs` is not part of this model. It is a canvas drawing example
  unrelated to the CPU state.
- Fetching an instruction from `mem`, loading a program, the stack push/pop of
  CALL and RET, timer ticking, sprite drawing, key input and the random number
  of Cxkk are not modelled. They do not exist in the source: those arms and
  handlers are empty or panic, and the model gives them exactly that
  behaviour.
- Release-build wrap-around of `+=` and `-=` is not modelled. The model
  follows the debug-build overflow panic throughout (see Overflow policy).
- Panic messages are kept only as the literal texts of `todo!` and
  `unimplemented!`. The catch-all's formatted message is replaced by the
  offending word (`BadOpcode(opcode)`). Unwinding, and what a caller does after
  a panic, are not modelled.
- `Interpreter.Cpu.Step` chooses its arm through `Decoder.Decode` rather than
  matching the nibble tuple inline. `Decode` mirrors the tuple patterns and
  their order, and its round-trip and rejection lemmas tie it to the table.
- `Interpreter.Cpu.Reg` takes a `Nibble`. Every caller in the source passes a
  nibble, so the out-of-bounds panic of `v_reg[x]` for `x >= 16` cannot occur
  and is not modelled.
- The `Copy`, `Clone` and `Debug` derivations of the `CPU` struct are not
  modelled.
