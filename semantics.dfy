/** The meaning of one `CPU::step`, as a function from the state before it to
    its outcome and the state after it.

    The interpreter is written in Rust, so the arms that reach `todo!`,
    `unimplemented!` or the catch-all `panic!` are modelled as a `Panicked`
    outcome. Rust's `+=` and `-=` on `u8` and `u16` panic on overflow in a
    debug build; this model follows that policy, so an overflowing addition or
    subtraction is a `Panicked(ArithmeticOverflow)` outcome that leaves the
    state as it was. Nothing of the state is lost on a panic: a handler that
    wrote a register before panicking leaves that write in place. */
module Semantics {
  import opened Bits
  import opened Decoder

  /** The fields of the `CPU` struct. */
  datatype CpuState = CpuState(
    vReg: seq<u8>,
    iReg: u16,
    sp: u8,
    pc: u16,
    delayTimer: u8,
    soundTimer: u8,
    stack: seq<u16>,
    mem: seq<u8>)
  {
    /** The Rust arrays have fixed lengths: 16 registers, 16 stack slots, 4 KiB. */
    predicate Valid() {
      |vReg| == 16 && |stack| == 16 && |mem| == 0x1000
    }
  }

  /** The program counter's value at power-on: the conventional load address. */
  const PROGRAM_START: u16 := 0x200

  /** `CPU::default()`. */
  function Default(): (s: CpuState)
    ensures s.Valid()
    ensures forall r :: 0 <= r < 16 ==> s.vReg[r] == 0
    ensures forall k :: 0 <= k < 16 ==> s.stack[k] == 0
    ensures forall a :: 0 <= a < 0x1000 ==> s.mem[a] == 0
    ensures s.iReg == 0 && s.sp == 0 && s.pc == 0x200
    ensures s.delayTimer == 0 && s.soundTimer == 0
  {
    CpuState(seq(16, _ => 0), 0, 0, PROGRAM_START, 0, 0, seq(16, _ => 0), seq(0x1000, _ => 0))
  }

  /** Why a step panicked. */
  datatype Panic =
    | BadOpcode(opcode: u16)        // the catch-all arm
    | Todo(message: string)         // `todo!`; the empty message is `todo!()`
    | Unimplemented(message: string) // `unimplemented!`
    | ArithmeticOverflow            // a `+=` or `-=` out of range

  datatype Outcome = Completed | Panicked(cause: Panic)

  datatype Transition = Transition(outcome: Outcome, next: CpuState)

  /** `pc += 2` where a skip instruction's condition holds. What the skip
      instructions share: `pc` grows by 2 exactly when the condition holds, a
      `pc` too close to the top of `u16` makes that `+=` panic, and nothing
      but `pc` ever changes. */
  function SkipIf(s: CpuState, condition: bool): (t: Transition)
    ensures t.next == s.(pc := t.next.pc)
    ensures t.outcome.Completed? ==> (t.next.pc == s.pc + 2 <==> condition) && (t.next.pc == s.pc || t.next.pc == s.pc + 2)
    ensures t.outcome.Panicked? <==> condition && s.pc > U16_MAX - 2
    ensures t.outcome.Panicked? ==> t == Transition(Panicked(ArithmeticOverflow), s)
  {
    if !condition then Transition(Completed, s)
    else if s.pc + 2 <= U16_MAX then Transition(Completed, s.(pc := s.pc + 2))
    else Transition(Panicked(ArithmeticOverflow), s)
  }

  /** `v_reg[x] = value`. */
  function SetReg(s: CpuState, x: Nibble, value: u8): CpuState
    requires s.Valid()
  {
    s.(vReg := s.vReg[x := value])
  }

  /** The body of `add_8xy4` and of `sub_8xy5`: `v_reg[x] -= v_reg[y]`, which
      panics when it would go below zero, then `unimplemented!("borrow flag")`. */
  function SubtractThenPanic(s: CpuState, x: Nibble, y: Nibble): (t: Transition)
    requires s.Valid()
    ensures t.outcome.Panicked? && t.next.Valid()
    ensures t.next == s.(vReg := t.next.vReg)
    ensures forall r :: 0 <= r < 16 && r != x ==> t.next.vReg[r] == s.vReg[r]
    ensures t.outcome.cause == ArithmeticOverflow <==> s.vReg[x] < s.vReg[y]
    ensures t.outcome.cause == ArithmeticOverflow ==> t.next == s
    ensures t.outcome.cause != ArithmeticOverflow ==> t.next.vReg[x] as int + s.vReg[y] == s.vReg[x]
  {
    if s.vReg[x] < s.vReg[y] then Transition(Panicked(ArithmeticOverflow), s)
    else Transition(Panicked(Unimplemented("borrow flag")), SetReg(s, x, s.vReg[x] - s.vReg[y]))
  }

  /** The three digits `ld_fx33` computes: hundreds, tens and ones. */
  function Bcd(dec: u8): (r: (u8, u8, u8))
    ensures r.0 < 10 && r.1 < 10 && r.2 < 10
    ensures r.0 * 100 + r.1 * 10 + r.2 == dec
  {
    var ones := dec % 10;
    var tens := (dec / 10) % 10;
    var hundreds := (dec / 100) % 10;
    (hundreds, tens, ones)
  }

  /** The handler a decoded instruction is dispatched to, applied to `s`. */
  function Execute(s: CpuState, ins: Instr): (t: Transition)
    requires s.Valid()
    ensures t.next.Valid()
    ensures t.next.sp == s.sp && t.next.stack == s.stack && t.next.mem == s.mem
  {
    match ins
    case Cls => Transition(Panicked(Todo("CLS")), s)
    case Ret => Transition(Panicked(Todo("RET")), s)
    case Jp(nnn) => Transition(Completed, s.(pc := nnn))
    case Call(_) => Transition(Panicked(Unimplemented("call")), s)
    case SeByte(x, kk) => SkipIf(s, s.vReg[x] == kk)
    case SneByte(x, kk) => SkipIf(s, s.vReg[x] != kk)
    case SeReg(x, y) => SkipIf(s, s.vReg[x] != s.vReg[y])
    case LdByte(x, kk) => Transition(Completed, SetReg(s, x, kk))
    case AddByte(x, kk) =>
      if s.vReg[x] + kk <= U8_MAX then Transition(Completed, SetReg(s, x, s.vReg[x] + kk))
      else Transition(Panicked(ArithmeticOverflow), s)
    case LdReg(x, y) => Transition(Completed, SetReg(s, x, s.vReg[y]))
    case Or(x, y) => Transition(Completed, SetReg(s, x, Or8(s.vReg[x], s.vReg[y])))
    case And(x, y) => Transition(Completed, SetReg(s, x, And8(s.vReg[x], s.vReg[y])))
    case Xor(x, y) => Transition(Completed, SetReg(s, x, Xor8(s.vReg[x], s.vReg[y])))
    case AddReg(x, y) => SubtractThenPanic(s, x, y)
    case Sub(x, y) => SubtractThenPanic(s, x, y)
    case Shr(x, _) =>
      var flagged := SetReg(s, 0xF, And8(s.vReg[x], 0x01));
      Transition(Completed, SetReg(flagged, x, flagged.vReg[x] / 2))
    case Subn(_, _) => Transition(Panicked(Todo("subn8xy7")), s)
    case Shl(_, _) => Transition(Panicked(Todo("")), s)
    case SneReg(_, _) => Transition(Panicked(Todo("")), s)
    case LdI(nnn) => Transition(Completed, s.(iReg := nnn))
    case JpV0(nnn) => Transition(Completed, s.(pc := s.vReg[0x0] + nnn))
    case Rnd(_, _) => Transition(Completed, s)
    case Drw(_, _, _) => Transition(Completed, s)
    case Skp(_) => Transition(Completed, s)
    case Sknp(_) => Transition(Completed, s)
    case LdVxDt(x) => Transition(Completed, SetReg(s, x, s.delayTimer))
    case LdVxKey(_) => Transition(Completed, s)
    case LdDtVx(x) => Transition(Completed, s.(delayTimer := s.vReg[x]))
    case LdStVx(x) => Transition(Completed, s.(soundTimer := s.vReg[x]))
    case AddI(x) =>
      if s.iReg + s.vReg[x] <= U16_MAX then Transition(Completed, s.(iReg := s.iReg + s.vReg[x]))
      else Transition(Panicked(ArithmeticOverflow), s)
    case LdFont(_) => Transition(Completed, s)
    case LdBcd(x) =>
      var _ := Bcd(s.vReg[x]);
      Transition(Panicked(Todo("spec unclear")), s)
    case Store(_) => Transition(Completed, s)
    case Load(_) => Transition(Completed, s)
  }

  /** `CPU::step(opcode)`. No arm touches the stack, the stack pointer or the
      memory, so every step leaves them as they were. */
  function Step(s: CpuState, opcode: u16): (t: Transition)
    requires s.Valid()
    ensures t.next.Valid()
    ensures t.next.sp == s.sp && t.next.stack == s.stack && t.next.mem == s.mem
  {
    match Decode(opcode)
    case None => Transition(Panicked(BadOpcode(opcode)), s)
    case Some(ins) => Execute(s, ins)
  }

  // ---------------------------------------------------------------------
  // Properties of one step

  /** 3xkk skips when V[x] equals kk. */
  lemma SkipIfEqualByte(s: CpuState, opcode: u16)
    requires s.Valid() && Nibbles(opcode).0 == 0x3
    ensures Step(s, opcode) == SkipIf(s, s.vReg[Nibbles(opcode).1] == Kk(opcode))
  {
  }

  /** 4xkk skips when V[x] differs from kk. */
  lemma SkipIfNotEqualByte(s: CpuState, opcode: u16)
    requires s.Valid() && Nibbles(opcode).0 == 0x4
    ensures Step(s, opcode) == SkipIf(s, s.vReg[Nibbles(opcode).1] != Kk(opcode))
  {
  }

  /** 5xyN, as written, skips when V[x] and V[y] DIFFER (canonically 5xy0
      skips when they are equal), whatever the last nibble. */
  lemma SkipIfRegistersDiffer(s: CpuState, opcode: u16)
    requires s.Valid() && Nibbles(opcode).0 == 0x5
    ensures var (_, x, y, _) := Nibbles(opcode);
      Step(s, opcode) == SkipIf(s, s.vReg[x] != s.vReg[y])
  {
  }

  /** 6xkk, 8xy0, 8xy1, 8xy2 and 8xy3 complete and change V[x] alone. */
  lemma RegisterLoads(s: CpuState, opcode: u16)
    requires s.Valid()
    ensures var (a, x, y, n) := Nibbles(opcode);
      var after := Step(s, opcode).next.vReg[x];
      (a == 0x6 || (a == 0x8 && n <= 0x3)) ==>
        Step(s, opcode) == Transition(Completed, s.(vReg := s.vReg[x := after]))
        && (a == 0x6 ==> after == Kk(opcode))
        && (a == 0x8 && n == 0x0 ==> after == s.vReg[y])
        && (a == 0x8 && n == 0x1 ==> after == Or8(s.vReg[x], s.vReg[y]))
        && (a == 0x8 && n == 0x2 ==> after == And8(s.vReg[x], s.vReg[y]))
        && (a == 0x8 && n == 0x3 ==> after == Xor8(s.vReg[x], s.vReg[y]))
  {
  }

  /** 7xkk adds kk to V[x], and panics when the sum does not fit a byte. */
  lemma AddImmediate(s: CpuState, opcode: u16)
    requires s.Valid() && Nibbles(opcode).0 == 0x7
    ensures var (_, x, _, _) := Nibbles(opcode); var kk := Kk(opcode);
      Step(s, opcode) ==
        if s.vReg[x] + kk <= U8_MAX then Transition(Completed, s.(vReg := s.vReg[x := s.vReg[x] + kk]))
        else Transition(Panicked(ArithmeticOverflow), s)
  {
  }

  /** 8xy4 (which subtracts, where CHIP-8 adds) and 8xy5 always panic; when
      V[x] >= V[y] they first store V[x] - V[y] in V[x]. */
  lemma SubtractsThenPanics(s: CpuState, opcode: u16)
    requires s.Valid()
    requires Nibbles(opcode).0 == 0x8 && (Nibbles(opcode).3 == 0x4 || Nibbles(opcode).3 == 0x5)
    ensures var (_, x, y, _) := Nibbles(opcode);
      Step(s, opcode) ==
        if s.vReg[x] < s.vReg[y] then Transition(Panicked(ArithmeticOverflow), s)
        else Transition(Panicked(Unimplemented("borrow flag")), s.(vReg := s.vReg[x := s.vReg[x] - s.vReg[y]]))
  {
  }

  /** 8xy6 stores the low bit of V[x] in VF and then halves V[x]; for x = F the
      halving acts on the flag just written, so VF ends as 0. */
  lemma ShiftRight(s: CpuState, opcode: u16)
    requires s.Valid() && Nibbles(opcode).0 == 0x8 && Nibbles(opcode).3 == 0x6
    ensures var (_, x, _, _) := Nibbles(opcode); var t := Step(s, opcode);
      t.outcome == Completed
      && t.next == s.(vReg := t.next.vReg)
      && (forall r :: 0 <= r < 16 && r != x && r != 0xF ==> t.next.vReg[r] == s.vReg[r])
      && (x != 0xF ==> t.next.vReg[0xF] == s.vReg[x] % 2 && t.next.vReg[x] == s.vReg[x] / 2)
      && (x == 0xF ==> t.next.vReg[0xF] == 0)
  {
    LowBitIsParity(s.vReg[Nibbles(opcode).1]);
  }

  /** 1nnn, Annn and Bnnn assign `pc` or `i_reg`; Bnnn cannot overflow, so its
      target is at most 0xFF + 0xFFF. */
  lemma Jumps(s: CpuState, opcode: u16)
    requires s.Valid()
    ensures var a := Nibbles(opcode).0; var nnn := Nnn(opcode); var t := Step(s, opcode);
      (a == 0x1 ==> t == Transition(Completed, s.(pc := nnn)))
      && (a == 0xA ==> t == Transition(Completed, s.(iReg := nnn)))
      && (a == 0xB ==> t == Transition(Completed, s.(pc := s.vReg[0x0] + nnn)) && t.next.pc <= 0x10FE)
  {
  }

  /** Fx07 copies the delay timer into V[x]; Fx15 and Fx18 copy V[x] into the
      delay and sound timers; Fx1E adds V[x] to `i_reg` and panics past 0xFFFF. */
  lemma TimerAndIndexTransfers(s: CpuState, opcode: u16)
    requires s.Valid() && Nibbles(opcode).0 == 0xF
    ensures var x := Nibbles(opcode).1; var kk := Kk(opcode); var t := Step(s, opcode);
      (kk == 0x07 ==> t == Transition(Completed, s.(vReg := s.vReg[x := s.delayTimer])))
      && (kk == 0x15 ==> t == Transition(Completed, s.(delayTimer := s.vReg[x])))
      && (kk == 0x18 ==> t == Transition(Completed, s.(soundTimer := s.vReg[x])))
      && (kk == 0x1E ==>
            t == if s.iReg + s.vReg[x] <= U16_MAX then Transition(Completed, s.(iReg := s.iReg + s.vReg[x]))
                 else Transition(Panicked(ArithmeticOverflow), s))
  {
  }

  /** The handlers with empty bodies (Cxkk, Dxyn, Ex9E, ExA1, Fx0A, Fx29, Fx55
      and Fx65) complete without changing anything. */
  lemma EmptyHandlers(s: CpuState, opcode: u16)
    requires s.Valid()
    requires var (a, _, _, _) := Nibbles(opcode); var kk := Kk(opcode);
      a == 0xC || a == 0xD || (a == 0xE && kk in {0x9E, 0xA1}) || (a == 0xF && kk in {0x0A, 0x29, 0x55, 0x65})
    ensures Step(s, opcode) == Transition(Completed, s)
  {
    if Nibbles(opcode).0 == 0xF {
      EmptyMiscHandlers(s, opcode);
    }
  }

  lemma EmptyMiscHandlers(s: CpuState, opcode: u16)
    requires s.Valid() && Nibbles(opcode).0 == 0xF && Kk(opcode) in {0x0A, 0x29, 0x55, 0x65}
    ensures Step(s, opcode) == Transition(Completed, s)
  {
  }

  /** Fx33 computes the decimal digits of V[x] and then reaches `todo!`, so the
      digits are never stored and the state is unchanged. */
  lemma BcdIsUnfinished(s: CpuState, opcode: u16)
    requires s.Valid() && Nibbles(opcode).0 == 0xF && Kk(opcode) == 0x33
    ensures Step(s, opcode) == Transition(Panicked(Todo("spec unclear")), s)
  {
  }

  // ---------------------------------------------------------------------
  // Which steps fail

  /** The words whose arm ends in `todo!` or `unimplemented!`: 00E0, 00EE,
      2nnn, 8xy4, 8xy5, 8xy7, 8xyE, 9xy0 and Fx33. */
  predicate Unfinished(opcode: u16) {
    var (a, _, _, n) := Nibbles(opcode);
    opcode == 0x00E0 || opcode == 0x00EE || a == 0x2
    || (a == 0x8 && n in {0x4, 0x5, 0x7, 0xE})
    || (a == 0x9 && n == 0x0)
    || (a == 0xF && Kk(opcode) == 0x33)
  }

  /** The words whose `+=` goes out of range in state `s`: a skip that fires
      with `pc` above 0xFFFD, 7xkk past 0xFF and Fx1E past 0xFFFF. */
  predicate Overflows(s: CpuState, opcode: u16)
    requires s.Valid()
  {
    var (a, x, y, _) := Nibbles(opcode);
    var kk := Kk(opcode);
    var skips := (a == 0x3 && s.vReg[x] == kk) || (a == 0x4 && s.vReg[x] != kk) || (a == 0x5 && s.vReg[x] != s.vReg[y]);
    (skips && s.pc > U16_MAX - 2)
    || (a == 0x7 && s.vReg[x] + kk > U8_MAX)
    || (a == 0xF && kk == 0x1E && s.iReg + s.vReg[x] > U16_MAX)
  }

  /** A step completes exactly when its word reaches an arm, that arm is
      implemented, and no addition in it overflows. */
  lemma StepCompletes(s: CpuState, opcode: u16)
    requires s.Valid()
    ensures Step(s, opcode).outcome.Completed? <==>
      !Unrecognised(opcode) && !Unfinished(opcode) && !Overflows(s, opcode)
  {
    DecodeRejects(opcode);
    var a := Nibbles(opcode).0;
    if a < 0x8 {
      StepCompletesLow(s, opcode);
    } else if a == 0x8 {
      StepCompletesAlu(s, opcode);
    } else if a < 0xF {
      StepCompletesHigh(s, opcode);
    } else {
      StepCompletesMisc(s, opcode);
    }
  }

  lemma StepCompletesLow(s: CpuState, opcode: u16)
    requires s.Valid() && Nibbles(opcode).0 < 0x8
    requires Decode(opcode).None? <==> Unrecognised(opcode)
    ensures Step(s, opcode).outcome.Completed? <==>
      !Unrecognised(opcode) && !Unfinished(opcode) && !Overflows(s, opcode)
  {
  }

  lemma StepCompletesAlu(s: CpuState, opcode: u16)
    requires s.Valid() && Nibbles(opcode).0 == 0x8
    requires Decode(opcode).None? <==> Unrecognised(opcode)
    ensures Step(s, opcode).outcome.Completed? <==>
      !Unrecognised(opcode) && !Unfinished(opcode) && !Overflows(s, opcode)
  {
  }

  lemma StepCompletesHigh(s: CpuState, opcode: u16)
    requires s.Valid() && 0x9 <= Nibbles(opcode).0 < 0xF
    requires Decode(opcode).None? <==> Unrecognised(opcode)
    ensures Step(s, opcode).outcome.Completed? <==>
      !Unrecognised(opcode) && !Unfinished(opcode) && !Overflows(s, opcode)
  {
  }

  lemma StepCompletesMisc(s: CpuState, opcode: u16)
    requires s.Valid() && Nibbles(opcode).0 == 0xF
    requires Decode(opcode).None? <==> Unrecognised(opcode)
    ensures Step(s, opcode).outcome.Completed? <==>
      !Unrecognised(opcode) && !Unfinished(opcode) && !Overflows(s, opcode)
  {
  }

  /** The catch-all arm panics with the offending word exactly on the words
      the dispatcher does not recognise, and changes nothing. */
  lemma StepRejects(s: CpuState, opcode: u16)
    requires s.Valid()
    ensures Step(s, opcode) == Transition(Panicked(BadOpcode(opcode)), s) <==> Unrecognised(opcode)
  {
    DecodeRejects(opcode);
  }

  /** A panicking step leaves the state as it was, except 8xy4 and 8xy5, which
      store V[x] - V[y] before they reach `unimplemented!`. */
  lemma PanicKeepsState(s: CpuState, opcode: u16)
    requires s.Valid() && Step(s, opcode).outcome.Panicked?
    ensures var (a, x, y, n) := Nibbles(opcode);
      Step(s, opcode).next ==
        if a == 0x8 && (n == 0x4 || n == 0x5) && s.vReg[x] >= s.vReg[y]
        then s.(vReg := s.vReg[x := s.vReg[x] - s.vReg[y]])
        else s
  {
    var a := Nibbles(opcode).0;
    if a == 0x8 {
      var (_, x, y, n) := Nibbles(opcode);
      if n == 0x4 || n == 0x5 {
        SubtractsThenPanics(s, opcode);
      }
    } else if a < 0x8 {
      PanicKeepsStateLow(s, opcode);
    } else {
      PanicKeepsStateHigh(s, opcode);
    }
  }

  lemma PanicKeepsStateLow(s: CpuState, opcode: u16)
    requires s.Valid() && Nibbles(opcode).0 < 0x8 && Step(s, opcode).outcome.Panicked?
    ensures Step(s, opcode).next == s
  {
  }

  lemma PanicKeepsStateHigh(s: CpuState, opcode: u16)
    requires s.Valid() && Nibbles(opcode).0 > 0x8 && Step(s, opcode).outcome.Panicked?
    ensures Step(s, opcode).next == s
  {
  }

  // ---------------------------------------------------------------------
  // Runs of several steps

  /** A caller feeding `step` the words of `program` one after another. A
      panic unwinds out of the caller, so a run stops at the first step that
      panics, with that step's outcome and state. */
  function Run(s: CpuState, program: seq<u16>): (t: Transition)
    requires s.Valid()
    ensures t.next.Valid()
    ensures t.next.sp == s.sp && t.next.stack == s.stack && t.next.mem == s.mem
    decreases |program|
  {
    if program == [] then Transition(Completed, s)
    else
      var first := Step(s, program[0]);
      if first.outcome.Panicked? then first else Run(first.next, program[1..])
  }

  /** Running two programs back to back is running the first and, if it did
      not panic, running the second from where the first left off. */
  lemma {:induction false} RunAppend(s: CpuState, p: seq<u16>, q: seq<u16>)
    requires s.Valid()
    ensures Run(s, p + q) ==
      var t := Run(s, p);
      if t.outcome.Panicked? then t else Run(t.next, q)
    decreases |p|
  {
    if p == [] {
      assert p + q == q;
    } else {
      assert (p + q)[0] == p[0];
      assert (p + q)[1..] == p[1..] + q;
      var first := Step(s, p[0]);
      if first.outcome.Completed? {
        RunAppend(first.next, p[1..], q);
      }
    }
  }

  /** A run completes exactly when every step of it completes, each from the
      state the run had reached before it. */
  lemma {:induction false} RunCompletes(s: CpuState, p: seq<u16>)
    requires s.Valid()
    ensures Run(s, p).outcome.Completed? <==>
      forall k :: 0 <= k < |p| ==> Step(Run(s, p[..k]).next, p[k]).outcome.Completed?
    decreases |p|
  {
    if p != [] {
      var first := Step(s, p[0]);
      assert p[..0] == [];
      if first.outcome.Completed? {
        RunCompletes(first.next, p[1..]);
        forall k | 1 <= k < |p|
          ensures Run(s, p[..k]) == Run(first.next, p[1..][..k - 1]) && p[k] == p[1..][k - 1]
        {
          assert p[..k][0] == p[0];
          assert p[..k][1..] == p[1..][..k - 1];
        }
      }
    }
  }

  /** Two steps from power-on: 6005 loads 5 into V0 and 7003 adds 3, while
      `pc` stays at 0x200 because `step` never advances it. */
  lemma LoadThenAddFromDefault()
    ensures var t := Run(Default(), [0x6005, 0x7003]);
      t.outcome == Completed
      && t.next.vReg[0x0] == 8 && t.next.pc == PROGRAM_START
      && t.next == Default().(vReg := Default().vReg[0x0 := 8])
  {
    var s0 := Default();
    assert Nibbles(0x6005) == (0x6, 0x0, 0x0, 0x5);
    assert Nibbles(0x7003) == (0x7, 0x0, 0x0, 0x3);
    var s1 := Step(s0, 0x6005).next;
    assert s1 == s0.(vReg := s0.vReg[0x0 := 5]);
    assert [0x6005, 0x7003][1..] == [0x7003];
    assert [0x7003][1..] == [];
  }
}
