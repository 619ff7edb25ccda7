/** The interpreter as the object the Rust code mutates: a `Cpu` whose
    handlers update its register array and fields in place, one method per
    handler of `src/cpu.rs`, and a `Step` that dispatches a decoded word to
    its handler. Each handler states its effect on the fields it may modify,
    and `Step` is proved to agree with `Semantics.Step` on the abstract state. */
module Interpreter {
  import opened Bits
  import opened Decoder
  import opened Semantics

  class Cpu {
    const vReg: array<u8>
    var iReg: u16
    var sp: u8
    var pc: u16
    var delayTimer: u8
    var soundTimer: u8
    const stack: array<u16>
    const mem: array<u8>

    /** The arrays have the lengths of the Rust arrays, and the register file
        and the memory are separate arrays. It reads only the three `const`
        array references and their lengths, so no handler can break it; the
        handlers that modify something still state it again. */
    ghost predicate Valid()
      reads this
    {
      vReg.Length == 16 && stack.Length == 16 && mem.Length == 0x1000 && vReg != mem
    }

    /** The value the object stands for. */
    ghost function Model(): (s: CpuState)
      reads this, vReg, stack, mem
      ensures Valid() ==> s.Valid()
    {
      CpuState(vReg[..], iReg, sp, pc, delayTimer, soundTimer, stack[..], mem[..])
    }

    /** `CPU::default()`. */
    constructor Default()
      ensures Valid() && Model() == Semantics.Default()
      ensures fresh(vReg) && fresh(stack) && fresh(mem)
    {
      vReg := new u8[16](_ => 0);
      iReg := 0;
      sp := 0;
      pc := PROGRAM_START;
      delayTimer := 0;
      soundTimer := 0;
      stack := new u16[16](_ => 0);
      mem := new u8[0x1000](_ => 0);
      new;
      assert vReg[..] == seq(16, _ => 0);
      assert stack[..] == seq(16, _ => 0);
      assert mem[..] == seq(0x1000, _ => 0);
    }

    /** `reg(x)`: register x of the state the object stands for. */
    function Reg(x: Nibble): (r: u8)
      requires Valid()
      reads this, vReg, stack, mem
      ensures r == Model().vReg[x]
    {
      vReg[x]
    }

    /** The checked `pc += 2` of the skip handlers. */
    method SkipNext() returns (r: Outcome)
      modifies this`pc
      ensures Model() == old(Model()).(pc := pc)
      ensures old(pc) + 2 <= U16_MAX ==> r == Completed && pc == old(pc) + 2
      ensures old(pc) + 2 > U16_MAX ==> r == Panicked(ArithmeticOverflow) && pc == old(pc)
    {
      if pc + 2 <= U16_MAX {
        pc := pc + 2;
        r := Completed;
      } else {
        r := Panicked(ArithmeticOverflow);
      }
    }

    /** Assigns `v_reg[x] = v_reg[x] - v_reg[y]` when that does not go below
        zero; otherwise reports the overflow and writes nothing. */
    method SubtractAssign(x: Nibble, y: Nibble) returns (r: Outcome)
      requires Valid()
      modifies vReg
      ensures Valid()
      ensures Model() == old(Model()).(vReg := vReg[..])
      ensures old(vReg[x]) >= old(vReg[y]) ==>
        r == Completed && vReg[..] == old(vReg[..])[x := old(vReg[x]) - old(vReg[y])]
      ensures old(vReg[x]) < old(vReg[y]) ==>
        r == Panicked(ArithmeticOverflow) && vReg[..] == old(vReg[..])
    {
      if vReg[x] >= vReg[y] {
        vReg[x] := vReg[x] - vReg[y];
        r := Completed;
      } else {
        r := Panicked(ArithmeticOverflow);
      }
    }

    /** `jp_1nnn`. */
    method Jp1nnn(nnn: Addr)
      requires Valid()
      modifies this`pc
      ensures Valid()
      ensures Model() == old(Model()).(pc := pc)
      ensures pc == nnn
      ensures Transition(Completed, Model()) == Semantics.Execute(old(Model()), Jp(nnn))
    {
      pc := nnn;
    }

    /** `call_2nnn`: `unimplemented!`, so the stack is never pushed. */
    method Call2nnn(nnn: Addr) returns (r: Outcome)
      requires Valid()
      ensures r == Panicked(Unimplemented("call"))
      ensures Transition(r, Model()) == Semantics.Execute(old(Model()), Call(nnn))
    {
      r := Panicked(Unimplemented("call"));
    }

    /** `se_3xkk`: skip the next instruction when V[x] equals kk. */
    method Se3xkk(x: Nibble, kk: u8) returns (r: Outcome)
      requires Valid()
      modifies this`pc
      ensures Valid()
      ensures Model() == old(Model()).(pc := pc)
      ensures vReg[x] != kk ==> r == Completed && pc == old(pc)
      ensures vReg[x] == kk && old(pc) + 2 <= U16_MAX ==> r == Completed && pc == old(pc) + 2
      ensures vReg[x] == kk && old(pc) + 2 > U16_MAX ==> r == Panicked(ArithmeticOverflow) && pc == old(pc)
      ensures Transition(r, Model()) == Semantics.Execute(old(Model()), SeByte(x, kk))
    {
      if Reg(x) == kk {
        r := SkipNext();
      } else {
        r := Completed;
      }
    }

    /** `sne_4kk`: skip the next instruction when V[x] differs from kk. */
    method Sne4xkk(x: Nibble, kk: u8) returns (r: Outcome)
      requires Valid()
      modifies this`pc
      ensures Valid()
      ensures Model() == old(Model()).(pc := pc)
      ensures vReg[x] == kk ==> r == Completed && pc == old(pc)
      ensures vReg[x] != kk && old(pc) + 2 <= U16_MAX ==> r == Completed && pc == old(pc) + 2
      ensures vReg[x] != kk && old(pc) + 2 > U16_MAX ==> r == Panicked(ArithmeticOverflow) && pc == old(pc)
      ensures Transition(r, Model()) == Semantics.Execute(old(Model()), SneByte(x, kk))
    {
      if Reg(x) != kk {
        r := SkipNext();
      } else {
        r := Completed;
      }
    }

    /** `se_5xy0`, as written: skip the next instruction when V[x] and V[y]
        DIFFER. */
    method Se5xy0(x: Nibble, y: Nibble) returns (r: Outcome)
      requires Valid()
      modifies this`pc
      ensures Valid()
      ensures Model() == old(Model()).(pc := pc)
      ensures vReg[x] == vReg[y] ==> r == Completed && pc == old(pc)
      ensures vReg[x] != vReg[y] && old(pc) + 2 <= U16_MAX ==> r == Completed && pc == old(pc) + 2
      ensures vReg[x] != vReg[y] && old(pc) + 2 > U16_MAX ==> r == Panicked(ArithmeticOverflow) && pc == old(pc)
      ensures Transition(r, Model()) == Semantics.Execute(old(Model()), SeReg(x, y))
    {
      if Reg(x) != Reg(y) {
        r := SkipNext();
      } else {
        r := Completed;
      }
    }

    /** `ld_6xkk`. */
    method Ld6xkk(x: Nibble, kk: u8)
      requires Valid()
      modifies vReg
      ensures Valid()
      ensures Model() == old(Model()).(vReg := vReg[..])
      ensures vReg[..] == old(vReg[..])[x := kk]
      ensures Transition(Completed, Model()) == Semantics.Execute(old(Model()), LdByte(x, kk))
    {
      vReg[x] := kk;
    }

    /** `add_7xkk`: a checked `+=` on V[x]. */
    method Add7xkk(x: Nibble, kk: u8) returns (r: Outcome)
      requires Valid()
      modifies vReg
      ensures Valid()
      ensures Model() == old(Model()).(vReg := vReg[..])
      ensures old(vReg[x]) + kk <= U8_MAX ==>
        r == Completed && vReg[..] == old(vReg[..])[x := old(vReg[x]) + kk]
      ensures old(vReg[x]) + kk > U8_MAX ==>
        r == Panicked(ArithmeticOverflow) && vReg[..] == old(vReg[..])
      ensures Transition(r, Model()) == Semantics.Execute(old(Model()), AddByte(x, kk))
    {
      if vReg[x] + kk <= U8_MAX {
        vReg[x] := vReg[x] + kk;
        r := Completed;
      } else {
        r := Panicked(ArithmeticOverflow);
      }
    }

    /** `ld_8xy0`. */
    method Ld8xy0(x: Nibble, y: Nibble)
      requires Valid()
      modifies vReg
      ensures Valid()
      ensures Model() == old(Model()).(vReg := vReg[..])
      ensures vReg[..] == old(vReg[..])[x := old(vReg[y])]
      ensures Transition(Completed, Model()) == Semantics.Execute(old(Model()), LdReg(x, y))
    {
      vReg[x] := vReg[y];
    }

    /** `or_8xy1`. */
    method Or8xy1(x: Nibble, y: Nibble)
      requires Valid()
      modifies vReg
      ensures Valid()
      ensures Model() == old(Model()).(vReg := vReg[..])
      ensures vReg[..] == old(vReg[..])[x := Or8(old(vReg[x]), old(vReg[y]))]
      ensures Transition(Completed, Model()) == Semantics.Execute(old(Model()), Or(x, y))
    {
      vReg[x] := Or8(vReg[x], vReg[y]);
    }

    /** `and_8xy2`. */
    method And8xy2(x: Nibble, y: Nibble)
      requires Valid()
      modifies vReg
      ensures Valid()
      ensures Model() == old(Model()).(vReg := vReg[..])
      ensures vReg[..] == old(vReg[..])[x := And8(old(vReg[x]), old(vReg[y]))]
      ensures Transition(Completed, Model()) == Semantics.Execute(old(Model()), And(x, y))
    {
      vReg[x] := And8(vReg[x], vReg[y]);
    }

    /** `xor_8xy3`. */
    method Xor8xy3(x: Nibble, y: Nibble)
      requires Valid()
      modifies vReg
      ensures Valid()
      ensures Model() == old(Model()).(vReg := vReg[..])
      ensures vReg[..] == old(vReg[..])[x := Xor8(old(vReg[x]), old(vReg[y]))]
      ensures Transition(Completed, Model()) == Semantics.Execute(old(Model()), Xor(x, y))
    {
      vReg[x] := Xor8(vReg[x], vReg[y]);
    }

    /** `add_8xy4`, as written: it SUBTRACTS V[y] from V[x] and then reaches
        `unimplemented!`, keeping the write. */
    method Add8xy4(x: Nibble, y: Nibble) returns (r: Outcome)
      requires Valid()
      modifies vReg
      ensures Valid()
      ensures Model() == old(Model()).(vReg := vReg[..])
      ensures old(vReg[x]) >= old(vReg[y]) ==>
        r == Panicked(Unimplemented("borrow flag")) && vReg[..] == old(vReg[..])[x := old(vReg[x]) - old(vReg[y])]
      ensures old(vReg[x]) < old(vReg[y]) ==>
        r == Panicked(ArithmeticOverflow) && vReg[..] == old(vReg[..])
      ensures Transition(r, Model()) == Semantics.Execute(old(Model()), AddReg(x, y))
    {
      r := SubtractAssign(x, y);
      if r == Completed {
        r := Panicked(Unimplemented("borrow flag"));
      }
    }

    /** `sub_8xy5`: subtracts V[y] from V[x] and then reaches `unimplemented!`,
        keeping the write. */
    method Sub8xy5(x: Nibble, y: Nibble) returns (r: Outcome)
      requires Valid()
      modifies vReg
      ensures Valid()
      ensures Model() == old(Model()).(vReg := vReg[..])
      ensures old(vReg[x]) >= old(vReg[y]) ==>
        r == Panicked(Unimplemented("borrow flag")) && vReg[..] == old(vReg[..])[x := old(vReg[x]) - old(vReg[y])]
      ensures old(vReg[x]) < old(vReg[y]) ==>
        r == Panicked(ArithmeticOverflow) && vReg[..] == old(vReg[..])
      ensures Transition(r, Model()) == Semantics.Execute(old(Model()), Sub(x, y))
    {
      r := SubtractAssign(x, y);
      if r == Completed {
        r := Panicked(Unimplemented("borrow flag"));
      }
    }

    /** `shr_8xy6`: VF receives the low bit of V[x], then V[x] is halved. The
        halving reads V[x] after the flag write, so for x = F it halves the
        flag. */
    method Shr8xy6(x: Nibble, y: Nibble)
      requires Valid()
      modifies vReg
      ensures Valid()
      ensures Model() == old(Model()).(vReg := vReg[..])
      ensures forall r :: 0 <= r < 16 && r != x && r != 0xF ==> vReg[r] == old(vReg[r])
      ensures x != 0xF ==> vReg[0xF] == old(vReg[x]) % 2 && vReg[x] == old(vReg[x]) / 2
      ensures x == 0xF ==> vReg[0xF] == 0
      ensures var flagged := old(vReg[..])[0xF := And8(old(vReg[x]), 0x01)];
        vReg[..] == flagged[x := flagged[x] / 2]
      ensures Transition(Completed, Model()) == Semantics.Execute(old(Model()), Shr(x, y))
    {
      LowBitIsParity(vReg[x]);
      var lsb := And8(vReg[x], 0x01);
      vReg[0xF] := lsb;
      vReg[x] := vReg[x] / 2;
    }

    /** `subn_8xy7`: `todo!`. */
    method Subn8xy7(x: Nibble, y: Nibble) returns (r: Outcome)
      requires Valid()
      ensures r == Panicked(Todo("subn8xy7"))
      ensures Transition(r, Model()) == Semantics.Execute(old(Model()), Subn(x, y))
    {
      r := Panicked(Todo("subn8xy7"));
    }

    /** `shl_8xye`: `todo!()`. */
    method Shl8xye(x: Nibble, y: Nibble) returns (r: Outcome)
      requires Valid()
      ensures r == Panicked(Todo(""))
      ensures Transition(r, Model()) == Semantics.Execute(old(Model()), Shl(x, y))
    {
      r := Panicked(Todo(""));
    }

    /** `sne_9xy0`: `todo!()`. */
    method Sne9xy0(x: Nibble, y: Nibble) returns (r: Outcome)
      requires Valid()
      ensures r == Panicked(Todo(""))
      ensures Transition(r, Model()) == Semantics.Execute(old(Model()), SneReg(x, y))
    {
      r := Panicked(Todo(""));
    }

    /** `ldi_annn`. */
    method LdiAnnn(nnn: Addr)
      requires Valid()
      modifies this`iReg
      ensures Valid()
      ensures Model() == old(Model()).(iReg := iReg)
      ensures iReg == nnn
      ensures Transition(Completed, Model()) == Semantics.Execute(old(Model()), LdI(nnn))
    {
      iReg := nnn;
    }

    /** `jpv0_bnnn`: the sum of V0 and nnn is at most 0x10FE, so it fits `u16`. */
    method Jpv0Bnnn(nnn: Addr)
      requires Valid()
      modifies this`pc
      ensures Valid()
      ensures Model() == old(Model()).(pc := pc)
      ensures pc == vReg[0x0] + nnn && pc <= 0x10FE
      ensures Transition(Completed, Model()) == Semantics.Execute(old(Model()), JpV0(nnn))
    {
      pc := Reg(0x0) + nnn;
    }

    /** `rnd_cxkk`: empty. */
    method RndCxkk(x: Nibble, kk: u8)
      requires Valid()
      ensures unchanged(this, vReg, stack, mem)
      ensures Transition(Completed, Model()) == Semantics.Execute(old(Model()), Rnd(x, kk))
    {
    }

    /** `drw_dxyn`: empty. */
    method DrwDxyn(x: Nibble, y: Nibble, n: Nibble)
      requires Valid()
      ensures unchanged(this, vReg, stack, mem)
      ensures Transition(Completed, Model()) == Semantics.Execute(old(Model()), Drw(x, y, n))
    {
    }

    /** `skp_ex9e`: empty. */
    method SkpEx9e(x: Nibble)
      requires Valid()
      ensures unchanged(this, vReg, stack, mem)
      ensures Transition(Completed, Model()) == Semantics.Execute(old(Model()), Skp(x))
    {
    }

    /** `sknp_exa1`: empty. */
    method SknpExa1(x: Nibble)
      requires Valid()
      ensures unchanged(this, vReg, stack, mem)
      ensures Transition(Completed, Model()) == Semantics.Execute(old(Model()), Sknp(x))
    {
    }

    /** `ld_fx07`. */
    method LdFx07(x: Nibble)
      requires Valid()
      modifies vReg
      ensures Valid()
      ensures Model() == old(Model()).(vReg := vReg[..])
      ensures vReg[..] == old(vReg[..])[x := delayTimer]
      ensures Transition(Completed, Model()) == Semantics.Execute(old(Model()), LdVxDt(x))
    {
      vReg[x] := delayTimer;
    }

    /** `ld_fx0a`: empty. */
    method LdFx0a(x: Nibble)
      requires Valid()
      ensures unchanged(this, vReg, stack, mem)
      ensures Transition(Completed, Model()) == Semantics.Execute(old(Model()), LdVxKey(x))
    {
    }

    /** `ld_fx15`. */
    method LdFx15(x: Nibble)
      requires Valid()
      modifies this`delayTimer
      ensures Valid()
      ensures Model() == old(Model()).(delayTimer := delayTimer)
      ensures delayTimer == vReg[x]
      ensures Transition(Completed, Model()) == Semantics.Execute(old(Model()), LdDtVx(x))
    {
      delayTimer := Reg(x);
    }

    /** `ld_fx18`. */
    method LdFx18(x: Nibble)
      requires Valid()
      modifies this`soundTimer
      ensures Valid()
      ensures Model() == old(Model()).(soundTimer := soundTimer)
      ensures soundTimer == vReg[x]
      ensures Transition(Completed, Model()) == Semantics.Execute(old(Model()), LdStVx(x))
    {
      soundTimer := Reg(x);
    }

    /** `add_fx1e`: a checked `+=` on `i_reg`. */
    method AddFx1e(x: Nibble) returns (r: Outcome)
      requires Valid()
      modifies this`iReg
      ensures Valid()
      ensures Model() == old(Model()).(iReg := iReg)
      ensures old(iReg) + vReg[x] <= U16_MAX ==> r == Completed && iReg == old(iReg) + vReg[x]
      ensures old(iReg) + vReg[x] > U16_MAX ==> r == Panicked(ArithmeticOverflow) && iReg == old(iReg)
      ensures Transition(r, Model()) == Semantics.Execute(old(Model()), AddI(x))
    {
      if iReg + Reg(x) <= U16_MAX {
        iReg := iReg + Reg(x);
        r := Completed;
      } else {
        r := Panicked(ArithmeticOverflow);
      }
    }

    /** `ld_fx29`: empty. */
    method LdFx29(x: Nibble)
      requires Valid()
      ensures unchanged(this, vReg, stack, mem)
      ensures Transition(Completed, Model()) == Semantics.Execute(old(Model()), LdFont(x))
    {
    }

    /** `ld_fx33`: splits V[x] into decimal digits, then reaches `todo!`
        before storing them. */
    method LdFx33(x: Nibble) returns (r: Outcome)
      requires Valid()
      ensures r == Panicked(Todo("spec unclear"))
      ensures Transition(r, Model()) == Semantics.Execute(old(Model()), LdBcd(x))
    {
      var digits := Bcd(Reg(x));
      r := Panicked(Todo("spec unclear"));
    }

    /** `ld_fx55`: empty. */
    method LdFx55(x: Nibble)
      requires Valid()
      ensures unchanged(this, vReg, stack, mem)
      ensures Transition(Completed, Model()) == Semantics.Execute(old(Model()), Store(x))
    {
    }

    /** `ld_fx65`: empty. */
    method LdFx65(x: Nibble)
      requires Valid()
      ensures unchanged(this, vReg, stack, mem)
      ensures Transition(Completed, Model()) == Semantics.Execute(old(Model()), Load(x))
    {
    }

    /** `step(opcode)`: runs the handler of the arm the word reaches, or
        panics with the word when it reaches none. It neither fetches nor
        advances `pc`. */
    method Step(opcode: u16) returns (r: Outcome)
      requires Valid()
      modifies this, vReg
      ensures Valid()
      ensures Transition(r, Model()) == Semantics.Step(old(Model()), opcode)
    {
      match Decode(opcode)
      case None =>
        r := Panicked(BadOpcode(opcode));
      case Some(ins) =>
        match ins
        case Cls => r := Panicked(Todo("CLS"));
        case Ret => r := Panicked(Todo("RET"));
        case Jp(nnn) => Jp1nnn(nnn); r := Completed;
        case Call(nnn) => r := Call2nnn(nnn);
        case SeByte(x, kk) => r := Se3xkk(x, kk);
        case SneByte(x, kk) => r := Sne4xkk(x, kk);
        case SeReg(x, y) => r := Se5xy0(x, y);
        case LdByte(x, kk) => Ld6xkk(x, kk); r := Completed;
        case AddByte(x, kk) => r := Add7xkk(x, kk);
        case LdReg(x, y) => Ld8xy0(x, y); r := Completed;
        case Or(x, y) => Or8xy1(x, y); r := Completed;
        case And(x, y) => And8xy2(x, y); r := Completed;
        case Xor(x, y) => Xor8xy3(x, y); r := Completed;
        case AddReg(x, y) => r := Add8xy4(x, y);
        case Sub(x, y) => r := Sub8xy5(x, y);
        case Shr(x, y) => Shr8xy6(x, y); r := Completed;
        case Subn(x, y) => r := Subn8xy7(x, y);
        case Shl(x, y) => r := Shl8xye(x, y);
        case SneReg(x, y) => r := Sne9xy0(x, y);
        case LdI(nnn) => LdiAnnn(nnn); r := Completed;
        case JpV0(nnn) => Jpv0Bnnn(nnn); r := Completed;
        case Rnd(x, kk) => RndCxkk(x, kk); r := Completed;
        case Drw(x, y, n) => DrwDxyn(x, y, n); r := Completed;
        case Skp(x) => SkpEx9e(x); r := Completed;
        case Sknp(x) => SknpExa1(x); r := Completed;
        case LdVxDt(x) => LdFx07(x); r := Completed;
        case LdVxKey(x) => LdFx0a(x); r := Completed;
        case LdDtVx(x) => LdFx15(x); r := Completed;
        case LdStVx(x) => LdFx18(x); r := Completed;
        case AddI(x) => r := AddFx1e(x);
        case LdFont(x) => LdFx29(x); r := Completed;
        case LdBcd(x) => r := LdFx33(x);
        case Store(x) => LdFx55(x); r := Completed;
        case Load(x) => LdFx65(x); r := Completed;
    }
  }
}
