/** Instruction-word decoding: the bit-field extractors of the interpreter and
    the opcode table its dispatcher matches against.

    The table is the arm selection of `CPU::step`: `Decode` returns the arm an
    instruction word reaches, as an `Instr` carrying the operands the arm
    passes to its handler, or `None` for the final catch-all arm that panics
    with "bad opcode". `Encode` is the canonical CHIP-8 encoding of each form;
    the two round-trip lemmas at the end tie them together. */
module Decoder {
  import opened Bits

  datatype Option<T> = None | Some(value: T)

  /** The four nibbles of a word, most significant first: `opcode & 0xF000 >> 12`,
      `opcode & 0x0F00 >> 8`, `opcode & 0x00F0 >> 4` and `opcode & 0x000F`. */
  function Nibbles(opcode: u16): (r: (Nibble, Nibble, Nibble, Nibble))
    ensures r.0 * 0x1000 + r.1 * 0x100 + r.2 * 0x10 + r.3 == opcode
  {
    NibbleSplit(opcode);
    (opcode / 0x1000, opcode / 0x100 % 0x10, opcode / 0x10 % 0x10, opcode % 0x10)
  }

  /** A word is the sum of its nibbles, each less than 0x10, at their weights. */
  lemma NibbleSplit(w: u16)
    ensures w / 0x1000 < 0x10
    ensures w / 0x1000 * 0x1000 + w / 0x100 % 0x10 * 0x100 + w / 0x10 % 0x10 * 0x10 + w % 0x10 == w
  {
    var q1, r1 := w / 0x10, w % 0x10;
    var q2, r2 := q1 / 0x10, q1 % 0x10;
    var q3, r3 := q2 / 0x10, q2 % 0x10;
    assert w == ((q3 * 0x10 + r3) * 0x10 + r2) * 0x10 + r1;
    DivMod(w, 0x1000, q3, r3 * 0x100 + r2 * 0x10 + r1);
    DivMod(w, 0x100, q2, r2 * 0x10 + r1);
  }

  /** The word with the given nibbles, most significant first. */
  function Word(a: Nibble, b: Nibble, c: Nibble, d: Nibble): u16 {
    a * 0x1000 + b * 0x100 + c * 0x10 + d
  }

  /** `opcode & 0x0FFF`: the low three nibbles. */
  function Nnn(opcode: u16): (r: Addr)
    ensures var (_, b, c, d) := Nibbles(opcode); r == b * 0x100 + c * 0x10 + d
  {
    opcode % 0x1000
  }

  /** `opcode & 0x00FF`: the low byte. */
  function Kk(opcode: u16): (r: u8)
    ensures var (_, _, c, d) := Nibbles(opcode); r == c * 0x10 + d
  {
    opcode % 0x100
  }

  /** The register index in the second nibble and the low byte. */
  function Xkk(opcode: u16): (r: (Nibble, u8))
    ensures var (_, b, _, _) := Nibbles(opcode); r == (b, Kk(opcode))
    ensures r.0 * 0x100 + r.1 == Nnn(opcode)
  {
    (opcode / 0x100 % 0x10, opcode % 0x100)
  }

  /** The last three nibbles, the first two widened to `usize` as in the source. */
  function Xyz(opcode: u16): (r: (nat, nat, u16))
    ensures var (_, b, c, d) := Nibbles(opcode); r == (b, c, d)
  {
    (opcode / 0x100 % 0x10, opcode / 0x10 % 0x10, opcode % 0x10)
  }

  /** Nibbles recovers the fields a word was built from. */
  lemma NibblesOfWord(a: Nibble, b: Nibble, c: Nibble, d: Nibble)
    ensures Nibbles(Word(a, b, c, d)) == (a, b, c, d)
  {
    var w := Word(a, b, c, d);
    DivMod(w, 0x10, a * 0x100 + b * 0x10 + c, d);
    DivMod(w, 0x100, a * 0x10 + b, c * 0x10 + d);
    DivMod(w, 0x1000, a, b * 0x100 + c * 0x10 + d);
    DivMod(a * 0x100 + b * 0x10 + c, 0x10, a * 0x10 + b, c);
    DivMod(a * 0x10 + b, 0x10, a, b);
  }

  /** One constructor per arm of the dispatcher, named after the CHIP-8
      mnemonic; `x` and `y` are register indices, `kk` an immediate byte,
      `nnn` an address and `n` a sprite height. */
  datatype Instr =
    | Cls                                  // 00E0
    | Ret                                  // 00EE
    | Jp(nnn: Addr)                        // 1nnn
    | Call(nnn: Addr)                      // 2nnn
    | SeByte(x: Nibble, kk: u8)            // 3xkk
    | SneByte(x: Nibble, kk: u8)           // 4xkk
    | SeReg(x: Nibble, y: Nibble)          // 5xy0 (any last nibble is accepted)
    | LdByte(x: Nibble, kk: u8)            // 6xkk
    | AddByte(x: Nibble, kk: u8)           // 7xkk
    | LdReg(x: Nibble, y: Nibble)          // 8xy0
    | Or(x: Nibble, y: Nibble)             // 8xy1
    | And(x: Nibble, y: Nibble)            // 8xy2
    | Xor(x: Nibble, y: Nibble)            // 8xy3
    | AddReg(x: Nibble, y: Nibble)         // 8xy4
    | Sub(x: Nibble, y: Nibble)            // 8xy5
    | Shr(x: Nibble, y: Nibble)            // 8xy6
    | Subn(x: Nibble, y: Nibble)           // 8xy7
    | Shl(x: Nibble, y: Nibble)            // 8xyE
    | SneReg(x: Nibble, y: Nibble)         // 9xy0
    | LdI(nnn: Addr)                       // Annn
    | JpV0(nnn: Addr)                      // Bnnn
    | Rnd(x: Nibble, kk: u8)               // Cxkk
    | Drw(x: Nibble, y: Nibble, n: Nibble) // Dxyn
    | Skp(x: Nibble)                       // Ex9E
    | Sknp(x: Nibble)                      // ExA1
    | LdVxDt(x: Nibble)                    // Fx07
    | LdVxKey(x: Nibble)                   // Fx0A
    | LdDtVx(x: Nibble)                    // Fx15
    | LdStVx(x: Nibble)                    // Fx18
    | AddI(x: Nibble)                      // Fx1E
    | LdFont(x: Nibble)                    // Fx29
    | LdBcd(x: Nibble)                     // Fx33
    | Store(x: Nibble)                     // Fx55
    | Load(x: Nibble)                      // Fx65

  /** The arm of the dispatcher that a word reaches. The arms of the source
      are disjoint apart from the final catch-all, so they are grouped here by
      the first nibble; `None` is the catch-all. */
  function Decode(opcode: u16): (r: Option<Instr>)
    ensures r.Some? ==> Fields(r.value).0 == Nibbles(opcode).0
  {
    Dispatch(Nibbles(opcode), Nnn(opcode), Kk(opcode))
  }

  /** The arm selected by the nibbles of a word, given its `nnn` and `kk` fields. */
  function Dispatch(nibbles: (Nibble, Nibble, Nibble, Nibble), nnn: Addr, kk: u8): (r: Option<Instr>)
    ensures r.Some? ==> Fields(r.value).0 == nibbles.0
  {
    var (a, x, y, n) := nibbles;
    match a
    case 0x0 =>
      if x == 0x0 && y == 0xE && n == 0x0 then Some(Cls)
      else if x == 0x0 && y == 0xE && n == 0xE then Some(Ret)
      else None
    case 0x1 => Some(Jp(nnn))
    case 0x2 => Some(Call(nnn))
    case 0x3 => Some(SeByte(x, kk))
    case 0x4 => Some(SneByte(x, kk))
    case 0x5 => Some(SeReg(x, y))
    case 0x6 => Some(LdByte(x, kk))
    case 0x7 => Some(AddByte(x, kk))
    case 0x8 => DecodeAlu(x, y, n)
    case 0x9 => if n == 0x0 then Some(SneReg(x, y)) else None
    case 0xA => Some(LdI(nnn))
    case 0xB => Some(JpV0(nnn))
    case 0xC => Some(Rnd(x, kk))
    case 0xD => Some(Drw(x, y, n))
    case 0xE =>
      if kk == 0x9E then Some(Skp(x))
      else if kk == 0xA1 then Some(Sknp(x))
      else None
    case 0xF => DecodeMisc(x, kk)
  }

  /** The 8xyN arms: N from 0 to 7 and E, each with the canonical word 8xyN. */
  function DecodeAlu(x: Nibble, y: Nibble, n: Nibble): (r: Option<Instr>)
    ensures r.Some? <==> n <= 0x7 || n == 0xE
    ensures r.Some? ==> Fields(r.value) == (0x8, x, y, n)
  {
    match n
    case 0x0 => Some(LdReg(x, y))
    case 0x1 => Some(Or(x, y))
    case 0x2 => Some(And(x, y))
    case 0x3 => Some(Xor(x, y))
    case 0x4 => Some(AddReg(x, y))
    case 0x5 => Some(Sub(x, y))
    case 0x6 => Some(Shr(x, y))
    case 0x7 => Some(Subn(x, y))
    case 0xE => Some(Shl(x, y))
    case _ => None
  }

  /** The FxNN arms, selected by the low byte, each with the canonical word
      FxNN. */
  function DecodeMisc(x: Nibble, kk: u8): (r: Option<Instr>)
    ensures r.Some? <==> kk in {0x07, 0x0A, 0x15, 0x18, 0x1E, 0x29, 0x33, 0x55, 0x65}
    ensures r.Some? ==> Fields(r.value) == (0xF, x, kk / 0x10, kk % 0x10)
  {
    match kk
    case 0x07 => Some(LdVxDt(x))
    case 0x0A => Some(LdVxKey(x))
    case 0x15 => Some(LdDtVx(x))
    case 0x18 => Some(LdStVx(x))
    case 0x1E => Some(AddI(x))
    case 0x29 => Some(LdFont(x))
    case 0x33 => Some(LdBcd(x))
    case 0x55 => Some(Store(x))
    case 0x65 => Some(Load(x))
    case _ => None
  }

  /** The nibbles of the canonical CHIP-8 word of each instruction form. */
  function Fields(ins: Instr): (Nibble, Nibble, Nibble, Nibble) {
    match ins
    case Cls => (0x0, 0x0, 0xE, 0x0)
    case Ret => (0x0, 0x0, 0xE, 0xE)
    case Jp(nnn) => WithAddr(0x1, nnn)
    case Call(nnn) => WithAddr(0x2, nnn)
    case SeByte(x, kk) => WithByte(0x3, x, kk)
    case SneByte(x, kk) => WithByte(0x4, x, kk)
    case SeReg(x, y) => (0x5, x, y, 0x0)
    case LdByte(x, kk) => WithByte(0x6, x, kk)
    case AddByte(x, kk) => WithByte(0x7, x, kk)
    case LdReg(x, y) => (0x8, x, y, 0x0)
    case Or(x, y) => (0x8, x, y, 0x1)
    case And(x, y) => (0x8, x, y, 0x2)
    case Xor(x, y) => (0x8, x, y, 0x3)
    case AddReg(x, y) => (0x8, x, y, 0x4)
    case Sub(x, y) => (0x8, x, y, 0x5)
    case Shr(x, y) => (0x8, x, y, 0x6)
    case Subn(x, y) => (0x8, x, y, 0x7)
    case Shl(x, y) => (0x8, x, y, 0xE)
    case SneReg(x, y) => (0x9, x, y, 0x0)
    case LdI(nnn) => WithAddr(0xA, nnn)
    case JpV0(nnn) => WithAddr(0xB, nnn)
    case Rnd(x, kk) => WithByte(0xC, x, kk)
    case Drw(x, y, n) => (0xD, x, y, n)
    case Skp(x) => (0xE, x, 0x9, 0xE)
    case Sknp(x) => (0xE, x, 0xA, 0x1)
    case LdVxDt(x) => (0xF, x, 0x0, 0x7)
    case LdVxKey(x) => (0xF, x, 0x0, 0xA)
    case LdDtVx(x) => (0xF, x, 0x1, 0x5)
    case LdStVx(x) => (0xF, x, 0x1, 0x8)
    case AddI(x) => (0xF, x, 0x1, 0xE)
    case LdFont(x) => (0xF, x, 0x2, 0x9)
    case LdBcd(x) => (0xF, x, 0x3, 0x3)
    case Store(x) => (0xF, x, 0x5, 0x5)
    case Load(x) => (0xF, x, 0x6, 0x5)
  }

  /** The nibbles of a word whose low three nibbles are an address. */
  function WithAddr(a: Nibble, nnn: Addr): (Nibble, Nibble, Nibble, Nibble) {
    (a, nnn / 0x100, nnn / 0x10 % 0x10, nnn % 0x10)
  }

  /** The nibbles of a word whose low byte is an immediate. */
  function WithByte(a: Nibble, x: Nibble, kk: u8): (Nibble, Nibble, Nibble, Nibble) {
    (a, x, kk / 0x10, kk % 0x10)
  }

  /** The canonical CHIP-8 word of an instruction. */
  function Encode(ins: Instr): u16 {
    var (a, b, c, d) := Fields(ins);
    Word(a, b, c, d)
  }

  /** The `nnn` and `kk` fields the dispatcher reads from a word with these nibbles. */
  function NnnOf(f: (Nibble, Nibble, Nibble, Nibble)): Addr {
    f.1 * 0x100 + f.2 * 0x10 + f.3
  }

  function KkOf(f: (Nibble, Nibble, Nibble, Nibble)): u8 {
    f.2 * 0x10 + f.3
  }

  /** The dispatcher reaches the arm of every canonically encoded instruction,
      with the same operands. */
  lemma DecodeEncode(ins: Instr)
    ensures Decode(Encode(ins)) == Some(ins)
  {
    var (a, b, c, d) := Fields(ins);
    DecodeWord(a, b, c, d);
    DispatchFields(ins);
  }

  /** Decoding a word built from four nibbles consults exactly those nibbles. */
  lemma DecodeWord(a: Nibble, b: Nibble, c: Nibble, d: Nibble)
    ensures Decode(Word(a, b, c, d)) == Dispatch((a, b, c, d), NnnOf((a, b, c, d)), KkOf((a, b, c, d)))
  {
    var w := Word(a, b, c, d);
    NibblesOfWord(a, b, c, d);
    assert Nnn(w) == NnnOf((a, b, c, d)) && Kk(w) == KkOf((a, b, c, d));
  }

  /** DecodeEncode on nibbles: the canonical nibbles of a form select its arm. */
  lemma DispatchFields(ins: Instr)
    ensures var f := Fields(ins); Dispatch(f, NnnOf(f), KkOf(f)) == Some(ins)
  {
    if ins.Cls? || ins.Ret? || ins.Jp? || ins.Call? || ins.SeByte? || ins.SneByte? || ins.SeReg? || ins.LdByte? || ins.AddByte? {
      DispatchFieldsLow(ins);
    } else if ins.LdReg? || ins.Or? || ins.And? || ins.Xor? || ins.AddReg? || ins.Sub? || ins.Shr? || ins.Subn? || ins.Shl? || ins.SneReg? {
      DispatchFieldsAlu(ins);
    } else if ins.LdI? || ins.JpV0? || ins.Rnd? || ins.Drw? || ins.Skp? || ins.Sknp? {
      DispatchFieldsHigh(ins);
    } else {
      DispatchFieldsMisc(ins);
    }
  }

  /** DispatchFields for the words 0nnn to 7xkk. */
  lemma DispatchFieldsLow(ins: Instr)
    requires ins.Cls? || ins.Ret? || ins.Jp? || ins.Call? || ins.SeByte? || ins.SneByte? || ins.SeReg? || ins.LdByte? || ins.AddByte?
    ensures var f := Fields(ins); Dispatch(f, NnnOf(f), KkOf(f)) == Some(ins)
  {
    if ins.Jp? || ins.Call? {
      AddrParts(ins.nnn);
    } else if ins.SeByte? || ins.SneByte? || ins.LdByte? || ins.AddByte? {
      ByteParts(ins.kk);
    }
  }

  /** DispatchFields for the words 8xyN and 9xy0. */
  lemma DispatchFieldsAlu(ins: Instr)
    requires ins.LdReg? || ins.Or? || ins.And? || ins.Xor? || ins.AddReg? || ins.Sub? || ins.Shr? || ins.Subn? || ins.Shl? || ins.SneReg?
    ensures var f := Fields(ins); Dispatch(f, NnnOf(f), KkOf(f)) == Some(ins)
  {
  }

  /** DispatchFields for the words Annn to ExA1. */
  lemma DispatchFieldsHigh(ins: Instr)
    requires ins.LdI? || ins.JpV0? || ins.Rnd? || ins.Drw? || ins.Skp? || ins.Sknp?
    ensures var f := Fields(ins); Dispatch(f, NnnOf(f), KkOf(f)) == Some(ins)
  {
    if ins.LdI? || ins.JpV0? {
      AddrParts(ins.nnn);
    } else if ins.Rnd? {
      ByteParts(ins.kk);
    }
  }

  /** DispatchFields for the words FxNN. */
  lemma DispatchFieldsMisc(ins: Instr)
    requires ins.LdVxDt? || ins.LdVxKey? || ins.LdDtVx? || ins.LdStVx? || ins.AddI? || ins.LdFont? || ins.LdBcd? || ins.Store? || ins.Load?
    ensures var f := Fields(ins); Dispatch(f, NnnOf(f), KkOf(f)) == Some(ins)
  {
  }

  /** The two nibbles of a byte give back the byte. */
  lemma ByteParts(kk: u8)
    ensures forall a: Nibble, x: Nibble :: KkOf(WithByte(a, x, kk)) == kk
  {
    DivMod(kk, 0x10, kk / 0x10, kk % 0x10);
  }

  /** The three nibbles of an address give back the address. */
  lemma AddrParts(nnn: Addr)
    ensures forall a: Nibble :: NnnOf(WithAddr(a, nnn)) == nnn
  {
    DivMod(nnn, 0x10, nnn / 0x10, nnn % 0x10);
    DivMod(nnn / 0x10, 0x10, nnn / 0x100, nnn / 0x10 % 0x10);
  }

  /** Conversely, a word that reaches an arm is the canonical encoding of what
      was decoded from it, except that 5xyN is accepted for every N: its last
      nibble is ignored rather than required to be 0. */
  lemma EncodeDecode(opcode: u16)
    ensures Decode(opcode).Some? ==>
      Encode(Decode(opcode).value) == if Decode(opcode).value.SeReg? then opcode - opcode % 0x10 else opcode
  {
    var (a, b, c, d) := Nibbles(opcode);
    var f := (a, b, c, d);
    assert Nnn(opcode) == NnnOf(f) && Kk(opcode) == KkOf(f);
    assert Decode(opcode) == Dispatch(f, NnnOf(f), KkOf(f));
    assert opcode % 0x10 == d;
    FieldsDispatch(a, b, c, d);
    if Decode(opcode).Some? {
      var ins := Decode(opcode).value;
      assert Encode(ins) == Word(Fields(ins).0, Fields(ins).1, Fields(ins).2, Fields(ins).3);
    }
  }

  /** The `kk` and `nnn` fields of four nibbles split back into those nibbles. */
  predicate FieldsSplit(a: Nibble, b: Nibble, c: Nibble, d: Nibble) {
    var f := (a, b, c, d);
    KkOf(f) / 0x10 == c && KkOf(f) % 0x10 == d
    && NnnOf(f) / 0x100 == b && NnnOf(f) / 0x10 % 0x10 == c && NnnOf(f) % 0x10 == d
  }

  /** The arm reached from four nibbles, if any, has those nibbles as its
      canonical ones, except for the ignored last nibble of 5xyN. */
  predicate Reencodes(a: Nibble, b: Nibble, c: Nibble, d: Nibble) {
    var f := (a, b, c, d);
    var r := Dispatch(f, NnnOf(f), KkOf(f));
    r.Some? ==> Fields(r.value) == if r.value.SeReg? then (a, b, c, 0x0) else f
  }

  /** EncodeDecode on nibbles. */
  lemma FieldsDispatch(a: Nibble, b: Nibble, c: Nibble, d: Nibble)
    ensures Reencodes(a, b, c, d)
  {
    var f := (a, b, c, d);
    DivMod(KkOf(f), 0x10, c, d);
    DivMod(NnnOf(f), 0x10, b * 0x10 + c, d);
    DivMod(b * 0x10 + c, 0x10, b, c);
    DivMod(NnnOf(f), 0x100, b, KkOf(f));
    if a < 0x8 {
      FieldsDispatchLow(a, b, c, d);
    } else if a < 0xA {
      FieldsDispatchAlu(a, b, c, d);
    } else if a < 0xF {
      FieldsDispatchHigh(a, b, c, d);
    } else {
      FieldsDispatchMisc(a, b, c, d);
    }
  }

  /** FieldsDispatch for the words 0nnn to 7xkk. */
  lemma FieldsDispatchLow(a: Nibble, b: Nibble, c: Nibble, d: Nibble)
    requires 0x0 <= a < 0x8
    requires FieldsSplit(a, b, c, d)
    ensures Reencodes(a, b, c, d)
  {
  }

  /** FieldsDispatch for the words 8xyN and 9xyN. */
  lemma FieldsDispatchAlu(a: Nibble, b: Nibble, c: Nibble, d: Nibble)
    requires 0x8 <= a < 0xA
    requires FieldsSplit(a, b, c, d)
    ensures Reencodes(a, b, c, d)
  {
  }

  /** FieldsDispatch for the words Annn to ExNN. */
  lemma FieldsDispatchHigh(a: Nibble, b: Nibble, c: Nibble, d: Nibble)
    requires 0xA <= a < 0xF
    requires FieldsSplit(a, b, c, d)
    ensures Reencodes(a, b, c, d)
  {
  }

  /** FieldsDispatch for the words FxNN. */
  lemma FieldsDispatchMisc(a: Nibble, b: Nibble, c: Nibble, d: Nibble)
    requires a == 0xF
    requires FieldsSplit(a, b, c, d)
    ensures Reencodes(a, b, c, d)
  {
    if c < 0x2 {
      FieldsDispatchTimers(a, b, c, d);
    } else {
      FieldsDispatchMemory(a, b, c, d);
    }
  }

  /** FieldsDispatch for the words Fx00 to Fx1F. */
  lemma FieldsDispatchTimers(a: Nibble, b: Nibble, c: Nibble, d: Nibble)
    requires a == 0xF && c < 0x2
    requires FieldsSplit(a, b, c, d)
    ensures Reencodes(a, b, c, d)
  {
  }

  /** FieldsDispatch for the words Fx20 to FxFF. */
  lemma FieldsDispatchMemory(a: Nibble, b: Nibble, c: Nibble, d: Nibble)
    requires a == 0xF && c >= 0x2
    requires FieldsSplit(a, b, c, d)
    ensures Reencodes(a, b, c, d)
  {
  }

  /** The words the dispatcher rejects, stated as a table of patterns: any
      0nnn other than 00E0 and 00EE, 8xyN with N outside 0-7 and E, 9xyN with
      N other than 0, and the E and F rows outside their listed low bytes. */
  predicate Unrecognised(opcode: u16) {
    var (a, _, _, d) := Nibbles(opcode);
    var kk := Kk(opcode);
    (a == 0x0 && opcode != 0x00E0 && opcode != 0x00EE)
    || (a == 0x8 && d in {0x8, 0x9, 0xA, 0xB, 0xC, 0xD, 0xF})
    || (a == 0x9 && d != 0x0)
    || (a == 0xE && kk != 0x9E && kk != 0xA1)
    || (a == 0xF && kk !in {0x07, 0x0A, 0x15, 0x18, 0x1E, 0x29, 0x33, 0x55, 0x65})
  }

  /** Decode rejects exactly the words of the table above. */
  lemma DecodeRejects(opcode: u16)
    ensures Decode(opcode).None? <==> Unrecognised(opcode)
  {
  }
}
