/** Instruction words of the CHIP-8 interpreter: the big-endian fetch, the
    bit fields the engine extracts, and the decode of the six instruction
    forms the engine implements.

    Words are integers in [0, 0x10000). A mask of the source is written as the
    arithmetic it performs: `op & 0xF000` is the family `op / 0x1000`,
    `(op & 0x0F00) >> 8` is `op / 0x100 % 0x10`, `op & 0x00FF` is `op % 0x100`
    and `op & 0x0FFF` is `op % 0x1000`. */
module Opcode {

  /** Rust's `u8`. */
  type U8 = x: int | 0 <= x < 0x100

  /** Rust's `u16`. */
  type U16 = x: int | 0 <= x < 0x1_0000

  /** A register index: the 4-bit x field of an instruction. */
  type RegIndex = x: int | 0 <= x < 16

  /** The two fetched bytes combined big-endian, `(hi << 8) | lo`: the first
      byte is the high half of the word and the second byte the low half. */
  function Combine(hi: U8, lo: U8): (op: U16)
    ensures op / 0x100 == hi && op % 0x100 == lo
  {
    hi * 0x100 + lo
  }

  /** Bits 15-12: the family the engine dispatches on first. */
  function Family(op: U16): (f: int)
    ensures f * 0x1000 <= op < f * 0x1000 + 0x1000
  {
    op / 0x1000
  }

  /** Bits 11-8: the register operand x. */
  function X(op: U16): (x: RegIndex)
    ensures x * 0x100 <= op % 0x1000 < x * 0x100 + 0x100
  {
    op / 0x100 % 0x10
  }

  /** Bits 7-0: the immediate byte kk. */
  function KK(op: U16): (kk: U8)
    ensures (op - kk) % 0x100 == 0
  {
    op % 0x100
  }

  /** Bits 11-0: the 12-bit address nnn. */
  function NNN(op: U16): (a: U16)
    ensures a < 0x1000 && (op - a) % 0x1000 == 0
  {
    op % 0x1000
  }

  /** The four fields partition the word: family, x and kk put back together
      give the word, and nnn is x followed by kk. */
  lemma FieldsPartition(op: U16)
    ensures 0 <= Family(op) < 16
    ensures op == Family(op) * 0x1000 + X(op) * 0x100 + KK(op)
    ensures NNN(op) == X(op) * 0x100 + KK(op)
  {
  }

  /** The fields of a fetched word, read off its two bytes: the high byte holds
      the family and x, the low byte is kk. */
  lemma CombineFields(hi: U8, lo: U8)
    ensures Family(Combine(hi, lo)) == hi / 0x10
    ensures X(Combine(hi, lo)) == hi % 0x10
    ensures KK(Combine(hi, lo)) == lo
    ensures NNN(Combine(hi, lo)) == hi % 0x10 * 0x100 + lo
  {
  }

  /** The instruction forms the engine distinguishes. Every word that is none
      of the first six is `Unknown` and carries the word itself. */
  datatype Instr =
    | ClearScreen                     // 00E0
    | Return                          // 00EE
    | Jump(addr: U16)                 // 1nnn
    | Call(addr: U16)                 // 2nnn
    | LoadImm(x: RegIndex, kk: U8)    // 6xkk
    | AddImm(x: RegIndex, kk: U8)     // 7xkk
    | Unknown(op: U16)

  /** The engine's two-level dispatch: first on the family, and inside family 0
      on the low byte alone, so that bits 11-8 of a family-0 word are never
      looked at (0x01E0 clears the screen like 0x00E0). */
  function Decode(op: U16): (ins: Instr)
    ensures !ins.Unknown? <==>
              Family(op) in {1, 2, 6, 7} || (Family(op) == 0 && KK(op) in {0xE0, 0xEE})
    ensures ins.Unknown? ==> ins.op == op
  {
    var family := op / 0x1000;
    if family == 0x0 then
      var low := op % 0x100;
      if low == 0xE0 then ClearScreen
      else if low == 0xEE then Return
      else Unknown(op)
    else if family == 0x1 then Jump(NNN(op))
    else if family == 0x2 then Call(NNN(op))
    else if family == 0x6 then LoadImm(X(op), KK(op))
    else if family == 0x7 then AddImm(X(op), KK(op))
    else Unknown(op)
  }

  /** An instruction value that some word decodes to: addresses fit in
      12 bits and an `Unknown` word really is unknown. */
  predicate Canonical(ins: Instr) {
    match ins
    case Jump(a) => a < 0x1000
    case Call(a) => a < 0x1000
    case Unknown(op) => Decode(op).Unknown?
    case _ => true
  }

  /** The canonical word of an instruction (bits 11-8 of 00E0 and 00EE are
      zero). */
  function Encode(ins: Instr): (op: U16)
    requires Canonical(ins)
  {
    match ins
    case ClearScreen => 0x00E0
    case Return => 0x00EE
    case Jump(a) => 0x1000 + a
    case Call(a) => 0x2000 + a
    case LoadImm(x, kk) => 0x6000 + x * 0x100 + kk
    case AddImm(x, kk) => 0x7000 + x * 0x100 + kk
    case Unknown(w) => w
  }

  /** Decoding inverts encoding on every instruction a word can decode to. */
  lemma DecodeEncode(ins: Instr)
    requires Canonical(ins)
    ensures Decode(Encode(ins)) == ins
  {
  }

  /** Every word decodes to a canonical instruction, and re-encoding it gives
      back the word, except that bits 11-8 of a clear or return word are lost. */
  lemma EncodeDecode(op: U16)
    ensures Canonical(Decode(op))
    ensures !(Decode(op).ClearScreen? || Decode(op).Return?) ==> Encode(Decode(op)) == op
    ensures (Decode(op).ClearScreen? || Decode(op).Return?) ==>
              Encode(Decode(op)) == op - X(op) * 0x100
  {
  }
}
