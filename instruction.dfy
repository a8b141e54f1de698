/** The instruction set of src/instruction.rs and its decoder from a 16-bit word. */
module Instruction {
  import opened Wrappers

  /** The operand `U12::from(byte)` builds: a value below 4096. */
  type u12 = x: int | 0 <= x < 0x1000

  /** One variant per opcode; register indices and addresses are `usize` in the source (`nat` here). */
  datatype Instruction =
    | Invalid(word: u16)
    | Sys(addr: nat)
    | Cls
    | Ret
    | Jp(addr: nat)
    | Call(addr: nat)
    | SeVxKk(x: nat, kk: u8)
    | SneVxKk(x: nat, kk: u8)
    | SeVxVy(x: nat, y: nat)
    | LdXKk(x: nat, kk: u8)
    | AddVxKk(x: nat, kk: u8)
    | LdVxVy(x: nat, y: nat)
    | OrVxVy(x: nat, y: nat)
    | AndVxVy(x: nat, y: nat)
    | XorVxVy(x: nat, y: nat)
    | AddVxVy(x: nat, y: nat)
    | SubVxVy(x: nat, y: nat)
    | ShrVxVy(x: nat, y: nat)
    | SubnVxVy(x: nat, y: nat)
    | ShlVxVy(x: nat, y: nat)
    | SneVxVy(x: nat, y: nat)
    | LdIAddr(addr: nat)
    | JpV0Addr(addr: nat)
    | RndVxKk(x: nat, kk: u8)
    | DrwVxVyNib(x: nat, y: nat, size: u12)
    | SkpVx(x: nat)
    | SknpVx(x: nat)
    | LdVxDt(x: nat)
    | LdVxK(x: nat, kk: u8)
    | LdDtVx(x: nat)
    | LdStVx(x: nat)
    | AddIVx(x: nat)
    | LdFVx(x: nat)
    | LdBcdVx(b: u8, x: nat)
    | LdVxI(x: nat)
    | LdIVx(x: nat)
    | LdBVx(kk: u8, x: nat)

  /** `inst >> 12`: the opcode family. */
  function High(inst: u16): nat { inst / 0x1000 }

  /** `inst & 0x000F`: a single nibble, although the families E and F compare it with whole bytes. */
  function Low(inst: u16): nat { inst % 0x10 }

  /** `inst & 0x0F00 >> 8`. Rust's `>>` binds tighter than `&`, so the mask is `0x0F00 >> 8 == 0xF`
      and the "x" register is the lowest nibble. */
  function X(inst: u16): nat { inst % 0x10 }

  /** `inst & 0x00F0 >> 4`, which for the same reason is also the lowest nibble. */
  function Y(inst: u16): nat { inst % 0x10 }

  /** `inst & 0x00FF`. */
  function Byte(inst: u16): u8 { inst % 0x100 }

  /** `inst & 0x0FFF`. */
  function Address(inst: u16): nat { inst % 0x1000 }

  /** `From<u16> for Instruction`: total; a word no arm accepts becomes `Invalid` of that word. */
  function Decode(inst: u16): Instruction
  {
    var x, y, byte, address := X(inst), Y(inst), Byte(inst), Address(inst);
    match High(inst)
    case 0x0 =>
      if byte == 0xE0 then Cls
      else if byte == 0xEE then Ret
      else Invalid(inst)
    case 0x1 => Jp(address)
    case 0x2 => Call(address)
    case 0x3 => SeVxKk(x, byte)
    case 0x4 => SneVxKk(x, byte)
    case 0x5 => SeVxVy(x, y)
    case 0x6 => LdBVx(byte, x)
    case 0x7 => AddVxKk(x, byte)
    case 0x8 =>
      (match Low(inst)
       case 0x0 => LdVxVy(x, y)
       case 0x1 => OrVxVy(x, y)
       case 0x2 => AndVxVy(x, y)
       case 0x3 => XorVxVy(x, y)
       case 0x4 => AddVxVy(x, y)
       case 0x5 => SubVxVy(x, y)
       case 0x6 => ShrVxVy(x, y)
       case 0x7 => SubnVxVy(x, y)
       case 0xE => ShlVxVy(x, y)
       case _ => Invalid(inst))
    case 0x9 => SneVxVy(x, y)
    case 0xA => LdIAddr(address)
    case 0xC => RndVxKk(x, byte)
    case 0xD => DrwVxVyNib(x, y, byte)
    case 0xE =>
      (match Low(inst)
       case 0x9E => SkpVx(x)
       case 0xA1 => SknpVx(x)
       case _ => Invalid(inst))
    case 0xF =>
      (match Low(inst)
       case 0x07 => LdVxDt(x)
       case 0x0A => LdVxK(x, byte)
       case 0x15 => LdDtVx(x)
       case 0x18 => LdStVx(x)
       case 0x1E => AddIVx(x)
       case 0x29 => LdFVx(x)
       case 0x33 => LdBcdVx(byte, x)
       case 0x55 => LdIVx(x)
       case 0x65 => LdVxI(x)
       case _ => Invalid(inst))
    case _ => Invalid(inst)
  }

  /** Every register index the decoder produces is below 16, and as written the "x" and "y"
      operands are one and the same nibble. */
  predicate RegistersInRange(i: Instruction)
  {
    match i
    case SeVxKk(x, _) => x < 16
    case SneVxKk(x, _) => x < 16
    case SeVxVy(x, y) => x < 16 && y == x
    case LdXKk(x, _) => x < 16
    case AddVxKk(x, _) => x < 16
    case LdVxVy(x, y) => x < 16 && y == x
    case OrVxVy(x, y) => x < 16 && y == x
    case AndVxVy(x, y) => x < 16 && y == x
    case XorVxVy(x, y) => x < 16 && y == x
    case AddVxVy(x, y) => x < 16 && y == x
    case SubVxVy(x, y) => x < 16 && y == x
    case ShrVxVy(x, y) => x < 16 && y == x
    case SubnVxVy(x, y) => x < 16 && y == x
    case ShlVxVy(x, y) => x < 16 && y == x
    case SneVxVy(x, y) => x < 16 && y == x
    case RndVxKk(x, _) => x < 16
    case DrwVxVyNib(x, y, _) => x < 16 && y == x
    case SkpVx(x) => x < 16
    case SknpVx(x) => x < 16
    case LdVxDt(x) => x < 16
    case LdVxK(x, _) => x < 16
    case LdDtVx(x) => x < 16
    case LdStVx(x) => x < 16
    case AddIVx(x) => x < 16
    case LdFVx(x) => x < 16
    case LdBcdVx(_, x) => x < 16
    case LdVxI(x) => x < 16
    case LdIVx(x) => x < 16
    case LdBVx(_, x) => x < 16
    case _ => true
  }

  /** The variants the decoder never produces: family B falls to the catch-all, and the
      two-digit sub-opcodes of families E and F never equal the one-nibble `low`. */
  predicate NeverDecoded(i: Instruction)
  {
    i.Sys? || i.LdXKk? || i.JpV0Addr? || i.SkpVx? || i.SknpVx? || i.LdDtVx? || i.LdStVx?
    || i.AddIVx? || i.LdFVx? || i.LdBcdVx? || i.LdIVx? || i.LdVxI?
  }

  /** Operand extraction: register operands are the low nibble (below 16), and the jump
      targets are the low twelve bits (below 4096). */
  lemma DecodeOperands(inst: u16)
    ensures RegistersInRange(Decode(inst))
    ensures Decode(inst).Jp? || Decode(inst).Call? || Decode(inst).LdIAddr? ==>
              Decode(inst).addr == Address(inst) < 0x1000
  {
  }

  /** Decoding never yields the variants of `NeverDecoded`. */
  lemma DecodeNeverYields(inst: u16)
    ensures !NeverDecoded(Decode(inst))
  {
  }

  /** `Invalid` is produced for exactly the unmatched words, and carries the word itself. */
  lemma DecodeInvalid(inst: u16)
    ensures Decode(inst).Invalid? ==> Decode(inst).word == inst
    ensures Decode(inst).Invalid? <==>
              (High(inst) == 0x0 && Byte(inst) != 0xE0 && Byte(inst) != 0xEE)
              || (High(inst) == 0x8 && 0x8 <= Low(inst) <= 0xD)
              || (High(inst) == 0x8 && Low(inst) == 0xF)
              || High(inst) == 0xB
              || High(inst) == 0xE
              || (High(inst) == 0xF && Low(inst) != 0x7 && Low(inst) != 0xA)
  {
  }

  /** Family 0: only the low byte is looked at. */
  lemma DecodeFamily0(inst: u16)
    requires High(inst) == 0x0
    ensures Decode(inst) == (if inst % 0x100 == 0xE0 then Cls
                             else if inst % 0x100 == 0xEE then Ret
                             else Invalid(inst))
  {
  }

  /** Families 1, 2 and A carry the low twelve bits as an address. */
  lemma DecodeAddressFamilies(inst: u16)
    ensures High(inst) == 0x1 ==> Decode(inst) == Jp(inst % 0x1000)
    ensures High(inst) == 0x2 ==> Decode(inst) == Call(inst % 0x1000)
    ensures High(inst) == 0xA ==> Decode(inst) == LdIAddr(inst % 0x1000)
  {
  }

  /** Families 3 to 7, 9, C and D; the low nibble of 5xy? and 9xy? is not checked. */
  lemma DecodeOperandFamilies(inst: u16)
    ensures var r, b := inst % 0x10, inst % 0x100;
      && (High(inst) == 0x3 ==> Decode(inst) == SeVxKk(r, b))
      && (High(inst) == 0x4 ==> Decode(inst) == SneVxKk(r, b))
      && (High(inst) == 0x5 ==> Decode(inst) == SeVxVy(r, r))
      && (High(inst) == 0x6 ==> Decode(inst) == LdBVx(b, r))
      && (High(inst) == 0x7 ==> Decode(inst) == AddVxKk(r, b))
      && (High(inst) == 0x9 ==> Decode(inst) == SneVxVy(r, r))
      && (High(inst) == 0xC ==> Decode(inst) == RndVxKk(r, b))
      && (High(inst) == 0xD ==> Decode(inst) == DrwVxVyNib(r, r, b))
  {
  }

  /** Family 8: low nibbles 0 to 7 and E give the nine register-register variants in order. */
  lemma DecodeFamily8(inst: u16)
    requires High(inst) == 0x8
    ensures var r := inst % 0x10;
      Decode(inst) == (if r == 0x0 then LdVxVy(r, r)
                       else if r == 0x1 then OrVxVy(r, r)
                       else if r == 0x2 then AndVxVy(r, r)
                       else if r == 0x3 then XorVxVy(r, r)
                       else if r == 0x4 then AddVxVy(r, r)
                       else if r == 0x5 then SubVxVy(r, r)
                       else if r == 0x6 then ShrVxVy(r, r)
                       else if r == 0x7 then SubnVxVy(r, r)
                       else if r == 0xE then ShlVxVy(r, r)
                       else Invalid(inst))
  {
  }

  /** Families E and F: every E word is invalid; of F only low nibbles 7 and A decode. */
  lemma DecodeFamiliesEF(inst: u16)
    ensures High(inst) == 0xE ==> Decode(inst) == Invalid(inst)
    ensures High(inst) == 0xF ==>
      Decode(inst) == (if inst % 0x10 == 0x7 then LdVxDt(0x7)
                       else if inst % 0x10 == 0xA then LdVxK(0xA, inst % 0x100)
                       else Invalid(inst))
  {
  }
}
