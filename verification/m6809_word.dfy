/**
  Machine words as the 6809 core keeps them (e6809.c): thirty-two bits, of which a register
  uses the low eight or sixteen.  The flag tests look at those bits without branching.
 */
module M6809Word {

  datatype Word = Word(v: bv32)

  // A condition code is 0 or 1.
  type Bit = x: bv32 | x == 0 || x == 1

  // The condition codes.
  datatype Code = E | F | H | I | N | Z | V | C

  function Low8(w: Word): (r: Word)
  {
    Word(w.v & 0xff)
  }

  function Low16(w: Word): (r: Word)
  {
    Word(w.v & 0xffff)
  }

  // Equal as far as an 8-bit, or a 16-bit, register goes.
  predicate Equal8(x: bv32, y: bv32) { x & 0xff == y & 0xff }

  predicate Equal16(x: bv32, y: bv32) { x & 0xffff == y & 0xffff }

  predicate Same8(p: Word, q: Word) { Equal8(p.v, q.v) }

  predicate Same16(p: Word, q: Word) { Equal16(p.v, q.v) }

  function BitAnd(x: bv32, y: bv32): (z: bv32) { x & y }

  function And(p: Word, q: Word): (r: Word) { Word(BitAnd(p.v, q.v)) }

  function BitOr(x: bv32, y: bv32): (z: bv32) { x | y }

  function Or(p: Word, q: Word): (r: Word) { Word(BitOr(p.v, q.v)) }

  function BitXor(x: bv32, y: bv32): (z: bv32) { x ^ y }

  function Xor(p: Word, q: Word): (r: Word) { Word(BitXor(p.v, q.v)) }

  function Complement(x: bv32): (y: bv32) { !x }

  function Not(p: Word): (r: Word) { Word(Complement(p.v)) }

  // The adder, with a carry in; it wraps round at thirty-two bits.
  function Add(x: bv32, y: bv32, carry: bv32): (z: bv32) { x + y + carry }

  function Sum(p: Word, q: Word, carry: bv32): (r: Word) { Word(Add(p.v, q.v, carry)) }

  // Subtraction: the core adds the complement and a carry of one or nothing.
  function AddComplement(x: bv32, y: bv32, carry: Bit): (z: bv32)
  {
    if carry == 1 then x + !y + 1 else x + !y + 0
  }

  function Minus(p: Word, q: Word, carry: Bit): (r: Word) { Word(AddComplement(p.v, q.v, carry)) }

  function Subtract(x: bv32, y: bv32): (z: bv32) { x - y }

  function Difference(p: Word, q: Word): (r: Word) { Word(Subtract(p.v, q.v)) }

  function ShiftUp4(x: bv32): (y: bv32) { x << 4 }

  function ShiftDown8(x: bv32): (y: bv32) { x >> 8 }

  function Up4(p: Word): (r: Word) { Word(ShiftUp4(p.v)) }

  function Down8(p: Word): (r: Word) { Word(ShiftDown8(p.v)) }

  // ---------- condition codes ----------

  // The bit a code is kept in.
  function Mask(flag: Code): (m: bv32)
    ensures m != 0
  {
    match flag
    case E => 0x80 case F => 0x40 case H => 0x20 case I => 0x10
    case N => 0x08 case Z => 0x04 case V => 0x02 case C => 0x01
  }

  function GetBit(cc: bv32, mask: bv32): (value: Bit)
    requires mask != 0
  {
    (cc / mask) & 1
  }

  function Raised(x: bv32, mask: bv32): (y: bv32) { x | mask }

  function Cleared(x: bv32, mask: bv32): (y: bv32) { x & !mask }

  // The core multiplies the mask by the value, which is 0 or 1.
  function Times(value: Bit, mask: bv32): (y: bv32)
  {
    if value == 1 then mask else 0
  }

  function SetBit(cc: bv32, mask: bv32, value: Bit): (r: bv32)
  {
    Raised(Cleared(cc, mask), Times(value, mask))
  }

  function GetCc(cc: Word, flag: Code): (value: Bit)
  {
    GetBit(cc.v, Mask(flag))
  }

  function SetCc(cc: Word, flag: Code, value: Bit): (r: Word)
  {
    Word(SetBit(cc.v, Mask(flag), value))
  }

  // Carry: one of the inputs is 1 and the output is 0, or both inputs are 1.
  function Carry(i0: bv32, i1: bv32, r: bv32, sub: Bit): (flag: Bit)
  {
    (((((i0 | i1) & !r) | (i0 & i1)) >> 7) & 1) ^ sub
  }

  // Overflow: the input signs agree and the output sign does not.
  function Overflow(i0: bv32, i1: bv32, r: bv32): (flag: Bit)
  {
    (((!(i0 ^ i1)) & (i0 ^ r)) >> 7) & 1
  }

  function Sign(r: bv32): (flag: Bit)
  {
    (r >> 7) & 1
  }

  function Zero8(r: bv32): (flag: Bit)
  {
    var f := !r;
    var f4 := (f >> 4) & (f & 0xf);
    var f2 := (f4 >> 2) & (f4 & 0x3);
    (f2 >> 1) & (f2 & 0x1)
  }

  function Zero16(r: bv32): (flag: Bit)
  {
    var f := !r;
    var f8 := (f >> 8) & (f & 0xff);
    var f4 := (f8 >> 4) & (f8 & 0xf);
    var f2 := (f4 >> 2) & (f4 & 0x3);
    (f2 >> 1) & (f2 & 0x1)
  }

  function TestC(i0: Word, i1: Word, r: Word, sub: Bit): (flag: Bit) { Carry(i0.v, i1.v, r.v, sub) }

  function TestV(i0: Word, i1: Word, r: Word): (flag: Bit) { Overflow(i0.v, i1.v, r.v) }

  function TestN(r: Word): (flag: Bit) { Sign(r.v) }

  function TestZ8(r: Word): (flag: Bit) { Zero8(r.v) }

  function TestZ16(r: Word): (flag: Bit) { Zero16(r.v) }

  // The tests of the conditional branches.
  function Either(p: Bit, q: Bit): (t: Bit) { p | q }

  function Unequal(p: Bit, q: Bit): (t: Bit) { p ^ q }

  function Lower(cc: Word): (t: Bit) { GetCc(cc, C) }

  function LowerOrSame(cc: Word): (t: Bit) { Either(GetCc(cc, C), GetCc(cc, Z)) }

  function LessThan(cc: Word): (t: Bit) { Unequal(GetCc(cc, N), GetCc(cc, V)) }

  function LessOrEqual(cc: Word): (t: Bit) { Either(GetCc(cc, Z), LessThan(cc)) }

  // ---------- moving bytes about ----------

  function SignExtend(w: Word): (r: Word)
  {
    Word((!(w.v & 0x80) + 1) | (w.v & 0xff))
  }

  // Two bytes as a word, high byte first.
  function Beside(hi: bv32, lo: bv32): (y: bv32) { (hi << 8) | lo }

  function Join(hi: Word, lo: Word): (r: Word) { Word(Beside(hi.v, lo.v)) }

  function Joined(hi: bv32, lo: bv32): (y: bv32) { (hi << 8) | (lo & 0xff) }

  function JoinLow(hi: Word, lo: Word): (r: Word) { Word(Joined(hi.v, lo.v)) }

  // An 8-bit register where a 16-bit one is asked for.
  function Padded(w: Word): (r: Word)
  {
    Word(0xff00 | w.v)
  }

  // ---------- instructions on one or two words ----------

  datatype Result = Result(value: Word, cc: Word)

  function Nzv(cc: Word, i0: Word, i1: Word, r: Word): (cc': Word)
  {
    SetCc(SetCc(SetCc(cc, N, TestN(r)), Z, TestZ8(r)), V, TestV(i0, i1, r))
  }

  function HalfCarry(cc: Word, i0: Word, i1: Word, r: Word): (cc': Word)
  {
    SetCc(cc, H, TestC(Up4(i0), Up4(i1), Up4(r), 0))
  }

  function Nzvc(cc: Word, i0: Word, i1: Word, r: Word, sub: Bit): (cc': Word)
  {
    SetCc(Nzv(cc, i0, i1, r), C, TestC(i0, i1, r, sub))
  }

  function Add8(cc: Word, data0: Word, data1: Word): (x: Result)
  {
    var r := Sum(data0, data1, 0);
    Result(r, Nzvc(HalfCarry(cc, data0, data1, r), data0, data1, r, 0))
  }

  function Adc(cc: Word, data0: Word, data1: Word): (x: Result)
  {
    var r := Sum(data0, data1, GetCc(cc, C));
    Result(r, Nzvc(HalfCarry(cc, data0, data1, r), data0, data1, r, 0))
  }

  function Sub8(cc: Word, data0: Word, data1: Word): (x: Result)
  {
    var i1 := Not(data1);
    var r := Minus(data0, data1, 1);
    Result(r, Nzvc(HalfCarry(cc, data0, i1, r), data0, i1, r, 1))
  }

  function Sbc(cc: Word, data0: Word, data1: Word): (x: Result)
  {
    var i1 := Not(data1);
    var r := Minus(data0, data1, 1 - GetCc(cc, C));
    Result(r, Nzvc(HalfCarry(cc, data0, i1, r), data0, i1, r, 1))
  }

  function Neg(cc: Word, data: Word): (x: Result)
  {
    Sub8(cc, Word(0), data)
  }

  function Asl(cc: Word, data: Word): (x: Result)
  {
    Add8(cc, data, data)
  }

  function Rol(cc: Word, data: Word): (x: Result)
  {
    var r := Sum(data, data, GetCc(cc, C));
    Result(r, Nzvc(cc, data, data, r, 0))
  }

  function Dec(cc: Word, data: Word): (x: Result)
  {
    var r := Sum(data, Word(0xff), 0);
    Result(r, Nzv(cc, data, Word(0xff), r))
  }

  function Inc(cc: Word, data: Word): (x: Result)
  {
    var r := Sum(data, Word(1), 0);
    Result(r, Nzv(cc, data, Word(1), r))
  }

  function Com(cc: Word, data: Word): (x: Result)
  {
    var r := Not(data);
    Result(r, SetCc(SetCc(SetCc(SetCc(cc, N, TestN(r)), Z, TestZ8(r)), V, 0), C, 1))
  }

  function Halved(data: Word): (r: Word)
  {
    Word((data.v >> 1) & 0x7f)
  }

  function LowBit(data: Word): (flag: Bit)
  {
    data.v & 1
  }

  // The carry as it comes in at the top of a rotated byte.
  function AtTop(carry: Bit): (r: Word)
  {
    Word(carry << 7)
  }

  function Shifted(cc: Word, data: Word, r: Word): (x: Result)
  {
    Result(r, SetCc(SetCc(SetCc(cc, N, TestN(r)), Z, TestZ8(r)), C, LowBit(data)))
  }

  function Lsr(cc: Word, data: Word): (x: Result)
  {
    var r := Halved(data);
    Result(r, SetCc(SetCc(SetCc(cc, N, 0), Z, TestZ8(r)), C, LowBit(data)))
  }

  function Ror(cc: Word, data: Word): (x: Result)
  {
    Shifted(cc, data, Or(Halved(data), AtTop(GetCc(cc, C))))
  }

  function Asr(cc: Word, data: Word): (x: Result)
  {
    Shifted(cc, data, Or(Halved(data), And(data, Word(0x80))))
  }

  function Tst8(cc: Word, data: Word): (cc': Word)
  {
    SetCc(SetCc(SetCc(cc, N, TestN(data)), Z, TestZ8(data)), V, 0)
  }

  function Tst16(cc: Word, data: Word): (cc': Word)
  {
    SetCc(SetCc(SetCc(cc, N, TestN(Down8(data))), Z, TestZ16(data)), V, 0)
  }

  function Clr(cc: Word): (cc': Word)
  {
    SetCc(SetCc(SetCc(SetCc(cc, N, 0), Z, 1), V, 0), C, 0)
  }

  function And8(cc: Word, data0: Word, data1: Word): (x: Result)
  {
    Result(And(data0, data1), Tst8(cc, And(data0, data1)))
  }

  function Eor(cc: Word, data0: Word, data1: Word): (x: Result)
  {
    Result(Xor(data0, data1), Tst8(cc, Xor(data0, data1)))
  }

  function Or8(cc: Word, data0: Word, data1: Word): (x: Result)
  {
    Result(Or(data0, data1), Tst8(cc, Or(data0, data1)))
  }

  function Wide(cc: Word, i0: Word, i1: Word, r: Word, sub: Bit): (cc': Word)
  {
    var j0, j1, q := Down8(i0), Down8(i1), Down8(r);
    SetCc(SetCc(SetCc(SetCc(cc, N, TestN(q)), Z, TestZ16(r)), V, TestV(j0, j1, q)), C, TestC(j0, j1, q, sub))
  }

  function Add16(cc: Word, data0: Word, data1: Word): (x: Result)
  {
    var r := Sum(data0, data1, 0);
    Result(r, Wide(cc, data0, data1, r, 0))
  }

  function Sub16(cc: Word, data0: Word, data1: Word): (x: Result)
  {
    var i1 := Not(data1);
    var r := Minus(data0, data1, 1);
    Result(r, Wide(cc, data0, i1, r, 1))
  }

  // The product of two bytes, and bit 7 of it.
  function Multiply(x: bv32, y: bv32): (z: bv32) { x * y }

  function Product(a: Word, b: Word): (r: Word)
  {
    Word(Multiply(Low8(a).v, Low8(b).v))
  }

  function Mul(cc: Word, a: Word, b: Word): (x: Result)
  {
    var r := Product(a, b);
    Result(r, SetCc(SetCc(cc, Z, TestZ16(r)), C, TestN(r)))
  }

  // What decimal adjustment adds to the accumulator.
  function Correction(a: Word, h: Bit, c: Bit): (r: Word)
  {
    Word(if a.v & 0x0f > 0x09 || h == 1 then
           if (a.v & 0xf0 > 0x80 && a.v & 0x0f > 0x09) || a.v & 0xf0 > 0x90 || c == 1 then 0x66 else 0x06
         else if a.v & 0xf0 > 0x90 || c == 1 then 0x60 else 0)
  }

  function Daa(cc: Word, a: Word): (x: Result)
  {
    var i1 := Correction(a, GetCc(cc, H), GetCc(cc, C));
    var r := Sum(a, i1, 0);
    Result(r, SetCc(SetCc(SetCc(SetCc(cc, N, TestN(r)), Z, TestZ8(r)), V, 0), C, TestC(a, i1, r, 0)))
  }

  // All ones when the branch is taken, all zeros when it is not.
  function BranchMask(test: Bit, odd: bool): (mask: Word)
  {
    Word((test ^ (if odd then 1 else 0)) - 1)
  }
}
