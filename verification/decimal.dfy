/**
  Packed decimal and multi-byte arithmetic of two emulated processors: the 65C02
  (fake65c02.h) and the 8080 (intel_8080_emulator.c).  The two correct decimal digits in
  different ways; both are proved to compute decimal arithmetic on numbers of any length.
 */

module PackedDecimal {
  import opened Basics
  import opened Positional

  // The two digits of a byte (of the low byte, for a wider intermediate), and truncation.
  function Low(x: nat): (d: nat)
    ensures d < 16
  {
    x % 16
  }

  function High(x: nat): (d: nat)
    ensures d < 16
  {
    x / 16 % 16
  }

  function Wrap(x: int): (b: Byte)
  {
    x % 256
  }

  predicate IsBcd(b: Byte)
  {
    Low(b) <= 9 && High(b) <= 9
  }

  predicate AllBcd(bytes: seq<Byte>)
  {
    forall i :: 0 <= i < |bytes| ==> IsBcd(bytes[i])
  }

  function Value(b: Byte): (v: nat)
    ensures IsBcd(b) ==> v < 100
  {
    10 * High(b) + Low(b)
  }

  // The decimal number a packed sequence denotes, least significant byte first.
  function Decimal(bytes: seq<Byte>): (v: nat)
  {
    Number(seq(|bytes|, i requires 0 <= i < |bytes| => Value(bytes[i])), 100)
  }

  lemma DecimalUnfold(bytes: seq<Byte>)
    requires bytes != []
    ensures Decimal(bytes) == Value(bytes[0]) + 100 * Decimal(bytes[1..])
  {
    var all := seq(|bytes|, i requires 0 <= i < |bytes| => Value(bytes[i]));
    assert all[1..] == seq(|bytes[1..]|, i requires 0 <= i < |bytes[1..]| => Value(bytes[1..][i]));
  }

  lemma Nibbles(high: nat, low: nat)
    requires high < 16 && low < 16
    ensures High(16 * high + low) == high && Low(16 * high + low) == low
  {
    assert (16 * high + low) / 16 == high;
  }

  lemma SplitByte(b: Byte)
    ensures b == 16 * High(b) + Low(b)
  {
  }

  lemma WrapIs(x: int)
    requires -512 <= x < 512
    ensures Wrap(x) == if x < -256 then x + 512 else if x < 0 then x + 256 else if x < 256 then x else x - 256
  {
  }

  // A column of a chained operation: two operand bytes and a carry in, a byte and a carry out.
  type Column = (Byte, Byte, bool) -> (Byte, bool)

  // The chain a multi-byte routine runs: one column a byte, the carry passed along.
  function Chain(op: Column, xs: seq<Byte>, ys: seq<Byte>, carry: bool): (r: (seq<Byte>, bool))
    requires |xs| == |ys|
    ensures |r.0| == |xs|
  {
    if xs == [] then ([], carry)
    else
      var (z, c) := op(xs[0], ys[0], carry);
      var (zs, c') := Chain(op, xs[1..], ys[1..], c);
      ([z] + zs, c')
  }

  // A loop over the bytes takes the chain from the front, keeping what is still to come.
  lemma ChainAt(op: Column, xs: seq<Byte>, ys: seq<Byte>, i: nat, carry: bool, done: seq<Byte>)
    requires |xs| == |ys| && i < |xs|
    ensures var (z, c) := op(xs[i], ys[i], carry);
            var (zs, c') := Chain(op, xs[i..], ys[i..], carry);
            var (rest, c'') := Chain(op, xs[i + 1..], ys[i + 1..], c);
            c' == c'' && done + zs == done + [z] + rest
  {
    assert xs[i..][1..] == xs[i + 1..] && ys[i..][1..] == ys[i + 1..];
  }
}

module Cpu65C02 {
  import opened Basics
  import opened Positional
  import opened PackedDecimal

  const FLAG_CARRY: bv8 := 0x01
  const FLAG_ZERO: bv8 := 0x02
  const FLAG_DECIMAL: bv8 := 0x08
  const FLAG_OVERFLOW: bv8 := 0x40
  const FLAG_SIGN: bv8 := 0x80

  // The 16-bit intermediate of the decimal branch of ADC.
  function DecimalSum(a: Byte, v: Byte, carry: bool): (sum: nat)
    ensures sum < 0x1000
  {
    var low := Low(a) + Low(v) + Bit(carry);
    var low' := if low >= 0xA then Low(low + 6) + 16 else low;
    var high := 16 * High(a) + 16 * High(v) + low';
    if high >= 0xA0 then high + 0x60 else high
  }

  function AdcDecimal(a: Byte, v: Byte, carry: bool): (r: (Byte, bool))
  {
    (Wrap(DecimalSum(a, v, carry)), DecimalSum(a, v, carry) >= 0x100)
  }

  // The decimal branch of SBC; the carry flag is the complement of a borrow.
  function SbcDecimal(a: Byte, v: Byte, carry: bool): (r: (Byte, bool))
  {
    var low := Low(a) - Low(v) + Bit(carry) - 1;
    var all := a - v + Bit(carry) - 1;
    var all' := if all < 0 then all - 0x60 else all;
    (Wrap(if low < 0 then all' - 6 else all'), a + (255 - v) + Bit(carry) >= 256)
  }

  // The test behind overflowcalc: the result's sign differs from both operands' signs.
  predicate SignsDiffer(result: Byte, m: Byte, o: Byte)
  {
    (result >= 128) != (m >= 128) && (result >= 128) != (o >= 128)
  }

  lemma SignsDifferIsOverflow(a: Byte, v: Byte, c: nat)
    requires c <= 1
    ensures SignsDiffer(Wrap(a + v + c), a, v) <==> !(-128 <= Signed(a) + Signed(v) + c < 128)
  {
    WrapIs(a + v + c);
  }

  class Cpu {
    var a: Byte
    var status: bv8
    var clockticks: nat

    constructor (status: bv8)
      ensures this.status == status && a == 0 && clockticks == 0
    {
      this.status := status;
      a, clockticks := 0, 0;
    }

    predicate Carry()
      reads this
    {
      status & FLAG_CARRY != 0
    }

    method SetFlag(flag: bv8, on: bool)
      modifies this`status
      ensures status == if on then old(status) | flag else old(status) & !flag
    {
      if on {
        status := status | flag;
      } else {
        status := status & !flag;
      }
    }

    // Zero and sign of a result; the other flags stay.
    method SetSignZero(result: Byte)
      modifies this`status
      ensures status & FLAG_ZERO != 0 <==> result == 0
      ensures status & FLAG_SIGN != 0 <==> result >= 128
      ensures status & 0x7d == old(status) & 0x7d
    {
      SetFlag(FLAG_SIGN, result >= 128);
      SetFlag(FLAG_ZERO, result == 0);
    }

    // ADC.  The decimal branch is tied to AdcDecimal, and takes a clock more; the binary branch
    // states its arithmetic.
    method Adc(value: Byte)
      modifies this
      ensures old(status) & FLAG_DECIMAL != 0 ==>
                && (a, Carry()) == AdcDecimal(old(a), value, old(Carry()))
                && (status & FLAG_OVERFLOW != 0 <==> DecimalSum(old(a), value, old(Carry())) >= 0x80)
      ensures old(status) & FLAG_DECIMAL == 0 ==>
                && a + 256 * Bit(Carry()) == old(a) + value + Bit(old(Carry()))
                && (status & FLAG_OVERFLOW != 0
                    <==> !(-128 <= Signed(old(a)) + Signed(value) + Bit(old(Carry())) < 128))
      ensures status & FLAG_ZERO != 0 <==> a == 0
      ensures status & FLAG_SIGN != 0 <==> a >= 128
      ensures status & 0x3c == old(status) & 0x3c
      ensures clockticks == old(clockticks) + Bit(old(status) & FLAG_DECIMAL != 0)
    {
      hide Low, High, Wrap;
      var result: nat;
      if status & FLAG_DECIMAL != 0 {
        var low := Low(a) + Low(value) + (if status & FLAG_CARRY != 0 then 1 else 0);
        if low >= 0xA {
          low := Low(low + 6) + 16;
        }
        result := 16 * High(a) + 16 * High(value) + low;
        if result >= 0xA0 {
          result := result + 0x60;
        }
        SetFlag(FLAG_OVERFLOW, result >= 0x80);
        SetFlag(FLAG_CARRY, result >= 0x100);
        SetFlag(FLAG_ZERO, Wrap(result) == 0);
        SetFlag(FLAG_SIGN, Wrap(result) >= 128);
        clockticks := clockticks + 1;
      } else {
        result := a + value + (if status & FLAG_CARRY != 0 then 1 else 0);
        SignsDifferIsOverflow(a, value, result - a - value);
        WrapIs(result);
        SetFlag(FLAG_CARRY, result >= 0x100);
        SetFlag(FLAG_ZERO, Wrap(result) == 0);
        SetFlag(FLAG_OVERFLOW, SignsDiffer(Wrap(result), a, value));
        SetFlag(FLAG_SIGN, Wrap(result) >= 128);
      }
      a := Wrap(result);
    }

    // SBC.  In binary mode the carry is the complement of the borrow.
    method Sbc(value: Byte)
      modifies this
      ensures old(status) & FLAG_DECIMAL != 0 ==> (a, Carry()) == SbcDecimal(old(a), value, old(Carry()))
      ensures old(status) & FLAG_DECIMAL == 0 ==>
                a - 256 * Bit(!Carry()) == old(a) - value - Bit(!old(Carry()))
      ensures status & FLAG_OVERFLOW != 0
              <==> !(-128 <= Signed(old(a)) - Signed(value) - Bit(!old(Carry())) < 128)
      ensures status & FLAG_ZERO != 0 <==> a == 0
      ensures status & FLAG_SIGN != 0 <==> a >= 128
      ensures status & 0x3c == old(status) & 0x3c
      ensures clockticks == old(clockticks) + Bit(old(status) & FLAG_DECIMAL != 0)
    {
      hide Low, High, Wrap;
      var c := if status & FLAG_CARRY != 0 then 1 else 0;
      var result: int := a + (255 - value) + c;
      SignsDifferIsOverflow(a, 255 - value, c);
      WrapIs(result);
      SetFlag(FLAG_CARRY, result >= 0x100);
      SetFlag(FLAG_OVERFLOW, SignsDiffer(Wrap(result), a, 255 - value));
      if status & FLAG_DECIMAL != 0 {
        var low := Low(a) - Low(value) + c - 1;
        result := a - value + c - 1;
        if result < 0 {
          result := result - 0x60;
        }
        if low < 0 {
          result := result - 6;
        }
        clockticks := clockticks + 1;
      }
      result := Wrap(result);
      SetSignZero(result);
      a := result;
    }
  }

  // One column of decimal addition, digit by digit.
  lemma AdcDigits(h: nat, l: nat, h': nat, l': nat, carry: bool)
    requires h < 10 && l < 10 && h' < 10 && l' < 10
    ensures var low := l + l' + Bit(carry);
            var top := h + h' + Bit(low >= 10);
            AdcDecimal(16 * h + l, 16 * h' + l', carry)
            == (16 * (if top >= 10 then top - 10 else top) + (if low >= 10 then low - 10 else low), top >= 10)
  {
    var low := l + l' + Bit(carry);
    var top := h + h' + Bit(low >= 10);
    Nibbles(h, l);
    Nibbles(h', l');
    if low >= 10 {
      assert Low(low + 6) == low - 10;
    }
    var sum := 16 * (if top >= 10 then top + 6 else top) + (if low >= 10 then low - 10 else low);
    assert DecimalSum(16 * h + l, 16 * h' + l', carry) == sum;
    WrapIs(sum);
  }

  lemma SbcDigits(h: nat, l: nat, h': nat, l': nat, carry: bool)
    requires h < 10 && l < 10 && h' < 10 && l' < 10
    ensures var low := l - l' - Bit(!carry);
            var top := h - h' - Bit(low < 0);
            SbcDecimal(16 * h + l, 16 * h' + l', carry)
            == (16 * (if top < 0 then top + 10 else top) + (if low < 0 then low + 10 else low), top >= 0)
  {
    var low := l - l' - Bit(!carry);
    var top := h - h' - Bit(low < 0);
    Nibbles(h, l);
    Nibbles(h', l');
    WrapIs(16 * (h - h') + low - (if top < 0 then 0x60 else 0) - (if low < 0 then 6 else 0));
  }

  // The column is exact decimal arithmetic on packed operands.
  lemma AdcColumn(a: Byte, v: Byte, carry: bool)
    requires IsBcd(a) && IsBcd(v)
    ensures var (r, c) := AdcDecimal(a, v, carry);
            IsBcd(r) && Value(r) + 100 * Bit(c) == Value(a) + Value(v) + Bit(carry)
  {
    SplitByte(a);
    SplitByte(v);
    AdcDigits(High(a), Low(a), High(v), Low(v), carry);
    var low := Low(a) + Low(v) + Bit(carry);
    var top := High(a) + High(v) + Bit(low >= 10);
    Nibbles(if top >= 10 then top - 10 else top, if low >= 10 then low - 10 else low);
  }

  lemma SbcColumn(a: Byte, v: Byte, carry: bool)
    requires IsBcd(a) && IsBcd(v)
    ensures var (r, c) := SbcDecimal(a, v, carry);
            IsBcd(r) && Value(r) - 100 * Bit(!c) == Value(a) - Value(v) - Bit(!carry)
  {
    SplitByte(a);
    SplitByte(v);
    SbcDigits(High(a), Low(a), High(v), Low(v), carry);
    var low := Low(a) - Low(v) - Bit(!carry);
    var top := High(a) - High(v) - Bit(low < 0);
    Nibbles(if top < 0 then top + 10 else top, if low < 0 then low + 10 else low);
  }

  // Chained decimal ADC adds numbers of any length.
  lemma {:induction false} AdcChainAdds(xs: seq<Byte>, ys: seq<Byte>, carry: bool)
    requires |xs| == |ys| && AllBcd(xs) && AllBcd(ys)
    ensures var (zs, c) := Chain(AdcDecimal, xs, ys, carry);
            AllBcd(zs) && Decimal(zs) + (if c then Power(100, |xs|) else 0) == Decimal(xs) + Decimal(ys) + Bit(carry)
  {
    hide AdcDecimal;
    if xs != [] {
      var (z, c) := AdcDecimal(xs[0], ys[0], carry);
      AdcColumn(xs[0], ys[0], carry);
      AdcChainAdds(xs[1..], ys[1..], c);
      var (zs, c') := Chain(AdcDecimal, xs, ys, carry);
      assert zs[1..] == Chain(AdcDecimal, xs[1..], ys[1..], c).0;
      DecimalUnfold(xs);
      DecimalUnfold(ys);
      DecimalUnfold(zs);
    }
  }

  // Chained decimal SBC subtracts numbers of any length.
  lemma {:induction false} SbcChainSubtracts(xs: seq<Byte>, ys: seq<Byte>, carry: bool)
    requires |xs| == |ys| && AllBcd(xs) && AllBcd(ys)
    ensures var (zs, c) := Chain(SbcDecimal, xs, ys, carry);
            AllBcd(zs) && Decimal(zs) - (if c then 0 else Power(100, |xs|)) == Decimal(xs) - Decimal(ys) - Bit(!carry)
  {
    hide SbcDecimal;
    if xs != [] {
      var (z, c) := SbcDecimal(xs[0], ys[0], carry);
      SbcColumn(xs[0], ys[0], carry);
      SbcChainSubtracts(xs[1..], ys[1..], c);
      var (zs, c') := Chain(SbcDecimal, xs, ys, carry);
      assert zs[1..] == Chain(SbcDecimal, xs[1..], ys[1..], c).0;
      DecimalUnfold(xs);
      DecimalUnfold(ys);
      DecimalUnfold(zs);
    }
  }

  // Subtracting what was added gives the number back; the borrow undoes the carry.
  lemma {:induction false} SbcUndoesAdc(xs: seq<Byte>, ys: seq<Byte>, carry: bool)
    requires |xs| == |ys| && AllBcd(xs) && AllBcd(ys)
    ensures var (zs, c) := Chain(AdcDecimal, xs, ys, carry);
            Chain(SbcDecimal, zs, ys, !carry) == (xs, !c)
  {
    if xs != [] {
      var (z, c) := AdcDecimal(xs[0], ys[0], carry);
      SbcUndoesAdcColumn(xs[0], ys[0], carry);
      SbcUndoesAdc(xs[1..], ys[1..], c);
      var (zs, c') := Chain(AdcDecimal, xs, ys, carry);
      assert zs[1..] == Chain(AdcDecimal, xs[1..], ys[1..], c).0;
      assert xs == [xs[0]] + xs[1..];
    }
  }

  lemma SbcUndoesAdcColumn(a: Byte, v: Byte, carry: bool)
    requires IsBcd(a) && IsBcd(v)
    ensures var (r, c) := AdcDecimal(a, v, carry); SbcDecimal(r, v, !carry) == (a, !c)
  {
    hide AdcDecimal, SbcDecimal, Low, High;
    var (r, c) := AdcDecimal(a, v, carry);
    AdcColumn(a, v, carry);
    SbcColumn(r, v, !carry);
    var (r', c') := SbcDecimal(r, v, !carry);
    assert Value(r') == Value(a);
    SplitByte(a);
    SplitByte(r');
  }

  // The routine a 65C02 program runs: SED, then LDA/ADC/STA for each byte.
  method AddDecimal(xs: seq<Byte>, ys: seq<Byte>) returns (zs: seq<Byte>, carry: bool)
    requires |xs| == |ys|
    ensures (zs, carry) == Chain(AdcDecimal, xs, ys, false)
    ensures AllBcd(xs) && AllBcd(ys) ==>
              AllBcd(zs) && Decimal(zs) + (if carry then Power(100, |xs|) else 0) == Decimal(xs) + Decimal(ys)
  {
    var cpu := new Cpu(FLAG_DECIMAL);
    zs := [];
    hide AdcDecimal;
    assert [] + Chain(AdcDecimal, xs, ys, false).0 == Chain(AdcDecimal, xs, ys, false).0;
    assert xs[0..] == xs && ys[0..] == ys;
    for i := 0 to |xs|
      invariant cpu.status & FLAG_DECIMAL != 0
      invariant var (rest, c) := Chain(AdcDecimal, xs[i..], ys[i..], cpu.Carry());
                Chain(AdcDecimal, xs, ys, false) == (zs + rest, c)
    {
      ChainAt(AdcDecimal, xs, ys, i, cpu.Carry(), zs);
      cpu.a := xs[i];
      cpu.Adc(ys[i]);
      zs := zs + [cpu.a];
    }
    assert zs + [] == zs;
    carry := cpu.Carry();
    if AllBcd(xs) && AllBcd(ys) {
      AdcChainAdds(xs, ys, false);
    }
  }
}

module Cpu8080 {
  import opened Basics
  import opened Positional
  import opened PackedDecimal
  import Cpu65C02

  const FLAG_C: bv8 := 0x01
  const FLAG_P: bv8 := 0x04
  const FLAG_AC: bv8 := 0x10
  const FLAG_Z: bv8 := 0x40
  const FLAG_S: bv8 := 0x80

  function Ones(b: nat): (n: nat)
  {
    if b == 0 then 0 else b % 2 + Ones(b / 2)
  }

  // ADC on the accumulator: the byte, the carry and the auxiliary carry out of bit 3.
  function AdcByte(a: Byte, v: Byte, carry: bool): (r: (Byte, bool, bool))
  {
    (Wrap(a + v + Bit(carry)),
     a + v + Bit(carry) >= 256,
     if carry then Low(a) + Low(v) >= 0x0F else Low(a) + Low(v) > 0x0F)
  }

  // DAA: the byte and carry left by a correction that may itself carry twice.
  function DaaByte(a: Byte, carry: bool, aux: bool): (r: (Byte, bool))
  {
    var t := if Low(a) > 9 || aux then a + 6 else a;
    var c := carry || t >= 256;
    if High(t) > 9 || c then
      (Wrap(t + 0x60), c || t + 0x60 >= 256)
    else
      (Wrap(t), c)
  }

  function AdcDaa(a: Byte, v: Byte, carry: bool): (r: (Byte, bool))
  {
    var (s, c, aux) := AdcByte(a, v, carry);
    DaaByte(s, c, aux)
  }

  // SBB, with the borrow read off the result instead of the operands.
  function SbbByte(a: Byte, v: Byte, borrow: bool): (r: (Byte, bool))
  {
    var d := Wrap(a - v - Bit(borrow));
    (d, d >= a && (v != 0 || borrow))
  }

  class Cpu {
    var a: Byte
    var flags: bv8

    constructor ()
      ensures a == 0 && flags == 0
    {
      a, flags := 0, 0;
    }

    predicate Test(flag: bv8)
      reads this
    {
      flags & flag != 0
    }

    method Put(flag: bv8, on: bool)
      modifies this`flags
      ensures flags == if on then old(flags) | flag else old(flags) & !flag
    {
      flags := if on then flags | flag else flags & !flag;
    }

    // calc_SZP; the parity table is the parity of the number of one bits.
    method CalcSzp(value: Byte)
      modifies this`flags
      ensures Test(FLAG_Z) <==> value == 0
      ensures Test(FLAG_S) <==> value >= 128
      ensures Test(FLAG_P) <==> Ones(value) % 2 == 0
      ensures flags & 0x3b == old(flags) & 0x3b
    {
      Put(FLAG_Z, value == 0);
      Put(FLAG_S, value >= 128);
      Put(FLAG_P, Ones(value) % 2 == 0);
    }

    method Adc(v: Byte)
      modifies this
      ensures (a, Test(FLAG_C), Test(FLAG_AC)) == AdcByte(old(a), v, old(Test(FLAG_C)))
      ensures (Test(FLAG_Z) <==> a == 0) && (Test(FLAG_S) <==> a >= 128) && (Test(FLAG_P) <==> Ones(a) % 2 == 0)
    {
      hide Low, High, Wrap, Ones;
      var sum := a + v + (if flags & FLAG_C != 0 then 1 else 0);
      if flags & FLAG_C != 0 {
        Put(FLAG_AC, Low(a) + Low(v) >= 0x0F);
      } else {
        Put(FLAG_AC, Low(a) + Low(v) > 0x0F);
      }
      Put(FLAG_C, sum >= 256);
      CalcSzp(Wrap(sum));
      a := Wrap(sum);
    }

    // The carry left over does not matter to SUB.
    method Sub(v: Byte)
      modifies this
      ensures (a, Test(FLAG_C)) == SbbByte(old(a), v, false)
      ensures Test(FLAG_AC) <==> Low(v) <= Low(old(a))
      ensures (Test(FLAG_Z) <==> a == 0) && (Test(FLAG_S) <==> a >= 128) && (Test(FLAG_P) <==> Ones(a) % 2 == 0)
    {
      hide Low, High, Wrap, Ones;
      var diff := Wrap(a - v);
      Put(FLAG_C, diff >= a && v != 0);
      Put(FLAG_AC, Low(v) <= Low(a));
      CalcSzp(diff);
      a := diff;
    }

    method Sbb(v: Byte)
      modifies this
      ensures (a, Test(FLAG_C)) == SbbByte(old(a), v, old(Test(FLAG_C)))
      ensures Test(FLAG_AC) <==> (if old(Test(FLAG_C)) then Low(v) < Low(old(a)) else Low(v) <= Low(old(a)))
      ensures (Test(FLAG_Z) <==> a == 0) && (Test(FLAG_S) <==> a >= 128) && (Test(FLAG_P) <==> Ones(a) % 2 == 0)
    {
      hide Low, High, Wrap, Ones;
      var diff := Wrap(a - v - (if flags & FLAG_C != 0 then 1 else 0));
      if flags & FLAG_C != 0 {
        Put(FLAG_AC, Low(v) < Low(a));
      } else {
        Put(FLAG_AC, Low(v) <= Low(a));
      }
      Put(FLAG_C, diff >= a && (v != 0 || flags & FLAG_C != 0));
      CalcSzp(diff);
      a := diff;
    }

    method Daa()
      modifies this
      ensures (a, Test(FLAG_C)) == DaaByte(old(a), old(Test(FLAG_C)), old(Test(FLAG_AC)))
      ensures Test(FLAG_AC) <==> (Low(old(a)) > 9 || old(Test(FLAG_AC))) && Low(old(a)) + 6 >= 16
      ensures (Test(FLAG_Z) <==> a == 0) && (Test(FLAG_S) <==> a >= 128) && (Test(FLAG_P) <==> Ones(a) % 2 == 0)
    {
      hide Low, High, Wrap, Ones;
      var t: nat := a;
      if Low(t) > 9 || flags & FLAG_AC != 0 {
        Put(FLAG_AC, Low(t) + 6 >= 16);
        t := t + 6;
        if t >= 256 {
          Put(FLAG_C, true);
        }
      }
      if High(t) > 9 || flags & FLAG_C != 0 {
        t := t + 0x60;
        if t >= 256 {
          Put(FLAG_C, true);
        }
      }
      CalcSzp(Wrap(t));
      a := Wrap(t);
    }
  }

  // On packed operands ADC followed by DAA is the 65C02's decimal ADC.
  lemma AdcDaaColumn(a: Byte, v: Byte, carry: bool)
    requires IsBcd(a) && IsBcd(v)
    ensures AdcDaa(a, v, carry) == Cpu65C02.AdcDecimal(a, v, carry)
  {
    hide Low, High, Wrap, AdcByte, DaaByte, Cpu65C02.AdcDecimal;
    var h, l, h', l' := High(a), Low(a), High(v), Low(v);
    SplitByte(a);
    SplitByte(v);
    Cpu65C02.AdcDigits(h, l, h', l', carry);
    AdcParts(h, l, h', l', carry);
    var (s, c, aux) := AdcByte(a, v, carry);
    DaaDigits(h + h', l + l' + Bit(carry), s, c, aux);
  }

  // What DAA makes of a sum of digits.
  lemma DaaDigits(top: nat, low: nat, s: Byte, c: bool, aux: bool)
    requires top <= 18 && low <= 19 && s + 256 * Bit(c) == 16 * top + low && (aux <==> low >= 16)
    requires Low(s) == if low >= 16 then low - 16 else low
    ensures var top' := top + Bit(low >= 10);
            DaaByte(s, c, aux)
            == (16 * (if top' >= 10 then top' - 10 else top') + (if low >= 10 then low - 10 else low), top' >= 10)
  {
    hide Low, High, Wrap;
    var t := if Low(s) > 9 || aux then s + 6 else s;
    WrapIs(t);
    WrapIs(t + 0x60);
    if t < 256 {
      var top' := top + Bit(low >= 10);
      Nibbles(if c then top' - 16 else top', if low >= 10 then low - 10 else low);
    }
  }

  // The byte and half-carry ADC leaves for two packed digits a byte.
  lemma AdcParts(h: nat, l: nat, h': nat, l': nat, carry: bool)
    requires h < 10 && l < 10 && h' < 10 && l' < 10
    ensures var low := l + l' + Bit(carry);
            var (s, c, aux) := AdcByte(16 * h + l, 16 * h' + l', carry);
            && s + 256 * Bit(c) == 16 * (h + h') + low
            && (aux <==> low >= 16)
            && Low(s) == if low >= 16 then low - 16 else low
  {
    Nibbles(h, l);
    Nibbles(h', l');
    var low := l + l' + Bit(carry);
    var sum := 16 * (h + h') + low;
    WrapIs(sum);
    var top := (if low >= 16 then h + h' + 1 else h + h') - (if sum >= 256 then 16 else 0);
    Nibbles(top, if low >= 16 then low - 16 else low);
  }

  // So the two processors' chains agree byte for byte, and the 8080's adds too.
  lemma {:induction false} AdcDaaChainMatches65C02(xs: seq<Byte>, ys: seq<Byte>, carry: bool)
    requires |xs| == |ys| && AllBcd(xs) && AllBcd(ys)
    ensures Chain(AdcDaa, xs, ys, carry) == Chain(Cpu65C02.AdcDecimal, xs, ys, carry)
  {
    if xs != [] {
      AdcDaaColumn(xs[0], ys[0], carry);
      AdcDaaChainMatches65C02(xs[1..], ys[1..], AdcDaa(xs[0], ys[0], carry).1);
    }
  }

  // The borrow test of SUB and SBB is the true borrow.
  lemma SbbColumn(a: Byte, v: Byte, borrow: bool)
    ensures var (d, b) := SbbByte(a, v, borrow); d - 256 * Bit(b) == a - v - Bit(borrow)
  {
    WrapIs(a - v - Bit(borrow));
  }

  // Chained SBB subtracts binary numbers of any length, for all bytes.
  lemma {:induction false} SbbChainSubtracts(xs: seq<Byte>, ys: seq<Byte>, borrow: bool)
    requires |xs| == |ys|
    ensures var (zs, b) := Chain(SbbByte, xs, ys, borrow);
            Number(zs, 256) - (if b then Power(256, |xs|) else 0) == Number(xs, 256) - Number(ys, 256) - Bit(borrow)
  {
    hide SbbByte;
    if xs != [] {
      var (z, b) := SbbByte(xs[0], ys[0], borrow);
      SbbColumn(xs[0], ys[0], borrow);
      SbbChainSubtracts(xs[1..], ys[1..], b);
      var (zs, b') := Chain(SbbByte, xs, ys, borrow);
      assert zs[1..] == Chain(SbbByte, xs[1..], ys[1..], b).0;
    }
  }

  // The decimal addition routine of an 8080 program: ADC, DAA for each byte.
  method AddDecimal(xs: seq<Byte>, ys: seq<Byte>) returns (zs: seq<Byte>, carry: bool)
    requires |xs| == |ys|
    ensures (zs, carry) == Chain(AdcDaa, xs, ys, false)
    ensures AllBcd(xs) && AllBcd(ys) ==>
              AllBcd(zs) && Decimal(zs) + (if carry then Power(100, |xs|) else 0) == Decimal(xs) + Decimal(ys)
  {
    var cpu := new Cpu();
    zs := [];
    hide AdcByte, DaaByte;
    assert [] + Chain(AdcDaa, xs, ys, false).0 == Chain(AdcDaa, xs, ys, false).0;
    assert xs[0..] == xs && ys[0..] == ys;
    for i := 0 to |xs|
      invariant var (rest, c) := Chain(AdcDaa, xs[i..], ys[i..], cpu.Test(FLAG_C));
                Chain(AdcDaa, xs, ys, false) == (zs + rest, c)
    {
      ChainAt(AdcDaa, xs, ys, i, cpu.Test(FLAG_C), zs);
      cpu.a := xs[i];
      cpu.Adc(ys[i]);
      cpu.Daa();
      zs := zs + [cpu.a];
    }
    assert zs + [] == zs;
    carry := cpu.Test(FLAG_C);
    if AllBcd(xs) && AllBcd(ys) {
      AdcDaaChainMatches65C02(xs, ys, false);
      Cpu65C02.AdcChainAdds(xs, ys, false);
    }
  }

  // The multi-byte subtraction routine: SUB for the first byte, SBB for the rest.
  method Subtract(xs: seq<Byte>, ys: seq<Byte>) returns (zs: seq<Byte>, borrow: bool)
    requires |xs| == |ys|
    ensures |zs| == |xs|
    ensures Number(zs, 256) - (if borrow then Power(256, |xs|) else 0) == Number(xs, 256) - Number(ys, 256)
  {
    var cpu := new Cpu();
    zs := [];
    hide SbbByte;
    assert [] + Chain(SbbByte, xs, ys, false).0 == Chain(SbbByte, xs, ys, false).0;
    assert xs[0..] == xs && ys[0..] == ys;
    for i := 0 to |xs|
      invariant var (rest, b) := Chain(SbbByte, xs[i..], ys[i..], cpu.Test(FLAG_C));
                Chain(SbbByte, xs, ys, false) == (zs + rest, b)
      invariant i == 0 ==> !cpu.Test(FLAG_C)
    {
      ChainAt(SbbByte, xs, ys, i, cpu.Test(FLAG_C), zs);
      cpu.a := xs[i];
      if i == 0 {
        cpu.Sub(ys[i]);
      } else {
        cpu.Sbb(ys[i]);
      }
      zs := zs + [cpu.a];
    }
    assert zs + [] == zs;
    borrow := cpu.Test(FLAG_C);
    SbbChainSubtracts(xs, ys, false);
  }
}
