/**
  The flag tests of the 6809 core do what they say: whatever the upper bits of the words hold,
  the condition codes are those of the 8-bit and 16-bit arithmetic on their lower bits.
 */
module M6809Flags {
  import opened M6809Word
  import M6809Bits

  // ---------- setting and getting one condition code ----------

  lemma ClearThenRaise(x: bv32, m: bv32)
    ensures Raised(Cleared(x, m), m) == Raised(x, m)
  {
    assert (x & !m) | m == x | m;
  }

  lemma RaiseNothing(x: bv32)
    ensures Raised(x, 0) == x
  {
  }

  lemma BitIs(cc: bv32, m: bv32, v: Bit)
    ensures SetBit(cc, m, v) == if v == 1 then Raised(cc, m) else Cleared(cc, m)
  {
    hide Raised, Cleared;
    ClearThenRaise(cc, m);
    RaiseNothing(Cleared(cc, m));
  }

  lemma BitsOf(cc: bv32)
    ensures GetBit(cc, 0x80) == if cc & 0x80 == 0x80 then 1 else 0
    ensures GetBit(cc, 0x40) == if cc & 0x40 == 0x40 then 1 else 0
    ensures GetBit(cc, 0x20) == if cc & 0x20 == 0x20 then 1 else 0
    ensures GetBit(cc, 0x10) == if cc & 0x10 == 0x10 then 1 else 0
    ensures GetBit(cc, 0x08) == if cc & 0x08 == 0x08 then 1 else 0
    ensures GetBit(cc, 0x04) == if cc & 0x04 == 0x04 then 1 else 0
    ensures GetBit(cc, 0x02) == if cc & 0x02 == 0x02 then 1 else 0
    ensures GetBit(cc, 0x01) == if cc & 0x01 == 0x01 then 1 else 0
  {
  }

  predicate Has(cc: Word, f: Code)
  {
    On(cc.v, Mask(f))
  }

  lemma GetIsBit(cc: Word, f: Code)
    ensures GetCc(cc, f) == if Has(cc, f) then 1 else 0
  {
    hide GetBit;
    BitsOf(cc.v);
  }

  lemma SetIsBit(cc: Word, f: Code, v: Bit)
    ensures SetCc(cc, f, v).v == if v == 1 then Raised(cc.v, Mask(f)) else Cleared(cc.v, Mask(f))
  {
    hide SetBit, Mask, Raised, Cleared;
    BitIs(cc.v, Mask(f), v);
  }

  predicate On(x: bv32, m: bv32)
  {
    x & m == m
  }

  predicate Disjoint(m: bv32, n: bv32)
  {
    m & n == 0
  }

  lemma OrKeeps(cc: bv32, m: bv32, n: bv32)
    requires Disjoint(m, n) && On(cc, n)
    ensures On(Raised(cc, m), n)
  {
  }

  lemma OrAddsNone(cc: bv32, m: bv32, n: bv32)
    requires Disjoint(m, n) && On(Raised(cc, m), n)
    ensures On(cc, n)
  {
  }

  lemma ClearKeeps(cc: bv32, m: bv32, n: bv32)
    requires Disjoint(m, n) && On(cc, n)
    ensures On(Cleared(cc, m), n)
  {
  }

  lemma ClearAddsNone(cc: bv32, m: bv32, n: bv32)
    requires Disjoint(m, n) && On(Cleared(cc, m), n)
    ensures On(cc, n)
  {
  }

  lemma OwnBit(cc: bv32, n: bv32)
    ensures On(Raised(cc, n), n)
    ensures n != 0 ==> !On(Cleared(cc, n), n)
  {
  }

  lemma Apart(f: Code, g: Code)
    requires f != g
    ensures Disjoint(Mask(f), Mask(g))
  {
  }

  lemma HasSet(cc: Word, f: Code, v: Bit)
    ensures Has(SetCc(cc, f, v), f) <==> v == 1
  {
    hide SetCc, Mask, On, Raised, Cleared;
    SetIsBit(cc, f, v);
    OwnBit(cc.v, Mask(f));
  }

  lemma HasSetOther(cc: Word, f: Code, v: Bit, g: Code)
    requires f != g
    ensures Has(SetCc(cc, f, v), g) <==> Has(cc, g)
  {
    hide SetCc, Mask, On, Disjoint, Raised, Cleared;
    SetIsBit(cc, f, v);
    Apart(f, g);
    if On(cc.v, Mask(g)) {
      OrKeeps(cc.v, Mask(f), Mask(g));
      ClearKeeps(cc.v, Mask(f), Mask(g));
    }
    if On(Raised(cc.v, Mask(f)), Mask(g)) {
      OrAddsNone(cc.v, Mask(f), Mask(g));
    }
    if On(Cleared(cc.v, Mask(f)), Mask(g)) {
      ClearAddsNone(cc.v, Mask(f), Mask(g));
    }
  }

  // A code that is set is read back, and the others are as they were.
  lemma SetGet(cc: Word, f: Code, v: Bit, g: Code)
    ensures GetCc(SetCc(cc, f, v), g) == if f == g then v else GetCc(cc, g)
  {
    hide GetCc, SetCc, Has;
    GetIsBit(SetCc(cc, f, v), g);
    GetIsBit(cc, g);
    if f == g {
      HasSet(cc, f, v);
    } else {
      HasSetOther(cc, f, v, g);
    }
  }

  lemma SetGetAll(cc: Word, f: Code, v: Bit)
    ensures forall g :: GetCc(SetCc(cc, f, v), g) == if f == g then v else GetCc(cc, g)
  {
    hide GetCc, SetCc;
    forall g
      ensures GetCc(SetCc(cc, f, v), g) == if f == g then v else GetCc(cc, g)
    {
      SetGet(cc, f, v, g);
    }
  }

  // ---------- the arithmetic the tests are about ----------

  function If(b: bool): (v: Bit)
  {
    if b then 1 else 0
  }

  // The lower bits, with the carry, need a bit more than there is.
  predicate Exceeds4(x: bv32, y: bv32, c: bv32) { (x & 0xf) + (y & 0xf) + c > 0xf }

  predicate Exceeds8(x: bv32, y: bv32, c: bv32) { (x & 0xff) + (y & 0xff) + c > 0xff }

  predicate Exceeds16(x: bv32, y: bv32) { (x & 0xffff) + (y & 0xffff) > 0xffff }

  // The lower bits, with the borrow, are less.
  predicate Less8(x: bv32, y: bv32, b: bv32) { (x & 0xff) < (y & 0xff) + b }

  predicate Less16(x: bv32, y: bv32) { (x & 0xffff) < (y & 0xffff) }

  // Read as two's complement, the sum is not the sum of the inputs.
  predicate SumOut8(x: bv32, y: bv32, c: bv32)
  {
    (((x & 0xff) ^ 0x80) - 0x80) + (((y & 0xff) ^ 0x80) - 0x80) + c != ((((x + y + c) & 0xff) ^ 0x80) - 0x80)
  }

  predicate SumOut16(x: bv32, y: bv32)
  {
    (((x & 0xffff) ^ 0x8000) - 0x8000) + (((y & 0xffff) ^ 0x8000) - 0x8000) != ((((x + y) & 0xffff) ^ 0x8000) - 0x8000)
  }

  // Read as two's complement, what is left does not add up again.
  predicate DifferenceOut8(x: bv32, y: bv32, r: bv32)
  {
    (((x & 0xff) ^ 0x80) - 0x80) != (((y & 0xff) ^ 0x80) - 0x80) + (((r & 0xff) ^ 0x80) - 0x80)
  }

  predicate DifferenceOut8Borrow(x: bv32, y: bv32, r: bv32)
  {
    (((x & 0xff) ^ 0x80) - 0x80) != (((y & 0xff) ^ 0x80) - 0x80) + (((r & 0xff) ^ 0x80) - 0x80) + 1
  }

  predicate DifferenceOut16(x: bv32, y: bv32, r: bv32)
  {
    (((x & 0xffff) ^ 0x8000) - 0x8000) != (((y & 0xffff) ^ 0x8000) - 0x8000) + (((r & 0xffff) ^ 0x8000) - 0x8000)
  }

  predicate None8(x: bv32) { x & 0xff == 0 }

  predicate None16(x: bv32) { x & 0xffff == 0 }

  predicate Negative8(x: bv32) { x & 0x80 == 0x80 }

  predicate Negative16(x: bv32) { x & 0x8000 == 0x8000 }

  // ---------- what the tests test ----------

  lemma ZeroTests(r: bv32)
    ensures Zero8(r) == If(None8(r))
    ensures Zero16(r) == If(None16(r))
  {
  }

  lemma SignTests(r: bv32)
    ensures Sign(r) == If(Negative8(r))
    ensures Sign(ShiftDown8(r)) == If(Negative16(r))
  {
  }

  lemma CarryTest(x: bv32, y: bv32, c: Bit)
    ensures Carry(x, y, Add(x, y, c), 0) == If(Exceeds8(x, y, c))
  {
  }

  lemma HalfCarryTest(x: bv32, y: bv32, c: Bit)
    ensures Carry(ShiftUp4(x), ShiftUp4(y), ShiftUp4(Add(x, y, c)), 0) == If(Exceeds4(x, y, c))
  {
  }

  lemma OverflowTest(x: bv32, y: bv32, c: Bit)
    ensures Overflow(x, y, Add(x, y, c)) == If(SumOut8(x, y, c))
  {
    M6809Bits.SumOut8(x, y, c);
  }

  predicate IsSum(x: bv32, y: bv32, r: bv32) { r == x + y }

  predicate IsLeft(x: bv32, y: bv32, r: bv32) { r == x - y }

  lemma CarryTest16(x: bv32, y: bv32, r: bv32)
    requires IsSum(x, y, r)
    ensures Carry(ShiftDown8(x), ShiftDown8(y), ShiftDown8(r), 0) == If(Exceeds16(x, y))
  {
    M6809Bits.Exceeds16(x, y, r, x >> 8, y >> 8, r >> 8);
  }

  lemma OverflowBits16(x: bv32, y: bv32, r: bv32)
    requires r == x + y
    ensures Overflow(ShiftDown8(x), ShiftDown8(y), ShiftDown8(r)) == If(SumOut16(x, y))
  {
    M6809Bits.SumOut16(x, y, r, x >> 8, y >> 8, r >> 8);
  }

  lemma OverflowTest16(x: bv32, y: bv32, r: bv32)
    requires IsSum(x, y, r)
    ensures Overflow(ShiftDown8(x), ShiftDown8(y), ShiftDown8(r)) == If(SumOut16(x, y))
  {
    hide Overflow, ShiftDown8, SumOut16, If;
    OverflowBits16(x, y, r);
  }

  // A subtraction adds the complement and a carry that is the other way round.
  lemma BorrowTest(x: bv32, y: bv32, b: Bit)
    ensures Carry(x, Complement(y), AddComplement(x, y, 1 - b), 1) == If(Less8(x, y, b))
  {
  }

  // What is left of x when y, and what was borrowed, is taken away.
  predicate AddsUpTo(x: bv32, y: bv32, b: bv32, r: bv32) { x == r + y + b }

  lemma TakenAway(x: bv32, y: bv32)
    ensures AddsUpTo(x, y, 0, x + !y + 1)
  {
  }

  lemma TakenAwayBorrow(x: bv32, y: bv32)
    ensures AddsUpTo(x, y, 1, x + !y + 0)
  {
  }

  lemma AddsUp(x: bv32, y: bv32, b: Bit)
    ensures AddsUpTo(x, y, b, AddComplement(x, y, 1 - b))
  {
    hide AddsUpTo;
    if b == 0 {
      TakenAway(x, y);
    } else {
      TakenAwayBorrow(x, y);
    }
  }

  lemma UnderflowTest(x: bv32, y: bv32, r: bv32)
    requires AddsUpTo(x, y, 0, r)
    ensures Overflow(x, Complement(y), r) == If(DifferenceOut8(x, y, r))
  {
    M6809Bits.SignsDiffer8(x, y, Complement(y), r);
    M6809Bits.DifferenceBits8(x, y, r);
  }

  lemma UnderflowTestBorrow(x: bv32, y: bv32, r: bv32)
    requires AddsUpTo(x, y, 1, r)
    ensures Overflow(x, Complement(y), r) == If(DifferenceOut8Borrow(x, y, r))
  {
    M6809Bits.SignsDiffer8(x, y, Complement(y), r);
    M6809Bits.DifferenceBits8Borrow(x, y, r);
  }

  lemma UnderflowTest16(x: bv32, y: bv32, r: bv32)
    requires AddsUpTo(x, y, 0, r)
    ensures Overflow(ShiftDown8(x), ShiftDown8(Complement(y)), ShiftDown8(r)) == If(DifferenceOut16(x, y, r))
  {
    hide Overflow, ShiftDown8, Complement, DifferenceOut16, If;
    UnderflowBits16(x, y, r);
  }

  lemma UnderflowBits16(x: bv32, y: bv32, r: bv32)
    requires x == r + y
    ensures Overflow(ShiftDown8(x), ShiftDown8(Complement(y)), ShiftDown8(r)) == If(DifferenceOut16(x, y, r))
  {
    M6809Bits.SignsDiffer16(x, y, r, x >> 8, (!y) >> 8, r >> 8);
    M6809Bits.DifferenceBits16(x, y, r);
  }

  // ---------- the same, half by half, for the borrow of a word ----------

  predicate Below(a: bv32, b: bv32) { (a & 0xff) < (b & 0xff) }

  predicate AtMost(a: bv32, b: bv32) { (a & 0xff) <= (b & 0xff) }

  // A difference of bytes, with or without a borrow coming in.
  predicate IsDifference(a: bv32, b: bv32, q: bv32) { q & 0xff == (a - b) & 0xff }

  predicate IsDifferenceBorrow(a: bv32, b: bv32, q: bv32) { q & 0xff == (a - b - 1) & 0xff }

  predicate IsComplement(b: bv32, nb: bv32) { nb & 0xff == !b & 0xff }

  lemma BorrowByte(a: bv32, b: bv32, nb: bv32, q: bv32)
    requires IsComplement(b, nb) && IsDifference(a, b, q)
    ensures Carry(a, nb, q, 1) == If(Below(a, b))
  {
  }

  lemma BorrowByteIn(a: bv32, b: bv32, nb: bv32, q: bv32)
    requires IsComplement(b, nb) && IsDifferenceBorrow(a, b, q)
    ensures Carry(a, nb, q, 1) == If(AtMost(a, b))
  {
  }

  lemma HighDifference(x: bv32, y: bv32)
    requires !Below(x, y)
    ensures IsDifference(ShiftDown8(x), ShiftDown8(y), ShiftDown8(x - y))
  {
    M6809Bits.HighHalf(x, y);
  }

  lemma HighDifferenceBorrow(x: bv32, y: bv32)
    requires Below(x, y)
    ensures IsDifferenceBorrow(ShiftDown8(x), ShiftDown8(y), ShiftDown8(x - y))
  {
    M6809Bits.HighHalfBorrows(x, y);
  }

  lemma HighComplement(y: bv32)
    ensures IsComplement(ShiftDown8(y), ShiftDown8(Complement(y)))
  {
    M6809Bits.ComplementHigh(y);
  }

  lemma LessByHalves(x: bv32, y: bv32)
    ensures Less16(x, y) <==> if Below(x, y) then AtMost(ShiftDown8(x), ShiftDown8(y)) else Below(ShiftDown8(x), ShiftDown8(y))
  {
    M6809Bits.ByHalves(x, y);
  }

  lemma BorrowTest16(x: bv32, y: bv32, r: bv32)
    requires IsLeft(x, y, r)
    ensures Carry(ShiftDown8(x), ShiftDown8(Complement(y)), ShiftDown8(r), 1) == If(Less16(x, y))
  {
    hide Carry, ShiftDown8, Complement, Below, AtMost, Less16, IsDifference, IsDifferenceBorrow, IsComplement;
    var a, b, nb, q := ShiftDown8(x), ShiftDown8(y), ShiftDown8(Complement(y)), ShiftDown8(x - y);
    LessByHalves(x, y);
    HighComplement(y);
    if Below(x, y) {
      HighDifferenceBorrow(x, y);
      BorrowByteIn(a, b, nb, q);
    } else {
      HighDifference(x, y);
      BorrowByte(a, b, nb, q);
    }
  }

  // ---------- the condition codes of the arithmetic instructions ----------

  // Codes read back from a run of settings.
  lemma NzvGets(cc: Word, i0: Word, i1: Word, r: Word)
    ensures var cc' := Nzv(cc, i0, i1, r);
            && GetCc(cc', N) == TestN(r) && GetCc(cc', Z) == TestZ8(r) && GetCc(cc', V) == TestV(i0, i1, r)
            && forall g :: g != N && g != Z && g != V ==> GetCc(cc', g) == GetCc(cc, g)
  {
    hide GetCc, SetCc, TestN, TestZ8, TestV;
    SetGetAll(cc, N, TestN(r));
    var c1 := SetCc(cc, N, TestN(r));
    SetGetAll(c1, Z, TestZ8(r));
    SetGetAll(SetCc(c1, Z, TestZ8(r)), V, TestV(i0, i1, r));
  }

  lemma NzvcGets(cc: Word, i0: Word, i1: Word, r: Word, sub: Bit)
    ensures var cc' := Nzvc(cc, i0, i1, r, sub);
            && GetCc(cc', N) == TestN(r) && GetCc(cc', Z) == TestZ8(r) && GetCc(cc', V) == TestV(i0, i1, r)
            && GetCc(cc', C) == TestC(i0, i1, r, sub)
            && forall g :: g != N && g != Z && g != V && g != C ==> GetCc(cc', g) == GetCc(cc, g)
  {
    hide GetCc, SetCc, TestN, TestZ8, TestV, TestC, Nzv;
    NzvGets(cc, i0, i1, r);
    SetGetAll(Nzv(cc, i0, i1, r), C, TestC(i0, i1, r, sub));
  }

  // N and Z of a byte, and the codes no arithmetic touches.
  ghost predicate ByteResult(cc: Word, x: Result)
  {
    && GetCc(x.cc, N) == If(Negative8(x.value.v)) && GetCc(x.cc, Z) == If(None8(x.value.v))
    && GetCc(x.cc, E) == GetCc(cc, E) && GetCc(x.cc, F) == GetCc(cc, F) && GetCc(x.cc, I) == GetCc(cc, I)
  }

  lemma ByteTests(cc: Word, c1: Word, i0: Word, i1: Word, r: Word, sub: Bit)
    requires forall g :: g != H ==> GetCc(c1, g) == GetCc(cc, g)
    ensures ByteResult(cc, Result(r, Nzvc(c1, i0, i1, r, sub)))
  {
    hide GetCc, Nzvc, TestV, TestC, Sign, Zero8, Negative8, None8;
    NzvcGets(c1, i0, i1, r, sub);
    ZeroTests(r.v);
    SignTests(r.v);
  }

  lemma HalfCarryGets(cc: Word, i0: Word, i1: Word, r: Word)
    ensures var cc' := HalfCarry(cc, i0, i1, r);
            && GetCc(cc', H) == TestC(Up4(i0), Up4(i1), Up4(r), 0)
            && forall g :: g != H ==> GetCc(cc', g) == GetCc(cc, g)
  {
    hide GetCc, SetCc, TestC;
    SetGetAll(cc, H, TestC(Up4(i0), Up4(i1), Up4(r), 0));
  }

  // Addition, with a carry in: the codes are those of the bytes, whatever is above them.
  lemma AddCodes(cc: Word, d0: Word, d1: Word, c: Bit)
    ensures var r := Sum(d0, d1, c);
            var x := Result(r, Nzvc(HalfCarry(cc, d0, d1, r), d0, d1, r, 0));
            && ByteResult(cc, x)
            && GetCc(x.cc, C) == If(Exceeds8(d0.v, d1.v, c)) && GetCc(x.cc, H) == If(Exceeds4(d0.v, d1.v, c))
            && GetCc(x.cc, V) == If(SumOut8(d0.v, d1.v, c))
  {
    hide GetCc, Nzvc, HalfCarry, Carry, Overflow, Add, ShiftUp4, Exceeds8, Exceeds4, SumOut8, ByteResult;
    var r := Sum(d0, d1, c);
    HalfCarryGets(cc, d0, d1, r);
    var c1 := HalfCarry(cc, d0, d1, r);
    ByteTests(cc, c1, d0, d1, r, 0);
    NzvcGets(c1, d0, d1, r, 0);
    CarryTest(d0.v, d1.v, c);
    HalfCarryTest(d0.v, d1.v, c);
    OverflowTest(d0.v, d1.v, c);
  }

  /** ADDA, ADDB, ADCA and ADCB. */
  lemma AdditionCodes(cc: Word, d0: Word, d1: Word)
    ensures var x := Add8(cc, d0, d1);
            && ByteResult(cc, x) && x.value == Sum(d0, d1, 0)
            && GetCc(x.cc, C) == If(Exceeds8(d0.v, d1.v, 0)) && GetCc(x.cc, H) == If(Exceeds4(d0.v, d1.v, 0))
            && GetCc(x.cc, V) == If(SumOut8(d0.v, d1.v, 0))
    ensures var x, c := Adc(cc, d0, d1), GetCc(cc, C);
            && ByteResult(cc, x) && x.value == Sum(d0, d1, c)
            && GetCc(x.cc, C) == If(Exceeds8(d0.v, d1.v, c)) && GetCc(x.cc, H) == If(Exceeds4(d0.v, d1.v, c))
            && GetCc(x.cc, V) == If(SumOut8(d0.v, d1.v, c))
  {
    hide GetCc, Nzvc, HalfCarry, Exceeds8, Exceeds4, SumOut8, ByteResult, Sum;
    AddCodes(cc, d0, d1, 0);
    AddCodes(cc, d0, d1, GetCc(cc, C));
  }

  // Subtraction of bytes, borrowing or not.
  lemma SubtractCodes(cc: Word, d0: Word, d1: Word, b: Bit)
    ensures var i1 := Not(d1);
            var r := Minus(d0, d1, 1 - b);
            var x := Result(r, Nzvc(HalfCarry(cc, d0, i1, r), d0, i1, r, 1));
            && ByteResult(cc, x) && GetCc(x.cc, C) == If(Less8(d0.v, d1.v, b))
            && (b == 0 ==> GetCc(x.cc, V) == If(DifferenceOut8(d0.v, d1.v, r.v)))
            && (b == 1 ==> GetCc(x.cc, V) == If(DifferenceOut8Borrow(d0.v, d1.v, r.v)))
  {
    hide GetCc, Nzvc, HalfCarry, Carry, Overflow, Complement, AddComplement, Less8, DifferenceOut8, DifferenceOut8Borrow, ByteResult;
    var i1 := Not(d1);
    var r := Minus(d0, d1, 1 - b);
    AddsUp(d0.v, d1.v, b);
    HalfCarryGets(cc, d0, i1, r);
    var c1 := HalfCarry(cc, d0, i1, r);
    ByteTests(cc, c1, d0, i1, r, 1);
    NzvcGets(c1, d0, i1, r, 1);
    BorrowTest(d0.v, d1.v, b);
    if b == 0 {
      UnderflowTest(d0.v, d1.v, r.v);
    } else {
      UnderflowTestBorrow(d0.v, d1.v, r.v);
    }
  }

  /** SUBA, SUBB, CMPA, CMPB, SBCA and SBCB. */
  lemma SubtractionCodes(cc: Word, d0: Word, d1: Word)
    ensures var x := Sub8(cc, d0, d1);
            && ByteResult(cc, x) && x.value == Minus(d0, d1, 1)
            && GetCc(x.cc, C) == If(Less8(d0.v, d1.v, 0)) && GetCc(x.cc, V) == If(DifferenceOut8(d0.v, d1.v, x.value.v))
    ensures var x, b := Sbc(cc, d0, d1), GetCc(cc, C);
            && ByteResult(cc, x) && x.value == Minus(d0, d1, 1 - b)
            && GetCc(x.cc, C) == If(Less8(d0.v, d1.v, b))
            && GetCc(x.cc, V) == If(if b == 0 then DifferenceOut8(d0.v, d1.v, x.value.v) else DifferenceOut8Borrow(d0.v, d1.v, x.value.v))
  {
    hide GetCc, Nzvc, HalfCarry, Less8, DifferenceOut8, DifferenceOut8Borrow, ByteResult, Minus;
    SubtractCodes(cc, d0, d1, 0);
    SubtractCodes(cc, d0, d1, GetCc(cc, C));
  }

  // ---------- words ----------

  lemma WideGets(cc: Word, i0: Word, i1: Word, r: Word, sub: Bit)
    ensures var cc' := Wide(cc, i0, i1, r, sub);
            && GetCc(cc', N) == TestN(Down8(r)) && GetCc(cc', Z) == TestZ16(r)
            && GetCc(cc', V) == TestV(Down8(i0), Down8(i1), Down8(r))
            && GetCc(cc', C) == TestC(Down8(i0), Down8(i1), Down8(r), sub)
            && forall g :: g != N && g != Z && g != V && g != C ==> GetCc(cc', g) == GetCc(cc, g)
  {
    hide GetCc, SetCc, TestN, TestZ16, TestV, TestC, Down8;
    var j0, j1, q := Down8(i0), Down8(i1), Down8(r);
    SetGetAll(cc, N, TestN(q));
    var c1 := SetCc(cc, N, TestN(q));
    SetGetAll(c1, Z, TestZ16(r));
    var c2 := SetCc(c1, Z, TestZ16(r));
    SetGetAll(c2, V, TestV(j0, j1, q));
    SetGetAll(SetCc(c2, V, TestV(j0, j1, q)), C, TestC(j0, j1, q, sub));
  }

  // N and Z of a word, and the codes no 16-bit arithmetic touches.
  ghost predicate WordResult(cc: Word, x: Result)
  {
    && GetCc(x.cc, N) == If(Negative16(x.value.v)) && GetCc(x.cc, Z) == If(None16(x.value.v))
    && GetCc(x.cc, E) == GetCc(cc, E) && GetCc(x.cc, F) == GetCc(cc, F) && GetCc(x.cc, I) == GetCc(cc, I)
    && GetCc(x.cc, H) == GetCc(cc, H)
  }

  lemma WideTests(cc: Word, i0: Word, i1: Word, r: Word, sub: Bit)
    ensures WordResult(cc, Result(r, Wide(cc, i0, i1, r, sub)))
  {
    hide GetCc, Wide, Carry, Overflow, Sign, Zero16, ShiftDown8, Negative16, None16, If;
    WideGets(cc, i0, i1, r, sub);
    ZeroTests(r.v);
    SignTests(r.v);
  }

  lemma AddIs(x: bv32, y: bv32)
    ensures IsSum(x, y, Add(x, y, 0))
  {
  }

  lemma WordSumTests(d0: Word, d1: Word)
    ensures var r := Sum(d0, d1, 0);
            && TestC(Down8(d0), Down8(d1), Down8(r), 0) == If(Exceeds16(d0.v, d1.v))
            && TestV(Down8(d0), Down8(d1), Down8(r)) == If(SumOut16(d0.v, d1.v))
  {
    hide Carry, Overflow, Add, ShiftDown8, Exceeds16, SumOut16, If, IsSum;
    AddIs(d0.v, d1.v);
    CarryTest16(d0.v, d1.v, Add(d0.v, d1.v, 0));
    OverflowTest16(d0.v, d1.v, Add(d0.v, d1.v, 0));
  }

  /** ADDD. */
  lemma WordAdditionCodes(cc: Word, d0: Word, d1: Word)
    ensures var x := Add16(cc, d0, d1);
            && WordResult(cc, x) && x.value == Sum(d0, d1, 0)
            && GetCc(x.cc, C) == If(Exceeds16(d0.v, d1.v)) && GetCc(x.cc, V) == If(SumOut16(d0.v, d1.v))
  {
    hide GetCc, Wide, TestC, TestV, Sum, Down8, Exceeds16, SumOut16, WordResult, If;
    var r := Sum(d0, d1, 0);
    WideTests(cc, d0, d1, r, 0);
    WideGets(cc, d0, d1, r, 0);
    WordSumTests(d0, d1);
  }

  lemma Left(x: bv32, y: bv32)
    ensures IsLeft(x, y, x + !y + 1)
  {
  }

  lemma MinusIs(x: bv32, y: bv32)
    ensures IsLeft(x, y, AddComplement(x, y, 1))
  {
    hide IsLeft;
    Left(x, y);
  }

  lemma WordDifferenceTests(d0: Word, d1: Word)
    ensures var r := Minus(d0, d1, 1);
            && TestC(Down8(d0), Down8(Not(d1)), Down8(r), 1) == If(Less16(d0.v, d1.v))
            && TestV(Down8(d0), Down8(Not(d1)), Down8(r)) == If(DifferenceOut16(d0.v, d1.v, r.v))
  {
    hide Carry, Overflow, Complement, AddComplement, ShiftDown8, Less16, DifferenceOut16, If, IsLeft, AddsUpTo;
    MinusIs(d0.v, d1.v);
    AddsUp(d0.v, d1.v, 0);
    BorrowTest16(d0.v, d1.v, AddComplement(d0.v, d1.v, 1));
    UnderflowTest16(d0.v, d1.v, AddComplement(d0.v, d1.v, 1));
  }

  /** SUBD, CMPD, CMPX, CMPY, CMPU and CMPS. */
  lemma WordSubtractionCodes(cc: Word, d0: Word, d1: Word)
    ensures var x := Sub16(cc, d0, d1);
            && WordResult(cc, x) && x.value == Minus(d0, d1, 1)
            && GetCc(x.cc, C) == If(Less16(d0.v, d1.v)) && GetCc(x.cc, V) == If(DifferenceOut16(d0.v, d1.v, x.value.v))
  {
    hide GetCc, Wide, TestC, TestV, Not, Minus, Down8, Less16, DifferenceOut16, WordResult, If;
    var r := Minus(d0, d1, 1);
    WideTests(cc, d0, Not(d1), r, 1);
    WideGets(cc, d0, Not(d1), r, 1);
    WordDifferenceTests(d0, d1);
  }

  // ---------- comparing and branching ----------

  predicate SignedBelow(x: bv32, y: bv32) { ((x & 0xff) ^ 0x80) < ((y & 0xff) ^ 0x80) }

  lemma SignsTell(x: bv32, y: bv32, r: bv32)
    requires IsLeft(x, y, r)
    ensures Unequal(Sign(r), Overflow(x, Complement(y), r)) == If(SignedBelow(x, y))
    ensures None8(r) <==> Equal8(x, y)
  {
    M6809Bits.SignsDiffer8(x, y, Complement(y), r);
    M6809Bits.SignedLess8(x, y, r);
    M6809Bits.NothingLeft8(x, y);
  }

  lemma NoBorrow(x: bv32, y: bv32)
    ensures Less8(x, y, 0) <==> Below(x, y)
  {
  }

  lemma EitherBit(p: bool, q: bool)
    ensures Either(If(p), If(q)) == If(p || q)
  {
  }

  // The codes a comparison leaves.
  lemma CompareCodes(cc: Word, d0: Word, d1: Word)
    ensures var cc', r := Sub8(cc, d0, d1).cc, Minus(d0, d1, 1);
            && GetCc(cc', N) == Sign(r.v) && GetCc(cc', V) == Overflow(d0.v, Complement(d1.v), r.v)
            && GetCc(cc', C) == If(Below(d0.v, d1.v)) && GetCc(cc', Z) == If(None8(r.v))
  {
    hide GetCc, Nzvc, HalfCarry, Carry, Overflow, Sign, Complement, AddComplement, Zero8, None8, Below, Less8, If;
    var r := Minus(d0, d1, 1);
    HalfCarryGets(cc, d0, Not(d1), r);
    NzvcGets(HalfCarry(cc, d0, Not(d1), r), d0, Not(d1), r, 1);
    ZeroTests(r.v);
    BorrowTest(d0.v, d1.v, 0);
    NoBorrow(d0.v, d1.v);
  }

  lemma DifferenceTells(d0: Word, d1: Word)
    ensures var r := Minus(d0, d1, 1);
            && Unequal(Sign(r.v), Overflow(d0.v, Complement(d1.v), r.v)) == If(SignedBelow(d0.v, d1.v))
            && (None8(r.v) <==> Equal8(d0.v, d1.v))
  {
    hide Unequal, Sign, Overflow, Complement, AddComplement, SignedBelow, None8, Equal8, If, IsLeft;
    MinusIs(d0.v, d1.v);
    SignsTell(d0.v, d1.v, AddComplement(d0.v, d1.v, 1));
  }

  /** CMPA and CMPB, and the branch after: what it tests is how the bytes compare, unsigned for
      BLO and BLS, signed for BLT and BLE; their opposites test the opposite. */
  lemma CompareThenBranch(cc: Word, d0: Word, d1: Word)
    ensures var cc' := Sub8(cc, d0, d1).cc;
            && Lower(cc') == If(Below(d0.v, d1.v)) && GetCc(cc', Z) == If(Equal8(d0.v, d1.v))
            && LowerOrSame(cc') == If(Below(d0.v, d1.v) || Equal8(d0.v, d1.v))
            && LessThan(cc') == If(SignedBelow(d0.v, d1.v))
            && LessOrEqual(cc') == If(Equal8(d0.v, d1.v) || SignedBelow(d0.v, d1.v))
  {
    hide GetCc, Sub8, Below, SignedBelow, Equal8, If, Sign, Overflow, Complement, Minus, None8, Either, Unequal;
    CompareCodes(cc, d0, d1);
    DifferenceTells(d0, d1);
    EitherBit(Below(d0.v, d1.v), Equal8(d0.v, d1.v));
    EitherBit(Equal8(d0.v, d1.v), SignedBelow(d0.v, d1.v));
  }

  predicate SignedBelow16(x: bv32, y: bv32) { ((x & 0xffff) ^ 0x8000) < ((y & 0xffff) ^ 0x8000) }

  predicate SignedAtMost(x: bv32, y: bv32) { ((x & 0xff) ^ 0x80) <= ((y & 0xff) ^ 0x80) }

  lemma SignsOfByte(a: bv32, b: bv32, nb: bv32, q: bv32)
    requires IsComplement(b, nb) && IsDifference(a, b, q)
    ensures Unequal(Sign(q), Overflow(a, nb, q)) == If(SignedBelow(a, b))
  {
  }

  lemma SignsOfByteBorrow(a: bv32, b: bv32, nb: bv32, q: bv32)
    requires IsComplement(b, nb) && IsDifferenceBorrow(a, b, q)
    ensures Unequal(Sign(q), Overflow(a, nb, q)) == If(SignedAtMost(a, b))
  {
  }

  lemma SignedByHalves(x: bv32, y: bv32)
    ensures var a, b := ShiftDown8(x), ShiftDown8(y);
            SignedBelow16(x, y) <==> if Below(x, y) then SignedAtMost(a, b) else SignedBelow(a, b)
  {
  }

  lemma WordSignsTell(x: bv32, y: bv32, r: bv32)
    requires IsLeft(x, y, r)
    ensures Unequal(Sign(ShiftDown8(r)), Overflow(ShiftDown8(x), ShiftDown8(Complement(y)), ShiftDown8(r)))
            == If(SignedBelow16(x, y))
  {
    hide Unequal, Sign, Overflow, ShiftDown8, Complement, Below, SignedAtMost, SignedBelow, SignedBelow16, If;
    hide IsDifference, IsDifferenceBorrow, IsComplement;
    var a, b, nb, q := ShiftDown8(x), ShiftDown8(y), ShiftDown8(Complement(y)), ShiftDown8(x - y);
    SignedByHalves(x, y);
    HighComplement(y);
    if Below(x, y) {
      HighDifferenceBorrow(x, y);
      SignsOfByteBorrow(a, b, nb, q);
    } else {
      HighDifference(x, y);
      SignsOfByte(a, b, nb, q);
    }
  }

  lemma WordNothingLeft(x: bv32, y: bv32, r: bv32)
    requires IsLeft(x, y, r)
    ensures None16(r) <==> Equal16(x, y)
  {
    M6809Bits.NothingLeft16(x, y);
  }

  /** The comparisons of words, CMPD, CMPX, CMPY, CMPU and CMPS, and the branch after. */
  lemma WordCompareThenBranch(cc: Word, d0: Word, d1: Word)
    ensures var cc' := Sub16(cc, d0, d1).cc;
            && Lower(cc') == If(Less16(d0.v, d1.v)) && GetCc(cc', Z) == If(Equal16(d0.v, d1.v))
            && LowerOrSame(cc') == If(Less16(d0.v, d1.v) || Equal16(d0.v, d1.v))
            && LessThan(cc') == If(SignedBelow16(d0.v, d1.v))
            && LessOrEqual(cc') == If(Equal16(d0.v, d1.v) || SignedBelow16(d0.v, d1.v))
  {
    hide GetCc, Wide, Carry, Overflow, Sign, Complement, AddComplement, ShiftDown8, Zero16, None16, Less16, Equal16;
    hide SignedBelow16, If, Either, Unequal, IsLeft, DifferenceOut16;
    var x, y, r := d0.v, d1.v, AddComplement(d0.v, d1.v, 1);
    WideGets(cc, d0, Not(d1), Minus(d0, d1, 1), 1);
    WordDifferenceTests(d0, d1);
    ZeroTests(r);
    MinusIs(x, y);
    WordSignsTell(x, y, r);
    WordNothingLeft(x, y, r);
    EitherBit(Less16(x, y), Equal16(x, y));
    EitherBit(Equal16(x, y), SignedBelow16(x, y));
  }

  lemma MaskIs(test: Bit, odd: bool)
    ensures BranchMask(test, odd) == Word(if (test == 1) == odd then 0xffff_ffff else 0)
  {
  }

  lemma MaskAll(w: Word)
    ensures And(w, Word(0xffff_ffff)) == w && And(w, Word(0)) == Word(0) && Sum(w, Word(0), 0) == w
  {
  }

  /** The branch is an addition of the offset, or of nothing: even codes branch when the test
      fails, odd ones when it holds. */
  lemma BranchAddsOffset(test: Bit, odd: bool, pc: Word, offset: Word)
    ensures Sum(pc, And(offset, BranchMask(test, odd)), 0) == if (test == 1) == odd then Sum(pc, offset, 0) else pc
  {
    hide Sum, And, BranchMask;
    MaskIs(test, odd);
    MaskAll(offset);
    MaskAll(pc);
  }
}
