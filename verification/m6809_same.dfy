/**
  No word operation of the 6809 core lets the upper bits of its operands into the lower bits of
  its result, or into a condition code.
 */
module M6809Same {
  import opened M6809Word
  import M6809Bits
  import M6809Flags

  // ---------- single operations ----------

  lemma Same8Of16(p: Word, q: Word)
    requires Same16(p, q)
    ensures Same8(p, q)
  {
  }

  lemma Low8Same(p: Word, q: Word)
    requires Same8(p, q)
    ensures Low8(p) == Low8(q)
  {
  }

  lemma Low16Same(p: Word, q: Word)
    requires Same16(p, q)
    ensures Low16(p) == Low16(q)
  {
  }

  // Each operation in three steps: on plain words, through its name, and on registers.
  lemma AddEqual8(x: bv32, x': bv32, y: bv32, y': bv32, c: bv32)
    requires Equal8(x, x') && Equal8(y, y')
    ensures Equal8(x + y + c, x' + y' + c)
  {
    M6809Bits.AddSame8(x, x', y, y', c);
  }

  lemma AdderSame8(x: bv32, x': bv32, y: bv32, y': bv32, c: bv32)
    requires Equal8(x, x') && Equal8(y, y')
    ensures Equal8(Add(x, y, c), Add(x', y', c))
  {
    hide Equal8;
    AddEqual8(x, x', y, y', c);
  }

  lemma SumSame8(p: Word, p': Word, q: Word, q': Word, c: bv32)
    requires Same8(p, p') && Same8(q, q')
    ensures Same8(Sum(p, q, c), Sum(p', q', c))
  {
    hide Equal8, Add;
    AdderSame8(p.v, p'.v, q.v, q'.v, c);
  }

  lemma AddEqual16(x: bv32, x': bv32, y: bv32, y': bv32, c: bv32)
    requires Equal16(x, x') && Equal16(y, y')
    ensures Equal16(x + y + c, x' + y' + c)
  {
    M6809Bits.AddSame16(x, x', y, y', c);
  }

  lemma AdderSame16(x: bv32, x': bv32, y: bv32, y': bv32, c: bv32)
    requires Equal16(x, x') && Equal16(y, y')
    ensures Equal16(Add(x, y, c), Add(x', y', c))
  {
    hide Equal16;
    AddEqual16(x, x', y, y', c);
  }

  lemma SumSame16(p: Word, p': Word, q: Word, q': Word, c: bv32)
    requires Same16(p, p') && Same16(q, q')
    ensures Same16(Sum(p, q, c), Sum(p', q', c))
  {
    hide Equal16, Add;
    AdderSame16(p.v, p'.v, q.v, q'.v, c);
  }

  lemma SubtractEqual8(x: bv32, x': bv32, y: bv32, y': bv32)
    requires Equal8(x, x') && Equal8(y, y')
    ensures Equal8(x + !y + 1, x' + !y' + 1)
  {
    M6809Bits.SubtractSame8(x, x', y, y');
  }

  lemma SubtractEqual8Borrow(x: bv32, x': bv32, y: bv32, y': bv32)
    requires Equal8(x, x') && Equal8(y, y')
    ensures Equal8(x + !y + 0, x' + !y' + 0)
  {
    M6809Bits.SubtractSame8Borrow(x, x', y, y');
  }

  lemma SubtracterSame8(x: bv32, x': bv32, y: bv32, y': bv32, c: Bit)
    requires Equal8(x, x') && Equal8(y, y')
    ensures Equal8(AddComplement(x, y, c), AddComplement(x', y', c))
  {
    hide Equal8;
    if c == 1 {
      SubtractEqual8(x, x', y, y');
    } else {
      SubtractEqual8Borrow(x, x', y, y');
    }
  }

  lemma MinusSame8(p: Word, p': Word, q: Word, q': Word, c: Bit)
    requires Same8(p, p') && Same8(q, q')
    ensures Same8(Minus(p, q, c), Minus(p', q', c))
  {
    hide Equal8, AddComplement;
    SubtracterSame8(p.v, p'.v, q.v, q'.v, c);
  }

  lemma SubtractFrom16(x: bv32, x': bv32, y: bv32)
    requires Equal16(x, x')
    ensures Equal16(x - y, x' - y)
  {
    M6809Bits.SubtractFrom16(x, x', y);
  }

  lemma SubtractOf16(x: bv32, y: bv32, y': bv32)
    requires Equal16(y, y')
    ensures Equal16(x - y, x - y')
  {
    M6809Bits.SubtractOf16(x, y, y');
  }

  lemma EqualTransitive16(x: bv32, y: bv32, z: bv32)
    requires Equal16(x, y) && Equal16(y, z)
    ensures Equal16(x, z)
  {
  }

  lemma SubtractEqual16(x: bv32, x': bv32, y: bv32, y': bv32)
    requires Equal16(x, x') && Equal16(y, y')
    ensures Equal16(x - y, x' - y')
  {
    hide Equal16;
    SubtractFrom16(x, x', y);
    SubtractOf16(x', y, y');
    EqualTransitive16(x - y, x' - y, x' - y');
  }

  lemma AddComplementTo16(x: bv32, x': bv32, y: bv32)
    requires Equal16(x, x')
    ensures Equal16(x + !y + 1, x' + !y + 1)
  {
    M6809Bits.AddComplementTo16(x, x', y);
  }

  lemma AddComplementOf16(x: bv32, y: bv32, y': bv32)
    requires Equal16(y, y')
    ensures Equal16(x + !y + 1, x + !y' + 1)
  {
    M6809Bits.AddComplementOf16(x, y, y');
  }

  lemma SubtracterSame16(x: bv32, x': bv32, y: bv32, y': bv32)
    requires Equal16(x, x') && Equal16(y, y')
    ensures Equal16(AddComplement(x, y, 1), AddComplement(x', y', 1))
  {
    hide Equal16;
    AddComplementTo16(x, x', y);
    AddComplementOf16(x', y, y');
    EqualTransitive16(x + !y + 1, x' + !y + 1, x' + !y' + 1);
  }

  lemma MinusSame16(p: Word, p': Word, q: Word, q': Word)
    requires Same16(p, p') && Same16(q, q')
    ensures Same16(Minus(p, q, 1), Minus(p', q', 1))
  {
    hide Equal16, AddComplement;
    SubtracterSame16(p.v, p'.v, q.v, q'.v);
  }

  lemma SubtractSame16(x: bv32, x': bv32, y: bv32, y': bv32)
    requires Equal16(x, x') && Equal16(y, y')
    ensures Equal16(Subtract(x, y), Subtract(x', y'))
  {
    hide Equal16;
    SubtractEqual16(x, x', y, y');
  }

  lemma DifferenceSame16(p: Word, p': Word, q: Word, q': Word)
    requires Same16(p, p') && Same16(q, q')
    ensures Same16(Difference(p, q), Difference(p', q'))
  {
    hide Equal16, Subtract;
    SubtractSame16(p.v, p'.v, q.v, q'.v);
  }

  lemma NotEqual8(x: bv32, x': bv32)
    requires Equal8(x, x')
    ensures Equal8(Complement(x), Complement(x'))
  {
  }

  lemma NotSame8(p: Word, p': Word)
    requires Same8(p, p')
    ensures Same8(Not(p), Not(p'))
  {
    hide Equal8, Complement;
    NotEqual8(p.v, p'.v);
  }

  lemma NotEqual16(x: bv32, x': bv32)
    requires Equal16(x, x')
    ensures Equal16(!x, !x')
  {
    M6809Bits.NotSame16(x, x');
  }

  lemma ComplementSame16(x: bv32, x': bv32)
    requires Equal16(x, x')
    ensures Equal16(Complement(x), Complement(x'))
  {
    hide Equal16;
    NotEqual16(x, x');
  }

  lemma NotSame16(p: Word, p': Word)
    requires Same16(p, p')
    ensures Same16(Not(p), Not(p'))
  {
    hide Equal16, Complement;
    ComplementSame16(p.v, p'.v);
  }

  lemma AndEqual8(x: bv32, x': bv32, y: bv32, y': bv32)
    requires Equal8(x, x') && Equal8(y, y')
    ensures Equal8(x & y, x' & y')
  {
  }

  lemma BitAndSame8(x: bv32, x': bv32, y: bv32, y': bv32)
    requires Equal8(x, x') && Equal8(y, y')
    ensures Equal8(BitAnd(x, y), BitAnd(x', y'))
  {
    hide Equal8;
    AndEqual8(x, x', y, y');
  }

  lemma AndSame8(p: Word, p': Word, q: Word, q': Word)
    requires Same8(p, p') && Same8(q, q')
    ensures Same8(And(p, q), And(p', q'))
  {
    hide Equal8, BitAnd;
    BitAndSame8(p.v, p'.v, q.v, q'.v);
  }

  lemma OrEqual8(x: bv32, x': bv32, y: bv32, y': bv32)
    requires Equal8(x, x') && Equal8(y, y')
    ensures Equal8(x | y, x' | y')
  {
  }

  lemma BitOrSame8(x: bv32, x': bv32, y: bv32, y': bv32)
    requires Equal8(x, x') && Equal8(y, y')
    ensures Equal8(BitOr(x, y), BitOr(x', y'))
  {
    hide Equal8;
    OrEqual8(x, x', y, y');
  }

  lemma OrSame8(p: Word, p': Word, q: Word, q': Word)
    requires Same8(p, p') && Same8(q, q')
    ensures Same8(Or(p, q), Or(p', q'))
  {
    hide Equal8, BitOr;
    BitOrSame8(p.v, p'.v, q.v, q'.v);
  }

  lemma XorEqual8(x: bv32, x': bv32, y: bv32, y': bv32)
    requires Equal8(x, x') && Equal8(y, y')
    ensures Equal8(x ^ y, x' ^ y')
  {
  }

  lemma BitXorSame8(x: bv32, x': bv32, y: bv32, y': bv32)
    requires Equal8(x, x') && Equal8(y, y')
    ensures Equal8(BitXor(x, y), BitXor(x', y'))
  {
    hide Equal8;
    XorEqual8(x, x', y, y');
  }

  lemma XorSame8(p: Word, p': Word, q: Word, q': Word)
    requires Same8(p, p') && Same8(q, q')
    ensures Same8(Xor(p, q), Xor(p', q'))
  {
    hide Equal8, BitXor;
    BitXorSame8(p.v, p'.v, q.v, q'.v);
  }

  lemma Up4Same(p: Word, p': Word)
    requires Same8(p, p')
    ensures Same8(Up4(p), Up4(p'))
  {
  }

  lemma Down8Same(p: Word, p': Word)
    requires Same16(p, p')
    ensures Same8(Down8(p), Down8(p'))
  {
  }

  lemma HalvedSame(p: Word, p': Word)
    requires Same8(p, p')
    ensures Halved(p) == Halved(p') && LowBit(p) == LowBit(p')
  {
  }

  lemma SignExtendSame(p: Word, p': Word)
    requires Same8(p, p')
    ensures SignExtend(p) == SignExtend(p')
  {
  }

  lemma JoinEqual(x: bv32, x': bv32, y: bv32, y': bv32)
    requires Equal8(x, x') && Equal8(y, y')
    ensures Equal16((x << 8) | (y & 0xff), (x' << 8) | (y' & 0xff))
  {
    M6809Bits.JoinSame(x, x', y, y');
  }

  lemma JoinedSame(x: bv32, x': bv32, y: bv32, y': bv32)
    requires Equal8(x, x') && Equal8(y, y')
    ensures Equal16(Joined(x, y), Joined(x', y'))
  {
    hide Equal8, Equal16;
    JoinEqual(x, x', y, y');
  }

  lemma JoinLowSame(p: Word, p': Word, q: Word, q': Word)
    requires Same8(p, p') && Same8(q, q')
    ensures Same16(JoinLow(p, q), JoinLow(p', q'))
  {
    hide Equal8, Equal16, Joined;
    JoinedSame(p.v, p'.v, q.v, q'.v);
  }

  lemma PaddedSame(p: Word, p': Word)
    requires Same8(p, p')
    ensures Same16(Padded(p), Padded(p'))
  {
  }

  lemma ProductSame(p: Word, p': Word, q: Word, q': Word)
    requires Same8(p, p') && Same8(q, q')
    ensures Product(p, q) == Product(p', q')
  {
    hide Same8, Low8, Multiply;
    Low8Same(p, p');
    Low8Same(q, q');
  }

  lemma CorrectionSame(p: Word, p': Word, h: Bit, c: Bit)
    requires Same8(p, p')
    ensures Correction(p, h, c) == Correction(p', h, c)
  {
  }

  // ---------- the tests ----------

  lemma TestCSame(i0: Word, j0: Word, i1: Word, j1: Word, r: Word, q: Word, sub: Bit)
    requires Same8(i0, j0) && Same8(i1, j1) && Same8(r, q)
    ensures TestC(i0, i1, r, sub) == TestC(j0, j1, q, sub)
  {
  }

  lemma TestVSame(i0: Word, j0: Word, i1: Word, j1: Word, r: Word, q: Word)
    requires Same8(i0, j0) && Same8(i1, j1) && Same8(r, q)
    ensures TestV(i0, i1, r) == TestV(j0, j1, q)
  {
  }

  lemma TestsSame(r: Word, q: Word)
    ensures Same8(r, q) ==> TestN(r) == TestN(q) && TestZ8(r) == TestZ8(q)
    ensures Same16(r, q) ==> TestZ16(r) == TestZ16(q)
  {
  }

  lemma OnSame(x: bv32, y: bv32, m: bv32)
    requires Equal8(x, y) && m <= 0xff && M6809Flags.On(x, m)
    ensures M6809Flags.On(y, m)
  {
  }

  lemma HasSame(cc: Word, dd: Word, f: Code)
    requires Same8(cc, dd)
    ensures M6809Flags.Has(cc, f) <==> M6809Flags.Has(dd, f)
  {
    hide Equal8, M6809Flags.On;
    MaskSmall(f);
    EqualSymmetric(cc.v, dd.v);
    if M6809Flags.On(cc.v, Mask(f)) {
      OnSame(cc.v, dd.v, Mask(f));
    }
    if M6809Flags.On(dd.v, Mask(f)) {
      OnSame(dd.v, cc.v, Mask(f));
    }
  }

  lemma EqualSymmetric(x: bv32, y: bv32)
    requires Equal8(x, y)
    ensures Equal8(y, x)
  {
  }

  lemma MaskSmall(f: Code)
    ensures Mask(f) <= 0xff
  {
  }

  lemma GetCcSame(cc: Word, dd: Word, f: Code)
    requires Same8(cc, dd)
    ensures GetCc(cc, f) == GetCc(dd, f)
  {
    hide GetCc, Same8, M6809Flags.Has;
    HasSame(cc, dd, f);
    M6809Flags.GetIsBit(cc, f);
    M6809Flags.GetIsBit(dd, f);
  }

  lemma SetCcSame(cc: Word, dd: Word, f: Code, v: Bit)
    requires Same8(cc, dd)
    ensures Same8(SetCc(cc, f, v), SetCc(dd, f, v))
  {
  }

  // ---------- condition codes set in a row ----------

  lemma NzvSame(cc: Word, dd: Word, i0: Word, j0: Word, i1: Word, j1: Word, r: Word, q: Word)
    requires Same8(cc, dd) && Same8(i0, j0) && Same8(i1, j1) && Same8(r, q)
    ensures Same8(Nzv(cc, i0, i1, r), Nzv(dd, j0, j1, q))
  {
    hide Same8, SetCc, TestN, TestZ8, TestV;
    TestsSame(r, q);
    TestVSame(i0, j0, i1, j1, r, q);
    SetCcSame(cc, dd, N, TestN(r));
    var c1, d1 := SetCc(cc, N, TestN(r)), SetCc(dd, N, TestN(q));
    SetCcSame(c1, d1, Z, TestZ8(r));
    SetCcSame(SetCc(c1, Z, TestZ8(r)), SetCc(d1, Z, TestZ8(q)), V, TestV(i0, i1, r));
  }

  lemma NzvcSame(cc: Word, dd: Word, i0: Word, j0: Word, i1: Word, j1: Word, r: Word, q: Word, sub: Bit)
    requires Same8(cc, dd) && Same8(i0, j0) && Same8(i1, j1) && Same8(r, q)
    ensures Same8(Nzvc(cc, i0, i1, r, sub), Nzvc(dd, j0, j1, q, sub))
  {
    hide Same8, SetCc, Nzv, TestC;
    NzvSame(cc, dd, i0, j0, i1, j1, r, q);
    TestCSame(i0, j0, i1, j1, r, q, sub);
    SetCcSame(Nzv(cc, i0, i1, r), Nzv(dd, j0, j1, q), C, TestC(i0, i1, r, sub));
  }

  lemma HalfCarrySame(cc: Word, dd: Word, i0: Word, j0: Word, i1: Word, j1: Word, r: Word, q: Word)
    requires Same8(cc, dd) && Same8(i0, j0) && Same8(i1, j1) && Same8(r, q)
    ensures Same8(HalfCarry(cc, i0, i1, r), HalfCarry(dd, j0, j1, q))
  {
    hide Same8, SetCc, TestC, Up4;
    Up4Same(i0, j0);
    Up4Same(i1, j1);
    Up4Same(r, q);
    TestCSame(Up4(i0), Up4(j0), Up4(i1), Up4(j1), Up4(r), Up4(q), 0);
    SetCcSame(cc, dd, H, TestC(Up4(i0), Up4(i1), Up4(r), 0));
  }

  lemma HnzvcSame(cc: Word, dd: Word, i0: Word, j0: Word, i1: Word, j1: Word, r: Word, q: Word, sub: Bit)
    requires Same8(cc, dd) && Same8(i0, j0) && Same8(i1, j1) && Same8(r, q)
    ensures Same8(Nzvc(HalfCarry(cc, i0, i1, r), i0, i1, r, sub), Nzvc(HalfCarry(dd, j0, j1, q), j0, j1, q, sub))
  {
    hide Same8, HalfCarry, Nzvc;
    HalfCarrySame(cc, dd, i0, j0, i1, j1, r, q);
    NzvcSame(HalfCarry(cc, i0, i1, r), HalfCarry(dd, j0, j1, q), i0, j0, i1, j1, r, q, sub);
  }

  // N and Z of a result, and V or C given.
  lemma SetTwoSame(cc: Word, dd: Word, r: Word, q: Word)
    requires Same8(cc, dd) && Same8(r, q)
    ensures Same8(SetCc(SetCc(cc, N, TestN(r)), Z, TestZ8(r)), SetCc(SetCc(dd, N, TestN(q)), Z, TestZ8(q)))
  {
    hide Same8, SetCc, TestN, TestZ8;
    TestsSame(r, q);
    SetCcSame(cc, dd, N, TestN(r));
    SetCcSame(SetCc(cc, N, TestN(r)), SetCc(dd, N, TestN(q)), Z, TestZ8(r));
  }

  lemma Tst8Same(cc: Word, dd: Word, r: Word, q: Word)
    requires Same8(cc, dd) && Same8(r, q)
    ensures Same8(Tst8(cc, r), Tst8(dd, q))
  {
    hide Same8, SetCc, TestN, TestZ8;
    SetTwoSame(cc, dd, r, q);
    SetCcSame(SetCc(SetCc(cc, N, TestN(r)), Z, TestZ8(r)), SetCc(SetCc(dd, N, TestN(q)), Z, TestZ8(q)), V, 0);
  }

  lemma Tst16Same(cc: Word, dd: Word, r: Word, q: Word)
    requires Same8(cc, dd) && Same16(r, q)
    ensures Same8(Tst16(cc, r), Tst16(dd, q))
  {
    hide Same8, Same16, SetCc, TestN, TestZ16, Down8;
    Down8Same(r, q);
    TestsSame(Down8(r), Down8(q));
    TestsSame(r, q);
    var n, z := TestN(Down8(r)), TestZ16(r);
    SetCcSame(cc, dd, N, n);
    SetCcSame(SetCc(cc, N, n), SetCc(dd, N, n), Z, z);
    SetCcSame(SetCc(SetCc(cc, N, n), Z, z), SetCc(SetCc(dd, N, n), Z, z), V, 0);
  }

  lemma ClrSame(cc: Word, dd: Word)
    requires Same8(cc, dd)
    ensures Same8(Clr(cc), Clr(dd))
  {
    hide Same8, SetCc;
    SetCcSame(cc, dd, N, 0);
    var c1, d1 := SetCc(cc, N, 0), SetCc(dd, N, 0);
    SetCcSame(c1, d1, Z, 1);
    var c2, d2 := SetCc(c1, Z, 1), SetCc(d1, Z, 1);
    SetCcSame(c2, d2, V, 0);
    SetCcSame(SetCc(c2, V, 0), SetCc(d2, V, 0), C, 0);
  }

  lemma WideSame(cc: Word, dd: Word, i0: Word, j0: Word, i1: Word, j1: Word, r: Word, q: Word, sub: Bit)
    requires Same8(cc, dd) && Same16(i0, j0) && Same16(i1, j1) && Same16(r, q)
    ensures Same8(Wide(cc, i0, i1, r, sub), Wide(dd, j0, j1, q, sub))
  {
    hide Same8, Same16, SetCc, TestN, TestZ16, TestV, TestC, Down8;
    Down8Same(i0, j0);
    Down8Same(i1, j1);
    Down8Same(r, q);
    TestsSame(Down8(r), Down8(q));
    TestsSame(r, q);
    TestVSame(Down8(i0), Down8(j0), Down8(i1), Down8(j1), Down8(r), Down8(q));
    TestCSame(Down8(i0), Down8(j0), Down8(i1), Down8(j1), Down8(r), Down8(q), sub);
    var n, z, v := TestN(Down8(r)), TestZ16(r), TestV(Down8(i0), Down8(i1), Down8(r));
    SetCcSame(cc, dd, N, n);
    var c1, d1 := SetCc(cc, N, n), SetCc(dd, N, n);
    SetCcSame(c1, d1, Z, z);
    var c2, d2 := SetCc(c1, Z, z), SetCc(d1, Z, z);
    SetCcSame(c2, d2, V, v);
    SetCcSame(SetCc(c2, V, v), SetCc(d2, V, v), C, TestC(Down8(i0), Down8(i1), Down8(r), sub));
  }

  // ---------- instructions ----------

  predicate ResultSame8(x: Result, y: Result)
  {
    Same8(x.value, y.value) && Same8(x.cc, y.cc)
  }

  predicate ResultSame16(x: Result, y: Result)
  {
    Same16(x.value, y.value) && Same8(x.cc, y.cc)
  }

  lemma AdditionsSame(cc: Word, dd: Word, p: Word, p': Word, q: Word, q': Word)
    requires Same8(cc, dd) && Same8(p, p') && Same8(q, q')
    ensures ResultSame8(Add8(cc, p, q), Add8(dd, p', q')) && ResultSame8(Adc(cc, p, q), Adc(dd, p', q'))
  {
    hide Same8, Sum, GetCc, HalfCarry, Nzvc;
    GetCcSame(cc, dd, C);
    var c := GetCc(cc, C);
    SumSame8(p, p', q, q', 0);
    SumSame8(p, p', q, q', c);
    HnzvcSame(cc, dd, p, p', q, q', Sum(p, q, 0), Sum(p', q', 0), 0);
    HnzvcSame(cc, dd, p, p', q, q', Sum(p, q, c), Sum(p', q', c), 0);
  }

  lemma SubtractionsSame(cc: Word, dd: Word, p: Word, p': Word, q: Word, q': Word)
    requires Same8(cc, dd) && Same8(p, p') && Same8(q, q')
    ensures ResultSame8(Sub8(cc, p, q), Sub8(dd, p', q')) && ResultSame8(Sbc(cc, p, q), Sbc(dd, p', q'))
  {
    hide Same8, Minus, Not, GetCc, HalfCarry, Nzvc;
    GetCcSame(cc, dd, C);
    var c: Bit := 1 - GetCc(cc, C);
    NotSame8(q, q');
    MinusSame8(p, p', q, q', 1);
    MinusSame8(p, p', q, q', c);
    HnzvcSame(cc, dd, p, p', Not(q), Not(q'), Minus(p, q, 1), Minus(p', q', 1), 1);
    HnzvcSame(cc, dd, p, p', Not(q), Not(q'), Minus(p, q, c), Minus(p', q', c), 1);
  }

  lemma LogicSame(cc: Word, dd: Word, p: Word, p': Word, q: Word, q': Word)
    requires Same8(cc, dd) && Same8(p, p') && Same8(q, q')
    ensures ResultSame8(And8(cc, p, q), And8(dd, p', q')) && ResultSame8(Eor(cc, p, q), Eor(dd, p', q'))
    ensures ResultSame8(Or8(cc, p, q), Or8(dd, p', q'))
  {
    hide Same8, And, Or, Xor, Tst8;
    AndSame8(p, p', q, q');
    OrSame8(p, p', q, q');
    XorSame8(p, p', q, q');
    Tst8Same(cc, dd, And(p, q), And(p', q'));
    Tst8Same(cc, dd, Or(p, q), Or(p', q'));
    Tst8Same(cc, dd, Xor(p, q), Xor(p', q'));
  }

  lemma SelfSame(p: Word)
    ensures Same8(p, p) && Same16(p, p)
  {
  }

  lemma NegAslSame(cc: Word, dd: Word, p: Word, q: Word)
    requires Same8(cc, dd) && Same8(p, q)
    ensures ResultSame8(Neg(cc, p), Neg(dd, q)) && ResultSame8(Asl(cc, p), Asl(dd, q))
  {
    hide Same8, ResultSame8, Sub8, Add8;
    SelfSame(Word(0));
    SubtractionsSame(cc, dd, Word(0), Word(0), p, q);
    AdditionsSame(cc, dd, p, q, p, q);
  }

  lemma RolSame(cc: Word, dd: Word, p: Word, q: Word)
    requires Same8(cc, dd) && Same8(p, q)
    ensures ResultSame8(Rol(cc, p), Rol(dd, q))
  {
    hide Same8, Sum, GetCc, Nzvc;
    GetCcSame(cc, dd, C);
    SumSame8(p, q, p, q, GetCc(cc, C));
    NzvcSame(cc, dd, p, q, p, q, Sum(p, p, GetCc(cc, C)), Sum(q, q, GetCc(dd, C)), 0);
  }

  lemma DecIncSame(cc: Word, dd: Word, p: Word, q: Word)
    requires Same8(cc, dd) && Same8(p, q)
    ensures ResultSame8(Dec(cc, p), Dec(dd, q)) && ResultSame8(Inc(cc, p), Inc(dd, q))
  {
    hide Same8, Sum, Nzv;
    var k, one := Word(0xff), Word(1);
    SelfSame(k);
    SelfSame(one);
    SumSame8(p, q, k, k, 0);
    SumSame8(p, q, one, one, 0);
    NzvSame(cc, dd, p, q, k, k, Sum(p, k, 0), Sum(q, k, 0));
    NzvSame(cc, dd, p, q, one, one, Sum(p, one, 0), Sum(q, one, 0));
  }

  lemma ComSame(cc: Word, dd: Word, p: Word, q: Word)
    requires Same8(cc, dd) && Same8(p, q)
    ensures ResultSame8(Com(cc, p), Com(dd, q))
  {
    hide Same8, Not, SetCc, TestN, TestZ8;
    NotSame8(p, q);
    SetTwoSame(cc, dd, Not(p), Not(q));
    var c1, d1 := SetCc(SetCc(cc, N, TestN(Not(p))), Z, TestZ8(Not(p))), SetCc(SetCc(dd, N, TestN(Not(q))), Z, TestZ8(Not(q)));
    SetCcSame(c1, d1, V, 0);
    SetCcSame(SetCc(c1, V, 0), SetCc(d1, V, 0), C, 1);
  }

  lemma ShiftedSame(cc: Word, dd: Word, p: Word, q: Word, r: Word, t: Word)
    requires Same8(cc, dd) && Same8(p, q) && Same8(r, t)
    ensures ResultSame8(Shifted(cc, p, r), Shifted(dd, q, t))
  {
    hide Same8, SetCc, TestN, TestZ8, LowBit;
    HalvedSame(p, q);
    SetTwoSame(cc, dd, r, t);
    SetCcSame(SetCc(SetCc(cc, N, TestN(r)), Z, TestZ8(r)), SetCc(SetCc(dd, N, TestN(t)), Z, TestZ8(t)), C, LowBit(p));
  }

  lemma LsrSame(cc: Word, dd: Word, p: Word, q: Word)
    requires Same8(cc, dd) && Same8(p, q)
    ensures ResultSame8(Lsr(cc, p), Lsr(dd, q))
  {
    hide Same8, SetCc, TestZ8, LowBit, Halved;
    HalvedSame(p, q);
    SelfSame(Halved(p));
    var z := TestZ8(Halved(p));
    SetCcSame(cc, dd, N, 0);
    SetCcSame(SetCc(cc, N, 0), SetCc(dd, N, 0), Z, z);
    SetCcSame(SetCc(SetCc(cc, N, 0), Z, z), SetCc(SetCc(dd, N, 0), Z, z), C, LowBit(p));
  }

  lemma RorAsrSame(cc: Word, dd: Word, p: Word, q: Word)
    requires Same8(cc, dd) && Same8(p, q)
    ensures ResultSame8(Ror(cc, p), Ror(dd, q)) && ResultSame8(Asr(cc, p), Asr(dd, q))
  {
    hide Same8, ResultSame8, Shifted, Or, And, GetCc, Halved, AtTop;
    HalvedSame(p, q);
    GetCcSame(cc, dd, C);
    var c, top := AtTop(GetCc(cc, C)), Word(0x80);
    SelfSame(Halved(p));
    SelfSame(c);
    SelfSame(top);
    OrSame8(Halved(p), Halved(q), c, c);
    ShiftedSame(cc, dd, p, q, Or(Halved(p), c), Or(Halved(q), c));
    AndSame8(p, q, top, top);
    OrSame8(Halved(p), Halved(q), And(p, top), And(q, top));
    ShiftedSame(cc, dd, p, q, Or(Halved(p), And(p, top)), Or(Halved(q), And(q, top)));
  }

  lemma Add16Same(cc: Word, dd: Word, p: Word, p': Word, q: Word, q': Word)
    requires Same8(cc, dd) && Same16(p, p') && Same16(q, q')
    ensures ResultSame16(Add16(cc, p, q), Add16(dd, p', q'))
  {
    hide Same8, Same16, Sum, Wide;
    SumSame16(p, p', q, q', 0);
    WideSame(cc, dd, p, p', q, q', Sum(p, q, 0), Sum(p', q', 0), 0);
  }

  lemma Sub16Same(cc: Word, dd: Word, p: Word, p': Word, q: Word, q': Word)
    requires Same8(cc, dd) && Same16(p, p') && Same16(q, q')
    ensures ResultSame16(Sub16(cc, p, q), Sub16(dd, p', q'))
  {
    hide Same8, Same16, Minus, Not, Wide;
    NotSame16(q, q');
    MinusSame16(p, p', q, q');
    WideSame(cc, dd, p, p', Not(q), Not(q'), Minus(p, q, 1), Minus(p', q', 1), 1);
  }

  lemma MulSame(cc: Word, dd: Word, p: Word, p': Word, q: Word, q': Word)
    requires Same8(cc, dd) && Same8(p, p') && Same8(q, q')
    ensures ResultSame16(Mul(cc, p, q), Mul(dd, p', q'))
  {
    hide Same8, Same16, Product, SetCc, TestZ16, TestN;
    ProductSame(p, p', q, q');
    var r := Product(p, q);
    SelfSame(r);
    SetCcSame(cc, dd, Z, TestZ16(r));
    SetCcSame(SetCc(cc, Z, TestZ16(r)), SetCc(dd, Z, TestZ16(r)), C, TestN(r));
  }

  lemma DaaSame(cc: Word, dd: Word, p: Word, q: Word)
    requires Same8(cc, dd) && Same8(p, q)
    ensures ResultSame8(Daa(cc, p), Daa(dd, q))
  {
    hide Same8, Sum, Correction, GetCc, SetCc, TestN, TestZ8, TestC;
    GetCcSame(cc, dd, H);
    GetCcSame(cc, dd, C);
    CorrectionSame(p, q, GetCc(cc, H), GetCc(cc, C));
    var k := Correction(p, GetCc(cc, H), GetCc(cc, C));
    SelfSame(k);
    SumSame8(p, q, k, k, 0);
    var r, t := Sum(p, k, 0), Sum(q, k, 0);
    SetTwoSame(cc, dd, r, t);
    TestCSame(p, q, k, k, r, t, 0);
    var c1, d1 := SetCc(SetCc(cc, N, TestN(r)), Z, TestZ8(r)), SetCc(SetCc(dd, N, TestN(t)), Z, TestZ8(t));
    SetCcSame(c1, d1, V, 0);
    SetCcSame(SetCc(c1, V, 0), SetCc(d1, V, 0), C, TestC(p, k, r, 0));
  }
}
