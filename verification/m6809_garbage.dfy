/**
  The upper bits of the 6809 core's registers never matter.  Two states that agree on the bits a
  register has, and on everything that went over the bus, stay that way for every run.
 */
module M6809Garbage {
  import opened M6809Word
  import opened M6809Same
  import opened M6809

  /** Agreement as the header of the core puts it: sixteen bits of the 16-bit registers, eight
      of the 8-bit ones, and everything else exactly. */
  ghost predicate Agree(c: Cpu, d: Cpu)
  {
    && Same16(c.x, d.x) && Same16(c.y, d.y) && Same16(c.u, d.u) && Same16(c.s, d.s) && Same16(c.pc, d.pc)
    && Same8(c.a, d.a) && Same8(c.b, d.b) && Same8(c.dp, d.dp) && Same8(c.cc, d.cc)
    && c.status == d.status && c.bus == d.bus && c.cycles == d.cycles
  }

  // ---------- registers ----------

  lemma GetAgrees(c: Cpu, d: Cpu, r: Reg)
    requires Agree(c, d)
    ensures Same16(Get(c, r), Get(d, r))
  {
    hide Same8, Same16, JoinLow;
    if r == RD {
      JoinLowSame(c.a, d.a, c.b, d.b);
    }
  }

  lemma SetAgrees(c: Cpu, d: Cpu, r: Reg, p: Word, q: Word)
    requires Agree(c, d) && Same16(p, q)
    ensures Agree(Set(c, r, p), Set(d, r, q))
  {
    hide Same8, Same16, Down8;
    Down8Same(p, q);
    Same8Of16(p, q);
  }

  lemma GetAccAgrees(c: Cpu, d: Cpu, acc: Acc)
    requires Agree(c, d)
    ensures Same8(GetAcc(c, acc), GetAcc(d, acc))
  {
    hide Same8, Same16;
  }

  lemma SetAccAgrees(c: Cpu, d: Cpu, acc: Acc, p: Word, q: Word)
    requires Agree(c, d) && Same8(p, q)
    ensures Agree(SetAcc(c, acc, p), SetAcc(d, acc, q))
  {
    hide Same8, Same16;
  }

  lemma CcAgrees(c: Cpu, d: Cpu, p: Word, q: Word)
    requires Agree(c, d) && Same8(p, q)
    ensures Agree(c.(cc := p), d.(cc := q))
  {
    hide Same8, Same16;
  }

  lemma ByteAgrees(c: Cpu, d: Cpu, x: Result, y: Result)
    requires Agree(c, d) && Same8(x.value, y.value) && Same8(x.cc, y.cc)
    ensures Agree(c.(a := x.value, cc := x.cc), d.(a := y.value, cc := y.cc))
  {
    hide Same8, Same16;
  }

  lemma PcAgrees(c: Cpu, d: Cpu, p: Word, q: Word)
    requires Agree(c, d) && Same16(p, q)
    ensures Agree(c.(pc := p), d.(pc := q))
  {
    hide Same8, Same16;
  }

  lemma TickAgrees(c: Cpu, d: Cpu, n: nat)
    requires Agree(c, d)
    ensures Agree(Tick(c, n), Tick(d, n))
  {
    hide Same8, Same16;
  }

  lemma StatusAgrees(c: Cpu, d: Cpu, status: Irq)
    requires Agree(c, d)
    ensures Agree(c.(status := status), d.(status := status))
  {
    hide Same8, Same16;
  }

  lemma PlusAgrees(p: Word, q: Word, k: bv32)
    requires Same16(p, q)
    ensures Same16(Plus(p, k), Plus(q, k)) && Same16(Less(p, k), Less(q, k))
  {
    hide Same16, Sum, Difference;
    SelfSame(Word(k));
    SumSame16(p, q, Word(k), Word(k), 0);
    DifferenceSame16(p, q, Word(k), Word(k));
  }

  lemma SumAgrees(p: Word, q: Word, k: Word)
    requires Same16(p, q)
    ensures Same16(Sum(p, k, 0), Sum(q, k, 0))
  {
    hide Same16, Sum;
    SelfSame(k);
    SumSame16(p, q, k, k, 0);
  }

  // ---------- the bus ----------

  lemma Read8Agrees(c: Cpu, d: Cpu, p: Word, q: Word)
    requires Agree(c, d) && Same16(p, q)
    ensures Agree(Read8(c, p).0, Read8(d, q).0) && Read8(c, p).1 == Read8(d, q).1
  {
    hide Same8, Same16, Answer, Low16;
    Low16Same(p, q);
  }

  lemma Write8Agrees(c: Cpu, d: Cpu, p: Word, q: Word, v: Word, w: Word)
    requires Agree(c, d) && Same16(p, q) && Same8(v, w)
    ensures Agree(Write8(c, p, v), Write8(d, q, w))
  {
    hide Same8, Same16, Low8, Low16;
    Low16Same(p, q);
    Low8Same(v, w);
  }

  lemma Read16Agrees(c: Cpu, d: Cpu, p: Word, q: Word)
    requires Agree(c, d) && Same16(p, q)
    ensures Agree(Read16(c, p).0, Read16(d, q).0) && Read16(c, p).1 == Read16(d, q).1
  {
    hide Agree, Same16, Read8, Plus, Join;
    Read8Agrees(c, d, p, q);
    PlusAgrees(p, q, 1);
    Read8Agrees(Read8(c, p).0, Read8(d, q).0, Plus(p, 1), Plus(q, 1));
  }

  lemma Write16Agrees(c: Cpu, d: Cpu, p: Word, q: Word, v: Word, w: Word)
    requires Agree(c, d) && Same16(p, q) && Same16(v, w)
    ensures Agree(Write16(c, p, v), Write16(d, q, w))
  {
    hide Agree, Same8, Same16, Write8, Plus, Down8;
    Down8Same(v, w);
    Same8Of16(v, w);
    PlusAgrees(p, q, 1);
    Write8Agrees(c, d, p, q, Down8(v), Down8(w));
    Write8Agrees(Write8(c, p, Down8(v)), Write8(d, q, Down8(w)), Plus(p, 1), Plus(q, 1), v, w);
  }

  lemma Push8Agrees(c: Cpu, d: Cpu, stack: Reg, v: Word, w: Word)
    requires Agree(c, d) && Same8(v, w)
    ensures Agree(Push8(c, stack, v), Push8(d, stack, w))
  {
    hide Agree, Same8, Same16, Get, Set, Write8, Less;
    GetAgrees(c, d, stack);
    PlusAgrees(Get(c, stack), Get(d, stack), 1);
    var p, q := Less(Get(c, stack), 1), Less(Get(d, stack), 1);
    SetAgrees(c, d, stack, p, q);
    Write8Agrees(Set(c, stack, p), Set(d, stack, q), p, q, v, w);
  }

  lemma Push16Agrees(c: Cpu, d: Cpu, stack: Reg, v: Word, w: Word)
    requires Agree(c, d) && Same16(v, w)
    ensures Agree(Push16(c, stack, v), Push16(d, stack, w))
  {
    hide Agree, Same8, Same16, Push8, Down8;
    Down8Same(v, w);
    Same8Of16(v, w);
    Push8Agrees(c, d, stack, v, w);
    Push8Agrees(Push8(c, stack, v), Push8(d, stack, w), stack, Down8(v), Down8(w));
  }

  lemma Pull8Agrees(c: Cpu, d: Cpu, stack: Reg)
    requires Agree(c, d)
    ensures Agree(Pull8(c, stack).0, Pull8(d, stack).0) && Pull8(c, stack).1 == Pull8(d, stack).1
  {
    hide Agree, Same16, Get, Set, Read8, Plus;
    GetAgrees(c, d, stack);
    Read8Agrees(c, d, Get(c, stack), Get(d, stack));
    PlusAgrees(Get(c, stack), Get(d, stack), 1);
    SetAgrees(Read8(c, Get(c, stack)).0, Read8(d, Get(d, stack)).0, stack, Plus(Get(c, stack), 1), Plus(Get(d, stack), 1));
  }

  lemma Pull16Agrees(c: Cpu, d: Cpu, stack: Reg)
    requires Agree(c, d)
    ensures Agree(Pull16(c, stack).0, Pull16(d, stack).0) && Pull16(c, stack).1 == Pull16(d, stack).1
  {
    hide Agree, Pull8, Join;
    Pull8Agrees(c, d, stack);
    Pull8Agrees(Pull8(c, stack).0, Pull8(d, stack).0, stack);
  }

  lemma PcOf(c: Cpu, d: Cpu)
    requires Agree(c, d)
    ensures Same16(c.pc, d.pc)
  {
    hide Same8, Same16;
  }

  lemma PcRead8Agrees(c: Cpu, d: Cpu)
    requires Agree(c, d)
    ensures Agree(PcRead8(c).0, PcRead8(d).0) && PcRead8(c).1 == PcRead8(d).1
  {
    hide Agree, Same16, Read8, Plus;
    PcOf(c, d);
    Read8Agrees(c, d, c.pc, d.pc);
    PlusAgrees(c.pc, d.pc, 1);
    PcAgrees(Read8(c, c.pc).0, Read8(d, d.pc).0, Plus(c.pc, 1), Plus(d.pc, 1));
  }

  lemma PcRead16Agrees(c: Cpu, d: Cpu)
    requires Agree(c, d)
    ensures Agree(PcRead16(c).0, PcRead16(d).0) && PcRead16(c).1 == PcRead16(d).1
  {
    hide Agree, Same16, Read16, Plus;
    PcOf(c, d);
    Read16Agrees(c, d, c.pc, d.pc);
    PlusAgrees(c.pc, d.pc, 2);
    PcAgrees(Read16(c, c.pc).0, Read16(d, d.pc).0, Plus(c.pc, 2), Plus(d.pc, 2));
  }

  // ---------- addressing ----------

  // Two computations of an address, or of anything a 16-bit register takes.
  ghost predicate Alike(x: (Cpu, Word), y: (Cpu, Word))
  {
    Agree(x.0, y.0) && Same16(x.1, y.1)
  }

  lemma JoinEqualHigh(x: bv32, x': bv32, y: bv32)
    requires Equal8(x, x')
    ensures Equal16((x << 8) | y, (x' << 8) | y)
  {
  }

  lemma BesideHigh(x: bv32, x': bv32, y: bv32)
    requires Equal8(x, x')
    ensures Equal16(Beside(x, y), Beside(x', y))
  {
    hide Equal8, Equal16;
    JoinEqualHigh(x, x', y);
  }

  lemma JoinHigh(p: Word, q: Word, low: Word)
    requires Same8(p, q)
    ensures Same16(Join(p, low), Join(q, low))
  {
    hide Equal8, Equal16, Beside;
    BesideHigh(p.v, q.v, low.v);
  }

  lemma DirectAgrees(c: Cpu, d: Cpu)
    requires Agree(c, d)
    ensures Alike(Direct(c), Direct(d))
  {
    hide Same8, Same16, PcRead8, Join;
    PcRead8Agrees(c, d);
    JoinHigh(c.dp, d.dp, PcRead8(c).1);
  }

  lemma IndirectedAgrees(c: Cpu, d: Cpu, p: Word, q: Word, indirect: bool, cost: nat)
    requires Agree(c, d) && Same16(p, q)
    ensures Alike(Indirected(c, p, indirect, cost), Indirected(d, q, indirect, cost))
  {
    hide Agree, Same16, Read16, Tick;
    if indirect {
      Read16Agrees(c, d, p, q);
      TickAgrees(Read16(c, p).0, Read16(d, q).0, cost + 3);
      SelfSame(Read16(c, p).1);
    } else {
      TickAgrees(c, d, cost);
    }
  }

  lemma AfterAgrees(c: Cpu, d: Cpu, r: Reg, k: bv32, indirect: bool, cost: nat)
    requires Agree(c, d)
    ensures Alike(After(c, r, k, indirect, cost), After(d, r, k, indirect, cost))
  {
    hide Agree, Same16, Get, Set, Indirected, Plus;
    GetAgrees(c, d, r);
    IndirectedAgrees(c, d, Get(c, r), Get(d, r), indirect, cost);
    PlusAgrees(Get(c, r), Get(d, r), k);
    SetAgrees(Indirected(c, Get(c, r), indirect, cost).0, Indirected(d, Get(d, r), indirect, cost).0, r,
              Plus(Get(c, r), k), Plus(Get(d, r), k));
  }

  lemma BeforeAgrees(c: Cpu, d: Cpu, r: Reg, k: bv32, indirect: bool, cost: nat)
    requires Agree(c, d)
    ensures Alike(Before(c, r, k, indirect, cost), Before(d, r, k, indirect, cost))
  {
    hide Agree, Same16, Alike, Get, Set, Indirected, Less;
    GetAgrees(c, d, r);
    PlusAgrees(Get(c, r), Get(d, r), k);
    var p, q := Less(Get(c, r), k), Less(Get(d, r), k);
    SetAgrees(c, d, r, p, q);
    IndirectedAgrees(Set(c, r, p), Set(d, r, q), p, q, indirect, cost);
  }

  lemma OffsetAgrees(c: Cpu, d: Cpu, r: Reg, k: Word, indirect: bool, cost: nat, c1: Cpu, d1: Cpu)
    requires Agree(c, d) && Agree(c1, d1)
    ensures Alike(Indirected(c1, Sum(Get(c, r), k, 0), indirect, cost), Indirected(d1, Sum(Get(d, r), k, 0), indirect, cost))
  {
    hide Agree, Same16, Alike, Get, Indirected, Sum;
    GetAgrees(c, d, r);
    SumAgrees(Get(c, r), Get(d, r), k);
    IndirectedAgrees(c1, d1, Sum(Get(c, r), k, 0), Sum(Get(d, r), k, 0), indirect, cost);
  }

  lemma FetchedOffsetsAgree(c: Cpu, d: Cpu, r: Reg, indirect: bool)
    requires Agree(c, d)
    ensures Alike(ByteOffset(c, r, indirect), ByteOffset(d, r, indirect))
    ensures Alike(WordOffset(c, r, indirect), WordOffset(d, r, indirect))
  {
    hide Agree, Alike, Get, Indirected, Sum, SignExtend, PcRead8, PcRead16;
    PcRead8Agrees(c, d);
    PcRead16Agrees(c, d);
    OffsetAgrees(c, d, r, SignExtend(PcRead8(c).1), indirect, 1, PcRead8(c).0, PcRead8(d).0);
    OffsetAgrees(c, d, r, PcRead16(c).1, indirect, 4, PcRead16(c).0, PcRead16(d).0);
  }

  lemma PcRelativeAgrees(c: Cpu, d: Cpu, k: Word, indirect: bool, cost: nat)
    requires Agree(c, d)
    ensures Alike(Indirected(c, Sum(c.pc, k, 0), indirect, cost), Indirected(d, Sum(d.pc, k, 0), indirect, cost))
  {
    hide Agree, Same16, Alike, Indirected, Sum;
    PcOf(c, d);
    SumAgrees(c.pc, d.pc, k);
    IndirectedAgrees(c, d, Sum(c.pc, k, 0), Sum(d.pc, k, 0), indirect, cost);
  }

  lemma PcOffsetsAgree(c: Cpu, d: Cpu, indirect: bool)
    requires Agree(c, d)
    ensures Alike(BytePc(c, indirect), BytePc(d, indirect)) && Alike(WordPc(c, indirect), WordPc(d, indirect))
  {
    hide Agree, Alike, Indirected, Sum, SignExtend, PcRead8, PcRead16;
    PcRead8Agrees(c, d);
    PcRead16Agrees(c, d);
    PcRelativeAgrees(PcRead8(c).0, PcRead8(d).0, SignExtend(PcRead8(c).1), indirect, 1);
    PcRelativeAgrees(PcRead16(c).0, PcRead16(d).0, PcRead16(c).1, indirect, 5);
  }

  lemma PointedAgrees(c: Cpu, d: Cpu)
    requires Agree(c, d)
    ensures Alike(Pointed(c), Pointed(d))
  {
    hide Agree, Same16, PcRead16, Read16, Tick;
    PcRead16Agrees(c, d);
    var (c1, at) := PcRead16(c);
    var d1 := PcRead16(d).0;
    SelfSame(at);
    Read16Agrees(c1, d1, at, at);
    TickAgrees(Read16(c1, at).0, Read16(d1, at).0, 5);
    SelfSame(Read16(c1, at).1);
  }

  lemma AccumulatorOffsetsAgree(c: Cpu, d: Cpu)
    requires Agree(c, d)
    ensures SignExtend(c.a) == SignExtend(d.a) && SignExtend(c.b) == SignExtend(d.b)
  {
    hide Same8, Same16, SignExtend;
    SignExtendSame(c.a, d.a);
    SignExtendSame(c.b, d.b);
  }

  lemma DOffsetAgrees(c: Cpu, d: Cpu, r: Reg, indirect: bool)
    requires Agree(c, d)
    ensures Alike(Indirected(c, Sum(Get(c, r), Get(c, RD), 0), indirect, 4), Indirected(d, Sum(Get(d, r), Get(d, RD), 0), indirect, 4))
  {
    hide Agree, Same16, Alike, Get, Indirected, Sum;
    GetAgrees(c, d, r);
    GetAgrees(c, d, RD);
    SumSame16(Get(c, r), Get(d, r), Get(c, RD), Get(d, RD), 0);
    IndirectedAgrees(c, d, Sum(Get(c, r), Get(c, RD), 0), Sum(Get(d, r), Get(d, RD), 0), indirect, 4);
  }

  lemma IndexedLongAgrees(c: Cpu, d: Cpu, op: nat)
    requires Agree(c, d)
    ensures Alike(IndexedLong(c, op), IndexedLong(d, op))
  {
    hide Agree, Same16, Get, Indirected, Sum, SignExtend, After, Before, ByteOffset, WordOffset, BytePc, WordPc, Pointed, IndexOf;
    var r := IndexOf(op);
    var indirect := op / 16 % 2 == 1;
    var mode := op % 16;
    if mode == 0 {
      AfterAgrees(c, d, r, 1, indirect, 2);
    } else if mode == 1 {
      AfterAgrees(c, d, r, 2, indirect, 3);
    } else if mode == 2 {
      BeforeAgrees(c, d, r, 1, indirect, 2);
    } else if mode == 3 {
      BeforeAgrees(c, d, r, 2, indirect, 3);
    } else if mode == 4 {
      GetAgrees(c, d, r);
      IndirectedAgrees(c, d, Get(c, r), Get(d, r), indirect, 0);
    } else if mode == 5 || mode == 6 {
      AccumulatorOffsetsAgree(c, d);
      OffsetAgrees(c, d, r, SignExtend(if mode == 5 then c.b else c.a), indirect, 1, c, d);
    } else if mode == 8 || mode == 9 {
      FetchedOffsetsAgree(c, d, r, indirect);
    } else if mode == 0xb {
      DOffsetAgrees(c, d, r, indirect);
    } else if mode == 0xc || mode == 0xd {
      PcOffsetsAgree(c, d, indirect);
    } else if op == 0x9f {
      PointedAgrees(c, d);
    } else {
      SelfSame(Word(0));
    }
  }

  lemma IndexedAgrees(c: Cpu, d: Cpu)
    requires Agree(c, d)
    ensures Alike(Indexed(c), Indexed(d))
  {
    hide Agree, Same16, PcRead8, Get, Sum, Nibble, Less, Tick, IndexedLong, Number, IndexOf;
    PcRead8Agrees(c, d);
    var (c1, post) := PcRead8(c);
    var d1 := PcRead8(d).0;
    var op := Number(post);
    if op < 0x80 {
      var r := IndexOf(op);
      GetAgrees(c1, d1, r);
      SumAgrees(Get(c1, r), Get(d1, r), Nibble(post));
      PlusAgrees(Sum(Get(c1, r), Nibble(post), 0), Sum(Get(d1, r), Nibble(post), 0), 0x10);
      TickAgrees(c1, d1, 1);
    } else {
      IndexedLongAgrees(c1, d1, op);
    }
  }

  lemma AddressAgrees(c: Cpu, d: Cpu, mode: Mode)
    requires Agree(c, d)
    ensures Alike(Address(c, mode), Address(d, mode))
  {
    hide Agree, Same16, Direct, Indexed, PcRead16;
    match mode
    case DIRECT => DirectAgrees(c, d);
    case INDEXED => IndexedAgrees(c, d);
    case _ =>
      PcRead16Agrees(c, d);
      SelfSame(PcRead16(c).1);
  }

  lemma Operand8Agrees(c: Cpu, d: Cpu, mode: Mode)
    requires Agree(c, d)
    ensures Agree(Operand8(c, mode).0, Operand8(d, mode).0) && Operand8(c, mode).1 == Operand8(d, mode).1
  {
    hide Agree, Same16, Address, Read8, PcRead8;
    if mode == IMMEDIATE {
      PcRead8Agrees(c, d);
    } else {
      AddressAgrees(c, d, mode);
      var (c1, ea) := Address(c, mode);
      var (d1, ea') := Address(d, mode);
      Read8Agrees(c1, d1, ea, ea');
    }
  }

  lemma Operand16Agrees(c: Cpu, d: Cpu, mode: Mode)
    requires Agree(c, d)
    ensures Agree(Operand16(c, mode).0, Operand16(d, mode).0) && Operand16(c, mode).1 == Operand16(d, mode).1
  {
    hide Agree, Same16, Address, Read16, PcRead16;
    if mode == IMMEDIATE {
      PcRead16Agrees(c, d);
    } else {
      AddressAgrees(c, d, mode);
      var (c1, ea) := Address(c, mode);
      var (d1, ea') := Address(d, mode);
      Read16Agrees(c1, d1, ea, ea');
    }
  }

  // ---------- instructions ----------

  lemma CcOf(c: Cpu, d: Cpu)
    requires Agree(c, d)
    ensures Same8(c.cc, d.cc) && Same8(c.a, d.a) && Same8(c.b, d.b) && Same8(c.dp, d.dp)
    ensures Same16(c.x, d.x) && Same16(c.y, d.y) && Same16(c.pc, d.pc) && c.status == d.status
  {
    hide Same8, Same16;
  }

  lemma UnaryAgrees(op: UnaryOp, cc: Word, dd: Word, p: Word, q: Word)
    requires Same8(cc, dd) && Same8(p, q)
    ensures ResultSame8(Unary(op, cc, p), Unary(op, dd, q))
  {
    hide Same8, ResultSame8, Neg, Com, Lsr, Ror, Asr, Asl, Rol, Dec, Inc;
    match op
    case NEG => NegAslSame(cc, dd, p, q);
    case COM => ComSame(cc, dd, p, q);
    case LSR => LsrSame(cc, dd, p, q);
    case ROR => RorAsrSame(cc, dd, p, q);
    case ASR => RorAsrSame(cc, dd, p, q);
    case ASL => NegAslSame(cc, dd, p, q);
    case ROL => RolSame(cc, dd, p, q);
    case DEC => DecIncSame(cc, dd, p, q);
    case INC => DecIncSame(cc, dd, p, q);
  }

  lemma BinaryAgrees(op: BinaryOp, cc: Word, dd: Word, p: Word, q: Word, v: Word)
    requires Same8(cc, dd) && Same8(p, q)
    ensures ResultSame8(Binary(op, cc, p, v), Binary(op, dd, q, v))
  {
    hide Same8, ResultSame8, Sub8, Sbc, And8, Eor, Adc, Or8, Add8;
    SelfSame(v);
    AdditionsSame(cc, dd, p, q, v, v);
    SubtractionsSame(cc, dd, p, q, v, v);
    LogicSame(cc, dd, p, q, v, v);
  }

  lemma UnaryAccAgrees(c: Cpu, d: Cpu, op: UnaryOp, acc: Acc)
    requires Agree(c, d)
    ensures Agree(DoUnaryAcc(c, op, acc), DoUnaryAcc(d, op, acc))
  {
    hide Agree, Same8, Unary, GetAcc, SetAcc, Tick;
    CcOf(c, d);
    GetAccAgrees(c, d, acc);
    UnaryAgrees(op, c.cc, d.cc, GetAcc(c, acc), GetAcc(d, acc));
    var x, y := Unary(op, c.cc, GetAcc(c, acc)), Unary(op, d.cc, GetAcc(d, acc));
    CcAgrees(c, d, x.cc, y.cc);
    SetAccAgrees(c.(cc := x.cc), d.(cc := y.cc), acc, x.value, y.value);
    TickAgrees(SetAcc(c.(cc := x.cc), acc, x.value), SetAcc(d.(cc := y.cc), acc, y.value), 2);
  }

  lemma UnaryMemAgrees(c: Cpu, d: Cpu, op: UnaryOp, mode: Mode)
    requires Agree(c, d)
    ensures Agree(DoUnaryMem(c, op, mode), DoUnaryMem(d, op, mode))
  {
    hide Agree, Same8, Same16, Unary, Address, Read8, Write8, Tick, Cost;
    AddressAgrees(c, d, mode);
    var (c1, ea) := Address(c, mode);
    var (d1, ea') := Address(d, mode);
    Read8Agrees(c1, d1, ea, ea');
    var (c2, data) := Read8(c1, ea);
    var d2 := Read8(d1, ea').0;
    CcOf(c2, d2);
    SelfSame(data);
    UnaryAgrees(op, c2.cc, d2.cc, data, data);
    var x, y := Unary(op, c2.cc, data), Unary(op, d2.cc, data);
    CcAgrees(c2, d2, x.cc, y.cc);
    var c3, d3 := c2.(cc := x.cc), d2.(cc := y.cc);
    Write8Agrees(c3, d3, ea, ea', x.value, y.value);
    TickAgrees(Write8(c3, ea, x.value), Write8(d3, ea', y.value), Cost(mode, 4));
  }

  lemma TestMemAgrees(c: Cpu, d: Cpu, mode: Mode)
    requires Agree(c, d)
    ensures Agree(DoTestMem(c, mode), DoTestMem(d, mode))
  {
    hide Agree, Same8, Operand8, Tst8, Tick, Cost;
    Operand8Agrees(c, d, mode);
    var (c1, data) := Operand8(c, mode);
    var d1 := Operand8(d, mode).0;
    CcOf(c1, d1);
    SelfSame(data);
    Tst8Same(c1.cc, d1.cc, data, data);
    CcAgrees(c1, d1, Tst8(c1.cc, data), Tst8(d1.cc, data));
    TickAgrees(c1.(cc := Tst8(c1.cc, data)), d1.(cc := Tst8(d1.cc, data)), Cost(mode, 4));
  }

  lemma ClearMemAgrees(c: Cpu, d: Cpu, mode: Mode)
    requires Agree(c, d)
    ensures Agree(DoClearMem(c, mode), DoClearMem(d, mode))
  {
    hide Agree, Same8, Same16, Address, Write8, Clr, Tick, Cost;
    AddressAgrees(c, d, mode);
    var (c1, ea) := Address(c, mode);
    var (d1, ea') := Address(d, mode);
    CcOf(c1, d1);
    ClrSame(c1.cc, d1.cc);
    CcAgrees(c1, d1, Clr(c1.cc), Clr(d1.cc));
    var c2, d2 := c1.(cc := Clr(c1.cc)), d1.(cc := Clr(d1.cc));
    SelfSame(Word(0));
    Write8Agrees(c2, d2, ea, ea', Word(0), Word(0));
    TickAgrees(Write8(c2, ea, Word(0)), Write8(d2, ea', Word(0)), Cost(mode, 4));
  }

  lemma JumpAgrees(c: Cpu, d: Cpu, mode: Mode)
    requires Agree(c, d)
    ensures Agree(DoJump(c, mode), DoJump(d, mode))
  {
    hide Agree, Same16, Address, Tick, Cost;
    AddressAgrees(c, d, mode);
    var (c1, ea) := Address(c, mode);
    var (d1, ea') := Address(d, mode);
    PcAgrees(c1, d1, ea, ea');
    TickAgrees(c1.(pc := ea), d1.(pc := ea'), Cost(mode, 1));
  }

  lemma Binary8Agrees(c: Cpu, d: Cpu, op: BinaryOp, acc: Acc, mode: Mode, keep: bool)
    requires Agree(c, d)
    ensures Agree(DoBinary8(c, op, acc, mode, keep), DoBinary8(d, op, acc, mode, keep))
  {
    hide Agree, Same8, Operand8, Binary, GetAcc, SetAcc, Tick, Cost;
    Operand8Agrees(c, d, mode);
    var (c1, data) := Operand8(c, mode);
    var d1 := Operand8(d, mode).0;
    CcOf(c1, d1);
    GetAccAgrees(c1, d1, acc);
    BinaryAgrees(op, c1.cc, d1.cc, GetAcc(c1, acc), GetAcc(d1, acc), data);
    var x, y := Binary(op, c1.cc, GetAcc(c1, acc), data), Binary(op, d1.cc, GetAcc(d1, acc), data);
    CcAgrees(c1, d1, x.cc, y.cc);
    var c2, d2 := c1.(cc := x.cc), d1.(cc := y.cc);
    SetAccAgrees(c2, d2, acc, x.value, y.value);
    TickAgrees(if keep then SetAcc(c2, acc, x.value) else c2, if keep then SetAcc(d2, acc, y.value) else d2, Cost(mode, 2));
  }

  lemma Load8Agrees(c: Cpu, d: Cpu, acc: Acc, mode: Mode)
    requires Agree(c, d)
    ensures Agree(DoLoad8(c, acc, mode), DoLoad8(d, acc, mode))
  {
    hide Agree, Same8, Operand8, SetAcc, Tst8, Tick, Cost;
    Operand8Agrees(c, d, mode);
    var (c1, data) := Operand8(c, mode);
    var d1 := Operand8(d, mode).0;
    SelfSame(data);
    SetAccAgrees(c1, d1, acc, data, data);
    var c2, d2 := SetAcc(c1, acc, data), SetAcc(d1, acc, data);
    CcOf(c2, d2);
    Tst8Same(c2.cc, d2.cc, data, data);
    CcAgrees(c2, d2, Tst8(c2.cc, data), Tst8(d2.cc, data));
    TickAgrees(c2.(cc := Tst8(c2.cc, data)), d2.(cc := Tst8(d2.cc, data)), Cost(mode, 2));
  }

  lemma Store8Agrees(c: Cpu, d: Cpu, acc: Acc, mode: Mode)
    requires Agree(c, d)
    ensures Agree(DoStore8(c, acc, mode), DoStore8(d, acc, mode))
  {
    hide Agree, Same8, Same16, Address, Write8, GetAcc, Tst8, Tick, Cost;
    AddressAgrees(c, d, mode);
    var (c1, ea) := Address(c, mode);
    var (d1, ea') := Address(d, mode);
    GetAccAgrees(c1, d1, acc);
    Write8Agrees(c1, d1, ea, ea', GetAcc(c1, acc), GetAcc(d1, acc));
    var c2, d2 := Write8(c1, ea, GetAcc(c1, acc)), Write8(d1, ea', GetAcc(d1, acc));
    CcOf(c2, d2);
    GetAccAgrees(c2, d2, acc);
    Tst8Same(c2.cc, d2.cc, GetAcc(c2, acc), GetAcc(d2, acc));
    CcAgrees(c2, d2, Tst8(c2.cc, GetAcc(c2, acc)), Tst8(d2.cc, GetAcc(d2, acc)));
    TickAgrees(c2.(cc := Tst8(c2.cc, GetAcc(c2, acc))), d2.(cc := Tst8(d2.cc, GetAcc(d2, acc))), Cost(mode, 2));
  }

  lemma WideAgrees(c: Cpu, d: Cpu, add: bool, mode: Mode)
    requires Agree(c, d)
    ensures Agree(DoWide(c, add, mode), DoWide(d, add, mode))
  {
    hide Agree, Same8, Same16, Operand16, Add16, Sub16, Get, Set, Tick, Cost;
    Operand16Agrees(c, d, mode);
    var (c1, data) := Operand16(c, mode);
    var d1 := Operand16(d, mode).0;
    CcOf(c1, d1);
    GetAgrees(c1, d1, RD);
    SelfSame(data);
    Add16Same(c1.cc, d1.cc, Get(c1, RD), Get(d1, RD), data, data);
    Sub16Same(c1.cc, d1.cc, Get(c1, RD), Get(d1, RD), data, data);
    var x := if add then Add16(c1.cc, Get(c1, RD), data) else Sub16(c1.cc, Get(c1, RD), data);
    var y := if add then Add16(d1.cc, Get(d1, RD), data) else Sub16(d1.cc, Get(d1, RD), data);
    CcAgrees(c1, d1, x.cc, y.cc);
    SetAgrees(c1.(cc := x.cc), d1.(cc := y.cc), RD, x.value, y.value);
    TickAgrees(Set(c1.(cc := x.cc), RD, x.value), Set(d1.(cc := y.cc), RD, y.value), Cost(mode, 4));
  }

  lemma Compare16Agrees(c: Cpu, d: Cpu, reg: Reg, mode: Mode, extra: nat)
    requires Agree(c, d)
    ensures Agree(DoCompare16(c, reg, mode, extra), DoCompare16(d, reg, mode, extra))
  {
    hide Agree, Same8, Same16, Operand16, Sub16, Get, Tick, Cost;
    Operand16Agrees(c, d, mode);
    var (c1, data) := Operand16(c, mode);
    var d1 := Operand16(d, mode).0;
    CcOf(c1, d1);
    GetAgrees(c1, d1, reg);
    SelfSame(data);
    Sub16Same(c1.cc, d1.cc, Get(c1, reg), Get(d1, reg), data, data);
    var x, y := Sub16(c1.cc, Get(c1, reg), data), Sub16(d1.cc, Get(d1, reg), data);
    CcAgrees(c1, d1, x.cc, y.cc);
    TickAgrees(c1.(cc := x.cc), d1.(cc := y.cc), Cost(mode, 4) + extra);
  }

  // The codes of a 16-bit register just loaded or stored.
  lemma Tested(c: Cpu, d: Cpu, reg: Reg, n: nat)
    requires Agree(c, d)
    ensures Agree(Tick(c.(cc := Tst16(c.cc, Get(c, reg))), n), Tick(d.(cc := Tst16(d.cc, Get(d, reg))), n))
  {
    hide Agree, Same8, Same16, Tst16, Get, Tick;
    CcOf(c, d);
    GetAgrees(c, d, reg);
    Tst16Same(c.cc, d.cc, Get(c, reg), Get(d, reg));
    CcAgrees(c, d, Tst16(c.cc, Get(c, reg)), Tst16(d.cc, Get(d, reg)));
    TickAgrees(c.(cc := Tst16(c.cc, Get(c, reg))), d.(cc := Tst16(d.cc, Get(d, reg))), n);
  }

  lemma Load16Agrees(c: Cpu, d: Cpu, reg: Reg, mode: Mode, extra: nat)
    requires Agree(c, d)
    ensures Agree(DoLoad16(c, reg, mode, extra), DoLoad16(d, reg, mode, extra))
  {
    hide Agree, Same16, Operand16, Tst16, Get, Set, Tick, Cost;
    Operand16Agrees(c, d, mode);
    var (c1, data) := Operand16(c, mode);
    var d1 := Operand16(d, mode).0;
    SelfSame(data);
    SetAgrees(c1, d1, reg, data, data);
    Tested(Set(c1, reg, data), Set(d1, reg, data), reg, Cost(mode, 3) + extra);
  }

  lemma Store16Agrees(c: Cpu, d: Cpu, reg: Reg, mode: Mode, extra: nat)
    requires Agree(c, d)
    ensures Agree(DoStore16(c, reg, mode, extra), DoStore16(d, reg, mode, extra))
  {
    hide Agree, Same16, Address, Write16, Tst16, Get, Tick, Cost;
    AddressAgrees(c, d, mode);
    var (c1, ea) := Address(c, mode);
    var (d1, ea') := Address(d, mode);
    GetAgrees(c1, d1, reg);
    Write16Agrees(c1, d1, ea, ea', Get(c1, reg), Get(d1, reg));
    Tested(Write16(c1, ea, Get(c1, reg)), Write16(d1, ea', Get(d1, reg)), reg, Cost(mode, 3) + extra);
  }

  // ---------- branches and calls ----------

  lemma CodeAgrees(c: Cpu, d: Cpu, flag: Code)
    requires Agree(c, d)
    ensures GetCc(c.cc, flag) == GetCc(d.cc, flag)
  {
    hide Same8, Same16, GetCc;
    GetCcSame(c.cc, d.cc, flag);
  }

  lemma OffsetPcAgrees(c: Cpu, d: Cpu, k: Word, n: nat)
    requires Agree(c, d)
    ensures Agree(Tick(c.(pc := Sum(c.pc, k, 0)), n), Tick(d.(pc := Sum(d.pc, k, 0)), n))
  {
    hide Agree, Same16, Sum, Tick;
    PcOf(c, d);
    SumAgrees(c.pc, d.pc, k);
    PcAgrees(c, d, Sum(c.pc, k, 0), Sum(d.pc, k, 0));
    TickAgrees(c.(pc := Sum(c.pc, k, 0)), d.(pc := Sum(d.pc, k, 0)), n);
  }

  lemma BranchesAgree(c: Cpu, d: Cpu, cond: nat, odd: bool)
    requires Agree(c, d)
    ensures Agree(DoBranch(c, cond, odd), DoBranch(d, cond, odd))
    ensures Agree(DoLongBranch(c, cond, odd), DoLongBranch(d, cond, odd))
  {
    hide Agree, Same8, PcRead8, PcRead16, GetCc, Either, Unequal, BranchMask, And, SignExtend, Sum, Tick;
    CodeAgrees(c, d, C);
    CodeAgrees(c, d, Z);
    CodeAgrees(c, d, V);
    CodeAgrees(c, d, N);
    PcRead8Agrees(c, d);
    PcRead16Agrees(c, d);
    var mask := BranchMask(Condition(c.cc, cond), odd);
    OffsetPcAgrees(PcRead8(c).0, PcRead8(d).0, And(SignExtend(PcRead8(c).1), mask), 3);
    OffsetPcAgrees(PcRead16(c).0, PcRead16(d).0, And(PcRead16(c).1, mask), if mask == Word(0) then 5 else 6);
  }

  lemma LongJumpAgrees(c: Cpu, d: Cpu)
    requires Agree(c, d)
    ensures Agree(DoLongJump(c), DoLongJump(d))
  {
    hide Agree, PcRead16, Sum, Tick;
    PcRead16Agrees(c, d);
    OffsetPcAgrees(PcRead16(c).0, PcRead16(d).0, PcRead16(c).1, 5);
  }

  lemma PushPcAgrees(c: Cpu, d: Cpu)
    requires Agree(c, d)
    ensures Agree(Push16(c, RS, c.pc), Push16(d, RS, d.pc))
  {
    hide Agree, Same16, Push16;
    PcOf(c, d);
    Push16Agrees(c, d, RS, c.pc, d.pc);
  }

  lemma RelativeCallsAgree(c: Cpu, d: Cpu)
    requires Agree(c, d)
    ensures Agree(DoLongCall(c), DoLongCall(d)) && Agree(DoShortCall(c), DoShortCall(d))
  {
    hide Agree, PcRead8, PcRead16, Push16, SignExtend, Sum, Tick;
    PcRead16Agrees(c, d);
    var (c1, offset) := PcRead16(c);
    var d1 := PcRead16(d).0;
    PushPcAgrees(c1, d1);
    OffsetPcAgrees(Push16(c1, RS, c1.pc), Push16(d1, RS, d1.pc), offset, 9);
    PcRead8Agrees(c, d);
    var (c2, short) := PcRead8(c);
    var d2 := PcRead8(d).0;
    PushPcAgrees(c2, d2);
    OffsetPcAgrees(Push16(c2, RS, c2.pc), Push16(d2, RS, d2.pc), SignExtend(short), 7);
  }

  lemma CallAgrees(c: Cpu, d: Cpu, mode: Mode)
    requires Agree(c, d)
    ensures Agree(DoCall(c, mode), DoCall(d, mode))
  {
    hide Agree, Same16, Address, Push16, Tick, Cost;
    AddressAgrees(c, d, mode);
    var (c1, ea) := Address(c, mode);
    var (d1, ea') := Address(d, mode);
    PushPcAgrees(c1, d1);
    PcAgrees(Push16(c1, RS, c1.pc), Push16(d1, RS, d1.pc), ea, ea');
    TickAgrees(Push16(c1, RS, c1.pc).(pc := ea), Push16(d1, RS, d1.pc).(pc := ea'), Cost(mode, 5));
  }

  lemma LeaAgrees(c: Cpu, d: Cpu, reg: Reg)
    requires Agree(c, d)
    ensures Agree(DoLea(c, reg), DoLea(d, reg))
  {
    hide Agree, Same8, Same16, Indexed, Set, SetCc, TestZ16, Tick;
    IndexedAgrees(c, d);
    var (c1, ea) := Indexed(c);
    var (d1, ea') := Indexed(d);
    SetAgrees(c1, d1, reg, ea, ea');
    var c2, d2 := Set(c1, reg, ea), Set(d1, reg, ea');
    TestsSame(ea, ea');
    CcOf(c2, d2);
    SetCcSame(c2.cc, d2.cc, Z, TestZ16(ea));
    CcAgrees(c2, d2, SetCc(c2.cc, Z, TestZ16(ea)), SetCc(d2.cc, Z, TestZ16(ea')));
    TickAgrees(c2.(cc := SetCc(c2.cc, Z, TestZ16(ea))), d2.(cc := SetCc(d2.cc, Z, TestZ16(ea'))), 4);
    TickAgrees(c2, d2, 4);
  }

  // ---------- stacks ----------

  lemma PushWordAgrees(c: Cpu, d: Cpu, stack: Reg, listed: bool, v: Word, w: Word)
    requires Agree(c, d) && Same16(v, w)
    ensures Agree(PushWord(c, stack, listed, v), PushWord(d, stack, listed, w))
  {
    hide Agree, Same16, Push16, Tick;
    Push16Agrees(c, d, stack, v, w);
    TickAgrees(Push16(c, stack, v), Push16(d, stack, w), 2);
  }

  lemma PushByteAgrees(c: Cpu, d: Cpu, stack: Reg, listed: bool, v: Word, w: Word)
    requires Agree(c, d) && Same8(v, w)
    ensures Agree(PushByte(c, stack, listed, v), PushByte(d, stack, listed, w))
  {
    hide Agree, Same8, Push8, Tick;
    Push8Agrees(c, d, stack, v, w);
    TickAgrees(Push8(c, stack, v), Push8(d, stack, w), 1);
  }

  lemma PushListAgrees(c: Cpu, d: Cpu, op: Word, stack: Reg)
    requires Agree(c, d)
    ensures Agree(PushList(c, op, stack), PushList(d, op, stack))
  {
    hide Agree, Same8, Same16, PushWord, PushByte, Lists, Get;
    CcOf(c, d);
    GetAgrees(c, d, Other(stack));
    PushWordAgrees(c, d, stack, Lists(op, 0x80), c.pc, d.pc);
    var c1, d1 := PushWord(c, stack, Lists(op, 0x80), c.pc), PushWord(d, stack, Lists(op, 0x80), d.pc);
    PushWordAgrees(c1, d1, stack, Lists(op, 0x40), Get(c, Other(stack)), Get(d, Other(stack)));
    var c2, d2 := PushWord(c1, stack, Lists(op, 0x40), Get(c, Other(stack))), PushWord(d1, stack, Lists(op, 0x40), Get(d, Other(stack)));
    PushWordAgrees(c2, d2, stack, Lists(op, 0x20), c.y, d.y);
    var c3, d3 := PushWord(c2, stack, Lists(op, 0x20), c.y), PushWord(d2, stack, Lists(op, 0x20), d.y);
    PushWordAgrees(c3, d3, stack, Lists(op, 0x10), c.x, d.x);
    var c4, d4 := PushWord(c3, stack, Lists(op, 0x10), c.x), PushWord(d3, stack, Lists(op, 0x10), d.x);
    PushByteAgrees(c4, d4, stack, Lists(op, 0x08), c.dp, d.dp);
    var c5, d5 := PushByte(c4, stack, Lists(op, 0x08), c.dp), PushByte(d4, stack, Lists(op, 0x08), d.dp);
    PushByteAgrees(c5, d5, stack, Lists(op, 0x04), c.b, d.b);
    var c6, d6 := PushByte(c5, stack, Lists(op, 0x04), c.b), PushByte(d5, stack, Lists(op, 0x04), d.b);
    PushByteAgrees(c6, d6, stack, Lists(op, 0x02), c.a, d.a);
    var c7, d7 := PushByte(c6, stack, Lists(op, 0x02), c.a), PushByte(d6, stack, Lists(op, 0x02), d.a);
    PushByteAgrees(c7, d7, stack, Lists(op, 0x01), c.cc, d.cc);
  }

  lemma BytePulled(c: Cpu, d: Cpu, v: Word)
    requires Agree(c, d)
    ensures Agree(c.(cc := v), d.(cc := v)) && Agree(c.(a := v), d.(a := v)) && Agree(c.(b := v), d.(b := v))
    ensures Agree(c.(dp := v), d.(dp := v)) && Agree(c.(pc := v), d.(pc := v))
  {
    hide Same8, Same16;
    SelfSame(v);
  }

  lemma PullBytesAgree(c: Cpu, d: Cpu, stack: Reg, listed: bool)
    requires Agree(c, d)
    ensures Agree(PullCc(c, stack, listed), PullCc(d, stack, listed)) && Agree(PullA(c, stack, listed), PullA(d, stack, listed))
    ensures Agree(PullB(c, stack, listed), PullB(d, stack, listed)) && Agree(PullDp(c, stack, listed), PullDp(d, stack, listed))
  {
    hide Agree, Pull8, Tick;
    Pull8Agrees(c, d, stack);
    var (c1, data) := Pull8(c, stack);
    var d1 := Pull8(d, stack).0;
    BytePulled(c1, d1, data);
    TickAgrees(c1.(cc := data), d1.(cc := data), 1);
    TickAgrees(c1.(a := data), d1.(a := data), 1);
    TickAgrees(c1.(b := data), d1.(b := data), 1);
    TickAgrees(c1.(dp := data), d1.(dp := data), 1);
  }

  lemma PullWordsAgree(c: Cpu, d: Cpu, stack: Reg, listed: bool, r: Reg)
    requires Agree(c, d)
    ensures Agree(PullReg(c, stack, listed, r), PullReg(d, stack, listed, r))
    ensures Agree(PullPc(c, stack, listed), PullPc(d, stack, listed))
  {
    hide Agree, Same16, Pull16, Set, Tick;
    Pull16Agrees(c, d, stack);
    var (c1, data) := Pull16(c, stack);
    var d1 := Pull16(d, stack).0;
    SelfSame(data);
    SetAgrees(c1, d1, r, data, data);
    PcAgrees(c1, d1, data, data);
    TickAgrees(Set(c1, r, data), Set(d1, r, data), 2);
    TickAgrees(c1.(pc := data), d1.(pc := data), 2);
  }

  lemma PullListAgrees(c: Cpu, d: Cpu, op: Word, stack: Reg)
    requires Agree(c, d)
    ensures Agree(PullList(c, op, stack), PullList(d, op, stack))
  {
    hide Agree, PullCc, PullA, PullB, PullDp, PullReg, PullPc, Lists;
    PullBytesAgree(c, d, stack, Lists(op, 0x01));
    var c1, d1 := PullCc(c, stack, Lists(op, 0x01)), PullCc(d, stack, Lists(op, 0x01));
    PullBytesAgree(c1, d1, stack, Lists(op, 0x02));
    var c2, d2 := PullA(c1, stack, Lists(op, 0x02)), PullA(d1, stack, Lists(op, 0x02));
    PullBytesAgree(c2, d2, stack, Lists(op, 0x04));
    var c3, d3 := PullB(c2, stack, Lists(op, 0x04)), PullB(d2, stack, Lists(op, 0x04));
    PullBytesAgree(c3, d3, stack, Lists(op, 0x08));
    var c4, d4 := PullDp(c3, stack, Lists(op, 0x08)), PullDp(d3, stack, Lists(op, 0x08));
    PullWordsAgree(c4, d4, stack, Lists(op, 0x10), RX);
    var c5, d5 := PullReg(c4, stack, Lists(op, 0x10), RX), PullReg(d4, stack, Lists(op, 0x10), RX);
    PullWordsAgree(c5, d5, stack, Lists(op, 0x20), RY);
    var c6, d6 := PullReg(c5, stack, Lists(op, 0x20), RY), PullReg(d5, stack, Lists(op, 0x20), RY);
    PullWordsAgree(c6, d6, stack, Lists(op, 0x40), Other(stack));
    var c7, d7 := PullReg(c6, stack, Lists(op, 0x40), Other(stack)), PullReg(d6, stack, Lists(op, 0x40), Other(stack));
    PullWordsAgree(c7, d7, stack, Lists(op, 0x80), RX);
  }

  lemma PushPullAgree(c: Cpu, d: Cpu, stack: Reg)
    requires Agree(c, d)
    ensures Agree(DoPush(c, stack), DoPush(d, stack)) && Agree(DoPull(c, stack), DoPull(d, stack))
  {
    hide Agree, PcRead8, PushList, PullList, Tick;
    PcRead8Agrees(c, d);
    var (c1, op) := PcRead8(c);
    var d1 := PcRead8(d).0;
    PushListAgrees(c1, d1, op, stack);
    PullListAgrees(c1, d1, op, stack);
    TickAgrees(PushList(c1, op, stack), PushList(d1, op, stack), 5);
    TickAgrees(PullList(c1, op, stack), PullList(d1, op, stack), 5);
  }

  lemma ReturnAgrees(c: Cpu, d: Cpu)
    requires Agree(c, d)
    ensures Agree(DoReturn(c), DoReturn(d))
  {
    hide Agree, Pull16, Tick;
    Pull16Agrees(c, d, RS);
    var (c1, pc) := Pull16(c, RS);
    var d1 := Pull16(d, RS).0;
    BytePulled(c1, d1, pc);
    TickAgrees(c1.(pc := pc), d1.(pc := pc), 5);
  }

  // ---------- the rest ----------

  lemma AbxAgrees(c: Cpu, d: Cpu)
    requires Agree(c, d)
    ensures Agree(DoAbx(c), DoAbx(d))
  {
    hide Same8, Same16, Sum, Low8;
    Low8Same(c.b, d.b);
    SumAgrees(c.x, d.x, Low8(c.b));
  }

  lemma CcMasksAgree(c: Cpu, d: Cpu)
    requires Agree(c, d)
    ensures Agree(DoOrCc(c), DoOrCc(d)) && Agree(DoAndCc(c), DoAndCc(d))
  {
    hide Agree, Same8, PcRead8, Or, And, Tick;
    PcRead8Agrees(c, d);
    var (c1, data) := PcRead8(c);
    var d1 := PcRead8(d).0;
    CcOf(c1, d1);
    SelfSame(data);
    OrSame8(c1.cc, d1.cc, data, data);
    AndSame8(c1.cc, d1.cc, data, data);
    CcAgrees(c1, d1, Or(c1.cc, data), Or(d1.cc, data));
    CcAgrees(c1, d1, And(c1.cc, data), And(d1.cc, data));
    TickAgrees(c1.(cc := Or(c1.cc, data)), d1.(cc := Or(d1.cc, data)), 3);
    TickAgrees(c1.(cc := And(c1.cc, data)), d1.(cc := And(d1.cc, data)), 3);
  }

  lemma SexAgrees(c: Cpu, d: Cpu)
    requires Agree(c, d)
    ensures Agree(DoSex(c), DoSex(d))
  {
    hide Agree, Same8, Same16, SignExtend, Get, Set, SetCc, TestN, TestZ16, Tick;
    AccumulatorOffsetsAgree(c, d);
    var w := SignExtend(c.b);
    SelfSame(w);
    SetAgrees(c, d, RD, w, w);
    var c1, d1 := Set(c, RD, w), Set(d, RD, w);
    CcOf(c1, d1);
    GetAgrees(c1, d1, RD);
    TestsSame(c1.a, d1.a);
    TestsSame(Get(c1, RD), Get(d1, RD));
    SetCcSame(c1.cc, d1.cc, N, TestN(c1.a));
    SetCcSame(SetCc(c1.cc, N, TestN(c1.a)), SetCc(d1.cc, N, TestN(d1.a)), Z, TestZ16(Get(c1, RD)));
    var e, f := SetCc(SetCc(c1.cc, N, TestN(c1.a)), Z, TestZ16(Get(c1, RD))), SetCc(SetCc(d1.cc, N, TestN(d1.a)), Z, TestZ16(Get(d1, RD)));
    CcAgrees(c1, d1, e, f);
    TickAgrees(c1.(cc := e), d1.(cc := f), 2);
  }

  lemma NamedAgrees(c: Cpu, d: Cpu, n: nat)
    requires Agree(c, d)
    ensures Same16(Named(c, n), Named(d, n))
  {
    hide Same8, Same16, Get, Padded;
    GetAgrees(c, d, RD);
    PaddedSame(c.a, d.a);
    PaddedSame(c.b, d.b);
    PaddedSame(c.cc, d.cc);
    PaddedSame(c.dp, d.dp);
    SelfSame(Word(0xffff));
  }

  lemma RenamedAgrees(c: Cpu, d: Cpu, n: nat, p: Word, q: Word)
    requires Agree(c, d) && Same16(p, q)
    ensures Agree(Renamed(c, n, p), Renamed(d, n, q))
  {
    hide Same8, Same16, Set;
    SetAgrees(c, d, RD, p, q);
    Same8Of16(p, q);
  }

  lemma ExchangesAgree(c: Cpu, d: Cpu)
    requires Agree(c, d)
    ensures Agree(DoExchange(c), DoExchange(d)) && Agree(DoTransfer(c), DoTransfer(d))
  {
    hide Agree, Same16, PcRead8, Named, Renamed, Tick, Number;
    PcRead8Agrees(c, d);
    var (c1, op) := PcRead8(c);
    var d1 := PcRead8(d).0;
    var n, m := Number(op) % 16, Number(op) / 16;
    NamedAgrees(c1, d1, n);
    NamedAgrees(c1, d1, m);
    RenamedAgrees(c1, d1, n, Named(c1, m), Named(d1, m));
    var c2, d2 := Renamed(c1, n, Named(c1, m)), Renamed(d1, n, Named(d1, m));
    RenamedAgrees(c2, d2, m, Named(c1, n), Named(d1, n));
    TickAgrees(Renamed(c2, m, Named(c1, n)), Renamed(d2, m, Named(d1, n)), 8);
    TickAgrees(c2, d2, 6);
  }

  lemma AccAgrees(c: Cpu, d: Cpu, i: Instr)
    requires Agree(c, d) && (i.TestAcc? || i.ClearAcc?)
    ensures Agree(DoAcc(c, i), DoAcc(d, i))
  {
    hide Agree, Same8, GetAcc, SetAcc, Tst8, Clr, Tick;
    CcOf(c, d);
    GetAccAgrees(c, d, i.acc);
    Tst8Same(c.cc, d.cc, GetAcc(c, i.acc), GetAcc(d, i.acc));
    CcAgrees(c, d, Tst8(c.cc, GetAcc(c, i.acc)), Tst8(d.cc, GetAcc(d, i.acc)));
    TickAgrees(c.(cc := Tst8(c.cc, GetAcc(c, i.acc))), d.(cc := Tst8(d.cc, GetAcc(d, i.acc))), 2);
    ClrSame(c.cc, d.cc);
    CcAgrees(c, d, Clr(c.cc), Clr(d.cc));
    SelfSame(Word(0));
    SetAccAgrees(c.(cc := Clr(c.cc)), d.(cc := Clr(d.cc)), i.acc, Word(0), Word(0));
    TickAgrees(SetAcc(c.(cc := Clr(c.cc)), i.acc, Word(0)), SetAcc(d.(cc := Clr(d.cc)), i.acc, Word(0)), 2);
  }

  lemma MultiplyAgrees(c: Cpu, d: Cpu)
    requires Agree(c, d)
    ensures Agree(DoMultiply(c), DoMultiply(d))
  {
    hide Agree, Same8, Same16, Mul, Set, Tick;
    CcOf(c, d);
    MulSame(c.cc, d.cc, c.a, d.a, c.b, d.b);
    var x, y := Mul(c.cc, c.a, c.b), Mul(d.cc, d.a, d.b);
    CcAgrees(c, d, x.cc, y.cc);
    SetAgrees(c.(cc := x.cc), d.(cc := y.cc), RD, x.value, y.value);
    TickAgrees(Set(c.(cc := x.cc), RD, x.value), Set(d.(cc := y.cc), RD, y.value), 11);
  }

  // ---------- interrupts ----------

  lemma WithCodeAgrees(c: Cpu, d: Cpu, flag: Code, v: Bit)
    requires Agree(c, d)
    ensures Agree(WithCode(c, flag, v), WithCode(d, flag, v))
  {
    hide Same8, Same16, SetCc;
    SetCcSame(c.cc, d.cc, flag, v);
  }

  lemma EntriesAgree(c: Cpu, d: Cpu)
    requires Agree(c, d)
    ensures Agree(PushEntire(c), PushEntire(d)) && Agree(PushFast(c), PushFast(d))
  {
    hide Agree, WithCode, PushList;
    WithCodeAgrees(c, d, E, 1);
    WithCodeAgrees(c, d, E, 0);
    PushListAgrees(WithCode(c, E, 1), WithCode(d, E, 1), Word(0xff), RS);
    PushListAgrees(WithCode(c, E, 0), WithCode(d, E, 0), Word(0x81), RS);
  }

  lemma VectorAgrees(c: Cpu, d: Cpu, at: bv32)
    requires Agree(c, d)
    ensures Agree(Vector(c, at), Vector(d, at))
  {
    hide Agree, Same16, Read16;
    SelfSame(Word(at));
    Read16Agrees(c, d, Word(at), Word(at));
    BytePulled(Read16(c, Word(at)).0, Read16(d, Word(at)).0, Read16(c, Word(at)).1);
  }

  lemma FastInterruptAgrees(c: Cpu, d: Cpu)
    requires Agree(c, d)
    ensures Agree(FastInterrupt(c), FastInterrupt(d))
  {
    hide Agree, PushFast, WithCode, Vector, Tick;
    CcOf(c, d);
    EntriesAgree(c, d);
    var c1, d1 := if c.status != CWAI then PushFast(c) else c, if d.status != CWAI then PushFast(d) else d;
    WithCodeAgrees(c1, d1, I, 1);
    var c2, d2 := WithCode(c1, I, 1), WithCode(d1, I, 1);
    WithCodeAgrees(c2, d2, F, 1);
    var c3, d3 := WithCode(c2, F, 1), WithCode(d2, F, 1);
    VectorAgrees(c3, d3, 0xfff6);
    StatusAgrees(Vector(c3, 0xfff6), Vector(d3, 0xfff6), NORMAL);
    TickAgrees(Vector(c3, 0xfff6).(status := NORMAL), Vector(d3, 0xfff6).(status := NORMAL), 7);
  }

  lemma InterruptAgrees(c: Cpu, d: Cpu)
    requires Agree(c, d)
    ensures Agree(Interrupt(c), Interrupt(d))
  {
    hide Agree, PushEntire, WithCode, Vector, Tick;
    CcOf(c, d);
    EntriesAgree(c, d);
    var c1, d1 := if c.status != CWAI then PushEntire(c) else c, if d.status != CWAI then PushEntire(d) else d;
    WithCodeAgrees(c1, d1, I, 1);
    var c2, d2 := WithCode(c1, I, 1), WithCode(d1, I, 1);
    VectorAgrees(c2, d2, 0xfff8);
    StatusAgrees(Vector(c2, 0xfff8), Vector(d2, 0xfff8), NORMAL);
    TickAgrees(Vector(c2, 0xfff8).(status := NORMAL), Vector(d2, 0xfff8).(status := NORMAL), 7);
  }

  lemma ResyncedAgrees(c: Cpu, d: Cpu)
    requires Agree(c, d)
    ensures Agree(Resynced(c), Resynced(d))
  {
    hide Same8, Same16;
  }

  lemma InterruptsAgree(c: Cpu, d: Cpu, irq: bool, firq: bool)
    requires Agree(c, d)
    ensures Agree(Interrupts(c, irq, firq), Interrupts(d, irq, firq))
  {
    hide Agree, GetCc, FastInterrupt, Interrupt, Resynced;
    CodeAgrees(c, d, F);
    FastInterruptAgrees(c, d);
    ResyncedAgrees(c, d);
    var c1 := if firq then (if GetCc(c.cc, F) == 0 then FastInterrupt(c) else Resynced(c)) else c;
    var d1 := if firq then (if GetCc(d.cc, F) == 0 then FastInterrupt(d) else Resynced(d)) else d;
    CodeAgrees(c1, d1, I);
    InterruptAgrees(c1, d1);
    ResyncedAgrees(c1, d1);
  }

  lemma SoftwareAgrees(c: Cpu, d: Cpu, k: nat)
    requires Agree(c, d)
    ensures Agree(DoSoftware(c, k), DoSoftware(d, k))
  {
    hide Agree, PushEntire, WithCode, Vector, Tick;
    EntriesAgree(c, d);
    var c1, d1 := PushEntire(c), PushEntire(d);
    WithCodeAgrees(c1, d1, I, 1);
    var c2, d2 := WithCode(c1, I, 1), WithCode(d1, I, 1);
    WithCodeAgrees(c2, d2, F, 1);
    var c3, d3 := WithCode(c2, F, 1), WithCode(d2, F, 1);
    VectorAgrees(c3, d3, 0xfffa);
    VectorAgrees(c1, d1, 0xfff4);
    VectorAgrees(c1, d1, 0xfff2);
    TickAgrees(Vector(c3, 0xfffa), Vector(d3, 0xfffa), 7);
    TickAgrees(Vector(c1, 0xfff4), Vector(d1, 0xfff4), 8);
    TickAgrees(Vector(c1, 0xfff2), Vector(d1, 0xfff2), 8);
  }

  lemma WaitAgrees(c: Cpu, d: Cpu)
    requires Agree(c, d)
    ensures Agree(DoWait(c), DoWait(d))
  {
    hide Agree, Same8, PcRead8, And, PushEntire, Tick;
    PcRead8Agrees(c, d);
    var (c1, data) := PcRead8(c);
    var d1 := PcRead8(d).0;
    CcOf(c1, d1);
    SelfSame(data);
    AndSame8(c1.cc, d1.cc, data, data);
    CcAgrees(c1, d1, And(c1.cc, data), And(d1.cc, data));
    var c2, d2 := c1.(cc := And(c1.cc, data)), d1.(cc := And(d1.cc, data));
    EntriesAgree(c2, d2);
    StatusAgrees(PushEntire(c2), PushEntire(d2), CWAI);
    TickAgrees(PushEntire(c2).(status := CWAI), PushEntire(d2).(status := CWAI), 4);
  }

  lemma ReturnFromInterruptAgrees(c: Cpu, d: Cpu)
    requires Agree(c, d)
    ensures Agree(DoReturnFromInterrupt(c), DoReturnFromInterrupt(d))
  {
    hide Agree, Pull8, PullList, GetCc, Tick;
    Pull8Agrees(c, d, RS);
    var (c1, codes) := Pull8(c, RS);
    var d1 := Pull8(d, RS).0;
    BytePulled(c1, d1, codes);
    TickAgrees(c1.(cc := codes), d1.(cc := codes), 1);
    var c2, d2 := Tick(c1.(cc := codes), 1), Tick(d1.(cc := codes), 1);
    CodeAgrees(c2, d2, E);
    PullListAgrees(c2, d2, Word(0xfe), RS);
    PullListAgrees(c2, d2, Word(0x80), RS);
    TickAgrees(PullList(c2, Word(0xfe), RS), PullList(d2, Word(0xfe), RS), 3);
    TickAgrees(PullList(c2, Word(0x80), RS), PullList(d2, Word(0x80), RS), 3);
  }

  // ---------- steps and runs ----------

  lemma ExecuteOtherAgrees(c: Cpu, d: Cpu, i: Instr)
    requires Agree(c, d)
    ensures Agree(ExecuteOther(c, i), ExecuteOther(d, i))
  {
    hide Agree, Tick, DoBranch, DoLongBranch, DoLongJump, DoLongCall, DoShortCall, DoCall, DoLea;
    hide DoPush, DoPull, DoReturn, DoAbx, DoOrCc, DoAndCc, DoSex, DoExchange, DoTransfer, DoReturnFromInterrupt;
    hide DoSoftware, Daa, SetAcc, DoWait, DoMultiply, DoWide, DoCompare16, DoLoad16, DoStore16;
    match i
    case AddD(mode) => WideAgrees(c, d, true, mode);
    case SubD(mode) => WideAgrees(c, d, false, mode);
    case Compare16(reg, mode, extra) => Compare16Agrees(c, d, reg, mode, extra);
    case Load16(reg, mode, extra) => Load16Agrees(c, d, reg, mode, extra);
    case Store16(reg, mode, extra) => Store16Agrees(c, d, reg, mode, extra);
    case Branch(cond, odd) => BranchesAgree(c, d, cond, odd);
    case LongBranch(cond, odd) => BranchesAgree(c, d, cond, odd);
    case LongJump => LongJumpAgrees(c, d);
    case LongCall => RelativeCallsAgree(c, d);
    case ShortCall => RelativeCallsAgree(c, d);
    case Call(mode) => CallAgrees(c, d, mode);
    case Lea(reg) => LeaAgrees(c, d, reg);
    case Push(user) => PushPullAgree(c, d, StackOf(user));
    case Pull(user) => PushPullAgree(c, d, StackOf(user));
    case Return => ReturnAgrees(c, d);
    case Abx => AbxAgrees(c, d);
    case OrCc => CcMasksAgree(c, d);
    case AndCc => CcMasksAgree(c, d);
    case Sex => SexAgrees(c, d);
    case Exchange => ExchangesAgree(c, d);
    case Transfer => ExchangesAgree(c, d);
    case ReturnFromInterrupt => ReturnFromInterruptAgrees(c, d);
    case SoftwareInterrupt(k) => SoftwareAgrees(c, d, k);
    case Sync =>
      StatusAgrees(c, d, SYNC);
      TickAgrees(c.(status := SYNC), d.(status := SYNC), 2);
    case Adjust =>
      CcOf(c, d);
      DaaSame(c.cc, d.cc, c.a, d.a);
      ByteAgrees(c, d, Daa(c.cc, c.a), Daa(d.cc, d.a));
      TickAgrees(c.(a := Daa(c.cc, c.a).value, cc := Daa(c.cc, c.a).cc), d.(a := Daa(d.cc, d.a).value, cc := Daa(d.cc, d.a).cc), 2);
    case Wait => WaitAgrees(c, d);
    case MultiplyAB => MultiplyAgrees(c, d);
    case Nop => TickAgrees(c, d, 2);
    case _ =>
  }

  lemma ExecuteAgrees(c: Cpu, d: Cpu, i: Instr)
    requires Agree(c, d)
    ensures Agree(Execute(c, i), Execute(d, i))
  {
    hide Agree, ExecuteOther, DoUnaryAcc, DoUnaryMem, DoAcc, DoTestMem, DoClearMem, DoJump, DoBinary8, DoLoad8, DoStore8;
    match i
    case UnaryAcc(op, acc) => UnaryAccAgrees(c, d, op, acc);
    case UnaryMem(op, mode) => UnaryMemAgrees(c, d, op, mode);
    case TestAcc(_) => AccAgrees(c, d, i);
    case TestMem(mode) => TestMemAgrees(c, d, mode);
    case ClearAcc(_) => AccAgrees(c, d, i);
    case ClearMem(mode) => ClearMemAgrees(c, d, mode);
    case Jump(mode) => JumpAgrees(c, d, mode);
    case Binary8(op, acc, mode) => Binary8Agrees(c, d, op, acc, mode, true);
    case Compare8(op, acc, mode) => Binary8Agrees(c, d, op, acc, mode, false);
    case Load8(acc, mode) => Load8Agrees(c, d, acc, mode);
    case Store8(acc, mode) => Store8Agrees(c, d, acc, mode);
    case _ => ExecuteOtherAgrees(c, d, i);
  }

  lemma InstructionAgrees(c: Cpu, d: Cpu)
    requires Agree(c, d)
    ensures Agree(Instruction(c), Instruction(d))
  {
    hide Agree, PcRead8, Decode, DecodePage1, DecodePage2, Execute, Number;
    PcRead8Agrees(c, d);
    var (c1, op) := PcRead8(c);
    var d1 := PcRead8(d).0;
    PcRead8Agrees(c1, d1);
    var (c2, more) := PcRead8(c1);
    var d2 := PcRead8(d1).0;
    ExecuteAgrees(c1, d1, Decode(Number(op)));
    ExecuteAgrees(c2, d2, DecodePage1(Number(more)));
    ExecuteAgrees(c2, d2, DecodePage2(Number(more)));
  }

  lemma StepAgrees(c: Cpu, d: Cpu, irq: bool, firq: bool)
    requires Agree(c, d)
    ensures Agree(Step(c, irq, firq), Step(d, irq, firq))
  {
    hide Agree, Interrupts, Instruction, Tick;
    InterruptsAgree(c, d, irq, firq);
    var c1, d1 := Interrupts(c, irq, firq), Interrupts(d, irq, firq);
    CcOf(c1, d1);
    TickAgrees(c1, d1, 1);
    InstructionAgrees(c1, d1);
  }

  /** Non-interference.  Whatever the registers hold above their bits, and whatever is on the
      bus, a run of any instructions and interrupts reads and writes the same addresses in the
      same order with the same data, takes the same branches and as many cycles, and ends in
      states that still agree. */
  lemma {:induction false} RunAgrees(c: Cpu, d: Cpu, lines: seq<(bool, bool)>)
    requires Agree(c, d)
    ensures Agree(Run(c, lines), Run(d, lines))
    decreases |lines|
  {
    hide Agree, Step;
    if lines != [] {
      StepAgrees(c, d, lines[0].0, lines[0].1);
      RunAgrees(Step(c, lines[0].0, lines[0].1), Step(d, lines[0].0, lines[0].1), lines[1..]);
    }
  }

  // The registers with nothing above their bits.
  function Clean(c: Cpu): (c': Cpu)
  {
    c.(x := Low16(c.x), y := Low16(c.y), u := Low16(c.u), s := Low16(c.s), pc := Low16(c.pc),
       a := Low8(c.a), b := Low8(c.b), dp := Low8(c.dp), cc := Low8(c.cc))
  }

  lemma CleanWord(w: Word)
    ensures Same16(w, Low16(w)) && Same8(w, Low8(w))
  {
  }

  lemma CleanAgrees(c: Cpu)
    ensures Agree(c, Clean(c))
  {
    hide Same8, Same16, Low8, Low16;
    CleanWord(c.x);
    CleanWord(c.y);
    CleanWord(c.u);
    CleanWord(c.s);
    CleanWord(c.pc);
    CleanWord(c.a);
    CleanWord(c.b);
    CleanWord(c.dp);
    CleanWord(c.cc);
  }

  lemma Transitive()
    ensures forall p, q, r :: Same8(p, q) && Same8(q, r) ==> Same8(p, r)
    ensures forall p, q, r :: Same16(p, q) && Same16(q, r) ==> Same16(p, r)
  {
  }

  lemma AgreeTransitive(c: Cpu, d: Cpu, e: Cpu)
    requires Agree(c, d) && Agree(d, e)
    ensures Agree(c, e)
  {
    hide Same8, Same16;
    Transitive();
  }

  // A core whose registers are as wide as the 6809's own: nothing above their bits survives a step.
  function NarrowRun(c: Cpu, lines: seq<(bool, bool)>): (c': Cpu)
    decreases |lines|
  {
    if lines == [] then Clean(c) else NarrowRun(Step(Clean(c), lines[0].0, lines[0].1), lines[1..])
  }

  /** The wide core is the narrow one: over every run the same happens on the bus, and the
      registers of the narrow core are the lower bits of those of the wide one. */
  lemma {:induction false} WideIsNarrow(c: Cpu, d: Cpu, lines: seq<(bool, bool)>)
    requires Agree(c, d)
    ensures Agree(Run(c, lines), NarrowRun(d, lines))
    ensures Run(c, lines).bus == NarrowRun(d, lines).bus && Run(c, lines).cycles == NarrowRun(d, lines).cycles
    decreases |lines|
  {
    hide Clean, Step, Same8, Same16;
    CleanAgrees(d);
    AgreeTransitive(c, d, Clean(d));
    if lines != [] {
      StepAgrees(c, Clean(d), lines[0].0, lines[0].1);
      WideIsNarrow(Step(c, lines[0].0, lines[0].1), Step(Clean(d), lines[0].0, lines[0].1), lines[1..]);
    }
  }
}
