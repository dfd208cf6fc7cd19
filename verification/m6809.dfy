/**
  The 6809 core (e6809.c) as a value: its registers, the interrupts, and what one step does to
  them and to whatever is on the bus.
 */
module M6809 {
  import opened M6809Word

  // ---------- the bus ----------

  datatype Event = Fetched(addr: Word) | Stored(addr: Word, data: Word)

  /** Everything read and written so far, in order, and what is on the bus: what a read returns
      may depend on all that happened before. */
  datatype Bus = Bus(device: (seq<Event>, Word) -> Word, log: seq<Event>)

  function Answer(bus: Bus, addr: Word): (data: Word)
  {
    Low8(bus.device(bus.log, addr))
  }

  datatype Irq = NORMAL | SYNC | CWAI

  datatype Cpu = Cpu(x: Word, y: Word, u: Word, s: Word, pc: Word, a: Word, b: Word, dp: Word, cc: Word,
                     status: Irq, bus: Bus, cycles: nat)

  // The four that index, and D.
  datatype Reg = RX | RY | RU | RS | RD

  function Get(c: Cpu, r: Reg): (w: Word)
  {
    match r
    case RX => c.x
    case RY => c.y
    case RU => c.u
    case RS => c.s
    case RD => JoinLow(c.a, c.b)
  }

  function Set(c: Cpu, r: Reg, w: Word): (c': Cpu)
  {
    match r
    case RX => c.(x := w)
    case RY => c.(y := w)
    case RU => c.(u := w)
    case RS => c.(s := w)
    case RD => c.(a := Down8(w), b := w)
  }

  function Tick(c: Cpu, n: nat): (c': Cpu)
  {
    c.(cycles := c.cycles + n)
  }

  function Read8(c: Cpu, addr: Word): (x: (Cpu, Word))
  {
    (c.(bus := c.bus.(log := c.bus.log + [Fetched(Low16(addr))])), Answer(c.bus, Low16(addr)))
  }

  function Write8(c: Cpu, addr: Word, data: Word): (c': Cpu)
  {
    c.(bus := c.bus.(log := c.bus.log + [Stored(Low16(addr), Low8(data))]))
  }

  function Plus(w: Word, k: bv32): (r: Word)
  {
    Sum(w, Word(k), 0)
  }

  function Less(w: Word, k: bv32): (r: Word)
  {
    Difference(w, Word(k))
  }

  function Read16(c: Cpu, addr: Word): (x: (Cpu, Word))
  {
    var (c1, hi) := Read8(c, addr);
    var (c2, lo) := Read8(c1, Plus(addr, 1));
    (c2, Join(hi, lo))
  }

  function Write16(c: Cpu, addr: Word, data: Word): (c': Cpu)
  {
    Write8(Write8(c, addr, Down8(data)), Plus(addr, 1), data)
  }

  function Push8(c: Cpu, stack: Reg, data: Word): (c': Cpu)
  {
    var sp := Less(Get(c, stack), 1);
    Write8(Set(c, stack, sp), sp, data)
  }

  function Pull8(c: Cpu, stack: Reg): (x: (Cpu, Word))
  {
    var (c1, data) := Read8(c, Get(c, stack));
    (Set(c1, stack, Plus(Get(c, stack), 1)), data)
  }

  function Push16(c: Cpu, stack: Reg, data: Word): (c': Cpu)
  {
    Push8(Push8(c, stack, data), stack, Down8(data))
  }

  function Pull16(c: Cpu, stack: Reg): (x: (Cpu, Word))
  {
    var (c1, hi) := Pull8(c, stack);
    var (c2, lo) := Pull8(c1, stack);
    (c2, Join(hi, lo))
  }

  function PcRead8(c: Cpu): (x: (Cpu, Word))
  {
    var (c1, data) := Read8(c, c.pc);
    (c1.(pc := Plus(c.pc, 1)), data)
  }

  function PcRead16(c: Cpu): (x: (Cpu, Word))
  {
    var (c1, data) := Read16(c, c.pc);
    (c1.(pc := Plus(c.pc, 2)), data)
  }

  // ---------- addressing ----------

  // A byte from the bus as a number.
  function Number(w: Word): (n: nat)
  {
    (w.v & 0xff) as nat
  }

  // The low four bits of a post byte, as a word.
  function Nibble(op: Word): (r: Word)
  {
    And(op, Word(0xf))
  }

  function Direct(c: Cpu): (x: (Cpu, Word))
  {
    var (c1, low) := PcRead8(c);
    (c1, Join(c.dp, low))
  }

  function IndexOf(op: nat): (r: Reg)
  {
    var n := op / 32 % 4;
    if n == 0 then RX else if n == 1 then RY else if n == 2 then RU else RS
  }

  // Indexed by a register and an offset that is not in the post byte.
  function Indirected(c: Cpu, addr: Word, indirect: bool, cost: nat): (x: (Cpu, Word))
  {
    if indirect then
      var (c1, ea) := Read16(c, addr);
      (Tick(c1, cost + 3), ea)
    else (Tick(c, cost), addr)
  }

  // ,R+ and ,R++
  function After(c: Cpu, r: Reg, k: bv32, indirect: bool, cost: nat): (x: (Cpu, Word))
  {
    var (c1, ea) := Indirected(c, Get(c, r), indirect, cost);
    (Set(c1, r, Plus(Get(c, r), k)), ea)
  }

  // ,-R and ,--R
  function Before(c: Cpu, r: Reg, k: bv32, indirect: bool, cost: nat): (x: (Cpu, Word))
  {
    var at := Less(Get(c, r), k);
    Indirected(Set(c, r, at), at, indirect, cost)
  }

  // With an offset from the instruction, of one byte or two.
  function ByteOffset(c: Cpu, r: Reg, indirect: bool): (x: (Cpu, Word))
  {
    var (c1, offset) := PcRead8(c);
    Indirected(c1, Sum(Get(c, r), SignExtend(offset), 0), indirect, 1)
  }

  function WordOffset(c: Cpu, r: Reg, indirect: bool): (x: (Cpu, Word))
  {
    var (c1, offset) := PcRead16(c);
    Indirected(c1, Sum(Get(c, r), offset, 0), indirect, 4)
  }

  function BytePc(c: Cpu, indirect: bool): (x: (Cpu, Word))
  {
    var (c1, offset) := PcRead8(c);
    Indirected(c1, Sum(c1.pc, SignExtend(offset), 0), indirect, 1)
  }

  function WordPc(c: Cpu, indirect: bool): (x: (Cpu, Word))
  {
    var (c1, offset) := PcRead16(c);
    Indirected(c1, Sum(c1.pc, offset, 0), indirect, 5)
  }

  function Pointed(c: Cpu): (x: (Cpu, Word))
  {
    var (c1, at) := PcRead16(c);
    var (c2, ea) := Read16(c1, at);
    (Tick(c2, 5), ea)
  }

  // The longer post bytes, from 0x80 on.
  function IndexedLong(c: Cpu, op: nat): (x: (Cpu, Word))
  {
    var r := IndexOf(op);
    var indirect := op / 16 % 2 == 1;
    var mode := op % 16;
    if mode == 0 then After(c, r, 1, indirect, 2)
    else if mode == 1 then After(c, r, 2, indirect, 3)
    else if mode == 2 then Before(c, r, 1, indirect, 2)
    else if mode == 3 then Before(c, r, 2, indirect, 3)
    else if mode == 4 then Indirected(c, Get(c, r), indirect, 0)
    else if mode == 5 then Indirected(c, Sum(Get(c, r), SignExtend(c.b), 0), indirect, 1)
    else if mode == 6 then Indirected(c, Sum(Get(c, r), SignExtend(c.a), 0), indirect, 1)
    else if mode == 8 then ByteOffset(c, r, indirect)
    else if mode == 9 then WordOffset(c, r, indirect)
    else if mode == 0xb then Indirected(c, Sum(Get(c, r), Get(c, RD), 0), indirect, 4)
    else if mode == 0xc then BytePc(c, indirect)
    else if mode == 0xd then WordPc(c, indirect)
    else if op == 0x9f then Pointed(c)
    else (c, Word(0))
  }

  function Indexed(c: Cpu): (x: (Cpu, Word))
  {
    var (c1, post) := PcRead8(c);
    var op := Number(post);
    if op < 0x80 then
      var up := Sum(Get(c1, IndexOf(op)), Nibble(post), 0);
      (Tick(c1, 1), if op / 16 % 2 == 0 then up else Less(up, 0x10))
    else IndexedLong(c1, op)
  }

  datatype Mode = IMMEDIATE | DIRECT | INDEXED | EXTENDED

  function Address(c: Cpu, mode: Mode): (x: (Cpu, Word))
  {
    match mode
    case DIRECT => Direct(c)
    case INDEXED => Indexed(c)
    case _ => PcRead16(c)
  }

  function Operand8(c: Cpu, mode: Mode): (x: (Cpu, Word))
  {
    if mode == IMMEDIATE then PcRead8(c)
    else
      var (c1, ea) := Address(c, mode);
      Read8(c1, ea)
  }

  function Operand16(c: Cpu, mode: Mode): (x: (Cpu, Word))
  {
    if mode == IMMEDIATE then PcRead16(c)
    else
      var (c1, ea) := Address(c, mode);
      Read16(c1, ea)
  }

  // What an instruction costs by addressing mode.
  function Cost(mode: Mode, immediate: nat): (n: nat)
  {
    match mode
    case IMMEDIATE => immediate
    case EXTENDED => immediate + 3
    case _ => immediate + 2
  }

  // ---------- instructions ----------

  datatype UnaryOp = NEG | COM | LSR | ROR | ASR | ASL | ROL | DEC | INC

  function Unary(op: UnaryOp, cc: Word, data: Word): (x: Result)
  {
    match op
    case NEG => Neg(cc, data)
    case COM => Com(cc, data)
    case LSR => Lsr(cc, data)
    case ROR => Ror(cc, data)
    case ASR => Asr(cc, data)
    case ASL => Asl(cc, data)
    case ROL => Rol(cc, data)
    case DEC => Dec(cc, data)
    case INC => Inc(cc, data)
  }

  datatype BinaryOp = SUB | SBC | AND | EOR | ADC | OR | ADD

  function Binary(op: BinaryOp, cc: Word, data0: Word, data1: Word): (x: Result)
  {
    match op
    case SUB => Sub8(cc, data0, data1)
    case SBC => Sbc(cc, data0, data1)
    case AND => And8(cc, data0, data1)
    case EOR => Eor(cc, data0, data1)
    case ADC => Adc(cc, data0, data1)
    case OR => Or8(cc, data0, data1)
    case ADD => Add8(cc, data0, data1)
  }

  datatype Acc = AA | AB

  function GetAcc(c: Cpu, acc: Acc): (w: Word)
  {
    if acc == AA then c.a else c.b
  }

  function SetAcc(c: Cpu, acc: Acc, w: Word): (c': Cpu)
  {
    if acc == AA then c.(a := w) else c.(b := w)
  }

  datatype Instr =
    | UnaryAcc(unary: UnaryOp, acc: Acc)
    | UnaryMem(unary: UnaryOp, mode: Mode)
    | TestAcc(acc: Acc)
    | TestMem(mode: Mode)
    | ClearAcc(acc: Acc)
    | ClearMem(mode: Mode)
    | Jump(mode: Mode)
    | Binary8(binary: BinaryOp, acc: Acc, mode: Mode)
    | Compare8(binary: BinaryOp, acc: Acc, mode: Mode)     // CMP and BIT: only the codes are kept
    | Load8(acc: Acc, mode: Mode)
    | Store8(acc: Acc, mode: Mode)
    | AddD(mode: Mode)
    | SubD(mode: Mode)
    | Compare16(reg: Reg, mode: Mode, extra: nat)
    | Load16(reg: Reg, mode: Mode, extra: nat)
    | Store16(reg: Reg, mode: Mode, extra: nat)
    | Branch(cond: nat, odd: bool)
    | LongBranch(cond: nat, odd: bool)
    | LongJump
    | LongCall
    | ShortCall
    | Call(mode: Mode)
    | Lea(reg: Reg)
    | Push(user: bool)
    | Pull(user: bool)
    | Return
    | Abx
    | OrCc
    | AndCc
    | Sex
    | Exchange
    | Transfer
    | ReturnFromInterrupt
    | SoftwareInterrupt(k: nat)
    | Sync
    | Adjust
    | Wait
    | MultiplyAB
    | Nop
    | Page1
    | Page2
    | Unknown

  function DoUnaryMem(c: Cpu, op: UnaryOp, mode: Mode): (c': Cpu)
  {
    var (c1, ea) := Address(c, mode);
    var (c2, data) := Read8(c1, ea);
    var x := Unary(op, c2.cc, data);
    Tick(Write8(c2.(cc := x.cc), ea, x.value), Cost(mode, 4))
  }

  function DoUnaryAcc(c: Cpu, op: UnaryOp, acc: Acc): (c': Cpu)
  {
    var x := Unary(op, c.cc, GetAcc(c, acc));
    Tick(SetAcc(c.(cc := x.cc), acc, x.value), 2)
  }

  function DoTestMem(c: Cpu, mode: Mode): (c': Cpu)
  {
    var (c1, data) := Operand8(c, mode);
    Tick(c1.(cc := Tst8(c1.cc, data)), Cost(mode, 4))
  }

  function DoClearMem(c: Cpu, mode: Mode): (c': Cpu)
  {
    var (c1, ea) := Address(c, mode);
    Tick(Write8(c1.(cc := Clr(c1.cc)), ea, Word(0)), Cost(mode, 4))
  }

  function DoJump(c: Cpu, mode: Mode): (c': Cpu)
  {
    var (c1, ea) := Address(c, mode);
    Tick(c1.(pc := ea), Cost(mode, 1))
  }

  function DoBinary8(c: Cpu, op: BinaryOp, acc: Acc, mode: Mode, keep: bool): (c': Cpu)
  {
    var (c1, data) := Operand8(c, mode);
    var x := Binary(op, c1.cc, GetAcc(c1, acc), data);
    var c2 := c1.(cc := x.cc);
    Tick(if keep then SetAcc(c2, acc, x.value) else c2, Cost(mode, 2))
  }

  function DoLoad8(c: Cpu, acc: Acc, mode: Mode): (c': Cpu)
  {
    var (c1, data) := Operand8(c, mode);
    var c2 := SetAcc(c1, acc, data);
    Tick(c2.(cc := Tst8(c2.cc, data)), Cost(mode, 2))
  }

  function DoStore8(c: Cpu, acc: Acc, mode: Mode): (c': Cpu)
  {
    var (c1, ea) := Address(c, mode);
    var c2 := Write8(c1, ea, GetAcc(c1, acc));
    Tick(c2.(cc := Tst8(c2.cc, GetAcc(c2, acc))), Cost(mode, 2))
  }

  function DoWide(c: Cpu, add: bool, mode: Mode): (c': Cpu)
  {
    var (c1, data) := Operand16(c, mode);
    var x := if add then Add16(c1.cc, Get(c1, RD), data) else Sub16(c1.cc, Get(c1, RD), data);
    Tick(Set(c1.(cc := x.cc), RD, x.value), Cost(mode, 4))
  }

  function DoCompare16(c: Cpu, reg: Reg, mode: Mode, extra: nat): (c': Cpu)
  {
    var (c1, data) := Operand16(c, mode);
    Tick(c1.(cc := Sub16(c1.cc, Get(c1, reg), data).cc), Cost(mode, 4) + extra)
  }

  function DoLoad16(c: Cpu, reg: Reg, mode: Mode, extra: nat): (c': Cpu)
  {
    var (c1, data) := Operand16(c, mode);
    var c2 := Set(c1, reg, data);
    Tick(c2.(cc := Tst16(c2.cc, Get(c2, reg))), Cost(mode, 3) + extra)
  }

  function DoStore16(c: Cpu, reg: Reg, mode: Mode, extra: nat): (c': Cpu)
  {
    var (c1, ea) := Address(c, mode);
    var c2 := Write16(c1, ea, Get(c1, reg));
    Tick(c2.(cc := Tst16(c2.cc, Get(c2, reg))), Cost(mode, 3) + extra)
  }

  // The test of a conditional branch and of its opposite.
  function Condition(cc: Word, k: nat): (t: Bit)
  {
    if k == 0 then 0
    else if k == 1 then LowerOrSame(cc)
    else if k == 2 then Lower(cc)
    else if k == 3 then GetCc(cc, Z)
    else if k == 4 then GetCc(cc, V)
    else if k == 5 then GetCc(cc, N)
    else if k == 6 then LessThan(cc)
    else LessOrEqual(cc)
  }

  function DoBranch(c: Cpu, cond: nat, odd: bool): (c': Cpu)
  {
    var mask := BranchMask(Condition(c.cc, cond), odd);
    var (c1, offset) := PcRead8(c);
    Tick(c1.(pc := Sum(c1.pc, And(SignExtend(offset), mask), 0)), 3)
  }

  // The mask, subtracted from 5, makes a branch taken cost one more.
  function DoLongBranch(c: Cpu, cond: nat, odd: bool): (c': Cpu)
  {
    var mask := BranchMask(Condition(c.cc, cond), odd);
    var (c1, offset) := PcRead16(c);
    Tick(c1.(pc := Sum(c1.pc, And(offset, mask), 0)), if mask == Word(0) then 5 else 6)
  }

  function DoLongJump(c: Cpu): (c': Cpu)
  {
    var (c1, offset) := PcRead16(c);
    Tick(c1.(pc := Sum(c1.pc, offset, 0)), 5)
  }

  function DoLongCall(c: Cpu): (c': Cpu)
  {
    var (c1, offset) := PcRead16(c);
    var c2 := Push16(c1, RS, c1.pc);
    Tick(c2.(pc := Sum(c2.pc, offset, 0)), 9)
  }

  function DoShortCall(c: Cpu): (c': Cpu)
  {
    var (c1, offset) := PcRead8(c);
    var c2 := Push16(c1, RS, c1.pc);
    Tick(c2.(pc := Sum(c2.pc, SignExtend(offset), 0)), 7)
  }

  function DoCall(c: Cpu, mode: Mode): (c': Cpu)
  {
    var (c1, ea) := Address(c, mode);
    Tick(Push16(c1, RS, c1.pc).(pc := ea), Cost(mode, 5))
  }

  // The stack pointers change no codes.
  function DoLea(c: Cpu, reg: Reg): (c': Cpu)
  {
    var (c1, ea) := Indexed(c);
    var c2 := Set(c1, reg, ea);
    Tick(if reg == RX || reg == RY then c2.(cc := SetCc(c2.cc, Z, TestZ16(ea))) else c2, 4)
  }

  predicate Lists(op: Word, mask: bv32)
  {
    op.v & mask == mask
  }

  function StackOf(user: bool): (r: Reg)
    ensures r == RS || r == RU
  {
    if user then RU else RS
  }

  function Other(stack: Reg): (r: Reg)
  {
    if stack == RS then RU else RS
  }

  function PushWord(c: Cpu, stack: Reg, listed: bool, data: Word): (c': Cpu)
  {
    if listed then Tick(Push16(c, stack, data), 2) else c
  }

  function PushByte(c: Cpu, stack: Reg, listed: bool, data: Word): (c': Cpu)
  {
    if listed then Tick(Push8(c, stack, data), 1) else c
  }

  function PushList(c: Cpu, op: Word, stack: Reg): (c': Cpu)
  {
    var c1 := PushWord(c, stack, Lists(op, 0x80), c.pc);
    var c2 := PushWord(c1, stack, Lists(op, 0x40), Get(c, Other(stack)));
    var c3 := PushWord(c2, stack, Lists(op, 0x20), c.y);
    var c4 := PushWord(c3, stack, Lists(op, 0x10), c.x);
    var c5 := PushByte(c4, stack, Lists(op, 0x08), c.dp);
    var c6 := PushByte(c5, stack, Lists(op, 0x04), c.b);
    var c7 := PushByte(c6, stack, Lists(op, 0x02), c.a);
    PushByte(c7, stack, Lists(op, 0x01), c.cc)
  }

  function PullCc(c: Cpu, stack: Reg, listed: bool): (c': Cpu)
  {
    if listed then var (c1, data) := Pull8(c, stack); Tick(c1.(cc := data), 1) else c
  }

  function PullA(c: Cpu, stack: Reg, listed: bool): (c': Cpu)
  {
    if listed then var (c1, data) := Pull8(c, stack); Tick(c1.(a := data), 1) else c
  }

  function PullB(c: Cpu, stack: Reg, listed: bool): (c': Cpu)
  {
    if listed then var (c1, data) := Pull8(c, stack); Tick(c1.(b := data), 1) else c
  }

  function PullDp(c: Cpu, stack: Reg, listed: bool): (c': Cpu)
  {
    if listed then var (c1, data) := Pull8(c, stack); Tick(c1.(dp := data), 1) else c
  }

  function PullReg(c: Cpu, stack: Reg, listed: bool, r: Reg): (c': Cpu)
  {
    if listed then var (c1, data) := Pull16(c, stack); Tick(Set(c1, r, data), 2) else c
  }

  function PullPc(c: Cpu, stack: Reg, listed: bool): (c': Cpu)
  {
    if listed then var (c1, data) := Pull16(c, stack); Tick(c1.(pc := data), 2) else c
  }

  function PullList(c: Cpu, op: Word, stack: Reg): (c': Cpu)
  {
    var c1 := PullCc(c, stack, Lists(op, 0x01));
    var c2 := PullA(c1, stack, Lists(op, 0x02));
    var c3 := PullB(c2, stack, Lists(op, 0x04));
    var c4 := PullDp(c3, stack, Lists(op, 0x08));
    var c5 := PullReg(c4, stack, Lists(op, 0x10), RX);
    var c6 := PullReg(c5, stack, Lists(op, 0x20), RY);
    var c7 := PullReg(c6, stack, Lists(op, 0x40), Other(stack));
    PullPc(c7, stack, Lists(op, 0x80))
  }

  function DoPush(c: Cpu, stack: Reg): (c': Cpu)
  {
    var (c1, op) := PcRead8(c);
    Tick(PushList(c1, op, stack), 5)
  }

  function DoPull(c: Cpu, stack: Reg): (c': Cpu)
  {
    var (c1, op) := PcRead8(c);
    Tick(PullList(c1, op, stack), 5)
  }

  function DoReturn(c: Cpu): (c': Cpu)
  {
    var (c1, pc) := Pull16(c, RS);
    Tick(c1.(pc := pc), 5)
  }

  function DoAbx(c: Cpu): (c': Cpu)
  {
    Tick(c.(x := Sum(c.x, Low8(c.b), 0)), 3)
  }

  function DoOrCc(c: Cpu): (c': Cpu)
  {
    var (c1, data) := PcRead8(c);
    Tick(c1.(cc := Or(c1.cc, data)), 3)
  }

  function DoAndCc(c: Cpu): (c': Cpu)
  {
    var (c1, data) := PcRead8(c);
    Tick(c1.(cc := And(c1.cc, data)), 3)
  }

  function DoSex(c: Cpu): (c': Cpu)
  {
    var c1 := Set(c, RD, SignExtend(c.b));
    Tick(c1.(cc := SetCc(SetCc(c1.cc, N, TestN(c1.a)), Z, TestZ16(Get(c1, RD)))), 2)
  }

  // The register a half of an exchange byte names.
  function Named(c: Cpu, n: nat): (w: Word)
  {
    if n == 0 then Get(c, RD)
    else if n == 1 then c.x
    else if n == 2 then c.y
    else if n == 3 then c.u
    else if n == 4 then c.s
    else if n == 5 then c.pc
    else if n == 8 then Padded(c.a)
    else if n == 9 then Padded(c.b)
    else if n == 0xa then Padded(c.cc)
    else if n == 0xb then Padded(c.dp)
    else Word(0xffff)
  }

  function Renamed(c: Cpu, n: nat, w: Word): (c': Cpu)
  {
    if n == 0 then Set(c, RD, w)
    else if n == 1 then c.(x := w)
    else if n == 2 then c.(y := w)
    else if n == 3 then c.(u := w)
    else if n == 4 then c.(s := w)
    else if n == 5 then c.(pc := w)
    else if n == 8 then c.(a := w)
    else if n == 9 then c.(b := w)
    else if n == 0xa then c.(cc := w)
    else if n == 0xb then c.(dp := w)
    else c
  }

  function DoExchange(c: Cpu): (c': Cpu)
  {
    var (c1, op) := PcRead8(c);
    var n, m := Number(op) % 16, Number(op) / 16;
    var tmp := Named(c1, n);
    Tick(Renamed(Renamed(c1, n, Named(c1, m)), m, tmp), 8)
  }

  function DoTransfer(c: Cpu): (c': Cpu)
  {
    var (c1, op) := PcRead8(c);
    Tick(Renamed(c1, Number(op) % 16, Named(c1, Number(op) / 16)), 6)
  }

  // ---------- interrupts ----------

  function WithCode(c: Cpu, flag: Code, v: Bit): (c': Cpu)
  {
    c.(cc := SetCc(c.cc, flag, v))
  }

  // Everything goes on the stack, marked as such.
  function PushEntire(c: Cpu): (c': Cpu)
  {
    PushList(WithCode(c, E, 1), Word(0xff), RS)
  }

  // Only the codes and the program counter, marked as such.
  function PushFast(c: Cpu): (c': Cpu)
  {
    PushList(WithCode(c, E, 0), Word(0x81), RS)
  }

  function Vector(c: Cpu, at: bv32): (c': Cpu)
  {
    var (c1, pc) := Read16(c, Word(at));
    c1.(pc := pc)
  }

  function FastInterrupt(c: Cpu): (c': Cpu)
  {
    var c1 := if c.status != CWAI then PushFast(c) else c;
    Tick(Vector(WithCode(WithCode(c1, I, 1), F, 1), 0xfff6).(status := NORMAL), 7)
  }

  function Interrupt(c: Cpu): (c': Cpu)
  {
    var c1 := if c.status != CWAI then PushEntire(c) else c;
    Tick(Vector(WithCode(c1, I, 1), 0xfff8).(status := NORMAL), 7)
  }

  // A masked interrupt still ends a SYNC.
  function Resynced(c: Cpu): (c': Cpu)
  {
    if c.status == SYNC then c.(status := NORMAL) else c
  }

  function Interrupts(c: Cpu, irq: bool, firq: bool): (c': Cpu)
  {
    var c1 := if firq then (if GetCc(c.cc, F) == 0 then FastInterrupt(c) else Resynced(c)) else c;
    if irq then (if GetCc(c1.cc, I) == 0 then Interrupt(c1) else Resynced(c1)) else c1
  }

  function DoSoftware(c: Cpu, k: nat): (c': Cpu)
  {
    var c1 := PushEntire(c);
    if k == 1 then Tick(Vector(WithCode(WithCode(c1, I, 1), F, 1), 0xfffa), 7)
    else if k == 2 then Tick(Vector(c1, 0xfff4), 8)
    else Tick(Vector(c1, 0xfff2), 8)
  }

  function DoWait(c: Cpu): (c': Cpu)
  {
    var (c1, data) := PcRead8(c);
    Tick(PushEntire(c1.(cc := And(c1.cc, data))).(status := CWAI), 4)
  }

  // What is pulled first says how much more there is.
  function DoReturnFromInterrupt(c: Cpu): (c': Cpu)
  {
    var (c1, codes) := Pull8(c, RS);
    var c2 := Tick(c1.(cc := codes), 1);
    Tick(if GetCc(c2.cc, E) == 1 then PullList(c2, Word(0xfe), RS) else PullList(c2, Word(0x80), RS), 3)
  }

  // ---------- decoding ----------

  function UnaryCode(n: nat): (op: UnaryOp)
  {
    if n == 0 then NEG else if n == 3 then COM else if n == 4 then LSR else if n == 6 then ROR else if n == 7 then ASR
    else if n == 8 then ASL else if n == 9 then ROL else if n == 0xa then DEC else INC
  }

  // Rows 0, 4, 5, 6 and 7.
  function DecodeUnary(row: nat, n: nat): (i: Instr)
  {
    var mode := if row == 0 then DIRECT else if row == 6 then INDEXED else EXTENDED;
    var acc := if row == 4 then AA else AB;
    var memory := row != 4 && row != 5;
    if n == 1 || n == 2 || n == 5 || n == 0xb then Unknown
    else if n == 0xd then (if memory then TestMem(mode) else TestAcc(acc))
    else if n == 0xe then (if memory then Jump(mode) else Unknown)
    else if n == 0xf then (if memory then ClearMem(mode) else ClearAcc(acc))
    else if memory then UnaryMem(UnaryCode(n), mode)
    else UnaryAcc(UnaryCode(n), acc)
  }

  function RowMode(row: nat): (mode: Mode)
  {
    if row % 4 == 0 then IMMEDIATE else if row % 4 == 1 then DIRECT else if row % 4 == 2 then INDEXED else EXTENDED
  }

  // Rows 8 to 15.
  function DecodeBinary(row: nat, n: nat): (i: Instr)
  {
    var mode := RowMode(row);
    var first := row < 12;
    var acc := if first then AA else AB;
    if n == 0 then Binary8(SUB, acc, mode)
    else if n == 1 then Compare8(SUB, acc, mode)
    else if n == 2 then Binary8(SBC, acc, mode)
    else if n == 3 then (if first then SubD(mode) else AddD(mode))
    else if n == 4 then Binary8(AND, acc, mode)
    else if n == 5 then Compare8(AND, acc, mode)
    else if n == 6 then Load8(acc, mode)
    else if n == 7 then (if mode == IMMEDIATE then Unknown else Store8(acc, mode))
    else if n == 8 then Binary8(EOR, acc, mode)
    else if n == 9 then Binary8(ADC, acc, mode)
    else if n == 0xa then Binary8(OR, acc, mode)
    else if n == 0xb then Binary8(ADD, acc, mode)
    else if n == 0xc then (if first then Compare16(RX, mode, 0) else Load16(RD, mode, 0))
    else if n == 0xd then
      if first then (if mode == IMMEDIATE then ShortCall else Call(mode))
      else if mode == IMMEDIATE then Unknown else Store16(RD, mode, 0)
    else if n == 0xe then Load16(if first then RX else RU, mode, 0)
    else if mode == IMMEDIATE then Unknown
    else Store16(if first then RX else RU, mode, 0)
  }

  function DecodeRow1(n: nat): (i: Instr)
  {
    if n == 0 then Page1 else if n == 1 then Page2 else if n == 2 then Nop else if n == 3 then Sync
    else if n == 6 then LongJump else if n == 7 then LongCall else if n == 9 then Adjust else if n == 0xa then OrCc
    else if n == 0xc then AndCc else if n == 0xd then Sex else if n == 0xe then Exchange else if n == 0xf then Transfer
    else Unknown
  }

  function DecodeRow3(n: nat): (i: Instr)
  {
    if n == 0 then Lea(RX) else if n == 1 then Lea(RY) else if n == 2 then Lea(RS) else if n == 3 then Lea(RU)
    else if n == 4 then Push(false) else if n == 5 then Pull(false) else if n == 6 then Push(true) else if n == 7 then Pull(true)
    else if n == 9 then Return else if n == 0xa then Abx else if n == 0xb then ReturnFromInterrupt
    else if n == 0xc then Wait else if n == 0xd then MultiplyAB else if n == 0xf then SoftwareInterrupt(1)
    else Unknown
  }

  function Decode(op: nat): (i: Instr)
  {
    var row, n := op / 16, op % 16;
    if row == 1 then DecodeRow1(n)
    else if row == 2 then Branch(n / 2, n % 2 == 1)
    else if row == 3 then DecodeRow3(n)
    else if row < 8 then DecodeUnary(row, n)
    else DecodeBinary(row, n)
  }

  function DecodePage1(op: nat): (i: Instr)
  {
    var row, n := op / 16, op % 16;
    var mode := RowMode(row);
    if row == 2 then LongBranch(n / 2, n % 2 == 1)
    else if op == 0x3f then SoftwareInterrupt(2)
    else if row < 8 then Unknown
    else if row < 12 && n == 3 then Compare16(RD, mode, 1)
    else if row < 12 && n == 0xc then Compare16(RY, mode, 1)
    else if n == 0xe then Load16(if row < 12 then RY else RS, mode, 1)
    else if n == 0xf && mode != IMMEDIATE then Store16(if row < 12 then RY else RS, mode, 1)
    else Unknown
  }

  function DecodePage2(op: nat): (i: Instr)
  {
    var row, n := op / 16, op % 16;
    if op == 0x3f then SoftwareInterrupt(3)
    else if 8 <= row < 12 && n == 3 then Compare16(RU, RowMode(row), 1)
    else if 8 <= row < 12 && n == 0xc then Compare16(RS, RowMode(row), 1)
    else Unknown
  }

  // ---------- execution ----------

  function DoAcc(c: Cpu, i: Instr): (c': Cpu)
    requires i.TestAcc? || i.ClearAcc?
  {
    match i
    case TestAcc(acc) => Tick(c.(cc := Tst8(c.cc, GetAcc(c, acc))), 2)
    case ClearAcc(acc) => Tick(SetAcc(c.(cc := Clr(c.cc)), acc, Word(0)), 2)
  }

  function DoMultiply(c: Cpu): (c': Cpu)
  {
    var x := Mul(c.cc, c.a, c.b);
    Tick(Set(c.(cc := x.cc), RD, x.value), 11)
  }

  function DoAdjust(c: Cpu): (c': Cpu)
  {
    var x := Daa(c.cc, c.a);
    Tick(c.(a := x.value, cc := x.cc), 2)
  }

  // Sixteen bits, branches, the stacks, and the rest.
  function ExecuteOther(c: Cpu, i: Instr): (c': Cpu)
  {
    match i
    case AddD(mode) => DoWide(c, true, mode)
    case SubD(mode) => DoWide(c, false, mode)
    case Compare16(reg, mode, extra) => DoCompare16(c, reg, mode, extra)
    case Load16(reg, mode, extra) => DoLoad16(c, reg, mode, extra)
    case Store16(reg, mode, extra) => DoStore16(c, reg, mode, extra)
    case Branch(cond, odd) => DoBranch(c, cond, odd)
    case LongBranch(cond, odd) => DoLongBranch(c, cond, odd)
    case LongJump => DoLongJump(c)
    case LongCall => DoLongCall(c)
    case ShortCall => DoShortCall(c)
    case Call(mode) => DoCall(c, mode)
    case Lea(reg) => DoLea(c, reg)
    case Push(user) => DoPush(c, StackOf(user))
    case Pull(user) => DoPull(c, StackOf(user))
    case Return => DoReturn(c)
    case Abx => DoAbx(c)
    case OrCc => DoOrCc(c)
    case AndCc => DoAndCc(c)
    case Sex => DoSex(c)
    case Exchange => DoExchange(c)
    case Transfer => DoTransfer(c)
    case ReturnFromInterrupt => DoReturnFromInterrupt(c)
    case SoftwareInterrupt(k) => DoSoftware(c, k)
    case Sync => Tick(c.(status := SYNC), 2)
    case Adjust => DoAdjust(c)
    case Wait => DoWait(c)
    case MultiplyAB => DoMultiply(c)
    case Nop => Tick(c, 2)
    case _ => c
  }

  function Execute(c: Cpu, i: Instr): (c': Cpu)
  {
    match i
    case UnaryAcc(op, acc) => DoUnaryAcc(c, op, acc)
    case UnaryMem(op, mode) => DoUnaryMem(c, op, mode)
    case TestAcc(_) => DoAcc(c, i)
    case TestMem(mode) => DoTestMem(c, mode)
    case ClearAcc(_) => DoAcc(c, i)
    case ClearMem(mode) => DoClearMem(c, mode)
    case Jump(mode) => DoJump(c, mode)
    case Binary8(op, acc, mode) => DoBinary8(c, op, acc, mode, true)
    case Compare8(op, acc, mode) => DoBinary8(c, op, acc, mode, false)
    case Load8(acc, mode) => DoLoad8(c, acc, mode)
    case Store8(acc, mode) => DoStore8(c, acc, mode)
    case _ => ExecuteOther(c, i)
  }

  function Instruction(c: Cpu): (c': Cpu)
  {
    var (c1, op) := PcRead8(c);
    var i := Decode(Number(op));
    if i.Page1? then
      var (c2, op1) := PcRead8(c1);
      Execute(c2, DecodePage1(Number(op1)))
    else if i.Page2? then
      var (c2, op2) := PcRead8(c1);
      Execute(c2, DecodePage2(Number(op2)))
    else Execute(c1, i)
  }

  /** One step: the interrupts, and then an instruction, unless the processor is waiting. */
  function Step(c: Cpu, irq: bool, firq: bool): (c': Cpu)
  {
    var c1 := Interrupts(c, irq, firq);
    if c1.status != NORMAL then Tick(c1, 1) else Instruction(c1)
  }

  function Run(c: Cpu, lines: seq<(bool, bool)>): (c': Cpu)
    decreases |lines|
  {
    if lines == [] then c else Run(Step(c, lines[0].0, lines[0].1), lines[1..])
  }

  function ResetCpu(bus: Bus): (c': Cpu)
  {
    var zero := Word(0);
    Vector(Cpu(zero, zero, zero, zero, zero, zero, zero, zero, Word(0x50), NORMAL, bus, 0), 0xfffe)
  }
}
