/**
  The 6809 core as it runs: registers, condition codes and interrupt state updated in place.
  Every routine is tied to its value-level counterpart.
 */
module M6809Core {
  import opened M6809Word
  import opened M6809

  class Core {
    const device: (seq<Event>, Word) -> Word
    var x: Word
    var y: Word
    var u: Word
    var s: Word
    var pc: Word
    var a: Word
    var b: Word
    var dp: Word
    var cc: Word
    var status: Irq
    var log: seq<Event>            // what has gone over the bus
    var cycles: nat

    ghost function View(): (c: Cpu)
      reads this
    {
      Cpu(x, y, u, s, pc, a, b, dp, cc, status, Bus(device, log), cycles)
    }

    // The core out of reset.
    constructor (device: (seq<Event>, Word) -> Word)
      ensures this.device == device && View() == ResetCpu(Bus(device, []))
    {
      this.device := device;
      x, y, u, s := Word(0), Word(0), Word(0), Word(0);
      pc, a, b, dp, cc := Word(0), Word(0), Word(0), Word(0), Word(0x50);
      status, log, cycles := NORMAL, [], 0;
      new;
      hide M6809.Read16;
      pc := Read16(Word(0xfffe));
    }

    // ---------- condition codes ----------

    method SetFlag(flag: Code, value: Bit)
      modifies this`cc
      ensures cc == SetCc(old(cc), flag, value)
    {
      cc := Word(SetBit(cc.v, Mask(flag), value));
    }

    method SetNzv(i0: Word, i1: Word, r: Word)
      modifies this`cc
      ensures cc == Nzv(old(cc), i0, i1, r)
    {
      hide SetCc, TestN, TestZ8, TestV;
      SetFlag(N, TestN(r));
      SetFlag(Z, TestZ8(r));
      SetFlag(V, TestV(i0, i1, r));
    }

    // ---------- instructions on words ----------

    method InstAdd8(data0: Word, data1: Word) returns (r: Word)
      modifies this`cc
      ensures Result(r, cc) == Add8(old(cc), data0, data1)
    {
      hide SetCc, TestC, Nzv, Sum;
      r := Sum(data0, data1, 0);
      SetFlag(H, TestC(Up4(data0), Up4(data1), Up4(r), 0));
      SetNzv(data0, data1, r);
      SetFlag(C, TestC(data0, data1, r, 0));
    }

    method InstAdc(data0: Word, data1: Word) returns (r: Word)
      modifies this`cc
      ensures Result(r, cc) == Adc(old(cc), data0, data1)
    {
      hide SetCc, GetCc, TestC, Nzv, Sum;
      r := Sum(data0, data1, GetCc(cc, C));
      SetFlag(H, TestC(Up4(data0), Up4(data1), Up4(r), 0));
      SetNzv(data0, data1, r);
      SetFlag(C, TestC(data0, data1, r, 0));
    }

    method InstSub8(data0: Word, data1: Word) returns (r: Word)
      modifies this`cc
      ensures Result(r, cc) == Sub8(old(cc), data0, data1)
    {
      hide SetCc, TestC, Nzv, Minus;
      var i1 := Not(data1);
      r := Minus(data0, data1, 1);
      SetFlag(H, TestC(Up4(data0), Up4(i1), Up4(r), 0));
      SetNzv(data0, i1, r);
      SetFlag(C, TestC(data0, i1, r, 1));
    }

    method InstSbc(data0: Word, data1: Word) returns (r: Word)
      modifies this`cc
      ensures Result(r, cc) == Sbc(old(cc), data0, data1)
    {
      hide SetCc, GetCc, TestC, Nzv, Minus;
      var i1 := Not(data1);
      r := Minus(data0, data1, 1 - GetCc(cc, C));
      SetFlag(H, TestC(Up4(data0), Up4(i1), Up4(r), 0));
      SetNzv(data0, i1, r);
      SetFlag(C, TestC(data0, i1, r, 1));
    }

    method InstTst8(data: Word)
      modifies this`cc
      ensures cc == Tst8(old(cc), data)
    {
      hide SetCc, TestN, TestZ8;
      SetFlag(N, TestN(data));
      SetFlag(Z, TestZ8(data));
      SetFlag(V, 0);
    }

    method InstTst16(data: Word)
      modifies this`cc
      ensures cc == Tst16(old(cc), data)
    {
      hide SetCc, TestN, TestZ16, Down8;
      SetFlag(N, TestN(Down8(data)));
      SetFlag(Z, TestZ16(data));
      SetFlag(V, 0);
    }

    method InstClr()
      modifies this`cc
      ensures cc == Clr(old(cc))
    {
      hide SetCc;
      SetFlag(N, 0);
      SetFlag(Z, 1);
      SetFlag(V, 0);
      SetFlag(C, 0);
    }

    method InstLogic(op: BinaryOp, data0: Word, data1: Word) returns (r: Word)
      requires op == AND || op == EOR || op == OR
      modifies this`cc
      ensures Result(r, cc) == Binary(op, old(cc), data0, data1)
    {
      hide Tst8, And, Xor, Or;
      r := if op == AND then And(data0, data1) else if op == EOR then Xor(data0, data1) else Or(data0, data1);
      InstTst8(r);
    }

    method InstBinary(op: BinaryOp, data0: Word, data1: Word) returns (r: Word)
      modifies this`cc
      ensures Result(r, cc) == Binary(op, old(cc), data0, data1)
    {
      hide Sub8, Sbc, And8, Eor, Adc, Or8, Add8;
      match op {
        case SUB => r := InstSub8(data0, data1);
        case SBC => r := InstSbc(data0, data1);
        case ADC => r := InstAdc(data0, data1);
        case ADD => r := InstAdd8(data0, data1);
        case _ => r := InstLogic(op, data0, data1);
      }
    }

    method InstCom(data: Word) returns (r: Word)
      modifies this`cc
      ensures Result(r, cc) == Com(old(cc), data)
    {
      hide SetCc, TestN, TestZ8, Not;
      r := Not(data);
      SetFlag(N, TestN(r));
      SetFlag(Z, TestZ8(r));
      SetFlag(V, 0);
      SetFlag(C, 1);
    }

    method InstLsr(data: Word) returns (r: Word)
      modifies this`cc
      ensures Result(r, cc) == Lsr(old(cc), data)
    {
      hide SetCc, TestZ8, Halved, LowBit;
      r := Halved(data);
      SetFlag(N, 0);
      SetFlag(Z, TestZ8(r));
      SetFlag(C, LowBit(data));
    }

    // ROR and ASR: the top bit is the carry, or stays.
    method InstShift(data: Word, rotate: bool) returns (r: Word)
      modifies this`cc
      ensures Result(r, cc) == if rotate then Ror(old(cc), data) else Asr(old(cc), data)
    {
      hide SetCc, GetCc, TestN, TestZ8, Halved, LowBit, AtTop, Or, And;
      var top := if rotate then AtTop(GetCc(cc, C)) else And(data, Word(0x80));
      r := Or(Halved(data), top);
      SetFlag(N, TestN(r));
      SetFlag(Z, TestZ8(r));
      SetFlag(C, LowBit(data));
    }

    method InstRol(data: Word) returns (r: Word)
      modifies this`cc
      ensures Result(r, cc) == Rol(old(cc), data)
    {
      hide SetCc, GetCc, TestC, Nzv, Sum;
      r := Sum(data, data, GetCc(cc, C));
      SetNzv(data, data, r);
      SetFlag(C, TestC(data, data, r, 0));
    }

    // DEC adds 0xff, INC adds 1.
    method InstStep(data: Word, down: bool) returns (r: Word)
      modifies this`cc
      ensures Result(r, cc) == if down then Dec(old(cc), data) else Inc(old(cc), data)
    {
      hide Nzv, Sum;
      var i1 := if down then Word(0xff) else Word(1);
      r := Sum(data, i1, 0);
      SetNzv(data, i1, r);
    }

    method InstUnary(op: UnaryOp, data: Word) returns (r: Word)
      modifies this`cc
      ensures Result(r, cc) == Unary(op, old(cc), data)
    {
      hide Sub8, Add8, Com, Lsr, Ror, Asr, Rol, M6809Word.Dec, M6809Word.Inc;
      match op {
        case NEG => r := InstSub8(Word(0), data);
        case COM => r := InstCom(data);
        case LSR => r := InstLsr(data);
        case ROR => r := InstShift(data, true);
        case ASR => r := InstShift(data, false);
        case ASL => r := InstAdd8(data, data);
        case ROL => r := InstRol(data);
        case DEC => r := InstStep(data, true);
        case INC => r := InstStep(data, false);
      }
    }

    method SetWide(i0: Word, i1: Word, r: Word, sub: Bit)
      modifies this`cc
      ensures cc == M6809Word.Wide(old(cc), i0, i1, r, sub)
    {
      hide SetCc, TestN, TestZ16, TestV, TestC, Down8;
      SetFlag(N, TestN(Down8(r)));
      SetFlag(Z, TestZ16(r));
      SetFlag(V, TestV(Down8(i0), Down8(i1), Down8(r)));
      SetFlag(C, TestC(Down8(i0), Down8(i1), Down8(r), sub));
    }

    method InstAdd16(data0: Word, data1: Word) returns (r: Word)
      modifies this`cc
      ensures Result(r, cc) == Add16(old(cc), data0, data1)
    {
      hide M6809Word.Wide, Sum;
      r := Sum(data0, data1, 0);
      SetWide(data0, data1, r, 0);
    }

    method InstSub16(data0: Word, data1: Word) returns (r: Word)
      modifies this`cc
      ensures Result(r, cc) == Sub16(old(cc), data0, data1)
    {
      hide M6809Word.Wide, Minus;
      r := Minus(data0, data1, 1);
      SetWide(data0, Not(data1), r, 1);
    }

    // ---------- the bus and the stacks ----------

    method Read8(addr: Word) returns (data: Word)
      modifies this`log
      ensures (View(), data) == M6809.Read8(old(View()), addr)
    {
      hide Low8, Low16;
      data := Low8(device(log, Low16(addr)));
      log := log + [Fetched(Low16(addr))];
    }

    method Write8(addr: Word, data: Word)
      modifies this`log
      ensures View() == M6809.Write8(old(View()), addr, data)
    {
      hide Low8, Low16;
      log := log + [Stored(Low16(addr), Low8(data))];
    }

    method Read16(addr: Word) returns (data: Word)
      modifies this`log
      ensures (View(), data) == M6809.Read16(old(View()), addr)
    {
      hide M6809.Read8, M6809.Plus, Join;
      var hi := Read8(addr);
      var lo := Read8(M6809.Plus(addr, 1));
      data := Join(hi, lo);
    }

    method Write16(addr: Word, data: Word)
      modifies this`log
      ensures View() == M6809.Write16(old(View()), addr, data)
    {
      hide M6809.Write8, M6809.Plus, Down8;
      Write8(addr, Down8(data));
      Write8(M6809.Plus(addr, 1), data);
    }

    method GetReg(r: Reg) returns (w: Word)
      ensures w == Get(View(), r)
    {
      hide JoinLow;
      match r {
        case RX => w := x;
        case RY => w := y;
        case RU => w := u;
        case RS => w := s;
        case RD => w := JoinLow(a, b);
      }
    }

    method SetReg(r: Reg, w: Word)
      modifies this`x, this`y, this`u, this`s, this`a, this`b
      ensures View() == M6809.Set(old(View()), r, w)
    {
      hide Down8;
      match r {
        case RX => x := w;
        case RY => y := w;
        case RU => u := w;
        case RS => s := w;
        case RD => a, b := Down8(w), w;
      }
    }

    method Push8(stack: Reg, data: Word)
      modifies this`x, this`y, this`u, this`s, this`a, this`b, this`log
      ensures View() == M6809.Push8(old(View()), stack, data)
    {
      hide Get, M6809.Set, M6809.Write8, Less;
      var sp := GetReg(stack);
      sp := Less(sp, 1);
      SetReg(stack, sp);
      Write8(sp, data);
    }

    method Pull8(stack: Reg) returns (data: Word)
      modifies this`x, this`y, this`u, this`s, this`a, this`b, this`log
      ensures (View(), data) == M6809.Pull8(old(View()), stack)
    {
      hide Get, M6809.Set, M6809.Read8, M6809.Plus;
      var sp := GetReg(stack);
      data := Read8(sp);
      SetReg(stack, M6809.Plus(sp, 1));
    }

    method Push16(stack: Reg, data: Word)
      modifies this`x, this`y, this`u, this`s, this`a, this`b, this`log
      ensures View() == M6809.Push16(old(View()), stack, data)
    {
      hide M6809.Push8, Down8;
      Push8(stack, data);
      Push8(stack, Down8(data));
    }

    method Pull16(stack: Reg) returns (data: Word)
      modifies this`x, this`y, this`u, this`s, this`a, this`b, this`log
      ensures (View(), data) == M6809.Pull16(old(View()), stack)
    {
      hide M6809.Pull8, Join;
      var hi := Pull8(stack);
      var lo := Pull8(stack);
      data := Join(hi, lo);
    }

    method PcRead8() returns (data: Word)
      modifies this`pc, this`log
      ensures (View(), data) == M6809.PcRead8(old(View()))
    {
      hide M6809.Read8, M6809.Plus;
      data := Read8(pc);
      pc := M6809.Plus(pc, 1);
    }

    method PcRead16() returns (data: Word)
      modifies this`pc, this`log
      ensures (View(), data) == M6809.PcRead16(old(View()))
    {
      hide M6809.Read16, M6809.Plus;
      data := Read16(pc);
      pc := M6809.Plus(pc, 2);
    }

    method PushWordIf(stack: Reg, listed: bool, data: Word)
      modifies this`x, this`y, this`u, this`s, this`a, this`b, this`log, this`cycles
      ensures View() == PushWord(old(View()), stack, listed, data)
    {
      hide M6809.Push16;
      if listed {
        Push16(stack, data);
        cycles := cycles + 2;
      }
    }

    method PushByteIf(stack: Reg, listed: bool, data: Word)
      modifies this`x, this`y, this`u, this`s, this`a, this`b, this`log, this`cycles
      ensures View() == PushByte(old(View()), stack, listed, data)
    {
      hide M6809.Push8;
      if listed {
        Push8(stack, data);
        cycles := cycles + 1;
      }
    }

    method PushWordsIf(op: Word, stack: Reg, data: Word)
      requires (stack == RS && data == u) || (stack == RU && data == s)
      modifies this`x, this`y, this`u, this`s, this`a, this`b, this`log, this`cycles
      ensures View() == PushWords(old(View()), op, stack)
      ensures OnlyStacked(old(View()), View(), stack)
    {
      hide PushWord, Lists;
      PushWordKeeps(View(), stack, Lists(op, 0x80), pc);
      PushWordIf(stack, Lists(op, 0x80), pc);
      PushWordKeeps(View(), stack, Lists(op, 0x40), data);
      PushWordIf(stack, Lists(op, 0x40), data);
      PushWordKeeps(View(), stack, Lists(op, 0x20), y);
      PushWordIf(stack, Lists(op, 0x20), y);
      PushWordKeeps(View(), stack, Lists(op, 0x10), x);
      PushWordIf(stack, Lists(op, 0x10), x);
    }

    method PushBytesIf(op: Word, stack: Reg)
      requires stack == RS || stack == RU
      modifies this`x, this`y, this`u, this`s, this`a, this`b, this`log, this`cycles
      ensures View() == PushBytes(old(View()), op, stack)
    {
      hide PushByte, Lists;
      PushByteKeeps(View(), stack, Lists(op, 0x08), dp);
      PushByteIf(stack, Lists(op, 0x08), dp);
      PushByteKeeps(View(), stack, Lists(op, 0x04), b);
      PushByteIf(stack, Lists(op, 0x04), b);
      PushByteKeeps(View(), stack, Lists(op, 0x02), a);
      PushByteIf(stack, Lists(op, 0x02), a);
      PushByteIf(stack, Lists(op, 0x01), cc);
    }

    // Push what the list names, from the program counter down to the codes.
    method InstPsh(op: Word, stack: Reg, data: Word)
      requires (stack == RS && data == u) || (stack == RU && data == s)
      modifies this`x, this`y, this`u, this`s, this`a, this`b, this`log, this`cycles
      ensures View() == PushList(old(View()), op, stack)
    {
      hide PushByte, PushWord, Lists, PushWords, PushBytes;
      PushInTwo(View(), op, stack);
      PushWordsIf(op, stack, data);
      PushBytesIf(op, stack);
    }

    // Pull what the list names, from the codes up to the program counter.
    method InstPul(op: Word, stack: Reg)
      requires stack == RS || stack == RU
      modifies this
      ensures View() == PullList(old(View()), op, stack)
    {
      hide PullCc, PullA, PullB, PullDp, PullReg, PullPc, Lists;
      PullCodes(stack, Lists(op, 0x01));
      PullAccA(stack, Lists(op, 0x02));
      PullAccB(stack, Lists(op, 0x04));
      PullPage(stack, Lists(op, 0x08));
      PullRegIf(stack, Lists(op, 0x10), RX);
      PullRegIf(stack, Lists(op, 0x20), RY);
      PullRegIf(stack, Lists(op, 0x40), Other(stack));
      PullCounter(stack, Lists(op, 0x80));
    }

    method PullCodes(stack: Reg, listed: bool)
      requires stack == RS || stack == RU
      modifies this
      ensures View() == PullCc(old(View()), stack, listed)
    {
      hide M6809.Pull8;
      if listed {
        cc := Pull8(stack);
        cycles := cycles + 1;
      }
    }

    method PullAccA(stack: Reg, listed: bool)
      requires stack == RS || stack == RU
      modifies this
      ensures View() == PullA(old(View()), stack, listed)
    {
      hide M6809.Pull8;
      if listed {
        var data := Pull8(stack);
        a := data;
        cycles := cycles + 1;
      }
    }

    method PullAccB(stack: Reg, listed: bool)
      requires stack == RS || stack == RU
      modifies this
      ensures View() == PullB(old(View()), stack, listed)
    {
      hide M6809.Pull8;
      if listed {
        var data := Pull8(stack);
        b := data;
        cycles := cycles + 1;
      }
    }

    method PullPage(stack: Reg, listed: bool)
      requires stack == RS || stack == RU
      modifies this
      ensures View() == PullDp(old(View()), stack, listed)
    {
      hide M6809.Pull8;
      if listed {
        dp := Pull8(stack);
        cycles := cycles + 1;
      }
    }

    method PullRegIf(stack: Reg, listed: bool, r: Reg)
      modifies this
      ensures View() == PullReg(old(View()), stack, listed, r)
    {
      hide M6809.Pull16, M6809.Set;
      if listed {
        var data := Pull16(stack);
        SetReg(r, data);
        cycles := cycles + 2;
      }
    }

    method PullCounter(stack: Reg, listed: bool)
      modifies this
      ensures View() == PullPc(old(View()), stack, listed)
    {
      hide M6809.Pull16;
      if listed {
        pc := Pull16(stack);
        cycles := cycles + 2;
      }
    }

    // ---------- interrupts ----------

    method PushAll()
      modifies this
      ensures View() == PushEntire(old(View()))
    {
      hide SetCc, PushList;
      SetFlag(E, 1);
      InstPsh(Word(0xff), RS, u);
    }

    method PushSome()
      modifies this
      ensures View() == PushFast(old(View()))
    {
      hide SetCc, PushList;
      SetFlag(E, 0);
      InstPsh(Word(0x81), RS, u);
    }

    method GoThrough(at: bv32)
      modifies this`pc, this`log
      ensures View() == Vector(old(View()), at)
    {
      hide M6809.Read16;
      pc := Read16(Word(at));
    }

    method TakeFast()
      modifies this
      ensures View() == FastInterrupt(old(View()))
    {
      hide PushFast, SetCc, Vector;
      if status != CWAI {
        PushSome();
      }
      SetFlag(I, 1);
      SetFlag(F, 1);
      GoThrough(0xfff6);
      status := NORMAL;
      cycles := cycles + 7;
    }

    method TakeInterrupt()
      modifies this
      ensures View() == M6809.Interrupt(old(View()))
    {
      hide PushEntire, SetCc, Vector;
      if status != CWAI {
        PushAll();
      }
      SetFlag(I, 1);
      GoThrough(0xfff8);
      status := NORMAL;
      cycles := cycles + 7;
    }

    method Interrupts(irq: bool, firq: bool)
      modifies this
      ensures View() == M6809.Interrupts(old(View()), irq, firq)
    {
      hide GetCc, FastInterrupt, M6809.Interrupt;
      if firq {
        if GetCc(cc, F) == 0 {
          TakeFast();
        } else if status == SYNC {
          status := NORMAL;
        }
      }
      if irq {
        if GetCc(cc, I) == 0 {
          TakeInterrupt();
        } else if status == SYNC {
          status := NORMAL;
        }
      }
    }

    // SWI, SWI2 and SWI3.
    method SoftwareInterrupt(k: nat)
      modifies this
      ensures View() == DoSoftware(old(View()), k)
    {
      hide PushEntire, SetCc, Vector;
      PushAll();
      if k == 1 {
        SetFlag(I, 1);
        SetFlag(F, 1);
        GoThrough(0xfffa);
        cycles := cycles + 7;
      } else {
        GoThrough(if k == 2 then 0xfff4 else 0xfff2);
        cycles := cycles + 8;
      }
    }

    // CWAI.
    method WaitForInterrupt()
      modifies this
      ensures View() == DoWait(old(View()))
    {
      hide M6809.PcRead8, PushEntire, And;
      PcReadKeeps(View());
      var data := PcRead8();
      cc := And(cc, data);
      PushAll();
      status := CWAI;
      cycles := cycles + 4;
    }

    // RTI.
    method ReturnFromInterrupt()
      modifies this
      ensures View() == DoReturnFromInterrupt(old(View()))
    {
      hide M6809.Pull8, PullList, GetCc;
      cc := Pull8(RS);
      cycles := cycles + 1;
      if GetCc(cc, E) == 1 {
        InstPul(Word(0xfe), RS);
      } else {
        InstPul(Word(0x80), RS);
      }
      cycles := cycles + 3;
    }

    // ---------- addressing ----------

    method EaDirect() returns (ea: Word)
      modifies this`pc, this`log
      ensures (View(), ea) == Direct(old(View()))
    {
      hide M6809.PcRead8, Join;
      PcReadKeeps(View());
      var low := PcRead8();
      ea := Join(dp, low);
    }

    // Charge for the mode, and follow the pointer if it is indirect.
    method Follow(addr: Word, indirect: bool, cost: nat) returns (ea: Word)
      modifies this`log, this`cycles
      ensures (View(), ea) == Indirected(old(View()), addr, indirect, cost)
    {
      hide M6809.Read16;
      ea := addr;
      if indirect {
        ea := Read16(addr);
        cycles := cycles + 3;
      }
      cycles := cycles + cost;
    }

    method EaAutomatic(r: Reg, mode: nat, indirect: bool) returns (ea: Word)
      requires mode < 4
      modifies this`x, this`y, this`u, this`s, this`a, this`b, this`log, this`cycles
      ensures mode == 0 ==> (View(), ea) == After(old(View()), r, 1, indirect, 2)
      ensures mode == 1 ==> (View(), ea) == After(old(View()), r, 2, indirect, 3)
      ensures mode == 2 ==> (View(), ea) == Before(old(View()), r, 1, indirect, 2)
      ensures mode == 3 ==> (View(), ea) == Before(old(View()), r, 2, indirect, 3)
    {
      hide Get, M6809.Set, M6809.Plus, Less, Indirected;
      var at := GetReg(r);
      var k: bv32 := if mode % 2 == 0 then 1 else 2;
      var cost := 2 + mode % 2;
      if mode < 2 {
        ea := Follow(at, indirect, cost);
        SetReg(r, M6809.Plus(at, k));
      } else {
        SetReg(r, Less(at, k));
        ea := Follow(Less(at, k), indirect, cost);
      }
    }

    method EaFetched(r: Reg, wide: bool, indirect: bool) returns (ea: Word)
      modifies this`pc, this`log, this`cycles
      ensures (View(), ea) == if wide then WordOffset(old(View()), r, indirect) else ByteOffset(old(View()), r, indirect)
    {
      hide M6809.PcRead8, M6809.PcRead16, Get, Sum, SignExtend, Indirected;
      var base := GetReg(r);
      if wide {
        var offset := PcRead16();
        ea := Follow(Sum(base, offset, 0), indirect, 4);
      } else {
        var offset := PcRead8();
        ea := Follow(Sum(base, SignExtend(offset), 0), indirect, 1);
      }
    }

    method EaRelative(wide: bool, indirect: bool) returns (ea: Word)
      modifies this`pc, this`log, this`cycles
      ensures (View(), ea) == if wide then WordPc(old(View()), indirect) else BytePc(old(View()), indirect)
    {
      hide M6809.PcRead8, M6809.PcRead16, Sum, SignExtend, Indirected;
      if wide {
        var offset := PcRead16();
        ea := Follow(Sum(pc, offset, 0), indirect, 5);
      } else {
        var offset := PcRead8();
        ea := Follow(Sum(pc, SignExtend(offset), 0), indirect, 1);
      }
    }

    method EaRegister(r: Reg, mode: nat, indirect: bool) returns (ea: Word)
      requires mode == 4 || mode == 5 || mode == 6 || mode == 0xb
      modifies this`log, this`cycles
      ensures (View(), ea) ==
              if mode == 4 then Indirected(old(View()), Get(old(View()), r), indirect, 0)
              else if mode == 5 then Indirected(old(View()), Sum(Get(old(View()), r), SignExtend(old(b)), 0), indirect, 1)
              else if mode == 6 then Indirected(old(View()), Sum(Get(old(View()), r), SignExtend(old(a)), 0), indirect, 1)
              else Indirected(old(View()), Sum(Get(old(View()), r), Get(old(View()), RD), 0), indirect, 4)
    {
      hide Get, Sum, SignExtend, Indirected;
      var base := GetReg(r);
      if mode == 4 {
        ea := Follow(base, indirect, 0);
      } else if mode == 5 {
        ea := Follow(Sum(base, SignExtend(b), 0), indirect, 1);
      } else if mode == 6 {
        ea := Follow(Sum(base, SignExtend(a), 0), indirect, 1);
      } else {
        var d := GetReg(RD);
        ea := Follow(Sum(base, d, 0), indirect, 4);
      }
    }

    method EaPointed() returns (ea: Word)
      modifies this`pc, this`log, this`cycles
      ensures (View(), ea) == Pointed(old(View()))
    {
      hide M6809.PcRead16, M6809.Read16;
      var at := PcRead16();
      ea := Read16(at);
      cycles := cycles + 5;
    }

    method EaLong(op: nat) returns (ea: Word)
      modifies this`x, this`y, this`u, this`s, this`a, this`b, this`pc, this`log, this`cycles
      ensures (View(), ea) == IndexedLong(old(View()), op)
    {
      hide Get, Sum, SignExtend, Indirected, After, Before, ByteOffset, WordOffset, BytePc, WordPc, Pointed, IndexOf;
      var r := IndexOf(op);
      var indirect := op / 16 % 2 == 1;
      var mode := op % 16;
      if mode < 4 {
        ea := EaAutomatic(r, mode, indirect);
      } else if mode == 4 || mode == 5 || mode == 6 || mode == 0xb {
        ea := EaRegister(r, mode, indirect);
      } else if mode == 8 || mode == 9 {
        ea := EaFetched(r, mode == 9, indirect);
      } else if mode == 0xc || mode == 0xd {
        ea := EaRelative(mode == 0xd, indirect);
      } else if op == 0x9f {
        ea := EaPointed();
      } else {
        ea := Word(0);
      }
    }

    method EaIndexed() returns (ea: Word)
      modifies this`x, this`y, this`u, this`s, this`a, this`b, this`pc, this`log, this`cycles
      ensures (View(), ea) == Indexed(old(View()))
    {
      hide M6809.PcRead8, Get, Sum, Nibble, Less, IndexedLong, Number, IndexOf;
      var post := PcRead8();
      var op := Number(post);
      if op < 0x80 {
        var base := GetReg(IndexOf(op));
        ea := Sum(base, Nibble(post), 0);
        if op / 16 % 2 == 1 {
          ea := Less(ea, 0x10);
        }
        cycles := cycles + 1;
      } else {
        ea := EaLong(op);
      }
    }

    method Ea(mode: Mode) returns (ea: Word)
      modifies this`x, this`y, this`u, this`s, this`a, this`b, this`pc, this`log, this`cycles
      ensures (View(), ea) == Address(old(View()), mode)
    {
      hide Direct, Indexed, M6809.PcRead16;
      match mode {
        case DIRECT => ea := EaDirect();
        case INDEXED => ea := EaIndexed();
        case _ => ea := PcRead16();
      }
    }

    method Fetch8(mode: Mode) returns (data: Word)
      modifies this`x, this`y, this`u, this`s, this`a, this`b, this`pc, this`log, this`cycles
      ensures (View(), data) == Operand8(old(View()), mode)
    {
      hide M6809.PcRead8, Address, M6809.Read8;
      if mode == IMMEDIATE {
        data := PcRead8();
      } else {
        var ea := Ea(mode);
        data := Read8(ea);
      }
    }

    method Fetch16(mode: Mode) returns (data: Word)
      modifies this`x, this`y, this`u, this`s, this`a, this`b, this`pc, this`log, this`cycles
      ensures (View(), data) == Operand16(old(View()), mode)
    {
      hide M6809.PcRead16, Address, M6809.Read16;
      if mode == IMMEDIATE {
        data := PcRead16();
      } else {
        var ea := Ea(mode);
        data := Read16(ea);
      }
    }

    // ---------- instructions ----------

    method SetAccumulator(acc: Acc, w: Word)
      modifies this`a, this`b
      ensures View() == SetAcc(old(View()), acc, w)
    {
      if acc == AA {
        a := w;
      } else {
        b := w;
      }
    }

    method DoUnary(op: UnaryOp, mode: Mode)
      modifies this
      ensures View() == DoUnaryMem(old(View()), op, mode)
    {
      hide Address, M6809.Read8, M6809.Write8, Unary, Cost;
      var ea := Ea(mode);
      var data := Read8(ea);
      var r := InstUnary(op, data);
      Write8(ea, r);
      cycles := cycles + Cost(mode, 4);
    }

    method DoAccumulator(i: Instr)
      requires i.UnaryAcc? || i.TestAcc? || i.ClearAcc?
      modifies this
      ensures i.UnaryAcc? ==> View() == DoUnaryAcc(old(View()), i.unary, i.acc)
      ensures !i.UnaryAcc? ==> View() == DoAcc(old(View()), i)
    {
      hide Unary, Tst8, Clr;
      match i {
        case UnaryAcc(op, acc) =>
          var r := InstUnary(op, if acc == AA then a else b);
          SetAccumulator(acc, r);
        case TestAcc(acc) => InstTst8(if acc == AA then a else b);
        case ClearAcc(acc) =>
          InstClr();
          SetAccumulator(acc, Word(0));
      }
      cycles := cycles + 2;
    }

    method DoMemory(i: Instr)
      requires i.TestMem? || i.ClearMem? || i.Jump?
      modifies this
      ensures i.TestMem? ==> View() == DoTestMem(old(View()), i.mode)
      ensures i.ClearMem? ==> View() == DoClearMem(old(View()), i.mode)
      ensures i.Jump? ==> View() == DoJump(old(View()), i.mode)
    {
      hide Address, Operand8, M6809.Write8, Tst8, Clr, Cost;
      match i {
        case TestMem(mode) =>
          var data := Fetch8(mode);
          InstTst8(data);
          cycles := cycles + Cost(mode, 4);
        case ClearMem(mode) =>
          var ea := Ea(mode);
          InstClr();
          Write8(ea, Word(0));
          cycles := cycles + Cost(mode, 4);
        case Jump(mode) =>
          pc := Ea(mode);
          cycles := cycles + Cost(mode, 1);
      }
    }

    method DoBinary(op: BinaryOp, acc: Acc, mode: Mode, keep: bool)
      modifies this
      ensures View() == DoBinary8(old(View()), op, acc, mode, keep)
    {
      hide Operand8, Binary, Cost;
      var data := Fetch8(mode);
      var r := InstBinary(op, if acc == AA then a else b, data);
      if keep {
        SetAccumulator(acc, r);
      }
      cycles := cycles + Cost(mode, 2);
    }

    method DoLoadStore8(store: bool, acc: Acc, mode: Mode)
      modifies this
      ensures View() == if store then DoStore8(old(View()), acc, mode) else DoLoad8(old(View()), acc, mode)
    {
      hide Operand8, Address, M6809.Write8, Tst8, Cost;
      if store {
        var ea := Ea(mode);
        WriteKeeps(View(), ea, if acc == AA then a else b);
        Write8(ea, if acc == AA then a else b);
        InstTst8(if acc == AA then a else b);
      } else {
        var data := Fetch8(mode);
        SetAccumulator(acc, data);
        InstTst8(data);
      }
      cycles := cycles + Cost(mode, 2);
    }

    method DoArithmetic16(add: bool, mode: Mode)
      modifies this
      ensures View() == DoWide(old(View()), add, mode)
    {
      hide Operand16, Add16, Sub16, JoinLow, Down8, Cost;
      var data := Fetch16(mode);
      var d := GetReg(RD);
      if add {
        d := InstAdd16(d, data);
      } else {
        d := InstSub16(d, data);
      }
      SetReg(RD, d);
      cycles := cycles + Cost(mode, 4);
    }

    method DoCompare(reg: Reg, mode: Mode, extra: nat)
      modifies this
      ensures View() == DoCompare16(old(View()), reg, mode, extra)
    {
      hide Operand16, Sub16, Get, Cost;
      var data := Fetch16(mode);
      var w := GetReg(reg);
      var r := InstSub16(w, data);
      cycles := cycles + Cost(mode, 4) + extra;
    }

    method DoLoadStore16(store: bool, reg: Reg, mode: Mode, extra: nat)
      modifies this
      ensures View() == if store then DoStore16(old(View()), reg, mode, extra) else DoLoad16(old(View()), reg, mode, extra)
    {
      hide Operand16, Address, M6809.Write16, Get, M6809.Set, Tst16, Cost;
      if store {
        var ea := Ea(mode);
        var w := GetReg(reg);
        Write16(ea, w);
      } else {
        var data := Fetch16(mode);
        SetReg(reg, data);
      }
      var tested := GetReg(reg);
      InstTst16(tested);
      cycles := cycles + Cost(mode, 3) + extra;
    }

    // The mask avoids a branch: the offset is added, or nothing.
    method InstBra8(test: Bit, odd: bool)
      modifies this`pc, this`log, this`cycles
      ensures View() == var (c1, offset) := M6809.PcRead8(old(View()));
              Tick(c1.(pc := Sum(c1.pc, And(SignExtend(offset), BranchMask(test, odd)), 0)), 3)
    {
      hide M6809.PcRead8, Sum, And, SignExtend, BranchMask;
      var offset := PcRead8();
      var mask := BranchMask(test, odd);
      pc := Sum(pc, And(SignExtend(offset), mask), 0);
      cycles := cycles + 3;
    }

    method InstBra16(test: Bit, odd: bool)
      modifies this`pc, this`log, this`cycles
      ensures View() == var (c1, offset) := M6809.PcRead16(old(View()));
              var mask := BranchMask(test, odd);
              Tick(c1.(pc := Sum(c1.pc, And(offset, mask), 0)), if mask == Word(0) then 5 else 6)
    {
      hide M6809.PcRead16, Sum, And, BranchMask;
      var offset := PcRead16();
      var mask := BranchMask(test, odd);
      pc := Sum(pc, And(offset, mask), 0);
      cycles := cycles + if mask == Word(0) then 5 else 6;
    }

    // BSR, LBSR and LBRA.
    method DoRelative(i: Instr)
      requires i.LongJump? || i.LongCall? || i.ShortCall?
      modifies this
      ensures i.LongJump? ==> View() == DoLongJump(old(View()))
      ensures i.LongCall? ==> View() == DoLongCall(old(View()))
      ensures i.ShortCall? ==> View() == DoShortCall(old(View()))
    {
      hide M6809.PcRead8, M6809.PcRead16, M6809.Push16, Sum, SignExtend;
      var offset;
      if i.ShortCall? {
        offset := PcRead8();
      } else {
        offset := PcRead16();
      }
      if !i.LongJump? {
        Push16(RS, pc);
      }
      if i.ShortCall? {
        pc := Sum(pc, SignExtend(offset), 0);
        cycles := cycles + 7;
      } else {
        pc := Sum(pc, offset, 0);
        cycles := cycles + if i.LongJump? then 5 else 9;
      }
    }

    method DoSubroutine(mode: Mode)
      modifies this
      ensures View() == DoCall(old(View()), mode)
    {
      hide Address, M6809.Push16, Cost;
      var ea := Ea(mode);
      Push16(RS, pc);
      pc := ea;
      cycles := cycles + Cost(mode, 5);
    }

    method DoLoadAddress(reg: Reg)
      modifies this
      ensures View() == DoLea(old(View()), reg)
    {
      hide Indexed, M6809.Set, SetCc, TestZ16;
      var ea := EaIndexed();
      SetReg(reg, ea);
      if reg == RX || reg == RY {
        SetFlag(Z, TestZ16(ea));
      }
      cycles := cycles + 4;
    }

    // PSHS, PULS, PSHU and PULU.
    method DoStack(pull: bool, stack: Reg)
      requires stack == RS || stack == RU
      modifies this
      ensures View() == if pull then DoPull(old(View()), stack) else DoPush(old(View()), stack)
    {
      hide M6809.PcRead8, PushList, PullList;
      var op := PcRead8();
      if pull {
        InstPul(op, stack);
      } else {
        InstPsh(op, stack, if stack == RS then u else s);
      }
      cycles := cycles + 5;
    }

    method ExgTfrRead(n: nat) returns (w: Word)
      ensures w == Named(View(), n)
    {
      hide JoinLow, Padded;
      if n == 0 {
        w := GetReg(RD);
      } else {
        w := if n == 1 then x else if n == 2 then y else if n == 3 then u else if n == 4 then s else if n == 5 then pc
             else if n == 8 then Padded(a) else if n == 9 then Padded(b) else if n == 0xa then Padded(cc)
             else if n == 0xb then Padded(dp) else Word(0xffff);
      }
    }

    method ExgTfrWrite(n: nat, w: Word)
      modifies this`x, this`y, this`u, this`s, this`pc, this`a, this`b, this`cc, this`dp
      ensures View() == Renamed(old(View()), n, w)
    {
      hide Down8;
      if n == 0 {
        SetReg(RD, w);
      } else if n == 1 {
        x := w;
      } else if n == 2 {
        y := w;
      } else if n == 3 {
        u := w;
      } else if n == 4 {
        s := w;
      } else if n == 5 {
        pc := w;
      } else if n == 8 {
        a := w;
      } else if n == 9 {
        b := w;
      } else if n == 0xa {
        cc := w;
      } else if n == 0xb {
        dp := w;
      }
    }

    method InstExg()
      modifies this
      ensures View() == DoExchange(old(View()))
    {
      hide M6809.PcRead8, Number, Named, Renamed;
      var op := PcRead8();
      var n, m := Number(op) % 16, Number(op) / 16;
      var tmp := ExgTfrRead(n);
      var w := ExgTfrRead(m);
      ExgTfrWrite(n, w);
      ExgTfrWrite(m, tmp);
      cycles := cycles + 8;
    }

    method InstTfr()
      modifies this
      ensures View() == DoTransfer(old(View()))
    {
      hide M6809.PcRead8, Number, Named, Renamed;
      var op := PcRead8();
      var w := ExgTfrRead(Number(op) / 16);
      ExgTfrWrite(Number(op) % 16, w);
      cycles := cycles + 6;
    }

    method Rts()
      modifies this
      ensures View() == DoReturn(old(View()))
    {
      hide M6809.Pull16;
      pc := Pull16(RS);
      cycles := cycles + 5;
    }

    method InstAbx()
      modifies this
      ensures View() == DoAbx(old(View()))
    {
      hide Sum, Low8;
      x := Sum(x, Low8(b), 0);
      cycles := cycles + 3;
    }

    // ORCC and ANDCC.
    method DoCodes(adding: bool)
      modifies this
      ensures View() == if adding then DoOrCc(old(View())) else DoAndCc(old(View()))
    {
      hide M6809.PcRead8, Or, And;
      var data := PcRead8();
      cc := if adding then Or(cc, data) else And(cc, data);
      cycles := cycles + 3;
    }

    method DoSignExtend()
      modifies this
      ensures View() == DoSex(old(View()))
    {
      hide SignExtend, Down8, JoinLow, SetCc, TestN, TestZ16;
      SetReg(RD, SignExtend(b));
      SetFlag(N, TestN(a));
      var d := GetReg(RD);
      SetFlag(Z, TestZ16(d));
      cycles := cycles + 2;
    }

    method InstMul()
      modifies this
      ensures View() == DoMultiply(old(View()))
    {
      hide Product, SetCc, TestN, TestZ16, Down8;
      var r := Product(a, b);
      SetReg(RD, r);
      SetFlag(Z, TestZ16(r));
      SetFlag(C, TestN(r));
      cycles := cycles + 11;
    }

    method InstDaa()
      modifies this
      ensures View() == DoAdjust(old(View()))
    {
      hide Correction, Sum, SetCc, GetCc, TestN, TestZ8, TestC;
      var i0 := a;
      var i1 := Correction(a, GetCc(cc, H), GetCc(cc, C));
      a := Sum(i0, i1, 0);
      SetFlag(N, TestN(a));
      SetFlag(Z, TestZ8(a));
      SetFlag(V, 0);
      SetFlag(C, TestC(i0, i1, a, 0));
      cycles := cycles + 2;
    }

    // ---------- the step ----------

    method ExecuteFlow(i: Instr)
      requires IsFlow(i)
      modifies this
      ensures View() == ExecuteOther(old(View()), i)
    {
      hide DoCall, DoReturn, DoLongJump, DoLongCall, DoShortCall, Condition, M6809.PcRead8, M6809.PcRead16, Sum, And, SignExtend, BranchMask;
      if i.Branch? {
        InstBra8(Condition(cc, i.cond), i.odd);
      } else if i.LongBranch? {
        InstBra16(Condition(cc, i.cond), i.odd);
      } else if i.Call? {
        DoSubroutine(i.mode);
      } else if i.Return? {
        Rts();
      } else {
        DoRelative(i);
      }
    }

    method ExecuteWide(i: Instr)
      requires IsWide(i)
      modifies this
      ensures View() == ExecuteOther(old(View()), i)
    {
      hide DoWide, DoCompare16, DoLoad16, DoStore16;
      if i.AddD? || i.SubD? {
        DoArithmetic16(i.AddD?, i.mode);
      } else if i.Compare16? {
        DoCompare(i.reg, i.mode, i.extra);
      } else {
        DoLoadStore16(i.Store16?, i.reg, i.mode, i.extra);
      }
    }

    method ExecuteRest(i: Instr)
      modifies this
      ensures View() == ExecuteOther(old(View()), i)
    {
      hide ExecuteOther;
      if IsWide(i) {
        ExecuteWide(i);
      } else if IsFlow(i) {
        ExecuteFlow(i);
      } else if IsStack(i) {
        ExecuteStack(i);
      } else {
        ExecuteLast(i);
      }
    }

    method ExecuteStack(i: Instr)
      requires IsStack(i)
      modifies this
      ensures View() == ExecuteOther(old(View()), i)
    {
      hide DoLea, DoPush, DoPull, DoReturnFromInterrupt, DoSoftware, DoWait;
      if i.Lea? {
        DoLoadAddress(i.reg);
      } else if i.Push? || i.Pull? {
        DoStack(i.Pull?, StackOf(i.user));
      } else if i.ReturnFromInterrupt? {
        ReturnFromInterrupt();
      } else if i.SoftwareInterrupt? {
        SoftwareInterrupt(i.k);
      } else {
        WaitForInterrupt();
      }
    }

    method ExecuteLast(i: Instr)
      requires !IsWide(i) && !IsFlow(i) && !IsStack(i)
      modifies this
      ensures View() == ExecuteOther(old(View()), i)
    {
      hide DoAbx, DoOrCc, DoAndCc, DoSex, DoExchange, DoTransfer, DoAdjust, DoMultiply;
      if i.Abx? || i.Sex? || i.Adjust? || i.MultiplyAB? {
        ExecuteImplied(i);
      } else if i.OrCc? || i.AndCc? {
        DoCodes(i.OrCc?);
      } else if i.Exchange? {
        InstExg();
      } else if i.Transfer? {
        InstTfr();
      } else if i.Sync? {
        status := SYNC;
        cycles := cycles + 2;
      } else if i.Nop? {
        cycles := cycles + 2;
      }
    }

    // The instructions that work on the accumulators and index registers alone.
    method ExecuteImplied(i: Instr)
      requires i.Abx? || i.Sex? || i.Adjust? || i.MultiplyAB?
      modifies this
      ensures View() == ExecuteOther(old(View()), i)
    {
      hide ExecuteOther, DoAbx, DoSex, DoAdjust, DoMultiply;
      ImpliedIs(View(), i);
      if i.Abx? {
        InstAbx();
      } else if i.Sex? {
        DoSignExtend();
      } else if i.Adjust? {
        InstDaa();
      } else {
        InstMul();
      }
    }

    method ExecuteByte(i: Instr)
      requires IsByte(i)
      modifies this
      ensures View() == Execute(old(View()), i)
    {
      hide DoBinary8, DoLoad8, DoStore8, DoUnaryMem;
      if i.UnaryMem? {
        DoUnary(i.unary, i.mode);
      } else if i.Binary8? || i.Compare8? {
        DoBinary(i.binary, i.acc, i.mode, i.Binary8?);
      } else {
        DoLoadStore8(i.Store8?, i.acc, i.mode);
      }
    }

    method ExecuteOne(i: Instr)
      modifies this
      ensures View() == Execute(old(View()), i)
    {
      hide ExecuteOther, DoUnaryAcc, DoAcc, DoTestMem, DoClearMem, DoJump, DoUnaryMem, DoBinary8, DoLoad8, DoStore8;
      if i.UnaryAcc? || i.TestAcc? || i.ClearAcc? {
        DoAccumulator(i);
      } else if i.TestMem? || i.ClearMem? || i.Jump? {
        DoMemory(i);
      } else if IsByte(i) {
        ExecuteByte(i);
      } else {
        ExecuteRest(i);
      }
    }

    // Interrupts first, and then an instruction, unless the processor waits.
    method Sstep(irq: bool, firq: bool)
      modifies this
      ensures View() == Step(old(View()), irq, firq)
    {
      hide M6809.Interrupts, M6809.PcRead8, Decode, DecodePage1, DecodePage2, Execute, Number;
      Interrupts(irq, firq);
      if status != NORMAL {
        cycles := cycles + 1;
        return;
      }
      var op := PcRead8();
      var i := Decode(Number(op));
      if i.Page1? {
        var more := PcRead8();
        i := DecodePage1(Number(more));
      } else if i.Page2? {
        var more := PcRead8();
        i := DecodePage2(Number(more));
      }
      ExecuteOne(i);
    }
  }

  predicate IsWide(i: Instr)
  {
    i.AddD? || i.SubD? || i.Compare16? || i.Load16? || i.Store16?
  }

  predicate IsByte(i: Instr)
  {
    i.UnaryMem? || i.Binary8? || i.Compare8? || i.Load8? || i.Store8?
  }

  predicate IsStack(i: Instr)
  {
    i.Lea? || i.Push? || i.Pull? || i.ReturnFromInterrupt? || i.SoftwareInterrupt? || i.Wait?
  }

  predicate IsFlow(i: Instr)
  {
    i.Branch? || i.LongBranch? || i.LongJump? || i.LongCall? || i.ShortCall? || i.Call? || i.Return?
  }

  // ---------- what pushing leaves alone ----------

  function PushWords(c: Cpu, op: Word, stack: Reg): (c': Cpu)
  {
    var c1 := PushWord(c, stack, Lists(op, 0x80), c.pc);
    var c2 := PushWord(c1, stack, Lists(op, 0x40), Get(c, Other(stack)));
    var c3 := PushWord(c2, stack, Lists(op, 0x20), c.y);
    PushWord(c3, stack, Lists(op, 0x10), c.x)
  }

  function PushBytes(c: Cpu, op: Word, stack: Reg): (c': Cpu)
  {
    var c1 := PushByte(c, stack, Lists(op, 0x08), c.dp);
    var c2 := PushByte(c1, stack, Lists(op, 0x04), c.b);
    var c3 := PushByte(c2, stack, Lists(op, 0x02), c.a);
    PushByte(c3, stack, Lists(op, 0x01), c.cc)
  }

  ghost predicate OnlyStacked(c: Cpu, c': Cpu, stack: Reg)
  {
    && c' == c.(s := c'.s, u := c'.u, bus := c'.bus, cycles := c'.cycles)
    && Get(c', Other(stack)) == Get(c, Other(stack)) && c'.bus.device == c.bus.device
  }

  lemma PushInTwo(c: Cpu, op: Word, stack: Reg)
    requires stack == RS || stack == RU
    ensures PushList(c, op, stack) == PushBytes(PushWords(c, op, stack), op, stack)
  {
    hide PushWord, PushByte, Lists;
    PushWordKeeps(c, stack, Lists(op, 0x80), c.pc);
    var c1 := PushWord(c, stack, Lists(op, 0x80), c.pc);
    PushWordKeeps(c1, stack, Lists(op, 0x40), Get(c, Other(stack)));
    var c2 := PushWord(c1, stack, Lists(op, 0x40), Get(c, Other(stack)));
    PushWordKeeps(c2, stack, Lists(op, 0x20), c.y);
    var c3 := PushWord(c2, stack, Lists(op, 0x20), c.y);
    PushWordKeeps(c3, stack, Lists(op, 0x10), c.x);
  }

  lemma PushWordKeeps(c: Cpu, stack: Reg, listed: bool, data: Word)
    requires stack == RS || stack == RU
    ensures var c' := PushWord(c, stack, listed, data);
            && c' == c.(s := c'.s, u := c'.u, bus := c'.bus, cycles := c'.cycles)
            && Get(c', Other(stack)) == Get(c, Other(stack)) && c'.bus.device == c.bus.device
  {
    hide Less, Low8, Low16, Down8;
  }

  lemma PushByteKeeps(c: Cpu, stack: Reg, listed: bool, data: Word)
    requires stack == RS || stack == RU
    ensures var c' := PushByte(c, stack, listed, data);
            && c' == c.(s := c'.s, u := c'.u, bus := c'.bus, cycles := c'.cycles)
            && Get(c', Other(stack)) == Get(c, Other(stack)) && c'.bus.device == c.bus.device
  {
    hide Less, Low8, Low16;
  }

  lemma PcReadKeeps(c: Cpu)
    ensures var c' := M6809.PcRead8(c).0; c'.bus.device == c.bus.device && c' == c.(pc := c'.pc, bus := c'.bus)
  {
    hide M6809.Plus, Low8, Low16;
  }

  lemma WriteKeeps(c: Cpu, addr: Word, data: Word)
    ensures var c' := M6809.Write8(c, addr, data); c' == c.(bus := c'.bus)
  {
  }

  lemma ImpliedIs(c: Cpu, i: Instr)
    requires i.Abx? || i.Sex? || i.Adjust? || i.MultiplyAB?
    ensures ExecuteOther(c, i)
            == if i.Abx? then DoAbx(c) else if i.Sex? then DoSex(c) else if i.Adjust? then DoAdjust(c) else DoMultiply(c)
  {
    hide DoAbx, DoSex, DoAdjust, DoMultiply;
  }
}
