/**
  Interrupts of the 6809 core, one at a time: the frame that goes on the stack is the one its
  own E bit says it is, and RTI takes it off again and gives everything back.
 */
module M6809Interrupts {
  import opened M6809Word
  import opened M6809
  import M6809Same
  import M6809Flags

  // ---------- memory ----------

  function Cell(device: (seq<Event>, Word) -> Word, log: seq<Event>, addr: Word): (data: Word)
  {
    Answer(Bus(device, log), addr)
  }

  function Next(device: (seq<Event>, Word) -> Word, log: seq<Event>, e: Event, addr: Word): (data: Word)
  {
    Cell(device, log + [e], addr)
  }

  /** An address of read-write memory, whatever else the bus has on it: a read returns what was
      last written there. */
  ghost predicate IsRam(device: (seq<Event>, Word) -> Word, addr: Word)
  {
    forall log, e :: Next(device, log, e, addr) == if e.Stored? && e.addr == addr then Low8(e.data) else Cell(device, log, addr)
  }

  // ---------- the stack ----------

  // The address p is not one of the n from sp on.
  predicate Apart(p: Word, sp: Word, n: nat)
    decreases n
  {
    n == 0 || (Low16(p) != Low16(sp) && Apart(p, Plus(sp, 1), n - 1))
  }

  // The n bytes from sp on are memory, and no two of them the same.
  ghost predicate Live(device: (seq<Event>, Word) -> Word, sp: Word, n: nat)
    decreases n
  {
    n == 0 || (IsRam(device, Low16(sp)) && Apart(sp, Plus(sp, 1), n - 1) && Live(device, Plus(sp, 1), n - 1))
  }

  // There is memory for m more bytes below, clear of the n that are live.
  ghost predicate Room(device: (seq<Event>, Word) -> Word, sp: Word, n: nat, m: nat)
    decreases m
  {
    m == 0 ||
    (IsRam(device, Low16(Less(sp, 1))) && Apart(Less(sp, 1), sp, n) && Room(device, Less(sp, 1), n + 1, m - 1))
  }

  function StackBytes(bus: Bus, sp: Word, n: nat): (bytes: seq<Word>)
    ensures |bytes| == n
    decreases n
  {
    if n == 0 then [] else [Answer(bus, Low16(sp))] + StackBytes(bus, Plus(sp, 1), n - 1)
  }

  function Up(w: Word, n: nat): (r: Word)
    decreases n
  {
    if n == 0 then w else Up(Plus(w, 1), n - 1)
  }

  /** S points that many bytes below the base, modulo sixteen bits; they are memory and hold
      these bytes, and there is memory for m more. */
  ghost predicate Stacked(c: Cpu, bytes: seq<Word>, m: nat, base: Word)
  {
    && Live(c.bus.device, c.s, |bytes|) && StackBytes(c.bus, c.s, |bytes|) == bytes
    && Room(c.bus.device, c.s, |bytes|, m) && Same16(Up(c.s, |bytes|), base)
  }

  // The same device, and the same registers but for S.
  ghost predicate OnlyStack(c: Cpu, c': Cpu)
  {
    c' == c.(s := c'.s, bus := c'.bus, cycles := c'.cycles) && c'.bus.device == c.bus.device
  }

  // ---------- one access ----------

  lemma LowLow(w: Word)
    ensures Low8(Low8(w)) == Low8(w)
  {
  }

  lemma {:induction false} StoreElsewhere(bus: Bus, sp: Word, n: nat, p: Word, data: Word)
    requires Live(bus.device, sp, n) && Apart(p, sp, n)
    ensures StackBytes(bus.(log := bus.log + [Stored(Low16(p), data)]), sp, n) == StackBytes(bus, sp, n)
    decreases n
  {
    hide Low16, Low8, Plus, Answer;
    if n > 0 {
      StoreElsewhere(bus, Plus(sp, 1), n - 1, p, data);
      CellIs(bus, Stored(Low16(p), data), Low16(sp));
    }
  }

  lemma CellIs(bus: Bus, e: Event, addr: Word)
    requires IsRam(bus.device, addr)
    ensures Answer(bus.(log := bus.log + [e]), addr)
            == if e.Stored? && e.addr == addr then Low8(e.data) else Answer(bus, addr)
  {
    hide Answer, Low8;
    assert bus == Bus(bus.device, bus.log);
    assert bus.(log := bus.log + [e]) == Bus(bus.device, bus.log + [e]);
    assert Next(bus.device, bus.log, e, addr) == Cell(bus.device, bus.log + [e], addr);
  }

  lemma {:induction false} FetchKeeps(bus: Bus, sp: Word, n: nat, p: Word)
    requires Live(bus.device, sp, n)
    ensures StackBytes(bus.(log := bus.log + [Fetched(p)]), sp, n) == StackBytes(bus, sp, n)
    decreases n
  {
    hide Low16, Low8, Plus, Answer, Apart;
    if n > 0 {
      FetchKeeps(bus, Plus(sp, 1), n - 1, p);
      CellIs(bus, Fetched(p), Low16(sp));
    }
  }

  lemma BackUp(x: bv32)
    ensures Add(Subtract(x, 1), 1, 0) == x
    ensures Subtract(Add(x, 1, 0), 1) == x
  {
  }

  lemma PlusLess(w: Word)
    ensures Plus(Less(w, 1), 1) == w && Less(Plus(w, 1), 1) == w
  {
    hide Add, Subtract;
    BackUp(w.v);
  }

  // Nothing but S and the bus is looked at.
  lemma StackedOnly(c: Cpu, d: Cpu, bytes: seq<Word>, m: nat, base: Word)
    requires Stacked(c, bytes, m, base) && d.s == c.s && d.bus == c.bus
    ensures Stacked(d, bytes, m, base)
  {
  }

  // ---------- pushing ----------

  lemma Push8Stacks(c: Cpu, data: Word, bytes: seq<Word>, m: nat, base: Word)
    requires Stacked(c, bytes, m + 1, base)
    ensures var c' := Push8(c, RS, data);
            Stacked(c', [Low8(data)] + bytes, m, base) && OnlyStack(c, c')
  {
    hide IsRam, Apart, Low8, Low16, Plus, Less, Answer, Same16;
    var sp := Less(c.s, 1);
    var n := |bytes|;
    PlusLess(c.s);
    var bus := c.bus.(log := c.bus.log + [Stored(Low16(sp), Low8(data))]);
    StoreElsewhere(c.bus, c.s, n, sp, Low8(data));
    CellIs(c.bus, Stored(Low16(sp), Low8(data)), Low16(sp));
    LowLow(data);
    assert StackBytes(bus, sp, n + 1) == [Answer(bus, Low16(sp))] + StackBytes(bus, c.s, n);
    assert Up(sp, n + 1) == Up(c.s, n);
    assert |[Low8(data)] + bytes| == n + 1;
  }

  // The two bytes of a word as they lie on the stack, high byte first.
  function Two(w: Word): (bytes: seq<Word>)
  {
    [Low8(Down8(w)), Low8(w)]
  }

  lemma PushWordStacks(c: Cpu, w: Word, bytes: seq<Word>, m: nat, base: Word)
    requires Stacked(c, bytes, m + 2, base)
    ensures var c' := PushWord(c, RS, true, w);
            Stacked(c', Two(w) + bytes, m, base) && OnlyStack(c, c')
  {
    hide Push8, Stacked, Low8, Down8;
    Push8Stacks(c, w, bytes, m + 1, base);
    var c1 := Push8(c, RS, w);
    Push8Stacks(c1, Down8(w), [Low8(w)] + bytes, m, base);
    assert [Low8(Down8(w))] + ([Low8(w)] + bytes) == Two(w) + bytes;
    var c2 := Push8(c1, RS, Down8(w));
    StackedOnly(c2, Tick(c2, 2), Two(w) + bytes, m, base);
  }

  lemma PushByteStacks(c: Cpu, w: Word, bytes: seq<Word>, m: nat, base: Word)
    requires Stacked(c, bytes, m + 1, base)
    ensures var c' := PushByte(c, RS, true, w);
            Stacked(c', [Low8(w)] + bytes, m, base) && OnlyStack(c, c')
  {
    hide Push8, Stacked, Low8;
    Push8Stacks(c, w, bytes, m, base);
    StackedOnly(Push8(c, RS, w), Tick(Push8(c, RS, w), 1), [Low8(w)] + bytes, m, base);
  }

  // Everything, on top of what is there.
  function Entire(c: Cpu, bytes: seq<Word>): (r: seq<Word>)
    ensures |r| == 12 + |bytes|
  {
    [Low8(c.cc)] + ([Low8(c.a)] + ([Low8(c.b)] + ([Low8(c.dp)] + (Two(c.x) + (Two(c.y) + (Two(c.u) + (Two(c.pc) + bytes)))))))
  }

  // The codes and the program counter only.
  function Fast(c: Cpu, bytes: seq<Word>): (r: seq<Word>)
    ensures |r| == 3 + |bytes|
  {
    [Low8(c.cc)] + (Two(c.pc) + bytes)
  }

  lemma ListsAll()
    ensures Lists(Word(0xff), 0x80) && Lists(Word(0xff), 0x40) && Lists(Word(0xff), 0x20) && Lists(Word(0xff), 0x10)
    ensures Lists(Word(0xff), 0x08) && Lists(Word(0xff), 0x04) && Lists(Word(0xff), 0x02) && Lists(Word(0xff), 0x01)
  {
  }

  lemma ListsFast()
    ensures Lists(Word(0x81), 0x80) && Lists(Word(0x81), 0x01)
    ensures !Lists(Word(0x81), 0x40) && !Lists(Word(0x81), 0x20) && !Lists(Word(0x81), 0x10)
    ensures !Lists(Word(0x81), 0x08) && !Lists(Word(0x81), 0x04) && !Lists(Word(0x81), 0x02)
  {
  }

  lemma OnlyStackTransitive(a: Cpu, b: Cpu, c: Cpu)
    requires OnlyStack(a, b) && OnlyStack(b, c)
    ensures OnlyStack(a, c)
  {
  }

  // The words of an entire frame.
  lemma PushWordsStack(c: Cpu, k: Cpu, bytes: seq<Word>, m: nat, base: Word)
    requires Stacked(c, bytes, m + 8, base)
    ensures var c4 := PushWord(PushWord(PushWord(PushWord(c, RS, true, k.pc), RS, true, k.u), RS, true, k.y), RS, true, k.x);
            Stacked(c4, Two(k.x) + (Two(k.y) + (Two(k.u) + (Two(k.pc) + bytes))), m, base) && OnlyStack(c, c4)
  {
    hide PushWord, Stacked, Two, OnlyStack;
    var b1 := Two(k.pc) + bytes;
    PushWordStacks(c, k.pc, bytes, m + 6, base);
    var c1 := PushWord(c, RS, true, k.pc);
    PushWordStacks(c1, k.u, b1, m + 4, base);
    var c2 := PushWord(c1, RS, true, k.u);
    PushWordStacks(c2, k.y, Two(k.u) + b1, m + 2, base);
    var c3 := PushWord(c2, RS, true, k.y);
    PushWordStacks(c3, k.x, Two(k.y) + (Two(k.u) + b1), m, base);
    OnlyStackTransitive(c, c1, c2);
    OnlyStackTransitive(c, c2, c3);
    OnlyStackTransitive(c, c3, PushWord(c3, RS, true, k.x));
  }

  // Its bytes.
  lemma PushBytesStack(c: Cpu, k: Cpu, bytes: seq<Word>, m: nat, base: Word)
    requires Stacked(c, bytes, m + 4, base)
    ensures var c4 := PushByte(PushByte(PushByte(PushByte(c, RS, true, k.dp), RS, true, k.b), RS, true, k.a), RS, true, k.cc);
            Stacked(c4, [Low8(k.cc)] + ([Low8(k.a)] + ([Low8(k.b)] + ([Low8(k.dp)] + bytes))), m, base) && OnlyStack(c, c4)
  {
    hide PushByte, Stacked, Low8, OnlyStack;
    var b1 := [Low8(k.dp)] + bytes;
    PushByteStacks(c, k.dp, bytes, m + 3, base);
    var c1 := PushByte(c, RS, true, k.dp);
    PushByteStacks(c1, k.b, b1, m + 2, base);
    var c2 := PushByte(c1, RS, true, k.b);
    PushByteStacks(c2, k.a, [Low8(k.b)] + b1, m + 1, base);
    var c3 := PushByte(c2, RS, true, k.a);
    PushByteStacks(c3, k.cc, [Low8(k.a)] + ([Low8(k.b)] + b1), m, base);
    OnlyStackTransitive(c, c1, c2);
    OnlyStackTransitive(c, c2, c3);
    OnlyStackTransitive(c, c3, PushByte(c3, RS, true, k.cc));
  }

  lemma PushAllStacks(c: Cpu, bytes: seq<Word>, m: nat, base: Word)
    requires Stacked(c, bytes, m + 12, base)
    ensures var c' := PushList(c, Word(0xff), RS);
            Stacked(c', Entire(c, bytes), m, base) && OnlyStack(c, c')
  {
    hide PushWord, PushByte, Stacked, Two, Low8, Lists, OnlyStack;
    ListsAll();
    PushWordsStack(c, c, bytes, m + 4, base);
    var c4 := PushWord(PushWord(PushWord(PushWord(c, RS, true, c.pc), RS, true, c.u), RS, true, c.y), RS, true, c.x);
    var b4 := Two(c.x) + (Two(c.y) + (Two(c.u) + (Two(c.pc) + bytes)));
    PushBytesStack(c4, c, b4, m, base);
    OnlyStackTransitive(c, c4, PushList(c, Word(0xff), RS));
  }

  lemma PushFewStacks(c: Cpu, bytes: seq<Word>, m: nat, base: Word)
    requires Stacked(c, bytes, m + 3, base)
    ensures var c' := PushList(c, Word(0x81), RS);
            Stacked(c', Fast(c, bytes), m, base) && OnlyStack(c, c')
  {
    hide Push16, Push8, Stacked, Two, Low8, Lists, OnlyStack;
    ListsFast();
    PushWordStacks(c, c.pc, bytes, m + 1, base);
    var c1 := PushWord(c, RS, true, c.pc);
    PushByteStacks(c1, c.cc, Two(c.pc) + bytes, m, base);
    OnlyStackTransitive(c, c1, PushByte(c1, RS, true, c.cc));
  }

  // ---------- pulling ----------

  lemma Pull8Unstacks(c: Cpu, v: Word, bytes: seq<Word>, m: nat, base: Word)
    requires Stacked(c, [v] + bytes, m, base)
    ensures var (c', data) := Pull8(c, RS);
            data == v && Stacked(c', bytes, m + 1, base) && OnlyStack(c, c') && c'.cycles == c.cycles
  {
    hide IsRam, Apart, Low16, Plus, Less, Answer, Same16;
    var n := |bytes|;
    var sp := Plus(c.s, 1);
    PlusLess(c.s);
    assert |[v] + bytes| == n + 1;
    assert ([v] + bytes)[0] == v && ([v] + bytes)[1..] == bytes;
    assert StackBytes(c.bus, c.s, n + 1)[1..] == StackBytes(c.bus, sp, n);
    FetchKeeps(c.bus, sp, n, Low16(c.s));
  }

  lemma JoinedBytes(x: bv32)
    ensures Equal16(Beside((x >> 8) & 0xff, x & 0xff), x)
  {
  }

  lemma JoinTwo(w: Word)
    ensures Same16(Join(Two(w)[0], Two(w)[1]), w)
  {
    hide Beside, Equal16;
    JoinedBytes(w.v);
  }

  lemma Pull16Unstacks(c: Cpu, w: Word, bytes: seq<Word>, m: nat, base: Word)
    requires Stacked(c, Two(w) + bytes, m, base)
    ensures var (c', data) := Pull16(c, RS);
            Same16(data, w) && Stacked(c', bytes, m + 2, base) && OnlyStack(c, c') && c'.cycles == c.cycles
  {
    hide Pull8, Stacked, Low8, Down8, Join, Same16;
    assert Two(w) + bytes == [Two(w)[0]] + ([Two(w)[1]] + bytes);
    Pull8Unstacks(c, Two(w)[0], [Two(w)[1]] + bytes, m, base);
    Pull8Unstacks(Pull8(c, RS).0, Two(w)[1], bytes, m + 1, base);
    JoinTwo(w);
  }

  // What a frame gives back: the bits a register has.
  ghost predicate GivesBack(c: Cpu, k: Cpu)
  {
    && Same8(c.a, k.a) && Same8(c.b, k.b) && Same8(c.dp, k.dp)
    && Same16(c.x, k.x) && Same16(c.y, k.y) && Same16(c.u, k.u) && Same16(c.pc, k.pc)
  }

  lemma LowSame(w: Word)
    ensures Same8(Low8(w), w)
  {
  }

  lemma ListsRest()
    ensures !Lists(Word(0xfe), 0x01)
    ensures Lists(Word(0xfe), 0x80) && Lists(Word(0xfe), 0x40) && Lists(Word(0xfe), 0x20) && Lists(Word(0xfe), 0x10)
    ensures Lists(Word(0xfe), 0x08) && Lists(Word(0xfe), 0x04) && Lists(Word(0xfe), 0x02)
  {
  }

  lemma ListsPc()
    ensures Lists(Word(0x80), 0x80)
    ensures !Lists(Word(0x80), 0x40) && !Lists(Word(0x80), 0x20) && !Lists(Word(0x80), 0x10)
    ensures !Lists(Word(0x80), 0x08) && !Lists(Word(0x80), 0x04) && !Lists(Word(0x80), 0x02) && !Lists(Word(0x80), 0x01)
  {
  }

  // The three bytes after the codes.
  lemma PullBytesUnstack(c: Cpu, k: Cpu, bytes: seq<Word>, m: nat, base: Word)
    requires Stacked(c, [Low8(k.a)] + ([Low8(k.b)] + ([Low8(k.dp)] + bytes)), m, base)
    ensures var c' := PullDp(PullB(PullA(c, RS, true), RS, true), RS, true);
            && Stacked(c', bytes, m + 3, base) && c'.bus.device == c.bus.device
            && c' == c.(a := Low8(k.a), b := Low8(k.b), dp := Low8(k.dp), s := c'.s, bus := c'.bus, cycles := c'.cycles)
  {
    hide Pull8, Stacked, Low8;
    var b2, b3 := [Low8(k.b)] + ([Low8(k.dp)] + bytes), [Low8(k.dp)] + bytes;
    Pull8Unstacks(c, Low8(k.a), b2, m, base);
    var c1 := PullA(c, RS, true);
    StackedOnly(Pull8(c, RS).0, c1, b2, m + 1, base);
    Pull8Unstacks(c1, Low8(k.b), b3, m + 1, base);
    var c2 := PullB(c1, RS, true);
    StackedOnly(Pull8(c1, RS).0, c2, b3, m + 2, base);
    Pull8Unstacks(c2, Low8(k.dp), bytes, m + 2, base);
    StackedOnly(Pull8(c2, RS).0, PullDp(c2, RS, true), bytes, m + 3, base);
  }

  lemma PullRegUnstacks(c: Cpu, r: Reg, w: Word, bytes: seq<Word>, m: nat, base: Word)
    requires Stacked(c, Two(w) + bytes, m, base) && (r == RX || r == RY || r == RU)
    ensures var c' := PullReg(c, RS, true, r);
            && Stacked(c', bytes, m + 2, base) && c'.bus.device == c.bus.device && Same16(Get(c', r), w)
            && c' == Set(c, r, Get(c', r)).(s := c'.s, bus := c'.bus, cycles := c'.cycles)
  {
    hide Pull16, Stacked, Two, Same16;
    Pull16Unstacks(c, w, bytes, m, base);
    StackedOnly(Pull16(c, RS).0, PullReg(c, RS, true, r), bytes, m + 2, base);
  }

  lemma PullPcUnstacks(c: Cpu, w: Word, bytes: seq<Word>, m: nat, base: Word)
    requires Stacked(c, Two(w) + bytes, m, base)
    ensures var c' := PullPc(c, RS, true);
            && Stacked(c', bytes, m + 2, base) && c'.bus.device == c.bus.device && Same16(c'.pc, w)
            && c' == c.(pc := c'.pc, s := c'.s, bus := c'.bus, cycles := c'.cycles)
  {
    hide Pull16, Stacked, Two, Same16;
    Pull16Unstacks(c, w, bytes, m, base);
    StackedOnly(Pull16(c, RS).0, PullPc(c, RS, true), bytes, m + 2, base);
  }

  lemma PullWordsUnstack(c: Cpu, k: Cpu, bytes: seq<Word>, m: nat, base: Word)
    requires Stacked(c, Two(k.x) + (Two(k.y) + (Two(k.u) + (Two(k.pc) + bytes))), m, base)
    ensures var c' := PullPc(PullReg(PullReg(PullReg(c, RS, true, RX), RS, true, RY), RS, true, RU), RS, true);
            && Stacked(c', bytes, m + 8, base) && c'.bus.device == c.bus.device
            && Same16(c'.x, k.x) && Same16(c'.y, k.y) && Same16(c'.u, k.u) && Same16(c'.pc, k.pc)
            && c' == c.(x := c'.x, y := c'.y, u := c'.u, pc := c'.pc, s := c'.s, bus := c'.bus, cycles := c'.cycles)
  {
    hide PullReg, PullPc, Stacked, Two, Same16;
    PullRegUnstacks(c, RX, k.x, Two(k.y) + (Two(k.u) + (Two(k.pc) + bytes)), m, base);
    var c1 := PullReg(c, RS, true, RX);
    PullRegUnstacks(c1, RY, k.y, Two(k.u) + (Two(k.pc) + bytes), m + 2, base);
    var c2 := PullReg(c1, RS, true, RY);
    PullRegUnstacks(c2, RU, k.u, Two(k.pc) + bytes, m + 4, base);
    PullPcUnstacks(PullReg(c2, RS, true, RU), k.pc, bytes, m + 6, base);
  }

  // All but the codes.
  lemma PullRestUnstacks(c: Cpu, k: Cpu, bytes: seq<Word>, m: nat, base: Word)
    requires Stacked(c, [Low8(k.a)] + ([Low8(k.b)] + ([Low8(k.dp)] + (Two(k.x) + (Two(k.y) + (Two(k.u) + (Two(k.pc) + bytes)))))), m, base)
    ensures var c' := PullList(c, Word(0xfe), RS);
            Stacked(c', bytes, m + 11, base) && c'.bus.device == c.bus.device && GivesBack(c', k) && c'.cc == c.cc && c'.status == c.status
  {
    hide PullA, PullB, PullDp, PullReg, PullPc, Stacked, Two, Low8, Lists, Same8, Same16;
    ListsRest();
    var words := Two(k.x) + (Two(k.y) + (Two(k.u) + (Two(k.pc) + bytes)));
    PullBytesUnstack(c, k, words, m, base);
    var c4 := PullDp(PullB(PullA(c, RS, true), RS, true), RS, true);
    PullWordsUnstack(c4, k, bytes, m + 3, base);
    LowSame(k.a);
    LowSame(k.b);
    LowSame(k.dp);
  }

  lemma SetIsSeen(cc: Word, v: Bit)
    ensures GetCc(Low8(SetCc(cc, E, v)), E) == v
  {
    hide GetCc, SetCc, Same8, Low8;
    LowSame(SetCc(cc, E, v));
    M6809Same.GetCcSame(Low8(SetCc(cc, E, v)), SetCc(cc, E, v), E);
    M6809Flags.SetGet(cc, E, v, E);
  }

  /** RTI from an entire frame gives every register back. */
  lemma ReturnFromEntire(c: Cpu, k: Cpu, bytes: seq<Word>, m: nat, base: Word)
    requires Stacked(c, Entire(k, bytes), m, base) && GetCc(Low8(k.cc), E) == 1
    ensures var c' := DoReturnFromInterrupt(c);
            && Stacked(c', bytes, m + 12, base) && c'.bus.device == c.bus.device && GivesBack(c', k)
            && c'.cc == Low8(k.cc) && c'.status == c.status
  {
    hide Pull8, PullList, Stacked, Two, Low8, GetCc, GivesBack;
    var rest := [Low8(k.a)] + ([Low8(k.b)] + ([Low8(k.dp)] + (Two(k.x) + (Two(k.y) + (Two(k.u) + (Two(k.pc) + bytes))))));
    Pull8Unstacks(c, Low8(k.cc), rest, m, base);
    var (c1, codes) := Pull8(c, RS);
    var c2 := Tick(c1.(cc := codes), 1);
    StackedOnly(c1, c2, rest, m + 1, base);
    PullRestUnstacks(c2, k, bytes, m + 1, base);
    var c3 := PullList(c2, Word(0xfe), RS);
    StackedOnly(c3, Tick(c3, 3), bytes, m + 12, base);
    BackOnly(c3, Tick(c3, 3), k);
  }

  lemma BackOnly(c: Cpu, d: Cpu, k: Cpu)
    requires GivesBack(c, k) && d == c.(cycles := d.cycles)
    ensures GivesBack(d, k)
  {
    hide Same8, Same16;
  }

  /** RTI from a fast frame gives back the codes and the program counter, and touches no more. */
  lemma ReturnFromFast(c: Cpu, k: Cpu, bytes: seq<Word>, m: nat, base: Word)
    requires Stacked(c, Fast(k, bytes), m, base) && GetCc(Low8(k.cc), E) == 0
    ensures var c' := DoReturnFromInterrupt(c);
            && Stacked(c', bytes, m + 3, base) && c'.bus.device == c.bus.device
            && Same16(c'.pc, k.pc) && c'.cc == Low8(k.cc)
            && c' == c.(cc := c'.cc, pc := c'.pc, s := c'.s, bus := c'.bus, cycles := c'.cycles)
  {
    hide Pull8, Pull16, Stacked, Two, Low8, GetCc, Lists, Same16;
    ListsPc();
    Pull8Unstacks(c, Low8(k.cc), Two(k.pc) + bytes, m, base);
    var (c1, codes) := Pull8(c, RS);
    var c2 := Tick(c1.(cc := codes), 1);
    StackedOnly(c1, c2, Two(k.pc) + bytes, m + 1, base);
    PullPcUnstacks(c2, k.pc, bytes, m + 1, base);
    var c3 := PullPc(c2, RS, true);
    StackedOnly(c3, Tick(c3, 3), bytes, m + 3, base);
  }

  // ---------- entering ----------

  lemma Read8Stacks(c: Cpu, p: Word, bytes: seq<Word>, m: nat, base: Word)
    requires Stacked(c, bytes, m, base)
    ensures Stacked(Read8(c, p).0, bytes, m, base)
  {
    hide Live, Room, Up, Answer, Low16;
    FetchKeeps(c.bus, c.s, |bytes|, Low16(p));
  }

  lemma VectorStacks(c: Cpu, at: bv32, bytes: seq<Word>, m: nat, base: Word)
    requires Stacked(c, bytes, m, base)
    ensures var c' := Vector(c, at);
            Stacked(c', bytes, m, base) && c' == c.(pc := c'.pc, bus := c'.bus) && c'.bus.device == c.bus.device
  {
    hide Stacked, Plus, Join, Answer, Low16;
    var c1 := Read8(c, Word(at)).0;
    Read8Stacks(c, Word(at), bytes, m, base);
    Read8Stacks(c1, Plus(Word(at), 1), bytes, m, base);
    StackedOnly(Read8(c1, Plus(Word(at), 1)).0, Vector(c, at), bytes, m, base);
  }

  // The ways an interrupt is entered: from outside, by an instruction, or after waiting for it.
  datatype Entry = Hardware(irq: bool, firq: bool) | Software(k: nat) | Waiting(irq: bool, firq: bool)

  predicate FastDelivered(c: Cpu, firq: bool)
  {
    firq && GetCc(c.cc, F) == 0
  }

  predicate Delivered(c: Cpu, irq: bool, firq: bool)
  {
    FastDelivered(c, firq) || (irq && GetCc(c.cc, I) == 0)
  }

  // An interrupt asked for is let through.
  predicate Taken(c: Cpu, e: Entry)
  {
    match e
    case Hardware(irq, firq) => c.status != CWAI && Delivered(c, irq, firq)
    case Software(k) => 1 <= k <= 3
    case Waiting(irq, firq) => Delivered(DoWait(c), irq, firq)
  }

  function Enter(c: Cpu, e: Entry): (c': Cpu)
  {
    match e
    case Hardware(irq, firq) => Interrupts(c, irq, firq)
    case Software(k) => DoSoftware(c, k)
    case Waiting(irq, firq) => Interrupts(DoWait(c), irq, firq)
  }

  // The registers that are pushed: for CWAI, after its operand has been read and masked in.
  function Waiter(c: Cpu): (k: Cpu)
  {
    var (c1, data) := PcRead8(c);
    c1.(cc := And(c1.cc, data))
  }

  predicate IsFast(c: Cpu, e: Entry)
  {
    e.Hardware? && FastDelivered(c, e.firq)
  }

  function Pushed(c: Cpu, e: Entry): (k: Cpu)
  {
    if e.Waiting? then WithCode(Waiter(c), E, 1) else WithCode(c, E, if IsFast(c, e) then 0 else 1)
  }

  function FrameSize(c: Cpu, e: Entry): (n: nat)
  {
    if IsFast(c, e) then 3 else 12
  }

  function FrameOn(c: Cpu, e: Entry, bytes: seq<Word>): (r: seq<Word>)
    ensures |r| == FrameSize(c, e) + |bytes|
  {
    if IsFast(c, e) then Fast(Pushed(c, e), bytes) else Entire(Pushed(c, e), bytes)
  }

  lemma PushEntireStacks(c: Cpu, bytes: seq<Word>, m: nat, base: Word)
    requires Stacked(c, bytes, m + 12, base)
    ensures var c' := PushEntire(c);
            Stacked(c', Entire(WithCode(c, E, 1), bytes), m, base) && OnlyStack(WithCode(c, E, 1), c')
  {
    hide Stacked, SetCc, PushList, Entire, OnlyStack;
    StackedOnly(c, WithCode(c, E, 1), bytes, m + 12, base);
    PushAllStacks(WithCode(c, E, 1), bytes, m, base);
  }

  lemma PushFastStacks(c: Cpu, bytes: seq<Word>, m: nat, base: Word)
    requires Stacked(c, bytes, m + 3, base)
    ensures var c' := PushFast(c);
            Stacked(c', Fast(WithCode(c, E, 0), bytes), m, base) && OnlyStack(WithCode(c, E, 0), c')
  {
    hide Stacked, SetCc, PushList, Fast, OnlyStack;
    StackedOnly(c, WithCode(c, E, 0), bytes, m + 3, base);
    PushFewStacks(WithCode(c, E, 0), bytes, m, base);
  }

  // Masks and the vector, once the frame is there.
  lemma ArriveFast(c: Cpu, bytes: seq<Word>, m: nat, base: Word)
    requires Stacked(c, bytes, m, base)
    ensures var c' := Tick(Vector(WithCode(WithCode(c, I, 1), F, 1), 0xfff6).(status := NORMAL), 7);
            Stacked(c', bytes, m, base) && c'.bus.device == c.bus.device && c'.status == NORMAL && GetCc(c'.cc, I) == 1
  {
    hide Stacked, SetCc, GetCc, Vector;
    var c1 := WithCode(WithCode(c, I, 1), F, 1);
    StackedOnly(c, c1, bytes, m, base);
    VectorStacks(c1, 0xfff6, bytes, m, base);
    StackedOnly(Vector(c1, 0xfff6), Tick(Vector(c1, 0xfff6).(status := NORMAL), 7), bytes, m, base);
    M6809Flags.SetGet(c.cc, I, 1, I);
    M6809Flags.SetGet(SetCc(c.cc, I, 1), F, 1, I);
  }

  lemma Arrive(c: Cpu, bytes: seq<Word>, m: nat, base: Word)
    requires Stacked(c, bytes, m, base)
    ensures var c' := Tick(Vector(WithCode(c, I, 1), 0xfff8).(status := NORMAL), 7);
            Stacked(c', bytes, m, base) && c'.bus.device == c.bus.device
  {
    hide Stacked, SetCc, Vector;
    var c1 := WithCode(c, I, 1);
    StackedOnly(c, c1, bytes, m, base);
    VectorStacks(c1, 0xfff8, bytes, m, base);
    StackedOnly(Vector(c1, 0xfff8), Tick(Vector(c1, 0xfff8).(status := NORMAL), 7), bytes, m, base);
  }

  // A fast interrupt masks the other, which has to wait.
  lemma FastFirst(c: Cpu, irq: bool, firq: bool)
    requires FastDelivered(c, firq) && FastInterrupt(c).status == NORMAL && GetCc(FastInterrupt(c).cc, I) == 1
    ensures Interrupts(c, irq, firq) == FastInterrupt(c)
  {
    hide GetCc, FastInterrupt, Interrupt;
  }

  lemma HardwareStacks(c: Cpu, irq: bool, firq: bool, bytes: seq<Word>, m: nat, base: Word)
    requires Stacked(c, bytes, m, base) && m >= 12 && Taken(c, Hardware(irq, firq))
    ensures var e := Hardware(irq, firq);
            var c' := Enter(c, e);
            Stacked(c', FrameOn(c, e, bytes), m - FrameSize(c, e), base) && c'.bus.device == c.bus.device
  {
    hide Stacked, GetCc, SetCc, Entire, Fast, Vector, PushEntire, PushFast, OnlyStack;
    if FastDelivered(c, firq) {
      PushFastStacks(c, bytes, m - 3, base);
      SameDevice(WithCode(c, E, 0), PushFast(c));
      ArriveFast(PushFast(c), Fast(WithCode(c, E, 0), bytes), m - 3, base);
      FastFirst(c, irq, firq);
    } else {
      var c1 := if firq then Resynced(c) else c;
      StackedOnly(c, c1, bytes, m, base);
      PushEntireStacks(c1, bytes, m - 12, base);
      SameDevice(WithCode(c1, E, 1), PushEntire(c1));
      EntireOf(WithCode(c, E, 1), WithCode(c1, E, 1), bytes);
      Arrive(PushEntire(c1), Entire(WithCode(c1, E, 1), bytes), m - 12, base);
    }
  }

  lemma SameDevice(c: Cpu, c': Cpu)
    requires OnlyStack(c, c')
    ensures c'.bus.device == c.bus.device
  {
  }

  lemma EntireOf(c: Cpu, d: Cpu, bytes: seq<Word>)
    requires d == c.(status := d.status)
    ensures Entire(d, bytes) == Entire(c, bytes)
  {
  }

  lemma SoftwareStacks(c: Cpu, k: nat, bytes: seq<Word>, m: nat, base: Word)
    requires Stacked(c, bytes, m, base) && m >= 12
    ensures var e := Software(k);
            var c' := Enter(c, e);
            Stacked(c', FrameOn(c, e, bytes), m - 12, base) && c'.bus.device == c.bus.device
  {
    hide Stacked, SetCc, Entire, Vector, PushEntire, OnlyStack;
    PushEntireStacks(c, bytes, m - 12, base);
    var c1 := PushEntire(c);
    var frame := Entire(WithCode(c, E, 1), bytes);
    SameDevice(WithCode(c, E, 1), c1);
    var c2 := WithCode(WithCode(c1, I, 1), F, 1);
    StackedOnly(c1, c2, frame, m - 12, base);
    VectorStacks(c2, 0xfffa, frame, m - 12, base);
    VectorStacks(c1, 0xfff4, frame, m - 12, base);
    VectorStacks(c1, 0xfff2, frame, m - 12, base);
    StackedOnly(Vector(c2, 0xfffa), Tick(Vector(c2, 0xfffa), 7), frame, m - 12, base);
    StackedOnly(Vector(c1, 0xfff4), Tick(Vector(c1, 0xfff4), 8), frame, m - 12, base);
    StackedOnly(Vector(c1, 0xfff2), Tick(Vector(c1, 0xfff2), 8), frame, m - 12, base);
  }

  lemma WaiterStacks(c: Cpu, bytes: seq<Word>, m: nat, base: Word)
    requires Stacked(c, bytes, m, base)
    ensures Stacked(Waiter(c), bytes, m, base) && Waiter(c).bus.device == c.bus.device
  {
    hide Stacked, Plus, And, Answer, Low16;
    Read8Stacks(c, c.pc, bytes, m, base);
    StackedOnly(Read8(c, c.pc).0, Waiter(c), bytes, m, base);
  }

  lemma WaitStacks(c: Cpu, bytes: seq<Word>, m: nat, base: Word)
    requires Stacked(c, bytes, m, base) && m >= 12
    ensures var c' := DoWait(c);
            Stacked(c', Entire(WithCode(Waiter(c), E, 1), bytes), m - 12, base) && c'.bus.device == c.bus.device && c'.status == CWAI
  {
    hide Stacked, SetCc, Entire, PushEntire, OnlyStack, PcRead8, And;
    WaiterStacks(c, bytes, m, base);
    PushEntireStacks(Waiter(c), bytes, m - 12, base);
    SameDevice(WithCode(Waiter(c), E, 1), PushEntire(Waiter(c)));
    StackedOnly(PushEntire(Waiter(c)), DoWait(c), Entire(WithCode(Waiter(c), E, 1), bytes), m - 12, base);
  }

  // The interrupt that ends the wait finds everything pushed already, even if it is a fast one.
  lemma WaitingStacks(c: Cpu, irq: bool, firq: bool, bytes: seq<Word>, m: nat, base: Word)
    requires Stacked(c, bytes, m, base) && m >= 12 && Taken(c, Waiting(irq, firq))
    ensures var e := Waiting(irq, firq);
            var c' := Enter(c, e);
            Stacked(c', FrameOn(c, e, bytes), m - 12, base) && c'.bus.device == c.bus.device
  {
    hide Stacked, GetCc, SetCc, Entire, Vector, PushEntire, PushFast, DoWait, Waiter;
    WaitStacks(c, bytes, m, base);
    var d := DoWait(c);
    var frame := Entire(WithCode(Waiter(c), E, 1), bytes);
    if FastDelivered(d, firq) {
      ArriveFast(d, frame, m - 12, base);
      FastFirst(d, irq, firq);
    } else {
      Arrive(d, frame, m - 12, base);
    }
  }

  // However it is entered, a frame is on the stack.
  lemma EnterStacks(c: Cpu, e: Entry, bytes: seq<Word>, m: nat, base: Word)
    requires Stacked(c, bytes, m, base) && m >= 12 && Taken(c, e)
    ensures Stacked(Enter(c, e), FrameOn(c, e, bytes), m - FrameSize(c, e), base)
    ensures Enter(c, e).bus.device == c.bus.device
  {
    hide Stacked, Enter, FrameOn, Taken;
    match e
    case Hardware(irq, firq) => HardwareStacks(c, irq, firq, bytes, m, base);
    case Software(k) => SoftwareStacks(c, k, bytes, m, base);
    case Waiting(irq, firq) => WaitingStacks(c, irq, firq, bytes, m, base);
  }

  /** The frame is the size its own E bit says. */
  lemma FrameMatchesE(c: Cpu, e: Entry, bytes: seq<Word>)
    ensures var frame := FrameOn(c, e, bytes);
            && GetCc(frame[0], E) == (if IsFast(c, e) then 0 else 1) && frame[0] == Low8(Pushed(c, e).cc)
            && |frame| - |bytes| == if GetCc(frame[0], E) == 1 then 12 else 3
  {
    hide GetCc, SetCc, Low8, Two, Waiter;
    SetIsSeen(c.cc, 0);
    SetIsSeen(c.cc, 1);
    SetIsSeen(Waiter(c).cc, 1);
  }

  // ---------- returning ----------

  // Returning takes exactly the frame away, whichever it is.
  lemma ReturnUnstacks(c: Cpu, d: Cpu, e: Entry, bytes: seq<Word>, m: nat, base: Word)
    requires Stacked(d, FrameOn(c, e, bytes), m, base)
    ensures var r := DoReturnFromInterrupt(d);
            && Stacked(r, bytes, m + FrameSize(c, e), base) && r.bus.device == d.bus.device
            && r.cc == Low8(Pushed(c, e).cc) && Same16(r.pc, Pushed(c, e).pc)
            && (!IsFast(c, e) ==> GivesBack(r, Pushed(c, e)))
            && (IsFast(c, e) ==> r == d.(cc := r.cc, pc := r.pc, s := r.s, bus := r.bus, cycles := r.cycles))
  {
    hide Stacked, GetCc, Entire, Fast, Low8, Same16, Same8, Pushed, DoReturnFromInterrupt;
    FrameMatchesE(c, e, bytes);
    if IsFast(c, e) {
      ReturnFromFast(d, Pushed(c, e), bytes, m, base);
    } else {
      ReturnFromEntire(d, Pushed(c, e), bytes, m, base);
    }
  }

  lemma SizeFits(c: Cpu, e: Entry)
    ensures FrameSize(c, e) <= 12
  {
  }

  // ---------- what is given back ----------

  lemma SameBelow(x: bv32, y: bv32)
    requires Equal16(x + 1 + 0, y + 1 + 0)
    ensures Equal16(x, y)
  {
  }

  lemma PlusInjective(p: Word, q: Word)
    requires Same16(Plus(p, 1), Plus(q, 1))
    ensures Same16(p, q)
  {
    hide Equal16;
    SameBelow(p.v, q.v);
  }

  lemma {:induction false} UpInjective(p: Word, q: Word, n: nat)
    requires Same16(Up(p, n), Up(q, n))
    ensures Same16(p, q)
    decreases n
  {
    hide Same16, Plus;
    if n > 0 {
      UpInjective(Plus(p, 1), Plus(q, 1), n - 1);
      PlusInjective(p, q);
    }
  }

  lemma SameOver(p: Word, q: Word, base: Word)
    requires Same16(p, base) && Same16(q, base)
    ensures Same16(p, q)
  {
  }

  lemma SameStack(c: Cpu, d: Cpu, bytes: seq<Word>, m: nat, base: Word)
    requires Stacked(c, bytes, m, base) && Stacked(d, bytes, m, base)
    ensures Same16(c.s, d.s)
  {
    hide Same16, Live, Room, StackBytes, Up;
    SameOver(Up(c.s, |bytes|), Up(d.s, |bytes|), base);
    UpInjective(c.s, d.s, |bytes|);
  }

  // What is pushed is the state the interrupt found, but for the E bit of its codes; CWAI has
  // read its operand and masked the codes with it.
  lemma PushedIs(c: Cpu, e: Entry)
    ensures !e.Waiting? ==> Pushed(c, e) == c.(cc := SetCc(c.cc, E, if IsFast(c, e) then 0 else 1))
    ensures e.Waiting? ==>
              Pushed(c, e) == PcRead8(c).0.(cc := SetCc(And(c.cc, PcRead8(c).1), E, 1)) && Pushed(c, e).pc == Plus(c.pc, 1)
  {
    hide SetCc, And, Answer, Plus;
  }
}
