/**
  Runs of the 6809 core with interrupts nested to any depth: whatever the handlers do, as long
  as they keep the stack, each return gives back what its own entry pushed.
 */
module M6809Nesting {
  import opened M6809Word
  import opened M6809
  import opened M6809Interrupts

  // ---------- half steps ----------

  /** The two halves of a step: looking at the interrupt lines, and executing an instruction,
      or idling while the processor waits. */
  datatype Half = Sample(irq: bool, firq: bool) | Execute

  function Do(c: Cpu, h: Half): (c': Cpu)
  {
    match h
    case Sample(irq, firq) => Interrupts(c, irq, firq)
    case Execute => if c.status != NORMAL then Tick(c, 1) else Instruction(c)
  }

  function DoAll(c: Cpu, hs: seq<Half>): (c': Cpu)
    decreases |hs|
  {
    if hs == [] then c else DoAll(Do(c, hs[0]), hs[1..])
  }

  function Halves(lines: seq<(bool, bool)>): (hs: seq<Half>)
    decreases |lines|
  {
    if lines == [] then [] else [Sample(lines[0].0, lines[0].1), Execute] + Halves(lines[1..])
  }

  lemma {:induction false} DoAppend(c: Cpu, a: seq<Half>, b: seq<Half>)
    ensures DoAll(c, a + b) == DoAll(DoAll(c, a), b)
    decreases |a|
  {
    hide Do;
    if a == [] {
      assert a + b == b;
    } else {
      assert (a + b)[1..] == a[1..] + b;
      DoAppend(Do(c, a[0]), a[1..], b);
    }
  }

  // A run is its half steps, one after the other.
  lemma {:induction false} RunIsHalves(c: Cpu, lines: seq<(bool, bool)>)
    ensures Run(c, lines) == DoAll(c, Halves(lines))
    decreases |lines|
  {
    hide Interrupts, Instruction;
    if lines != [] {
      var first, rest := [Sample(lines[0].0, lines[0].1), Execute], Halves(lines[1..]);
      DoAppend(c, first, rest);
      TwoHalves(c, lines[0].0, lines[0].1);
      RunIsHalves(Step(c, lines[0].0, lines[0].1), lines[1..]);
    }
  }

  lemma TwoHalves(c: Cpu, irq: bool, firq: bool)
    ensures DoAll(c, [Sample(irq, firq), Execute]) == Step(c, irq, firq)
  {
    hide Interrupts, Instruction;
    var c1 := Do(c, Sample(irq, firq));
    assert [Sample(irq, firq), Execute][1..] == [Execute];
    assert DoAll(c1, [Execute]) == Do(c1, Execute);
  }

  // ---------- entering and returning, by instructions and lines ----------

  // The state once the opcode of an instruction, with its page, has been fetched.
  function Fetched1(c: Cpu): (c': Cpu) { PcRead8(c).0 }

  function Opcode(c: Cpu): (i: Instr) { Decode(Number(PcRead8(c).1)) }

  function Opcode1(c: Cpu): (i: Instr) { DecodePage1(Number(PcRead8(Fetched1(c)).1)) }

  function Opcode2(c: Cpu): (i: Instr) { DecodePage2(Number(PcRead8(Fetched1(c)).1)) }

  // The state an entry starts from: that of the lines, or of the instruction after its opcode.
  function AtEntry(c: Cpu, e: Entry): (c': Cpu)
  {
    match e
    case Hardware(_, _) => c
    case Software(k) => if k == 1 then Fetched1(c) else Fetched1(Fetched1(c))
    case Waiting(_, _) => Fetched1(c)
  }

  // No interrupt gets through, so the processor goes on waiting.
  predicate Waits(c: Cpu, idle: seq<Half>)
  {
    forall i :: 0 <= i < |idle| ==> idle[i].Sample? ==> !Delivered(c, idle[i].irq, idle[i].firq)
  }

  /** The processor is about to enter: a line it does not mask is up; or the instruction at the
      program counter is SWI, SWI2 or SWI3; or it is CWAI, and a while later a line is up. */
  predicate Enters(c: Cpu, e: Entry, idle: seq<Half>)
  {
    && Taken(AtEntry(c, e), e)
    && match e
       case Hardware(_, _) => idle == []
       case Software(k) =>
         && idle == [] && c.status == NORMAL
         && (if k == 1 then Opcode(c) == SoftwareInterrupt(1)
             else if k == 2 then Opcode(c).Page1? && Opcode1(c) == SoftwareInterrupt(2)
             else Opcode(c).Page2? && Opcode2(c) == SoftwareInterrupt(3))
       case Waiting(_, _) => c.status == NORMAL && Opcode(c) == Wait && Waits(DoWait(AtEntry(c, e)), idle)
  }

  function EntryHalves(e: Entry, idle: seq<Half>): (hs: seq<Half>)
  {
    match e
    case Hardware(irq, firq) => [Sample(irq, firq)]
    case Software(_) => [Execute]
    case Waiting(irq, firq) => [Execute] + idle + [Sample(irq, firq)]
  }

  predicate Returns(c: Cpu)
  {
    c.status == NORMAL && Opcode(c) == ReturnFromInterrupt
  }

  function Later(c: Cpu, n: nat): (c': Cpu) { c.(cycles := c.cycles + n) }

  // How long it idles.
  function Idled(idle: seq<Half>): (n: nat)
    decreases |idle|
  {
    if idle == [] then 0 else Idled(idle[1..]) + if idle[0].Sample? then 0 else 1
  }

  // While it waits nothing changes but the time.
  lemma {:induction false} IdlePasses(c: Cpu, idle: seq<Half>)
    requires c.status == CWAI && Waits(c, idle)
    ensures DoAll(c, idle) == Later(c, Idled(idle))
    decreases |idle|
  {
    hide GetCc, FastInterrupt, Interrupt, Instruction;
    if idle != [] {
      var c1 := Do(c, idle[0]);
      assert c1 == Later(c, if idle[0].Sample? then 0 else 1);
      IdlePasses(c1, idle[1..]);
    }
  }

  // The interrupt that ends the wait comes at its own time.
  lemma LaterFast(c: Cpu, n: nat)
    requires c.status == CWAI
    ensures FastInterrupt(Later(c, n)) == Later(FastInterrupt(c), n)
    ensures FastInterrupt(c).status == NORMAL && GetCc(FastInterrupt(c).cc, I) == 1
  {
    hide GetCc, SetCc, Join, Answer, Plus, Low16;
    M6809Flags.SetGet(c.cc, I, 1, I);
    M6809Flags.SetGet(SetCc(c.cc, I, 1), F, 1, I);
  }

  lemma LaterOther(c: Cpu, n: nat)
    requires c.status == CWAI
    ensures Interrupt(Later(c, n)) == Later(Interrupt(c), n)
  {
    hide GetCc, SetCc, Join, Answer, Plus, Low16;
  }

  lemma LaterInterrupt(c: Cpu, irq: bool, firq: bool, n: nat)
    requires c.status == CWAI && Delivered(c, irq, firq)
    ensures Interrupts(Later(c, n), irq, firq) == Later(Interrupts(c, irq, firq), n)
  {
    hide GetCc, FastInterrupt, Interrupt;
    if FastDelivered(c, firq) {
      LaterFast(c, n);
      FastFirst(c, irq, firq);
      FastFirst(Later(c, n), irq, firq);
    } else {
      LaterOther(c, n);
    }
  }

  lemma DoOne(c: Cpu, h: Half)
    ensures DoAll(c, [h]) == Do(c, h)
  {
    hide Do;
  }

  // CWAI, at the half step that executes it.
  lemma WaitIs(c: Cpu)
    requires c.status == NORMAL && Opcode(c) == Wait
    ensures Do(c, Execute) == DoWait(Fetched1(c)) && DoWait(Fetched1(c)).status == CWAI
  {
    hide PcRead8, Decode, Number, PushEntire, SetCc, And;
  }

  lemma WaitingIs(c: Cpu, irq: bool, firq: bool, idle: seq<Half>)
    requires Enters(c, Waiting(irq, firq), idle)
    ensures DoAll(c, EntryHalves(Waiting(irq, firq), idle)) == Later(Enter(Fetched1(c), Waiting(irq, firq)), Idled(idle))
  {
    hide Interrupts, Instruction, DoWait, DoAll, Fetched1, Opcode, Delivered;
    WaitIs(c);
    var c1 := Do(c, Execute);
    DoOne(c, Execute);
    DoAppend(c, [Execute], idle);
    DoAppend(c, [Execute] + idle, [Sample(irq, firq)]);
    IdlePasses(c1, idle);
    DoOne(Later(c1, Idled(idle)), Sample(irq, firq));
    LaterInterrupt(c1, irq, firq, Idled(idle));
  }

  lemma SoftwareIs(c: Cpu, k: nat)
    requires Enters(c, Software(k), [])
    ensures Do(c, Execute) == DoSoftware(AtEntry(c, Software(k)), k)
  {
    hide PcRead8, Decode, DecodePage1, DecodePage2, Number, DoSoftware;
  }

  /** Entering, as it happens in a run, is what `Enter` says, but for the time spent waiting. */
  lemma EntryIs(c: Cpu, e: Entry, idle: seq<Half>)
    requires Enters(c, e, idle)
    ensures DoAll(c, EntryHalves(e, idle)) == Later(Enter(AtEntry(c, e), e), Idled(idle))
  {
    hide Interrupts, Instruction, Opcode, Opcode1, Opcode2, Fetched1, DoSoftware, DoWait, DoAll, Delivered;
    match e
    case Hardware(irq, firq) => DoOne(c, Sample(irq, firq));
    case Software(k) =>
      SoftwareIs(c, k);
      DoOne(c, Execute);
    case Waiting(irq, firq) => WaitingIs(c, irq, firq, idle);
  }

  lemma ReturnIs(c: Cpu)
    requires Returns(c)
    ensures Do(c, Execute) == DoReturnFromInterrupt(Fetched1(c))
  {
    hide PcRead8, Decode, Number, DoReturnFromInterrupt;
  }

  // Fetching leaves the stack alone.
  lemma FetchStacks(c: Cpu, bytes: seq<Word>, m: nat, base: Word)
    requires Stacked(c, bytes, m, base)
    ensures Stacked(Fetched1(c), bytes, m, base)
    ensures Fetched1(c) == c.(pc := Fetched1(c).pc, bus := Fetched1(c).bus) && Fetched1(c).bus.device == c.bus.device
  {
    hide Stacked, Plus, Answer, Low16;
    Read8Stacks(c, c.pc, bytes, m, base);
    StackedOnly(Read8(c, c.pc).0, Fetched1(c), bytes, m, base);
  }

  lemma AtEntryStacks(c: Cpu, e: Entry, bytes: seq<Word>, m: nat, base: Word)
    requires Stacked(c, bytes, m, base)
    ensures Stacked(AtEntry(c, e), bytes, m, base) && AtEntry(c, e).bus.device == c.bus.device && AtEntry(c, e).s == c.s
  {
    hide Stacked, Fetched1;
    FetchStacks(c, bytes, m, base);
    FetchStacks(Fetched1(c), bytes, m, base);
  }

  // ---------- nesting ----------

  /** What goes on in a run: code, and interrupts, in whose handlers more of the same goes on
      until they return. */
  datatype Activity = Code(hs: seq<Half>) | Service(entry: Entry, idle: seq<Half>, body: seq<Activity>)

  function AllHalves(acts: seq<Activity>): (hs: seq<Half>)
    decreases acts
  {
    if acts == [] then []
    else
      (match acts[0]
       case Code(hs) => hs
       case Service(e, idle, body) => EntryHalves(e, idle) + AllHalves(body) + [Execute])
      + AllHalves(acts[1..])
  }

  // The handler entered, with its frame on the stack.
  function Entered(c: Cpu, e: Entry, idle: seq<Half>): (c': Cpu)
  {
    DoAll(c, EntryHalves(e, idle))
  }

  /** Well nested: code keeps the live bytes and has S point at them again; interrupts are let
      through, or asked for, and have room; their handlers are well nested and come to an RTI. */
  ghost predicate Nested(c: Cpu, acts: seq<Activity>, bytes: seq<Word>, m: nat, base: Word)
    decreases acts
  {
    acts == [] ||
    match acts[0]
    case Code(hs) =>
      var c' := DoAll(c, hs);
      Stacked(c', bytes, m, base) && c'.bus.device == c.bus.device && Nested(c', acts[1..], bytes, m, base)
    case Service(e, idle, body) =>
      && m >= 12 && Enters(c, e, idle)
      && var c1 := Entered(c, e, idle);
         var d := DoAll(c1, AllHalves(body));
         && Nested(c1, body, FrameOn(AtEntry(c, e), e, bytes), RoomLeft(c, e, m), base)
         && Returns(d)
         && Nested(Do(d, Execute), acts[1..], bytes, m, base)
  }

  function RoomLeft(c: Cpu, e: Entry, m: nat): (k: nat)
    requires m >= 12
  {
    SizeFits(AtEntry(c, e), e);
    m - FrameSize(AtEntry(c, e), e)
  }

  lemma EntersTaken(c: Cpu, e: Entry, idle: seq<Half>)
    requires Enters(c, e, idle)
    ensures Taken(AtEntry(c, e), e)
  {
    hide Taken, AtEntry, Opcode, Opcode1, Opcode2, DoWait;
  }

  lemma EnteredStacks(c: Cpu, e: Entry, idle: seq<Half>, bytes: seq<Word>, m: nat, base: Word)
    requires Stacked(c, bytes, m, base) && m >= 12 && Enters(c, e, idle)
    ensures var c1 := Entered(c, e, idle);
            Stacked(c1, FrameOn(AtEntry(c, e), e, bytes), RoomLeft(c, e, m), base) && c1.bus.device == c.bus.device
  {
    hide Stacked, Enters, Enter, FrameOn, FrameSize, Taken, AtEntry, DoAll, EntryHalves, Idled;
    EntersTaken(c, e, idle);
    AtEntryStacks(c, e, bytes, m, base);
    EntryIs(c, e, idle);
    EnterStacks(AtEntry(c, e), e, bytes, m, base);
    SizeFits(AtEntry(c, e), e);
    StackedOnly(Enter(AtEntry(c, e), e), Entered(c, e, idle), FrameOn(AtEntry(c, e), e, bytes), RoomLeft(c, e, m), base);
  }

  // What an RTI gives back, to the frame of the entry at c.
  ghost predicate GivenBack(c: Cpu, e: Entry, d: Cpu, r: Cpu)
  {
    var k := Pushed(AtEntry(c, e), e);
    && r.cc == Low8(k.cc) && Same16(r.pc, k.pc)
    && (GetCc(r.cc, E) == 1 ==> GivesBack(r, k))
    && (GetCc(r.cc, E) == 0 ==>
          r.a == d.a && r.b == d.b && r.dp == d.dp && r.x == d.x && r.y == d.y && r.u == d.u && r.status == d.status)
  }

  lemma ReturnStacks(c: Cpu, e: Entry, d: Cpu, bytes: seq<Word>, m: nat, base: Word)
    requires m >= 12 && Stacked(d, FrameOn(AtEntry(c, e), e, bytes), RoomLeft(c, e, m), base) && Returns(d)
    ensures var r := Do(d, Execute);
            Stacked(r, bytes, m, base) && r.bus.device == d.bus.device && GivenBack(c, e, d, r)
  {
    hide Stacked, FrameOn, FrameSize, IsFast, Pushed, GivesBack, Same16, GetCc, Low8, AtEntry, Do, Returns, DoReturnFromInterrupt, Fetched1;
    var b := AtEntry(c, e);
    SizeFits(b, e);
    ReturnIs(d);
    FetchStacks(d, FrameOn(b, e, bytes), RoomLeft(c, e, m), base);
    ReturnUnstacks(b, Fetched1(d), e, bytes, RoomLeft(c, e, m), base);
    FrameMatchesE(b, e, bytes);
  }

  /** Nested to any depth, interrupts leave the stack as they found it. */
  lemma {:induction false} NestingKeepsStack(c: Cpu, acts: seq<Activity>, bytes: seq<Word>, m: nat, base: Word)
    requires Stacked(c, bytes, m, base) && Nested(c, acts, bytes, m, base)
    ensures var r := DoAll(c, AllHalves(acts)); Stacked(r, bytes, m, base) && r.bus.device == c.bus.device
    decreases acts
  {
    hide Stacked, Enters, FrameOn, RoomLeft, Returns, AtEntry, Do, DoAll, EntryHalves, Entered, GivenBack;
    if acts == [] {
      DoNone(c);
    } else {
      match acts[0]
      case Code(hs) =>
        DoAppend(c, hs, AllHalves(acts[1..]));
        NestingKeepsStack(DoAll(c, hs), acts[1..], bytes, m, base);
      case Service(e, idle, body) =>
        EnteredStacks(c, e, idle, bytes, m, base);
        var c1 := Entered(c, e, idle);
        NestingKeepsStack(c1, body, FrameOn(AtEntry(c, e), e, bytes), RoomLeft(c, e, m), base);
        var d := DoAll(c1, AllHalves(body));
        ReturnStacks(c, e, d, bytes, m, base);
        ServiceHalves(c, e, idle, body, AllHalves(acts[1..]));
        NestingKeepsStack(Do(d, Execute), acts[1..], bytes, m, base);
    }
  }

  lemma DoNone(c: Cpu)
    ensures DoAll(c, []) == c
  {
  }

  lemma ServiceHalves(c: Cpu, e: Entry, idle: seq<Half>, body: seq<Activity>, rest: seq<Half>)
    ensures var d := DoAll(Entered(c, e, idle), AllHalves(body));
            && DoAll(c, EntryHalves(e, idle) + AllHalves(body) + [Execute]) == Do(d, Execute)
            && DoAll(c, EntryHalves(e, idle) + AllHalves(body) + [Execute] + rest) == DoAll(Do(d, Execute), rest)
  {
    hide Do, DoAll, EntryHalves, AllHalves;
    var a, b := EntryHalves(e, idle), AllHalves(body);
    DoAppend(c, a, b);
    DoAppend(c, a + b, [Execute]);
    DoAppend(c, a + b + [Execute], rest);
    DoOne(DoAll(c, a + b), Execute);
  }

  /** An interrupt in a run, with whatever goes on in its handler, gives everything back: S; the
      program counter and the codes as they were pushed; and, from a frame with E set, which is
      every frame but that of a fast interrupt not waited for, all the other registers too.  The
      rest are then as the handler left them.  The run comes to the interrupt by way of `lead`
      and ends with its RTI. */
  lemma ServiceRestores(c0: Cpu, lines: seq<(bool, bool)>, lead: seq<Half>, e: Entry, idle: seq<Half>, body: seq<Activity>,
                        bytes: seq<Word>, m: nat, base: Word)
    requires Halves(lines) == lead + (EntryHalves(e, idle) + AllHalves(body) + [Execute])
    requires var c := DoAll(c0, lead);
             Stacked(c, bytes, m, base) && Nested(c, [Service(e, idle, body)], bytes, m, base)
    ensures var c := DoAll(c0, lead);
            var d := DoAll(Entered(c, e, idle), AllHalves(body));
            var r := Run(c0, lines);
            Stacked(r, bytes, m, base) && Same16(r.s, c.s) && GivenBack(c, e, d, r)
  {
    hide Stacked, Enters, FrameOn, RoomLeft, Returns, AtEntry, Do, DoAll, EntryHalves, Entered, GivenBack, Same16, Halves, Run;
    RunIsHalves(c0, lines);
    var c := DoAll(c0, lead);
    DoAppend(c0, lead, EntryHalves(e, idle) + AllHalves(body) + [Execute]);
    ServiceHalves(c, e, idle, body, []);
    EnteredStacks(c, e, idle, bytes, m, base);
    var c1 := Entered(c, e, idle);
    NestingKeepsStack(c1, body, FrameOn(AtEntry(c, e), e, bytes), RoomLeft(c, e, m), base);
    var d := DoAll(c1, AllHalves(body));
    ReturnStacks(c, e, d, bytes, m, base);
    SameStack(Do(d, Execute), c, bytes, m, base);
  }

  /** A whole run that is well nested ends with the stack, and S, as they were. */
  lemma RunKeepsStack(c: Cpu, lines: seq<(bool, bool)>, acts: seq<Activity>, bytes: seq<Word>, m: nat, base: Word)
    requires Halves(lines) == AllHalves(acts)
    requires Stacked(c, bytes, m, base) && Nested(c, acts, bytes, m, base)
    ensures Stacked(Run(c, lines), bytes, m, base) && Same16(Run(c, lines).s, c.s)
  {
    hide Stacked, Nested, DoAll, Same16, Halves, Run, AllHalves;
    RunIsHalves(c, lines);
    NestingKeepsStack(c, acts, bytes, m, base);
    SameStack(Run(c, lines), c, bytes, m, base);
  }
}
